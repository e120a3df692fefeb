/** The free lists of `basicServer`: `freeReq` and `freeResp` are the same linked list
    over two record types. */
module Pool {

  // A `Request` or `Response` object; `fields` are its exported fields.
  class Record<T> {
    var fields: T
    var next: Record?<T>

    constructor (zero: T)
      ensures fields == zero && next == null
    {
      fields := zero;
      next := null;
    }
  }

  // The record after the i-th one.
  function Follower<T>(list: seq<Record<T>>, i: nat): Record?<T> {
    if i + 1 < |list| then list[i + 1] else null
  }

  // What taking from a free list means: the head leaves it, if there is one.
  ghost predicate Taken<R>(before: seq<R>, after: seq<R>, r: R) {
    if before == [] then after == [] else r == before[0] && after == before[1..]
  }

  // And giving back: the record is the new head.
  ghost predicate GivenBack<R>(before: seq<R>, after: seq<R>, r: R) {
    after == [r] + before
  }

  class FreeList<T> {
    const zero: T
    var head: Record?<T>
    ghost var list: seq<Record<T>> // the records on the list, head first

    // The list is acyclic: distinct records, each linked to the next one.
    ghost predicate Valid()
      reads this, list
    {
      && (head == if list == [] then null else list[0])
      && (forall i: nat :: i < |list| ==> list[i].next == Follower(list, i))
      && (forall i, j :: 0 <= i < j < |list| ==> list[i] != list[j])
    }

    constructor (zero: T)
      ensures Valid() && list == [] && this.zero == zero
    {
      this.zero := zero;
      head := null;
      list := [];
    }

    // getRequest, getResponse
    method Get() returns (r: Record<T>)
      requires Valid()
      modifies this, list
      ensures Valid() && r.fields == zero && r.next == null && r !in list
      ensures Taken(old(list), list, r) && (old(list) == [] ==> fresh(r))
      ensures forall o :: o in list ==> o.fields == old(o.fields)
    {
      if head == null {
        r := new Record(zero);
      } else {
        r := head;
        head := r.next;
        ghost var before := list;
        list := list[1..];
        forall i: nat | i < |list| ensures list[i] != r && list[i].next == Follower(list, i) {
          assert list[i] == before[i + 1] && before[i + 1].next == Follower(before, i + 1);
        }
        r.fields := zero;
        r.next := null;
      }
    }

    // freeRequest, freeResponse; the caller must own the record.
    method Free(r: Record<T>)
      requires Valid() && r !in list
      modifies this, r
      ensures Valid() && GivenBack(old(list), list, r)
      ensures r.fields == old(r.fields)
    {
      r.next := head;
      head := r;
      ghost var before := list;
      list := [r] + list;
      forall i: nat | 0 < i < |list| ensures list[i] != r && list[i].next == Follower(list, i) {
        assert list[i] == before[i - 1] && old(before[i - 1].next) == Follower(before, i - 1);
      }
    }
  }

  // What was freed last is handed out first, as a zeroed record; the rest of the list is
  // as it was.
  method FreeThenGet<T>(pool: FreeList<T>, r: Record<T>) returns (q: Record<T>)
    requires pool.Valid() && r !in pool.list
    modifies pool, r, pool.list
    ensures q == r && pool.Valid() && pool.list == old(pool.list) && q.fields == pool.zero
  {
    pool.Free(r);
    q := pool.Get();
  }
}
