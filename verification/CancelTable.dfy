/** `svc.Pending`: the table of cancel functions of the handlers that run. A context is
    known by a number; its cancel function marks it done. */
module CancelTable {
  import opened Protocol

  type Context = nat

  // What Start and Cancel make of the table.
  function WithStarted(m: map<nat, Context>, number: nat, ctx: Context): map<nat, Context> {
    m[number := ctx]
  }

  function WithoutCancelled(m: map<nat, Context>, number: nat): map<nat, Context> {
    m - {number}
  }

  class Pending {
    var m: map<nat, Context>
    var made: nat          // contexts 0, 1, ... made - 1 were made
    var ran: seq<Context>  // the cancel functions that were run, in order

    // The table holds cancel functions that were not run, each under one number, and no
    // cancel function was run twice.
    ghost predicate Valid()
      reads this
    {
      && (forall n :: n in m ==> m[n] < made && m[n] !in ran)
      && (forall n, k :: n in m && k in m && n != k ==> m[n] != m[k])
      && (forall ctx :: ctx in ran ==> ctx < made)
      && Distinct(ran)
    }

    predicate Done(ctx: Context)
      reads this
    {
      ctx in ran
    }

    constructor ()
      ensures Valid() && m == map[] && made == 0 && ran == []
    {
      m, made, ran := map[], 0, [];
    }

    method Start(number: nat) returns (ctx: Context)
      requires Valid()
      modifies this
      ensures Valid() && ctx == old(made) && made == old(made) + 1 && !Done(ctx)
      ensures m == WithStarted(old(m), number, ctx) && ran == old(ran)
    {
      ctx := made;
      made := made + 1;
      m := m[number := ctx];
    }

    // Runs the cancel function registered under `number`, if there is one, and only that.
    method Cancel(number: nat)
      requires Valid()
      modifies this
      ensures Valid() && m == WithoutCancelled(old(m), number) && made == old(made)
      ensures ran == if number in old(m) then old(ran) + [old(m)[number]] else old(ran)
    {
      if number in m {
        var cancel := m[number];
        m := m - {number};
        ran := ran + [cancel];
      }
    }
  }

  // A handler under a number nobody else uses: its context is live until its own deferred
  // Cancel, which leaves the table as it was before Start and no other context done.
  method StartThenCancel(p: Pending, number: nat) returns (ctx: Context)
    requires p.Valid() && number !in p.m
    modifies p
    ensures p.Valid() && p.m == old(p.m) && p.ran == old(p.ran) + [ctx] && ctx == old(p.made)
  {
    ctx := p.Start(number);
    p.Cancel(number);
  }

  // Under a number that is in use, the earlier handler's cancel function is lost: the
  // first deferred Cancel to come runs the later one, whoever defers it, and the earlier
  // context stays live.
  method DuplicateNumber(p: Pending, number: nat) returns (first: Context, second: Context)
    requires p.Valid() && number !in p.m
    modifies p
    ensures p.Valid() && p.m == old(p.m) && p.ran == old(p.ran) + [second]
    ensures first != second && !p.Done(first)
  {
    first := p.Start(number);
    second := p.Start(number);
    p.Cancel(number);
    p.Cancel(number);
  }
}
