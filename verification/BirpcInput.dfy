/** `BirpcClient.input`: one loop that reads requests for the server half and responses for
    the client half, until a header or the body of a response cannot be read; then the
    termination section. */
module BirpcInput {
  import opened Protocol
  import opened BasicClient
  import opened Pool
  import opened ServiceCall
  import opened ServeLoop
  import S = ServerMachine

  // One header, by kind, with what its body turns out to be.
  datatype Incoming = Asked(a: Arrival) | Answered(m: Message)

  function Asks(fs: seq<Incoming>): seq<Arrival> {
    if fs == [] then []
    else
      var f := fs[|fs| - 1];
      Asks(fs[..|fs| - 1]) + (if f.Asked? then [f.a] else [])
  }

  function Answers(fs: seq<Incoming>): seq<Message> {
    if fs == [] then []
    else
      var f := fs[|fs| - 1];
      Answers(fs[..|fs| - 1]) + (if f.Answered? then [f.m] else [])
  }

  lemma {:induction false} AnswersPrefix(fs: seq<Incoming>, k: nat)
    requires k <= |fs|
    ensures Answers(fs[..k]) <= Answers(fs)
    decreases |fs|
  {
    if k == |fs| {
      assert fs[..k] == fs;
    } else {
      AnswersPrefix(fs[..|fs| - 1], k);
      assert fs[..|fs| - 1][..k] == fs[..k];
    }
  }

  // Where the k-th message stands among those of its kind.
  lemma Standing(fs: seq<Incoming>, k: nat)
    requires k < |fs|
    ensures Asks(fs[..k + 1]) == if fs[k].Asked? then Asks(fs[..k]) + [fs[k].a] else Asks(fs[..k])
    ensures Answers(fs[..k + 1]) == if fs[k].Answered? then Answers(fs[..k]) + [fs[k].m] else Answers(fs[..k])
  {
    assert fs[..k + 1][..k] == fs[..k];
  }

  // The header was a response: the record taken for a request goes back unused.
  method ReturnUnused(c: Connection, ghost handlers: seq<Handler>, ghost qs: seq<Request>)
    requires c.Valid() && Holding(handlers, qs, c.requests.list)
    modifies c.requests, c.requests.list
    ensures c.Valid() && Holding(handlers, qs, c.requests.list)
    ensures forall i :: 0 <= i < |c.requests.list| ==>
              c.requests.list[i] in old(c.requests.list) || fresh(c.requests.list[i])
  {
    var req := c.requests.Get();
    c.requests.Free(req);
  }

  lemma Snoc(arrivals: seq<Arrival>, a: Arrival)
    ensures Refusals(arrivals + [a], true) == Refusals(arrivals, true) + Refusals([a], true)
    ensures Accepted(arrivals + [a]) == Accepted(arrivals) + Accepted([a])
  {
    assert (arrivals + [a])[..|arrivals|] == arrivals;
  }

  // The loop's work for the server half, for the k-th header.
  method Serve(c: Connection, fs: seq<Incoming>, k: nat, handlers: seq<Handler>, ghost before: seq<Response>)
    returns (more: seq<Handler>)
    requires k < |fs| && c.Valid() && c.sent == before + Refusals(Asks(fs[..k]), true)
    requires Holding(handlers, Accepted(Asks(fs[..k])), c.requests.list)
    modifies c`sent, c.requests, c.requests.list, c.responses, c.responses.list
    ensures c.Valid() && c.sent == before + Refusals(Asks(fs[..k + 1]), true)
    ensures Holding(more, Accepted(Asks(fs[..k + 1])), c.requests.list)
    ensures forall i :: 0 <= i < |c.requests.list| ==>
              c.requests.list[i] in old(c.requests.list) || fresh(c.requests.list[i])
    ensures forall i :: 0 <= i < |c.responses.list| ==>
              c.responses.list[i] in old(c.responses.list) || fresh(c.responses.list[i])
  {
    hide Answers, Asks, Refusals, Accepted, Connection.Valid;
    Standing(fs, k);
    match fs[k]
    case Asked(a) =>
      Snoc(Asks(fs[..k]), a);
      more := ServeOne(c, a, true, handlers, Accepted(Asks(fs[..k])));
    case Answered(_) =>
      ReturnUnused(c, handlers, Accepted(Asks(fs[..k])));
      more := handlers;
  }

  // The loop's work for the client half.
  method Hear(client: BasicClient, fs: seq<Incoming>, k: nat, end: IoError, ghost start: map<nat, Call>)
    returns (stop: Option<Error>)
    requires k < |fs| && client.Valid() && !client.shutdown && Answers(fs[..k]) <= Answers(fs)
    requires client.Judged(start, Answers(fs), end, |Answers(fs[..k])|, None)
    requires Different(start)
    modifies client`pending, client.pending.Values
    ensures client.Valid() && client.Contents() == old(client.Contents()).(pending := client.pending)
    ensures Answers(fs[..k + 1]) <= Answers(fs)
    ensures client.pending.Keys == StillWaiting(fs[k], old(client.pending.Keys))
    ensures forall n :: n in client.pending ==> n in old(client.pending) && client.pending[n] == old(client.pending)[n]
    ensures stop == StopAfter(fs[k], old(client.pending.Keys))
    ensures client.Judged(start, Answers(fs), end, |Answers(fs[..k + 1])|, stop)
  {
    hide Verdict, Answers, Asks, BasicClient.Valid, BasicClient.Judged;
    Standing(fs, k);
    AnswersPrefix(fs, k + 1);
    match fs[k]
    case Asked(_) => stop := None;
    case Answered(m) =>
      assert Answers(fs)[|Answers(fs[..k])|] == m;
      stop := client.ReadOne(Answers(fs), end, |Answers(fs[..k])|, start);
  }

  // Whether the loop ends after this message, when the calls `waiting` are in the table: a
  // request never ends it, nor does a response whose body was read.
  function StopAfter(f: Incoming, waiting: set<nat>): Option<Error> {
    match f
    case Asked(_) => None
    case Answered(m) => StopOf(m, m.frame.number in waiting)
  }

  function StillWaiting(f: Incoming, waiting: set<nat>): set<nat> {
    match f
    case Asked(_) => waiting
    case Answered(m) => waiting - {m.frame.number}
  }

  // How many messages the loop reads, and the error that ends it, if it is not the header
  // that fails after all of them.
  function Extent(fs: seq<Incoming>, waiting: set<nat>): (r: (nat, Option<Error>))
    ensures r.0 <= |fs|
    decreases |fs|
  {
    if fs == [] then (0, None)
    else if StopAfter(fs[0], waiting).Some? then (1, StopAfter(fs[0], waiting))
    else
      var r := Extent(fs[1..], StillWaiting(fs[0], waiting));
      (r.0 + 1, r.1)
  }

  // A call waits for the i-th message, a response, when it comes.
  predicate AwaitedAt(fs: seq<Incoming>, waiting: set<nat>, i: nat)
    requires i < |fs| && fs[i].Answered?
  {
    && fs[i].m.frame.number in waiting
    && forall j :: 0 <= j < i && fs[j].Answered? ==> fs[j].m.frame.number != fs[i].m.frame.number
  }

  // The loop ends right after the first response whose body cannot be read, with the
  // codec's own error if that body was to be a waiting call's reply, and with "reading
  // error body" if not; without such a response it reads everything. A bad request body
  // does not end it.
  lemma {:induction false} ExtentIs(fs: seq<Incoming>, waiting: set<nat>)
    ensures var k := Extent(fs, waiting).0;
            var stop := Extent(fs, waiting).1;
            && (forall i :: 0 <= i < k - 1 && fs[i].Answered? ==> fs[i].m.fail.None?)
            && (if stop.None? then
                  k == |fs| && forall i :: 0 <= i < |fs| && fs[i].Answered? ==> fs[i].m.fail.None?
                else
                  && k > 0 && fs[k - 1].Answered? && fs[k - 1].m.fail.Some?
                  && stop.value == (if AwaitedAt(fs, waiting, k - 1) && fs[k - 1].m.frame.text == ""
                                    then Io(fs[k - 1].m.fail.value) else BadErrorBody(fs[k - 1].m.fail.value)))
    decreases |fs|
  {
    if fs != [] && StopAfter(fs[0], waiting).None? {
      ExtentIs(fs[1..], StillWaiting(fs[0], waiting));
      var k := Extent(fs[1..], StillWaiting(fs[0], waiting)).0;
      forall i | 0 < i <= k ensures fs[i] == fs[1..][i - 1] {
      }
      if Extent(fs, waiting).1.Some? { AwaitedLaterAt(fs, waiting, k); }
    }
  }

  lemma AwaitedLaterAt(fs: seq<Incoming>, waiting: set<nat>, i: nat)
    requires 0 < i < |fs| && fs[i].Answered?
    ensures fs[1..][i - 1] == fs[i]
    ensures AwaitedAt(fs, waiting, i) <==> AwaitedAt(fs[1..], StillWaiting(fs[0], waiting), i - 1)
  {
    assert forall j :: 0 < j <= i ==> fs[1..][j - 1] == fs[j];
    if AwaitedAt(fs[1..], StillWaiting(fs[0], waiting), i - 1) {
      forall j | 0 <= j < i && fs[j].Answered? ensures fs[j].m.frame.number != fs[i].m.frame.number {
        if j > 0 { assert fs[1..][j - 1] == fs[j]; }
      }
    }
  }

  // After `k` messages, with the calls `waiting` left of `first`.
  ghost predicate OnCourse(fs: seq<Incoming>, first: set<nat>, k: nat, waiting: set<nat>, stop: Option<Error>) {
    && k <= |fs|
    && if stop.Some? then Extent(fs, first) == (k, stop)
       else Extent(fs, first) == (k + Extent(fs[k..], waiting).0, Extent(fs[k..], waiting).1)
  }

  lemma CourseStart(fs: seq<Incoming>, first: set<nat>)
    ensures OnCourse(fs, first, 0, first, None)
  {
    assert fs[0..] == fs;
  }

  lemma CourseStep(fs: seq<Incoming>, first: set<nat>, k: nat, waiting: set<nat>)
    requires k < |fs| && OnCourse(fs, first, k, waiting, None)
    ensures OnCourse(fs, first, k + 1, StillWaiting(fs[k], waiting), StopAfter(fs[k], waiting))
  {
    assert fs[k..][1..] == fs[k + 1..];
  }

  lemma CourseEnd(fs: seq<Incoming>, first: set<nat>, k: nat, waiting: set<nat>, stop: Option<Error>)
    requires OnCourse(fs, first, k, waiting, stop) && (k == |fs| || stop.Some?)
    ensures Extent(fs, first) == (k, stop)
  {
  }

  // One turn of the loop.
  method Turn(client: BasicClient, c: Connection, fs: seq<Incoming>, k: nat, end: IoError, handlers: seq<Handler>,
              ghost start: map<nat, Call>, ghost before: seq<Response>)
    returns (more: seq<Handler>, stop: Option<Error>)
    requires k < |fs| && c.Valid() && c.sent == before + Refusals(Asks(fs[..k]), true)
    requires Holding(handlers, Accepted(Asks(fs[..k])), c.requests.list)
    requires client.Valid() && !client.shutdown && Different(start) && Answers(fs[..k]) <= Answers(fs)
    requires client.Judged(start, Answers(fs), end, |Answers(fs[..k])|, None)
    requires OnCourse(fs, start.Keys, k, client.pending.Keys, None)
    modifies c`sent, c.requests, c.requests.list, c.responses, c.responses.list, client`pending, client.pending.Values
    ensures c.Valid() && c.sent == before + Refusals(Asks(fs[..k + 1]), true)
    ensures Holding(more, Accepted(Asks(fs[..k + 1])), c.requests.list)
    ensures forall i :: 0 <= i < |c.requests.list| ==>
              c.requests.list[i] in old(c.requests.list) || fresh(c.requests.list[i])
    ensures forall i :: 0 <= i < |c.responses.list| ==>
              c.responses.list[i] in old(c.responses.list) || fresh(c.responses.list[i])
    ensures client.Valid() && client.Contents() == old(client.Contents()).(pending := client.pending)
    ensures Answers(fs[..k + 1]) <= Answers(fs)
    ensures OnCourse(fs, start.Keys, k + 1, client.pending.Keys, stop)
    ensures forall n :: n in client.pending ==> n in old(client.pending) && client.pending[n] == old(client.pending)[n]
    ensures client.Judged(start, Answers(fs), end, |Answers(fs[..k + 1])|, stop)
  {
    hide Verdict, Refusals, Accepted, Asks, Answers, OnCourse, BasicClient.Judged, BasicClient.Valid, Connection.Valid;
    CourseStep(fs, start.Keys, k, client.pending.Keys);
    more := Serve(c, fs, k, handlers, before);
    stop := Hear(client, fs, k, end, start);
  }

  lemma NothingYet(client: BasicClient, list: seq<Record<S.Object>>, fs: seq<Incoming>, end: IoError)
    ensures Refusals(Asks(fs[..0]), true) == [] && Answers(fs[..0]) == []
    ensures Holding([], Accepted(Asks(fs[..0])), list)
    ensures client.Judged(client.pending, Answers(fs), end, 0, None)
  {
    client.JudgedFirst(Answers(fs), end);
  }

  // The loop, when nothing else happens on the connection: `k` messages are read, up to
  // the first response whose body cannot be read, or the failing header. The requests
  // among them are refused in order or given to handlers; calls taken from the table have
  // the verdict on the responses, and the verdict on the others is the error it ends with.
  method ReadAll(client: BasicClient, c: Connection, fs: seq<Incoming>, end: IoError)
    returns (handlers: seq<Handler>, k: nat, stop: Option<Error>)
    requires client.Valid() && !client.shutdown && c.Valid()
    modifies c`sent, c.requests, c.requests.list, c.responses, c.responses.list, client`pending, client.pending.Values
    ensures k <= |fs| && c.Valid() && c.sent == old(c.sent) + Refusals(Asks(fs[..k]), true)
    ensures Holding(handlers, Accepted(Asks(fs[..k])), c.requests.list)
    ensures client.Valid() && client.Contents() == old(client.Contents()).(pending := client.pending)
    ensures Answers(fs[..k]) <= Answers(fs)
    ensures client.Judged(old(client.pending), Answers(fs), end, |Answers(fs[..k])|, stop)
    ensures (k, stop) == Extent(fs, old(client.pending.Keys))
  {
    hide Verdict, Refusals, Accepted, OnCourse, BasicClient.Judged, Connection.Valid;
    handlers := [];
    k := 0;
    stop := None;
    client.MarksDiffer();
    CourseStart(fs, client.pending.Keys);
    NothingYet(client, c.requests.list, fs, end);
    while k < |fs| && stop.None?
      invariant k <= |fs| && c.Valid() && c.sent == old(c.sent) + Refusals(Asks(fs[..k]), true)
      invariant Holding(handlers, Accepted(Asks(fs[..k])), c.requests.list)
      invariant forall i :: 0 <= i < |c.requests.list| ==>
                  c.requests.list[i] in old(c.requests.list) || fresh(c.requests.list[i])
      invariant forall i :: 0 <= i < |c.responses.list| ==>
                  c.responses.list[i] in old(c.responses.list) || fresh(c.responses.list[i])
      invariant client.Valid() && client.Contents() == old(client.Contents()).(pending := client.pending)
      invariant Answers(fs[..k]) <= Answers(fs)
      invariant forall n :: n in client.pending ==> n in old(client.pending) && client.pending[n] == old(client.pending)[n]
      invariant OnCourse(fs, old(client.pending.Keys), k, client.pending.Keys, stop)
      invariant client.Judged(old(client.pending), Answers(fs), end, |Answers(fs[..k])|, stop)
    {
      handlers, stop := Turn(client, c, fs, k, end, handlers, old(client.pending), old(c.sent));
      k := k + 1;
    }
    CourseEnd(fs, old(client.pending.Keys), k, client.pending.Keys, stop);
  }

  lemma AllAnswersIf(fs: seq<Incoming>, k: nat, stop: Option<Error>)
    requires k <= |fs| && (stop.None? ==> k == |fs|)
    ensures stop.None? ==> Answers(fs[..k]) == Answers(fs)
  {
    if stop.None? {
      assert fs[..k] == fs;
    }
  }

  // The whole of `input`: every call that waited is signalled exactly once, with the
  // verdict on the responses that arrived.
  method Input(client: BasicClient, c: Connection, fs: seq<Incoming>, end: IoError)
    returns (handlers: seq<Handler>, k: nat)
    requires client.Valid() && !client.shutdown && c.Valid()
    modifies client`pending, client`shutdown, client.pending.Values
    modifies c`sent, c.requests, c.requests.list, c.responses, c.responses.list
    ensures k == Extent(fs, old(client.pending.Keys)).0
    ensures c.Valid() && c.sent == old(c.sent) + Refusals(Asks(fs[..k]), true)
    ensures Holding(handlers, Accepted(Asks(fs[..k])), c.requests.list)
    ensures client.Valid() && client.shutdown && client.closing == old(client.closing) && client.last == old(client.last)
    ensures forall n :: n in old(client.pending) ==>
              old(client.pending)[n].signals == 1
              && old(client.pending)[n].outcome == Verdict(Answers(fs), end, old(client.pending.Keys), client.closing, n)
  {
    hide Verdict, Asks, Answers, Accepted, Refusals, Extent, BasicClient.Judged, Connection.Valid;
    ghost var start := client.pending;
    var stop;
    handlers, k, stop := ReadAll(client, c, fs, end);
    ExtentIs(fs, start.Keys);
    AllAnswersIf(fs, k, stop);
    client.JudgedLast(start, Answers(fs), end, |Answers(fs[..k])|, stop);
    client.Terminate(if stop.Some? then stop.value else Io(end));
  }
}
