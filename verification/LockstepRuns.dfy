/** Runs of a client and its JSON server in which one write fails: the two numberings drift
    apart, and a Cancel reaches the wrong handler. */
module LockstepRuns {
  import opened Protocol
  import opened JsonIds
  import opened JsonLink
  import opened Lockstep
  import C = ClientMachine
  import JS = JsonServing
  import P = PendingCalls
  import S = ServerMachine

  const WORK: Payload := Invoke("Arith.Add", 1)
  const FAILED: C.Attempt := C.Attempt(false, Some(Fault(1)))
  const SENT: C.Attempt := C.Attempt(true, None)

  // ---- A call that goes out --------------------------------------------------------------

  function KindOf(sync: bool): C.Kind {
    if sync then C.Sync else C.Async
  }

  // A new call, registered under the next number.
  function NewestCall(s: C.State, sync: bool, p: Payload, place: C.Place): C.Call {
    C.NewCall(KindOf(sync), p).(mark := s.table.last + 1, number := s.table.last + 1, place := place)
  }

  function Entered(s: C.State, sync: bool, p: Payload): C.State {
    s.(table := s.table.(last := s.table.last + 1, pending := s.table.pending[s.table.last + 1 := |s.calls|]),
       calls := s.calls + [NewestCall(s, sync, p, C.Writing)], names := s.names + [|s.calls|],
       req := C.BySender(|s.calls|), handmade := s.handmade || p.CancelOf?)
  }

  function Out(s: C.State, sync: bool, p: Payload): C.State {
    Entered(s, sync, p).(calls := s.calls + [NewestCall(s, sync, p, if sync then C.Selecting else C.Returned)],
                         writes := s.writes + [SENT], req := C.Free)
  }

  predicate Idle(s: C.State) {
    s.req == C.Free && C.MutexFree(s) && !s.table.closing && !s.table.shutdown
  }

  lemma Enters(l: State, sync: bool, p: Payload, bidirectional: bool) returns (m: State)
    requires Reachable(l, bidirectional) && Idle(l.client) && Proper(p)
    ensures Reachable(m, bidirectional) && m == l.(client := Entered(l.client, sync, p))
  {
    hide Reachable, JS.Apply, JS.Enabled, C.ApplyConn, C.CanConn;
    var c := |l.client.calls|;
    var l1 := Next(l, OfClient(C.OfCall(C.Begin(sync, p))), bidirectional);
    var l2 := Next(l1, OfClient(C.OfCall(C.Lock(c))), bidirectional);
    m := Next(l2, OfClient(C.OfCall(C.Enroll(c))), bidirectional);
    assert m.client.calls == Entered(l.client, sync, p).calls;
  }

  lemma Leaves(l: State, s: C.State, sync: bool, p: Payload, bidirectional: bool) returns (m: State)
    requires Reachable(l, bidirectional) && l.client == Entered(s, sync, p)
    ensures Reachable(m, bidirectional)
    ensures m == l.(client := Out(s, sync, p), requests := l.requests + [Request(s.table.last + 1, p)])
  {
    hide Reachable, JS.Apply, JS.Enabled, C.ApplyConn, C.CanConn;
    var c := |s.calls|;
    var l1 := Next(l, Send(c, SENT), bidirectional);
    m := Next(l1, OfClient(C.OfCall(C.Unlock(c))), bidirectional);
    assert m.client.calls == Out(s, sync, p).calls;
  }

  // From any state in which nobody is sending, a call can be registered and written.
  lemma GoesOut(l: State, sync: bool, p: Payload, bidirectional: bool) returns (m: State)
    requires Reachable(l, bidirectional) && Idle(l.client) && Proper(p)
    ensures Reachable(m, bidirectional)
    ensures m == l.(client := Out(l.client, sync, p), requests := l.requests + [Request(l.client.table.last + 1, p)])
  {
    hide Reachable, Entered, Out;
    var l1 := Enters(l, sync, p, bidirectional);
    m := Leaves(l1, l.client, sync, p, bidirectional);
  }

  // ---- The numbers do drift apart --------------------------------------------------------

  // The first call of a client whose WriteRequest failed.
  function FailedCall(): C.Call {
    C.NewCall(C.Async, WORK)
      .(mark := 1, number := 1, place := C.Returned, outcome := Err(Io(Fault(1))), signals := 1)
  }

  function AfterFailure(): C.State {
    C.State(P.Table(1, map[], false, false), [FailedCall()], C.Free, C.Reading, [0], [FAILED], false)
  }

  // It is registered and about to be written.
  function Registered(): C.State {
    C.State(P.Table(1, map[1 := 0], false, false),
            [C.NewCall(C.Async, WORK).(mark := 1, number := 1, place := C.Writing)], C.BySender(0), C.Reading, [0], [], false)
  }

  lemma FirstRegisters(bidirectional: bool) returns (l: State)
    ensures Reachable(l, bidirectional) && l == State(Registered(), JS.INIT, [], 0)
  {
    hide Reachable;
    Begun(bidirectional);
    var l1 := Next(INIT, OfClient(C.OfCall(C.Begin(false, WORK))), bidirectional);
    var l2 := Next(l1, OfClient(C.OfCall(C.Lock(0))), bidirectional);
    l := Next(l2, OfClient(C.OfCall(C.Enroll(0))), bidirectional);
  }

  // Its write failed and it was taken back.
  function TakenBack(): C.State {
    Registered().(table := P.Table(1, map[], false, false), writes := [FAILED],
                  calls := [C.NewCall(C.Async, WORK).(mark := 1, number := 1, place := C.Failing(0, Fault(1)))])
  }

  lemma FirstWriteFails(l: State, bidirectional: bool) returns (m: State)
    requires Reachable(l, bidirectional) && l == State(Registered(), JS.INIT, [], 0)
    ensures Reachable(m, bidirectional) && m == State(TakenBack(), JS.INIT, [], 0)
  {
    hide Reachable, JS.Apply, JS.Enabled, C.ApplyConn, C.CanConn;
    var l1 := Next(l, Send(0, FAILED), bidirectional);
    m := Next(l1, OfClient(C.OfCall(C.Reclaim(0))), bidirectional);
    assert m.client.table.pending == map[];
  }

  lemma FirstIsSettled(l: State, bidirectional: bool) returns (m: State)
    requires Reachable(l, bidirectional) && l == State(TakenBack(), JS.INIT, [], 0)
    ensures Reachable(m, bidirectional) && m == State(AfterFailure(), JS.INIT, [], 0)
  {
    hide Reachable, JS.Apply, JS.Enabled, C.ApplyConn, C.CanConn;
    var l1 := Next(l, OfClient(C.OfCall(C.FailWrite(0))), bidirectional);
    m := Next(l1, OfClient(C.OfCall(C.Unlock(0))), bidirectional);
  }

  lemma Begun(bidirectional: bool)
    ensures Reachable(INIT, bidirectional)
  {
    assert Exec(INIT, [], bidirectional) == Some(INIT);
  }

  // After one failed write, the request the client numbers 2 is the server's number 1, so
  // a Cancel that names 2 will not find it.
  lemma NumbersDrift(bidirectional: bool)
    ensures exists l :: Reachable(l, bidirectional) && |l.json.server.jobs| == |l.json.raws| == 1
                        && ClientNumber(l, 0) == 2 && l.json.server.jobs[0].number == 1
  {
    hide Reachable, C.Enabled, C.Apply, C.CanCall, C.ApplyCall;
    var l0 := FirstRegisters(bidirectional);
    var l1 := FirstWriteFails(l0, bidirectional);
    var l2 := FirstIsSettled(l1, bidirectional);
    var l3 := GoesOut(l2, false, WORK, bidirectional);
    var l4 := Next(l3, OfJson(JS.OfServer(S.OfReader(S.Grab))), bidirectional);
    var l5 := Next(l4, Serve, bidirectional);
    assert l5.json.raws == [Some(Number(2))];
    assert ClientNumber(l5, 0) == 2;
  }

  // ---- A sibling is cancelled ------------------------------------------------------------

  // After the failed write: the second call went out as 2 and its `Call` waits for it.
  function SecondWaits(): C.State {
    C.State(P.Table(2, map[2 := 1], false, false),
            [FailedCall(), C.NewCall(C.Sync, WORK).(mark := 2, number := 2, place := C.Selecting)],
            C.Free, C.Reading, [0, 1], [FAILED, SENT], false)
  }

  // The third one went out as 3.
  function ThirdOut(): C.State {
    C.State(P.Table(3, map[2 := 1, 3 := 2], false, false),
            SecondWaits().calls + [C.NewCall(C.Async, WORK).(mark := 3, number := 3, place := C.Returned)],
            C.Free, C.Reading, [0, 1, 2], [FAILED, SENT, SENT], false)
  }

  lemma SecondCalls(l: State, bidirectional: bool) returns (m: State)
    requires Reachable(l, bidirectional) && l == State(AfterFailure(), JS.INIT, [], 0)
    ensures Reachable(m, bidirectional) && m == State(SecondWaits(), JS.INIT, [Request(2, WORK)], 0)
  {
    hide Reachable;
    m := GoesOut(l, true, WORK, bidirectional);
    assert m.client.table.pending == map[2 := 1];
  }

  lemma ThirdCalls(l: State, bidirectional: bool) returns (m: State)
    requires Reachable(l, bidirectional) && l == State(SecondWaits(), JS.INIT, [Request(2, WORK)], 0)
    ensures Reachable(m, bidirectional) && m == State(ThirdOut(), JS.INIT, [Request(2, WORK), Request(3, WORK)], 0)
  {
    hide Reachable;
    m := GoesOut(l, false, WORK, bidirectional);
    assert m.client.table.pending == map[2 := 1, 3 := 2];
  }

  // The second call was withdrawn, the third was not.
  ghost predicate OnlySecondWithdrawn(s: C.State) {
    && |s.calls| == 4 && s.calls[1].number == 2 && s.calls[1].withdrawn
    && s.calls[2].number == 3 && !s.calls[2].withdrawn && !s.handmade
  }

  // The Cancel of the second call is about to be sent.
  function Cancelling(): C.State {
    ThirdOut().(table := P.Table(3, map[3 := 2], false, false),
                calls := [FailedCall(), SecondWaits().calls[1].(place := C.Awaiting(3), withdrawn := true, notice := Some(3)),
                          ThirdOut().calls[2], C.NewCall(C.Notice(1), CancelOf(2))])
  }

  lemma SecondWithdraws(l: State, bidirectional: bool) returns (m: State)
    requires Reachable(l, bidirectional) && l == State(ThirdOut(), JS.INIT, [Request(2, WORK), Request(3, WORK)], 0)
    ensures Reachable(m, bidirectional) && m == State(Cancelling(), JS.INIT, [Request(2, WORK), Request(3, WORK)], 0)
  {
    hide Reachable, JS.Apply, JS.Enabled, C.ApplyConn, C.CanConn;
    var l1 := Next(l, OfClient(C.OfCall(C.Withdraw(1))), bidirectional);
    assert l1.client.table.pending == map[3 := 2];
    m := Next(l1, OfClient(C.OfCall(C.Notify(1))), bidirectional);
  }

  lemma CancelGoesOut(l: State, bidirectional: bool) returns (m: State)
    requires Reachable(l, bidirectional) && l == State(Cancelling(), JS.INIT, [Request(2, WORK), Request(3, WORK)], 0)
    ensures Reachable(m, bidirectional) && OnlySecondWithdrawn(m.client)
    ensures m.requests == [Request(2, WORK), Request(3, WORK), Request(4, CancelOf(2))] && m.json == JS.INIT
  {
    hide Reachable, JS.Apply, JS.Enabled, C.ApplyConn, C.CanConn;
    var l1 := CancelRegisters(l, bidirectional);
    m := Next(l1, Send(3, SENT), bidirectional);
  }

  lemma CancelRegisters(l: State, bidirectional: bool) returns (m: State)
    requires Reachable(l, bidirectional) && l == State(Cancelling(), JS.INIT, [Request(2, WORK), Request(3, WORK)], 0)
    ensures Reachable(m, bidirectional) && OnlySecondWithdrawn(m.client) && m == l.(client := m.client)
    ensures m.client.calls[3] == C.NewCall(C.Notice(1), CancelOf(2)).(mark := 4, number := 4, place := C.Writing)
  {
    hide Reachable, JS.Apply, JS.Enabled, C.ApplyConn, C.CanConn;
    var l1 := Next(l, OfClient(C.OfCall(C.Lock(3))), bidirectional);
    m := Next(l1, OfClient(C.OfCall(C.Enroll(3))), bidirectional);
  }

  // Job `o`, the server's number o + 1, runs.
  function RunningJob(o: nat): S.Job {
    S.NewJob(Request(o + 1, WORK), o).(place := S.Running, started := true, argument := o + 1, hook := S.InTable)
  }

  function OneRuns(): JS.State {
    JS.State(S.State([S.Object(1, WORK.service)], [S.ByJob(0)], [], S.Top, [RunningJob(0)], map[1 := 0], None, 1, false),
             Table(1, map[1 := Some(Number(2))]), [Some(Number(2))], [], {})
  }

  function TwoRun(): JS.State {
    JS.State(S.State([S.Object(1, WORK.service), S.Object(2, WORK.service)], [S.ByJob(0), S.ByJob(1)], [], S.Top,
                     [RunningJob(0), RunningJob(1)], map[1 := 0, 2 := 1], None, 2, false),
             Table(2, map[1 := Some(Number(2)), 2 := Some(Number(3))]), [Some(Number(2)), Some(Number(3))], [], {})
  }

  function OfReader(st: S.ReadStep): Step {
    OfJson(JS.OfServer(S.OfReader(st)))
  }

  function OfJob(st: S.JobStep): Step {
    OfJson(JS.OfServer(S.OfJob(st)))
  }

  // A server between two headers that has no unused record.
  predicate AtRest(s: JS.State) {
    && s.server.reader == S.Top && s.server.free == [] && |s.server.owner| == |s.server.heap|
    && s.table.last + 1 !in s.server.table
  }

  // The next request was read into a new record.
  function WithHeader(s: JS.State, q: Request): JS.State {
    var n := s.table.last + 1;
    var k := |s.server.jobs|;
    s.(server := s.server.(heap := s.server.heap + [S.Object(n, NameOf(q.payload))], owner := s.server.owner + [S.ByJob(k)],
                           reader := S.Busy(k),
                           jobs := s.server.jobs + [S.NewJob(Request(n, q.payload), |s.server.heap|)]),
       table := Table(n, s.table.pending[n := IdOf(q)]), raws := s.raws + [IdOf(q)])
  }

  // And its handler runs.
  function WithHandler(s: JS.State, q: Request): JS.State {
    var n := s.table.last + 1;
    var k := |s.server.jobs|;
    var r := WithHeader(s, q);
    r.(server := r.server.(reader := S.Top, table := s.server.table[n := k], wg := s.server.wg + 1,
                           jobs := s.server.jobs + [S.NewJob(Request(n, q.payload), |s.server.heap|)
                                                     .(place := S.Running, started := true, argument := n, hook := S.InTable)]))
  }

  lemma ReadsNext(l: State, bidirectional: bool) returns (m: State)
    requires Reachable(l, bidirectional) && AtRest(l.json) && l.requests != [] && Proper(l.requests[0].payload)
    ensures Reachable(m, bidirectional)
    ensures m == l.(json := WithHeader(l.json, l.requests[0]), requests := l.requests[1..])
  {
    hide Reachable, C.Enabled, C.Apply, C.CanCall, C.ApplyCall, S.CanJob, S.ApplyJob;
    var l1 := Next(l, OfReader(S.Grab), bidirectional);
    m := Next(l1, Serve, bidirectional);
    assert m.json.server.heap == WithHeader(l.json, l.requests[0]).server.heap;
    assert m.json.server.owner == WithHeader(l.json, l.requests[0]).server.owner;
  }

  // The reader handed it to a handler.
  function WithSpawned(s: JS.State, q: Request): JS.State {
    var n := s.table.last + 1;
    var r := WithHeader(s, q);
    r.(server := r.server.(reader := S.Top, wg := s.server.wg + 1,
                           jobs := s.server.jobs + [S.NewJob(Request(n, q.payload), |s.server.heap|).(place := S.Spawned)]))
  }

  lemma AcceptsIt(l: State, s: JS.State, q: Request, bidirectional: bool) returns (m: State)
    requires Reachable(l, bidirectional) && l.json == WithHeader(s, q)
    ensures Reachable(m, bidirectional) && m == l.(json := WithSpawned(s, q))
  {
    hide Reachable, C.Enabled, C.Apply, C.CanCall, C.ApplyCall, S.CanJob, S.ApplyJob;
    m := Next(l, OfReader(S.Accept), bidirectional);
    assert m.json.server.jobs == WithSpawned(s, q).server.jobs;
  }

  lemma StartsIt(l: State, s: JS.State, q: Request, bidirectional: bool) returns (m: State)
    requires Reachable(l, bidirectional) && AtRest(s) && l.json == WithHeader(s, q)
    ensures Reachable(m, bidirectional) && m == l.(json := WithHandler(s, q))
  {
    hide Reachable, C.Enabled, C.Apply, C.CanCall, C.ApplyCall, S.CanRead, S.ApplyRead;
    var l1 := AcceptsIt(l, s, q, bidirectional);
    m := Next(l1, OfJob(S.Start(|s.server.jobs|)), bidirectional);
    assert m.json.server.jobs == WithHandler(s, q).server.jobs;
  }

  lemma ServesNext(l: State, bidirectional: bool) returns (m: State)
    requires Reachable(l, bidirectional) && AtRest(l.json) && l.requests != [] && Proper(l.requests[0].payload)
    ensures Reachable(m, bidirectional)
    ensures m == l.(json := WithHandler(l.json, l.requests[0]), requests := l.requests[1..])
  {
    hide Reachable, WithHeader, WithHandler;
    var l1 := ReadsNext(l, bidirectional);
    m := StartsIt(l1, l.json, l.requests[0], bidirectional);
  }

  lemma FirstServed(l: State, bidirectional: bool) returns (m: State)
    requires Reachable(l, bidirectional) && l.json == JS.INIT
    requires l.requests == [Request(2, WORK), Request(3, WORK), Request(4, CancelOf(2))]
    ensures Reachable(m, bidirectional) && m.client == l.client && m.json == OneRuns()
    ensures m.requests == [Request(3, WORK), Request(4, CancelOf(2))]
  {
    hide Reachable;
    m := ServesNext(l, bidirectional);
  }

  lemma SecondServed(l: State, bidirectional: bool) returns (m: State)
    requires Reachable(l, bidirectional) && l.json == OneRuns() && l.requests == [Request(3, WORK), Request(4, CancelOf(2))]
    ensures Reachable(m, bidirectional) && m.client == l.client && m.json == TwoRun()
    ensures m.requests == [Request(4, CancelOf(2))]
  {
    hide Reachable;
    m := ServesNext(l, bidirectional);
  }

  lemma CancelStarts(l: State, bidirectional: bool) returns (m: State)
    requires Reachable(l, bidirectional) && l.json == TwoRun() && l.requests == [Request(4, CancelOf(2))]
    ensures Reachable(m, bidirectional) && m.client == l.client && |m.json.raws| == 3 && m.json.raws[..2] == TwoRun().raws
    ensures |m.json.server.jobs| == 3 && m.json.server.jobs[1] == RunningJob(1) && m.json.server.table == map[1 := 0, 2 := 1, 3 := 2]
    ensures S.At(m.json.server, 2, S.Running) && m.json.server.jobs[2].payload == CancelOf(2)
  {
    hide Reachable;
    m := ServesNext(l, bidirectional);
  }

  // One failed write is enough: a withdrawal of the call with number 2 cancels the context
  // of the handler that serves the call with number 3, which was not withdrawn and which
  // is still running.
  lemma SiblingCancelled(bidirectional: bool)
    ensures exists l :: Reachable(l, bidirectional) && OnlySecondWithdrawn(l.client)
                        && |l.json.raws| == |l.json.server.jobs| == 3 && ClientNumber(l, 1) == 3
                        && l.json.server.jobs[1].cancels == 1 && l.json.server.jobs[1].place == S.Running
  {
    hide Reachable, OnlySecondWithdrawn, C.Enabled, C.Apply, C.CanCall, C.ApplyCall;
    var l0 := FirstRegisters(bidirectional);
    var l1 := FirstWriteFails(l0, bidirectional);
    var l2 := FirstIsSettled(l1, bidirectional);
    var l3 := SecondCalls(l2, bidirectional);
    var l4 := ThirdCalls(l3, bidirectional);
    var l5 := SecondWithdraws(l4, bidirectional);
    var l6 := CancelGoesOut(l5, bidirectional);
    var l7 := FirstServed(l6, bidirectional);
    var l8 := SecondServed(l7, bidirectional);
    var l9 := CancelStarts(l8, bidirectional);
    var l10 := Next(l9, OfJob(S.Take(2)), bidirectional);
    var l11 := Next(l10, OfJob(S.Strike(2)), bidirectional);
    assert l11.json.raws[1] == TwoRun().raws[1];
    assert ClientNumber(l11, 1) == 3;
  }
}
