/** The protocol is not only safe: whatever happened before, while both peers read and
    nothing is on the wire a new call can be carried to its end and returns what its
    handler returns, also when that handler calls back over the connection it serves. */
module NetRuns {
  import opened Protocol
  import opened Net
  import opened NetInvariant
  import opened HalfRuns
  import C = ClientMachine
  import CI = ClientInvariant
  import CS = ClientSteps
  import CT = ClientStops
  import PC = PendingCalls
  import S = ServerMachine
  import SI = ServerInvariant
  import SS = ServerSteps
  import L = Link
  import LI = LinkInvariant
  import LR = LinkResults

  ghost predicate Leads(n: State, m: State) {
    exists steps :: Exec(n, steps) == Some(m)
  }

  // One more step of a run that started at `n0`.
  lemma Go(n0: State, n: State, st: Step) returns (m: State)
    requires Reachable(n) && Leads(n0, n) && Enabled(n, st)
    ensures m == Apply(n, st) && Reachable(m) && Leads(n0, m)
  {
    hide Enabled, Apply, Reachable;
    var steps :| Exec(n0, steps) == Some(n);
    ExecSnoc(n0, steps, n, st);
    m := Next(n, st);
  }

  // The connection is up at this peer, its reader is at the top of the loop, its mutex is
  // free, and nothing it wrote is under way. Any calls may be waiting, any handlers running.
  ghost predicate Idle(p: Peer) {
    && p.client.req == C.Free && p.client.reader == C.Reading && !p.client.table.closing && !p.client.table.shutdown
    && p.server.reader == S.Top && p.out == []
  }

  ghost predicate Quiet(n: State) {
    Idle(n.left) && Idle(n.right)
  }

  // ---- A call goes out -------------------------------------------------------------------

  // From the entered call to its select, or its return; its request is on the wire.
  lemma GoesOut(n0: State, n: State, x: Side, s: C.State, kind: C.Kind, p: Payload) returns (m: State)
    requires Reachable(n) && Leads(n0, n) && At(n, x).client == Entered(s, kind, p) && NameOf(p) != ""
    requires s.req == C.Free && s.reader == C.Reading && !s.table.closing && !s.table.shutdown
    ensures Reachable(m) && Leads(n0, m)
    ensures m == With(n, x, At(n, x).(client := Waiting(s, kind, p), out := At(n, x).out + [Asks(Request(s.table.last + 1, p))]))
  {
    hide Reachable, Leads, C.CanCall, C.ApplyCall, Waiting, Entered, Registered;
    var c := |s.calls|;
    var t, u := Registers(s, kind, p);
    var v := WritesOut(s, kind, p, u);
    var n1 := Go(n0, n, OfClient(x, C.OfCall(C.Lock(c))));
    var n2 := Go(n0, n1, OfClient(x, C.OfCall(C.Enroll(c))));
    var n3 := Go(n0, n2, Send(x, c, C.Attempt(true, None)));
    m := Go(n0, n3, OfClient(x, C.OfCall(C.Unlock(c))));
  }

  // ---- A handler starts ------------------------------------------------------------------

  // Peer `y` reads the request on the wire and its handler runs.
  lemma HandlerRuns(n0: State, n: State, y: Side, q: Request) returns (m: State)
    requires Reachable(n) && Leads(n0, n) && Incoming(n, y) == [Asks(q)] && NameOf(q.payload) != "" && Proper(q.payload)
    requires At(n, y).server.reader == S.Top && At(n, y).client.reader == C.Reading
    ensures Reachable(m) && Leads(n0, m)
    ensures m == With(With(n, Flip(y), At(n, Flip(y)).(out := [])), y, At(n, y).(server := At(m, y).server))
    ensures RunsJob(At(n, y).server, At(m, y).server, q)
  {
    hide Reachable, Leads, S.CanRead, S.ApplyRead, S.CanJob, S.ApplyJob, SI.Inv, RunsJob;
    var s := At(n, y).server;
    ServerInv(n, y);
    var s1, s2 := ReadsHeader(s, q);
    var s3, t := StartsHandler(s, s2, q);
    var n1 := Go(n0, n, OfServer(y, S.OfReader(S.Grab)));
    assert Incoming(n1, y) == [Asks(q)];
    var n2 := Go(n0, n1, ReadHeader(y));
    var n3 := Go(n0, n2, OfServer(y, S.OfReader(S.Accept)));
    m := Go(n0, n3, OfServer(y, S.OfJob(S.Start(|s.jobs|))));
  }

  lemma ServerInv(n: State, y: Side)
    requires Reachable(n)
    ensures SI.Inv(At(n, y).server)
  {
    hide L.Reachable, Reachable, C.Reachable, S.Reachable, SI.Inv, LinkOf, Named;
    TwoLinks(n, y);
    HalvesReachable(n, y);
    SS.Always(At(n, y).server);
  }

  // ---- A handler answers -----------------------------------------------------------------

  // The handler of job `k`, which is in no nested call, returns, and its response goes out.
  lemma HandlerAnswers(n0: State, n: State, y: Side, k: nat, r: S.Result) returns (m: State)
    requires Reachable(n) && Leads(n0, n) && At(n, y).client.req == C.Free
    requires S.At(At(n, y).server, k, S.Running) && At(n, y).server.jobs[k].payload.Invoke? && k !in At(n, y).waits
    ensures Reachable(m) && Leads(n0, m)
    ensures m == With(n, y, At(n, y).(server := At(m, y).server,
                                      out := At(n, y).out + [Answers(S.Reply(At(n, y).server.jobs[k].number, r))]))
    ensures Answered(At(n, y).server, At(m, y).server, k, r)
  {
    hide Reachable, Leads, S.CanRead, S.ApplyRead, S.CanJob, S.ApplyJob, SI.Inv, Answered, S.Reply;
    var s := At(n, y).server;
    ServerInv(n, y);
    NobodySends(n, y);
    var s1 := Composes(s, k, r);
    var s2, s3, t := Responds(s, s1, k, r);
    var n1 := Go(n0, n, OfServer(y, S.OfJob(S.Return(k, r))));
    var n2 := Go(n0, n1, Acquire(y, k));
    var n3 := Go(n0, n2, Respond(y, k, true));
    m := Go(n0, n3, Release(y, k));
    assert At(m, y).client == At(n, y).client;
  }

  lemma NobodySends(n: State, y: Side)
    requires Reachable(n) && At(n, y).client.req == C.Free
    ensures At(n, y).server.sending == None
  {
    hide L.Reachable, Reachable, LinkOf, Named;
    TwoLinks(n, y);
    assert forall k: nat :: At(n, y).server.sending != Some(k);
  }

  // ---- The answer arrives ----------------------------------------------------------------

  // Peer `x` reads the response on the wire and takes its call from the table.
  lemma AnswerMatched(n0: State, n: State, x: Side, c: nat, f: Response) returns (m: State)
    requires Reachable(n) && Leads(n0, n) && Incoming(n, x) == [Answers(f)]
    requires At(n, x).server.reader == S.Top && At(n, x).client.reader == C.Reading
    requires f.number in At(n, x).client.table.pending && At(n, x).client.table.pending[f.number] == c
    requires C.At(At(n, x).client, c, C.Selecting)
    ensures Reachable(m) && Leads(n0, m)
    ensures m == With(With(n, Flip(x), At(n, Flip(x)).(out := [])), x,
                      At(n, x).(client := At(m, x).client, server := At(m, x).server))
    ensures var s := At(n, x).client;
            At(m, x).client == s.(reader := C.Decoding(f, Some(c)), table := s.table.(pending := s.table.pending - {f.number}))
    ensures At(m, x).server.jobs == At(n, x).server.jobs && At(m, x).server.reader == S.Top
    ensures At(m, x).server.sending == At(n, x).server.sending
  {
    hide Reachable, Leads, S.CanRead, S.ApplyRead, S.CanJob, S.ApplyJob, SI.Inv;
    hide C.CanConn, C.ApplyConn, C.CanCall, C.ApplyCall;
    ServerInv(n, x);
    var r1, r2 := ReturnsRecord(At(n, x).server);
    var s1, s2 := Matches(At(n, x).client, c, f);
    var n1 := Go(n0, n, OfServer(x, S.OfReader(S.Grab)));
    assert Incoming(n1, x) == [Answers(f)];
    var n2 := Go(n0, n1, ReadHeader(x));
    m := Go(n0, n2, OfClient(x, C.OfConn(C.Match)));
  }

  // And its call returns.
  lemma CallReturns(n0: State, n: State, x: Side, c: nat, f: Response) returns (m: State)
    requires Reachable(n) && Leads(n0, n) && Incoming(n, x) == [Answers(f)]
    requires At(n, x).server.reader == S.Top && At(n, x).client.reader == C.Reading
    requires f.number in At(n, x).client.table.pending && At(n, x).client.table.pending[f.number] == c
    requires C.At(At(n, x).client, c, C.Selecting)
    ensures Reachable(m) && Leads(n0, m)
    ensures m == With(With(n, Flip(x), At(n, Flip(x)).(out := [])), x,
                      At(n, x).(client := At(m, x).client, server := At(m, x).server))
    ensures Returned(At(n, x).client, At(m, x).client, c, f)
    ensures At(m, x).server.jobs == At(n, x).server.jobs && At(m, x).server.reader == S.Top
    ensures At(m, x).server.sending == At(n, x).server.sending
  {
    hide Reachable, Leads, S.CanRead, S.ApplyRead, S.CanJob, S.ApplyJob, Returned;
    hide C.CanConn, C.ApplyConn, C.CanCall, C.ApplyCall;
    var n3 := AnswerMatched(n0, n, x, c, f);
    var s3, s4, t := Settles(At(n, x).client, At(n3, x).client, c, f);
    var n4 := Go(n0, n3, OfClient(x, C.OfConn(C.GotBody(None, None))));
    var n5 := Go(n0, n4, OfClient(x, C.OfConn(C.Answer)));
    m := Go(n0, n5, OfClient(x, C.OfCall(C.Receive(c))));
  }

  // ---- Whole calls -----------------------------------------------------------------------

  // The call `c` of peer `x` returned what the method of its handler, job `k` at the other
  // peer, returned for this very request.
  ghost predicate Completed(n: State, x: Side, c: nat, k: nat, p: Payload, r: S.Result) {
    var s, t := At(n, x).client, At(n, Flip(x)).server;
    && c < |s.calls| && s.calls[c].payload == p && s.calls[c].place == C.Replied(LR.Arrives(r))
    && k < |t.jobs| && t.jobs[k].payload == p && t.jobs[k].result == Some(r) && t.jobs[k].number == s.calls[c].number
  }

  lemma KeysSmall(n: State, x: Side)
    requires Reachable(n)
    ensures var t := At(n, x).client.table; forall k :: k in t.pending ==> k <= t.last
  {
    hide L.Reachable, C.Reachable, S.Reachable, LinkOf, Named;
    TwoLinks(n, x);
    HalvesReachable(n, x);
    CS.Always(At(n, x).client);
  }

  // What a peer's call and the other peer's service of it leave of both.
  ghost predicate Untouched(n: State, m: State, x: Side, p: Payload) {
    var y := Flip(x);
    && |At(m, x).client.calls| == |At(n, x).client.calls| + 1
    && (forall d :: 0 <= d < |At(n, x).client.calls| ==> At(m, x).client.calls[d] == At(n, x).client.calls[d])
    && At(m, x).client.table == At(n, x).client.table.(last := At(n, x).client.table.last + 1)
    && At(m, y).client == At(n, y).client
    && At(m, x).server.jobs == At(n, x).server.jobs
    && JobsKept(At(n, y).server, At(m, y).server, |At(n, y).server.jobs|)
    && At(m, x).waits == At(n, x).waits && At(m, y).waits == At(n, y).waits
  }

  // From an entered `Call` on a connection with nothing else on the wire to its return.
  lemma Completes(n0: State, n: State, x: Side, s: C.State, p: Payload, r: S.Result) returns (m: State)
    requires Reachable(n) && Leads(n0, n) && p.Invoke? && Proper(p) && NameOf(p) != ""
    requires At(n, x).client == Entered(s, C.Sync, p) && Quiet(With(n, x, At(n, x).(client := s)))
    requires |At(n, Flip(x)).server.jobs| !in At(n, Flip(x)).waits
    ensures Reachable(m) && Leads(n0, m) && Quiet(m)
    ensures Completed(m, x, |s.calls|, |At(n, Flip(x)).server.jobs|, p, r)
    ensures Untouched(With(n, x, At(n, x).(client := s)), m, x, p)
  {
    hide Reachable, Leads, Entered, Waiting, RunsJob, Answered, Returned, S.Reply;
    var y := Flip(x);
    var k, c := |At(n, y).server.jobs|, |s.calls|;
    KeysSmall(n, x);
    EnteredKeeps(s, C.Sync, p);
    NewNumber(s, C.Sync, p);
    var n1 := GoesOut(n0, n, x, s, C.Sync, p);
    var q := Request(s.table.last + 1, p);
    assert Incoming(n1, y) == [Asks(q)];
    var n2 := HandlerRuns(n0, n1, y, q);
    RunningJob(At(n1, y).server, At(n2, y).server, q);
    var n3 := HandlerAnswers(n0, n2, y, k, r);
    AnsweredJob(At(n2, y).server, At(n3, y).server, k, r);
    var f := S.Reply(q.number, r);
    assert Incoming(n3, x) == [Answers(f)];
    ReplyNumber(q.number, r);
    m := CallReturns(n0, n3, x, c, f);
    ReturnedCall(At(n3, x).client, At(m, x).client, c, f);
  }

  // Whatever happened before: on a connection that is up at both ends with nothing on the
  // wire, however many calls wait and handlers run, any peer can make a call, with any
  // arguments, that returns what its handler returns, whatever that is, and leaves the
  // connection as it was, other calls and handlers included.
  lemma CallCompletes(n: State, x: Side, p: Payload, r: S.Result) returns (m: State)
    requires Reachable(n) && Quiet(n) && p.Invoke? && Proper(p) && NameOf(p) != ""
    ensures Leads(n, m) && Quiet(m) && Untouched(n, m, x, p)
    ensures Completed(m, x, |At(n, x).client.calls|, |At(n, Flip(x)).server.jobs|, p, r)
  {
    hide Reachable, Leads, Completed, Untouched;
    Starts(n);
    NewJobWaitsNot(n, Flip(x));
    var n1 := Go(n, n, OfClient(x, C.OfCall(C.Begin(true, p))));
    assert With(n1, x, At(n1, x).(client := At(n, x).client)) == n;
    m := Completes(n, n1, x, At(n, x).client, p, r);
  }

  lemma Starts(n: State)
    ensures Leads(n, n)
  {
    assert Exec(n, []) == Some(n);
  }

  lemma NewJobWaitsNot(n: State, y: Side)
    requires Reachable(n)
    ensures |At(n, y).server.jobs| !in At(n, y).waits
  {
    hide L.Reachable, C.Reachable, S.Reachable, LinkOf, Named;
    TwoLinks(n, y);
    assert WaitsOk(At(n, y));
  }

  // A call whose handler runs and has made no call of its own.
  ghost predicate InService(n: State, x: Side, c: nat, k: nat, p: Payload) {
    var s, t := At(n, x).client, At(n, Flip(x)).server;
    && C.At(s, c, C.Selecting) && s.calls[c].payload == p && s.calls[c].number in s.table.pending
    && s.table.pending[s.calls[c].number] == c
    && S.At(t, k, S.Running) && t.jobs[k].payload == p && t.jobs[k].number == s.calls[c].number
  }

  lemma Served(n0: State, n: State, x: Side, p: Payload) returns (m: State)
    requires Reachable(n) && Leads(n0, n) && Quiet(n) && p.Invoke? && Proper(p) && NameOf(p) != ""
    ensures Reachable(m) && Leads(n0, m) && Quiet(m)
    ensures InService(m, x, |At(n, x).client.calls|, |At(n, Flip(x)).server.jobs|, p)
    ensures |At(n, Flip(x)).server.jobs| !in At(m, Flip(x)).waits
    ensures Cancellable(At(m, Flip(x)).server, |At(n, Flip(x)).server.jobs|)
    ensures At(m, Flip(x)).client == At(n, Flip(x)).client
    ensures |At(m, x).server.jobs| == |At(n, x).server.jobs|
  {
    hide Reachable, Leads, Entered, Waiting, RunsJob;
    var y := Flip(x);
    var s := At(n, x).client;
    var n1 := Go(n0, n, OfClient(x, C.OfCall(C.Begin(true, p))));
    assert At(n1, x).client == Entered(s, C.Sync, p) by { BeginEnters(s, p); }
    KeysSmall(n, x);
    NewNumber(s, C.Sync, p);
    NewJobWaitsNot(n, y);
    var n2 := GoesOut(n0, n1, x, s, C.Sync, p);
    var q := Request(s.table.last + 1, p);
    assert Incoming(n2, y) == [Asks(q)];
    m := HandlerRuns(n0, n2, y, q);
    RunningJob(At(n2, y).server, At(m, y).server, q);
  }

  lemma Finishes(n0: State, n: State, x: Side, c: nat, k: nat, p: Payload, r: S.Result) returns (m: State)
    requires Reachable(n) && Leads(n0, n) && Quiet(n) && p.Invoke? && InService(n, x, c, k, p)
    requires k !in At(n, Flip(x)).waits
    ensures Reachable(m) && Leads(n0, m) && Quiet(m) && Completed(m, x, c, k, p, r)
    ensures At(m, Flip(x)).client == At(n, Flip(x)).client && At(m, x).server.jobs == At(n, x).server.jobs
  {
    hide Reachable, Leads, Answered, Returned, S.Reply;
    var y := Flip(x);
    var number := At(n, y).server.jobs[k].number;
    var n1 := HandlerAnswers(n0, n, y, k, r);
    AnsweredJob(At(n, y).server, At(n1, y).server, k, r);
    var f := S.Reply(number, r);
    assert Incoming(n1, x) == [Answers(f)];
    ReplyNumber(number, r);
    m := CallReturns(n0, n1, x, c, f);
    ReturnedCall(At(n1, x).client, At(m, x).client, c, f);
  }

  // The handler of job `k` calls back, and that call completes; its own caller still waits.
  lemma CallsBack(n0: State, n: State, x: Side, c: nat, k: nat, p: Payload, q: Payload, inner: S.Result) returns (m: State)
    requires Reachable(n) && Leads(n0, n) && Quiet(n) && InService(n, x, c, k, p) && k !in At(n, Flip(x)).waits
    requires p.Invoke? && q.Invoke? && Proper(q) && NameOf(q) != ""
    ensures Reachable(m) && Leads(n0, m) && Quiet(m) && InService(m, x, c, k, p)
    ensures k in At(m, Flip(x)).waits && At(m, Flip(x)).waits[k] == |At(n, Flip(x)).client.calls|
    ensures Completed(m, Flip(x), |At(n, Flip(x)).client.calls|, |At(n, x).server.jobs|, q, inner)
  {
    hide Reachable, Leads;
    var y := Flip(x);
    var t := At(n, y).client;
    NewJobWaitsNot(n, x);
    var n2 := Go(n0, n, Nest(y, k, q));
    BeginEnters(t, q);
    assert With(n2, y, At(n2, y).(client := t)) == With(n, y, At(n, y).(waits := At(n2, y).waits));
    m := Completes(n0, n2, y, t, q, inner);
  }

  // The handler's own call has returned, and it goes on.
  lemma GoesOn(n: State, x: Side, c: nat, k: nat, p: Payload, d: nat, j: nat, q: Payload, inner: S.Result) returns (m: State)
    requires Reachable(n) && Quiet(n) && InService(n, x, c, k, p) && Completed(n, Flip(x), d, j, q, inner)
    requires k in At(n, Flip(x)).waits && At(n, Flip(x)).waits[k] == d
    ensures Reachable(m) && Leads(n, m) && Quiet(m) && InService(m, x, c, k, p) && k !in At(m, Flip(x)).waits
    ensures At(m, Flip(x)).client == At(n, Flip(x)).client && At(m, x).server == At(n, x).server
  {
    hide Reachable, Leads;
    Starts(n);
    m := Go(n, n, Resume(Flip(x), k));
  }

  // Calls nest: while the handler of the first call runs, it can itself call back over the
  // same connection, and get the result of its own call, before it returns. `mid` is when
  // the inner call has completed and the outer one is still in service.
  lemma NestedCallCompletes(n: State, x: Side, p: Payload, r: S.Result, q: Payload, inner: S.Result)
    returns (mid: State, m: State)
    requires Reachable(n) && Quiet(n) && p.Invoke? && Proper(p) && NameOf(p) != "" && q.Invoke? && Proper(q) && NameOf(q) != ""
    ensures var y := Flip(x);
            var c, k := |At(n, x).client.calls|, |At(n, y).server.jobs|;
            var d, j := |At(n, y).client.calls|, |At(n, x).server.jobs|;
            && Leads(n, mid) && InService(mid, x, c, k, p) && k in At(mid, y).waits && Completed(mid, y, d, j, q, inner)
            && Leads(mid, m) && Quiet(m) && Completed(m, x, c, k, p, r) && Completed(m, y, d, j, q, inner)
  {
    hide Reachable, Leads, InService, Quiet;
    var y := Flip(x);
    var c, k := |At(n, x).client.calls|, |At(n, y).server.jobs|;
    var d, j := |At(n, y).client.calls|, |At(n, x).server.jobs|;
    Starts(n);
    var n1 := Served(n, n, x, p);
    mid := CallsBack(n, n1, x, c, k, p, q, inner);
    var n3 := GoesOn(mid, x, c, k, p, d, j, q, inner);
    m := Finishes(mid, n3, x, c, k, p, r);
  }

  // ---- Cancellation ----------------------------------------------------------------------

  lemma MarkIsNumber(n: State, x: Side, c: nat)
    requires Reachable(n) && c < |At(n, x).client.calls| && At(n, x).client.calls[c].number in At(n, x).client.table.pending
    ensures At(n, x).client.calls[c].number != 0 && At(n, x).client.calls[c].mark == At(n, x).client.calls[c].number
  {
    hide L.Reachable, C.Reachable, S.Reachable, LinkOf, Named;
    TwoLinks(n, x);
    HalvesReachable(n, x);
    CS.Always(At(n, x).client);
    assert CI.CallOk(At(n, x).client, c);
  }

  // The context of call `c` wins its select: the call is withdrawn, its Cancel is written,
  // and `Call` returns ctx.Err().
  lemma CallGivesUp(n0: State, n: State, x: Side, c: nat) returns (m: State)
    requires Reachable(n) && Leads(n0, n) && Idle(At(n, x)) && C.At(At(n, x).client, c, C.Selecting)
    requires At(n, x).client.calls[c].number in At(n, x).client.table.pending
    ensures Reachable(m) && Leads(n0, m)
    ensures var s := At(n, x).client;
            && m == With(n, x, At(n, x).(client := At(m, x).client,
                                         out := [Asks(Request(s.table.last + 1, CancelOf(s.calls[c].number)))]))
            && C.At(At(m, x).client, c, C.GaveUp) && At(m, x).client.calls[c].withdrawn
            && At(m, x).client.req == C.Free && At(m, x).client.reader == C.Reading
            && !At(m, x).client.table.closing && !At(m, x).client.table.shutdown
  {
    hide Reachable, Leads, C.CanCall, C.ApplyCall;
    var s := At(n, x).client;
    MarkIsNumber(n, x, c);
    var s1 := Withdraws(s, c);
    GoesAway(s, c);
    var n1 := Go(n0, n, OfClient(x, C.OfCall(C.Withdraw(c))));
    var n2 := Go(n0, n1, OfClient(x, C.OfCall(C.Notify(c))));
    var n3 := GoesOut(n0, n2, x, GivenUp(s, c), C.Notice(c), CancelOf(s.calls[c].number));
    m := Go(n0, n3, OfClient(x, C.OfCall(C.Leave(c))));
  }

  lemma OtherNumber(n: State, y: Side, k: nat, number: nat)
    requires Reachable(n) && k < |At(n, y).server.jobs| && Incoming(n, y) != []
    requires Incoming(n, y)[0].Asks? && Incoming(n, y)[0].request.number == number
    ensures At(n, y).server.jobs[k].number != number
  {
    hide L.Reachable, C.Reachable, S.Reachable, Named;
    TwoLinks(n, Flip(y));
    var l := LinkOf(n, Flip(y));
    LI.Always(l);
    LI.SentIncreasing(l.client.writes);
    var all := LI.NumbersOf(l.server.jobs) + LI.RequestNumbers(l.requests);
    assert l.requests[0] == Incoming(n, y)[0].request;
    assert all[k] < all[|l.server.jobs|];
  }

  // Peer `y` serves the Cancel on the wire, which names the number of job `k`.
  lemma CancelStrikes(n0: State, n: State, y: Side, k: nat, q: Request) returns (m: State)
    requires Reachable(n) && Leads(n0, n) && Incoming(n, y) == [Asks(q)]
    requires At(n, y).server.reader == S.Top && At(n, y).client.reader == C.Reading
    requires Cancellable(At(n, y).server, k) && q.payload == CancelOf(At(n, y).server.jobs[k].number)
    ensures Leads(n0, m) && At(m, Flip(y)).client == At(n, Flip(y)).client
    ensures |At(m, y).server.jobs| > k && At(m, y).server.jobs[k].place == At(n, y).server.jobs[k].place
    ensures At(m, y).server.jobs[k].cancels == At(n, y).server.jobs[k].cancels + 1
  {
    hide Reachable, Leads, RunsJob, S.CanRead, S.ApplyRead, S.CanJob, S.ApplyJob;
    OtherNumber(n, y, k, q.number);
    var n2 := HandlerRuns(n0, n, y, q);
    var s := At(n, y).server;
    var j := |s.jobs|;
    RunningJob(s, At(n2, y).server, q);
    var s1, t := TakesAndStrikes(At(n2, y).server, j, k);
    var n3 := Go(n0, n2, OfServer(y, S.OfJob(S.Take(j))));
    m := Go(n0, n3, OfServer(y, S.OfJob(S.Strike(j))));
  }

  // Cancellation arrives: on a connection with nothing on the wire a call that is in
  // service can give up at once, and while its handler still runs, the handler's context
  // is done.
  lemma WithdrawalArrives(n: State, x: Side, p: Payload) returns (mid: State, m: State)
    requires Reachable(n) && Quiet(n) && p.Invoke? && Proper(p) && NameOf(p) != ""
    ensures var c, k := |At(n, x).client.calls|, |At(n, Flip(x)).server.jobs|;
            && Leads(n, mid) && InService(mid, x, c, k, p) && At(mid, Flip(x)).server.jobs[k].cancels == 0
            && Leads(mid, m) && C.At(At(m, x).client, c, C.GaveUp) && At(m, x).client.calls[c].withdrawn
            && S.At(At(m, Flip(x)).server, k, S.Running) && At(m, Flip(x)).server.jobs[k].cancels == 1
  {
    hide Reachable, Leads;
    var y := Flip(x);
    var c, k := |At(n, x).client.calls|, |At(n, y).server.jobs|;
    Starts(n);
    mid := Served(n, n, x, p);
    NotRunYet(mid, y, k);
    Starts(mid);
    var n1 := CallGivesUp(mid, mid, x, c);
    m := CancelStrikes(mid, n1, y, k, Incoming(n1, y)[0].request);
  }

  lemma NotRunYet(n: State, y: Side, k: nat)
    requires Reachable(n) && Cancellable(At(n, y).server, k)
    ensures At(n, y).server.jobs[k].cancels == 0
  {
    hide Reachable, S.Reachable, SI.PoolOk, SI.ReaderOk, SI.FlowOk;
    ServerInv(n, y);
    assert SI.JobOk(At(n, y).server, k);
  }

  // ---- Disconnection ---------------------------------------------------------------------

  // The termination section fails the calls that are left, one after the other.
  lemma {:induction false} DrainsAll(n0: State, n: State, x: Side) returns (m: State)
    requires Reachable(n) && Leads(n0, n) && At(n, x).client.reader.Draining?
    ensures Reachable(m) && Leads(n0, m) && At(m, x).client.reader == C.Draining(At(n, x).client.reader.error, {})
    ensures At(m, x).server == At(n, x).server && At(m, x).client.table == At(n, x).client.table
    decreases |At(n, x).client.reader.todo|
  {
    hide Reachable, Leads, C.CanCall, C.ApplyCall;
    var todo := At(n, x).client.reader.todo;
    if todo == {} {
      m := n;
    } else {
      var number :| number in todo;
      TodoInTable(n, x, number);
      var n1 := Go(n0, n, OfClient(x, C.OfConn(C.StopFail(number))));
      m := DrainsAll(n0, n1, x);
    }
  }

  lemma TodoInTable(n: State, x: Side, number: nat)
    requires Reachable(n) && At(n, x).client.reader.Draining? && number in At(n, x).client.reader.todo
    ensures C.CanConn(At(n, x).client, C.StopFail(number))
  {
    hide L.Reachable, C.Reachable, S.Reachable, LinkOf, Named;
    TwoLinks(n, x);
    HalvesReachable(n, x);
    CS.Always(At(n, x).client);
  }

  lemma RecordInHand(s: S.State) returns (s1: S.State)
    requires SI.Inv(s) && s.reader == S.Top
    ensures S.CanRead(s, S.Grab) && s1 == S.ApplyRead(s, S.Grab) && S.CanRead(s1, S.GotEnd)
    ensures s1.wg == s.wg && s1.jobs == s.jobs
  {
    assert s.free != [] ==> s.free[0] in s.free;
    s1 := S.ApplyRead(s, S.Grab);
  }

  // The header cannot be read; the loop is left.
  lemma LoopEnds(n0: State, n: State, x: Side, e: IoError) returns (m: State)
    requires Reachable(n) && Leads(n0, n) && Idle(At(n, x))
    ensures Reachable(m) && Leads(n0, m)
    ensures At(m, x).client == At(n, x).client.(reader := C.Stopping(Io(e)))
    ensures At(m, x).server.reader == S.Waiting && At(m, x).server.wg == At(n, x).server.wg
  {
    hide Reachable, Leads, S.CanJob, S.ApplyJob, S.CanRead, S.ApplyRead, SI.Inv, C.CanCall, C.ApplyCall;
    ServerInv(n, x);
    var s1 := RecordInHand(At(n, x).server);
    var n1 := Go(n0, n, OfServer(x, S.OfReader(S.Grab)));
    m := Go(n0, n1, ReadEnd(x, e));
    NowWaiting(s1);
  }

  // From there to the end of the termination section.
  lemma Terminates(n0: State, n: State, x: Side, e: Error) returns (m: State)
    requires Reachable(n) && Leads(n0, n) && At(n, x).client.reader == C.Stopping(e) && At(n, x).client.req == C.Free
    ensures Reachable(m) && Leads(n0, m)
    ensures At(m, x).client.reader == C.Ended(PC.StopError(e, At(n, x).client.table.closing))
    ensures At(m, x).client.table == At(n, x).client.table.(shutdown := true)
    ensures At(m, x).server == At(n, x).server
  {
    hide Reachable, Leads, C.CanCall, C.ApplyCall;
    var n3 := Go(n0, n, OfClient(x, C.OfConn(C.StopLock)));
    var n4 := Go(n0, n3, OfClient(x, C.OfConn(C.StopBegin)));
    var n5 := DrainsAll(n0, n4, x);
    m := Go(n0, n5, OfClient(x, C.OfConn(C.StopEnd)));
  }

  lemma NowWaiting(s: S.State)
    requires S.CanRead(s, S.GotEnd)
    ensures S.ApplyRead(s, S.GotEnd).reader == S.Waiting && S.ApplyRead(s, S.GotEnd).wg == s.wg
  {
  }

  // Disconnection is survived: from every quiet state, when a header cannot be read any
  // more, the peer can come to the end of its termination section, where every call that
  // waited in the table has the error of the disconnection, and, unless handlers still
  // run, close its codec.
  lemma ConnectionEnds(n: State, x: Side, e: IoError) returns (m: State)
    requires Reachable(n) && Quiet(n)
    ensures Leads(n, m)
    ensures var error := if e == Eof then UnexpectedEof else Io(e);
            forall c: nat :: c < |At(m, x).client.calls| && At(m, x).client.calls[c].number in At(n, x).client.table.pending ==>
              At(m, x).client.calls[c].signals == 1 && At(m, x).client.calls[c].outcome == Err(error)
    ensures At(n, x).server.wg == 0 ==> At(m, x).server.reader == S.Closed && At(m, x).server.parentCancelled
  {
    hide Reachable, Leads, C.Reachable;
    Starts(n);
    var n1 := LoopEnds(n, n, x, e);
    m := Terminates(n, n1, x, Io(e));
    if At(n, x).server.wg == 0 {
      m := Go(n, m, Shut(x));
    }
    ClientReachable(m, x);
    forall c: nat | c < |At(m, x).client.calls| && At(m, x).client.calls[c].number in At(m, x).client.table.pending
      ensures At(m, x).client.calls[c].signals == 1 && At(m, x).client.calls[c].outcome == Err(At(m, x).client.reader.error)
    {
      KeysNamed(At(m, x).client, c);
      CT.LeftAreFailed(At(m, x).client, c);
    }
  }

  lemma KeysNamed(s: C.State, c: nat)
    requires C.Reachable(s) && c < |s.calls| && s.calls[c].number in s.table.pending
    ensures s.calls[c].number != 0
  {
    CS.Always(s);
  }

  lemma ClientReachable(n: State, x: Side)
    requires Reachable(n)
    ensures C.Reachable(At(n, x).client)
  {
    hide L.Reachable, Reachable, LinkOf, Named, C.Reachable, S.Reachable;
    TwoLinks(n, x);
    HalvesReachable(n, x);
  }
}
