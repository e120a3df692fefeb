/** Over JSON too a new call can be carried to its end, whatever happened before: it returns
    what its method returned, except a success whose reply is `null`, which stops the
    client's reader. */
module JsonRuns {
  import opened Protocol
  import opened JsonLink
  import opened HalfRuns
  import C = ClientMachine
  import CS = ClientSteps
  import S = ServerMachine
  import SI = ServerInvariant
  import SS = ServerSteps
  import LR = LinkResults
  import J = JsonIds
  import JS = JsonServing

  ghost predicate Leads(l: State, m: State, bidirectional: bool) {
    exists steps :: Exec(l, steps, bidirectional) == Some(m)
  }

  lemma Go(l0: State, l: State, st: Step, bidirectional: bool) returns (m: State)
    requires Reachable(l, bidirectional) && Leads(l0, l, bidirectional) && Enabled(l, st)
    ensures m == Apply(l, st, bidirectional) && Reachable(m, bidirectional) && Leads(l0, m, bidirectional)
  {
    hide Enabled, Apply, Reachable;
    var steps :| Exec(l0, steps, bidirectional) == Some(l);
    ExecSnoc(l0, steps, l, st, bidirectional);
    m := Next(l, st, bidirectional);
  }

  // The connection is up, both readers are at the top of their loops, both mutexes are free,
  // and every request and answer written was read. Any calls may wait, any handlers run.
  ghost predicate Quiet(l: State) {
    && l.client.req == C.Free && l.client.reader == C.Reading && !l.client.table.closing && !l.client.table.shutdown
    && l.json.server.reader == S.Top && l.json.server.sending == None
    && l.requests == [] && l.heard == |l.json.out|
  }

  function OfServer(st: S.Step): Step {
    OfJson(JS.OfServer(st))
  }

  lemma GoesOut(l0: State, l: State, p: Payload, bidirectional: bool) returns (m: State)
    requires Reachable(l, bidirectional) && Leads(l0, l, bidirectional) && Quiet(l) && Proper(p)
    ensures Reachable(m, bidirectional) && Leads(l0, m, bidirectional)
    ensures m == l.(client := Waiting(l.client, C.Sync, p), requests := [Request(l.client.table.last + 1, p)])
  {
    hide Reachable, Leads, C.CanCall, C.ApplyCall, Waiting, Entered, Registered;
    var s := l.client;
    var c := |s.calls|;
    BeginEnters(s, p);
    var t, u := Registers(s, C.Sync, p);
    var v := WritesOut(s, C.Sync, p, u);
    CanBegin(s, p);
    var l1 := Go(l0, l, OfClient(C.OfCall(C.Begin(true, p))), bidirectional);
    var l2 := Go(l0, l1, OfClient(C.OfCall(C.Lock(c))), bidirectional);
    var l3 := Go(l0, l2, OfClient(C.OfCall(C.Enroll(c))), bidirectional);
    var l4 := Go(l0, l3, Send(c, C.Attempt(true, None)), bidirectional);
    m := Go(l0, l4, OfClient(C.OfCall(C.Unlock(c))), bidirectional);
  }

  lemma CanBegin(s: C.State, p: Payload)
    requires Proper(p)
    ensures C.CanCall(s, C.Begin(true, p))
  {
  }

  lemma ServerInv(l: State, bidirectional: bool)
    requires Reachable(l, bidirectional)
    ensures SI.Inv(l.json.server) && |l.json.raws| == |l.json.server.jobs|
  {
    hide SI.Inv;
    Always(l, bidirectional);
    SS.Always(l.json.server);
  }

  // The server reads the request, numbers it again, and its handler runs.
  lemma HandlerRuns(l0: State, l: State, q: Request, bidirectional: bool) returns (m: State)
    requires Reachable(l, bidirectional) && Leads(l0, l, bidirectional) && l.requests == [q] && Proper(q.payload)
    requires l.json.server.reader == S.Top
    ensures Reachable(m, bidirectional) && Leads(l0, m, bidirectional)
    ensures var n := l.json.table.last + 1;
            && m == l.(requests := [], json := m.json)
            && m.json == l.json.(server := m.json.server, raws := l.json.raws + [IdOf(q)],
                                 table := J.Table(n, l.json.table.pending[n := IdOf(q)]))
            && RunsJob(l.json.server, m.json.server, Request(n, q.payload))
  {
    hide Reachable, Leads, S.CanRead, S.ApplyRead, S.CanJob, S.ApplyJob, SI.Inv, RunsJob;
    var s := l.json.server;
    ServerInv(l, bidirectional);
    var r := Request(l.json.table.last + 1, q.payload);
    var s1, s2 := ReadsHeader(s, r);
    var s3, t := StartsHandler(s, s2, r);
    var l1 := Go(l0, l, OfServer(S.OfReader(S.Grab)), bidirectional);
    CanServe(s1, r, q.payload);
    var l2 := Go(l0, l1, Serve, bidirectional);
    var l3 := Go(l0, l2, OfServer(S.OfReader(S.Accept)), bidirectional);
    m := Go(l0, l3, OfServer(S.OfJob(S.Start(|s.jobs|))), bidirectional);
  }

  // Whether a header can be read does not depend on the number it gets.
  lemma CanServe(s: S.State, r: Request, p: Payload)
    requires S.CanRead(s, S.GotRequest(r)) && r.payload == p
    ensures S.CanRead(s, S.GotRequest(Request(0, p))) && s.reader.Armed? && s.reader.slot < |s.heap|
  {
  }

  // The handler of job `k` returns, and its response is written with the request's id.
  lemma HandlerAnswers(l0: State, l: State, k: nat, r: S.Result, bidirectional: bool) returns (m: State)
    requires Reachable(l, bidirectional) && Leads(l0, l, bidirectional) && l.json.server.sending == None
    requires S.At(l.json.server, k, S.Running) && l.json.server.jobs[k].payload.Invoke?
    requires l.json.server.jobs[k].number in l.json.table.pending
    ensures Reachable(m, bidirectional) && Leads(l0, m, bidirectional)
    ensures var f := S.Reply(l.json.server.jobs[k].number, r);
            && m == l.(json := m.json)
            && m.json == l.json.(server := m.json.server, table := J.Leave(l.json.table, f.number),
                                 out := l.json.out + [JS.Output(k, J.Reply(l.json.table.pending[f.number], f.text, f.body))])
            && Answered(l.json.server, m.json.server, k, r)
  {
    hide Reachable, Leads, S.CanRead, S.ApplyRead, S.CanJob, S.ApplyJob, SI.Inv, Answered, S.Reply;
    var s := l.json.server;
    ServerInv(l, bidirectional);
    ReplyNumber(s.jobs[k].number, r);
    var s1 := Composes(s, k, r);
    var s2, s3, t := Responds(s, s1, k, r);
    var l1 := Go(l0, l, OfServer(S.OfJob(S.Return(k, r))), bidirectional);
    var l2 := Go(l0, l1, OfServer(S.OfJob(S.LockSending(k))), bidirectional);
    var l3 := Go(l0, l2, OfJson(JS.Respond(k, true)), bidirectional);
    m := Go(l0, l3, OfServer(S.OfJob(S.UnlockSending(k))), bidirectional);
  }

  // The client reads the answer and its call returns.
  lemma CallReturns(l0: State, l: State, c: nat, f: Response, isNull: bool, bidirectional: bool) returns (m: State)
    requires Reachable(l, bidirectional) && Leads(l0, l, bidirectional) && l.client.reader == C.Reading
    requires |l.json.out| == l.heard + 1 && l.json.out[l.heard].reply == J.Reply(Some(J.Number(f.number)), f.text, f.body)
    requires f.number in l.client.table.pending && l.client.table.pending[f.number] == c && C.At(l.client, c, C.Selecting)
    requires f.text != "" || !isNull
    ensures Reachable(m, bidirectional) && Leads(l0, m, bidirectional)
    ensures m == l.(client := m.client, heard := l.heard + 1) && Returned(l.client, m.client, c, f)
  {
    hide Reachable, Leads, Returned, C.CanConn, C.ApplyConn, C.CanCall, C.ApplyCall;
    var s := l.client;
    Tells(l.json.out[l.heard], f, isNull, bidirectional);
    var s1, s2 := Matches(s, c, f);
    var s3, s4, t := Settles(s, s2, c, f);
    var l1 := Go(l0, l, Hear(isNull), bidirectional);
    var l2 := Go(l0, l1, OfClient(C.OfConn(C.Match)), bidirectional);
    var l3 := Go(l0, l2, OfClient(C.OfConn(C.GotBody(None, None))), bidirectional);
    var l4 := Go(l0, l3, OfClient(C.OfConn(C.Answer)), bidirectional);
    m := Go(l0, l4, OfClient(C.OfCall(C.Receive(c))), bidirectional);
  }

  lemma Tells(o: JS.Output, f: Response, isNull: bool, bidirectional: bool)
    requires o.reply == J.Reply(Some(J.Number(f.number)), f.text, f.body)
    ensures Told(o, isNull, bidirectional) == if f.text != "" || !isNull then C.GotHeader(f) else C.GotEnd(Fault(0))
  {
  }

  // The call `c` returned what the method of job `k` returned for this very request.
  ghost predicate Completed(l: State, c: nat, k: nat, p: Payload, r: S.Result) {
    && c < |l.client.calls| && l.client.calls[c].payload == p && l.client.calls[c].place == C.Replied(LR.Arrives(r))
    && k < |l.json.server.jobs| == |l.json.raws| && l.json.server.jobs[k].payload == p && l.json.server.jobs[k].result == Some(r)
    && l.json.raws[k] == Some(J.Number(l.client.calls[c].number))
  }

  // In service, and answered, with the answer not yet read.
  lemma IsAnswered(l: State, p: Payload, r: S.Result, bidirectional: bool) returns (m: State)
    requires Reachable(l, bidirectional) && Quiet(l) && p.Invoke? && Proper(p)
    ensures Reachable(m, bidirectional) && Leads(l, m, bidirectional)
    ensures m.client == Waiting(l.client, C.Sync, p) && m.requests == [] && m.heard == l.heard
    ensures m.json.server.reader == S.Top && m.json.server.sending == None
    ensures var n := l.client.table.last + 1;
            var f := S.Reply(n, r);
            var k := |l.json.server.jobs|;
            && m.json.out == l.json.out + [JS.Output(k, J.Reply(Some(J.Number(n)), f.text, f.body))]
            && |m.json.server.jobs| == |m.json.raws| == k + 1 && m.json.raws[k] == Some(J.Number(n))
            && m.json.server.jobs[k].payload == p && m.json.server.jobs[k].result == Some(r)
  {
    hide Reachable, Waiting, RunsJob, Answered, Leads, S.Reply;
    Starts(l, bidirectional);
    ServerInv(l, bidirectional);
    var n := l.client.table.last + 1;
    var k := |l.json.server.jobs|;
    var l1 := GoesOut(l, l, p, bidirectional);
    var l2 := HandlerRuns(l, l1, Request(n, p), bidirectional);
    RunningJob(l1.json.server, l2.json.server, Request(l.json.table.last + 1, p));
    m := HandlerAnswers(l, l2, k, r, bidirectional);
    AnsweredJob(l2.json.server, m.json.server, k, r);
    SameReply(l.json.table.last + 1, n, r);
  }

  lemma SameReply(a: nat, b: nat, r: S.Result)
    ensures S.Reply(a, r).text == S.Reply(b, r).text && S.Reply(a, r).body == S.Reply(b, r).body
    ensures S.Reply(a, r).number == a && S.Reply(b, r).number == b
  {
  }

  lemma Starts(l: State, bidirectional: bool)
    ensures Leads(l, l, bidirectional)
  {
    assert Exec(l, [], bidirectional) == Some(l);
  }

  lemma KeysSmall(l: State, bidirectional: bool)
    requires Reachable(l, bidirectional)
    ensures forall k :: k in l.client.table.pending ==> k <= l.client.table.last
  {
    hide JS.Inv;
    Always(l, bidirectional);
    CS.Always(l.client);
  }

  // Whatever happened before, failed writes included: on a connection that is up with
  // nothing under way, a call with any arguments can be made that returns what its method
  // returns, under the client's own number, and the connection is as it was.
  lemma CallCompletes(l: State, p: Payload, r: S.Result, isNull: bool, bidirectional: bool) returns (m: State)
    requires Reachable(l, bidirectional) && Quiet(l) && p.Invoke? && Proper(p)
    requires (r.error.Some? && r.error.value != "") || !isNull
    ensures Leads(l, m, bidirectional) && Quiet(m)
    ensures Completed(m, |l.client.calls|, |l.json.server.jobs|, p, r)
  {
    hide Reachable, Leads, Waiting, Returned, S.Reply;
    var n := l.client.table.last + 1;
    var c := |l.client.calls|;
    KeysSmall(l, bidirectional);
    NewNumber(l.client, C.Sync, p);
    var l1 := IsAnswered(l, p, r, bidirectional);
    var f := S.Reply(n, r);
    ReplyNumber(n, r);
    ReplyText(n, r);
    m := CallReturns(l, l1, c, f, isNull, bidirectional);
    ReturnedCall(l1.client, m.client, c, f);
  }

  lemma ReplyText(n: nat, r: S.Result)
    ensures S.Reply(n, r).text != "" <==> r.error.Some? && r.error.value != ""
  {
  }

  // The exception: a method that succeeds with a reply that encodes to `null` ends the
  // client's reader, and with it the connection.
  lemma NullReplyStops(l: State, p: Payload, r: S.Result, bidirectional: bool) returns (m: State)
    requires Reachable(l, bidirectional) && Quiet(l) && p.Invoke? && Proper(p)
    requires r.error == None || r.error == Some("")
    ensures Leads(l, m, bidirectional) && m.client.reader == C.Stopping(Io(Fault(0)))
    ensures C.At(m.client, |l.client.calls|, C.Selecting)
  {
    hide Reachable, Leads, Waiting, S.Reply;
    var n := l.client.table.last + 1;
    KeysSmall(l, bidirectional);
    NewNumber(l.client, C.Sync, p);
    var l1 := IsAnswered(l, p, r, bidirectional);
    var f := S.Reply(n, r);
    ReplyNumber(n, r);
    ReplyText(n, r);
    Tells(l1.json.out[l1.heard], f, true, bidirectional);
    m := Go(l, l1, Hear(true), bidirectional);
  }
}
