/** This library's client talking to its JSON server: the client's own numbers travel as
    ids, the server codec numbers the requests again and answers with the ids, and the
    client reads those answers, in the order they were written. */
module JsonLink {
  import opened Protocol
  import opened JsonIds
  import C = ClientMachine
  import CI = ClientInvariant
  import CS = ClientSteps
  import S = ServerMachine
  import SI = ServerInvariant
  import SS = ServerSteps
  import LI = LinkInvariant
  import JC = JsonCodec
  import JS = JsonServing

  // `heard`: how many of the answers written the client has read.
  datatype State = State(client: C.State, json: JS.State, requests: seq<Request>, heard: nat)

  const INIT: State := State(C.INIT, JS.INIT, [], 0)

  datatype Step =
    | OfClient(cl: C.Step)            // any step but a write or the reading of a header
    | Send(c: nat, how: C.Attempt)
    | OfJson(js: JS.Step)             // any step but the reading of a request
    | Serve
    | Hear(isNull: bool)              // ReadHeader of the next answer, whose body may be null

  // The id that a client of this library gives a request.
  function IdOf(q: Request): Option<Id> {
    Some(Number(q.number))
  }

  function NumberIn(id: Option<Id>): nat {
    if id.Some? && id.value.Number? then id.value.n else 0
  }

  predicate Enabled(l: State, st: Step) {
    match st
    case OfClient(cl) =>
      !(cl.OfCall? && cl.call.Write?) && !(cl.OfConn? && cl.conn.GotHeader?) && C.Enabled(l.client, cl)
    case Send(c, how) => C.CanCall(l.client, C.Write(c, how))
    case OfJson(js) => !js.Serve? && JS.Enabled(l.json, js)
    case Serve => l.requests != [] && JS.Enabled(l.json, JS.Serve(IdOf(l.requests[0]), l.requests[0].payload))
    case Hear(_) => l.heard < |l.json.out| && l.client.reader.Reading?
  }

  // What the client makes of answer `o`: a response, or an error that ends its reading.
  function Told(o: JS.Output, isNull: bool, bidirectional: bool): C.ConnStep {
    var header := JC.ResponseHeader(JC.OnWire(o, isNull), bidirectional);
    if header.0.Good? then C.GotHeader(Response(header.1.number, header.1.text, o.reply.body))
    else C.GotEnd(Fault(0))
  }

  function Apply(l: State, st: Step, bidirectional: bool): State
    requires Enabled(l, st)
  {
    match st
    case OfClient(cl) => l.(client := C.Apply(l.client, cl))
    case Send(c, how) =>
      var r := l.client.calls[c];
      l.(client := C.ApplyCall(l.client, C.Write(c, how)),
         requests := if how.sent then l.requests + [Request(r.number, r.payload)] else l.requests)
    case OfJson(js) => l.(json := JS.Apply(l.json, js, bidirectional))
    case Serve =>
      l.(json := JS.Apply(l.json, JS.Serve(IdOf(l.requests[0]), l.requests[0].payload), bidirectional),
         requests := l.requests[1..])
    case Hear(isNull) =>
      l.(client := C.ApplyConn(l.client, Told(l.json.out[l.heard], isNull, bidirectional)), heard := l.heard + 1)
  }

  function Exec(l: State, steps: seq<Step>, bidirectional: bool): Option<State>
    decreases |steps|
  {
    if steps == [] then Some(l)
    else if Enabled(l, steps[0]) then Exec(Apply(l, steps[0], bidirectional), steps[1..], bidirectional)
    else None
  }

  ghost predicate Reachable(l: State, bidirectional: bool) {
    exists steps :: Exec(INIT, steps, bidirectional) == Some(l)
  }

  function ClientNumbers(raws: seq<Option<Id>>): seq<nat> {
    seq(|raws|, i requires 0 <= i < |raws| => NumberIn(raws[i]))
  }

  // First in, first out.
  ghost predicate QueueOk(l: State) {
    && LI.Sent(l.client.writes) == ClientNumbers(l.json.raws) + LI.RequestNumbers(l.requests)
    && forall k :: 0 <= k < |l.json.raws| ==> l.json.raws[k].Some? && l.json.raws[k].value.Number?
  }

  ghost predicate PayloadsOk(l: State) {
    && |l.json.raws| == |l.json.server.jobs|
    && (forall k :: 0 <= k < |l.json.raws| ==>
          LI.Asked(l.client, NumberIn(l.json.raws[k]), l.json.server.jobs[k].payload))
    && (forall i :: 0 <= i < |l.requests| ==> LI.Asked(l.client, l.requests[i].number, l.requests[i].payload))
  }

  // The frame is what the client made of an answer it has read.
  ghost predicate FromOut(l: State, f: Response) {
    exists i: nat :: Carries(l.json.out, l.heard, i, f)
  }

  predicate Carries(out: seq<JS.Output>, heard: nat, i: nat, f: Response) {
    i < heard && i < |out| && f == Response(NumberIn(out[i].reply.id), out[i].reply.text, out[i].reply.body)
  }

  ghost predicate AnswersOk(l: State) {
    && l.heard <= |l.json.out|
    && (LI.HasFrame(l.client.reader) ==> FromOut(l, l.client.reader.frame))
    && forall c :: 0 <= c < |l.client.calls| && l.client.calls[c].answer.Some? ==>
         FromOut(l, l.client.calls[c].answer.value.frame)
  }

  ghost predicate Inv(l: State, bidirectional: bool) {
    C.Reachable(l.client) && JS.Inv(l.json, bidirectional) && QueueOk(l) && PayloadsOk(l) && AnswersOk(l)
  }

  ghost predicate AsksKept(s: C.State, t: C.State) {
    forall n: nat, p :: LI.Asked(s, n, p) ==> LI.Asked(t, n, p)
  }

  lemma ClientHears(s: C.State, st: C.Step)
    requires CI.Inv(s) && C.Enabled(s, st) && !(st.OfConn? && st.conn.GotHeader?)
    ensures LI.ClientKeeps(s, C.Apply(s, st)) && AsksKept(s, C.Apply(s, st))
    ensures !(st.OfCall? && st.call.Write?) ==> C.Apply(s, st).writes == s.writes
  {
    match st
    case OfCall(cs) => LI.ClientCallKeeps(s, cs);
    case OfConn(cs) => LI.ClientConnKeeps(s, cs);
  }

  lemma ClientKeeps(l: State, st: C.Step, bidirectional: bool)
    requires Inv(l, bidirectional) && Enabled(l, OfClient(st))
    ensures Inv(Apply(l, OfClient(st), bidirectional), bidirectional)
  {
    hide C.Reachable, JS.Inv, CI.Inv, LI.Asked, FromOut;
    CS.Always(l.client);
    CS.ReachNext(l.client, st);
    ClientHears(l.client, st);
    var m := Apply(l, OfClient(st), bidirectional);
    forall f ensures FromOut(m, f) == FromOut(l, f) {
      SameOut(l, m, f);
    }
  }

  lemma SameOut(l: State, m: State, f: Response)
    requires m.json.out == l.json.out && m.heard == l.heard
    ensures FromOut(m, f) == FromOut(l, f)
  {
  }

  lemma MoreOut(l: State, m: State, f: Response)
    requires l.json.out <= m.json.out && l.heard <= m.heard && FromOut(l, f)
    ensures FromOut(m, f)
  {
    var i: nat :| Carries(l.json.out, l.heard, i, f);
    assert Carries(m.json.out, m.heard, i, f);
  }

  // The write under way is that of the call's own number, the next one.
  lemma WritesItsNumber(s: C.State, c: nat, how: C.Attempt)
    requires CI.Inv(s) && C.CanCall(s, C.Write(c, how))
    ensures s.calls[c].number == |s.writes| + 1 && LI.Asked(s, s.calls[c].number, s.calls[c].payload)
  {
    assert CI.CallOk(s, c);
  }

  lemma SendKeeps(l: State, c: nat, how: C.Attempt, bidirectional: bool)
    requires Inv(l, bidirectional) && Enabled(l, Send(c, how))
    ensures Inv(Apply(l, Send(c, how), bidirectional), bidirectional)
  {
    hide C.Reachable, JS.Inv, CI.Inv, LI.Asked, FromOut;
    CS.Always(l.client);
    CS.ReachNext(l.client, C.OfCall(C.Write(c, how)));
    ClientHears(l.client, C.OfCall(C.Write(c, how)));
    WritesItsNumber(l.client, c, how);
    LI.SentSnoc(l.client.writes, how);
    var m := Apply(l, Send(c, how), bidirectional);
    var r := l.client.calls[c];
    forall f ensures FromOut(m, f) == FromOut(l, f) {
      SameOut(l, m, f);
    }
    if how.sent {
      assert LI.RequestNumbers(m.requests) == LI.RequestNumbers(l.requests) + [r.number];
    }
  }

  lemma JsonSame(s: JS.State, st: JS.Step, bidirectional: bool)
    requires JS.Inv(s, bidirectional) && JS.Enabled(s, st) && !st.Serve?
    ensures var t := JS.Apply(s, st, bidirectional);
            && t.raws == s.raws && |t.server.jobs| == |s.server.jobs|
            && forall k :: 0 <= k < |s.server.jobs| ==> t.server.jobs[k].payload == s.server.jobs[k].payload
  {
    hide S.Reachable, SI.Inv, JS.NumbersOk, JS.TableOk, JS.OutOk, JS.OrderOk;
    SS.Always(s.server);
    match st
    case OfServer(sv) =>
      match sv {
        case OfReader(rs) => SameLength(s.server, rs);
        case OfJob(js) => LI.JobsSame(s.server, js);
      }
    case Respond(k, encoded) => LI.JobsSame(s.server, S.Respond(k, JS.Goes(s, k, encoded)));
  }

  lemma SameLength(s: S.State, st: S.ReadStep)
    requires S.CanRead(s, st) && !st.GotRequest?
    ensures |S.ApplyRead(s, st).jobs| == |s.jobs|
    ensures forall k :: 0 <= k < |s.jobs| ==> S.ApplyRead(s, st).jobs[k].payload == s.jobs[k].payload
  {
  }

  lemma JsonKeeps(l: State, st: JS.Step, bidirectional: bool)
    requires Inv(l, bidirectional) && Enabled(l, OfJson(st))
    ensures Inv(Apply(l, OfJson(st), bidirectional), bidirectional)
  {
    hide C.Reachable, JS.Inv, LI.Asked, JS.Enabled, JS.Apply, FromOut;
    JS.StepKeeps(l.json, st, bidirectional);
    JsonSame(l.json, st, bidirectional);
    OutGrows(l.json, st, bidirectional);
    var m := Apply(l, OfJson(st), bidirectional);
    forall f | FromOut(l, f) ensures FromOut(m, f) {
      MoreOut(l, m, f);
    }
  }

  lemma ServeKeeps(l: State, bidirectional: bool)
    requires Inv(l, bidirectional) && Enabled(l, Serve)
    ensures Inv(Apply(l, Serve, bidirectional), bidirectional)
  {
    hide C.Reachable, JS.Inv, LI.Asked, FromOut;
    var q := l.requests[0];
    JS.StepKeeps(l.json, JS.Serve(IdOf(q), q.payload), bidirectional);
    var m := Apply(l, Serve, bidirectional);
    assert ClientNumbers(m.json.raws) == ClientNumbers(l.json.raws) + [q.number];
    assert LI.RequestNumbers(l.requests) == [q.number] + LI.RequestNumbers(m.requests);
    forall f ensures FromOut(m, f) == FromOut(l, f) {
      SameOut(l, m, f);
    }
  }

  lemma OutGrows(s: JS.State, st: JS.Step, bidirectional: bool)
    requires JS.Enabled(s, st)
    ensures s.out <= JS.Apply(s, st, bidirectional).out
  {
  }

  // Every answer has the number of the request as its id, so its header is read well.
  lemma AnswersNumbered(l: State, i: nat, isNull: bool, bidirectional: bool)
    requires JS.Inv(l.json, bidirectional) && QueueOk(l) && i < |l.json.out|
    ensures l.json.out[i].reply.id.Some? && l.json.out[i].reply.id.value.Number?
    ensures var st := Told(l.json.out[i], isNull, bidirectional);
            var o := l.json.out[i].reply;
            st == (if o.text != "" || !isNull then C.GotHeader(Response(NumberIn(o.id), o.text, o.body)) else C.GotEnd(Fault(0)))
  {
    hide S.Reachable, JS.NumbersOk, JS.TableOk, JS.OrderOk;
    var o := l.json.out[i];
    assert JS.OutputOk(l.json, o, bidirectional);
    JC.RoundTripIff(o.reply.text, o.reply.body, isNull);
  }

  lemma HearKeeps(l: State, isNull: bool, bidirectional: bool)
    requires Inv(l, bidirectional) && Enabled(l, Hear(isNull))
    ensures Inv(Apply(l, Hear(isNull), bidirectional), bidirectional)
  {
    hide C.Reachable, JS.Inv, LI.Asked, FromOut, Told, CI.Inv;
    AnswersNumbered(l, l.heard, isNull, bidirectional);
    var st := Told(l.json.out[l.heard], isNull, bidirectional);
    CS.ReachNext(l.client, C.OfConn(st));
    var m := Apply(l, Hear(isNull), bidirectional);
    forall f | FromOut(l, f) ensures FromOut(m, f) {
      MoreOut(l, m, f);
    }
    HeadersAsk(l.client, st);
    if st.GotHeader? {
      assert Carries(m.json.out, m.heard, l.heard, st.frame);
      Heard(m, l.heard, st.frame);
    }
  }

  lemma Heard(l: State, i: nat, f: Response)
    requires Carries(l.json.out, l.heard, i, f)
    ensures FromOut(l, f)
  {
  }

  lemma HeadersAsk(s: C.State, st: C.ConnStep)
    requires C.CanConn(s, st) && (st.GotHeader? || st.GotEnd?)
    ensures AsksKept(s, C.ApplyConn(s, st))
  {
  }

  lemma StepKeeps(l: State, st: Step, bidirectional: bool)
    requires Inv(l, bidirectional) && Enabled(l, st)
    ensures Inv(Apply(l, st, bidirectional), bidirectional)
  {
    hide Inv, Enabled, Apply;
    match st
    case OfClient(cl) => ClientKeeps(l, cl, bidirectional);
    case Send(c, how) => SendKeeps(l, c, how, bidirectional);
    case OfJson(js) => JsonKeeps(l, js, bidirectional);
    case Serve => ServeKeeps(l, bidirectional);
    case Hear(isNull) => HearKeeps(l, isNull, bidirectional);
  }

  lemma {:induction false} RunKeeps(l: State, steps: seq<Step>, m: State, bidirectional: bool)
    requires Inv(l, bidirectional) && Exec(l, steps, bidirectional) == Some(m)
    ensures Inv(m, bidirectional)
    decreases |steps|
  {
    hide Inv;
    if steps != [] {
      StepKeeps(l, steps[0], bidirectional);
      RunKeeps(Apply(l, steps[0], bidirectional), steps[1..], m, bidirectional);
    }
  }

  lemma InitOk(bidirectional: bool)
    ensures Inv(INIT, bidirectional)
  {
    hide C.Reachable, S.Reachable;
    CS.InitReachable();
    SS.InitReachable();
  }

  lemma Always(l: State, bidirectional: bool)
    requires Reachable(l, bidirectional)
    ensures Inv(l, bidirectional)
  {
    hide Inv;
    var steps :| Exec(INIT, steps, bidirectional) == Some(l);
    InitOk(bidirectional);
    RunKeeps(INIT, steps, l, bidirectional);
  }

  lemma {:induction false} ExecSnoc(l: State, steps: seq<Step>, m: State, st: Step, bidirectional: bool)
    requires Exec(l, steps, bidirectional) == Some(m) && Enabled(m, st)
    ensures Exec(l, steps + [st], bidirectional) == Some(Apply(m, st, bidirectional))
    decreases |steps|
  {
    if steps == [] {
      assert ([] + [st])[1..] == [];
      assert Exec(Apply(m, st, bidirectional), [], bidirectional) == Some(Apply(m, st, bidirectional));
    } else {
      ExecSnoc(Apply(l, steps[0], bidirectional), steps[1..], m, st, bidirectional);
      assert (steps + [st])[1..] == steps[1..] + [st];
    }
  }

  lemma Next(l: State, st: Step, bidirectional: bool) returns (m: State)
    requires Reachable(l, bidirectional) && Enabled(l, st)
    ensures m == Apply(l, st, bidirectional) && Reachable(m, bidirectional)
  {
    var steps :| Exec(INIT, steps, bidirectional) == Some(l);
    ExecSnoc(INIT, steps, l, st, bidirectional);
    m := Apply(l, st, bidirectional);
  }
}
