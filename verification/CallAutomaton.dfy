/** The life of one remote call as a caller sees it, and the proof that the link, with
    all its locks, tables and queues, simulates it. */
module CallAutomaton {
  import opened Protocol
  import opened Link
  import opened LinkInvariant
  import C = ClientMachine
  import CI = ClientInvariant
  import CS = ClientSteps
  import CR = ClientResults
  import S = ServerMachine

  datatype Stage =
    | Absent
    | Issued
    | Running            // the peer has read its request
    | Done(outcome: Outcome)
    | Withdrawn          // its own Call gave it up before anything was delivered

  function StageOf(l: State, c: nat): Stage {
    if c >= |l.client.calls| then Absent
    else
      var r := l.client.calls[c];
      if r.signals > 0 then Done(r.outcome)
      else if r.withdrawn then Withdrawn
      else if r.number != 0 && r.number in NumbersOf(l.server.jobs) then Running
      else Issued
  }

  // Something the peer said, as opposed to a local failure.
  predicate FromPeer(o: Outcome) {
    o.Ok? || (o.Err? && (o.error.Server? || o.error.BadBody?))
  }

  // One step of the abstract machine, or none.
  predicate Edge(a: Stage, b: Stage) {
    || a == b
    || (a.Absent? && b.Issued?)
    || (a.Issued? && b.Running?)
    || ((a.Issued? || a.Running?) && b.Withdrawn?)
    || (a.Issued? && b.Done? && b.outcome.Err? && !FromPeer(b.outcome))
    || (a.Running? && b.Done? && b.outcome != Unsettled)
  }

  // What one step of the client half does to one call's record.
  predicate Progress(r: C.Call, q: C.Call) {
    && r.signals <= q.signals
    && (r.signals == q.signals ==> r.outcome == q.outcome)
    && (r.number != 0 || r.signals < q.signals ==> q.number == r.number)
  }

  lemma ProgressCall(s: C.State, st: C.CallStep, c: nat)
    requires CI.Inv(s) && C.CanCall(s, st) && c < |s.calls|
    ensures c < |C.ApplyCall(s, st).calls| && Progress(s.calls[c], C.ApplyCall(s, st).calls[c])
  {
    hide CI.Base, CI.DutyOk, CI.OutcomeOk, CI.KindOk;
    assert CI.CallOk(s, c);
  }

  lemma ProgressConn(s: C.State, st: C.ConnStep, c: nat)
    requires C.CanConn(s, st) && c < |s.calls|
    ensures c < |C.ApplyConn(s, st).calls| && Progress(s.calls[c], C.ApplyConn(s, st).calls[c])
  {
  }

  lemma NewCallFresh(s: C.State, st: C.Step, c: nat)
    requires C.Enabled(s, st) && |s.calls| <= c < |C.Apply(s, st).calls|
    ensures var q := C.Apply(s, st).calls[c]; q.signals == 0 && !q.withdrawn && q.number == 0
  {
    match st
    case OfCall(cs) => NewCallStep(s, cs, c);
    case OfConn(cs) => NewConnStep(s, cs, c);
  }

  lemma NewCallStep(s: C.State, st: C.CallStep, c: nat)
    requires C.CanCall(s, st) && |s.calls| <= c < |C.ApplyCall(s, st).calls|
    ensures var q := C.ApplyCall(s, st).calls[c]; q.signals == 0 && !q.withdrawn && q.number == 0
  {
  }

  lemma NewConnStep(s: C.State, st: C.ConnStep, c: nat)
    requires C.CanConn(s, st)
    ensures |C.ApplyConn(s, st).calls| == |s.calls|
  {
  }

  // The step of the client half inside a step of the link.
  function ClientPart(l: State, st: Step): Option<C.Step>
    requires Enabled(l, st)
  {
    match st
    case OfClient(cl) => Some(cl)
    case Send(c, how) => Some(C.OfCall(C.Write(c, how)))
    case Hear => Some(C.OfConn(C.GotHeader(l.responses[0])))
    case _ => None
  }

  lemma Parts(l: State, st: Step)
    requires Inv(l) && Enabled(l, st)
    ensures var p := ClientPart(l, st);
            if p.Some? then
              C.Enabled(l.client, p.value) && Apply(l, st).client == C.Apply(l.client, p.value)
              && Apply(l, st).server == l.server
            else Apply(l, st).client == l.client
    ensures NumbersOf(l.server.jobs) <= NumbersOf(Apply(l, st).server.jobs)
  {
    match st
    case OfServer(sv) =>
      SS.Always(l.server);
      match sv {
        case OfReader(rs) => ServerReadKeeps(l.server, rs);
        case OfJob(js) => ServerJobKeeps(l.server, js);
      }
    case Respond(k, sent) => JobsSame(l.server, S.Respond(k, sent));
    case _ =>
  }

  lemma SettledByPeerRan(m: State, c: nat)
    requires Inv(m) && c < |m.client.calls| && m.client.calls[c].signals > 0
    ensures m.client.calls[c].outcome != Unsettled
    ensures FromPeer(m.client.calls[c].outcome) ==>
              m.client.calls[c].number != 0 && m.client.calls[c].number in NumbersOf(m.server.jobs)
  {
    CS.Always(m.client);
    assert CI.CallOk(m.client, c);
    if FromPeer(m.client.calls[c].outcome) {
      CR.AtMostOneSignal(m.client, c);
      CR.OutcomeExplained(m.client, c);
      var f := m.client.calls[c].answer.value.frame;
      assert FromJob(m.server, f);
      var k: nat :| Gave(m.server, k, f);
      assert NumbersOf(m.server.jobs)[k] == f.number;
    }
  }

  lemma ClientInv(l: State)
    requires Inv(l)
    ensures CI.Inv(l.client)
  {
    CS.Always(l.client);
  }

  // Every step of the link is a step of the abstract call, or leaves it alone. In
  // particular a call never leaves Done, nor Withdrawn, and its outcome never changes.
  lemma StepSimulates(l: State, st: Step, c: nat)
    requires Inv(l) && Enabled(l, st)
    ensures Edge(StageOf(l, c), StageOf(Apply(l, st), c))
  {
    hide Inv, CI.Inv;
    Parts(l, st);
    StepKeeps(l, st);
    ClientInv(l);
    var m := Apply(l, st);
    var p := ClientPart(l, st);
    if p.Some? {
      CS.StepKeeps(l.client, p.value);
      if c < |l.client.calls| {
        ClientEdge(l, m, p.value, c);
      } else if c < |m.client.calls| {
        NewCallFresh(l.client, p.value, c);
      }
    }
  }

  lemma CallFacts(s: C.State, c: nat)
    requires CI.Inv(s) && c < |s.calls|
    ensures s.calls[c].signals <= 1 && (s.calls[c].signals == 0 <==> s.calls[c].outcome == Unsettled)
    ensures s.calls[c].withdrawn ==> CR.Quiet(s, c)
  {
    assert CI.CallOk(s, c);
  }

  lemma ClientEdge(l: State, m: State, st: C.Step, c: nat)
    requires CI.Inv(l.client) && C.Enabled(l.client, st) && m.client == C.Apply(l.client, st)
    requires Inv(m) && CI.Inv(m.client) && m.server == l.server && c < |l.client.calls|
    ensures Edge(StageOf(l, c), StageOf(m, c))
  {
    hide CI.Inv, Inv, CR.Quiet;
    match st {
      case OfCall(cs) => ProgressCall(l.client, cs, c);
      case OfConn(cs) => ProgressConn(l.client, cs, c);
    }
    CallFacts(l.client, c);
    CallFacts(m.client, c);
    if l.client.calls[c].withdrawn {
      CR.QuietStep(l.client, st, c);
    }
    if m.client.calls[c].signals > 0 {
      SettledByPeerRan(m, c);
    }
  }

  // Along a whole run: an outcome, once there, is final; a withdrawn call stays withdrawn.
  lemma {:induction false} RunSimulates(l: State, steps: seq<Step>, m: State, c: nat)
    requires Inv(l) && Exec(l, steps) == Some(m)
    ensures StageOf(l, c).Done? || StageOf(l, c).Withdrawn? ==> StageOf(m, c) == StageOf(l, c)
    ensures StageOf(l, c).Running? ==> !StageOf(m, c).Absent? && !StageOf(m, c).Issued?
    ensures StageOf(l, c).Issued? ==> !StageOf(m, c).Absent?
    decreases |steps|
  {
    hide Inv, StageOf;
    if steps != [] {
      StepSimulates(l, steps[0], c);
      StepKeeps(l, steps[0]);
      RunSimulates(Apply(l, steps[0]), steps[1..], m, c);
    }
  }
}
