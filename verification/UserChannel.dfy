/** A done channel that a user shares between calls of `Go`, on a client as it really runs:
    every signal the client gives a call is one deposit on the call's channel. */
module UserChannel {
  import opened Protocol
  import C = ClientMachine
  import CI = ClientInvariant
  import CS = ClientSteps
  import D = DoneChannels

  datatype State = State(client: C.State, channel: D.Channel)

  datatype Step = OfClient(st: C.Step) | Collect

  // The call that a step begins, and the call that it signals.
  function Begins(s: C.State, st: C.Step): Option<nat> {
    if st.OfCall? && (st.call.Begin? || st.call.Notify?) then Some(|s.calls|) else None
  }

  function Signals(s: C.State, st: C.Step): Option<nat>
    requires C.Enabled(s, st)
  {
    match st
    case OfCall(Refuse(c)) => Some(c)
    case OfCall(Recall(c)) => Some(c)
    case OfCall(FailWrite(c)) => Some(s.calls[c].place.found)
    case OfConn(Answer) => Some(s.reader.call)
    case OfConn(StopFail(n)) => Some(s.table.pending[n])
    case _ => None
  }

  // What the step does to the channel of the calls `on`.
  ghost function EventOf(s: C.State, st: C.Step, on: iset<nat>): Option<D.Event>
    requires C.Enabled(s, st)
  {
    if Begins(s, st).Some? && Begins(s, st).value in on then Some(D.Begin(Begins(s, st).value))
    else if Signals(s, st).Some? && Signals(s, st).value in on then Some(D.Signal(Signals(s, st).value))
    else None
  }

  ghost predicate Enabled(u: State, st: Step) {
    match st
    case OfClient(cl) => C.Enabled(u.client, cl)
    case Collect => D.Enabled(u.channel, D.Collect)
  }

  ghost function Apply(u: State, st: Step, on: iset<nat>): State
    requires Enabled(u, st)
  {
    match st
    case OfClient(cl) =>
      var e := EventOf(u.client, cl, on);
      State(C.Apply(u.client, cl), if e.Some? && D.Enabled(u.channel, e.value) then D.Apply(u.channel, e.value) else u.channel)
    case Collect => u.(channel := D.Apply(u.channel, D.Collect))
  }

  // The user's duty: when he begins a call on the channel, there is room for one more.
  ghost predicate Dutiful(u: State, st: Step, on: iset<nat>) {
    st.OfClient? && Begins(u.client, st.st).Some? && Begins(u.client, st.st).value in on ==>
      |D.Outstanding(u.channel)| < u.channel.cap
  }

  // The run leads there, and the user does his duty throughout.
  ghost predicate Leads(u: State, steps: seq<Step>, v: State, on: iset<nat>)
    decreases |steps|
  {
    if steps == [] then u == v
    else Enabled(u, steps[0]) && Dutiful(u, steps[0], on) && Leads(Apply(u, steps[0], on), steps[1..], v, on)
  }

  // The channel knows of each of its calls whether it was begun and signalled.
  ghost predicate Agrees(u: State, on: iset<nat>) {
    && (forall c :: c in u.channel.begun <==> c in on && c < |u.client.calls|)
    && (forall c :: c in u.channel.signalled <==> c in on && c < |u.client.calls| && u.client.calls[c].signals > 0)
  }

  // A step gives a signal to the call it names, which has none yet, and to no other.
  lemma CallSignals(s: C.State, st: C.CallStep, c: nat)
    requires CI.Inv(s) && C.CanCall(s, st) && c < |s.calls|
    ensures c < |C.ApplyCall(s, st).calls|
    ensures var g := Signals(s, C.OfCall(st));
            && C.ApplyCall(s, st).calls[c].signals == s.calls[c].signals + (if g == Some(c) then 1 else 0)
            && (g == Some(c) ==> s.calls[c].signals == 0)
  {
    hide CI.Base, CI.OutcomeOk, CI.KindOk;
    assert CI.CallOk(s, c);
    if st.FailWrite? { assert CI.CallOk(s, st.c); }
  }

  lemma ConnSignals(s: C.State, st: C.ConnStep, c: nat)
    requires CI.Inv(s) && C.CanConn(s, st) && c < |s.calls|
    ensures c < |C.ApplyConn(s, st).calls|
    ensures var g := Signals(s, C.OfConn(st));
            && C.ApplyConn(s, st).calls[c].signals == s.calls[c].signals + (if g == Some(c) then 1 else 0)
            && (g == Some(c) ==> s.calls[c].signals == 0)
  {
    hide CI.OutcomeOk, CI.KindOk, CI.WritesOk, CI.ReaderOk;
    assert CI.CallOk(s, c);
  }

  // New calls are the ones a step begins; they have no signal.
  lemma CallsBegun(s: C.State, st: C.Step)
    requires C.Enabled(s, st)
    ensures var t := C.Apply(s, st);
            if Begins(s, st).Some? then |t.calls| == |s.calls| + 1 && t.calls[|s.calls|].signals == 0
            else |t.calls| == |s.calls|
  {
    match st
    case OfCall(cs) => CallCallsBegun(s, cs);
    case OfConn(cs) => ConnCallsBegun(s, cs);
  }

  lemma CallCallsBegun(s: C.State, st: C.CallStep)
    requires C.CanCall(s, st)
    ensures var t := C.ApplyCall(s, st);
            if st.Begin? || st.Notify? then |t.calls| == |s.calls| + 1 && t.calls[|s.calls|].signals == 0
            else |t.calls| == |s.calls|
  {
  }

  lemma ConnCallsBegun(s: C.State, st: C.ConnStep)
    requires C.CanConn(s, st)
    ensures |C.ApplyConn(s, st).calls| == |s.calls|
  {
  }

  lemma SignalledExists(s: C.State, st: C.Step)
    requires CI.Inv(s) && C.Enabled(s, st) && Signals(s, st).Some?
    ensures Signals(s, st).value < |s.calls| && Begins(s, st).None?
  {
    hide CI.OutcomeOk, CI.KindOk, CI.DutyOk, CI.WritesOk;
  }

  // Every step of the client is an event the channel can take, or none: a call is begun
  // once, and signalled at most once, after that.
  lemma ClientStepIsEvent(u: State, st: C.Step, on: iset<nat>)
    requires CI.Inv(u.client) && C.Enabled(u.client, st) && Agrees(u, on)
    ensures var e := EventOf(u.client, st, on);
            e.Some? ==> D.Enabled(u.channel, e.value)
    ensures Agrees(Apply(u, OfClient(st), on), on)
  {
    hide CI.Inv, C.Apply, C.Enabled, Signals;
    var s := u.client;
    CallsBegun(s, st);
    if Signals(s, st).Some? { SignalledExists(s, st); }
    forall c: nat | c < |s.calls|
      ensures c < |C.Apply(s, st).calls|
      ensures C.Apply(s, st).calls[c].signals == s.calls[c].signals + (if Signals(s, st) == Some(c) then 1 else 0)
      ensures Signals(s, st) == Some(c) ==> s.calls[c].signals == 0
    {
      StepSignals(s, st, c);
    }
  }

  lemma StepSignals(s: C.State, st: C.Step, c: nat)
    requires CI.Inv(s) && C.Enabled(s, st) && c < |s.calls|
    ensures c < |C.Apply(s, st).calls|
    ensures C.Apply(s, st).calls[c].signals == s.calls[c].signals + (if Signals(s, st) == Some(c) then 1 else 0)
    ensures Signals(s, st) == Some(c) ==> s.calls[c].signals == 0
  {
    hide CI.Inv, Signals;
    match st
    case OfCall(cs) => CallSignals(s, cs, c);
    case OfConn(cs) => ConnSignals(s, cs, c);
  }

  ghost predicate Inv(u: State, on: iset<nat>) {
    CI.Inv(u.client) && Agrees(u, on) && D.Inv(u.channel)
  }

  lemma StepKeeps(u: State, st: Step, on: iset<nat>)
    requires Inv(u, on) && Enabled(u, st) && Dutiful(u, st, on)
    ensures Inv(Apply(u, st, on), on)
  {
    hide CI.Inv, D.Inv, D.Outstanding, C.Apply, C.Enabled, Signals;
    match st
    case OfClient(cl) =>
      CS.StepKeeps(u.client, cl);
      ClientStepIsEvent(u, cl, on);
      var e := EventOf(u.client, cl, on);
      if e.Some? { D.StepKeeps(u.channel, e.value); }
    case Collect => D.StepKeeps(u.channel, D.Collect);
  }

  lemma {:induction false} RunKeeps(u: State, steps: seq<Step>, v: State, on: iset<nat>)
    requires Inv(u, on) && Leads(u, steps, v, on)
    ensures Inv(v, on)
    decreases |steps|
  {
    hide Inv, Enabled, Dutiful;
    if steps != [] {
      StepKeeps(u, steps[0], on);
      RunKeeps(Apply(u, steps[0], on), steps[1..], v, on);
    }
  }

  // In every run of the client against any peer, if the user never has more calls
  // outstanding on a channel than it has room for, no signal on it is dropped: every call
  // of the channel that was signalled was received by the user or waits in the buffer.
  lemma NoSignalLost(cap: nat, steps: seq<Step>, v: State, on: iset<nat>)
    requires Leads(State(C.INIT, D.Open(cap)), steps, v, on)
    ensures v.channel.lost == 0
    ensures forall c: nat :: c in on && c < |v.client.calls| && v.client.calls[c].signals > 0 ==>
              c in v.channel.collected || c in v.channel.queue
  {
    hide CI.Inv;
    CS.InitReachable();
    CS.Always(C.INIT);
    D.OpenOk(cap);
    RunKeeps(State(C.INIT, D.Open(cap)), steps, v, on);
  }
}
