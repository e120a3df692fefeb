/** Every step of the client half keeps the invariant. For a step that concerns the calls
    in `cs`, one lemma shows that the calls in `cs` stay well-formed, another that
    the tables and locks do and that no other call is concerned; `Assemble` does the rest. */
module ClientSteps {
  import opened Protocol
  import opened PendingCalls
  import opened ClientMachine
  import opened ClientInvariant

  ghost predicate Local(s: State, t: State, cs: set<nat>) {
    Base(t) && Frame(s, t, cs)
  }

  lemma BeginKeeps(s: State, sync: bool, p: Payload)
    requires Inv(s) && Proper(p)
    ensures Inv(ApplyCall(s, Begin(sync, p)))
  {
    hide Inv, CallOk, Base, Frame;
    BeginCall(s, sync, p);
    BeginLocal(s, sync, p);
    Assemble(s, ApplyCall(s, Begin(sync, p)), {|s.calls|});
  }

  lemma BeginCall(s: State, sync: bool, p: Payload)
    requires Inv(s) && Proper(p)
    ensures CallOk(ApplyCall(s, Begin(sync, p)), |s.calls|)
  {
    hide CallOk;
    assert SendOk(ApplyCall(s, Begin(sync, p)), |s.calls|);
    NewCallOk(s, ApplyCall(s, Begin(sync, p)));
  }

  lemma NewCallOk(s: State, t: State)
    requires Inv(s) && |t.calls| == |s.calls| + 1 && SendOk(t, |s.calls|)
    requires t.table == s.table && t.reader == s.reader
    requires var r := t.calls[|s.calls|]; r == NewCall(r.kind, r.payload) && (r.kind == Sync || r.kind == Async)
    requires t.calls[|s.calls|].payload.CancelOf? ==> t.handmade
    ensures CallOk(t, |s.calls|)
  {
    hide SendOk;
  }

  lemma BeginLocal(s: State, sync: bool, p: Payload)
    requires Inv(s) && Proper(p)
    ensures Local(s, ApplyCall(s, Begin(sync, p)), {|s.calls|})
  {
    hide CallOk;
  }

  lemma LockKeeps(s: State, c: nat)
    requires Inv(s) && At(s, c, Wanting) && s.req == Free
    ensures Inv(Move(s, c, Locked).(req := BySender(c)))
  {
    hide Inv, CallOk, Base, Frame;
    LockCall(s, c);
    LockLocal(s, c);
    Assemble(s, Move(s, c, Locked).(req := BySender(c)), {c});
  }

  lemma LockCall(s: State, c: nat)
    requires Inv(s) && At(s, c, Wanting) && s.req == Free
    ensures CallOk(Move(s, c, Locked).(req := BySender(c)), c)
  {
    assert CallOk(s, c);
  }

  lemma LockLocal(s: State, c: nat)
    requires Inv(s) && At(s, c, Wanting) && s.req == Free
    ensures Local(s, Move(s, c, Locked).(req := BySender(c)), {c})
  {
    hide CallOk;
  }

  lemma EnrollCall(s: State, c: nat)
    requires Inv(s) && At(s, c, Locked) && MutexFree(s)
    ensures CallOk(Enrolled(s, c), c)
  {
    assert CallOk(s, c);
  }

  lemma EnrollBase(s: State, c: nat)
    requires Inv(s) && At(s, c, Locked) && MutexFree(s)
    ensures Base(Enrolled(s, c))
  {
    hide KindOk, OutcomeOk, DutyOk;
    assert CallOk(s, c);
  }

  lemma EnrollFrame(s: State, c: nat)
    requires Inv(s) && At(s, c, Locked) && MutexFree(s)
    ensures Frame(s, Enrolled(s, c), {c})
  {
    hide KindOk, OutcomeOk, DutyOk, WritesOk, ReaderOk;
    assert CallOk(s, c);
  }

  lemma RefuseKeeps(s: State, c: nat)
    requires Inv(s) && At(s, c, Refusing)
    ensures Inv(Move(Signal(s, c, Err(Shutdown)), c, Leaving))
  {
    hide Inv, CallOk, Base, Frame;
    RefuseCall(s, c);
    RefuseLocal(s, c);
    Assemble(s, Move(Signal(s, c, Err(Shutdown)), c, Leaving), {c});
  }

  lemma RefuseCall(s: State, c: nat)
    requires Inv(s) && At(s, c, Refusing)
    ensures CallOk(Move(Signal(s, c, Err(Shutdown)), c, Leaving), c)
  {
    assert CallOk(s, c);
  }

  lemma RefuseLocal(s: State, c: nat)
    requires Inv(s) && At(s, c, Refusing)
    ensures Local(s, Move(Signal(s, c, Err(Shutdown)), c, Leaving), {c})
  {
    hide CallOk;
  }

  lemma WriteCall(s: State, c: nat, how: Attempt)
    requires Inv(s) && CanCall(s, Write(c, how))
    ensures CallOk(ApplyCall(s, Write(c, how)), c)
  {
    assert CallOk(s, c);
  }

  lemma WriteLocal(s: State, c: nat, how: Attempt)
    requires Inv(s) && CanCall(s, Write(c, how))
    ensures Local(s, ApplyCall(s, Write(c, how)), {c})
  {
    hide KindOk, OutcomeOk;
    assert CallOk(s, c);
  }

  lemma ReclaimCall(s: State, c: nat)
    requires Inv(s) && CanCall(s, Reclaim(c))
    ensures CallOk(Reclaimed(s, c), c)
  {
    hide OutcomeOk;
    assert CallOk(s, c);
    ReclaimOutcome(s, c);
  }

  lemma ReclaimOutcome(s: State, c: nat)
    requires Inv(s) && CanCall(s, Reclaim(c))
    ensures OutcomeOk(Reclaimed(s, c), c)
  {
    hide SendOk, KindOk, DutyOk, Base;
    assert CallOk(s, c);
  }

  lemma ReclaimBase(s: State, c: nat)
    requires Inv(s) && CanCall(s, Reclaim(c))
    ensures Base(Reclaimed(s, c))
  {
    hide KindOk, OutcomeOk, DutyOk;
    assert CallOk(s, c);
  }

  lemma ReclaimFrame(s: State, c: nat)
    requires Inv(s) && CanCall(s, Reclaim(c))
    ensures Frame(s, Reclaimed(s, c), {c})
  {
    hide KindOk, OutcomeOk, DutyOk, WritesOk, ReaderOk;
    assert CallOk(s, c);
  }

  lemma FailWriteCall(s: State, c: nat)
    requires Inv(s) && CanCall(s, FailWrite(c))
    ensures s.calls[c].place.found == c && CallOk(ApplyCall(s, FailWrite(c)), c)
  {
    assert CallOk(s, c);
  }

  lemma FailWriteLocal(s: State, c: nat)
    requires Inv(s) && CanCall(s, FailWrite(c)) && s.calls[c].place.found == c
    ensures Local(s, ApplyCall(s, FailWrite(c)), {c})
  {
    hide CallOk;
  }

  lemma UnlockCall(s: State, c: nat)
    requires Inv(s) && CanCall(s, Unlock(c))
    ensures CallOk(ApplyCall(s, Unlock(c)), c)
  {
    hide NamesOk, WritesOk, ReaderOk;
    assert CallOk(s, c);
  }

  lemma UnlockLocal(s: State, c: nat)
    requires Inv(s) && CanCall(s, Unlock(c))
    ensures Local(s, ApplyCall(s, Unlock(c)), {c})
  {
    hide CallOk;
  }

  lemma ReceiveCall(s: State, c: nat)
    requires Inv(s) && CanCall(s, Receive(c))
    ensures CallOk(ApplyCall(s, Receive(c)), c)
  {
    assert CallOk(s, c);
  }

  lemma LeaveCall(s: State, c: nat)
    requires Inv(s) && CanCall(s, Leave(c))
    ensures CallOk(ApplyCall(s, Leave(c)), c)
  {
    assert CallOk(s, c);
  }

  // Receive and Leave move the goroutine of a `Call` only.
  lemma SelectLocal(s: State, c: nat, p: Place)
    requires Inv(s) && c < |s.calls| && !Inside(s.calls[c].place) && !Inside(p)
    ensures Local(s, Move(s, c, p), {c})
  {
    hide CallOk;
  }

  lemma WithdrawCall(s: State, c: nat)
    requires Inv(s) && CanCall(s, Withdraw(c))
    ensures CallOk(Withdrawn(s, c), c)
  {
    hide Inv, SendOk, KindOk, DutyOk, OutcomeOk;
    WithdrawPlace(s, c);
    WithdrawDuty(s, c);
    WithdrawOutcome(s, c);
  }

  lemma WithdrawPlace(s: State, c: nat)
    requires Inv(s) && CanCall(s, Withdraw(c))
    ensures SendOk(Withdrawn(s, c), c) && KindOk(Withdrawn(s, c), c)
  {
    hide OutcomeOk, LockOk, WritesOk, ReaderOk;
    assert CallOk(s, c);
  }

  lemma WithdrawDuty(s: State, c: nat)
    requires Inv(s) && CanCall(s, Withdraw(c))
    ensures DutyOk(Withdrawn(s, c), c)
  {
    hide OutcomeOk, WritesOk, ReaderOk;
    assert CallOk(s, c);
  }

  lemma WithdrawOutcome(s: State, c: nat)
    requires Inv(s) && CanCall(s, Withdraw(c))
    ensures OutcomeOk(Withdrawn(s, c), c)
  {
    hide SendOk, KindOk, DutyOk, Base;
    assert CallOk(s, c);
  }

  lemma WithdrawBase(s: State, c: nat)
    requires Inv(s) && CanCall(s, Withdraw(c))
    ensures Base(Withdrawn(s, c))
  {
    hide OutcomeOk, DutyOk, KindOk;
    assert CallOk(s, c);
  }

  lemma WithdrawFrame(s: State, c: nat)
    requires Inv(s) && CanCall(s, Withdraw(c))
    ensures Frame(s, Withdrawn(s, c), {c})
  {
    hide OutcomeOk, DutyOk, WritesOk, ReaderOk, LockOk;
    assert CallOk(s, c);
  }

  lemma WithdrawLocal(s: State, c: nat)
    requires Inv(s) && CanCall(s, Withdraw(c))
    ensures Local(s, Withdrawn(s, c), {c})
  {
    hide OutcomeOk, DutyOk, Base;
    WithdrawBase(s, c);
    WithdrawFrame(s, c);
  }

  lemma NotifyCall(s: State, c: nat)
    requires Inv(s) && CanCall(s, Notify(c))
    ensures CallOk(Notified(s, c), c)
  {
    assert CallOk(s, c);
  }

  lemma NoticeCall(s: State, c: nat)
    requires Inv(s) && CanCall(s, Notify(c))
    ensures CallOk(Notified(s, c), |s.calls|)
  {
    hide DutyOk;
    assert CallOk(s, c);
    NoticeDuty(s, c);
  }

  lemma NoticeDuty(s: State, c: nat)
    requires Inv(s) && CanCall(s, Notify(c))
    ensures DutyOk(Notified(s, c), |s.calls|)
  {
    hide CallOk;
  }

  lemma NotifyLocal(s: State, c: nat)
    requires Inv(s) && CanCall(s, Notify(c))
    ensures Local(s, Notified(s, c), {c, |s.calls|})
  {
    hide OutcomeOk, SendOk, DutyOk;
    assert CallOk(s, c);
  }

  lemma MatchCall(s: State)
    requires Inv(s) && CanConn(s, Match) && s.reader.frame.number in s.table.pending
    ensures CallOk(Matched(s), s.table.pending[s.reader.frame.number])
  {
    assert CallOk(s, s.table.pending[s.reader.frame.number]);
  }

  // The call that the frame the reader holds is for.
  function Matches(s: State): set<nat>
    requires s.reader.Matching?
  {
    var found := Lookup(s.table, s.reader.frame.number);
    if found.Some? then {found.value} else {}
  }

  lemma MatchLocal(s: State)
    requires Inv(s) && CanConn(s, Match)
    ensures Local(s, Matched(s), Matches(s))
  {
    hide CallOk;
  }

  lemma MatchKeeps(s: State)
    requires Inv(s) && CanConn(s, Match)
    ensures Inv(Matched(s))
  {
    hide Inv, CallOk, Base, Frame;
    if s.reader.frame.number in s.table.pending {
      MatchCall(s);
    }
    MatchLocal(s);
    Assemble(s, Matched(s), Matches(s));
  }

  lemma BodyCall(s: State, fail: Option<IoError>, junk: Option<Value>)
    requires Inv(s) && CanConn(s, GotBody(fail, junk)) && s.reader.waiter.Some?
    ensures CallOk(BodyRead(s, fail, junk), s.reader.waiter.value)
  {
    hide NamesOk, WritesOk, LockOk;
    assert CallOk(s, s.reader.waiter.value);
  }

  lemma BodyBase(s: State, fail: Option<IoError>, junk: Option<Value>)
    requires Inv(s) && CanConn(s, GotBody(fail, junk))
    ensures Base(BodyRead(s, fail, junk))
  {
    hide Inv, NamesOk, LockOk, WritesOk, ReaderOk, BodyRead;
    BodyTables(s, fail, junk);
    BodyReader(s, fail, junk);
  }

  lemma BodyTables(s: State, fail: Option<IoError>, junk: Option<Value>)
    requires Inv(s) && CanConn(s, GotBody(fail, junk))
    ensures NamesOk(BodyRead(s, fail, junk)) && LockOk(BodyRead(s, fail, junk)) && WritesOk(BodyRead(s, fail, junk))
  {
    hide CallOk, ReaderOk;
  }

  lemma BodyReader(s: State, fail: Option<IoError>, junk: Option<Value>)
    requires Inv(s) && CanConn(s, GotBody(fail, junk))
    ensures ReaderOk(BodyRead(s, fail, junk))
  {
    hide CallOk, NamesOk, LockOk, WritesOk;
  }

  lemma BodyFrame(s: State, fail: Option<IoError>, junk: Option<Value>)
    requires Inv(s) && CanConn(s, GotBody(fail, junk))
    ensures Frame(s, BodyRead(s, fail, junk), Waiters(s))
  {
    hide CallOk, Base;
  }

  function Waiters(s: State): set<nat>
    requires s.reader.Decoding?
  {
    if s.reader.waiter.Some? then {s.reader.waiter.value} else {}
  }

  lemma BodyKeeps(s: State, fail: Option<IoError>, junk: Option<Value>)
    requires Inv(s) && CanConn(s, GotBody(fail, junk))
    ensures Inv(BodyRead(s, fail, junk))
  {
    hide Inv, CallOk, Base, Frame;
    if s.reader.waiter.Some? {
      BodyCall(s, fail, junk);
    }
    BodyBase(s, fail, junk);
    BodyFrame(s, fail, junk);
    Assemble(s, BodyRead(s, fail, junk), Waiters(s));
  }

  lemma AnswerCall(s: State)
    requires Inv(s) && CanConn(s, Answer)
    ensures CallOk(ApplyConn(s, Answer), s.reader.call)
  {
    assert CallOk(s, s.reader.call);
  }

  lemma AnswerKeeps(s: State)
    requires Inv(s) && CanConn(s, Answer)
    ensures Inv(ApplyConn(s, Answer))
  {
    hide CallOk;
    AnswerCall(s);
    Assemble(s, ApplyConn(s, Answer), {s.reader.call});
  }

  lemma StopFailCall(s: State, n: nat)
    requires Inv(s) && CanConn(s, StopFail(n))
    ensures CallOk(ApplyConn(s, StopFail(n)), s.table.pending[n])
  {
    assert CallOk(s, s.table.pending[n]);
  }

  lemma StopFailKeeps(s: State, n: nat)
    requires Inv(s) && CanConn(s, StopFail(n))
    ensures Inv(ApplyConn(s, StopFail(n)))
  {
    hide CallOk;
    StopFailCall(s, n);
    Assemble(s, ApplyConn(s, StopFail(n)), {s.table.pending[n]});
  }

  // Shutting down turns every registered call into one that still has to be failed.
  // Holding reqMutex, the reader knows that no `send` is between registering and writing.
  lemma StopBeginKeeps(s: State)
    requires Inv(s) && CanConn(s, StopBegin)
    ensures Inv(DrainBegun(s))
  {
    var t := DrainBegun(s);
    forall c: nat | c < |t.calls| ensures CallOk(t, c) {
      assert CallOk(s, c);
    }
  }

  // The remaining steps touch no call.
  predicate TouchesNone(st: ConnStep) {
    st.Close? || st.GotHeader? || st.GotEnd? || st.StopLock? || st.StopEnd? || st.WriterLock? || st.WriterUnlock?
  }

  lemma ConnBase(s: State, st: ConnStep)
    requires Inv(s) && CanConn(s, st) && TouchesNone(st)
    ensures Base(ApplyConn(s, st))
  {
    hide CallOk;
  }

  lemma ConnFrame(s: State, st: ConnStep)
    requires Inv(s) && CanConn(s, st) && TouchesNone(st)
    ensures Frame(s, ApplyConn(s, st), {})
  {
    hide CallOk, Base;
  }

  lemma ConnKeeps(s: State, st: ConnStep)
    requires Inv(s) && CanConn(s, st) && TouchesNone(st)
    ensures Inv(ApplyConn(s, st))
  {
    hide Inv, CallOk, Base, Frame, CanConn;
    ConnBase(s, st);
    ConnFrame(s, st);
    Assemble(s, ApplyConn(s, st), {});
  }

  // The "already canceled" branch of `send` is never taken.
  lemma NeverRecalled(s: State, c: nat)
    requires Inv(s)
    ensures !At(s, c, Recalling)
  {
    if c < |s.calls| {
      assert CallOk(s, c);
    }
  }

  // Steps in `Call`'s select and after it.
  predicate AfterSend(st: CallStep) {
    st.Receive? || st.Withdraw? || st.Notify? || st.Leave?
  }

  lemma SelectStepKeeps(s: State, st: CallStep)
    requires Inv(s) && CanCall(s, st) && AfterSend(st)
    ensures Inv(ApplyCall(s, st))
  {
    hide Inv, CallOk, Base, Frame;
    var t := ApplyCall(s, st);
    match st
    case Receive(c) => ReceiveCall(s, c); SelectLocal(s, c, t.calls[c].place); Assemble(s, t, {c});
    case Withdraw(c) => WithdrawCall(s, c); WithdrawLocal(s, c); Assemble(s, t, {c});
    case Notify(c) => NotifyCall(s, c); NoticeCall(s, c); NotifyLocal(s, c); Assemble(s, t, {c, |s.calls|});
    case Leave(c) => LeaveCall(s, c); SelectLocal(s, c, GaveUp); Assemble(s, t, {c});
  }

  lemma SendStepKeeps(s: State, st: CallStep)
    requires Inv(s) && CanCall(s, st) && !AfterSend(st)
    ensures Inv(ApplyCall(s, st))
  {
    hide Inv, CallOk, Base, Frame;
    var t := ApplyCall(s, st);
    match st
    case Begin(sync, p) => BeginKeeps(s, sync, p);
    case Lock(c) => LockKeeps(s, c);
    case Enroll(c) => EnrollCall(s, c); EnrollBase(s, c); EnrollFrame(s, c); Assemble(s, t, {c});
    case Refuse(c) => RefuseKeeps(s, c);
    case Recall(c) => NeverRecalled(s, c);
    case Write(c, how) => WriteCall(s, c, how); WriteLocal(s, c, how); Assemble(s, t, {c});
    case Reclaim(c) => ReclaimCall(s, c); ReclaimBase(s, c); ReclaimFrame(s, c); Assemble(s, t, {c});
    case FailWrite(c) => FailWriteCall(s, c); FailWriteLocal(s, c); Assemble(s, t, {c});
    case Unlock(c) => UnlockCall(s, c); UnlockLocal(s, c); Assemble(s, t, {c});
  }

  lemma StepKeeps(s: State, st: Step)
    requires Inv(s) && Enabled(s, st)
    ensures Inv(Apply(s, st))
  {
    hide Inv;
    match st
    case OfCall(cs) => if AfterSend(cs) { SelectStepKeeps(s, cs); } else { SendStepKeeps(s, cs); }
    case OfConn(cs) =>
      match cs {
        case Match => MatchKeeps(s);
        case GotBody(fail, junk) => BodyKeeps(s, fail, junk);
        case Answer => AnswerKeeps(s);
        case StopBegin => StopBeginKeeps(s);
        case StopFail(n) => StopFailKeeps(s, n);
        case _ => ConnKeeps(s, cs);
      }
  }

  lemma {:induction false} RunKeeps(s: State, steps: seq<Step>, t: State)
    requires Inv(s) && Exec(s, steps) == Some(t)
    ensures Inv(t)
    decreases |steps|
  {
    hide Inv;
    if steps != [] {
      StepKeeps(s, steps[0]);
      RunKeeps(Apply(s, steps[0]), steps[1..], t);
    }
  }

  // Every reachable state satisfies the invariant.
  lemma Always(s: State)
    requires Reachable(s)
    ensures Inv(s)
  {
    var steps :| Exec(INIT, steps) == Some(s);
    RunKeeps(INIT, steps, s);
  }

  lemma {:induction false} ExecSnoc(s: State, steps: seq<Step>, t: State, st: Step)
    requires Exec(s, steps) == Some(t) && Enabled(t, st)
    ensures Exec(s, steps + [st]) == Some(Apply(t, st))
    decreases |steps|
  {
    if steps == [] {
      assert ([] + [st])[1..] == [];
      assert Exec(Apply(t, st), []) == Some(Apply(t, st));
    } else {
      ExecSnoc(Apply(s, steps[0]), steps[1..], t, st);
      assert (steps + [st])[1..] == steps[1..] + [st];
    }
  }

  lemma ReachNext(s: State, st: Step)
    requires Reachable(s) && Enabled(s, st)
    ensures Reachable(Apply(s, st))
  {
    var steps :| Exec(INIT, steps) == Some(s);
    ExecSnoc(INIT, steps, s, st);
  }

  lemma InitReachable()
    ensures Reachable(INIT)
  {
    assert Exec(INIT, []) == Some(INIT);
  }
}
