/** What the client half guarantees in every run, whatever the peer sends and however
    goroutines, cancellations, Close and disconnection interleave. */
module ClientResults {
  import opened Protocol
  import opened PendingCalls
  import opened ClientMachine
  import opened ClientInvariant
  import opened ClientSteps

  // `done` runs at most once for a call, and its outcome is set then and only then.
  lemma AtMostOneSignal(s: State, c: nat)
    requires Reachable(s) && c < |s.calls|
    ensures s.calls[c].signals <= 1
    ensures s.calls[c].signals == 0 <==> s.calls[c].outcome == Unsettled
  {
    Always(s);
    assert CallOk(s, c);
  }

  // After the termination section every call that was ever registered has been
  // signalled, or its own Call withdrew it; a call that was not registered, and whose
  // `send` is over, got ErrShutdown.
  lemma NoLostCall(s: State, c: nat)
    requires Reachable(s) && s.reader.Ended? && c < |s.calls|
    ensures s.calls[c].number != 0 ==> s.calls[c].signals == 1 || s.calls[c].withdrawn
    ensures s.calls[c].number == 0 && !Own(s.calls[c].place) ==>
              s.calls[c].signals == 1 && s.calls[c].outcome == Err(Shutdown)
  {
    Always(s);
    assert CallOk(s, c);
  }

  // A signalled call has exactly the outcome its history explains.
  lemma OutcomeExplained(s: State, c: nat)
    requires Reachable(s) && c < |s.calls| && s.calls[c].signals == 1
    ensures var r := s.calls[c];
            match r.outcome
            case Unsettled => false
            // nil error: a frame with this number, no error text, and a decoded body
            case Ok(v) => r.answer == Some(Heard(Response(r.number, "", v), None)) && r.reply == Some(v)
            // ServerError: the frame's non-empty text; the reply is untouched
            case Err(Server(t)) =>
              t != "" && r.reply == None && r.answer.Some?
              && r.answer.value.frame.number == r.number && r.answer.value.frame.text == t
            case Err(BadBody(e)) =>
              r.answer.Some? && r.answer.value.frame.number == r.number
              && r.answer.value.frame.text == "" && r.answer.value.fail == Some(e)
            // every other error: no frame was delivered to the call
            case Err(e) =>
              r.answer == None && r.reply == None
              && if r.number == 0 then e == Shutdown && (s.table.shutdown || s.table.closing)
                 else WriteFailed(s, r.number, e) || StoppedWith(s.reader, e)
  {
    Always(s);
    assert CallOk(s, c);
  }

  // The error of the calls that a stop fails.
  lemma StopErrorKind(s: State)
    requires Reachable(s) && s.reader.Ended?
    ensures s.reader.error != Io(Eof)
    ensures s.reader.error == Shutdown ==> s.table.closing
    ensures s.reader.error.Io? || s.reader.error.BadErrorBody? || s.reader.error == UnexpectedEof || s.reader.error == Shutdown
  {
    Always(s);
  }

  // pending[n] is a call whose seq is n, 1 <= n <= client.seq; key 0 never occurs; and
  // a number belongs to one call.
  lemma SequenceDiscipline(s: State, n: nat, c: nat, d: nat)
    requires Reachable(s)
    ensures n in s.table.pending ==>
              1 <= n <= s.table.last && s.table.pending[n] < |s.calls|
              && s.calls[s.table.pending[n]].mark == n && s.calls[s.table.pending[n]].number == n
    ensures c < |s.calls| && d < |s.calls| && s.calls[c].number == s.calls[d].number != 0 ==> c == d
    ensures !At(s, c, Recalling)
  {
    Always(s);
    if c < |s.calls| { assert CallOk(s, c); }
    if d < |s.calls| { assert CallOk(s, d); }
    if n in s.table.pending { assert CallOk(s, s.table.pending[n]); }
  }

  // A response goes to its call exactly when that is still in the table; one whose call
  // was withdrawn is discarded.
  lemma LateResponse(s: State, c: nat)
    requires Reachable(s) && CanConn(s, Match) && c < |s.calls|
    requires s.calls[c].number == s.reader.frame.number != 0
    ensures s.calls[c].withdrawn ==> Matched(s).reader.waiter == None
    ensures Matched(s).reader.waiter == if InTable(s, c) then Some(c) else None
  {
    Always(s);
    assert CallOk(s, c);
  }

  // Nobody will write to the call any more.
  predicate Quiet(s: State, c: nat)
    requires c < |s.calls|
  {
    !Own(s.calls[c].place) && !InTable(s, c) && !InHand(s, c)
  }

  predicate SameResult(r: Call, q: Call) {
    && q.outcome == r.outcome && q.reply == r.reply && q.signals == r.signals && q.answer == r.answer
    && q.number == r.number && q.withdrawn == r.withdrawn
  }

  lemma QuietStep(s: State, st: Step, c: nat)
    requires Inv(s) && Enabled(s, st) && c < |s.calls| && Quiet(s, c)
    ensures c < |Apply(s, st).calls| && Quiet(Apply(s, st), c) && SameResult(s.calls[c], Apply(s, st).calls[c])
  {
    hide WritesOk, OutcomeOk, LockOk;
    assert CallOk(s, c);
    match st
    case OfCall(cs) => QuietCallStep(s, cs, c);
    case OfConn(cs) => QuietConnStep(s, cs, c);
  }

  lemma QuietCallStep(s: State, st: CallStep, c: nat)
    requires Inv(s) && CanCall(s, st) && c < |s.calls| && Quiet(s, c)
    ensures c < |ApplyCall(s, st).calls| && Quiet(ApplyCall(s, st), c)
    ensures SameResult(s.calls[c], ApplyCall(s, st).calls[c])
  {
    hide Inv, Quiet, SameResult;
    if st == Withdraw(c) {
      QuietWithdraw(s, c);
    } else if st.Enroll? || st.Reclaim? || st.FailWrite? || st.Withdraw? {
      QuietTableStep(s, st, c);
    } else {
      QuietPlainStep(s, st, c);
    }
  }

  lemma QuietWithdraw(s: State, c: nat)
    requires Inv(s) && CanCall(s, Withdraw(c)) && Quiet(s, c)
    ensures Quiet(Withdrawn(s, c), c) && SameResult(s.calls[c], Withdrawn(s, c).calls[c])
  {
    assert CallOk(s, c);
  }

  lemma QuietPlainStep(s: State, st: CallStep, c: nat)
    requires Inv(s) && CanCall(s, st) && c < |s.calls| && Quiet(s, c)
    requires !st.Enroll? && !st.Reclaim? && !st.FailWrite? && !st.Withdraw?
    ensures c < |ApplyCall(s, st).calls| && Quiet(ApplyCall(s, st), c)
    ensures SameResult(s.calls[c], ApplyCall(s, st).calls[c])
  {
    hide WritesOk, OutcomeOk, LockOk, ReaderOk, KindOk, DutyOk;
    assert CallOk(s, c);
  }

  lemma QuietTableStep(s: State, st: CallStep, c: nat)
    requires Inv(s) && CanCall(s, st) && c < |s.calls| && Quiet(s, c) && st != Withdraw(c)
    requires st.Enroll? || st.Reclaim? || st.FailWrite? || st.Withdraw?
    ensures Quiet(ApplyCall(s, st), c) && SameResult(s.calls[c], ApplyCall(s, st).calls[c])
  {
    hide WritesOk, OutcomeOk, LockOk, ReaderOk, KindOk, DutyOk;
    assert CallOk(s, c);
    if st.FailWrite? { assert CallOk(s, st.c); }
  }

  lemma QuietConnStep(s: State, st: ConnStep, c: nat)
    requires Inv(s) && CanConn(s, st) && c < |s.calls| && Quiet(s, c)
    ensures c < |ApplyConn(s, st).calls| && Quiet(ApplyConn(s, st), c)
    ensures SameResult(s.calls[c], ApplyConn(s, st).calls[c])
  {
    hide WritesOk, OutcomeOk, KindOk;
    assert CallOk(s, c);
  }

  lemma {:induction false} QuietForever(s: State, steps: seq<Step>, t: State, c: nat)
    requires Inv(s) && Exec(s, steps) == Some(t) && c < |s.calls| && Quiet(s, c)
    ensures c < |t.calls| && SameResult(s.calls[c], t.calls[c])
    decreases |steps|
  {
    hide Inv, Quiet;
    if steps != [] {
      QuietStep(s, steps[0], c);
      StepKeeps(s, steps[0]);
      QuietForever(Apply(s, steps[0]), steps[1..], t, c);
    }
  }

  // Once a call was signalled outside the termination section, or withdrawn by its own
  // Call, no later step writes its error, its reply or its channel.
  lemma NoLateWrite(s: State, steps: seq<Step>, t: State, c: nat)
    requires Reachable(s) && Exec(s, steps) == Some(t) && c < |s.calls|
    requires s.calls[c].withdrawn || (s.calls[c].signals == 1 && !InTable(s, c))
    ensures c < |t.calls| && SameResult(s.calls[c], t.calls[c])
  {
    Always(s);
    assert CallOk(s, c);
    QuietForever(s, steps, t, c);
  }

  // After the last step that touches `reply` the reader is past the call's body.
  predicate ReplyFixed(s: State, c: nat)
    requires c < |s.calls|
  {
    Quiet(s, c) || (InHand(s, c) && !(s.reader.Decoding? && s.reader.frame.text == ""))
  }

  lemma ReplyFixedStep(s: State, st: Step, c: nat)
    requires Inv(s) && Enabled(s, st) && c < |s.calls| && ReplyFixed(s, c)
    ensures c < |Apply(s, st).calls| && ReplyFixed(Apply(s, st), c)
    ensures Apply(s, st).calls[c].reply == s.calls[c].reply
  {
    if Quiet(s, c) {
      QuietStep(s, st, c);
    } else {
      match st
      case OfCall(cs) => HandCallStep(s, cs, c);
      case OfConn(cs) => HandConnStep(s, cs, c);
    }
  }

  lemma HandCallStep(s: State, st: CallStep, c: nat)
    requires Inv(s) && CanCall(s, st) && c < |s.calls| && InHand(s, c)
    ensures ApplyCall(s, st).reader == s.reader && c < |ApplyCall(s, st).calls|
    ensures ApplyCall(s, st).calls[c].reply == s.calls[c].reply
  {
    hide WritesOk, OutcomeOk, LockOk, ReaderOk, KindOk, DutyOk;
    if st.FailWrite? { assert CallOk(s, st.c); }
  }

  lemma HandConnStep(s: State, st: ConnStep, c: nat)
    requires Inv(s) && CanConn(s, st) && c < |s.calls| && InHand(s, c) && ReplyFixed(s, c)
    ensures c < |ApplyConn(s, st).calls| && ReplyFixed(ApplyConn(s, st), c)
    ensures ApplyConn(s, st).calls[c].reply == s.calls[c].reply
  {
    hide WritesOk, OutcomeOk, KindOk, LockOk, NamesOk;
    assert CallOk(s, c);
  }

  lemma {:induction false} ReplyFixedForever(s: State, steps: seq<Step>, t: State, c: nat)
    requires Inv(s) && Exec(s, steps) == Some(t) && c < |s.calls| && ReplyFixed(s, c)
    ensures c < |t.calls| && t.calls[c].reply == s.calls[c].reply
    decreases |steps|
  {
    hide Inv, ReplyFixed;
    if steps != [] {
      ReplyFixedStep(s, steps[0], c);
      StepKeeps(s, steps[0]);
      ReplyFixedForever(Apply(s, steps[0]), steps[1..], t, c);
    }
  }

  ghost predicate CanStillWriteReply(s: State, c: nat)
    requires c < |s.calls|
  {
    exists steps, t :: Exec(s, steps) == Some(t) && c < |t.calls| && t.calls[c].reply != s.calls[c].reply
  }

  // When a Call returned ctx.Err(), its reply can still be written if and only if the
  // reader had taken the call before and is about to read its body. A Call that found
  // itself in the table is safe.
  lemma GaveUpReply(s: State, c: nat)
    requires Reachable(s) && At(s, c, GaveUp)
    ensures CanStillWriteReply(s, c) <==>
              s.reader.Decoding? && s.reader.waiter == Some(c) && s.reader.frame.text == ""
    ensures s.calls[c].withdrawn ==> !CanStillWriteReply(s, c)
  {
    Always(s);
    assert CallOk(s, c);
    if s.reader.Decoding? && s.reader.waiter == Some(c) && s.reader.frame.text == "" {
      var st := OfConn(GotBody(None, None));
      var t := Apply(s, st);
      assert Exec(t, []) == Some(t);
      assert [st][1..] == [];
      assert Exec(s, [st]) == Some(t);
      assert t.calls[c].reply != s.calls[c].reply;
    } else {
      forall steps, t | Exec(s, steps) == Some(t)
        ensures c < |t.calls| && t.calls[c].reply == s.calls[c].reply
      {
        ReplyFixedForever(s, steps, t, c);
      }
    }
  }

  // `send` refuses: the connection is shut down, or the user closed it.
  predicate Barred(s: State) {
    s.table.shutdown || s.table.closing
  }

  // Once the connection is shut down or closed, a call that begins later is never
  // registered, and its signal carries ErrShutdown.
  lemma LaterCallsRefused(s: State, steps: seq<Step>, t: State, c: nat)
    requires Reachable(s) && Barred(s) && Exec(s, steps) == Some(t) && |s.calls| <= c < |t.calls|
    ensures t.calls[c].number == 0
    ensures t.calls[c].signals == 1 ==> t.calls[c].outcome == Err(Shutdown)
  {
    Always(s);
    RunKeeps(s, steps, t);
    NumbersFrozen(s, steps, t, c);
    assert CallOk(t, c);
  }

  lemma {:induction false} NumbersFrozen(s: State, steps: seq<Step>, t: State, c: nat)
    requires Barred(s) && Exec(s, steps) == Some(t) && c < |t.calls|
    requires c < |s.calls| ==> s.calls[c].number == 0
    ensures t.calls[c].number == 0
    decreases |steps|
  {
    if steps != [] {
      FrozenStep(s, steps[0], c);
      NumbersFrozen(Apply(s, steps[0]), steps[1..], t, c);
    }
  }

  lemma FrozenStep(s: State, st: Step, c: nat)
    requires Barred(s) && Enabled(s, st)
    requires c < |s.calls| ==> s.calls[c].number == 0
    ensures Barred(Apply(s, st)) && (c < |Apply(s, st).calls| ==> Apply(s, st).calls[c].number == 0)
  {
    match st
    case OfCall(cs) => FrozenCallStep(s, cs, c);
    case OfConn(cs) => FrozenConnStep(s, cs, c);
  }

  lemma FrozenCallStep(s: State, st: CallStep, c: nat)
    requires Barred(s) && CanCall(s, st)
    requires c < |s.calls| ==> s.calls[c].number == 0
    ensures Barred(ApplyCall(s, st))
    ensures c < |ApplyCall(s, st).calls| ==> ApplyCall(s, st).calls[c].number == 0
  {
  }

  lemma FrozenConnStep(s: State, st: ConnStep, c: nat)
    requires Barred(s) && CanConn(s, st)
    requires c < |s.calls| ==> s.calls[c].number == 0
    ensures Barred(ApplyConn(s, st))
    ensures c < |ApplyConn(s, st).calls| ==> ApplyConn(s, st).calls[c].number == 0
  {
  }

  // How many steps a refused call still has to take.
  function StepsLeft(p: Place): nat {
    match p
    case Wanting => 5
    case Locked => 4
    case Refusing => 3
    case Leaving => 2
    case Selecting => 1
    case _ => 0
  }

  // A step of the goroutine of call `c`.
  predicate OfGoroutine(st: Step, c: nat) {
    st.OfCall? && !st.call.Begin? && st.call.c == c
  }

  lemma RefusedCallStep(s: State, st: CallStep, c: nat)
    requires Inv(s) && CanCall(s, st) && Barred(s) && c < |s.calls| && s.calls[c].number == 0
    ensures c < |ApplyCall(s, st).calls|
    ensures var p := s.calls[c].place;
            var q := ApplyCall(s, st).calls[c].place;
            if OfGoroutine(OfCall(st), c) then StepsLeft(q) < StepsLeft(p) else q == p
  {
    hide WritesOk, OutcomeOk, ReaderOk, LockOk, DutyOk;
    assert CallOk(s, c);
    if st.FailWrite? { assert CallOk(s, st.c); }
  }

  // A call that is refused returns at once: it takes at most five more steps, each its
  // own, and nobody else's step moves it back.
  lemma RefusedCallReturns(s: State, st: Step, c: nat)
    requires Reachable(s) && Enabled(s, st) && Barred(s) && c < |s.calls| && s.calls[c].number == 0
    ensures var t := Apply(s, st);
            && Barred(t) && c < |t.calls| && t.calls[c].number == 0
            && if OfGoroutine(st, c) then StepsLeft(t.calls[c].place) < StepsLeft(s.calls[c].place)
               else t.calls[c].place == s.calls[c].place
  {
    hide Reachable, Inv;
    Always(s);
    FrozenStep(s, st, c);
    match st
    case OfCall(cs) => RefusedCallStep(s, cs, c);
    case OfConn(cs) => ConnLeavesPlaces(s, cs, c);
  }

  lemma ConnLeavesPlaces(s: State, st: ConnStep, c: nat)
    requires CanConn(s, st) && c < |s.calls|
    ensures c < |ApplyConn(s, st).calls| && ApplyConn(s, st).calls[c].place == s.calls[c].place
    ensures ApplyConn(s, st).calls[c].withdrawn == s.calls[c].withdrawn
  {
  }

  // And until it has returned it can take its next step, unless it waits for reqMutex.
  lemma RefusedCallGoesOn(s: State, c: nat)
    requires Reachable(s) && Barred(s) && c < |s.calls| && s.calls[c].number == 0
    requires var p := s.calls[c].place; !p.Returned? && !p.Replied? && !p.GaveUp?
    ensures StepsLeft(s.calls[c].place) > 0
    ensures exists st: Step :: OfGoroutine(st, c) && !st.call.Withdraw? && (Enabled(s, st) || (st == OfCall(Lock(c)) && s.req != Free))
  {
    Always(s);
    assert CallOk(s, c);
    var st := OfCall(match s.calls[c].place
                     case Wanting => Lock(c)
                     case Locked => Enroll(c)
                     case Refusing => Refuse(c)
                     case Leaving => Unlock(c)
                     case _ => Receive(c));
    assert OfGoroutine(st, c) && (Enabled(s, st) || (st == OfCall(Lock(c)) && s.req != Free));
  }

  // After the reader has left the termination section, every goroutine that is still in
  // `Call` has its signal available, so a handler that called back over this connection
  // is never left waiting for it.
  lemma NestedCallersReleased(s: State, c: nat)
    requires Reachable(s) && s.reader.Ended? && At(s, c, Selecting)
    ensures Enabled(s, OfCall(Receive(c)))
  {
    Always(s);
    assert CallOk(s, c);
  }

  // A step its holder can take when it has one of the two mutexes.
  ghost function HolderStep(s: State): Step
    requires s.req.BySender? ==> s.req.call < |s.calls|
  {
    if s.req.BySender? then OfCall(SenderStep(s, s.req.call))
    else OfConn(if s.reader.Holding? then StopBegin
                else if s.reader.Draining? && s.reader.todo != {} then StopFail(Pick(s.reader.todo))
                else StopEnd)
  }

  ghost function SenderStep(s: State, c: nat): CallStep
    requires c < |s.calls|
  {
    match s.calls[c].place
    case Locked => Enroll(c)
    case Refusing => Refuse(c)
    case Writing => Write(c, Attempt(true, None))
    case Broken(_) => Reclaim(c)
    case Failing(_, _) => FailWrite(c)
    case _ => Unlock(c)
  }

  ghost function Pick(todo: set<nat>): (n: nat)
    requires todo != {}
    ensures n in todo
  {
    var n :| n in todo; n
  }

  // Whoever holds reqMutex can go on without any other lock being released first, and
  // mutex is kept across steps only by the termination section. (A response writer that
  // holds the shared mutex is inside its own WriteResponse.)
  lemma HoldersGoOn(s: State)
    requires Reachable(s) && (s.req.BySender? || s.req == ByReader)
    ensures s.req.BySender? ==> s.req.call < |s.calls|
    ensures Enabled(s, HolderStep(s))
    ensures !MutexFree(s) ==> s.req == ByReader
  {
    Always(s);
    if s.req.BySender? {
      assert CallOk(s, s.req.call);
    }
  }

  // The signals that are ever put into the channel of one `Call`: its own and its notice's.
  function Deposits(s: State, c: nat): nat
    requires c < |s.calls|
    requires s.calls[c].notice.Some? ==> s.calls[c].notice.value < |s.calls|
  {
    s.calls[c].signals + (if s.calls[c].notice.Some? then s.calls[s.calls[c].notice.value].signals else 0)
  }

  // Room for two signals suffices for a `Call`, and only one comes while it waits.
  lemma TwoSlotsSuffice(s: State, c: nat)
    requires Reachable(s) && c < |s.calls| && s.calls[c].kind == Sync
    ensures s.calls[c].notice.Some? ==>
              s.calls[c].notice.value < |s.calls| && s.calls[s.calls[c].notice.value].kind == Notice(c)
    ensures Deposits(s, c) <= 2
    ensures At(s, c, Selecting) ==> Deposits(s, c) <= 1
    ensures forall d: nat :: d < |s.calls| && s.calls[d].kind == Notice(c) ==> s.calls[c].notice == Some(d)
  {
    Always(s);
    assert CallOk(s, c);
    if s.calls[c].notice.Some? {
      assert CallOk(s, s.calls[c].notice.value);
    }
    forall d: nat | d < |s.calls| && s.calls[d].kind == Notice(c) ensures s.calls[c].notice == Some(d) {
      assert CallOk(s, d);
    }
  }

  // A second signal comes only when the termination section failed the call before its
  // Call withdrew it.
  lemma SecondSignalAfterStop(s: State, c: nat)
    requires Reachable(s) && c < |s.calls| && s.calls[c].kind == Sync
    requires s.calls[c].notice.Some? ==> s.calls[c].notice.value < |s.calls|
    requires Deposits(s, c) == 2
    ensures s.reader.Ended? && s.calls[c].withdrawn && s.calls[c].signals == 1
  {
    Always(s);
    assert CallOk(s, c);
    if s.calls[c].notice.Some? {
      assert CallOk(s, s.calls[c].notice.value);
    }
  }

  lemma GaveUpStep(s: State, st: Step, c: nat)
    requires Enabled(s, st) && c < |s.calls| && s.calls[c].place == GaveUp
    ensures c < |Apply(s, st).calls| && Apply(s, st).calls[c].place == GaveUp
    ensures Apply(s, st).calls[c].withdrawn == s.calls[c].withdrawn
  {
    hide ApplyCall, ApplyConn;
    match st
    case OfCall(cs) => GaveUpCallStep(s, cs, c);
    case OfConn(cs) => ConnLeavesPlaces(s, cs, c);
  }

  lemma GaveUpCallStep(s: State, st: CallStep, c: nat)
    requires CanCall(s, st) && c < |s.calls| && s.calls[c].place == GaveUp
    ensures c < |ApplyCall(s, st).calls| && ApplyCall(s, st).calls[c].place == GaveUp
    ensures ApplyCall(s, st).calls[c].withdrawn == s.calls[c].withdrawn
  {
  }

  lemma {:induction false} GaveUpForever(s: State, steps: seq<Step>, t: State, c: nat)
    requires Exec(s, steps) == Some(t) && c < |s.calls| && s.calls[c].place == GaveUp
    ensures c < |t.calls| && t.calls[c].withdrawn == s.calls[c].withdrawn
    decreases |steps|
  {
    if steps != [] {
      GaveUpStep(s, steps[0], c);
      GaveUpForever(Apply(s, steps[0]), steps[1..], t, c);
    }
  }

  // So one slot is enough whenever the call has no signal at the moment its Call gives up:
  // no continuation puts two there.
  lemma OneSlotSuffices(s: State, steps: seq<Step>, t: State, c: nat)
    requires Reachable(s) && CanCall(s, Withdraw(c)) && s.calls[c].signals == 0 && s.calls[c].kind == Sync
    requires Exec(Apply(s, OfCall(Withdraw(c))), steps) == Some(t)
    ensures c < |t.calls| && (t.calls[c].notice.Some? ==> t.calls[c].notice.value < |t.calls|)
    ensures Deposits(t, c) <= 1
  {
    hide Reachable, Inv;
    var u := Apply(s, OfCall(Withdraw(c)));
    ReachNext(s, OfCall(Withdraw(c)));
    ReachRun(u, steps, t);
    if u.calls[c].withdrawn {
      NoLateWrite(u, steps, t, c);
    } else {
      GaveUpForever(u, steps, t, c);
    }
    KindStays(u, steps, t, c);
    TwoSlotsSuffice(t, c);
    if Deposits(t, c) == 2 {
      SecondSignalAfterStop(t, c);
    }
  }

  lemma {:induction false} ReachRun(s: State, steps: seq<Step>, t: State)
    requires Reachable(s) && Exec(s, steps) == Some(t)
    ensures Reachable(t)
    decreases |steps|
  {
    hide Reachable;
    if steps != [] {
      ReachNext(s, steps[0]);
      ReachRun(Apply(s, steps[0]), steps[1..], t);
    }
  }

  lemma {:induction false} KindStays(s: State, steps: seq<Step>, t: State, c: nat)
    requires Exec(s, steps) == Some(t) && c < |s.calls|
    ensures c < |t.calls| && t.calls[c].kind == s.calls[c].kind
    decreases |steps|
  {
    hide Enabled, Apply;
    if steps != [] {
      KindStep(s, steps[0], c);
      KindStays(Apply(s, steps[0]), steps[1..], t, c);
    }
  }

  lemma KindStep(s: State, st: Step, c: nat)
    requires Enabled(s, st) && c < |s.calls|
    ensures c < |Apply(s, st).calls| && Apply(s, st).calls[c].kind == s.calls[c].kind
  {
    hide ApplyCall, ApplyConn;
    match st
    case OfCall(cs) => CallKeepsKind(s, cs, c);
    case OfConn(cs) => ConnKeepsKind(s, cs, c);
  }

  lemma CallKeepsKind(s: State, st: CallStep, c: nat)
    requires CanCall(s, st) && c < |s.calls|
    ensures c < |ApplyCall(s, st).calls| && ApplyCall(s, st).calls[c].kind == s.calls[c].kind
  {
  }

  lemma ConnKeepsKind(s: State, st: ConnStep, c: nat)
    requires CanConn(s, st) && c < |s.calls|
    ensures c < |ApplyConn(s, st).calls| && ApplyConn(s, st).calls[c].kind == s.calls[c].kind
  {
  }

  // A Call that withdrew its call has returned only after the Cancel it sent was through
  // with `Go`.
  ghost predicate NoticesDone(s: State) {
    forall c :: 0 <= c < |s.calls| && s.calls[c].place == GaveUp && s.calls[c].withdrawn ==> NoticeDone(s, c)
  }

  ghost predicate NoticeDone(s: State, c: nat)
    requires c < |s.calls|
  {
    s.calls[c].notice.Some? && At(s, s.calls[c].notice.value, Returned)
  }

  // A goroutine that has returned takes no more steps.
  lemma ReturnedStays(s: State, st: CallStep, d: nat)
    requires CanCall(s, st) && At(s, d, Returned)
    ensures At(ApplyCall(s, st), d, Returned)
  {
  }

  // Only the Leave of a withdrawn call makes it one that gave up.
  lemma GivesUpByLeave(s: State, st: CallStep, c: nat)
    requires Inv(s) && CanCall(s, st) && At(ApplyCall(s, st), c, GaveUp) && ApplyCall(s, st).calls[c].withdrawn
    ensures c < |s.calls| && ApplyCall(s, st).calls[c].notice == s.calls[c].notice
    ensures st == Leave(c) || (s.calls[c].place == GaveUp && s.calls[c].withdrawn)
  {
    hide LockOk, WritesOk, ReaderOk, OutcomeOk, DutyOk, SendOk;
    if c < |s.calls| { assert CallOk(s, c); }
  }

  lemma NoticesDoneStep(s: State, st: Step)
    requires Inv(s) && Enabled(s, st) && NoticesDone(s)
    ensures NoticesDone(Apply(s, st))
  {
    hide Inv, ApplyCall, ApplyConn, CanCall, CanConn;
    match st
    case OfConn(cs) => ConnLeavesNotices(s, cs);
    case OfCall(cs) =>
      var t := ApplyCall(s, cs);
      forall c: nat | c < |t.calls| && t.calls[c].place == GaveUp && t.calls[c].withdrawn ensures NoticeDone(t, c) {
        GivesUpByLeave(s, cs, c);
        if cs == Leave(c) { LeavesAfterNotice(s, c); }
        ReturnedStays(s, cs, s.calls[c].notice.value);
      }
  }

  lemma LeavesAfterNotice(s: State, c: nat)
    requires Inv(s) && CanCall(s, Leave(c))
    ensures NoticeDone(s, c)
  {
    assert CallOk(s, c);
  }

  lemma ConnLeavesNotices(s: State, st: ConnStep)
    requires CanConn(s, st) && NoticesDone(s)
    ensures NoticesDone(ApplyConn(s, st))
  {
    var t := ApplyConn(s, st);
    forall c: nat | c < |t.calls| && t.calls[c].place == GaveUp && t.calls[c].withdrawn ensures NoticeDone(t, c) {
      assert s.calls[c].place == GaveUp && s.calls[c].withdrawn && NoticeDone(s, c);
    }
  }

  lemma {:induction false} NoticesDoneRun(s: State, steps: seq<Step>, t: State)
    requires Inv(s) && NoticesDone(s) && Exec(s, steps) == Some(t)
    ensures NoticesDone(t)
    decreases |steps|
  {
    hide Inv, NoticesDone;
    if steps != [] {
      NoticesDoneStep(s, steps[0]);
      StepKeeps(s, steps[0]);
      NoticesDoneRun(Apply(s, steps[0]), steps[1..], t);
    }
  }

  lemma NoticesAlwaysDone(s: State)
    requires Reachable(s)
    ensures NoticesDone(s)
  {
    hide Inv;
    var steps :| Exec(INIT, steps) == Some(s);
    InitReachable();
    Always(INIT);
    NoticesDoneRun(INIT, steps, s);
  }

  // After the termination section a Cancel that is through with `Go` has its signal.
  lemma NoticeSignalled(s: State, c: nat)
    requires Reachable(s) && s.reader.Ended? && At(s, c, GaveUp) && s.calls[c].withdrawn
    ensures s.calls[c].notice.Some? && s.calls[c].notice.value < |s.calls|
    ensures s.calls[s.calls[c].notice.value].signals == 1
  {
    Always(s);
    NoticesAlwaysDone(s);
    assert CallOk(s, c) && NoticeDone(s, c);
    var d := s.calls[c].notice.value;
    assert CallOk(s, d);
    NoLostCall(s, d);
  }

  // What a step keeps of a connection that has ended.
  lemma EndedStays(s: State, st: Step)
    requires Enabled(s, st) && s.reader.Ended?
    ensures Apply(s, st).reader == s.reader
  {
    match st
    case OfCall(cs) =>
    case OfConn(cs) =>
  }

  lemma {:induction false} EndedForever(s: State, steps: seq<Step>, t: State)
    requires s.reader.Ended? && Exec(s, steps) == Some(t)
    ensures t.reader == s.reader
    decreases |steps|
  {
    hide Enabled, Apply;
    if steps != [] {
      EndedStays(s, steps[0]);
      EndedForever(Apply(s, steps[0]), steps[1..], t);
    }
  }

  // A call that is still in the table and has its signal got it from the termination section.
  lemma SignalledInTable(s: State, c: nat)
    requires Reachable(s) && CanCall(s, Withdraw(c)) && InTable(s, c) && s.calls[c].signals == 1
    ensures s.reader.Ended? && Withdrawn(s, c).calls[c].withdrawn
  {
    Always(s);
    assert CallOk(s, c);
  }

  // What the context of a `Call` does when it wins the select: the call is withdrawn and
  // its Cancel is due exactly if it is still in the table; and its seq is never 0 again.
  lemma WithdrawnIfInTable(s: State, c: nat)
    requires Reachable(s) && CanCall(s, Withdraw(c))
    ensures Withdrawn(s, c).calls[c].withdrawn <==> InTable(s, c)
    ensures Withdrawn(s, c).calls[c].place == if InTable(s, c) then Notifying(s.calls[c].number) else GaveUp
    ensures Withdrawn(s, c).calls[c].mark == if s.calls[c].number == 0 then 1 else s.calls[c].number
    ensures s.calls[c].signals <= 1
  {
    Always(s);
    assert CallOk(s, c);
  }

  // Exactly when the second signal comes: a `Call` that gave up finds two signals in its
  // channel if and only if, at the moment its context won the select, the call was still
  // in the table and had its signal already. In all other cases one slot is enough.
  lemma TwoSignalsIff(s: State, steps: seq<Step>, t: State, c: nat)
    requires Reachable(s) && CanCall(s, Withdraw(c)) && s.calls[c].kind == Sync
    requires Exec(Apply(s, OfCall(Withdraw(c))), steps) == Some(t) && At(t, c, GaveUp)
    ensures t.calls[c].notice.Some? ==> t.calls[c].notice.value < |t.calls|
    ensures Deposits(t, c) == 2 <==> InTable(s, c) && s.calls[c].signals == 1
  {
    hide Reachable, Inv, InTable, Exec, NoticesDone;
    var u := Apply(s, OfCall(Withdraw(c)));
    ReachNext(s, OfCall(Withdraw(c)));
    ReachRun(u, steps, t);
    KindStays(u, steps, t, c);
    TwoSlotsSuffice(t, c);
    WithdrawnIfInTable(s, c);
    if InTable(s, c) && s.calls[c].signals == 1 {
      SignalledInTable(s, c);
      NoLateWrite(u, steps, t, c);
      EndedForever(u, steps, t);
      NoticeSignalled(t, c);
    } else if Deposits(t, c) == 2 {
      SecondSignalAfterStop(t, c);
      if s.calls[c].signals == 0 {
        OneSlotSuffices(s, steps, t, c);
      } else {
        GaveUpForever(u, steps, t, c);
      }
    }
  }

  // And a `Call` that returned its reply used one slot.
  lemma AnsweredNeedsOne(s: State, c: nat)
    requires Reachable(s) && c < |s.calls| && s.calls[c].place.Replied?
    ensures s.calls[c].notice == None && Deposits(s, c) == 1
  {
    Always(s);
    assert CallOk(s, c);
  }

  // The error of the calls that a stop fails is decided when the termination section
  // begins, and then stays.
  predicate Stopped(r: Reader) {
    r.Draining? || r.Ended?
  }

  lemma StoppedStep(s: State, st: Step)
    requires Enabled(s, st) && Stopped(s.reader)
    ensures Stopped(Apply(s, st).reader) && Apply(s, st).reader.error == s.reader.error
  {
    match st
    case OfCall(cs) =>
    case OfConn(cs) =>
  }

  lemma {:induction false} StoppedForever(s: State, steps: seq<Step>, t: State)
    requires Stopped(s.reader) && Exec(s, steps) == Some(t)
    ensures Stopped(t.reader) && t.reader.error == s.reader.error
    decreases |steps|
  {
    hide Enabled, Apply;
    if steps != [] {
      StoppedStep(s, steps[0]);
      StoppedForever(Apply(s, steps[0]), steps[1..], t);
    }
  }

  // In every continuation of a termination section the calls it fails get ErrShutdown if
  // and only if the reader stopped at io.EOF and Close had been called by then,
  // ErrUnexpectedEOF if and only if it stopped at io.EOF and it had not, and otherwise the
  // error the reader stopped with.
  lemma StopErrorIff(s: State, steps: seq<Step>, t: State)
    requires Reachable(s) && CanConn(s, StopBegin) && Exec(Apply(s, OfConn(StopBegin)), steps) == Some(t)
    ensures Stopped(t.reader)
    ensures t.reader.error == Shutdown <==> s.reader.cause == Io(Eof) && s.table.closing
    ensures t.reader.error == UnexpectedEof <==> s.reader.cause == Io(Eof) && !s.table.closing
    ensures s.reader.cause != Io(Eof) ==> t.reader.error == s.reader.cause
  {
    Always(s);
    StoppedForever(Apply(s, OfConn(StopBegin)), steps, t);
  }

  // One call went out, was registered as 1 and is waited for.
  function Waiter(): Call {
    NewCall(Sync, Invoke("Arith.Add", 1)).(mark := 1, number := 1, place := Selecting)
  }

  lemma CallGoesOut() returns (s: State)
    ensures Reachable(s)
    ensures s == State(Table(1, map[1 := 0], false, false), [Waiter()], Free, Reading, [0], [Attempt(true, None)], false)
  {
    hide Reachable;
    InitReachable();
    ReachNext(INIT, OfCall(Begin(true, Invoke("Arith.Add", 1))));
    var s1 := Apply(INIT, OfCall(Begin(true, Invoke("Arith.Add", 1))));
    ReachNext(s1, OfCall(Lock(0)));
    var s2 := Apply(s1, OfCall(Lock(0)));
    ReachNext(s2, OfCall(Enroll(0)));
    var s3 := Apply(s2, OfCall(Enroll(0)));
    ReachNext(s3, OfCall(Write(0, Attempt(true, None))));
    var s4 := Apply(s3, OfCall(Write(0, Attempt(true, None))));
    ReachNext(s4, OfCall(Unlock(0)));
    s := Apply(s4, OfCall(Unlock(0)));
  }

  // The connection ends and the termination section fails the call, keeping it in the table.
  lemma StopSignalsIt(s: State) returns (t: State)
    requires Reachable(s)
    requires s == State(Table(1, map[1 := 0], false, false), [Waiter()], Free, Reading, [0], [Attempt(true, None)], false)
    ensures Reachable(t)
    ensures t == State(Table(1, map[1 := 0], false, true),
                       [Waiter().(signals := 1, outcome := Err(UnexpectedEof))],
                       Free, Ended(UnexpectedEof), [0], [Attempt(true, None)], false)
  {
    ReachNext(s, OfConn(GotEnd(Eof)));
    var s1 := Apply(s, OfConn(GotEnd(Eof)));
    ReachNext(s1, OfConn(StopLock));
    var s2 := Apply(s1, OfConn(StopLock));
    ReachNext(s2, OfConn(StopBegin));
    var s3 := Apply(s2, OfConn(StopBegin));
    assert s3.reader.todo == {1};
    ReachNext(s3, OfConn(StopFail(1)));
    var s4 := Apply(s3, OfConn(StopFail(1)));
    assert s4.reader.todo == {};
    ReachNext(s4, OfConn(StopEnd));
    t := Apply(s4, OfConn(StopEnd));
  }

  // The call is withdrawn from the table and its Cancel is about to register.
  lemma CancelAfterStop(s: State) returns (t: State)
    requires Reachable(s)
    requires s == State(Table(1, map[1 := 0], false, true),
                        [Waiter().(signals := 1, outcome := Err(UnexpectedEof))],
                        Free, Ended(UnexpectedEof), [0], [Attempt(true, None)], false)
    ensures Reachable(t) && |t.calls| == 2 && t.table.shutdown && t.reader.Ended? && At(t, 1, Wanting) && t.req == Free
    ensures At(t, 0, Awaiting(1)) && t.calls[0].notice == Some(1) && t.calls[0].signals == 1 && t.calls[1].signals == 0
  {
    hide Reachable;
    ReachNext(s, OfCall(Withdraw(0)));
    var s1 := Apply(s, OfCall(Withdraw(0)));
    ReachNext(s1, OfCall(Notify(0)));
    t := Apply(s1, OfCall(Notify(0)));
  }

  // One slot would not be enough: after the termination section has signalled a call, its
  // Call can still withdraw it from the table, which was not cleared, and the Cancel it
  // sends is refused with a second signal.
  lemma OneSlotIsTooFew()
    ensures exists s :: Reachable(s) && |s.calls| == 2 && At(s, 0, Awaiting(1)) && s.calls[0].notice == Some(1)
                        && Deposits(s, 0) == 2
  {
    hide Reachable;
    var s0 := CallGoesOut();
    var s1 := StopSignalsIt(s0);
    var s2 := CancelAfterStop(s1);
    ReachNext(s2, OfCall(Lock(1)));
    var s3 := Apply(s2, OfCall(Lock(1)));
    ReachNext(s3, OfCall(Enroll(1)));
    var s4 := Apply(s3, OfCall(Enroll(1)));
    ReachNext(s4, OfCall(Refuse(1)));
    var s5 := Apply(s4, OfCall(Refuse(1)));
    assert Deposits(s5, 0) == 2;
  }

  // The late write does happen: a response is read and matched, then the context of its
  // Call fires, which finds nothing in the table and returns.
  lemma LateWriteHappens()
    ensures exists s :: Reachable(s) && |s.calls| == 1 && At(s, 0, GaveUp) && CanStillWriteReply(s, 0)
  {
    hide Reachable, CanStillWriteReply;
    var s0 := CallGoesOut();
    var f := Response(1, "", 3);
    ReachNext(s0, OfConn(GotHeader(f)));
    var s1 := Apply(s0, OfConn(GotHeader(f)));
    ReachNext(s1, OfConn(Match));
    var s2 := Apply(s1, OfConn(Match));
    ReachNext(s2, OfCall(Withdraw(0)));
    var s3 := Apply(s2, OfCall(Withdraw(0)));
    GaveUpReply(s3, 0);
  }
}
