/** How a reader's end and a failed write reach the calls: from the step at which the header,
    the body or the write fails, over any continuation, to the error each call gets. */
module ClientStops {
  import opened Protocol
  import opened PendingCalls
  import opened ClientMachine
  import opened ClientInvariant
  import opened ClientSteps
  import opened ClientResults

  // ---- The end of the reader -------------------------------------------------------------

  // The error with which the reader is about to stop.
  function Cause(r: Reader): Option<Error> {
    match r
    case Answering(_, _, stop) => stop
    case Stopping(e) => Some(e)
    case Holding(e) => Some(e)
    case _ => None
  }

  // What a body read does. A body that cannot be read stops the reader: with the codec's
  // own error exactly when the body was the reply of a call that waits for it, and else
  // with "reading error body". The call that waits gets the error text of the response,
  // or the failure to read its reply, or the reply, and only in the last two cases is its
  // reply written to.
  lemma BodyMeans(s: State, fail: Option<IoError>, junk: Option<Value>)
    requires CanConn(s, GotBody(fail, junk))
    ensures var f := s.reader.frame;
            var t := Apply(s, OfConn(GotBody(fail, junk)));
            && Cause(t.reader) == (match fail
                                   case None => None
                                   case Some(e) => Some(if s.reader.waiter.Some? && f.text == "" then Io(e) else BadErrorBody(e)))
            && (s.reader.waiter.None? ==> t.calls == s.calls && (fail.None? ==> t.reader == Reading))
            && (s.reader.waiter.Some? ==>
                  var c := s.reader.waiter.value;
                  && c < |t.calls| && t.reader.Answering? && t.reader.call == c
                  && t.reader.outcome == (if f.text != "" then Err(Server(f.text))
                                          else if fail.Some? then Err(BadBody(fail.value)) else Ok(f.body))
                  && t.calls[c].reply == (if f.text == "" && fail.None? then Some(f.body)
                                          else if f.text == "" && junk.Some? then junk else s.calls[c].reply))
  {
  }

  // The error of the calls that are left, when the reader stopped with `e`: at io.EOF,
  // ErrShutdown or ErrUnexpectedEOF, depending on Close.
  predicate Becomes(e: Error, error: Error, closedBefore: bool, closedAfter: bool) {
    if e == Io(Eof) then
      && (error == Shutdown || error == UnexpectedEof)
      && (closedBefore ==> error == Shutdown) && (error == Shutdown ==> closedAfter)
    else error == e
  }

  lemma CauseStep(s: State, st: Step, e: Error)
    requires Enabled(s, st) && Cause(s.reader) == Some(e)
    ensures var t := Apply(s, st);
            && (s.table.closing ==> t.table.closing)
            && (Cause(t.reader) == Some(e)
                || (Stopped(t.reader) && Becomes(e, t.reader.error, s.table.closing, t.table.closing)))
  {
    match st
    case OfCall(cs) => CallLeavesReader(s, cs);
    case OfConn(cs) =>
  }

  lemma CallLeavesReader(s: State, st: CallStep)
    requires CanCall(s, st)
    ensures ApplyCall(s, st).reader == s.reader && ApplyCall(s, st).table.closing == s.table.closing
  {
  }

  lemma ClosingStays(s: State, st: Step)
    requires Enabled(s, st)
    ensures s.table.closing ==> Apply(s, st).table.closing
  {
    match st
    case OfCall(cs) => CallLeavesReader(s, cs);
    case OfConn(cs) =>
  }

  lemma {:induction false} CauseRun(s: State, steps: seq<Step>, t: State, e: Error)
    requires Exec(s, steps) == Some(t)
    requires Cause(s.reader) == Some(e)
    ensures s.table.closing ==> t.table.closing
    ensures Cause(t.reader) == Some(e)
            || (Stopped(t.reader) && Becomes(e, t.reader.error, s.table.closing, t.table.closing))
    decreases |steps|
  {
    hide Enabled, Apply;
    if steps != [] {
      var s1 := Apply(s, steps[0]);
      CauseStep(s, steps[0], e);
      if Cause(s1.reader) == Some(e) {
        CauseRun(s1, steps[1..], t, e);
      } else {
        StoppedForever(s1, steps[1..], t);
        ClosingForever(s1, steps[1..], t);
      }
    }
  }

  lemma {:induction false} ClosingForever(s: State, steps: seq<Step>, t: State)
    requires Exec(s, steps) == Some(t)
    ensures s.table.closing ==> t.table.closing
    decreases |steps|
  {
    hide Enabled, Apply;
    if steps != [] {
      ClosingStays(s, steps[0]);
      ClosingForever(Apply(s, steps[0]), steps[1..], t);
    }
  }

  // ---- The calls that are left -----------------------------------------------------------

  // Registered, not answered by a response, and not failed by a write: in the table, or
  // withdrawn from it.
  predicate Leftover(s: State, c: nat)
    requires c < |s.calls|
  {
    s.calls[c].number != 0 && (InTable(s, c) || s.calls[c].withdrawn)
  }

  ghost predicate LeftoverOk(s: State, c: nat)
    requires c < |s.calls|
  {
    Leftover(s, c) && s.calls[c].signals == 1 ==> Stopped(s.reader) && s.calls[c].outcome == Err(s.reader.error)
  }

  lemma LeftoverCall(s: State, st: CallStep, c: nat)
    requires Inv(s) && CanCall(s, st) && c < |s.calls| && LeftoverOk(s, c)
    ensures c < |ApplyCall(s, st).calls| && LeftoverOk(ApplyCall(s, st), c)
  {
    hide Inv, LeftoverOk;
    if st.Enroll? || st.Reclaim? || st.FailWrite? || st.Withdraw? {
      LeftoverTable(s, st, c);
    } else {
      LeftoverPlain(s, st, c);
    }
  }

  lemma LeftoverTable(s: State, st: CallStep, c: nat)
    requires Inv(s) && CanCall(s, st) && c < |s.calls| && LeftoverOk(s, c)
    requires st.Enroll? || st.Reclaim? || st.FailWrite? || st.Withdraw?
    ensures c < |ApplyCall(s, st).calls| && LeftoverOk(ApplyCall(s, st), c)
  {
    hide WritesOk, OutcomeOk, LockOk, ReaderOk, KindOk;
    assert CallOk(s, c);
    if st.FailWrite? { assert CallOk(s, st.c); }
  }

  lemma LeftoverPlain(s: State, st: CallStep, c: nat)
    requires Inv(s) && CanCall(s, st) && c < |s.calls| && LeftoverOk(s, c)
    requires !st.Enroll? && !st.Reclaim? && !st.FailWrite? && !st.Withdraw?
    ensures c < |ApplyCall(s, st).calls| && LeftoverOk(ApplyCall(s, st), c)
  {
    hide WritesOk, OutcomeOk, LockOk, ReaderOk, KindOk, DutyOk, NamesOk;
    assert CallOk(s, c);
  }

  lemma LeftoverConn(s: State, st: ConnStep, c: nat)
    requires Inv(s) && CanConn(s, st) && c < |s.calls| && LeftoverOk(s, c)
    ensures c < |ApplyConn(s, st).calls| && LeftoverOk(ApplyConn(s, st), c)
  {
    hide WritesOk, OutcomeOk, KindOk;
    assert CallOk(s, c);
  }

  lemma LeftoverNew(s: State, st: Step, c: nat)
    requires Enabled(s, st) && |s.calls| <= c < |Apply(s, st).calls|
    ensures LeftoverOk(Apply(s, st), c)
  {
    match st
    case OfCall(cs) => LeftoverNewCall(s, cs, c);
    case OfConn(cs) => ConnSameCalls(s, cs);
  }

  lemma LeftoverNewCall(s: State, st: CallStep, c: nat)
    requires CanCall(s, st) && |s.calls| <= c < |ApplyCall(s, st).calls|
    ensures LeftoverOk(ApplyCall(s, st), c)
  {
  }

  lemma ConnSameCalls(s: State, st: ConnStep)
    requires CanConn(s, st)
    ensures |ApplyConn(s, st).calls| == |s.calls|
  {
  }

  lemma {:induction false} LeftoverRun(s: State, steps: seq<Step>, t: State)
    requires Inv(s) && Exec(s, steps) == Some(t)
    requires forall c :: 0 <= c < |s.calls| ==> LeftoverOk(s, c)
    ensures forall c :: 0 <= c < |t.calls| ==> LeftoverOk(t, c)
    decreases |steps|
  {
    hide Inv, LeftoverOk, CanCall, CanConn, ApplyCall, ApplyConn;
    if steps != [] {
      var s1 := Apply(s, steps[0]);
      forall c: nat | c < |s1.calls| ensures LeftoverOk(s1, c) {
        if c >= |s.calls| {
          LeftoverNew(s, steps[0], c);
        } else {
          match steps[0] {
            case OfCall(cs) => LeftoverCall(s, cs, c);
            case OfConn(cs) => LeftoverConn(s, cs, c);
          }
        }
      }
      StepKeeps(s, steps[0]);
      LeftoverRun(s1, steps[1..], t);
    }
  }

  lemma LeftoverAlways(s: State, c: nat)
    requires Reachable(s) && c < |s.calls|
    ensures LeftoverOk(s, c)
  {
    hide Inv;
    var steps :| Exec(INIT, steps) == Some(s);
    InitReachable();
    Always(INIT);
    LeftoverRun(INIT, steps, s);
  }

  // What ends the reader: a header that cannot be read, or a body.
  predicate EndsReader(st: ConnStep) {
    st.GotEnd? || (st.GotBody? && st.fail.Some?)
  }

  // The error it ends with.
  function EndsWith(s: State, st: ConnStep): Error
    requires CanConn(s, st) && EndsReader(st)
  {
    if st.GotEnd? then Io(st.cause)
    else if s.reader.waiter.Some? && s.reader.frame.text == "" then Io(st.fail.value)
    else BadErrorBody(st.fail.value)
  }

  // From the failing header or body to the errors of the calls, over any continuation:
  // every call that is left, in the table or withdrawn from it, and has its signal, has the
  // error the reader stopped with; where that was io.EOF, as when the connection drops
  // inside a reply, it has ErrShutdown or ErrUnexpectedEOF: the former if Close came before
  // the failure, the latter if Close has not come at all.
  lemma EndReachesCalls(s: State, st: ConnStep, steps: seq<Step>, t: State, c: nat)
    requires Reachable(s) && CanConn(s, st) && EndsReader(st) && Exec(Apply(s, OfConn(st)), steps) == Some(t)
    requires c < |t.calls| && Leftover(t, c) && t.calls[c].signals == 1
    ensures t.calls[c].outcome.Err?
    ensures Becomes(EndsWith(s, st), t.calls[c].outcome.error, s.table.closing, t.table.closing)
  {
    hide Reachable, Inv, Leftover;
    var s1 := Apply(s, OfConn(st));
    ReachNext(s, OfConn(st));
    ReachRun(s1, steps, t);
    LeftoverAlways(t, c);
    if st.GotBody? { BodyMeans(s, st.fail, st.junk); }
    CauseRun(s1, steps, t, EndsWith(s, st));
  }

  // And when the termination section is over, every call that is left has its signal,
  // unless it was withdrawn.
  lemma LeftAreFailed(s: State, c: nat)
    requires Reachable(s) && s.reader.Ended? && c < |s.calls| && s.calls[c].number != 0 && InTable(s, c)
    ensures s.calls[c].signals == 1 && s.calls[c].outcome == Err(s.reader.error)
  {
    LeftoverAlways(s, c);
    Always(s);
    assert CallOk(s, c);
  }

  // ---- Close -----------------------------------------------------------------------------

  lemma {:induction false} ClosedRun(s: State, steps: seq<Step>, t: State)
    requires s.table.closing && Exec(s, steps) == Some(t)
    requires Stopped(s.reader) ==> s.reader.error != UnexpectedEof
    requires s.reader.Stopping? || s.reader.Holding? ==> s.reader.cause != UnexpectedEof
    requires s.reader.Answering? ==> s.reader.stop != Some(UnexpectedEof)
    ensures t.table.closing && (Stopped(t.reader) ==> t.reader.error != UnexpectedEof)
    decreases |steps|
  {
    hide CanCall, ApplyCall;
    if steps != [] {
      ClosingStays(s, steps[0]);
      if steps[0].OfCall? { CallLeavesReader(s, steps[0].call); }
      ClosedRun(Apply(s, steps[0]), steps[1..], t);
    }
  }

  // From the step Close on, over any continuation: a call that begins later is never
  // registered, and its signal carries ErrShutdown; and unless the reader had stopped
  // before, no call is ever failed with ErrUnexpectedEOF.
  lemma CloseBars(s: State, steps: seq<Step>, t: State, c: nat)
    requires Reachable(s) && CanConn(s, Close) && Exec(Apply(s, OfConn(Close)), steps) == Some(t)
    ensures t.table.closing
    ensures |s.calls| <= c < |t.calls| ==> t.calls[c].number == 0
    ensures |s.calls| <= c < |t.calls| && t.calls[c].signals == 1 ==> t.calls[c].outcome == Err(Shutdown)
    ensures !Stopped(s.reader) && Stopped(t.reader) ==> t.reader.error != UnexpectedEof
  {
    hide Reachable;
    var u := Apply(s, OfConn(Close));
    ReachNext(s, OfConn(Close));
    if |s.calls| <= c < |t.calls| { LaterCallsRefused(u, steps, t, c); }
    ClosingForever(u, steps, t);
    if !Stopped(s.reader) {
      Always(s);
      ClosedRun(u, steps, t);
    }
  }

  // ---- A failed write --------------------------------------------------------------------

  // The write of call `c` failed with `e`, and this was made known to the caller, or will
  // be by the goroutine in `send`, or the reader has taken the call first.
  ghost predicate Reported(s: State, c: nat, e: IoError)
    requires c < |s.calls|
  {
    var r := s.calls[c];
    && 0 < r.number <= |s.writes| && s.writes[r.number - 1].fail == Some(e)
    && match r.place
    case Broken(cause) => cause == e
    case Failing(found, cause) => found == c && cause == e
    case _ =>
      && !r.place.Wanting? && !r.place.Locked? && !r.place.Writing? && !InTable(s, c) && !r.withdrawn
      && (r.outcome == Err(Io(e)) || InHand(s, c) || r.answer.Some?)
  }

  // The goroutine finds its call gone: the reader has it, or the response settled it.
  lemma ReportedReclaim(s: State, c: nat, e: IoError)
    requires Inv(s) && CanCall(s, Reclaim(c)) && Reported(s, c, e)
    ensures Reported(ApplyCall(s, Reclaim(c)), c, e)
  {
    assert CallOk(s, c);
  }

  lemma ReportedCall(s: State, st: CallStep, c: nat, e: IoError)
    requires Inv(s) && CanCall(s, st) && c < |s.calls| && Reported(s, c, e)
    ensures c < |ApplyCall(s, st).calls| && Reported(ApplyCall(s, st), c, e)
  {
    hide Inv, Reported, InTable;
    if st == Reclaim(c) {
      ReportedReclaim(s, c, e);
    } else if st == FailWrite(c) {
      ReportedFail(s, c, e);
    } else if st.Enroll? || st.Reclaim? || st.FailWrite? || st.Withdraw? {
      ReportedTable(s, st, c, e);
    } else {
      ReportedPlain(s, st, c, e);
    }
  }

  lemma ReportedFail(s: State, c: nat, e: IoError)
    requires Inv(s) && CanCall(s, FailWrite(c)) && Reported(s, c, e)
    ensures Reported(ApplyCall(s, FailWrite(c)), c, e)
  {
    assert CallOk(s, c);
  }

  lemma ReportedPlain(s: State, st: CallStep, c: nat, e: IoError)
    requires Inv(s) && CanCall(s, st) && c < |s.calls| && Reported(s, c, e)
    requires !st.Enroll? && !st.Reclaim? && !st.FailWrite? && !st.Withdraw?
    ensures c < |ApplyCall(s, st).calls| && Reported(ApplyCall(s, st), c, e)
  {
    hide WritesOk, OutcomeOk, LockOk, ReaderOk, KindOk, DutyOk;
    assert CallOk(s, c);
  }

  lemma ReportedTable(s: State, st: CallStep, c: nat, e: IoError)
    requires Inv(s) && CanCall(s, st) && c < |s.calls| && Reported(s, c, e)
    requires st != Reclaim(c) && st != FailWrite(c)
    requires st.Enroll? || st.Reclaim? || st.FailWrite? || st.Withdraw?
    ensures c < |ApplyCall(s, st).calls| && Reported(ApplyCall(s, st), c, e)
  {
    hide OutcomeOk, LockOk, WritesOk, KindOk, ReaderOk, DutyOk;
    assert CallOk(s, c);
    if st.FailWrite? { assert CallOk(s, st.c); }
  }

  lemma ReportedConn(s: State, st: ConnStep, c: nat, e: IoError)
    requires Inv(s) && CanConn(s, st) && c < |s.calls| && Reported(s, c, e)
    ensures c < |ApplyConn(s, st).calls| && Reported(ApplyConn(s, st), c, e)
  {
    if st.Match? || st.GotBody? || st.Answer? {
      ReportedRead(s, st, c, e);
    } else {
      ReportedRest(s, st, c, e);
    }
  }

  lemma ReportedRead(s: State, st: ConnStep, c: nat, e: IoError)
    requires Inv(s) && CanConn(s, st) && c < |s.calls| && Reported(s, c, e) && (st.Match? || st.GotBody? || st.Answer?)
    ensures c < |ApplyConn(s, st).calls| && Reported(ApplyConn(s, st), c, e)
  {
    hide KindOk, LockOk;
    assert CallOk(s, c);
  }

  lemma ReportedRest(s: State, st: ConnStep, c: nat, e: IoError)
    requires Inv(s) && CanConn(s, st) && c < |s.calls| && Reported(s, c, e)
    requires !st.Match? && !st.GotBody? && !st.Answer?
    ensures c < |ApplyConn(s, st).calls| && Reported(ApplyConn(s, st), c, e)
  {
    hide KindOk, OutcomeOk, ReaderOk, WritesOk;
    assert CallOk(s, c);
  }

  lemma {:induction false} ReportedRun(s: State, steps: seq<Step>, t: State, c: nat, e: IoError)
    requires Inv(s) && Exec(s, steps) == Some(t) && c < |s.calls| && Reported(s, c, e)
    ensures c < |t.calls| && Reported(t, c, e)
    decreases |steps|
  {
    hide Inv, Reported, CanCall, CanConn, ApplyCall, ApplyConn;
    if steps != [] {
      match steps[0] {
        case OfCall(cs) => ReportedCall(s, cs, c, e);
        case OfConn(cs) => ReportedConn(s, cs, c, e);
      }
      StepKeeps(s, steps[0]);
      ReportedRun(Apply(s, steps[0]), steps[1..], t, c, e);
    }
  }

  // A call whose WriteRequest failed is not left waiting: once its goroutine is past the
  // failure branch, over any continuation, it is out of the table, and its error is that of
  // the write, unless the reader had taken it before; then the response it got decides.
  lemma FailedWriteIsReported(s: State, c: nat, how: Attempt, steps: seq<Step>, t: State)
    requires Reachable(s) && CanCall(s, Write(c, how)) && how.fail.Some?
    requires Exec(Apply(s, OfCall(Write(c, how))), steps) == Some(t)
    requires c < |t.calls| && !MidWrite(t.calls[c].place)
    ensures !InTable(t, c) && !t.calls[c].withdrawn
    ensures t.calls[c].outcome == Err(Io(how.fail.value)) || InHand(t, c) || t.calls[c].answer.Some?
    ensures t.calls[c].signals == 1 || InHand(t, c)
  {
    hide Reachable;
    var u := Apply(s, OfCall(Write(c, how)));
    Always(s);
    assert CallOk(s, c);
    ReachNext(s, OfCall(Write(c, how)));
    ReachRun(u, steps, t);
    Always(u);
    ReportedRun(u, steps, t, c, how.fail.value);
    Always(t);
    assert CallOk(t, c);
  }
}
