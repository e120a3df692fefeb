/** The inductive invariant of the client half, and what a step that leaves a call alone
    does to the part of the invariant that speaks of it. */
module ClientInvariant {
  import opened Protocol
  import opened ClientMachine

  // Registered under a number that is still in the table.
  predicate InTable(s: State, c: nat)
    requires c < |s.calls|
  {
    s.calls[c].number in s.table.pending
  }

  // The reader took the call out of the table and has not signalled it yet.
  predicate InHand(s: State, c: nat) {
    || (s.reader.Decoding? && s.reader.waiter == Some(c))
    || (s.reader.Answering? && s.reader.call == c)
  }

  // The goroutine in `send` will signal the call itself.
  predicate Own(p: Place) {
    p.Wanting? || p.Locked? || p.Refusing? || p.Recalling? || p.Failing?
  }

  // Holds reqMutex.
  predicate Inside(p: Place) {
    p.Locked? || p.Refusing? || p.Recalling? || p.Writing? || p.Broken? || p.Failing? || p.Leaving?
  }

  // Registered, and WriteRequest or its failure branch is not over.
  predicate MidWrite(p: Place) {
    p.Writing? || p.Broken? || p.Failing?
  }

  predicate InSelect(p: Place) {
    p.Selecting? || p.Notifying? || p.Awaiting? || p.Replied? || p.GaveUp?
  }

  // Numbers 1..last were given out, each to one call; the table agrees with them.
  ghost predicate NamesOk(s: State) {
    && |s.names| == s.table.last
    && (forall i :: 0 <= i < |s.names| ==> s.names[i] < |s.calls| && s.calls[s.names[i]].number == i + 1)
    && (forall n :: n in s.table.pending ==> 1 <= n <= |s.names| && s.table.pending[n] == s.names[n - 1])
  }

  // Who holds which mutex, and what that excludes.
  ghost predicate LockOk(s: State) {
    && (forall c :: 0 <= c < |s.calls| ==> (Inside(s.calls[c].place) <==> s.req == BySender(c)))
    && (s.req.BySender? ==> s.req.call < |s.calls|)
    && (s.req == ByReader <==> s.reader.Holding? || s.reader.Draining?)
    && (s.table.shutdown <==> s.reader.Draining? || s.reader.Ended?)
    && (s.reader.Draining? ==> s.reader.todo <= s.table.pending.Keys)
  }

  // The n-th WriteRequest writes number n.
  ghost predicate WritesOk(s: State) {
    && s.table.last ==
       |s.writes| + (if s.req.BySender? && At(s, s.req.call, Writing) then 1 else 0)
    && (forall i :: 0 <= i < |s.writes| ==> s.writes[i].sent || s.writes[i].fail.Some?)
  }

  ghost predicate SendOk(s: State, c: nat)
    requires c < |s.calls|
  {
    var r := s.calls[c];
    && (if r.number == 0 then r.mark == 0 || (r.mark == 1 && r.place == GaveUp)
        else r.number <= |s.names| && s.names[r.number - 1] == c && r.mark == r.number)
    && !r.place.Recalling?
    && (r.place.Wanting? || r.place.Locked? || r.place.Refusing? ==> r.number == 0 && r.mark == 0)
    && (r.place.Refusing? ==> s.table.shutdown || s.table.closing)
    && (MidWrite(r.place) ==> r.number == s.table.last != 0 && !s.table.shutdown)
    && (r.place.Failing? ==> r.place.found == c)
    && (r.place.Broken? || r.place.Failing? ==>
          |s.writes| == s.table.last && s.writes[s.table.last - 1].fail == Some(r.place.cause))
  }

  ghost predicate KindOk(s: State, c: nat)
    requires c < |s.calls|
  {
    var r := s.calls[c];
    && (if r.kind == Sync then r.place != Returned else !InSelect(r.place))
    && (r.withdrawn ==> r.number != 0 && (r.place.Notifying? || r.place.Awaiting? || r.place == GaveUp))
    && (r.place.Notifying? ==> r.withdrawn && r.place.number == r.number && r.notice == None)
    && (r.place.Awaiting? ==> r.withdrawn && r.notice == Some(r.place.notice))
    && (r.notice.Some? ==> r.withdrawn && NoticeOf(s, c, r.notice.value))
    && (r.kind.Notice? ==> NoticeFor(s, r, c))
    && (r.payload.CancelOf? && !s.handmade ==> r.kind.Notice?)
    && (r.place.Replied? ==> r.signals == 1 && r.outcome == r.place.result)
  }

  ghost predicate NoticeOf(s: State, c: nat, d: nat) {
    d < |s.calls| && s.calls[d].kind == Notice(c)
  }

  // The Cancel `r`, which is call `d`, was issued by a withdrawn call and names its number.
  ghost predicate NoticeFor(s: State, r: Call, d: nat)
    requires r.kind.Notice?
  {
    && r.kind.of < |s.calls| && s.calls[r.kind.of].notice == Some(d)
    && s.calls[r.kind.of].withdrawn && r.payload == CancelOf(s.calls[r.kind.of].number)
  }

  // Exactly one party owes the call its signal, or it was signalled, or withdrawn.
  ghost predicate DutyOk(s: State, c: nat)
    requires c < |s.calls|
  {
    var r := s.calls[c];
    && r.signals <= 1
    && (r.signals == 0 <==> r.outcome == Unsettled)
    && (Own(r.place) || InHand(s, c) ==> r.signals == 0 && !r.withdrawn && !InTable(s, c))
    && !(Own(r.place) && InHand(s, c))
    && (InTable(s, c) ==>
          !r.withdrawn && !r.place.Notifying? && !r.place.Awaiting? && r.place != GaveUp
          && (r.signals == 1 <==> s.table.shutdown && !(s.reader.Draining? && r.number in s.reader.todo)))
    && (!Own(r.place) && !InHand(s, c) && !InTable(s, c) ==> r.signals == 1 || r.withdrawn)
    && (r.withdrawn && r.signals == 1 ==> s.reader.Ended?)
  }

  // Why a call may have outcome `o`: each error names its cause, success its frame.
  ghost predicate Justified(s: State, r: Call, o: Outcome) {
    match o
    case Unsettled => r.answer == None && r.reply == None
    case Ok(v) => r.number != 0 && r.answer == Some(Heard(Response(r.number, "", v), None)) && r.reply == Some(v)
    case Err(Server(t)) =>
      && r.number != 0 && t != "" && r.reply == None
      && r.answer.Some? && r.answer.value.frame.number == r.number && r.answer.value.frame.text == t
    case Err(BadBody(e)) =>
      && r.number != 0 && r.answer.Some? && r.answer.value.frame.number == r.number
      && r.answer.value.frame.text == "" && r.answer.value.fail == Some(e)
    case Err(e) =>
      && r.answer == None && r.reply == None
      && if r.number == 0 then e == Shutdown && (s.table.shutdown || s.table.closing)
         else WriteFailed(s, r.number, e) || StoppedWith(s.reader, e)
  }

  predicate WriteFailed(s: State, n: nat, e: Error) {
    0 < n <= |s.writes| && s.writes[n - 1].fail.Some? && e == Io(s.writes[n - 1].fail.value)
  }

  predicate StoppedWith(r: Reader, e: Error) {
    (r.Draining? || r.Ended?) && r.error == e
  }

  ghost predicate OutcomeOk(s: State, c: nat)
    requires c < |s.calls|
  {
    if s.reader.Answering? && s.reader.call == c
    then s.reader.outcome != Unsettled && Justified(s, s.calls[c], s.reader.outcome)
    else Justified(s, s.calls[c], s.calls[c].outcome)
  }

  ghost predicate CallOk(s: State, c: nat)
    requires c < |s.calls|
  {
    SendOk(s, c) && KindOk(s, c) && DutyOk(s, c) && OutcomeOk(s, c)
  }

  predicate OfCodec(e: Error) {
    e.Io? || e.BadErrorBody?
  }

  // The call the reader holds is the one its frame names.
  ghost predicate ReaderOk(s: State) {
    && (s.reader.Decoding? && s.reader.waiter.Some? ==>
          s.reader.waiter.value < |s.calls|
          && s.calls[s.reader.waiter.value].number == s.reader.frame.number != 0)
    && (s.reader.Answering? ==> s.reader.call < |s.calls| && s.calls[s.reader.call].number != 0)
    && (s.reader.Answering? && s.reader.stop.Some? ==> OfCodec(s.reader.stop.value))
    && (s.reader.Stopping? || s.reader.Holding? ==> OfCodec(s.reader.cause))
    && (s.reader.Draining? || s.reader.Ended? ==>
          && (OfCodec(s.reader.error) || s.reader.error == Shutdown || s.reader.error == UnexpectedEof)
          && s.reader.error != Io(Eof) && (s.reader.error == Shutdown ==> s.table.closing))
  }

  ghost predicate Base(s: State) {
    NamesOk(s) && LockOk(s) && WritesOk(s) && ReaderOk(s)
  }

  ghost predicate Inv(s: State) {
    Base(s) && forall c :: 0 <= c < |s.calls| ==> CallOk(s, c)
  }

  // The causes of errors only accumulate.
  ghost predicate Grown(s: State, t: State) {
    && s.writes <= t.writes
    && (s.table.closing ==> t.table.closing)
    && (s.table.shutdown ==> t.table.shutdown)
    && (s.reader.Draining? || s.reader.Ended? ==>
          (t.reader.Draining? || t.reader.Ended?) && t.reader.error == s.reader.error)
  }

  // Between `s` and `t` nothing changed that concerns a call outside `cs`.
  ghost predicate Frame(s: State, t: State, cs: set<nat>) {
    && Grown(s, t)
    && |s.calls| <= |t.calls|
    && (forall d :: 0 <= d < |s.calls| && d !in cs ==> t.calls[d] == s.calls[d])
    && (forall d :: |s.calls| <= d < |t.calls| ==> d in cs)
    && (forall c :: c in cs && c < |s.calls| ==> SameRole(s.calls[c], t.calls[c]))
    && s.names <= t.names
    && ((t.table.last == s.table.last && |t.writes| == |s.writes|)
        || forall d :: 0 <= d < |s.calls| && d !in cs ==> !MidWrite(s.calls[d].place))
    && t.table.shutdown == s.table.shutdown
    && (s.handmade ==> t.handmade)
    && (forall d :: 0 <= d < |s.calls| && d !in cs ==> InHand(t, d) == InHand(s, d))
    && (s.reader.Answering? && s.reader.call !in cs ==> t.reader == s.reader)
    && (t.reader.Answering? && t.reader.call !in cs ==> t.reader == s.reader)
    && (s.reader.Draining? ==> t.reader.Draining?  || t.reader.Ended?)
    && (s.reader.Ended? ==> t.reader.Ended?)
    && (forall i :: 0 <= i < |s.names| && s.names[i] !in cs ==> SameNumber(s, t, i + 1))
  }

  // What the other end of a Cancel may rely on.
  predicate SameRole(r: Call, q: Call) {
    && q.kind == r.kind
    && (r.number != 0 ==> q.number == r.number)
    && (r.withdrawn ==> q.withdrawn)
    && (r.notice.Some? ==> q.notice == r.notice)
  }

  ghost predicate SameNumber(s: State, t: State, n: nat) {
    && (n in t.table.pending <==> n in s.table.pending)
    && (s.reader.Draining? && n in s.reader.todo <==> t.reader.Draining? && n in t.reader.todo)
  }

  lemma SendFrame(s: State, t: State, cs: set<nat>, d: nat)
    requires Inv(s) && Frame(s, t, cs) && d < |s.calls| && d !in cs && SendOk(s, d)
    ensures SendOk(t, d)
  {
    hide KindOk, DutyOk, OutcomeOk, CallOk;
  }

  lemma KindFrame(s: State, t: State, cs: set<nat>, d: nat)
    requires Inv(s) && Frame(s, t, cs) && d < |s.calls| && d !in cs && KindOk(s, d)
    ensures KindOk(t, d)
  {
    hide DutyOk, OutcomeOk, SendOk, Base;
    if s.calls[d].kind.Notice? {
      assert CallOk(s, s.calls[d].kind.of);
    }
  }

  lemma DutyFrame(s: State, t: State, cs: set<nat>, d: nat)
    requires Inv(s) && Frame(s, t, cs) && d < |s.calls| && d !in cs && SendOk(s, d) && DutyOk(s, d)
    requires NamesOk(t)
    ensures DutyOk(t, d)
  {
    hide KindOk, OutcomeOk, CallOk, ReaderOk, WritesOk, LockOk;
  }

  lemma OutcomeFrame(s: State, t: State, cs: set<nat>, d: nat)
    requires Inv(s) && Frame(s, t, cs) && d < |s.calls| && d !in cs && OutcomeOk(s, d)
    ensures OutcomeOk(t, d)
  {
    hide SendOk, KindOk, DutyOk, CallOk, Base;
  }

  // A step that concerns the calls in `cs` keeps the invariant if it does so for them.
  lemma Assemble(s: State, t: State, cs: set<nat>)
    requires Inv(s) && Base(t) && Frame(s, t, cs)
    requires forall c :: c in cs && c < |t.calls| ==> CallOk(t, c)
    ensures Inv(t)
  {
    hide SendOk, KindOk, DutyOk, OutcomeOk, NamesOk, LockOk, WritesOk, ReaderOk;
    forall d: nat | d < |t.calls| && d !in cs ensures CallOk(t, d) {
      assert CallOk(s, d);
      SendFrame(s, t, cs, d);
      KindFrame(s, t, cs, d);
      DutyFrame(s, t, cs, d);
      OutcomeFrame(s, t, cs, d);
    }
  }
}
