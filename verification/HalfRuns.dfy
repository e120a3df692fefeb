/** Runs of one half of a connection, by any transport: a call goes out and comes back, or is
    given up; a handler starts, answers, or cancels another. */
module HalfRuns {
  import opened Protocol
  import C = ClientMachine
  import S = ServerMachine
  import SI = ServerInvariant
  import LR = LinkResults

  // ---- The client half -------------------------------------------------------------------

  // A `Call` was entered, or the `Go` of a Cancel.
  function Entered(s: C.State, kind: C.Kind, p: Payload): C.State {
    s.(calls := s.calls + [C.NewCall(kind, p)], handmade := s.handmade || (p.CancelOf? && !kind.Notice?))
  }

  // The record of the new call, once it is registered under the next number.
  function Numbered(s: C.State, kind: C.Kind, p: Payload, place: C.Place): C.Call {
    C.NewCall(kind, p).(mark := s.table.last + 1, number := s.table.last + 1, place := place)
  }

  // It was written; a `Call` waits in its select.
  function Waiting(s: C.State, kind: C.Kind, p: Payload): C.State {
    var n := s.table.last + 1;
    Entered(s, kind, p).(table := s.table.(last := n, pending := s.table.pending[n := |s.calls|]),
                         names := s.names + [|s.calls|], writes := s.writes + [C.Attempt(true, None)],
                         calls := s.calls + [Numbered(s, kind, p, if kind == C.Sync then C.Selecting else C.Returned)])
  }

  // It is about to be written.
  function Registered(s: C.State, kind: C.Kind, p: Payload): C.State {
    Waiting(s, kind, p).(req := C.BySender(|s.calls|), writes := s.writes,
                         calls := s.calls + [Numbered(s, kind, p, C.Writing)])
  }

  lemma Registers(s: C.State, kind: C.Kind, p: Payload) returns (t: C.State, u: C.State)
    requires s.req == C.Free && s.reader == C.Reading && !s.table.closing && !s.table.shutdown
    ensures var c := |s.calls|;
            && C.CanCall(Entered(s, kind, p), C.Lock(c)) && t == C.ApplyCall(Entered(s, kind, p), C.Lock(c))
            && C.CanCall(t, C.Enroll(c)) && u == C.ApplyCall(t, C.Enroll(c))
            && C.At(u, c, C.Writing) && u.calls[c].number == s.table.last + 1 && u.calls[c].payload == p
            && u.req == C.BySender(c)
    ensures u == Registered(s, kind, p)
  {
    t := C.ApplyCall(Entered(s, kind, p), C.Lock(|s.calls|));
    u := C.ApplyCall(t, C.Enroll(|s.calls|));
  }

  lemma WritesOut(s: C.State, kind: C.Kind, p: Payload, u: C.State) returns (v: C.State)
    requires u == Registered(s, kind, p) && s.req == C.Free
    ensures var c := |s.calls|;
            && C.CanCall(u, C.Write(c, C.Attempt(true, None))) && v == C.ApplyCall(u, C.Write(c, C.Attempt(true, None)))
            && C.CanCall(v, C.Unlock(c)) && C.ApplyCall(v, C.Unlock(c)) == Waiting(s, kind, p)
  {
    v := C.ApplyCall(u, C.Write(|s.calls|, C.Attempt(true, None)));
    assert C.ApplyCall(v, C.Unlock(|s.calls|)).calls == Waiting(s, kind, p).calls;
  }

  function OutcomeOf(f: Response): Outcome {
    if f.text != "" then Err(Error.Server(f.text)) else Ok(f.body)
  }

  // The call `c` has returned, out of the table; nothing else changed.
  ghost predicate Returned(s: C.State, t: C.State, c: nat, f: Response) {
    && c < |s.calls| == |t.calls| && (forall d :: 0 <= d < |s.calls| && d != c ==> t.calls[d] == s.calls[d])
    && t.calls[c].place == C.Replied(OutcomeOf(f)) && t.calls[c].payload == s.calls[c].payload
    && t.calls[c].number == s.calls[c].number
    && t.table == s.table.(pending := s.table.pending - {f.number}) && t.req == s.req && t.reader == s.reader
  }

  lemma Matches(s: C.State, c: nat, f: Response) returns (s1: C.State, s2: C.State)
    requires s.reader == C.Reading && f.number in s.table.pending && s.table.pending[f.number] == c && C.At(s, c, C.Selecting)
    ensures C.CanConn(s, C.GotHeader(f)) && s1 == C.ApplyConn(s, C.GotHeader(f))
    ensures C.CanConn(s1, C.Match) && s2 == C.ApplyConn(s1, C.Match)
    ensures s2 == s.(reader := C.Decoding(f, Some(c)), table := s.table.(pending := s.table.pending - {f.number}))
  {
    s1 := C.ApplyConn(s, C.GotHeader(f));
    s2 := C.ApplyConn(s1, C.Match);
  }

  lemma Settles(s: C.State, s2: C.State, c: nat, f: Response) returns (s3: C.State, s4: C.State, t: C.State)
    requires s.reader == C.Reading && C.At(s, c, C.Selecting)
    requires s2 == s.(reader := C.Decoding(f, Some(c)), table := s.table.(pending := s.table.pending - {f.number}))
    ensures C.CanConn(s2, C.GotBody(None, None)) && s3 == C.ApplyConn(s2, C.GotBody(None, None))
    ensures C.CanConn(s3, C.Answer) && s4 == C.ApplyConn(s3, C.Answer)
    ensures C.CanCall(s4, C.Receive(c)) && t == C.ApplyCall(s4, C.Receive(c)) && Returned(s, t, c, f)
  {
    s3 := C.ApplyConn(s2, C.GotBody(None, None));
    s4 := C.ApplyConn(s3, C.Answer);
    t := C.ApplyCall(s4, C.Receive(c));
  }

  // The number of an entered call is new, and it is in no table.
  lemma NewNumber(s: C.State, kind: C.Kind, p: Payload)
    requires forall n :: n in s.table.pending ==> n <= s.table.last
    ensures Waiting(s, kind, p).table.pending - {Waiting(s, kind, p).table.last} == s.table.pending
    ensures var t := Waiting(s, kind, p);
            && t.table.last in t.table.pending && t.table.pending[t.table.last] == |s.calls|
            && C.At(t, |s.calls|, if kind == C.Sync then C.Selecting else C.Returned)
            && t.calls[|s.calls|].number == t.table.last == s.table.last + 1
            && t.calls[|s.calls|].payload == p && t.req == s.req && t.reader == s.reader
            && t.table.closing == s.table.closing && t.table.shutdown == s.table.shutdown
            && |t.calls| == |s.calls| + 1 && forall d :: 0 <= d < |s.calls| ==> t.calls[d] == s.calls[d]
  {
  }

  lemma EnteredKeeps(s: C.State, kind: C.Kind, p: Payload)
    ensures Entered(s, kind, p).table == s.table
  {
  }

  lemma ReturnedCall(s: C.State, t: C.State, c: nat, f: Response)
    requires Returned(s, t, c, f)
    ensures c < |s.calls| == |t.calls| && t.calls[c].payload == s.calls[c].payload && t.calls[c].number == s.calls[c].number
    ensures t.calls[c].place == C.Replied(OutcomeOf(f)) && t.req == s.req && t.reader == s.reader
    ensures t.table == s.table.(pending := s.table.pending - {f.number})
    ensures forall d :: 0 <= d < |s.calls| && d != c ==> t.calls[d] == s.calls[d]
  {
  }

  lemma BeginEnters(s: C.State, p: Payload)
    requires Proper(p)
    ensures C.Apply(s, C.OfCall(C.Begin(true, p))) == Entered(s, C.Sync, p)
  {
  }

  // The `Call` finds itself in the table and is about to enter the `Go` of its Cancel.
  function GivenUp(s: C.State, c: nat): C.State
    requires c < |s.calls|
  {
    s.(table := s.table.(pending := s.table.pending - {s.calls[c].number}),
       calls := s.calls[c := s.calls[c].(withdrawn := true, place := C.Awaiting(|s.calls|), notice := Some(|s.calls|))])
  }

  lemma Withdraws(s: C.State, c: nat) returns (s1: C.State)
    requires C.At(s, c, C.Selecting) && s.reader == C.Reading && s.calls[c].number != 0 && s.calls[c].mark == s.calls[c].number
    requires s.calls[c].number in s.table.pending
    ensures C.CanCall(s, C.Withdraw(c)) && s1 == C.ApplyCall(s, C.Withdraw(c))
    ensures C.CanCall(s1, C.Notify(c))
    ensures C.ApplyCall(s1, C.Notify(c)) == Entered(GivenUp(s, c), C.Notice(c), CancelOf(s.calls[c].number))
  {
    s1 := C.ApplyCall(s, C.Withdraw(c));
  }

  lemma GoesAway(s: C.State, c: nat)
    requires c < |s.calls|
    ensures var t := Waiting(GivenUp(s, c), C.Notice(c), CancelOf(s.calls[c].number));
            C.CanCall(t, C.Leave(c)) && C.ApplyCall(t, C.Leave(c)) == t.(calls := t.calls[c := t.calls[c].(place := C.GaveUp)])
  {
  }

  // ---- The server half -------------------------------------------------------------------

  // Of the jobs before `k` nothing changed but where their cancel functions are.
  ghost predicate JobsKept(s: S.State, t: S.State, k: nat) {
    k <= |s.jobs| && k <= |t.jobs| && forall j :: 0 <= j < k ==> t.jobs[j].(hook := s.jobs[j].hook) == s.jobs[j]
  }

  ghost predicate RunsJob(s: S.State, t: S.State, q: Request) {
    && |t.jobs| == |s.jobs| + 1 && JobsKept(s, t, |s.jobs|)
    && t.jobs[|s.jobs|].place == S.Running && t.jobs[|s.jobs|].payload == q.payload && t.jobs[|s.jobs|].number == q.number
    && t.reader == S.Top && t.sending == s.sending && t.table == s.table[q.number := |s.jobs|]
  }

  lemma ReadsHeader(s: S.State, q: Request) returns (s1: S.State, s2: S.State)
    requires SI.Inv(s) && s.reader == S.Top && Proper(q.payload)
    ensures S.CanRead(s, S.Grab) && s1 == S.ApplyRead(s, S.Grab)
    ensures S.CanRead(s1, S.GotRequest(q)) && s2 == S.ApplyRead(s1, S.GotRequest(q))
    ensures s1.reader.Armed? && s1.jobs == s.jobs && s1.sending == s.sending
    ensures s2.reader == S.Busy(|s.jobs|) && |s2.jobs| == |s.jobs| + 1 && s2.jobs[..|s.jobs|] == s.jobs
    ensures s2.jobs[|s.jobs|] == S.NewJob(q, s2.jobs[|s.jobs|].slot) && s2.sending == s.sending && s2.table == s.table
    ensures s2.jobs[|s.jobs|].slot < |s2.heap| && s2.heap[s2.jobs[|s.jobs|].slot].number == q.number
  {
    assert s.free != [] ==> s.free[0] in s.free;
    s1 := S.ApplyRead(s, S.Grab);
    s2 := S.ApplyRead(s1, S.GotRequest(q));
  }

  lemma StartsHandler(s: S.State, s2: S.State, q: Request) returns (s3: S.State, t: S.State)
    requires s2.reader == S.Busy(|s.jobs|) && |s2.jobs| == |s.jobs| + 1 && s2.jobs[..|s.jobs|] == s.jobs
    requires s2.jobs[|s.jobs|] == S.NewJob(q, s2.jobs[|s.jobs|].slot) && s2.sending == s.sending && s2.table == s.table
    requires s2.jobs[|s.jobs|].slot < |s2.heap| && s2.heap[s2.jobs[|s.jobs|].slot].number == q.number
    ensures S.CanRead(s2, S.Accept) && s3 == S.ApplyRead(s2, S.Accept)
    ensures S.CanJob(s3, S.Start(|s.jobs|)) && t == S.ApplyJob(s3, S.Start(|s.jobs|))
    ensures RunsJob(s, t, q)
  {
    s3 := S.ApplyRead(s2, S.Accept);
    t := S.ApplyJob(s3, S.Start(|s.jobs|));
    forall j | 0 <= j < |s.jobs| ensures t.jobs[j].(hook := s.jobs[j].hook) == s.jobs[j] {
      assert s2.jobs[..|s.jobs|][j] == s2.jobs[j];
    }
  }

  ghost predicate Answered(s: S.State, t: S.State, k: nat, r: S.Result) {
    && k < |s.jobs| == |t.jobs| && (forall j :: 0 <= j < |s.jobs| && j != k ==> t.jobs[j] == s.jobs[j])
    && t.jobs[k].payload == s.jobs[k].payload && t.jobs[k].number == s.jobs[k].number && t.jobs[k].result == Some(r)
    && t.reader == s.reader && t.sending == None
  }

  lemma Composes(s: S.State, k: nat, r: S.Result) returns (s1: S.State)
    requires SI.Inv(s) && S.At(s, k, S.Running) && s.jobs[k].payload.Invoke?
    ensures S.CanJob(s, S.Return(k, r)) && s1 == S.ApplyJob(s, S.Return(k, r))
    ensures s1 == s.(jobs := s.jobs[k := s.jobs[k].(result := Some(r), place := S.Composed,
                                                    answer := Some(S.Reply(s.jobs[k].number, r)))])
  {
    assert SI.JobOk(s, k);
    s1 := S.ApplyJob(s, S.Return(k, r));
  }

  lemma Responds(s: S.State, s1: S.State, k: nat, r: S.Result) returns (s2: S.State, s3: S.State, t: S.State)
    requires k < |s.jobs| && s.sending == None
    requires s1 == s.(jobs := s.jobs[k := s.jobs[k].(result := Some(r), place := S.Composed,
                                                     answer := Some(S.Reply(s.jobs[k].number, r)))])
    ensures S.CanJob(s1, S.LockSending(k)) && s2 == S.ApplyJob(s1, S.LockSending(k))
    ensures S.CanJob(s2, S.Respond(k, true)) && s3 == S.ApplyJob(s2, S.Respond(k, true))
    ensures |s2.jobs| == |s.jobs| && s2.jobs[k].answer == Some(S.Reply(s.jobs[k].number, r))
    ensures S.CanJob(s3, S.UnlockSending(k)) && t == S.ApplyJob(s3, S.UnlockSending(k)) && Answered(s, t, k, r)
  {
    s2 := S.ApplyJob(s1, S.LockSending(k));
    s3 := S.ApplyJob(s2, S.Respond(k, true));
    t := S.ApplyJob(s3, S.UnlockSending(k));
  }

  lemma ReturnsRecord(s: S.State) returns (s1: S.State, t: S.State)
    requires SI.Inv(s) && s.reader == S.Top
    ensures S.CanRead(s, S.Grab) && s1 == S.ApplyRead(s, S.Grab)
    ensures S.CanRead(s1, S.GotResponse) && t == S.ApplyRead(s1, S.GotResponse)
    ensures t.jobs == s.jobs && t.reader == S.Top && t.sending == s.sending
  {
    assert s.free != [] ==> s.free[0] in s.free;
    s1 := S.ApplyRead(s, S.Grab);
    t := S.ApplyRead(s1, S.GotResponse);
  }

  lemma RunningJob(s: S.State, t: S.State, q: Request)
    requires RunsJob(s, t, q)
    ensures |t.jobs| == |s.jobs| + 1 && JobsKept(s, t, |s.jobs|) && t.reader == S.Top && t.sending == s.sending
    ensures t.table == s.table[q.number := |s.jobs|]
    ensures S.At(t, |s.jobs|, S.Running) && t.jobs[|s.jobs|].payload == q.payload && t.jobs[|s.jobs|].number == q.number
  {
  }

  lemma AnsweredJob(s: S.State, t: S.State, k: nat, r: S.Result)
    requires Answered(s, t, k, r)
    ensures k < |s.jobs| == |t.jobs| && JobsKept(s, t, k) && t.reader == s.reader && t.sending == None
    ensures t.jobs[k].payload == s.jobs[k].payload && t.jobs[k].number == s.jobs[k].number && t.jobs[k].result == Some(r)
  {
  }

  // The handler's cancel function is in the table, and has not run.
  ghost predicate Cancellable(s: S.State, k: nat) {
    k < |s.jobs| && s.jobs[k].number in s.table && s.table[s.jobs[k].number] == k
  }

  lemma TakesAndStrikes(s: S.State, j: nat, k: nat) returns (s1: S.State, t: S.State)
    requires S.At(s, j, S.Running) && k < |s.jobs| && k != j && s.jobs[j].payload == CancelOf(s.jobs[k].number) && Cancellable(s, k)
    ensures S.CanJob(s, S.Take(j)) && s1 == S.ApplyJob(s, S.Take(j))
    ensures S.CanJob(s1, S.Strike(j)) && t == S.ApplyJob(s1, S.Strike(j))
    ensures |t.jobs| == |s.jobs| && t.jobs[k].cancels == s.jobs[k].cancels + 1 && t.jobs[k].place == s.jobs[k].place
  {
    s1 := S.ApplyJob(s, S.Take(j));
    t := S.ApplyJob(s1, S.Strike(j));
  }

  lemma ReplyNumber(n: nat, r: S.Result)
    ensures S.Reply(n, r).number == n && OutcomeOf(S.Reply(n, r)) == LR.Arrives(r)
  {
  }
}
