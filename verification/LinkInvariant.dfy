/** What holds between the two halves of a link in every run. */
module LinkInvariant {
  import opened Protocol
  import opened Link
  import C = ClientMachine
  import CI = ClientInvariant
  import CS = ClientSteps
  import S = ServerMachine
  import SI = ServerInvariant
  import SS = ServerSteps

  // The numbers of the writes whose frame went out: the i-th write is that of number i + 1.
  function Sent(writes: seq<C.Attempt>): seq<nat> {
    if writes == [] then []
    else
      var n := |writes|;
      Sent(writes[..n - 1]) + (if writes[n - 1].sent then [n] else [])
  }

  function NumbersOf(jobs: seq<S.Job>): seq<nat> {
    seq(|jobs|, i requires 0 <= i < |jobs| => jobs[i].number)
  }

  function RequestNumbers(qs: seq<Request>): seq<nat> {
    seq(|qs|, i requires 0 <= i < |qs| => qs[i].number)
  }

  lemma {:induction false} SentIncreasing(writes: seq<C.Attempt>)
    ensures Increasing(Sent(writes))
    ensures forall i :: 0 <= i < |Sent(writes)| ==> 1 <= Sent(writes)[i] <= |writes| && writes[Sent(writes)[i] - 1].sent
    decreases |writes|
  {
    if writes != [] {
      SentIncreasing(writes[..|writes| - 1]);
    }
  }

  lemma {:induction false} SentSnoc(writes: seq<C.Attempt>, w: C.Attempt)
    ensures Sent(writes + [w]) == Sent(writes) + (if w.sent then [|writes| + 1] else [])
  {
    assert (writes + [w])[..|writes|] == writes;
  }

  // First in, first out: what was sent is what was served, then what is under way.
  ghost predicate QueueOk(l: State) {
    Sent(l.client.writes) == NumbersOf(l.server.jobs) + RequestNumbers(l.requests)
  }

  // `p` is what the call registered as `n` asked for.
  ghost predicate Asked(s: C.State, n: nat, p: Payload) {
    1 <= n <= |s.names| && s.names[n - 1] < |s.calls| && s.calls[s.names[n - 1]].payload == p
  }

  ghost predicate PayloadsOk(l: State) {
    && (forall k :: 0 <= k < |l.server.jobs| ==> Asked(l.client, l.server.jobs[k].number, l.server.jobs[k].payload))
    && (forall i :: 0 <= i < |l.requests| ==> Asked(l.client, l.requests[i].number, l.requests[i].payload))
  }

  // The response is the one that job `k` handed to WriteResponse.
  predicate Gave(s: S.State, k: nat, f: Response) {
    k < |s.jobs| && s.jobs[k].number == f.number && s.jobs[k].attempts == 1 && s.jobs[k].answer == Some(f)
  }

  ghost predicate FromJob(s: S.State, f: Response) {
    exists k: nat :: Gave(s, k, f)
  }

  // The reader of the client half holds a response.
  predicate HasFrame(r: C.Reader) {
    r.Matching? || r.Decoding?
  }

  ghost predicate AnswersOk(l: State) {
    && (forall i :: 0 <= i < |l.responses| ==> FromJob(l.server, l.responses[i]))
    && (forall i, j :: 0 <= i < j < |l.responses| ==> l.responses[i].number != l.responses[j].number)
    && (HasFrame(l.client.reader) ==>
          && FromJob(l.server, l.client.reader.frame)
          && forall i :: 0 <= i < |l.responses| ==> l.responses[i].number != l.client.reader.frame.number)
    && (forall c :: 0 <= c < |l.client.calls| && l.client.calls[c].answer.Some? ==>
          FromJob(l.server, l.client.calls[c].answer.value.frame))
  }

  ghost predicate Inv(l: State) {
    && C.Reachable(l.client) && S.Reachable(l.server)
    && QueueOk(l) && PayloadsOk(l) && AnswersOk(l)
  }

  // The requests served so far have different numbers.
  lemma JobsDiffer(l: State)
    requires QueueOk(l)
    ensures forall i, j :: 0 <= i < j < |l.server.jobs| ==> l.server.jobs[i].number < l.server.jobs[j].number
  {
    SentIncreasing(l.client.writes);
    var ns := NumbersOf(l.server.jobs);
    forall i, j | 0 <= i < j < |l.server.jobs| ensures l.server.jobs[i].number < l.server.jobs[j].number {
      assert ns[i] == Sent(l.client.writes)[i] && ns[j] == Sent(l.client.writes)[j];
    }
  }

  // What a step of the client half keeps of what was asked and answered, when it is
  // neither a write nor the reading of a header.
  ghost predicate ClientKeeps(s: C.State, t: C.State) {
    && (forall n, p :: Asked(s, n, p) ==> Asked(t, n, p))
    && (HasFrame(t.reader) ==> HasFrame(s.reader) && t.reader.frame == s.reader.frame)
    && (forall c :: 0 <= c < |t.calls| && t.calls[c].answer.Some? ==>
          || (c < |s.calls| && s.calls[c].answer == t.calls[c].answer)
          || (HasFrame(s.reader) && t.calls[c].answer.value.frame == s.reader.frame))
  }

  lemma ClientCallKeeps(s: C.State, st: C.CallStep)
    requires CI.Inv(s) && C.CanCall(s, st)
    ensures ClientKeeps(s, C.ApplyCall(s, st))
    ensures !st.Write? ==> C.ApplyCall(s, st).writes == s.writes
  {
    hide CI.Inv, Asked;
    CallKeepsAsked(s, st);
    CallKeepsHeard(s, st);
  }

  lemma CallKeepsAsked(s: C.State, st: C.CallStep)
    requires CI.Inv(s) && C.CanCall(s, st)
    ensures forall n, p :: Asked(s, n, p) ==> Asked(C.ApplyCall(s, st), n, p)
  {
    hide CI.CallOk, CI.LockOk, CI.WritesOk, CI.ReaderOk;
  }

  lemma CallKeepsHeard(s: C.State, st: C.CallStep)
    requires C.CanCall(s, st)
    ensures var t := C.ApplyCall(s, st);
            && t.reader == s.reader && (!st.Write? ==> t.writes == s.writes)
            && forall c :: 0 <= c < |t.calls| && t.calls[c].answer.Some? ==>
                 c < |s.calls| && s.calls[c].answer == t.calls[c].answer
  {
  }

  lemma ClientConnKeeps(s: C.State, st: C.ConnStep)
    requires C.CanConn(s, st) && !st.GotHeader?
    ensures ClientKeeps(s, C.ApplyConn(s, st)) && C.ApplyConn(s, st).writes == s.writes
  {
  }

  // What a step of the server half keeps of its jobs, when it reads no request.
  ghost predicate ServerKeeps(s: S.State, t: S.State) {
    && NumbersOf(t.jobs) == NumbersOf(s.jobs)
    && (forall k :: 0 <= k < |s.jobs| ==> t.jobs[k].payload == s.jobs[k].payload)
    && (forall k: nat, f :: Gave(s, k, f) ==> Gave(t, k, f))
  }

  lemma ServerReadKeeps(s: S.State, st: S.ReadStep)
    requires SI.Inv(s) && S.CanRead(s, st) && !st.GotRequest?
    ensures ServerKeeps(s, S.ApplyRead(s, st))
  {
    hide SI.Base, SI.HookOk;
    forall k: nat, f | Gave(s, k, f) ensures Gave(S.ApplyRead(s, st), k, f) {
      assert SI.JobOk(s, k);
    }
  }

  lemma GaveKeeps(s: S.State, st: S.JobStep, k: nat, f: Response)
    requires S.CanJob(s, st) && Gave(s, k, f) && SI.FlowOk(s, k)
    ensures Gave(S.ApplyJob(s, st), k, f)
  {
  }

  lemma JobsSame(s: S.State, st: S.JobStep)
    requires S.CanJob(s, st)
    ensures NumbersOf(S.ApplyJob(s, st).jobs) == NumbersOf(s.jobs)
    ensures forall k :: 0 <= k < |s.jobs| ==> S.ApplyJob(s, st).jobs[k].payload == s.jobs[k].payload
  {
    if st.Start? || st.Take? || st.Defer? || st.Strike? {
      HookingSame(s, st);
    }
  }

  lemma HookingSame(s: S.State, st: S.JobStep)
    requires S.CanJob(s, st) && (st.Start? || st.Take? || st.Defer? || st.Strike?)
    ensures NumbersOf(S.ApplyJob(s, st).jobs) == NumbersOf(s.jobs)
    ensures forall k :: 0 <= k < |s.jobs| ==> S.ApplyJob(s, st).jobs[k].payload == s.jobs[k].payload
  {
    hide NumbersOf, S.Hooked, S.Struck;
    match st {
      case Start(k) =>
        HookedSame(s, S.Victim(s, s.heap[s.jobs[k].slot].number), S.Displaced(k));
      case Take(k) =>
        HookedSame(S.Move(s, k, S.Cancelling(S.Victim(s, s.jobs[k].payload.target))), S.Victim(s, s.jobs[k].payload.target), S.InHand(k));
      case Defer(k) =>
        HookedSame(S.Move(s, k, S.Deferred(S.Victim(s, s.jobs[k].argument))), S.Victim(s, s.jobs[k].argument), S.InHand(k));
      case Strike(k) => StruckSame(s, s.jobs[k].place.victim, k);
    }
    AllSame(s.jobs, S.ApplyJob(s, st).jobs);
  }

  // Where a cancel function is, and whether it has run, is nothing that a request says.
  lemma HookedSame(s: S.State, victim: Option<nat>, h: S.Hook)
    ensures var t := S.Hooked(s, victim, h);
            |t.jobs| == |s.jobs|
            && forall k :: 0 <= k < |s.jobs| ==> t.jobs[k].number == s.jobs[k].number && t.jobs[k].payload == s.jobs[k].payload
  {
  }

  lemma StruckSame(s: S.State, victim: Option<nat>, k: nat)
    requires victim.Some? ==> victim.value < |s.jobs|
    ensures var t := S.Struck(s, victim, k);
            |t.jobs| == |s.jobs|
            && forall k :: 0 <= k < |s.jobs| ==> t.jobs[k].number == s.jobs[k].number && t.jobs[k].payload == s.jobs[k].payload
  {
  }

  lemma AllSame(a: seq<S.Job>, b: seq<S.Job>)
    requires |a| == |b| && forall k :: 0 <= k < |a| ==> a[k].number == b[k].number
    ensures NumbersOf(a) == NumbersOf(b)
  {
  }

  lemma ServerJobKeeps(s: S.State, st: S.JobStep)
    requires SI.Inv(s) && S.CanJob(s, st)
    ensures ServerKeeps(s, S.ApplyJob(s, st))
  {
    hide SI.Base, SI.HookOk, SI.FlowOk;
    JobsSame(s, st);
    forall k: nat, f | Gave(s, k, f) ensures Gave(S.ApplyJob(s, st), k, f) {
      assert SI.JobOk(s, k);
      GaveKeeps(s, st, k, f);
    }
  }

  lemma FromJobKeeps(s: S.State, t: S.State, f: Response)
    requires ServerKeeps(s, t) && FromJob(s, f)
    ensures FromJob(t, f)
  {
    var k: nat :| Gave(s, k, f);
    assert Gave(t, k, f);
  }

  lemma ClientKeepsInv(l: State, st: C.Step)
    requires Inv(l) && Enabled(l, OfClient(st))
    ensures Inv(Apply(l, OfClient(st)))
  {
    hide C.Reachable, S.Reachable, CI.Inv, FromJob, QueueOk;
    CS.Always(l.client);
    CS.ReachNext(l.client, st);
    match st {
      case OfCall(cs) => ClientCallKeeps(l.client, cs);
      case OfConn(cs) => ClientConnKeeps(l.client, cs);
    }
    assert QueueOk(Apply(l, OfClient(st))) by { QueueSame(l, Apply(l, OfClient(st))); }
  }

  lemma QueueSame(l: State, m: State)
    requires QueueOk(l) && m.client.writes == l.client.writes && m.requests == l.requests
    requires NumbersOf(m.server.jobs) == NumbersOf(l.server.jobs)
    ensures QueueOk(m)
  {
  }

  lemma SendKeepsInv(l: State, c: nat, how: C.Attempt)
    requires Inv(l) && Enabled(l, Send(c, how))
    ensures Inv(Apply(l, Send(c, how)))
  {
    hide C.Reachable, S.Reachable, FromJob;
    CS.Always(l.client);
    CS.ReachNext(l.client, C.OfCall(C.Write(c, how)));
    ClientCallKeeps(l.client, C.Write(c, how));
    assert CI.CallOk(l.client, c);
    var m := Apply(l, Send(c, how));
    SentSnoc(l.client.writes, how);
    var r := l.client.calls[c];
    assert r.number == |l.client.writes| + 1;
    if how.sent {
      assert RequestNumbers(m.requests) == RequestNumbers(l.requests) + [r.number];
      assert Asked(l.client, r.number, r.payload);
    }
  }

  lemma HearKeepsInv(l: State)
    requires Inv(l) && Enabled(l, Hear)
    ensures Inv(Apply(l, Hear))
  {
    hide C.Reachable, S.Reachable, FromJob;
    CS.ReachNext(l.client, C.OfConn(C.GotHeader(l.responses[0])));
    var m := Apply(l, Hear);
    assert forall n, p :: Asked(m.client, n, p) == Asked(l.client, n, p);
  }

  lemma ServerKeepsInv(l: State, st: S.Step)
    requires Inv(l) && Enabled(l, OfServer(st))
    ensures Inv(Apply(l, OfServer(st)))
  {
    hide C.Reachable, S.Reachable, SI.Inv;
    SS.Always(l.server);
    SS.ReachNext(l.server, st);
    var m := Apply(l, OfServer(st));
    match st {
      case OfReader(rs) => ServerReadKeeps(l.server, rs);
      case OfJob(js) => ServerJobKeeps(l.server, js);
    }
    QueueSame(l, m);
    JobsKeep(l, m);
  }

  // Server steps that read no request leave payloads and answers as they were.
  lemma JobsKeep(l: State, m: State)
    requires PayloadsOk(l) && AnswersOk(l) && ServerKeeps(l.server, m.server)
    requires m.client == l.client && m.requests == l.requests && m.responses == l.responses
    ensures PayloadsOk(m) && AnswersOk(m)
  {
    hide FromJob;
    forall f | FromJob(l.server, f) ensures FromJob(m.server, f) {
      FromJobKeeps(l.server, m.server, f);
    }
    forall k | 0 <= k < |m.server.jobs| ensures m.server.jobs[k].number == l.server.jobs[k].number {
      assert NumbersOf(m.server.jobs)[k] == NumbersOf(l.server.jobs)[k];
    }
  }

  lemma ServeKeepsInv(l: State)
    requires Inv(l) && Enabled(l, Serve)
    ensures Inv(Apply(l, Serve))
  {
    hide FromJob, C.Reachable, S.Reachable;
    SS.ReachNext(l.server, S.OfReader(S.GotRequest(l.requests[0])));
    var m := Apply(l, Serve);
    assert NumbersOf(m.server.jobs) == NumbersOf(l.server.jobs) + [l.requests[0].number];
    assert RequestNumbers(l.requests) == [l.requests[0].number] + RequestNumbers(m.requests);
    forall f | FromJob(l.server, f) ensures FromJob(m.server, f) {
      OldAnswers(l.server, l.requests[0], f);
    }
  }

  lemma OldAnswers(s: S.State, q: Request, f: Response)
    requires S.CanRead(s, S.GotRequest(q)) && FromJob(s, f)
    ensures FromJob(S.ApplyRead(s, S.GotRequest(q)), f)
  {
    var k: nat :| Gave(s, k, f);
    assert Gave(S.ApplyRead(s, S.GotRequest(q)), k, f);
  }
  lemma Responding(s: S.State, k: nat, sent: bool)
    requires SI.Inv(s) && S.CanJob(s, S.Respond(k, sent))
    ensures s.jobs[k].attempts == 0 && s.jobs[k].answer.Some?
    ensures Gave(S.ApplyJob(s, S.Respond(k, sent)), k, s.jobs[k].answer.value)
  {
    assert SI.JobOk(s, k);
  }

  // The number of a job that has not responded yet is on no response.
  lemma NumberUnused(l: State, k: nat, f: Response)
    requires QueueOk(l) && k < |l.server.jobs| && l.server.jobs[k].attempts == 0 && FromJob(l.server, f)
    ensures f.number != l.server.jobs[k].number
  {
    JobsDiffer(l);
    var j: nat :| Gave(l.server, j, f);
  }

  lemma AppendAnswer(l: State, f: Response)
    requires PayloadsOk(l) && AnswersOk(l) && FromJob(l.server, f)
    requires forall i :: 0 <= i < |l.responses| ==> l.responses[i].number != f.number
    requires HasFrame(l.client.reader) ==> l.client.reader.frame.number != f.number
    ensures PayloadsOk(l.(responses := l.responses + [f])) && AnswersOk(l.(responses := l.responses + [f]))
  {
    hide FromJob;
  }

  lemma RespondKeepsInv(l: State, k: nat, sent: bool)
    requires Inv(l) && Enabled(l, Respond(k, sent))
    ensures Inv(Apply(l, Respond(k, sent)))
  {
    hide C.Reachable, S.Reachable, SI.Inv, ServerKeeps, AnswersOk, PayloadsOk, QueueOk;
    var st := S.Respond(k, sent);
    SS.Always(l.server);
    SS.ReachNext(l.server, S.OfJob(st));
    ServerJobKeeps(l.server, st);
    Responding(l.server, k, sent);
    JobsSame(l.server, st);
    var m := Apply(l, Respond(k, sent));
    QueueSame(l, m);
    var mid := m.(responses := l.responses);
    JobsKeep(l, mid);
    if sent {
      var f := l.server.jobs[k].answer.value;
      assert FromJob(m.server, f);
      forall i | 0 <= i < |l.responses| ensures l.responses[i].number != f.number {
        assert FromJob(l.server, l.responses[i]) by { AnswersFromJobs(l, i); }
        NumberUnused(l, k, l.responses[i]);
      }
      if HasFrame(l.client.reader) {
        assert FromJob(l.server, l.client.reader.frame) by { ReaderFromJob(l); }
        NumberUnused(l, k, l.client.reader.frame);
      }
      AppendAnswer(mid, f);
    }
  }

  lemma ReaderFromJob(l: State)
    requires AnswersOk(l) && HasFrame(l.client.reader)
    ensures FromJob(l.server, l.client.reader.frame)
  {
  }

  lemma AnswersFromJobs(l: State, i: nat)
    requires AnswersOk(l) && i < |l.responses|
    ensures FromJob(l.server, l.responses[i])
  {
  }

  lemma StepKeeps(l: State, st: Step)
    requires Inv(l) && Enabled(l, st)
    ensures Inv(Apply(l, st))
  {
    hide Inv;
    match st
    case OfClient(cl) => ClientKeepsInv(l, cl);
    case Send(c, how) => SendKeepsInv(l, c, how);
    case Hear => HearKeepsInv(l);
    case OfServer(sv) => ServerKeepsInv(l, sv);
    case Serve => ServeKeepsInv(l);
    case Respond(k, sent) => RespondKeepsInv(l, k, sent);
  }

  lemma {:induction false} RunKeeps(l: State, steps: seq<Step>, m: State)
    requires Inv(l) && Exec(l, steps) == Some(m)
    ensures Inv(m)
    decreases |steps|
  {
    hide Inv;
    if steps != [] {
      StepKeeps(l, steps[0]);
      RunKeeps(Apply(l, steps[0]), steps[1..], m);
    }
  }

  // Every reachable link satisfies the invariant; its halves are reachable on their own.
  lemma Always(l: State)
    requires Reachable(l)
    ensures Inv(l)
  {
    var steps :| Exec(INIT, steps) == Some(l);
    CS.InitReachable();
    SS.InitReachable();
    RunKeeps(INIT, steps, l);
  }
}
