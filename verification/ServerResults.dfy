/** What the server half guarantees in every run. */
module ServerResults {
  import opened Protocol
  import opened ServerMachine
  import opened ServerInvariant
  import opened ServerSteps

  // A request object is used by one party only: jobs that still need their object have
  // different ones, none of them is on the free list or with the reader, and the object
  // still says what the job's own header said, however often objects were recycled.
  lemma ObjectsNotShared(s: State, j: nat, k: nat)
    requires Reachable(s) && k < |s.jobs| && Owns(s.jobs[k].place)
    ensures s.jobs[k].slot < |s.heap| && s.jobs[k].slot !in s.free && s.reader != Armed(s.jobs[k].slot)
    ensures s.heap[s.jobs[k].slot] == Object(s.jobs[k].number, NameOf(s.jobs[k].payload))
    ensures j < |s.jobs| && j != k && Owns(s.jobs[j].place) ==> s.jobs[j].slot != s.jobs[k].slot
  {
    Always(s);
    assert JobOk(s, k);
    if j < |s.jobs| {
      assert JobOk(s, j);
    }
  }

  // getRequest hands out a zeroed object that nobody else has; freeRequest never frees
  // an object twice.
  lemma GrabIsFresh(s: State)
    requires Reachable(s) && Enabled(s, OfReader(Grab))
    ensures var t := Grabbed(s);
            && t.reader.Armed? && t.heap[t.reader.slot] == ZERO && t.reader.slot !in t.free
            && forall k: nat :: k < |t.jobs| && Owns(t.jobs[k].place) ==> t.jobs[k].slot != t.reader.slot
  {
    Always(s);
    GrabKeeps(s);
    var t := Grabbed(s);
    forall k: nat | k < |t.jobs| && Owns(t.jobs[k].place) ensures t.jobs[k].slot != t.reader.slot {
      assert JobOk(t, k);
    }
  }

  lemma NoDoubleFree(s: State, k: nat)
    requires Reachable(s) && CanJob(s, Recycle(k))
    ensures s.jobs[k].slot !in s.free && Distinct(Recycled(s, k).free)
  {
    Always(s);
    assert JobOk(s, k);
    StepKeeps(s, OfJob(Recycle(k)));
  }

  // Each header that was read gets at most one response attempt, with its own number and
  // with what its own method returned, or with the reason why the reader refused it; once
  // the reader closed the codec, exactly one.
  lemma OneResponsePerHeader(s: State, k: nat)
    requires Reachable(s) && k < |s.jobs|
    ensures s.jobs[k].attempts <= 1
    ensures s.reader.Closed? ==> s.jobs[k].attempts == 1 && s.jobs[k].place.Over?
    ensures s.jobs[k].attempts == 1 ==>
              s.jobs[k].answer.Some? && s.jobs[k].answer.value.number == s.jobs[k].number
              && if s.jobs[k].inReader then
                   s.jobs[k].reason.Some? && s.jobs[k].reason.value != ""
                   && s.jobs[k].answer == Some(Response(s.jobs[k].number, s.jobs[k].reason.value, INVALID_REQUEST))
                 else s.jobs[k].result.Some? && s.jobs[k].answer == Some(Reply(s.jobs[k].number, s.jobs[k].result.value))
  {
    Always(s);
    assert JobOk(s, k);
    if s.reader.Closed? {
      CountZero(s.jobs, k);
    }
  }

  // The error of a result, as far as a response can show it.
  function Shown(r: Result): Option<string> {
    if r.error == Some("") then None else r.error
  }

  // What the caller can learn: two results give the same response if and only if they
  // fail with the same text, or both succeed with the same reply. An error with an empty
  // text cannot be told from success, and the reply of a failed method is lost.
  lemma ReplyTellsApart(n: nat, r: Result, q: Result)
    ensures Reply(n, r) == Reply(n, q) <==> Shown(r) == Shown(q) && (Shown(r) == None ==> r.value == q.value)
  {
  }

  lemma EntriesRegistered(s: State)
    requires Inv(s)
    ensures forall n :: n in s.table ==> s.table[n] < |s.jobs| && Registered(s.jobs[s.table[n]])
  {
    forall n | n in s.table ensures s.table[n] < |s.jobs| && Registered(s.jobs[s.table[n]]) {
      assert JobOk(s, s.table[n]);
    }
  }

  ghost predicate AllOver(s: State) {
    forall j: nat :: j < |s.jobs| ==> s.jobs[j].place.Over?
  }

  // The cancel table is empty as soon as all handlers have returned, even when a broken
  // client reused numbers.
  lemma TableDrains(s: State)
    requires Reachable(s) && forall k: nat :: k < |s.jobs| ==> s.jobs[k].place.Ending? || s.jobs[k].place.Over?
    ensures s.table == map[]
  {
    Always(s);
    EntriesRegistered(s);
  }

  // The serving loop waits for every handler: when it closes the codec and cancels the
  // connection's context, all handlers are over.
  lemma DrainedAtClose(s: State)
    requires Reachable(s) && s.parentCancelled
    ensures AllOver(s) && s.table == map[] && s.wg == 0
  {
    Always(s);
    forall k: nat | k < |s.jobs| ensures s.jobs[k].place.Over? {
      OneResponsePerHeader(s, k);
    }
    TableDrains(s);
  }

  // The requests of the connection have different numbers.
  ghost predicate DistinctNumbers(s: State) {
    forall i, j :: 0 <= i < j < |s.jobs| ==> s.jobs[i].number != s.jobs[j].number
  }

  // No cancel function runs twice; when numbers differ, each one runs exactly once by the
  // time all handlers are over, by the deferred Cancel if by no other.
  lemma CancelRunsOnce(s: State, k: nat)
    requires Reachable(s) && k < |s.jobs|
    ensures s.jobs[k].cancels <= 1
    ensures DistinctNumbers(s) && s.jobs[k].started && AllOver(s) ==> s.jobs[k].cancels == 1
  {
    Always(s);
    assert JobOk(s, k);
  }

  // Another request starts under the number of job `k` while the table has `k` there.
  predicate Overtakes(s: State, st: Step, k: nat) {
    && st.OfJob? && st.job.Start? && st.job.k < |s.jobs|
    && s.jobs[st.job.k].number in s.table && s.table[s.jobs[st.job.k].number] == k
  }

  predicate OvertakenDuring(s: State, steps: seq<Step>, k: nat)
    decreases |steps|
  {
    && steps != [] && Enabled(s, steps[0])
    && (Overtakes(s, steps[0], k) || OvertakenDuring(Apply(s, steps[0]), steps[1..], k))
  }

  lemma OvertakerHasSameNumber(s: State, st: Step, k: nat)
    requires Reachable(s) && Enabled(s, st) && Overtakes(s, st, k)
    ensures k < |s.jobs| && k != st.job.k && s.jobs[k].number == s.jobs[st.job.k].number && Registered(s.jobs[k])
  {
    Always(s);
    assert JobOk(s, k);
    assert JobOk(s, st.job.k);
  }

  lemma JobDisplaces(s: State, st: JobStep, k: nat)
    requires Inv(s) && CanJob(s, st) && k < |s.jobs|
    ensures k < |ApplyJob(s, st).jobs|
    ensures ApplyJob(s, st).jobs[k].hook.Displaced? <==> s.jobs[k].hook.Displaced? || Overtakes(s, OfJob(st), k)
  {
    hide PoolOk, ReaderOk, Inv, JobOk;
    if st.Start? {
      StartDisplaces(s, st.k, k);
    } else {
      RestDisplaces(s, st, k);
    }
  }

  lemma StartDisplaces(s: State, j: nat, k: nat)
    requires Inv(s) && CanJob(s, Start(j)) && k < |s.jobs|
    ensures k < |ApplyJob(s, Start(j)).jobs|
    ensures ApplyJob(s, Start(j)).jobs[k].hook.Displaced? <==> s.jobs[k].hook.Displaced? || Overtakes(s, OfJob(Start(j)), k)
  {
    hide PoolOk, ReaderOk;
    assert JobOk(s, k);
    assert JobOk(s, j);
  }

  lemma RestDisplaces(s: State, st: JobStep, k: nat)
    requires Inv(s) && CanJob(s, st) && k < |s.jobs| && !st.Start?
    ensures k < |ApplyJob(s, st).jobs|
    ensures ApplyJob(s, st).jobs[k].hook.Displaced? <==> s.jobs[k].hook.Displaced?
  {
    hide PoolOk, ReaderOk, FlowOk;
    assert JobOk(s, k);
    assert JobOk(s, st.k);
  }

  lemma ReadDisplaces(s: State, st: ReadStep, k: nat)
    requires CanRead(s, st) && k < |ApplyRead(s, st).jobs|
    ensures ApplyRead(s, st).jobs[k].hook.Displaced? <==> k < |s.jobs| && s.jobs[k].hook.Displaced?
  {
  }

  lemma StepDisplaces(s: State, st: Step, k: nat)
    requires Inv(s) && Enabled(s, st) && k < |Apply(s, st).jobs|
    ensures Apply(s, st).jobs[k].hook.Displaced? <==>
              (k < |s.jobs| && s.jobs[k].hook.Displaced?) || Overtakes(s, st, k)
  {
    hide Inv, ApplyJob, ApplyRead;
    match st
    case OfReader(rs) => ReadDisplaces(s, rs, k);
    case OfJob(js) =>
      SameJobs(s, js);
      JobDisplaces(s, js, k);
  }

  lemma SameJobs(s: State, st: JobStep)
    requires CanJob(s, st)
    ensures |ApplyJob(s, st).jobs| == |s.jobs|
  {
  }

  lemma JobsGrow(s: State, st: Step)
    requires Enabled(s, st)
    ensures |s.jobs| <= |Apply(s, st).jobs|
  {
    hide ApplyJob;
    match st
    case OfReader(rs) =>
    case OfJob(js) => SameJobs(s, js);
  }

  lemma TableNamesJobs(s: State, st: Step, k: nat)
    requires Inv(s) && Overtakes(s, st, k)
    ensures k < |s.jobs|
  {
  }

  // The cancel function of `k` was lost exactly if another request overtook it in the run.
  lemma {:induction false} RunDisplaces(s: State, steps: seq<Step>, t: State, k: nat)
    requires Inv(s) && Exec(s, steps) == Some(t)
    ensures (k < |s.jobs| && s.jobs[k].hook.Displaced?) || OvertakenDuring(s, steps, k) <==>
              k < |t.jobs| && t.jobs[k].hook.Displaced?
    decreases |steps|
  {
    hide Inv, Enabled, Apply, Overtakes;
    if steps != [] {
      StepKeeps(s, steps[0]);
      JobsGrow(s, steps[0]);
      if k < |Apply(s, steps[0]).jobs| { StepDisplaces(s, steps[0], k); }
      if Overtakes(s, steps[0], k) { TableNamesJobs(s, steps[0], k); }
      RunDisplaces(Apply(s, steps[0]), steps[1..], t, k);
    }
  }

  // When all handlers are over, the cancel function of each one that started has run
  // exactly once, unless another request with its number started while it was in the
  // table; then it has not run, and never will.
  lemma CancelRunsIff(steps: seq<Step>, s: State, k: nat)
    requires Exec(INIT, steps) == Some(s) && k < |s.jobs| && s.jobs[k].started && AllOver(s)
    ensures s.jobs[k].cancels == if OvertakenDuring(INIT, steps, k) then 0 else 1
  {
    hide OvertakenDuring, Exec;
    assert Reachable(s);
    Always(s);
    InitReachable();
    Always(INIT);
    RunDisplaces(INIT, steps, s, k);
    CancelFate(s, k);
  }

  // At every moment: a lost cancel function has not run; when all is over, others have.
  lemma CancelFate(s: State, k: nat)
    requires Inv(s) && k < |s.jobs|
    ensures s.jobs[k].hook.Displaced? ==> s.jobs[k].cancels == 0
    ensures s.jobs[k].started && AllOver(s) ==> (s.jobs[k].cancels == 1 <==> !s.jobs[k].hook.Displaced?)
  {
    assert JobOk(s, k);
  }

  lemma OvertakenNeverCancelled(s: State, steps: seq<Step>, t: State, k: nat)
    requires Reachable(s) && k < |s.jobs| && s.jobs[k].hook.Displaced? && Exec(s, steps) == Some(t)
    ensures k < |t.jobs| && t.jobs[k].cancels == 0
  {
    hide Inv;
    Always(s);
    RunDisplaces(s, steps, t, k);
    RunKeeps(s, steps, t);
    CancelFate(t, k);
  }

  // Two requests of a broken client: the second starts while the first one runs.
  const FIRST := Request(1, Invoke("Arith.Add", 1))

  function Started(o: nat, place: Place, hook: Hook): Job {
    NewJob(FIRST, o).(place := place, started := true, argument := 1, hook := hook)
  }

  lemma OneStarts() returns (s: State)
    ensures Reachable(s)
    ensures s == State([Object(1, "Arith.Add")], [ByJob(0)], [], Top, [Started(0, Running, InTable)], map[1 := 0], None, 1, false)
  {
    hide Reachable;
    InitReachable();
    ReachNext(INIT, OfReader(Grab));
    var s1 := Apply(INIT, OfReader(Grab));
    ReachNext(s1, OfReader(GotRequest(FIRST)));
    var s2 := Apply(s1, OfReader(GotRequest(FIRST)));
    ReachNext(s2, OfReader(Accept));
    var s3 := Apply(s2, OfReader(Accept));
    ReachNext(s3, OfJob(Start(0)));
    s := Apply(s3, OfJob(Start(0)));
  }

  lemma OvertakingHappens()
    ensures exists s :: Reachable(s) && |s.jobs| == 2 && s.jobs[0].place.Running? && s.jobs[0].hook == Displaced(1)
                        && s.table == map[1 := 1]
  {
    hide Reachable;
    var s0 := OneStarts();
    ReachNext(s0, OfReader(Grab));
    var s1 := Apply(s0, OfReader(Grab));
    ReachNext(s1, OfReader(GotRequest(FIRST)));
    var s2 := Apply(s1, OfReader(GotRequest(FIRST)));
    ReachNext(s2, OfReader(Accept));
    var s3 := Apply(s2, OfReader(Accept));
    ReachNext(s3, OfJob(Start(1)));
    var s4 := Apply(s3, OfJob(Start(1)));
    assert s4.table == map[1 := 1];
  }

  // The context of a job is done.
  predicate ContextDone(s: State, k: nat)
    requires k < |s.jobs|
  {
    s.jobs[k].cancels > 0 || s.parentCancelled
  }

  // With different numbers, the context of a handler that has not returned is done only
  // because a `_goRPC_.Cancel` request on this connection named its number.
  lemma EarlyCancelHasRequest(s: State, k: nat)
    requires Reachable(s) && DistinctNumbers(s) && k < |s.jobs|
    requires ContextDone(s, k) && !(s.jobs[k].place.Ending? || s.jobs[k].place.Over?)
    ensures exists j: nat :: j < |s.jobs| && s.jobs[j].payload == CancelOf(s.jobs[k].number)
  {
    Always(s);
    assert JobOk(s, k);
    if s.parentCancelled {
      DrainedAtClose(s);
    }
  }

  // A Cancel of a number under which nothing is registered changes no other job.
  lemma IdleCancel(s: State, k: nat, j: nat)
    requires CanJob(s, Take(k)) && s.jobs[k].payload.target !in s.table && j < |s.jobs| && j != k
    ensures ApplyJob(s, Take(k)).jobs[j] == s.jobs[j] && ApplyJob(s, Take(k)).table == s.table
  {
  }

  // The mutex `sending` is held by one job, which is writing or about to release it.
  lemma SendingExclusive(s: State, k: nat)
    requires Reachable(s) && k < |s.jobs|
    ensures s.sending == Some(k) <==> s.jobs[k].place.Responding? || s.jobs[k].place.Releasing?
    ensures s.sending == Some(k) ==> CanJob(s, Respond(k, true)) || CanJob(s, UnlockSending(k))
  {
    Always(s);
    assert JobOk(s, k);
  }

  // No goroutine of the server is ever stuck: one that is not over can take its next step,
  // unless it waits for the mutex `sending`.
  lemma JobsGoOn(s: State, k: nat)
    requires Reachable(s) && k < |s.jobs| && !s.jobs[k].place.Over? && !s.jobs[k].place.Header?
    ensures s.jobs[k].place.Composed? || exists st: JobStep :: st.k == k && !st.LockSending? && CanJob(s, st)
  {
    Always(s);
    assert JobOk(s, k);
    if !s.jobs[k].place.Composed? {
      var st := match s.jobs[k].place
                case Spawned => Start(k)
                case Running => if s.jobs[k].payload.Invoke? then Return(k, Result(None, 0)) else Take(k)
                case Cancelling(_) => Strike(k)
                case Cancelled => Return(k, Result(None, 0))
                case Responding => Respond(k, true)
                case Releasing => UnlockSending(k)
                case Recycling => Recycle(k)
                case Deferring => Defer(k)
                case Deferred(_) => Strike(k)
                case _ => Done(k);
      if s.jobs[k].place.Ending? {
        CountPositive(s.jobs, k);
      }
      assert st.k == k && !st.LockSending? && CanJob(s, st);
    }
  }
}
