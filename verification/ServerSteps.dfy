/** Every step of the server half keeps the invariant. For a step that concerns the jobs
    in `ks`, one lemma shows that they stay well-formed, another that the pool, the
    table and the wait group do and that no other job is concerned. */
module ServerSteps {
  import opened Protocol
  import opened ServerMachine
  import opened ServerInvariant

  ghost predicate Local(s: State, t: State, ks: set<nat>) {
    Base(t) && Frame(s, t, ks)
  }

  lemma GrabKeeps(s: State)
    requires Inv(s) && CanRead(s, Grab)
    ensures Inv(Grabbed(s))
  {
    hide Inv, JobOk, PoolOk, ReaderOk, TableOk, Frame, Grabbed;
    GrabPool(s);
    GrabRest(s);
    Assemble(s, Grabbed(s), {});
  }

  lemma GrabPool(s: State)
    requires Inv(s) && CanRead(s, Grab)
    ensures PoolOk(Grabbed(s))
  {
    hide JobOk, ReaderOk, TableOk;
    var t := Grabbed(s);
    if s.free != [] {
      assert Distinct(t.free);
      assert forall o :: o in t.free ==> o in s.free;
      forall o: nat | o < |t.heap| ensures o in t.free <==> t.owner[o] == InList {
        assert s.free == [s.free[0]] + t.free;
      }
    }
  }

  lemma GrabRest(s: State)
    requires Inv(s) && CanRead(s, Grab)
    ensures ReaderOk(Grabbed(s)) && TableOk(Grabbed(s)) && Frame(s, Grabbed(s), {})
  {
    hide JobOk;
  }

  lemma GotRequestJob(s: State, q: Request)
    requires Inv(s) && CanRead(s, GotRequest(q))
    ensures JobOk(ApplyRead(s, GotRequest(q)), |s.jobs|)
  {
    hide TableOk;
  }

  lemma GotRequestLocal(s: State, q: Request)
    requires Inv(s) && CanRead(s, GotRequest(q))
    ensures Local(s, ApplyRead(s, GotRequest(q)), {|s.jobs|})
  {
    hide JobOk;
    assert ApplyRead(s, GotRequest(q)).jobs[..|s.jobs|] == s.jobs;
  }

  lemma ReaderIdleKeeps(s: State, st: ReadStep)
    requires Inv(s) && CanRead(s, st) && (st.GotResponse? || st.GotEnd? || st.Quit? || st.Shut?)
    ensures Inv(ApplyRead(s, st))
  {
    hide JobOk;
    Assemble(s, ApplyRead(s, st), {});
  }

  lemma AcceptJob(s: State)
    requires Inv(s) && CanRead(s, Accept)
    ensures JobOk(ApplyRead(s, Accept), s.reader.job)
  {
    assert JobOk(s, s.reader.job);
  }

  lemma AcceptBase(s: State)
    requires Inv(s) && CanRead(s, Accept)
    ensures Base(ApplyRead(s, Accept))
  {
    hide JobOk;
    CountUpdate(s.jobs, s.reader.job, ApplyRead(s, Accept).jobs[s.reader.job]);
    assert !s.jobs[s.reader.job].inReader by { HeadersWait(s, s.reader.job); }
  }

  lemma HeadersWait(s: State, k: nat)
    requires Inv(s) && At(s, k, Header)
    ensures !s.jobs[k].inReader
  {
    assert JobOk(s, k);
  }

  lemma AcceptFrame(s: State)
    requires Inv(s) && CanRead(s, Accept)
    ensures Frame(s, ApplyRead(s, Accept), {s.reader.job})
  {
    hide Base;
    assert JobOk(s, s.reader.job);
  }

  lemma RejectJob(s: State, text: string)
    requires Inv(s) && CanRead(s, Reject(text))
    ensures JobOk(ApplyRead(s, Reject(text)), s.reader.job)
  {
    assert JobOk(s, s.reader.job);
  }

  lemma RejectBase(s: State, text: string)
    requires Inv(s) && CanRead(s, Reject(text))
    ensures Base(ApplyRead(s, Reject(text)))
  {
    hide JobOk;
    CountUpdate(s.jobs, s.reader.job, ApplyRead(s, Reject(text)).jobs[s.reader.job]);
  }

  lemma RejectFrame(s: State, text: string)
    requires Inv(s) && CanRead(s, Reject(text))
    ensures Frame(s, ApplyRead(s, Reject(text)), {s.reader.job})
  {
    hide Base, JobOk;
  }

  lemma StartJobs(s: State, k: nat)
    requires Inv(s) && CanJob(s, Start(k))
    ensures s.heap[s.jobs[k].slot].number == s.jobs[k].number
    ensures JobOk(ApplyJob(s, Start(k)), k)
    ensures s.jobs[k].number in s.table ==> JobOk(ApplyJob(s, Start(k)), s.table[s.jobs[k].number])
  {
    hide Inv, JobOk, ApplyJob;
    StartVictim(s, k);
    StartsItself(s, k);
    if s.jobs[k].number in s.table {
      StartOvertakes(s, k);
    }
  }

  lemma StartsItself(s: State, k: nat)
    requires Inv(s) && CanJob(s, Start(k))
    ensures JobOk(ApplyJob(s, Start(k)), k)
  {
    hide PoolOk, ReaderOk;
    assert JobOk(s, k);
    if s.jobs[k].number in s.table {
      assert JobOk(s, s.table[s.jobs[k].number]);
    }
  }

  lemma StartOvertakes(s: State, k: nat)
    requires Inv(s) && CanJob(s, Start(k)) && s.jobs[k].number in s.table
    ensures JobOk(ApplyJob(s, Start(k)), s.table[s.jobs[k].number])
  {
    hide PoolOk, ReaderOk;
    assert JobOk(s, k);
    assert JobOk(s, s.table[s.jobs[k].number]);
  }

  lemma StartReader(s: State, k: nat)
    requires Inv(s) && CanJob(s, Start(k))
    ensures ReaderOk(ApplyJob(s, Start(k)))
  {
    hide HookOk, PoolOk, TableOk;
    assert JobOk(s, k);
    ReaderFrame(s, ApplyJob(s, Start(k)));
  }

  lemma StartBase(s: State, k: nat)
    requires Inv(s) && CanJob(s, Start(k)) && ReaderOk(ApplyJob(s, Start(k)))
    ensures Base(ApplyJob(s, Start(k)))
  {
    hide ReaderOk;
    assert JobOk(s, k);
    if s.jobs[k].number in s.table {
      assert JobOk(s, s.table[s.jobs[k].number]);
    }
  }

  lemma StartFrame(s: State, k: nat)
    requires Inv(s) && CanJob(s, Start(k))
    ensures Frame(s, ApplyJob(s, Start(k)), {k} + Victims(Victim(s, s.jobs[k].number)))
  {
    hide Base, JobOk;
    StartVictim(s, k);
  }

  lemma StartVictim(s: State, k: nat)
    requires Inv(s) && CanJob(s, Start(k))
    ensures s.heap[s.jobs[k].slot].number == s.jobs[k].number
    ensures var v := Victim(s, s.jobs[k].number);
            v.Some? ==> v.value < |s.jobs| && s.jobs[v.value].hook == InTable
                        && s.jobs[v.value].number == s.jobs[k].number
    ensures s.jobs[k].hook == NotMade && s.sending != Some(k)
  {
    hide PoolOk, ReaderOk;
    assert JobOk(s, k);
    if s.jobs[k].number in s.table {
      assert JobOk(s, s.table[s.jobs[k].number]);
    }
  }

  function Victims(v: Option<nat>): set<nat> {
    if v.Some? then {v.value} else {}
  }

  lemma ReturnJob(s: State, k: nat, result: Result)
    requires Inv(s) && CanJob(s, Return(k, result))
    ensures JobOk(Answered(s, k, result), k)
  {
    assert JobOk(s, k);
  }

  lemma ReturnLocal(s: State, k: nat, result: Result)
    requires Inv(s) && CanJob(s, Return(k, result))
    ensures Local(s, Answered(s, k, result), {k})
  {
    hide HookOk;
    assert JobOk(s, k);
    CountUpdate(s.jobs, k, Answered(s, k, result).jobs[k]);
  }

  // Take and Defer both take the function under `n` out of the table.
  function Taking(s: State, k: nat, n: nat, p: Place): State
    requires k < |s.jobs|
  {
    Hooked(Move(s, k, p), Victim(s, n), InHand(k)).(table := s.table - {n})
  }

  predicate MayTake(s: State, k: nat, n: nat, p: Place) {
    && k < |s.jobs|
    && ((s.jobs[k].place == Running && s.jobs[k].payload == CancelOf(n) && p == Cancelling(Victim(s, n)))
        || (s.jobs[k].place == Deferring && s.jobs[k].argument == n && p == Deferred(Victim(s, n))))
  }

  lemma TakeJob(s: State, k: nat, n: nat, p: Place)
    requires Inv(s) && MayTake(s, k, n, p)
    ensures JobOk(Taking(s, k, n, p), k)
  {
    hide PoolOk, ReaderOk;
    assert JobOk(s, k);
  }

  lemma TakeVictim(s: State, k: nat, n: nat, p: Place)
    requires Inv(s) && MayTake(s, k, n, p) && n in s.table && s.table[n] != k
    ensures JobOk(Taking(s, k, n, p), s.table[n])
  {
    hide PoolOk, ReaderOk;
    assert JobOk(s, s.table[n]);
  }

  lemma TakeReader(s: State, k: nat, n: nat, p: Place)
    requires Inv(s) && MayTake(s, k, n, p)
    ensures ReaderOk(Taking(s, k, n, p))
  {
    hide HookOk, PoolOk, TableOk;
    assert JobOk(s, k);
    ReaderFrame(s, Taking(s, k, n, p));
  }

  lemma TakeBase(s: State, k: nat, n: nat, p: Place)
    requires Inv(s) && MayTake(s, k, n, p) && ReaderOk(Taking(s, k, n, p))
    ensures Base(Taking(s, k, n, p))
  {
    hide ReaderOk;
    assert JobOk(s, k);
    if n in s.table {
      assert JobOk(s, s.table[n]);
    }
  }

  lemma TakeFrame(s: State, k: nat, n: nat, p: Place)
    requires Inv(s) && MayTake(s, k, n, p)
    ensures Frame(s, Taking(s, k, n, p), {k} + Victims(Victim(s, n)))
  {
    hide ReaderOk, PoolOk, JobOk;
  }

  lemma TakeKeeps(s: State, k: nat, n: nat, p: Place)
    requires Inv(s) && MayTake(s, k, n, p)
    ensures Inv(Taking(s, k, n, p))
  {
    hide Inv, Base, JobOk, Frame;
    TakeJob(s, k, n, p);
    if n in s.table && s.table[n] != k {
      TakeVictim(s, k, n, p);
    }
    TakeReader(s, k, n, p);
    TakeBase(s, k, n, p);
    TakeFrame(s, k, n, p);
    Assemble(s, Taking(s, k, n, p), {k} + Victims(Victim(s, n)));
  }

  lemma StrikeJob(s: State, k: nat)
    requires Inv(s) && CanJob(s, Strike(k))
    ensures JobOk(ApplyJob(s, Strike(k)), k)
  {
    hide PoolOk, ReaderOk;
    assert JobOk(s, k);
  }

  lemma StrikeVictim(s: State, k: nat)
    requires Inv(s) && CanJob(s, Strike(k)) && s.jobs[k].place.victim.Some?
    requires s.jobs[k].place.victim != Some(k)
    ensures JobOk(ApplyJob(s, Strike(k)), s.jobs[k].place.victim.value)
  {
    hide PoolOk, ReaderOk;
    assert JobOk(s, k);
    assert JobOk(s, s.jobs[k].place.victim.value);
  }

  lemma StrikeReader(s: State, k: nat)
    requires Inv(s) && CanJob(s, Strike(k))
    ensures ReaderOk(ApplyJob(s, Strike(k)))
  {
    hide HookOk, PoolOk, TableOk;
    assert JobOk(s, k);
    ReaderFrame(s, ApplyJob(s, Strike(k)));
  }

  lemma StrikeBase(s: State, k: nat)
    requires Inv(s) && CanJob(s, Strike(k)) && ReaderOk(ApplyJob(s, Strike(k)))
    ensures Base(ApplyJob(s, Strike(k)))
  {
    hide ReaderOk;
    assert JobOk(s, k);
    if s.jobs[k].place.victim.Some? {
      assert JobOk(s, s.jobs[k].place.victim.value);
    }
  }

  lemma StrikeFrame(s: State, k: nat)
    requires Inv(s) && CanJob(s, Strike(k))
    ensures Frame(s, ApplyJob(s, Strike(k)), {k} + Victims(s.jobs[k].place.victim))
  {
    hide Base, FlowOk, HookOk, SameHook;
    assert JobOk(s, k);
    forall d: nat | d < |s.jobs| && d !in {k} + Victims(s.jobs[k].place.victim)
      ensures SameHook(s, ApplyJob(s, Strike(k)), d)
    {
      StrikeHook(s, k, d);
    }
  }

  lemma StrikeHook(s: State, k: nat, d: nat)
    requires Inv(s) && CanJob(s, Strike(k)) && d < |s.jobs| && d !in {k} + Victims(s.jobs[k].place.victim)
    ensures SameHook(s, ApplyJob(s, Strike(k)), d)
  {
    hide Base, FlowOk;
    assert JobOk(s, k);
    assert JobOk(s, d);
  }

  lemma StrikeKeeps(s: State, k: nat)
    requires Inv(s) && CanJob(s, Strike(k))
    ensures Inv(ApplyJob(s, Strike(k)))
  {
    hide Inv, Base, JobOk, Frame;
    StrikeJob(s, k);
    if s.jobs[k].place.victim.Some? && s.jobs[k].place.victim != Some(k) {
      StrikeVictim(s, k);
    }
    StrikeReader(s, k);
    StrikeBase(s, k);
    StrikeFrame(s, k);
    Assemble(s, ApplyJob(s, Strike(k)), {k} + Victims(s.jobs[k].place.victim));
  }

  lemma SendFlow(s: State, st: JobStep)
    requires Inv(s) && CanJob(s, st) && (st.LockSending? || st.Respond? || st.UnlockSending?)
    ensures FlowOk(ApplyJob(s, st), st.k)
  {
    hide Base, HookOk;
    assert JobOk(s, st.k);
  }

  lemma SendHook(s: State, st: JobStep)
    requires Inv(s) && CanJob(s, st) && (st.LockSending? || st.Respond? || st.UnlockSending?)
    ensures HookOk(ApplyJob(s, st), st.k)
  {
    hide Base, FlowOk;
    assert JobOk(s, st.k);
  }

  lemma SendJob(s: State, st: JobStep)
    requires Inv(s) && CanJob(s, st) && (st.LockSending? || st.Respond? || st.UnlockSending?)
    ensures JobOk(ApplyJob(s, st), st.k)
  {
    hide Inv, FlowOk, HookOk;
    SendFlow(s, st);
    SendHook(s, st);
  }

  lemma SendBase(s: State, st: JobStep)
    requires Inv(s) && CanJob(s, st) && (st.LockSending? || st.Respond? || st.UnlockSending?)
    ensures Base(ApplyJob(s, st))
  {
    hide JobOk, ReaderOk;
    SendReader(s, st);
  }

  lemma SendReader(s: State, st: JobStep)
    requires Inv(s) && CanJob(s, st) && (st.LockSending? || st.Respond? || st.UnlockSending?)
    ensures ReaderOk(ApplyJob(s, st))
  {
    hide JobOk, PoolOk, TableOk;
    ReaderFrame(s, ApplyJob(s, st));
  }

  lemma SendFrame(s: State, st: JobStep)
    requires Inv(s) && CanJob(s, st) && (st.LockSending? || st.Respond? || st.UnlockSending?)
    ensures Frame(s, ApplyJob(s, st), {st.k})
  {
    hide HookOk, Base;
    assert JobOk(s, st.k);
  }

  lemma RecycleJob(s: State, k: nat)
    requires Inv(s) && CanJob(s, Recycle(k))
    ensures JobOk(Recycled(s, k), k)
  {
    assert JobOk(s, k);
  }

  lemma RecycleBase(s: State, k: nat)
    requires Inv(s) && CanJob(s, Recycle(k))
    ensures Base(Recycled(s, k))
  {
    hide Inv, PoolOk, ReaderOk, TableOk;
    RecyclePool(s, k);
    RecycleReader(s, k);
    RecycleTable(s, k);
  }

  lemma RecyclePool(s: State, k: nat)
    requires Inv(s) && CanJob(s, Recycle(k))
    ensures PoolOk(Recycled(s, k))
  {
    hide HookOk, TableOk;
    assert JobOk(s, k);
  }

  lemma RecycleReader(s: State, k: nat)
    requires Inv(s) && CanJob(s, Recycle(k))
    ensures ReaderOk(Recycled(s, k))
  {
    hide HookOk, PoolOk, TableOk;
    assert JobOk(s, k);
    CountUpdate(s.jobs, k, Recycled(s, k).jobs[k]);
  }

  lemma RecycleTable(s: State, k: nat)
    requires Inv(s) && CanJob(s, Recycle(k))
    ensures TableOk(Recycled(s, k))
  {
    hide JobOk, PoolOk, ReaderOk;
  }

  lemma RecycleFrame(s: State, k: nat)
    requires Inv(s) && CanJob(s, Recycle(k))
    ensures Frame(s, Recycled(s, k), {k})
  {
    hide HookOk, Base;
    assert JobOk(s, k);
  }

  lemma DoneJob(s: State, k: nat)
    requires Inv(s) && CanJob(s, Done(k))
    ensures JobOk(ApplyJob(s, Done(k)), k)
  {
    assert JobOk(s, k);
  }

  lemma DoneLocal(s: State, k: nat)
    requires Inv(s) && CanJob(s, Done(k))
    ensures Local(s, ApplyJob(s, Done(k)), {k})
  {
    hide HookOk;
    assert JobOk(s, k);
    CountUpdate(s.jobs, k, ApplyJob(s, Done(k)).jobs[k]);
  }

  lemma JobStepKeeps(s: State, st: JobStep)
    requires Inv(s) && CanJob(s, st)
    ensures Inv(ApplyJob(s, st))
  {
    hide Inv, Base, JobOk, Frame;
    var t := ApplyJob(s, st);
    match st
    case Start(k) =>
      StartJobs(s, k); StartReader(s, k); StartBase(s, k); StartFrame(s, k); Assemble(s, t, {k} + Victims(Victim(s, s.jobs[k].number)));
    case Return(k, result) => ReturnJob(s, k, result); ReturnLocal(s, k, result); Assemble(s, t, {k});
    case Take(k) =>
      var n := s.jobs[k].payload.target;
      TakeKeeps(s, k, n, Cancelling(Victim(s, n)));
    case Strike(k) => StrikeKeeps(s, k);
    case LockSending(k) => SendJob(s, st); SendBase(s, st); SendFrame(s, st); Assemble(s, t, {k});
    case Respond(k, _) => SendJob(s, st); SendBase(s, st); SendFrame(s, st); Assemble(s, t, {k});
    case UnlockSending(k) => SendJob(s, st); SendBase(s, st); SendFrame(s, st); Assemble(s, t, {k});
    case Recycle(k) => RecycleJob(s, k); RecycleBase(s, k); RecycleFrame(s, k); Assemble(s, t, {k});
    case Defer(k) =>
      var n := s.jobs[k].argument;
      TakeKeeps(s, k, n, Deferred(Victim(s, n)));
    case Done(k) => DoneJob(s, k); DoneLocal(s, k); Assemble(s, t, {k});
  }

  lemma StepKeeps(s: State, st: Step)
    requires Inv(s) && Enabled(s, st)
    ensures Inv(Apply(s, st))
  {
    hide Inv, Base, JobOk, Frame;
    match st
    case OfJob(js) => JobStepKeeps(s, js);
    case OfReader(rs) =>
      match rs {
        case Grab => GrabKeeps(s);
        case GotRequest(q) => GotRequestJob(s, q); GotRequestLocal(s, q); Assemble(s, Apply(s, st), {|s.jobs|});
        case Accept => AcceptJob(s); AcceptBase(s); AcceptFrame(s); Assemble(s, Apply(s, st), {s.reader.job});
        case Reject(text) => RejectJob(s, text); RejectBase(s, text); RejectFrame(s, text); Assemble(s, Apply(s, st), {s.reader.job});
        case _ => ReaderIdleKeeps(s, rs);
      }
  }

  lemma {:induction false} RunKeeps(s: State, steps: seq<Step>, t: State)
    requires Inv(s) && Exec(s, steps) == Some(t)
    ensures Inv(t)
    decreases |steps|
  {
    hide Inv;
    if steps != [] {
      StepKeeps(s, steps[0]);
      RunKeeps(Apply(s, steps[0]), steps[1..], t);
    }
  }

  // Every reachable state satisfies the invariant.
  lemma Always(s: State)
    requires Reachable(s)
    ensures Inv(s)
  {
    var steps :| Exec(INIT, steps) == Some(s);
    RunKeeps(INIT, steps, s);
  }

  lemma {:induction false} ExecSnoc(s: State, steps: seq<Step>, t: State, st: Step)
    requires Exec(s, steps) == Some(t) && Enabled(t, st)
    ensures Exec(s, steps + [st]) == Some(Apply(t, st))
    decreases |steps|
  {
    if steps == [] {
      assert ([] + [st])[1..] == [];
      assert Exec(Apply(t, st), []) == Some(Apply(t, st));
    } else {
      ExecSnoc(Apply(s, steps[0]), steps[1..], t, st);
      assert (steps + [st])[1..] == steps[1..] + [st];
    }
  }

  lemma ReachNext(s: State, st: Step)
    requires Reachable(s) && Enabled(s, st)
    ensures Reachable(Apply(s, st))
  {
    var steps :| Exec(INIT, steps) == Some(s);
    ExecSnoc(INIT, steps, s, st);
  }

  lemma InitReachable()
    ensures Reachable(INIT)
  {
    assert Exec(INIT, []) == Some(INIT);
  }
}
