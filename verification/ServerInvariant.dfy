/** The inductive invariant of the server half, and its frame. */
module ServerInvariant {
  import opened Protocol
  import opened ServerMachine

  // The request object is this job's.
  predicate Owns(p: Place) {
    || p.Header? || p.Spawned? || p.Running? || p.Cancelling? || p.Cancelled? || p.Composed? || p.Responding?
    || p.Releasing? || p.Recycling?
  }

  // The reader is still at work on it.
  predicate Readers(r: Job) {
    r.place.Header? || (r.inReader && !r.place.Over?)
  }

  // Counted by the wait group: a goroutine that has not called wg.Done.
  predicate Active(r: Job) {
    !r.place.Header? && !r.inReader && !r.place.Over?
  }

  // Between Start and the deferred Cancel.
  predicate Registered(r: Job) {
    && !r.inReader
    && (r.place.Running? || r.place.Cancelling? || r.place.Cancelled? || r.place.Composed? || r.place.Responding?
        || r.place.Releasing? || r.place.Recycling? || r.place.Deferring?)
  }

  // The response was handed to WriteResponse.
  predicate Past(p: Place) {
    || p.Releasing? || p.Recycling? || p.Deferring? || p.Deferred? || p.Ending? || p.Over?
  }

  function CountActive(jobs: seq<Job>): nat {
    if jobs == [] then 0
    else CountActive(jobs[..|jobs| - 1]) + (if Active(jobs[|jobs| - 1]) then 1 else 0)
  }

  // The job that took the cancel function of `v` out of the table and has to run it.
  predicate Holds(r: Job, v: nat) {
    (r.place.Cancelling? && r.place.victim == Some(v)) || (r.place.Deferred? && r.place.victim == Some(v))
  }

  // Every object has one owner: the free list, the reader, one job, or nobody.
  ghost predicate PoolOk(s: State) {
    && |s.owner| == |s.heap|
    && Distinct(s.free)
    && (forall o :: o in s.free ==> o < |s.heap|)
    && (forall o: nat :: o < |s.heap| ==> (o in s.free <==> s.owner[o] == InList))
    && (s.reader.Armed? ==>
          && s.reader.slot < |s.heap| && s.owner[s.reader.slot] == ByReader
          && s.heap[s.reader.slot] == ZERO)
  }

  ghost predicate ReaderOk(s: State) {
    && (forall k :: 0 <= k < |s.jobs| ==>
          (s.reader == Busy(k) <==> Readers(s.jobs[k])))
    && (s.reader.Busy? ==> s.reader.job < |s.jobs|)
    && (s.sending.Some? ==> s.sending.value < |s.jobs|)
    && s.wg == CountActive(s.jobs)
    && (s.reader.Closed? ==> s.wg == 0)
    && (s.parentCancelled <==> s.reader.Closed?)
  }

  ghost predicate TableOk(s: State) {
    forall n :: n in s.table ==>
      s.table[n] < |s.jobs| && s.jobs[s.table[n]].number == n && s.jobs[s.table[n]].hook == InTable
  }

  ghost predicate FlowOk(s: State, k: nat)
    requires k < |s.jobs|
  {
    var r := s.jobs[k];
    && (Owns(r.place) ==>
          && r.slot < |s.heap| && r.slot < |s.owner| && s.owner[r.slot] == ByJob(k)
          && s.heap[r.slot] == Object(r.number, NameOf(r.payload)))
    && (s.sending == Some(k) <==> r.place.Responding? || r.place.Releasing?)
    && r.attempts == (if Past(r.place) then 1 else 0)
    && (r.inReader ==>
          && !r.started && (r.place.Composed? || Past(r.place) || r.place.Responding?)
          && !r.place.Deferring? && !r.place.Deferred? && !r.place.Ending?)
    && (r.started <==> !r.inReader && !r.place.Header? && !r.place.Spawned?)
    && (r.started ==> r.argument == r.number)
    && (r.answer.Some? <==> r.place.Composed? || r.place.Responding? || Past(r.place))
    && (r.result.Some? <==> r.answer.Some? && !r.inReader)
    && (r.result.Some? ==> r.answer == Some(Reply(r.number, r.result.value)))
    && (r.inReader <==> r.reason.Some?)
    && (r.reason.Some? ==> r.reason.value != "" && r.answer == Some(Response(r.number, r.reason.value, INVALID_REQUEST)))
  }

  // Where the job's cancel function is, and whose function the job itself has to run.
  ghost predicate HookOk(s: State, k: nat)
    requires k < |s.jobs|
  {
    var r := s.jobs[k];
    && (r.started <==> r.hook != NotMade)
    && r.cancels == (if r.hook.Ran? then 1 else 0)
    && (r.hook == InTable ==> r.number in s.table && s.table[r.number] == k && Registered(r))
    && (r.hook.InHand? ==> r.hook.taker < |s.jobs| && Holds(s.jobs[r.hook.taker], k))
    && (r.hook.Ran? ==> r.hook.runner < |s.jobs| && MayCancel(s.jobs[r.hook.runner], r.number))
    && (r.hook.Displaced? ==> r.hook.usurper < |s.jobs| && r.hook.usurper != k && s.jobs[r.hook.usurper].number == r.number)
    && (r.place.Cancelling? || r.place.Cancelled? ==> r.payload.CancelOf?)
    && (r.place.Cancelling? && r.place.victim.Some? ==> HeldBy(s, r.place.victim.value, k, r.payload.target))
    && (r.place.Deferred? && r.place.victim.Some? ==> HeldBy(s, r.place.victim.value, k, r.number))
  }

  // Job `k` took the cancel function of `v` from entry `n`.
  ghost predicate HeldBy(s: State, v: nat, k: nat, n: nat) {
    v < |s.jobs| && s.jobs[v].hook == InHand(k) && s.jobs[v].number == n
  }

  // A Cancel that names `n`, or the deferred Cancel of a request with number `n`.
  predicate MayCancel(r: Job, n: nat) {
    r.payload == CancelOf(n) || (r.number == n && (r.place.Ending? || r.place.Over?))
  }

  ghost predicate Base(s: State) {
    PoolOk(s) && ReaderOk(s) && TableOk(s)
  }

  ghost predicate JobOk(s: State, k: nat)
    requires k < |s.jobs|
  {
    FlowOk(s, k) && HookOk(s, k)
  }

  ghost predicate Inv(s: State) {
    Base(s) && forall k :: 0 <= k < |s.jobs| ==> JobOk(s, k)
  }

  // Between `s` and `t` nothing changed that concerns a job outside `ks`.
  ghost predicate Frame(s: State, t: State, ks: set<nat>) {
    && |s.jobs| <= |t.jobs|
    && (forall d :: 0 <= d < |s.jobs| && d !in ks ==> t.jobs[d] == s.jobs[d])
    && (forall d :: |s.jobs| <= d < |t.jobs| ==> d in ks)
    && (forall k :: k in ks && k < |s.jobs| ==> SameRole(s.jobs[k], t.jobs[k]))
    && |s.heap| <= |t.heap| && |s.owner| <= |t.owner|
    && (forall o: nat :: o < |s.owner| && o < |s.heap| && s.owner[o].ByJob? && s.owner[o].job !in ks ==>
          t.owner[o] == s.owner[o] && t.heap[o] == s.heap[o])
    && (forall d: nat :: d !in ks ==> (s.sending == Some(d) <==> t.sending == Some(d)))
    && (forall d: nat :: d < |s.jobs| && d !in ks ==> SameHook(s, t, d))
  }

  // What other jobs may rely on.
  predicate SameRole(r: Job, q: Job) {
    && q.number == r.number && q.payload == r.payload
    && (r.place.Ending? || r.place.Over? ==> q.place.Ending? || q.place.Over?)
  }

  predicate HasVictim(s: State, r: Job) {
    (r.place.Cancelling? || r.place.Deferred?) && r.place.victim.Some? && r.place.victim.value < |s.jobs|
  }

  ghost predicate SameHook(s: State, t: State, d: nat)
    requires d < |s.jobs|
  {
    var r := s.jobs[d];
    && (r.hook == InTable && r.number in s.table && s.table[r.number] == d ==>
          r.number in t.table && t.table[r.number] == d)
    && (r.hook.InHand? && r.hook.taker < |s.jobs| && r.hook.taker < |t.jobs| && Holds(s.jobs[r.hook.taker], d) ==>
          Holds(t.jobs[r.hook.taker], d))
    && (HasVictim(s, r) && s.jobs[r.place.victim.value].hook == InHand(d) ==>
          r.place.victim.value < |t.jobs| && t.jobs[r.place.victim.value].hook == InHand(d))
  }

  lemma FlowFrame(s: State, t: State, ks: set<nat>, d: nat)
    requires Frame(s, t, ks) && d < |s.jobs| && d !in ks && FlowOk(s, d)
    ensures FlowOk(t, d)
  {
    hide SameHook, SameRole;
  }

  lemma HookFrame(s: State, t: State, ks: set<nat>, d: nat)
    requires Frame(s, t, ks) && d < |s.jobs| && d !in ks && HookOk(s, d)
    ensures HookOk(t, d)
  {
    assert SameHook(s, t, d);
  }

  // A step that concerns the jobs in `ks` keeps the invariant if it does so for them.
  lemma Assemble(s: State, t: State, ks: set<nat>)
    requires Inv(s) && Base(t) && Frame(s, t, ks)
    requires forall k :: k in ks && k < |t.jobs| ==> JobOk(t, k)
    ensures Inv(t)
  {
    hide FlowOk, HookOk, PoolOk, ReaderOk, TableOk, SameHook;
    forall d: nat | d < |t.jobs| && d !in ks ensures JobOk(t, d) {
      assert JobOk(s, d);
      FlowFrame(s, t, ks, d);
      HookFrame(s, t, ks, d);
    }
  }

  lemma {:induction false} CountSame(a: seq<Job>, b: seq<Job>)
    requires |a| == |b| && forall i :: 0 <= i < |a| ==> Active(a[i]) == Active(b[i])
    ensures CountActive(a) == CountActive(b)
    decreases |a|
  {
    if a != [] {
      CountSame(a[..|a| - 1], b[..|b| - 1]);
    }
  }

  // The reader and the wait group see no difference.
  lemma ReaderFrame(s: State, t: State)
    requires ReaderOk(s) && t.reader == s.reader && t.wg == s.wg && t.parentCancelled == s.parentCancelled
    requires |t.jobs| == |s.jobs| && (t.sending.Some? ==> t.sending.value < |t.jobs|)
    requires forall k :: 0 <= k < |s.jobs| ==>
               Active(t.jobs[k]) == Active(s.jobs[k]) && Readers(t.jobs[k]) == Readers(s.jobs[k])
    ensures ReaderOk(t)
  {
    CountSame(s.jobs, t.jobs);
  }

  lemma {:induction false} CountUpdate(jobs: seq<Job>, k: nat, r: Job)
    requires k < |jobs|
    ensures CountActive(jobs[k := r]) + (if Active(jobs[k]) then 1 else 0)
            == CountActive(jobs) + (if Active(r) then 1 else 0)
    decreases |jobs|
  {
    var n := |jobs| - 1;
    var after := jobs[k := r];
    if k < n {
      assert after[..n] == jobs[..n][k := r];
      CountUpdate(jobs[..n], k, r);
    } else {
      assert after[..n] == jobs[..n];
    }
  }

  lemma {:induction false} CountZero(jobs: seq<Job>, k: nat)
    requires CountActive(jobs) == 0 && k < |jobs|
    ensures !Active(jobs[k])
    decreases |jobs|
  {
    var n := |jobs| - 1;
    if k < n {
      CountZero(jobs[..n], k);
    }
  }

  lemma {:induction false} CountPositive(jobs: seq<Job>, k: nat)
    requires k < |jobs| && Active(jobs[k])
    ensures CountActive(jobs) > 0
  {
    if CountActive(jobs) == 0 {
      CountZero(jobs, k);
    }
  }

  lemma {:induction false} CountSome(jobs: seq<Job>) returns (k: nat)
    requires CountActive(jobs) > 0
    ensures k < |jobs| && Active(jobs[k])
    decreases |jobs|
  {
    k := |jobs| - 1;
    if !Active(jobs[k]) {
      k := CountSome(jobs[..k]);
    }
  }
}
