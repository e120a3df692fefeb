/** The step machine of the server and the objects agree: the free list, the cancel table
    and a handler from its Start to its deferred Cancel mean the same in both. */
module ObjectsRefine {
  import opened Protocol
  import opened ServerMachine
  import opened ServerInvariant
  import opened ServerSteps
  import opened ServiceCall
  import P = Pool
  import T = CancelTable

  // Grab takes from the free list as FreeList.Get does, and zeroes as it does.
  lemma GrabIsGet(s: State)
    requires Reachable(s) && CanRead(s, Grab)
    ensures var t := Grabbed(s);
            && t.reader.Armed? && t.reader.slot < |t.heap|
            && P.Taken(s.free, t.free, t.reader.slot) && (s.free == [] ==> t.reader.slot == |s.heap|)
            && t.heap[t.reader.slot] == ZERO && t.reader.slot !in t.free
            && forall o :: o in t.free ==> o < |s.heap| && t.heap[o] == s.heap[o]
  {
    Always(s);
    GrabKeeps(s);
    var t := Grabbed(s);
    forall o | o in t.free ensures o < |s.heap| && t.heap[o] == s.heap[o] {
      assert o in s.free && o != t.reader.slot;
    }
  }

  // Recycle, and the reader's return of an unused object, give back as FreeList.Free does.
  lemma RecycleIsFree(s: State, k: nat)
    requires CanJob(s, Recycle(k))
    ensures P.GivenBack(s.free, Recycled(s, k).free, s.jobs[k].slot) && Recycled(s, k).heap == s.heap
  {
  }

  lemma UnusedIsFree(s: State)
    requires CanRead(s, GotResponse)
    ensures P.GivenBack(s.free, ApplyRead(s, GotResponse).free, s.reader.slot)
  {
  }

  // Start, and the two ways to Cancel, change the table as `svc.Pending` does; what a
  // Cancel takes is what the table has under the number.
  lemma TableIsPending(s: State, st: JobStep)
    requires CanJob(s, st)
    ensures st.Start? ==>
              ApplyJob(s, st).table == T.WithStarted(s.table, s.heap[s.jobs[st.k].slot].number, st.k)
    ensures st.Take? ==>
              && ApplyJob(s, st).table == T.WithoutCancelled(s.table, s.jobs[st.k].payload.target)
              && Victim(s, s.jobs[st.k].payload.target)
                 == (if s.jobs[st.k].payload.target in s.table then Some(s.table[s.jobs[st.k].payload.target]) else None)
    ensures st.Defer? ==> ApplyJob(s, st).table == T.WithoutCancelled(s.table, s.jobs[st.k].argument)
    ensures !st.Start? && !st.Take? && !st.Defer? ==> ApplyJob(s, st).table == s.table
  {
  }

  // ---- One handler alone ---------------------------------------------------------------

  lemma {:induction false} ExecConcat(s: State, a: seq<Step>, t: State, b: seq<Step>, u: State)
    requires Exec(s, a) == Some(t) && Exec(t, b) == Some(u)
    ensures Exec(s, a + b) == Some(u)
    decreases |a|
  {
    hide Enabled, Apply;
    if a == [] {
      assert a + b == b;
    } else {
      ExecConcat(Apply(s, a[0]), a[1..], t, b, u);
      assert (a + b)[1..] == a[1..] + b;
    }
  }

  lemma ExecOne(s: State, st: Step) returns (t: State)
    requires Reachable(s) && Enabled(s, st)
    ensures t == Apply(s, st) && Exec(s, [st]) == Some(t) && Reachable(t)
  {
    ReachNext(s, st);
    t := Apply(s, st);
    assert Exec(t, []) == Some(t);
    assert [st][1..] == [];
  }

  predicate OnlyOf(steps: seq<Step>, k: nat) {
    forall i :: 0 <= i < |steps| ==> steps[i].OfJob? && steps[i].job.k == k
  }

  // The answer of job `k` is composed.
  ghost predicate Ready(s: State, k: nat, n: nat, answer: Response) {
    && k < |s.jobs| && s.jobs[k].place == Composed && s.jobs[k].number == n && s.jobs[k].argument == n
    && !s.jobs[k].inReader && s.jobs[k].answer == Some(answer) && s.jobs[k].attempts == 0
    && s.sending == None && Due(s, k, n)
  }

  // Its cancel function is in the table, or it has run.
  ghost predicate Due(s: State, k: nat, n: nat)
    requires k < |s.jobs|
  {
    if n in s.table then s.table[n] == k else s.jobs[k].cancels == 1
  }

  // The jobs other than `k` are as they were.
  ghost predicate OthersSame(s: State, t: State, k: nat) {
    |t.jobs| == |s.jobs| && forall j :: 0 <= j < |s.jobs| && j != k ==> t.jobs[j] == s.jobs[j]
  }

  lemma Starts(s: State, k: nat) returns (t: State)
    requires Reachable(s) && At(s, k, Spawned) && s.sending == None
    ensures Exec(s, [OfJob(Start(k))]) == Some(t) && Reachable(t) && |t.jobs| == |s.jobs|
    ensures var n := s.jobs[k].number;
            && t.jobs[k] == s.jobs[k].(started := true, argument := n, place := Running, hook := InTable)
            && t.table == T.WithStarted(s.table, n, k) && t.free == s.free && t.sending == None
            && s.jobs[k].attempts == 0 && !s.jobs[k].inReader
    ensures forall j :: 0 <= j < |s.jobs| && j != k ==> t.jobs[j].cancels == s.jobs[j].cancels
  {
    Always(s);
    assert JobOk(s, k);
    t := ExecOne(s, OfJob(Start(k)));
  }

  lemma MethodReturns(s: State, k: nat, result: Result) returns (t: State)
    requires Reachable(s) && k < |s.jobs| && s.jobs[k].slot < |s.heap|
    requires if s.jobs[k].payload.Invoke? then s.jobs[k].place.Running? else s.jobs[k].place.Cancelled? && result == Result(None, 0)
    requires s.sending == None && s.jobs[k].argument == s.jobs[k].number && Due(s, k, s.jobs[k].number)
    requires s.jobs[k].attempts == 0 && !s.jobs[k].inReader
    ensures Exec(s, [OfJob(Return(k, result))]) == Some(t) && Reachable(t) && t.table == s.table && t.free == s.free
    ensures Ready(t, k, s.jobs[k].number, Reply(s.jobs[k].number, result)) && t.jobs[k].slot == s.jobs[k].slot
    ensures OthersSame(s, t, k) && t.jobs[k].result == Some(result)
  {
    Always(s);
    assert JobOk(s, k);
    t := ExecOne(s, OfJob(Return(k, result)));
  }

  lemma HasItsObject(s: State, k: nat)
    requires Reachable(s) && k < |s.jobs| && Owns(s.jobs[k].place)
    ensures s.jobs[k].slot < |s.heap| && s.heap[s.jobs[k].slot].number == s.jobs[k].number
  {
    Always(s);
    assert JobOk(s, k);
  }

  // The body of `_goRPC_.Cancel`: it takes its target's cancel function and runs it.
  lemma TakesTarget(s: State, k: nat) returns (t: State)
    requires Reachable(s) && At(s, k, Running) && s.jobs[k].payload.CancelOf?
    ensures Exec(s, [OfJob(Take(k))]) == Some(t) && Reachable(t)
    ensures var v := Victim(s, s.jobs[k].payload.target);
            && (v.Some? ==> v.value < |s.jobs|) && |t.jobs| == |s.jobs|
            && t.jobs[k] == s.jobs[k].(place := Cancelling(v), hook := if v == Some(k) then InHand(k) else s.jobs[k].hook)
    ensures t.table == T.WithoutCancelled(s.table, s.jobs[k].payload.target) && t.free == s.free && t.sending == s.sending
    ensures forall j :: 0 <= j < |s.jobs| ==> t.jobs[j].cancels == s.jobs[j].cancels
  {
    hide Reachable, Exec;
    if s.jobs[k].payload.target in s.table { EntryIsJob(s, s.jobs[k].payload.target); }
    t := ExecOne(s, OfJob(Take(k)));
  }

  lemma StrikesTarget(s: State, k: nat) returns (t: State)
    requires Reachable(s) && k < |s.jobs| && s.jobs[k].place.Cancelling?
    requires s.jobs[k].place.victim.Some? ==> s.jobs[k].place.victim.value < |s.jobs|
    ensures Exec(s, [OfJob(Strike(k))]) == Some(t) && Reachable(t)
    ensures var v := s.jobs[k].place.victim;
            && t == s.(jobs := t.jobs) && |t.jobs| == |s.jobs|
            && t.jobs[k] == s.jobs[k].(place := Cancelled, hook := if v == Some(k) then Ran(k) else s.jobs[k].hook,
                                       cancels := s.jobs[k].cancels + (if v == Some(k) then 1 else 0))
            && forall j :: 0 <= j < |s.jobs| ==> t.jobs[j].cancels == s.jobs[j].cancels + (if v == Some(j) then 1 else 0)
  {
    hide Reachable, Exec;
    t := ExecOne(s, OfJob(Strike(k)));
  }

  lemma CancelsTarget(s: State, k: nat) returns (t: State)
    requires Reachable(s) && At(s, k, Running) && s.jobs[k].payload.CancelOf? && s.jobs[k].cancels == 0
    requires s.jobs[k].number in s.table && s.table[s.jobs[k].number] == k
    ensures Exec(s, [OfJob(Take(k))] + [OfJob(Strike(k))]) == Some(t) && Reachable(t)
    ensures t.table == T.WithoutCancelled(s.table, s.jobs[k].payload.target)
    ensures |t.jobs| == |s.jobs| && t.jobs[k].place == Cancelled && t.jobs[k].payload == s.jobs[k].payload
    ensures t.jobs[k].number == s.jobs[k].number && t.jobs[k].argument == s.jobs[k].argument && t.jobs[k].slot == s.jobs[k].slot
    ensures t.jobs[k].attempts == s.jobs[k].attempts && t.jobs[k].inReader == s.jobs[k].inReader
    ensures t.free == s.free && t.sending == s.sending && Due(t, k, s.jobs[k].number)
    ensures forall j :: 0 <= j < |s.jobs| && j != k ==>
              t.jobs[j].cancels == s.jobs[j].cancels + (if Victim(s, s.jobs[k].payload.target) == Some(j) then 1 else 0)
  {
    hide Reachable, Exec, Enabled, Apply;
    if s.jobs[k].payload.target in s.table { EntryIsJob(s, s.jobs[k].payload.target); }
    var s1 := TakesTarget(s, k);
    t := StrikesTarget(s1, k);
    ExecConcat(s, [OfJob(Take(k))], s1, [OfJob(Strike(k))], t);
  }

  lemma EntryIsJob(s: State, n: nat)
    requires Reachable(s) && n in s.table
    ensures s.table[n] < |s.jobs| && s.jobs[s.table[n]].number == n
  {
    Always(s);
  }

  // Its response was written and its object given back.
  ghost predicate Written(s: State, k: nat, n: nat, answer: Response) {
    && k < |s.jobs| && s.jobs[k].place == Deferring && s.jobs[k].number == n && s.jobs[k].argument == n
    && s.jobs[k].answer == Some(answer) && s.jobs[k].attempts == 1 && Due(s, k, n)
  }

  lemma Sends(s: State, k: nat, n: nat, answer: Response) returns (steps: seq<Step>, t: State)
    requires Reachable(s) && Ready(s, k, n, answer)
    ensures Exec(s, steps) == Some(t) && OnlyOf(steps, k) && Reachable(t) && Written(t, k, n, answer)
    ensures t.table == s.table && P.GivenBack(s.free, t.free, s.jobs[k].slot) && t.sending == None && OthersSame(s, t, k)
  {
    hide Reachable, Exec;
    Always(s);
    assert JobOk(s, k);
    var s1 := ExecOne(s, OfJob(LockSending(k)));
    var s2 := ExecOne(s1, OfJob(Respond(k, true)));
    ExecConcat(s, [OfJob(LockSending(k))], s1, [OfJob(Respond(k, true))], s2);
    var s3 := ExecOne(s2, OfJob(UnlockSending(k)));
    t := ExecOne(s3, OfJob(Recycle(k)));
    ExecConcat(s2, [OfJob(UnlockSending(k))], s3, [OfJob(Recycle(k))], t);
    ExecConcat(s, [OfJob(LockSending(k))] + [OfJob(Respond(k, true))], s2, [OfJob(UnlockSending(k))] + [OfJob(Recycle(k))], t);
    steps := ([OfJob(LockSending(k))] + [OfJob(Respond(k, true))]) + ([OfJob(UnlockSending(k))] + [OfJob(Recycle(k))]);
  }

  lemma CanBeDone(s: State, k: nat)
    requires Reachable(s) && At(s, k, Ending)
    ensures CanJob(s, Done(k))
  {
    Always(s);
    assert JobOk(s, k);
    CountPositive(s.jobs, k);
  }

  lemma NotRunYet(s: State, k: nat)
    requires Reachable(s) && k < |s.jobs| && s.jobs[k].number in s.table && s.table[s.jobs[k].number] == k
    ensures s.jobs[k].cancels == 0
  {
    Always(s);
    assert JobOk(s, k);
  }

  // The deferred Cancel: it runs the handler's own cancel function, unless that has run.
  lemma CancelsItself(s: State, k: nat, n: nat, answer: Response) returns (t: State)
    requires Reachable(s) && Written(s, k, n, answer)
    ensures Exec(s, [OfJob(Defer(k))] + [OfJob(Strike(k))]) == Some(t) && Reachable(t)
    ensures At(t, k, Ending) && t.jobs[k].answer == Some(answer) && t.jobs[k].attempts == 1 && t.jobs[k].cancels == 1
    ensures t.table == T.WithoutCancelled(s.table, n) && t.free == s.free && t.sending == s.sending && OthersSame(s, t, k)
  {
    hide Reachable, Exec;
    if n in s.table { NotRunYet(s, k); }
    var s1 := ExecOne(s, OfJob(Defer(k)));
    t := ExecOne(s1, OfJob(Strike(k)));
    ExecConcat(s, [OfJob(Defer(k))], s1, [OfJob(Strike(k))], t);
  }

  lemma Finishes(s: State, k: nat, n: nat, answer: Response) returns (steps: seq<Step>, t: State)
    requires Reachable(s) && Written(s, k, n, answer)
    ensures Exec(s, steps) == Some(t) && OnlyOf(steps, k)
    ensures At(t, k, Over) && t.jobs[k].answer == Some(answer) && t.jobs[k].attempts == 1 && t.jobs[k].cancels == 1
    ensures t.table == T.WithoutCancelled(s.table, n) && t.free == s.free && t.sending == s.sending && OthersSame(s, t, k)
  {
    hide Reachable, Exec, Written;
    var s2 := CancelsItself(s, k, n, answer);
    CanBeDone(s2, k);
    t := ExecOne(s2, OfJob(Done(k)));
    ExecConcat(s, [OfJob(Defer(k))] + [OfJob(Strike(k))], s2, [OfJob(Done(k))], t);
    steps := ([OfJob(Defer(k))] + [OfJob(Strike(k))]) + [OfJob(Done(k))];
  }

  // From its start to the composed answer.
  lemma Answers(s: State, k: nat, result: Result) returns (steps: seq<Step>, t: State)
    requires Reachable(s) && At(s, k, Spawned) && s.sending == None && s.jobs[k].cancels == 0
    ensures Exec(s, steps) == Some(t) && OnlyOf(steps, k) && Reachable(t)
    ensures var q := s.jobs[k].payload;
            var n := s.jobs[k].number;
            && Ready(t, k, n, Reply(n, if q.Invoke? then result else Result(None, 0)))
            && t.jobs[k].slot == s.jobs[k].slot && t.free == s.free && |t.jobs| == |s.jobs|
            && t.table == (if q.Invoke? then T.WithStarted(s.table, n, k)
                           else T.WithoutCancelled(T.WithStarted(s.table, n, k), q.target))
            && forall j :: 0 <= j < |s.jobs| && j != k ==>
                 t.jobs[j].cancels == s.jobs[j].cancels + (if Strikes(s, k, j) then 1 else 0)
  {
    hide Reachable, Exec, Enabled, Apply, Owns;
    var s1 := Starts(s, k);
    HasItsObject(s1, k);
    if s.jobs[k].payload.Invoke? {
      t := MethodReturns(s1, k, result);
      ExecConcat(s, [OfJob(Start(k))], s1, [OfJob(Return(k, result))], t);
      steps := [OfJob(Start(k))] + [OfJob(Return(k, result))];
    } else {
      var s2 := CancelsTarget(s1, k);
      HasItsObject(s2, k);
      t := MethodReturns(s2, k, Result(None, 0));
      ExecConcat(s1, [OfJob(Take(k))] + [OfJob(Strike(k))], s2, [OfJob(Return(k, Result(None, 0)))], t);
      ExecConcat(s, [OfJob(Start(k))], s1, ([OfJob(Take(k))] + [OfJob(Strike(k))]) + [OfJob(Return(k, Result(None, 0)))], t);
      steps := [OfJob(Start(k))] + (([OfJob(Take(k))] + [OfJob(Strike(k))]) + [OfJob(Return(k, Result(None, 0)))]);
    }
  }

  // Job `k` is a Cancel, and `j` is another handler in the table under the number it names.
  predicate Strikes(s: State, k: nat, j: nat)
    requires k < |s.jobs|
  {
    && s.jobs[k].payload.CancelOf? && s.jobs[k].payload.target != s.jobs[k].number
    && s.jobs[k].payload.target in s.table && s.table[s.jobs[k].payload.target] == j
  }

  lemma NotStartedYet(s: State, k: nat)
    requires Reachable(s) && At(s, k, Spawned)
    ensures s.jobs[k].cancels == 0
  {
    Always(s);
    assert JobOk(s, k);
  }

  // A handler whose steps nobody interrupts does what Connection.Call does: one response
  // with its number, which has its method's error text or reply, or, for a Cancel, an
  // empty success; its object on top of the free list; its own cancel function run once,
  // that of the handler its Cancel names run too, and no other; and its number and the one
  // its Cancel names gone from the table.
  lemma HandlerIsCall(s: State, k: nat, result: Result) returns (steps: seq<Step>, t: State)
    requires Reachable(s) && At(s, k, Spawned) && s.sending == None
    ensures Exec(s, steps) == Some(t) && OnlyOf(steps, k)
    ensures At(t, k, Over) && t.jobs[k].attempts == 1 && t.jobs[k].cancels == 1 && |t.jobs| == |s.jobs|
    ensures t.jobs[k].answer.Some? && t.jobs[k].answer.value.number == s.jobs[k].number
    ensures var f := t.jobs[k].answer.value;
            match s.jobs[k].payload
            case CancelOf(_) => f.text == "" && f.body == 0
            case Invoke(_, _) =>
              if result.error.Some? && result.error.value != ""
              then f.text == result.error.value && f.body == INVALID_REQUEST
              else f.text == "" && f.body == result.value
    ensures P.GivenBack(s.free, t.free, s.jobs[k].slot) && t.sending == None
    ensures t.table == s.table - {s.jobs[k].number} - (if s.jobs[k].payload.CancelOf? then {s.jobs[k].payload.target} else {})
    ensures forall j :: 0 <= j < |s.jobs| && j != k ==>
              t.jobs[j].cancels == s.jobs[j].cancels + (if Strikes(s, k, j) then 1 else 0)
  {
    hide Reachable, Exec, Ready, Written, Enabled, Apply, Strikes;
    var n := s.jobs[k].number;
    var q := s.jobs[k].payload;
    var answer := Reply(n, if q.Invoke? then result else Result(None, 0));
    NotStartedYet(s, k);
    var first, s1 := Answers(s, k, result);
    var second, s2 := Sends(s1, k, n, answer);
    ExecConcat(s, first, s1, second, s2);
    var third;
    third, t := Finishes(s2, k, n, answer);
    ExecConcat(s, first + second, s2, third, t);
    steps := first + second + third;
    assert t.table == s.table - {n} - (if q.CancelOf? then {q.target} else {});
  }

  // Side by side: from a handler's record, and a table with the same numbers in it,
  // Connection.Call sends the very response the machine's job is answered with, and leaves
  // a table with the same numbers as the machine's.
  method CallIsHandler(c: Connection, req: P.Record<Object>, payload: Payload, result: Result, ghost s: State, ghost k: nat)
    returns (ctx: T.Context, ghost steps: seq<Step>, ghost t: State)
    requires c.Valid() && c.pending.Valid() && req !in c.requests.list
    requires Reachable(s) && At(s, k, Spawned) && s.sending == None
    requires payload == s.jobs[k].payload && req.fields.number == s.jobs[k].number
    requires c.pending.m.Keys == s.table.Keys
    modifies c`sent, c.pending, c.requests, req, c.responses, c.responses.list
    ensures Exec(s, steps) == Some(t) && OnlyOf(steps, k) && At(t, k, Over) && t.jobs[k].answer.Some?
    ensures c.sent == old(c.sent) + [t.jobs[k].answer.value]
    ensures c.pending.m.Keys == t.table.Keys
  {
    hide Reachable, Exec, Connection.Valid, T.Pending.Valid;
    steps, t := HandlerIsCall(s, k, result);
    ctx := c.Call(req, payload, result);
    ghost var f := c.sent[|old(c.sent)|];
    assert f == t.jobs[k].answer.value;
    assert c.sent == old(c.sent) + [f];
    assert c.pending.m.Keys == old(c.pending.m.Keys) - {s.jobs[k].number} - (if payload.CancelOf? then {payload.target} else {});
    assert t.table.Keys == s.table.Keys - {s.jobs[k].number} - (if payload.CancelOf? then {payload.target} else {});
  }
}
