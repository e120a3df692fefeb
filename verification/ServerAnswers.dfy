/** What a request is answered with, from the step that decides it to the end of any run:
    the histories `reason` and `result` of a job are the reader's refusal and the method's
    return, and the response says exactly that. */
module ServerAnswers {
  import opened Protocol
  import opened ServerMachine
  import opened ServerInvariant
  import opened ServerSteps

  // The reader refuses the request of job `k` for this reason.
  predicate Refuses(s: State, st: Step, k: nat, text: string) {
    st == OfReader(Reject(text)) && s.reader == Busy(k)
  }

  // The method of job `k` returns this.
  predicate Returns(st: Step, k: nat, result: Result) {
    st == OfJob(Return(k, result))
  }

  predicate RefusedDuring(s: State, steps: seq<Step>, k: nat, text: string)
    decreases |steps|
  {
    && steps != [] && Enabled(s, steps[0])
    && (Refuses(s, steps[0], k, text) || RefusedDuring(Apply(s, steps[0]), steps[1..], k, text))
  }

  predicate ReturnedDuring(s: State, steps: seq<Step>, k: nat, result: Result)
    decreases |steps|
  {
    && steps != [] && Enabled(s, steps[0])
    && (Returns(steps[0], k, result) || ReturnedDuring(Apply(s, steps[0]), steps[1..], k, result))
  }

  predicate HasReason(s: State, k: nat, text: string) {
    k < |s.jobs| && s.jobs[k].reason == Some(text)
  }

  predicate HasResult(s: State, k: nat, result: Result) {
    k < |s.jobs| && s.jobs[k].result == Some(result)
  }

  lemma ReadDecides(s: State, st: ReadStep, k: nat, text: string, result: Result)
    requires Inv(s) && CanRead(s, st)
    ensures HasReason(ApplyRead(s, st), k, text) <==> HasReason(s, k, text) || Refuses(s, OfReader(st), k, text)
    ensures HasResult(ApplyRead(s, st), k, result) <==> HasResult(s, k, result)
  {
    hide PoolOk, TableOk, HookOk;
    if k < |s.jobs| { assert JobOk(s, k); }
  }

  lemma JobDecides(s: State, st: JobStep, k: nat, text: string, result: Result)
    requires Inv(s) && CanJob(s, st)
    ensures HasReason(ApplyJob(s, st), k, text) <==> HasReason(s, k, text)
    ensures HasResult(ApplyJob(s, st), k, result) <==> HasResult(s, k, result) || Returns(OfJob(st), k, result)
  {
    hide Inv, HasReason, HasResult, ApplyJob;
    JobsKeepReasons(s, st, k, text);
    JobsReturn(s, st, k, result);
  }

  lemma JobsKeepReasons(s: State, st: JobStep, k: nat, text: string)
    requires CanJob(s, st)
    ensures HasReason(ApplyJob(s, st), k, text) <==> HasReason(s, k, text)
  {
  }

  lemma JobsReturn(s: State, st: JobStep, k: nat, result: Result)
    requires Inv(s) && CanJob(s, st)
    ensures HasResult(ApplyJob(s, st), k, result) <==> HasResult(s, k, result) || Returns(OfJob(st), k, result)
  {
    hide PoolOk, ReaderOk, HookOk, TableOk;
    if k < |s.jobs| { assert JobOk(s, k); }
  }

  lemma {:induction false} RunDecides(s: State, steps: seq<Step>, t: State, k: nat, text: string, result: Result)
    requires Inv(s) && Exec(s, steps) == Some(t)
    ensures HasReason(t, k, text) <==> HasReason(s, k, text) || RefusedDuring(s, steps, k, text)
    ensures HasResult(t, k, result) <==> HasResult(s, k, result) || ReturnedDuring(s, steps, k, result)
    decreases |steps|
  {
    hide Inv, CanRead, CanJob, ApplyRead, ApplyJob, HasReason, HasResult;
    if steps != [] {
      match steps[0] {
        case OfReader(rs) => ReadDecides(s, rs, k, text, result);
        case OfJob(js) => JobDecides(s, js, k, text, result);
      }
      StepKeeps(s, steps[0]);
      RunDecides(Apply(s, steps[0]), steps[1..], t, k, text, result);
    }
  }

  // The answer that says so.
  predicate SaysWhy(r: Job, text: string) {
    r.inReader && text != "" && r.answer == Some(Response(r.number, text, INVALID_REQUEST))
  }

  // An error text, or success with the reply; an error with an empty text is no error.
  predicate SaysWhat(r: Job, result: Result) {
    && !r.inReader && r.answer.Some? && r.answer.value.number == r.number
    && (result.error.Some? && result.error.value != "" ==>
          r.answer.value.text == result.error.value && r.answer.value.body == INVALID_REQUEST)
    && (result.error == None || result.error == Some("") ==>
          r.answer.value.text == "" && r.answer.value.body == result.value)
  }

  // Over any run: job `k` was refused for `text` in its course if and only if that is its
  // history, and then its response says so.
  lemma RefusedIff(steps: seq<Step>, s: State, k: nat, text: string)
    requires Exec(INIT, steps) == Some(s)
    ensures RefusedDuring(INIT, steps, k, text) <==> k < |s.jobs| && s.jobs[k].reason == Some(text)
    ensures RefusedDuring(INIT, steps, k, text) ==> k < |s.jobs| && SaysWhy(s.jobs[k], text)
  {
    hide RefusedDuring, ReturnedDuring, Exec;
    assert Reachable(s);
    Always(s);
    InitReachable();
    Always(INIT);
    RunDecides(INIT, steps, s, k, text, Result(None, 0));
    if k < |s.jobs| { assert JobOk(s, k); }
  }

  // Likewise, its method returned `result` if and only if that is its history, and then
  // its response is that error, or that reply.
  lemma ReturnedIff(steps: seq<Step>, s: State, k: nat, result: Result)
    requires Exec(INIT, steps) == Some(s)
    ensures ReturnedDuring(INIT, steps, k, result) <==> k < |s.jobs| && s.jobs[k].result == Some(result)
    ensures ReturnedDuring(INIT, steps, k, result) ==> k < |s.jobs| && SaysWhat(s.jobs[k], result)
  {
    hide RefusedDuring, ReturnedDuring, Exec;
    assert Reachable(s);
    Always(s);
    InitReachable();
    Always(INIT);
    RunDecides(INIT, steps, s, k, "", result);
    if k < |s.jobs| { assert JobOk(s, k); }
  }

  // ---- The end of the loop ---------------------------------------------------------------

  predicate LoopOver(r: Reader) {
    r.Waiting? || r.Closed?
  }

  lemma OverStays(s: State, st: Step)
    requires Inv(s) && Enabled(s, st) && LoopOver(s.reader)
    ensures LoopOver(Apply(s, st).reader) && |Apply(s, st).jobs| == |s.jobs|
  {
    hide PoolOk, TableOk, HookOk;
    match st
    case OfReader(rs) =>
    case OfJob(js) =>
      if js.Recycle? { assert JobOk(s, js.k); }
  }

  lemma {:induction false} OverForever(s: State, steps: seq<Step>, t: State)
    requires Inv(s) && Exec(s, steps) == Some(t) && LoopOver(s.reader)
    ensures LoopOver(t.reader) && |t.jobs| == |s.jobs|
    decreases |steps|
  {
    hide Inv, Enabled, Apply;
    if steps != [] {
      OverStays(s, steps[0]);
      StepKeeps(s, steps[0]);
      OverForever(Apply(s, steps[0]), steps[1..], t);
    }
  }

  // A header that cannot be read, or a response body that cannot, is the end: over any
  // continuation no header is read any more, and the loop only waits for its handlers.
  lemma EndIsFinal(s: State, st: ReadStep, steps: seq<Step>, t: State)
    requires Reachable(s) && CanRead(s, st) && (st.GotEnd? || st.Quit?)
    requires Exec(ApplyRead(s, st), steps) == Some(t)
    ensures LoopOver(t.reader) && |t.jobs| == |s.jobs|
  {
    hide Inv;
    Always(s);
    StepKeeps(s, OfReader(st));
    OverForever(ApplyRead(s, st), steps, t);
  }
}
