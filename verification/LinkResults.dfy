/** The properties of a link: nothing is lost, doubled or mixed up between two peers. */
module LinkResults {
  import opened Protocol
  import opened Link
  import opened LinkInvariant
  import C = ClientMachine
  import CI = ClientInvariant
  import CS = ClientSteps
  import CR = ClientResults
  import S = ServerMachine
  import SR = ServerResults

  // ---- Tokens --------------------------------------------------------------------

  // The numbers whose request was read and whose response was not handed to the codec.
  function Unanswered(jobs: seq<S.Job>): seq<nat> {
    if jobs == [] then []
    else
      var r := jobs[|jobs| - 1];
      Unanswered(jobs[..|jobs| - 1]) + (if r.attempts == 0 then [r.number] else [])
  }

  function ResponseNumbers(fs: seq<Response>): seq<nat> {
    seq(|fs|, i requires 0 <= i < |fs| => fs[i].number)
  }

  predicate BeingWritten(s: C.State, n: nat) {
    1 <= n <= |s.names| && C.At(s, s.names[n - 1], C.Writing)
  }

  predicate BeingRead(s: C.State, n: nat) {
    HasFrame(s.reader) && s.reader.frame.number == n
  }

  // How many traces of number `n` there are: a request being written, a request under
  // way, a request being served, a response under way, a response being read.
  function Tokens(l: State, n: nat): nat {
    (if BeingWritten(l.client, n) then 1 else 0)
    + multiset(RequestNumbers(l.requests))[n]
    + multiset(Unanswered(l.server.jobs))[n]
    + multiset(ResponseNumbers(l.responses))[n]
    + (if BeingRead(l.client, n) then 1 else 0)
  }

  lemma {:induction false} CountDistinct(s: seq<nat>, n: nat)
    requires Distinct(s)
    ensures multiset(s)[n] == if n in s then 1 else 0
    decreases |s|
  {
    if s != [] {
      var last := |s| - 1;
      CountDistinct(s[..last], n);
      assert s == s[..last] + [s[last]];
    }
  }

  lemma {:induction false} UnansweredOf(jobs: seq<S.Job>)
    requires forall i, j :: 0 <= i < j < |jobs| ==> jobs[i].number < jobs[j].number
    ensures Distinct(Unanswered(jobs))
    ensures forall n :: n in Unanswered(jobs) ==> exists k :: 0 <= k < |jobs| && jobs[k].number == n && jobs[k].attempts == 0
    decreases |jobs|
  {
    if jobs != [] {
      var prefix := jobs[..|jobs| - 1];
      UnansweredOf(prefix);
      forall n | n in Unanswered(prefix) ensures n < jobs[|jobs| - 1].number {
        var k :| 0 <= k < |prefix| && prefix[k].number == n && prefix[k].attempts == 0;
        assert jobs[k] == prefix[k];
      }
      var u := Unanswered(prefix);
      forall i | 0 <= i < |u| ensures u[i] < jobs[|jobs| - 1].number {
        assert u[i] in u;
      }
      forall n | n in Unanswered(jobs)
        ensures exists k :: 0 <= k < |jobs| && jobs[k].number == n && jobs[k].attempts == 0
      {
        if n in Unanswered(prefix) {
          var k :| 0 <= k < |prefix| && prefix[k].number == n && prefix[k].attempts == 0;
          assert jobs[k].number == n && jobs[k].attempts == 0;
        } else {
          assert jobs[|jobs| - 1].number == n;
        }
      }
    }
  }

  // A number in the request queue is neither served nor being written.
  lemma RequestedOnly(l: State, n: nat)
    requires Inv(l) && n in RequestNumbers(l.requests)
    ensures !BeingWritten(l.client, n) && n !in NumbersOf(l.server.jobs)
  {
    SentIncreasing(l.client.writes);
    var all := NumbersOf(l.server.jobs) + RequestNumbers(l.requests);
    var i :| 0 <= i < |l.requests| && RequestNumbers(l.requests)[i] == n;
    assert all[|l.server.jobs| + i] == n;
    forall k | 0 <= k < |l.server.jobs| ensures NumbersOf(l.server.jobs)[k] != n {
      assert all[k] < all[|l.server.jobs| + i];
    }
    if BeingWritten(l.client, n) {
      WrittenIsNext(l, n);
    }
  }

  // The number being written is beyond every number that was written.
  lemma WrittenIsNext(l: State, n: nat)
    requires Inv(l) && BeingWritten(l.client, n)
    ensures n == |l.client.writes| + 1
  {
    CS.Always(l.client);
    assert CI.CallOk(l.client, l.client.names[n - 1]);
  }

  // A number whose job has not answered is on no response and not being written.
  lemma ServedOnly(l: State, n: nat)
    requires Inv(l) && n in Unanswered(l.server.jobs)
    ensures !BeingWritten(l.client, n) && n !in ResponseNumbers(l.responses) && !BeingRead(l.client, n)
  {
    JobsDiffer(l);
    UnansweredOf(l.server.jobs);
    var k :| 0 <= k < |l.server.jobs| && l.server.jobs[k].number == n && l.server.jobs[k].attempts == 0;
    forall i | 0 <= i < |l.responses| ensures l.responses[i].number != n {
      NumberUnused(l, k, l.responses[i]);
    }
    if HasFrame(l.client.reader) {
      NumberUnused(l, k, l.client.reader.frame);
    }
    JobNumberWritten(l, k);
  }

  lemma JobNumberWritten(l: State, k: nat)
    requires Inv(l) && k < |l.server.jobs|
    ensures !BeingWritten(l.client, l.server.jobs[k].number)
  {
    SentIncreasing(l.client.writes);
    assert NumbersOf(l.server.jobs)[k] == Sent(l.client.writes)[k];
    if BeingWritten(l.client, l.server.jobs[k].number) {
      WrittenIsNext(l, l.server.jobs[k].number);
    }
  }

  lemma AnsweredServed(l: State, f: Response)
    requires Inv(l) && FromJob(l.server, f)
    ensures f.number in NumbersOf(l.server.jobs) && !BeingWritten(l.client, f.number)
  {
    var k: nat :| Gave(l.server, k, f);
    JobNumberWritten(l, k);
    assert NumbersOf(l.server.jobs)[k] == f.number;
  }

  // Conservation: in every reachable state each number has at most one trace.
  lemma OneToken(l: State, n: nat)
    requires Reachable(l)
    ensures Tokens(l, n) <= 1
  {
    Always(l);
    JobsDiffer(l);
    UnansweredOf(l.server.jobs);
    RequestsDistinct(l);
    CountDistinct(RequestNumbers(l.requests), n);
    CountDistinct(Unanswered(l.server.jobs), n);
    CountDistinct(ResponseNumbers(l.responses), n);
    if n in RequestNumbers(l.requests) {
      RequestedOnly(l, n);
      NotYetServed(l, n);
    } else if n in Unanswered(l.server.jobs) {
      ServedOnly(l, n);
    } else if n in ResponseNumbers(l.responses) {
      var i :| 0 <= i < |l.responses| && ResponseNumbers(l.responses)[i] == n;
      AnsweredServed(l, l.responses[i]);
    } else if BeingRead(l.client, n) {
      AnsweredServed(l, l.client.reader.frame);
    }
  }

  lemma UnansweredNumbers(jobs: seq<S.Job>)
    requires forall i, j :: 0 <= i < j < |jobs| ==> jobs[i].number < jobs[j].number
    ensures forall n :: n in Unanswered(jobs) ==> n in NumbersOf(jobs)
  {
    UnansweredOf(jobs);
    forall n | n in Unanswered(jobs) ensures n in NumbersOf(jobs) {
      var k :| 0 <= k < |jobs| && jobs[k].number == n && jobs[k].attempts == 0;
      assert NumbersOf(jobs)[k] == n;
    }
  }

  lemma RequestsDistinct(l: State)
    requires QueueOk(l)
    ensures Distinct(RequestNumbers(l.requests))
  {
    SentIncreasing(l.client.writes);
    var all := NumbersOf(l.server.jobs) + RequestNumbers(l.requests);
    var qs := RequestNumbers(l.requests);
    forall i, j | 0 <= i < j < |qs| ensures qs[i] != qs[j] {
      assert all[|l.server.jobs| + i] < all[|l.server.jobs| + j];
    }
  }

  // A number no job has is on no list of jobs or responses.
  lemma NotYetServed(l: State, n: nat)
    requires Inv(l) && n !in NumbersOf(l.server.jobs)
    ensures n !in Unanswered(l.server.jobs) && n !in ResponseNumbers(l.responses) && !BeingRead(l.client, n)
  {
    JobsDiffer(l);
    UnansweredOf(l.server.jobs);
    UnansweredNumbers(l.server.jobs);
    if n in ResponseNumbers(l.responses) {
      var i :| 0 <= i < |l.responses| && ResponseNumbers(l.responses)[i] == n;
      AnsweredServed(l, l.responses[i]);
    }
    if BeingRead(l.client, n) {
      AnsweredServed(l, l.client.reader.frame);
    }
  }

  // ---- Outcomes ------------------------------------------------------------------

  // Job `k` is the service of call `c`: same number, same method and arguments.
  predicate Serves(l: State, k: nat, c: nat) {
    && k < |l.server.jobs| && c < |l.client.calls|
    && l.server.jobs[k].number == l.client.calls[c].number != 0
    && l.server.jobs[k].payload == l.client.calls[c].payload
  }

  // The job with the number of a call is its service, and there is no other.
  lemma ServedOnce(l: State, c: nat, k: nat)
    requires Inv(l) && c < |l.client.calls| && k < |l.server.jobs|
    requires l.server.jobs[k].number == l.client.calls[c].number
    ensures Serves(l, k, c)
    ensures forall j: nat :: Serves(l, j, c) ==> j == k
  {
    CS.Always(l.client);
    JobsDiffer(l);
    assert CI.CallOk(l.client, c);
    var j := l.server.jobs[k];
    assert Asked(l.client, j.number, j.payload);
  }

  // The method ran for this call and `sendResponse` turned its result into this response.
  predicate Ran(r: S.Job, f: Response) {
    !r.inReader && r.result.Some? && S.Reply(r.number, r.result.value) == f
  }

  // The server's reader refused the request of this call, and this response says why.
  predicate WasRefused(r: S.Job, f: Response) {
    r.inReader && f.text != "" && r.reason == Some(f.text)
  }

  lemma AnswerIsOwn(l: State, c: nat, f: Response)
    requires Inv(l) && c < |l.client.calls| && FromJob(l.server, f) && f.number == l.client.calls[c].number
    ensures exists k: nat :: Serves(l, k, c) && l.server.jobs[k].attempts == 1
                        && (Ran(l.server.jobs[k], f) || WasRefused(l.server.jobs[k], f))
  {
    var k: nat :| Gave(l.server, k, f);
    ServedOnce(l, c, k);
    SR.OneResponsePerHeader(l.server, k);
  }

  // A call that ends without error gets the reply of its own request: one job, with its
  // number, its method and its arguments, whose method returned no error (or an error
  // with empty text, which is sent as success) and exactly this value.
  lemma OwnReply(l: State, c: nat, v: Value)
    requires Reachable(l) && c < |l.client.calls| && l.client.calls[c].outcome == Ok(v)
    ensures exists k: nat :: Serves(l, k, c) && !l.server.jobs[k].inReader && l.server.jobs[k].result.Some?
                        && l.server.jobs[k].result.value.value == v
                        && (l.server.jobs[k].result.value.error == None || l.server.jobs[k].result.value.error == Some(""))
  {
    Always(l);
    CS.Always(l.client);
    assert CI.CallOk(l.client, c);
    AtMostSettled(l, c);
    var f := l.client.calls[c].answer.value.frame;
    AnswerIsOwn(l, c, f);
    var k: nat :| Serves(l, k, c) && l.server.jobs[k].attempts == 1
             && (Ran(l.server.jobs[k], f) || WasRefused(l.server.jobs[k], f));
  }

  lemma AtMostSettled(l: State, c: nat)
    requires Inv(l) && c < |l.client.calls| && l.client.calls[c].outcome != Unsettled
    ensures l.client.calls[c].signals == 1
    ensures l.client.calls[c].outcome.Ok? || l.client.calls[c].outcome.error.Server? ==>
              l.client.calls[c].answer.Some?
              && l.client.calls[c].answer.value.frame.number == l.client.calls[c].number
  {
    CS.Always(l.client);
    assert CI.CallOk(l.client, c);
    CR.AtMostOneSignal(l.client, c);
    CR.OutcomeExplained(l.client, c);
  }

  // A ServerError carries the text that the call's own method returned, or the reason for
  // which the server's reader rejected this very request.
  lemma OwnError(l: State, c: nat, t: string)
    requires Reachable(l) && c < |l.client.calls| && l.client.calls[c].outcome == Err(Error.Server(t))
    ensures t != ""
    ensures exists k: nat :: Serves(l, k, c) && l.server.jobs[k].attempts == 1
                        && if l.server.jobs[k].inReader then l.server.jobs[k].reason == Some(t)
                           else l.server.jobs[k].result.Some? && l.server.jobs[k].result.value.error == Some(t)
  {
    Always(l);
    AtMostSettled(l, c);
    CR.OutcomeExplained(l.client, c);
    var f := l.client.calls[c].answer.value.frame;
    assert FromJob(l.server, f);
    var k: nat :| Gave(l.server, k, f);
    ServedOnce(l, c, k);
    SR.OneResponsePerHeader(l.server, k);
  }

  // What a handler's result becomes for the caller.
  function Arrives(r: S.Result): Outcome {
    if r.error.Some? && r.error.value != "" then Err(Error.Server(r.error.value)) else Ok(r.value)
  }

  // Round trip: whenever a response was read and decoded for a call, the call ends exactly
  // as its handler's result says, and its reply is set if and only if that is success.
  lemma OutcomeRoundTrip(l: State, c: nat, k: nat)
    requires Reachable(l) && Serves(l, k, c) && !l.server.jobs[k].inReader
    requires l.client.calls[c].signals == 1
    requires l.client.calls[c].answer.Some? && l.client.calls[c].answer.value.fail == None
    ensures l.server.jobs[k].result.Some?
    ensures var o := Arrives(l.server.jobs[k].result.value);
            l.client.calls[c].outcome == o && l.client.calls[c].reply == if o.Ok? then Some(o.value) else None
  {
    Always(l);
    CR.OutcomeExplained(l.client, c);
    var f := l.client.calls[c].answer.value.frame;
    assert FromJob(l.server, f);
    var j: nat :| Gave(l.server, j, f);
    ServedOnce(l, c, j);
    SR.OneResponsePerHeader(l.server, j);
    AnsweredOutcome(l.client, c);
  }

  lemma AnsweredOutcome(s: C.State, c: nat)
    requires C.Reachable(s) && c < |s.calls| && s.calls[c].signals == 1
    requires s.calls[c].answer.Some? && s.calls[c].answer.value.fail == None
    ensures s.calls[c].answer.value.frame.number == s.calls[c].number
    ensures var f := s.calls[c].answer.value.frame;
            s.calls[c].outcome == (if f.text != "" then Err(Error.Server(f.text)) else Ok(f.body))
            && s.calls[c].reply == (if f.text != "" then None else Some(f.body))
  {
    CR.OutcomeExplained(s, c);
  }

  // ---- Cancellation --------------------------------------------------------------

  // If no user sends Cancel requests of his own, the context of a handler that has not
  // returned is done only because the client withdrew this very call.
  lemma CancelJustified(l: State, k: nat)
    requires Reachable(l) && !l.client.handmade && k < |l.server.jobs|
    requires SR.ContextDone(l.server, k)
    requires !(l.server.jobs[k].place.Ending? || l.server.jobs[k].place.Over?)
    ensures exists c: nat :: Serves(l, k, c) && l.client.calls[c].withdrawn
  {
    Always(l);
    CS.Always(l.client);
    JobsDiffer(l);
    SR.EarlyCancelHasRequest(l.server, k);
    var n := l.server.jobs[k].number;
    var j: nat :| j < |l.server.jobs| && l.server.jobs[j].payload == CancelOf(n);
    assert Asked(l.client, l.server.jobs[j].number, CancelOf(n));
    var notice := l.client.names[l.server.jobs[j].number - 1];
    assert CI.CallOk(l.client, notice);
    var c := l.client.calls[notice].kind.of;
    assert CI.CallOk(l.client, c);
    ServedOnce(l, c, k);
  }
}
