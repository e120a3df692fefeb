/** A JSON server codec under the server half: request records that are recycled, handlers
    that run concurrently and answer in any order, requests with any ids, notifications. */
module JsonServing {
  import opened Protocol
  import opened JsonIds
  import S = ServerMachine
  import SI = ServerInvariant
  import SS = ServerSteps
  import SR = ServerResults

  // A response on the wire and, as history, the job it is for.
  datatype Output = Output(job: nat, reply: Reply)

  datatype State = State(
    server: S.State,
    table: Table,
    raws: seq<Option<Id>>,  // history: the id of each job's request
    out: seq<Output>,
    failed: set<nat>)       // history: numbered jobs whose response could not be encoded

  const INIT: State := State(S.INIT, EMPTY, [], [], {})

  datatype Step =
    | OfServer(sv: S.Step)                   // any step but the next two
    | Serve(id: Option<Id>, payload: Payload) // ReadHeader of a request
    | Respond(k: nat, encoded: bool)         // WriteResponse

  predicate Enabled(s: State, st: Step) {
    match st
    case OfServer(sv) =>
      && !(sv.OfReader? && sv.read.GotRequest?) && !(sv.OfJob? && sv.job.Respond?)
      && S.Enabled(s.server, sv)
    case Serve(_, p) => S.CanRead(s.server, S.GotRequest(Request(0, p)))
    case Respond(k, _) => S.CanJob(s.server, S.Respond(k, true)) && s.server.jobs[k].answer.Some?
  }

  // Whether WriteResponse puts the response of job `k` on the wire.
  predicate Goes(s: State, k: nat, encoded: bool)
    requires k < |s.server.jobs| && s.server.jobs[k].answer.Some?
  {
    s.server.jobs[k].answer.value.number in s.table.pending && encoded
  }

  function Apply(s: State, st: Step, bidirectional: bool): State
    requires Enabled(s, st)
  {
    match st
    case OfServer(sv) => s.(server := S.Apply(s.server, sv))
    case Serve(id, p) =>
      var n := NumberFor(s.table, id, bidirectional, s.server.heap[s.server.reader.slot].number);
      s.(server := S.ApplyRead(s.server, S.GotRequest(Request(n, p))),
         table := Enter(s.table, id, bidirectional),
         raws := s.raws + [id])
    case Respond(k, encoded) =>
      var r := s.server.jobs[k].answer.value;
      var t := s.(server := S.ApplyJob(s.server, S.Respond(k, Goes(s, k, encoded))));
      if r.number !in s.table.pending then t
      else if encoded then
        t.(table := Leave(s.table, r.number),
           out := s.out + [Output(k, Reply(s.table.pending[r.number], r.text, r.body))])
      else t.(table := Leave(s.table, r.number), failed := s.failed + {k})
  }

  function Exec(s: State, steps: seq<Step>, bidirectional: bool): Option<State>
    decreases |steps|
  {
    if steps == [] then Some(s)
    else if Enabled(s, steps[0]) then Exec(Apply(s, steps[0], bidirectional), steps[1..], bidirectional)
    else None
  }

  ghost predicate Reachable(s: State, bidirectional: bool) {
    exists steps :: Exec(INIT, steps, bidirectional) == Some(s)
  }

  // The request of job `k` is no notification.
  predicate Expects(s: State, k: nat, bidirectional: bool)
    requires k < |s.raws|
  {
    !bidirectional || s.raws[k].Some?
  }

  predicate NoNotifications(s: State, bidirectional: bool) {
    forall k :: 0 <= k < |s.raws| ==> Expects(s, k, bidirectional)
  }

  ghost predicate NumbersOk(s: State, bidirectional: bool) {
    && |s.raws| == |s.server.jobs|
    && (forall k :: 0 <= k < |s.raws| ==>
          if Expects(s, k, bidirectional) then 1 <= s.server.jobs[k].number <= s.table.last
          else s.server.jobs[k].number == 0)
    && (forall j, k :: 0 <= j < k < |s.raws| && Expects(s, j, bidirectional) && Expects(s, k, bidirectional) ==>
          s.server.jobs[j].number != s.server.jobs[k].number)
  }

  // Without notifications the requests are numbered 1, 2, 3, ...
  ghost predicate OrderOk(s: State, bidirectional: bool) {
    NoNotifications(s, bidirectional) ==>
      && s.table.last == |s.raws| <= |s.server.jobs|
      && forall k :: 0 <= k < |s.raws| ==> s.server.jobs[k].number == k + 1
  }

  // The job whose response is awaited under `n`.
  ghost predicate Awaited(s: State, k: nat, n: nat, bidirectional: bool) {
    && k < |s.raws| && k < |s.server.jobs| && Expects(s, k, bidirectional)
    && s.server.jobs[k].number == n && s.server.jobs[k].attempts == 0
  }

  ghost predicate TableOk(s: State, bidirectional: bool) {
    && (forall n :: n in s.table.pending ==> exists k: nat :: Awaited(s, k, n, bidirectional))
    && (forall k: nat, n :: Awaited(s, k, n, bidirectional) ==>
          n in s.table.pending && s.table.pending[n] == s.raws[k])
  }

  // The output `o` is the response of its job, with the id of its request.
  ghost predicate OutputOk(s: State, o: Output, bidirectional: bool) {
    && o.job < |s.raws| && o.job < |s.server.jobs| && Expects(s, o.job, bidirectional)
    && s.server.jobs[o.job].attempts == 1 && s.server.jobs[o.job].answer.Some?
    && o.reply == Reply(s.raws[o.job], s.server.jobs[o.job].answer.value.text, s.server.jobs[o.job].answer.value.body)
  }

  predicate Attempted(s: State, k: nat, bidirectional: bool) {
    k < |s.raws| && k < |s.server.jobs| && Expects(s, k, bidirectional) && s.server.jobs[k].attempts == 1
  }

  ghost predicate OutOk(s: State, bidirectional: bool) {
    && (forall i :: 0 <= i < |s.out| ==> OutputOk(s, s.out[i], bidirectional))
    && (forall i, j :: 0 <= i < j < |s.out| ==> s.out[i].job != s.out[j].job)
    && (forall k: nat :: Attempted(s, k, bidirectional) ==> k in s.failed || Has(s.out, k))
  }

  predicate Has(out: seq<Output>, k: nat) {
    exists i :: 0 <= i < |out| && out[i].job == k
  }

  ghost predicate Inv(s: State, bidirectional: bool) {
    && S.Reachable(s.server) && NumbersOk(s, bidirectional) && OrderOk(s, bidirectional)
    && TableOk(s, bidirectional) && OutOk(s, bidirectional)
  }

  // Steps of the server that neither read a request nor write a response leave numbers,
  // attempts and answers that were given alone.
  ghost predicate Alike(s: S.State, t: S.State) {
    && |t.jobs| == |s.jobs|
    && forall k :: 0 <= k < |s.jobs| ==>
         t.jobs[k].number == s.jobs[k].number && t.jobs[k].attempts == s.jobs[k].attempts
         && (s.jobs[k].attempts == 1 ==> t.jobs[k].answer == s.jobs[k].answer)
  }

  lemma JobAlike(s: S.State, st: S.JobStep)
    requires S.CanJob(s, st) && !st.Respond? && (st.Return? ==> s.jobs[st.k].attempts == 0)
    ensures Alike(s, S.ApplyJob(s, st))
  {
    if st.Start? || st.Take? || st.Defer? || st.Strike? {
      HookAlike(s, st);
    }
  }

  lemma HookAlike(s: S.State, st: S.JobStep)
    requires S.CanJob(s, st) && (st.Start? || st.Take? || st.Defer? || st.Strike?)
    ensures Alike(s, S.ApplyJob(s, st))
  {
  }

  lemma ReturnIsFirst(s: S.State, st: S.JobStep)
    requires SI.Inv(s) && S.CanJob(s, st) && st.Return?
    ensures s.jobs[st.k].attempts == 0
  {
    assert SI.JobOk(s, st.k);
  }

  lemma ReadAlike(s: S.State, st: S.ReadStep)
    requires SI.Inv(s) && S.CanRead(s, st) && !st.GotRequest?
    ensures Alike(s, S.ApplyRead(s, st))
  {
    hide SI.HookOk;
    if s.reader.Busy? { assert SI.JobOk(s, s.reader.job); }
  }

  lemma AlikeKeeps(s: State, t: State, bidirectional: bool)
    requires NumbersOk(s, bidirectional) && OrderOk(s, bidirectional)
    requires TableOk(s, bidirectional) && OutOk(s, bidirectional)
    requires Alike(s.server, t.server) && t == s.(server := t.server)
    ensures NumbersOk(t, bidirectional) && OrderOk(t, bidirectional)
    ensures TableOk(t, bidirectional) && OutOk(t, bidirectional)
  {
    assert forall k: nat, n: nat :: Awaited(t, k, n, bidirectional) == Awaited(s, k, n, bidirectional);
  }

  lemma ServerKeeps(s: State, st: S.Step, bidirectional: bool)
    requires Inv(s, bidirectional) && Enabled(s, OfServer(st))
    ensures Inv(Apply(s, OfServer(st), bidirectional), bidirectional)
  {
    hide S.Reachable, SI.Inv, NumbersOk, OrderOk, TableOk, OutOk, Alike;
    SS.Always(s.server);
    SS.ReachNext(s.server, st);
    match st {
      case OfReader(rs) => ReadAlike(s.server, rs);
      case OfJob(js) =>
        if js.Return? { ReturnIsFirst(s.server, js); }
        JobAlike(s.server, js);
    }
    AlikeKeeps(s, Apply(s, OfServer(st), bidirectional), bidirectional);
  }

  // The record a request is read into was zeroed.
  lemma ArmedIsZero(s: S.State)
    requires S.Reachable(s) && s.reader.Armed?
    ensures s.reader.slot < |s.heap| && s.heap[s.reader.slot] == S.ZERO
  {
    SS.Always(s);
  }

  // `t` is `s` with one more request, which nobody answered yet.
  ghost predicate Longer(s: State, t: State) {
    && |s.raws| == |s.server.jobs| && |t.raws| == |t.server.jobs| == |s.raws| + 1
    && t.raws[..|s.raws|] == s.raws && t.server.jobs[..|s.raws|] == s.server.jobs
    && t.server.jobs[|s.raws|].attempts == 0
  }

  lemma AwaitedLonger(s: State, t: State, j: nat, n: nat, bidirectional: bool)
    requires Longer(s, t) && NumbersOk(t, bidirectional)
    ensures j < |s.raws| ==> (Awaited(t, j, n, bidirectional) <==> Awaited(s, j, n, bidirectional))
    ensures j == |s.raws| ==>
              (Awaited(t, j, n, bidirectional) <==> Expects(t, j, bidirectional) && t.server.jobs[j].number == n)
    ensures Awaited(t, j, n, bidirectional) ==> j < |t.raws| && 1 <= n <= t.table.last
    ensures j < |s.raws| ==> t.raws[j] == s.raws[j]
  {
    if j < |s.raws| {
      assert t.raws[j] == s.raws[j] && t.server.jobs[j] == s.server.jobs[j];
    }
  }

  lemma ServeTable(s: State, t: State, bidirectional: bool)
    requires NumbersOk(s, bidirectional) && TableOk(s, bidirectional) && NumbersOk(t, bidirectional) && Longer(s, t)
    requires t.table == Enter(s.table, t.raws[|s.raws|], bidirectional)
    requires Expects(t, |s.raws|, bidirectional) ==> t.server.jobs[|s.raws|].number == t.table.last
    ensures TableOk(t, bidirectional)
  {
    hide NumbersOk, Awaited;
    var k := |s.raws|;
    forall n | n in t.table.pending ensures exists j: nat :: Awaited(t, j, n, bidirectional) {
      if n in s.table.pending {
        var j: nat :| Awaited(s, j, n, bidirectional);
        AwaitedBound(s, j, n, bidirectional);
        AwaitedLonger(s, t, j, n, bidirectional);
        assert Awaited(t, j, n, bidirectional);
      } else {
        AwaitedLonger(s, t, k, n, bidirectional);
        assert Awaited(t, k, n, bidirectional);
      }
    }
    forall j: nat, n: nat | Awaited(t, j, n, bidirectional)
      ensures j < |t.raws| && n in t.table.pending && t.table.pending[n] == t.raws[j]
    {
      AwaitedLonger(s, t, j, n, bidirectional);
      if j < k {
        assert Awaited(s, j, n, bidirectional);
        AwaitedBound(s, j, n, bidirectional);
      }
    }
  }

  lemma AwaitedBound(s: State, j: nat, n: nat, bidirectional: bool)
    requires NumbersOk(s, bidirectional) && Awaited(s, j, n, bidirectional)
    ensures j < |s.raws| && 1 <= n <= s.table.last
  {
  }

  lemma ServeOut(s: State, t: State, bidirectional: bool)
    requires NumbersOk(s, bidirectional) && OutOk(s, bidirectional) && NumbersOk(t, bidirectional)
    requires Longer(s, t) && t.out == s.out && t.failed == s.failed
    ensures OutOk(t, bidirectional)
  {
    assert forall k: nat :: Attempted(t, k, bidirectional) ==> Attempted(s, k, bidirectional);
    forall i | 0 <= i < |t.out| ensures OutputOk(t, t.out[i], bidirectional) {
      assert OutputOk(s, s.out[i], bidirectional);
    }
  }

  lemma ServeOrder(s: State, t: State, bidirectional: bool)
    requires OrderOk(s, bidirectional) && Longer(s, t)
    requires t.table == Enter(s.table, t.raws[|s.raws|], bidirectional)
    requires Expects(t, |s.raws|, bidirectional) ==> t.server.jobs[|s.raws|].number == t.table.last
    ensures OrderOk(t, bidirectional)
  {
    forall k | 0 <= k < |s.raws| ensures t.raws[k] == s.raws[k] && t.server.jobs[k] == s.server.jobs[k] {
      assert t.raws[..|s.raws|][k] == t.raws[k] && t.server.jobs[..|s.raws|][k] == t.server.jobs[k];
    }
    if NoNotifications(t, bidirectional) {
      forall k | 0 <= k < |s.raws| ensures Expects(s, k, bidirectional) {
        assert Expects(t, k, bidirectional);
      }
      assert NoNotifications(s, bidirectional) && Expects(t, |s.raws|, bidirectional);
    }
  }

  lemma RespondOrder(s: State, t: State, k: nat, bidirectional: bool)
    requires OrderOk(s, bidirectional) && Responded(s, t, k) && t.table.last == s.table.last
    ensures OrderOk(t, bidirectional)
  {
    forall j: nat | j < |s.raws| ensures Expects(t, j, bidirectional) == Expects(s, j, bidirectional) {
    }
  }

  lemma ServeKeeps(s: State, id: Option<Id>, p: Payload, bidirectional: bool)
    requires Inv(s, bidirectional) && Enabled(s, Serve(id, p))
    ensures Inv(Apply(s, Serve(id, p), bidirectional), bidirectional)
  {
    hide S.Reachable, OrderOk, TableOk, OutOk;
    ArmedIsZero(s.server);
    var n := NumberFor(s.table, id, bidirectional, s.server.heap[s.server.reader.slot].number);
    SS.ReachNext(s.server, S.OfReader(S.GotRequest(Request(n, p))));
    var t := Apply(s, Serve(id, p), bidirectional);
    ServeTable(s, t, bidirectional);
    ServeOut(s, t, bidirectional);
    ServeOrder(s, t, bidirectional);
  }

  // The response of a job carries the number of its request.
  lemma AnswerNumber(s: S.State, k: nat)
    requires S.Reachable(s) && S.CanJob(s, S.Respond(k, true)) && s.jobs[k].answer.Some?
    ensures s.jobs[k].attempts == 0 && s.jobs[k].answer.value.number == s.jobs[k].number
  {
    SS.Always(s);
    assert SI.JobOk(s, k);
  }

  ghost predicate Responded(s: State, t: State, k: nat) {
    && k < |s.server.jobs| && |s.raws| == |s.server.jobs| == |t.server.jobs| && t.raws == s.raws
    && t.server.jobs == s.server.jobs[k := t.server.jobs[k]]
    && s.server.jobs[k].attempts == 0 && t.server.jobs[k].attempts == 1
    && t.server.jobs[k].number == s.server.jobs[k].number && t.server.jobs[k].answer == s.server.jobs[k].answer
  }

  lemma RespondTable(s: State, t: State, k: nat, bidirectional: bool)
    requires NumbersOk(s, bidirectional) && TableOk(s, bidirectional) && Responded(s, t, k)
    requires t.table == Leave(s.table, s.server.jobs[k].number)
    ensures NumbersOk(t, bidirectional) && TableOk(t, bidirectional)
  {
    forall j: nat, m: nat ensures Awaited(t, j, m, bidirectional) <==> j != k && Awaited(s, j, m, bidirectional) {
      assert j < |s.server.jobs| && j != k ==> t.server.jobs[j] == s.server.jobs[j];
    }
    forall n | n in t.table.pending ensures exists j: nat :: Awaited(t, j, n, bidirectional) {
      var j: nat :| Awaited(s, j, n, bidirectional);
      assert Awaited(t, j, n, bidirectional);
    }
  }

  lemma RespondOut(s: State, t: State, k: nat, bidirectional: bool)
    requires NumbersOk(s, bidirectional) && OutOk(s, bidirectional) && Responded(s, t, k)
    requires s.server.jobs[k].answer.Some?
    requires || (t.out == s.out && t.failed == s.failed && !Expects(s, k, bidirectional))
             || (t.out == s.out && t.failed == s.failed + {k})
             || (t.failed == s.failed && t.out == s.out + [Output(k, Reply(s.raws[k], s.server.jobs[k].answer.value.text,
                                                                          s.server.jobs[k].answer.value.body))]
                 && Expects(s, k, bidirectional))
    ensures OutOk(t, bidirectional)
  {
    forall i | 0 <= i < |s.out| ensures s.out[i].job != k && OutputOk(t, s.out[i], bidirectional) {
      assert OutputOk(s, s.out[i], bidirectional);
    }
    forall j: nat | Attempted(t, j, bidirectional) ensures j in t.failed || Has(t.out, j) {
      if j != k {
        assert Attempted(s, j, bidirectional);
        if Has(s.out, j) {
          var i :| 0 <= i < |s.out| && s.out[i].job == j;
          assert t.out[i].job == j;
        }
      } else if t.out != s.out {
        assert t.out[|s.out|].job == k;
      }
    }
  }

  lemma RespondKeeps(s: State, k: nat, encoded: bool, bidirectional: bool)
    requires Inv(s, bidirectional) && Enabled(s, Respond(k, encoded))
    ensures Inv(Apply(s, Respond(k, encoded), bidirectional), bidirectional)
  {
    hide S.Reachable, OrderOk, OutOk;
    AnswerNumber(s.server, k);
    SS.ReachNext(s.server, S.OfJob(S.Respond(k, Goes(s, k, encoded))));
    var t := Apply(s, Respond(k, encoded), bidirectional);
    var n := s.server.jobs[k].number;
    if Expects(s, k, bidirectional) {
      assert Awaited(s, k, n, bidirectional);
    } else {
      assert n !in s.table.pending;
    }
    assert t.table == Leave(s.table, n);
    RespondTable(s, t, k, bidirectional);
    RespondOut(s, t, k, bidirectional);
    RespondOrder(s, t, k, bidirectional);
  }

  lemma StepKeeps(s: State, st: Step, bidirectional: bool)
    requires Inv(s, bidirectional) && Enabled(s, st)
    ensures Inv(Apply(s, st, bidirectional), bidirectional)
  {
    hide Inv, Enabled, Apply;
    match st
    case OfServer(sv) => ServerKeeps(s, sv, bidirectional);
    case Serve(id, p) => ServeKeeps(s, id, p, bidirectional);
    case Respond(k, encoded) => RespondKeeps(s, k, encoded, bidirectional);
  }

  lemma {:induction false} RunKeeps(s: State, steps: seq<Step>, t: State, bidirectional: bool)
    requires Inv(s, bidirectional) && Exec(s, steps, bidirectional) == Some(t)
    ensures Inv(t, bidirectional)
    decreases |steps|
  {
    hide Inv;
    if steps != [] {
      StepKeeps(s, steps[0], bidirectional);
      RunKeeps(Apply(s, steps[0], bidirectional), steps[1..], t, bidirectional);
    }
  }

  lemma Always(s: State, bidirectional: bool)
    requires Reachable(s, bidirectional)
    ensures Inv(s, bidirectional)
  {
    var steps :| Exec(INIT, steps, bidirectional) == Some(s);
    SS.InitReachable();
    RunKeeps(INIT, steps, s, bidirectional);
  }

  // ---- Results -----------------------------------------------------------------------

  // Every response on the wire carries the id of the very request whose method produced
  // it, whatever the ids, the order of the handlers and the recycling of records; and no
  // request has two responses.
  lemma RightId(s: State, i: nat, j: nat, bidirectional: bool)
    requires Reachable(s, bidirectional) && i < |s.out| && j < |s.out|
    ensures var k := s.out[i].job;
            && k < |s.raws| && k < |s.server.jobs| && s.out[i].reply.id == s.raws[k]
            && s.server.jobs[k].answer.Some?
            && s.out[i].reply.text == s.server.jobs[k].answer.value.text
            && s.out[i].reply.body == s.server.jobs[k].answer.value.body
            && (!s.server.jobs[k].inReader ==>
                  && s.server.jobs[k].result.Some?
                  && s.server.jobs[k].answer == Some(S.Reply(s.server.jobs[k].number, s.server.jobs[k].result.value)))
    ensures i != j ==> s.out[i].job != s.out[j].job
  {
    Always(s, bidirectional);
    assert OutputOk(s, s.out[i], bidirectional);
    SR.OneResponsePerHeader(s.server, s.out[i].job);
  }

  // A response that the reader composed is an error, with the reason it had.
  lemma Refusals(s: State, i: nat, bidirectional: bool)
    requires Reachable(s, bidirectional) && i < |s.out| && s.out[i].job < |s.server.jobs|
    ensures s.server.jobs[s.out[i].job].inReader ==>
              s.out[i].reply.text != "" && s.server.jobs[s.out[i].job].reason == Some(s.out[i].reply.text)
  {
    Always(s, bidirectional);
    assert OutputOk(s, s.out[i], bidirectional);
    SR.OneResponsePerHeader(s.server, s.out[i].job);
  }

  // Notifications are never answered, in any run of the bidirectional codec (JSON-RPC 1.0
  // specification, section 1.3): their number is 0, because request records are zeroed,
  // and nothing is ever registered under 0.
  lemma NotificationsSilent(s: State, k: nat)
    requires Reachable(s, true) && k < |s.raws| && s.raws[k] == None
    ensures k < |s.server.jobs| && s.server.jobs[k].number == 0 && 0 !in s.table.pending
    ensures forall i :: 0 <= i < |s.out| ==> s.out[i].job != k
  {
    Always(s, true);
    forall i | 0 <= i < |s.out| ensures s.out[i].job != k {
      assert OutputOk(s, s.out[i], true);
    }
    assert forall j: nat :: !Awaited(s, j, 0, true);
  }

  // The table holds exactly the numbers of the requests that were read, expect an answer
  // and were not answered, each with its own id.
  lemma TableExact(s: State, n: nat, bidirectional: bool)
    requires Reachable(s, bidirectional)
    ensures n in s.table.pending <==> exists k: nat :: Awaited(s, k, n, bidirectional)
    ensures forall k: nat :: Awaited(s, k, n, bidirectional) ==> n in s.table.pending && s.table.pending[n] == s.raws[k]
  {
    Always(s, bidirectional);
  }

  // When the serving loop has closed the codec, every request that expects an answer has
  // its response on the wire, unless it could not be encoded, and the table is empty.
  lemma AllAnsweredAtClose(s: State, k: nat, bidirectional: bool)
    requires Reachable(s, bidirectional) && s.server.reader.Closed? && k < |s.raws| && Expects(s, k, bidirectional)
    ensures k in s.failed || Has(s.out, k)
    ensures s.table.pending == map[]
  {
    Always(s, bidirectional);
    SR.OneResponsePerHeader(s.server, k);
    assert Attempted(s, k, bidirectional);
    forall n | n in s.table.pending ensures false {
      var j: nat :| Awaited(s, j, n, bidirectional);
      SR.OneResponsePerHeader(s.server, j);
    }
  }

  // As long as every request expects an answer, as those of this library's client do, the
  // k-th request read, counting from 0, has number k + 1.
  lemma NumberedInOrder(s: State, k: nat, bidirectional: bool)
    requires Reachable(s, bidirectional) && NoNotifications(s, bidirectional) && k < |s.server.jobs|
    ensures s.server.jobs[k].number == k + 1
  {
    Always(s, bidirectional);
  }

  // Zeroing is necessary: in a record that still has the number of a request under
  // service, a notification would take that request's id and answer.
  lemma StaleRecordSteals(t: Table, n: nat, r: Response, out: seq<Reply>)
    requires n in t.pending && r.number == NumberFor(t, None, true, n)
    ensures JsonIds.Apply(Codec(Enter(t, None, true), out), Answer(r), true)
            == Codec(Leave(t, n), out + [Reply(t.pending[n], r.text, r.body)])
  {
  }
}
