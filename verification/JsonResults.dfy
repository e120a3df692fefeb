/** The outcome round trip over JSON: although the server numbers the requests again, and
    whatever writes failed before, each call ends with the result of its own request,
    because the id carries the client's number there and back. */
module JsonResults {
  import opened Protocol
  import opened JsonIds
  import opened JsonLink
  import C = ClientMachine
  import CI = ClientInvariant
  import CS = ClientSteps
  import CR = ClientResults
  import S = ServerMachine
  import SR = ServerResults
  import LI = LinkInvariant
  import LR = LinkResults
  import JC = JsonCodec
  import JS = JsonServing

  // Job `k` of the server is the service of call `c`: its request carried the call's
  // number as id, its method and its arguments.
  predicate Serves(l: State, k: nat, c: nat) {
    && k < |l.json.server.jobs| && k < |l.json.raws| && c < |l.client.calls|
    && l.json.raws[k] == Some(Number(l.client.calls[c].number)) && l.client.calls[c].number != 0
    && l.json.server.jobs[k].payload == l.client.calls[c].payload
  }

  // The request with the number of a call as its id is that call's, and the only one.
  lemma ServedOnce(l: State, c: nat, k: nat, bidirectional: bool)
    requires Inv(l, bidirectional) && c < |l.client.calls| && k < |l.json.raws|
    requires NumberIn(l.json.raws[k]) == l.client.calls[c].number
    ensures Serves(l, k, c)
    ensures forall j: nat :: Serves(l, j, c) ==> j == k
  {
    hide C.Reachable, JS.Inv;
    CS.Always(l.client);
    assert CI.CallOk(l.client, c);
    assert LI.Asked(l.client, NumberIn(l.json.raws[k]), l.json.server.jobs[k].payload);
    forall j: nat | Serves(l, j, c) ensures j == k {
      IdsDiffer(l, j, k);
    }
  }

  lemma IdsDiffer(l: State, j: nat, k: nat)
    requires QueueOk(l) && j < |l.json.raws| && k < |l.json.raws| && NumberIn(l.json.raws[j]) == NumberIn(l.json.raws[k])
    ensures j == k
  {
    LI.SentIncreasing(l.client.writes);
    var ns := ClientNumbers(l.json.raws);
    assert ns[j] == LI.Sent(l.client.writes)[j] && ns[k] == LI.Sent(l.client.writes)[k];
  }

  // A frame the client holds for a call was composed by the job that serves the call.
  lemma AnswerIsOwn(l: State, c: nat, f: Response, bidirectional: bool) returns (k: nat)
    requires Inv(l, bidirectional) && c < |l.client.calls| && FromOut(l, f) && f.number == l.client.calls[c].number
    ensures Serves(l, k, c) && (forall j: nat :: Serves(l, j, c) ==> j == k)
    ensures var j := l.json.server.jobs[k];
            && j.attempts == 1 && j.answer.Some? && j.answer.value.text == f.text && j.answer.value.body == f.body
            && if j.inReader then f.text != "" && j.reason == Some(f.text)
               else j.result.Some? && f.text == S.Reply(j.number, j.result.value).text
                    && f.body == S.Reply(j.number, j.result.value).body
  {
    hide C.Reachable, JS.NumbersOk, JS.TableOk, JS.OrderOk;
    var i: nat :| Carries(l.json.out, l.heard, i, f);
    assert JS.OutputOk(l.json, l.json.out[i], bidirectional);
    k := l.json.out[i].job;
    ServedOnce(l, c, k, bidirectional);
    SR.OneResponsePerHeader(l.json.server, k);
  }

  // A call settled by a response has a frame of its own number.
  lemma HeardFor(l: State, c: nat, bidirectional: bool)
    requires Inv(l, bidirectional) && c < |l.client.calls| && l.client.calls[c].answer.Some? && l.client.calls[c].signals == 1
    ensures l.client.calls[c].answer.value.frame.number == l.client.calls[c].number
    ensures FromOut(l, l.client.calls[c].answer.value.frame)
  {
    hide JS.Inv, FromOut;
    CR.OutcomeExplained(l.client, c);
  }

  // A response without an id, read by `clientCodec`, reaches no call: the number it gets is
  // in no client's table, so it is discarded and the table stays as it is.
  lemma MissingIdReachesNobody(s: C.State, m: JC.Json, body: Value)
    requires C.Reachable(s) && m.id == None && JC.ResponseHeader(m, false).0.Good?
    requires var f := JC.ResponseHeader(m, false).1; s.reader == C.Matching(Response(f.number, f.text, body))
    ensures C.Matched(s).reader.waiter == None && C.Matched(s).table == s.table && C.Matched(s).calls == s.calls
  {
    CS.Always(s);
    assert s.table.pending - {0} == s.table.pending;
  }

  // Round trip: a call for which a response was read and decoded ends exactly as the
  // result of its own method says.
  lemma OutcomeRoundTrip(l: State, c: nat, k: nat, bidirectional: bool)
    requires Reachable(l, bidirectional) && Serves(l, k, c) && !l.json.server.jobs[k].inReader
    requires l.client.calls[c].signals == 1
    requires l.client.calls[c].answer.Some? && l.client.calls[c].answer.value.fail == None
    ensures l.json.server.jobs[k].result.Some?
    ensures var o := LR.Arrives(l.json.server.jobs[k].result.value);
            l.client.calls[c].outcome == o && l.client.calls[c].reply == if o.Ok? then Some(o.value) else None
  {
    hide Inv, Reachable;
    Always(l, bidirectional);
    HeardFor(l, c, bidirectional);
    var j := AnswerIsOwn(l, c, l.client.calls[c].answer.value.frame, bidirectional);
    ClientReachable(l, bidirectional);
    LR.AnsweredOutcome(l.client, c);
  }

  lemma ClientReachable(l: State, bidirectional: bool)
    requires Inv(l, bidirectional)
    ensures C.Reachable(l.client)
  {
  }

  // A call that ends without error has the value its own method returned.
  lemma OwnReply(l: State, c: nat, v: Value, bidirectional: bool)
    requires Reachable(l, bidirectional) && c < |l.client.calls| && l.client.calls[c].outcome == Ok(v)
    ensures exists k: nat :: Serves(l, k, c) && !l.json.server.jobs[k].inReader && l.json.server.jobs[k].result.Some?
                        && l.json.server.jobs[k].result.value.value == v
                        && (l.json.server.jobs[k].result.value.error == None
                            || l.json.server.jobs[k].result.value.error == Some(""))
  {
    hide Inv, Reachable, C.Reachable;
    Always(l, bidirectional);
    ClientReachable(l, bidirectional);
    CR.AtMostOneSignal(l.client, c);
    CR.OutcomeExplained(l.client, c);
    HeardFor(l, c, bidirectional);
    var k := AnswerIsOwn(l, c, l.client.calls[c].answer.value.frame, bidirectional);
  }

  // A ServerError carries the text that its own method returned, or the reason for which
  // the server refused this very request.
  lemma OwnError(l: State, c: nat, t: string, bidirectional: bool)
    requires Reachable(l, bidirectional) && c < |l.client.calls| && l.client.calls[c].outcome == Err(Error.Server(t))
    ensures t != ""
    ensures exists k: nat :: Serves(l, k, c) && l.json.server.jobs[k].attempts == 1
                        && if l.json.server.jobs[k].inReader
                           then l.json.server.jobs[k].reason == Some(t)
                           else l.json.server.jobs[k].result.Some? && l.json.server.jobs[k].result.value.error == Some(t)
  {
    hide Inv, Reachable, C.Reachable;
    Always(l, bidirectional);
    ClientReachable(l, bidirectional);
    CR.AtMostOneSignal(l.client, c);
    CR.OutcomeExplained(l.client, c);
    HeardFor(l, c, bidirectional);
    var k := AnswerIsOwn(l, c, l.client.calls[c].answer.value.frame, bidirectional);
  }
}
