/** The JSON server codec numbers the requests it reads 1, 2, 3, ... The exact relation
    of its numbers to those of this library's client, and when a Cancel that names the
    client's number addresses the right entry of the server's table. */
module Lockstep {
  import opened Protocol
  import opened JsonIds
  import opened JsonLink
  import C = ClientMachine
  import CI = ClientInvariant
  import CS = ClientSteps
  import S = ServerMachine
  import SR = ServerResults
  import LI = LinkInvariant
  import JS = JsonServing

  // How many of these writes put no frame on the wire.
  function Unsent(writes: seq<C.Attempt>): nat {
    if writes == [] then 0
    else Unsent(writes[..|writes| - 1]) + (if writes[|writes| - 1].sent then 0 else 1)
  }

  lemma {:induction false} SentCount(writes: seq<C.Attempt>)
    ensures |LI.Sent(writes)| + Unsent(writes) == |writes|
    decreases |writes|
  {
    if writes != [] {
      SentCount(writes[..|writes| - 1]);
    }
  }

  // The k-th frame carries number k + 1, plus one for each earlier write that failed.
  lemma {:induction false} SentShift(writes: seq<C.Attempt>, k: nat)
    requires k < |LI.Sent(writes)|
    ensures var n := LI.Sent(writes)[k]; 1 <= n <= |writes| && n == k + 1 + Unsent(writes[..n - 1])
    decreases |writes|
  {
    var n := |writes| - 1;
    var before := writes[..n];
    if k < |LI.Sent(before)| {
      SentShift(before, k);
      assert before[..LI.Sent(before)[k] - 1] == writes[..LI.Sent(writes)[k] - 1];
    } else {
      SentCount(before);
    }
  }

  lemma {:induction false} UnsentZero(writes: seq<C.Attempt>)
    ensures Unsent(writes) == 0 <==> forall i :: 0 <= i < |writes| ==> writes[i].sent
    decreases |writes|
  {
    if writes != [] {
      UnsentZero(writes[..|writes| - 1]);
    }
  }

  // Whether every number below `n` was written successfully.
  ghost predicate AllSentBelow(s: C.State, n: nat) {
    forall i :: 0 <= i < n - 1 && i < |s.writes| ==> s.writes[i].sent
  }

  // The client's number of the k-th request the server read.
  function ClientNumber(l: State, k: nat): nat
    requires k < |l.json.raws|
  {
    NumberIn(l.json.raws[k])
  }

  // The server codec's number of a request is the client's minus the failed writes before
  // it; so the two agree exactly when no earlier write failed.
  lemma NumbersInLockstep(l: State, k: nat, bidirectional: bool)
    requires Reachable(l, bidirectional) && k < |l.json.server.jobs|
    ensures k < |l.json.raws|
    ensures var n := ClientNumber(l, k);
            var m := l.json.server.jobs[k].number;
            && m == k + 1
            && 1 <= n <= |l.client.writes| && n == m + Unsent(l.client.writes[..n - 1])
            && (m == n <==> AllSentBelow(l.client, n))
  {
    hide C.Reachable, S.Reachable, JS.NumbersOk, JS.TableOk, JS.OutOk;
    Always(l, bidirectional);
    assert JS.NoNotifications(l.json, bidirectional);
    SentShift(l.client.writes, k);
    var n := ClientNumber(l, k);
    assert ClientNumbers(l.json.raws)[k] == n;
    assert LI.Sent(l.client.writes)[k] == n;
    UnsentZero(l.client.writes[..n - 1]);
  }

  // A Cancel names the client's number of request `k`; the request `j` that the server has
  // under this number is the same one exactly when no write before it failed.
  lemma CancelAddressesTheCall(l: State, k: nat, j: nat, bidirectional: bool)
    requires Reachable(l, bidirectional) && k < |l.json.server.jobs| && j < |l.json.server.jobs| == |l.json.raws|
    requires l.json.server.jobs[j].number == ClientNumber(l, k)
    ensures j == k <==> AllSentBelow(l.client, ClientNumber(l, k))
  {
    NumbersInLockstep(l, k, bidirectional);
    NumbersInLockstep(l, j, bidirectional);
  }

  ghost predicate AllSent(s: C.State) {
    forall i :: 0 <= i < |s.writes| ==> s.writes[i].sent
  }

  // The request the server serves as `k` is that of the client's call with the same number.
  lemma ServesItsCall(l: State, k: nat, c: nat, bidirectional: bool)
    requires Reachable(l, bidirectional) && AllSent(l.client)
    requires k < |l.json.server.jobs| && c < |l.client.calls| && l.client.calls[c].number == l.json.server.jobs[k].number
    ensures l.client.calls[c].payload == l.json.server.jobs[k].payload
  {
    hide C.Reachable, S.Reachable, JS.Inv;
    Always(l, bidirectional);
    NumbersInLockstep(l, k, bidirectional);
    CS.Always(l.client);
    assert CI.CallOk(l.client, c);
    assert LI.Asked(l.client, ClientNumber(l, k), l.json.server.jobs[k].payload);
  }

  // Whose context a Cancel can reach: unless a user sends Cancel requests of his own, a
  // handler's context is done before it returns only because the client withdrew a call
  // whose number is the server's number of this request; that call is the one this request
  // came from if and only if no write before it failed.
  lemma CancelReaches(l: State, k: nat, bidirectional: bool)
    requires Reachable(l, bidirectional) && !l.client.handmade && k < |l.json.server.jobs|
    requires SR.ContextDone(l.json.server, k)
    requires !(l.json.server.jobs[k].place.Ending? || l.json.server.jobs[k].place.Over?)
    ensures k < |l.json.raws|
    ensures exists c: nat :: c < |l.client.calls| && l.client.calls[c].withdrawn
                             && l.client.calls[c].number == l.json.server.jobs[k].number
                             && (ClientNumber(l, k) == l.client.calls[c].number <==> AllSentBelow(l.client, ClientNumber(l, k)))
  {
    hide C.Reachable, S.Reachable, JS.TableOk, JS.OutOk;
    Always(l, bidirectional);
    CS.Always(l.client);
    assert JS.NoNotifications(l.json, bidirectional);
    NumbersInLockstep(l, k, bidirectional);
    SR.EarlyCancelHasRequest(l.json.server, k);
    var n := l.json.server.jobs[k].number;
    var j: nat :| j < |l.json.server.jobs| && l.json.server.jobs[j].payload == CancelOf(n);
    assert LI.Asked(l.client, ClientNumber(l, j), CancelOf(n));
    var notice := l.client.names[ClientNumber(l, j) - 1];
    assert CI.CallOk(l.client, notice);
    var c := l.client.calls[notice].kind.of;
    assert CI.CallOk(l.client, c);
  }

  // So, as long as no write failed, early cancellation of a handler is justified by a
  // withdrawal of that very call, despite the second numbering.
  lemma CancelJustified(l: State, k: nat, bidirectional: bool)
    requires Reachable(l, bidirectional) && AllSent(l.client) && !l.client.handmade && k < |l.json.server.jobs|
    requires SR.ContextDone(l.json.server, k)
    requires !(l.json.server.jobs[k].place.Ending? || l.json.server.jobs[k].place.Over?)
    ensures exists c: nat :: c < |l.client.calls| && l.client.calls[c].withdrawn
                             && l.client.calls[c].number == l.json.server.jobs[k].number
                             && l.client.calls[c].payload == l.json.server.jobs[k].payload
  {
    hide Reachable;
    CancelReaches(l, k, bidirectional);
    var c: nat :| c < |l.client.calls| && l.client.calls[c].withdrawn
                  && l.client.calls[c].number == l.json.server.jobs[k].number;
    ServesItsCall(l, k, c, bidirectional);
  }
}
