/** What two peers guarantee each other, and how a peer shuts down. */
module NetResults {
  import opened Protocol
  import opened Net
  import opened NetInvariant
  import C = ClientMachine
  import CI = ClientInvariant
  import CS = ClientSteps
  import CR = ClientResults
  import S = ServerMachine
  import SI = ServerInvariant
  import SS = ServerSteps
  import SR = ServerResults
  import L = Link
  import LR = LinkResults
  import PC = PendingCalls

  // Each number has at most one trace in either direction, and a reply is the reply to
  // one's own request.
  lemma NoMixUp(n: State, x: Side, number: nat, c: nat, v: Value)
    requires Reachable(n)
    ensures LR.Tokens(LinkOf(n, x), number) <= 1
    ensures c < |At(n, x).client.calls| && At(n, x).client.calls[c].outcome == Ok(v) ==>
              exists k: nat :: LR.Serves(LinkOf(n, x), k, c) && At(n, Flip(x)).server.jobs[k].result.Some?
                               && At(n, Flip(x)).server.jobs[k].result.value.value == v
  {
    TwoLinks(n, x);
    LR.OneToken(LinkOf(n, x), number);
    if c < |At(n, x).client.calls| && At(n, x).client.calls[c].outcome == Ok(v) {
      LR.OwnReply(LinkOf(n, x), c, v);
    }
  }

  // In either direction, if the users of `x` send no Cancel requests of their own, a
  // handler at the other peer sees its context done before it returns only because `x`
  // withdrew the very call it serves.
  lemma CancelJustified(n: State, x: Side, k: nat)
    requires Reachable(n) && !At(n, x).client.handmade && k < |At(n, Flip(x)).server.jobs|
    requires SR.ContextDone(At(n, Flip(x)).server, k)
    requires var p := At(n, Flip(x)).server.jobs[k].place; !p.Ending? && !p.Over?
    ensures exists c: nat :: LR.Serves(LinkOf(n, x), k, c) && At(n, x).client.calls[c].withdrawn
  {
    TwoLinks(n, x);
    LR.CancelJustified(LinkOf(n, x), k);
  }

  // A step of the party that holds the mutex.
  ghost function HolderStep(n: State, x: Side): Step
    requires At(n, x).client.req.BySender? ==> At(n, x).client.req.call < |At(n, x).client.calls|
    requires At(n, x).client.req.ByWriter? ==> At(n, x).client.req.job < |At(n, x).server.jobs|
  {
    var p := At(n, x);
    if p.client.req.ByWriter? then
      var k := p.client.req.job;
      if p.server.jobs[k].place.Responding? then Respond(x, k, true) else Release(x, k)
    else if p.client.req.BySender? && p.client.calls[p.client.req.call].place.Writing? then
      Send(x, p.client.req.call, C.Attempt(true, None))
    else OfClient(x, CR.HolderStep(p.client))
  }

  lemma WriterGoesOn(p: Peer)
    requires Coupled(p) && SI.Inv(p.server) && p.client.req.ByWriter?
    ensures var k := p.client.req.job;
            && k < |p.server.jobs| && p.server.jobs[k].answer.Some?
            && (S.CanJob(p.server, S.Respond(k, true)) || S.CanJob(p.server, S.UnlockSending(k)))
            && (p.server.jobs[k].place.Responding? <==> S.CanJob(p.server, S.Respond(k, true)))
  {
    var k := p.client.req.job;
    assert p.server.sending == Some(k);
    assert SI.JobOk(p.server, k);
  }

  // While the mutex is free, everyone who waits for it can have it.
  lemma FreeMutexGoes(n: State, x: Side)
    requires Reachable(n) && At(n, x).client.req == C.Free
    ensures var p := At(n, x);
            && (forall c: nat :: C.At(p.client, c, C.Wanting) ==> Enabled(n, OfClient(x, C.OfCall(C.Lock(c)))))
            && (forall k: nat :: S.At(p.server, k, S.Composed) ==> Enabled(n, Acquire(x, k)))
            && (p.client.reader.Stopping? ==> Enabled(n, OfClient(x, C.OfConn(C.StopLock))))
  {
    hide L.Reachable, Reachable, LinkOf, Named;
    TwoLinks(n, x);
    assert forall k: nat :: At(n, x).server.sending != Some(k);
  }

  lemma LocalHolderGoesOn(s: C.State)
    requires C.Reachable(s) && (s.req.BySender? || s.req == C.ByReader)
    ensures s.req.BySender? ==> s.req.call < |s.calls|
    ensures if s.req.BySender? && s.calls[s.req.call].place.Writing?
            then C.CanCall(s, C.Write(s.req.call, C.Attempt(true, None)))
            else C.Enabled(s, CR.HolderStep(s)) && ClientAlone(CR.HolderStep(s))
  {
    hide C.Reachable;
    CR.HoldersGoOn(s);
  }

  // No deadlock on locks: whoever holds the mutex that guards all writes of a peer can
  // take a step without waiting for another lock.
  lemma HolderGoesOn(n: State, x: Side)
    requires Reachable(n) && At(n, x).client.req != C.Free
    ensures var p := At(n, x);
            && (p.client.req.BySender? ==> p.client.req.call < |p.client.calls|)
            && (p.client.req.ByWriter? ==> p.client.req.job < |p.server.jobs|)
            && Enabled(n, HolderStep(n, x))
  {
    hide L.Reachable, Reachable, C.Reachable, S.Reachable, SI.Inv, LinkOf, Named, ClientAlone, CR.HolderStep;
    hide C.Enabled, C.CanCall, S.CanJob, S.CanRead, S.Enabled;
    TwoLinks(n, x);
    HalvesReachable(n, x);
    var p := At(n, x);
    if p.client.req.ByWriter? {
      SS.Always(p.server);
      WriterGoesOn(p);
    } else {
      LocalHolderGoesOn(p.client);
    }
  }

  // A step of the goroutine of call `c`.
  predicate ForCall(x: Side, c: nat, st: Step) {
    match st
    case OfClient(y, OfCall(cs)) => y == x && !cs.Begin? && cs.c == c
    case Send(y, d, _) => y == x && d == c
    case _ => false
  }

  // A step of the party that holds the writers' mutex: a sender, which may be in its own
  // WriteRequest, a response writer, which may be in its own WriteResponse, or the reader
  // in its termination section.
  predicate ForHolder(n: State, x: Side, st: Step) {
    match At(n, x).client.req
    case Free => false
    case BySender(c) => ForCall(x, c, st)
    case ByWriter(k) => (st.Respond? || st.Release?) && st.x == x && st.k == k
    case ByReader => st.OfClient? && st.x == x && st.cl.OfConn? && (st.cl.conn.StopBegin? || st.cl.conn.StopFail? || st.cl.conn.StopEnd?)
  }

  // A party that waits for the mutex takes it.
  predicate Takes(x: Side, st: Step) {
    match st
    case OfClient(y, OfCall(cs)) => y == x && cs.Lock?
    case OfClient(y, OfConn(cs)) => y == x && cs.StopLock?
    case Acquire(y, _) => y == x
    case _ => false
  }

  // Somebody at `x` waits for the writers' mutex, or `mutex` is held across steps.
  ghost predicate Contended(n: State, x: Side) {
    var p := At(n, x);
    || (exists c: nat :: C.At(p.client, c, C.Wanting))
    || (exists k: nat :: S.At(p.server, k, S.Composed))
    || p.client.reader.Stopping? || !C.MutexFree(p.client)
  }

  lemma SenderStepIsOwn(s: C.State)
    requires C.Reachable(s) && s.req.BySender?
    ensures s.req.call < |s.calls| && CR.SenderStep(s, s.req.call).c == s.req.call
    ensures !CR.SenderStep(s, s.req.call).Begin?
  {
    CS.Always(s);
  }

  lemma HolderStepIsOwn(n: State, x: Side)
    requires C.Reachable(At(n, x).client) && At(n, x).client.req != C.Free
    requires At(n, x).client.req.BySender? ==> At(n, x).client.req.call < |At(n, x).client.calls|
    requires At(n, x).client.req.ByWriter? ==> At(n, x).client.req.job < |At(n, x).server.jobs|
    ensures ForHolder(n, x, HolderStep(n, x))
  {
    hide C.Reachable, CR.SenderStep;
    if At(n, x).client.req.BySender? {
      SenderStepIsOwn(At(n, x).client);
    }
  }

  // Freedom from deadlock on locks: as long as anybody waits for a lock, the party that
  // holds the writers' mutex can take a step of its own, and if nobody holds it, a party
  // that waits for it can take it.
  lemma NoDeadlock(n: State, x: Side)
    requires Reachable(n) && Contended(n, x)
    ensures exists st: Step :: Enabled(n, st) && if At(n, x).client.req == C.Free then Takes(x, st) else ForHolder(n, x, st)
  {
    hide L.Reachable, Reachable, C.Reachable, S.Reachable, LinkOf, Named, CR.HolderStep, HolderStep, Inv, ForHolder;
    TwoLinks(n, x);
    HalvesReachable(n, x);
    var p := At(n, x);
    if p.client.req == C.Free {
      FreeMutexGoes(n, x);
      MutexHeldByReader(p.client);
      if c: nat :| C.At(p.client, c, C.Wanting) {
        assert Enabled(n, OfClient(x, C.OfCall(C.Lock(c)))) && Takes(x, OfClient(x, C.OfCall(C.Lock(c))));
      } else if k: nat :| S.At(p.server, k, S.Composed) {
        assert Enabled(n, Acquire(x, k)) && Takes(x, Acquire(x, k));
      } else {
        assert Enabled(n, OfClient(x, C.OfConn(C.StopLock))) && Takes(x, OfClient(x, C.OfConn(C.StopLock)));
      }
    } else {
      HolderGoesOn(n, x);
      HolderStepIsOwn(n, x);
      assert Enabled(n, HolderStep(n, x)) && ForHolder(n, x, HolderStep(n, x));
    }
  }

  lemma MutexHeldByReader(s: C.State)
    requires C.Reachable(s)
    ensures !C.MutexFree(s) ==> s.req == C.ByReader
  {
    CS.Always(s);
  }

  // When a peer closes its codec and cancels its connection's context, its termination
  // section is over, all its handlers have returned, and every call of its own is settled,
  // withdrawn, or still inside `send`, where it will be refused.
  lemma CleanShutdown(n: State, x: Side, c: nat)
    requires Reachable(n) && At(n, x).server.parentCancelled && c < |At(n, x).client.calls|
    ensures SR.AllOver(At(n, x).server) && At(n, x).waits == map[]
    ensures At(n, x).client.reader.Ended?
    ensures var r := At(n, x).client.calls[c]; r.signals == 1 || r.withdrawn || CI.Own(r.place)
  {
    TwoLinks(n, x);
    HalvesReachable(n, x);
    SR.DrainedAtClose(At(n, x).server);
    SS.Always(At(n, x).server);
    CR.NoLostCall(At(n, x).client, c);
    CoupledAt(n, x);
    assert forall k :: k in At(n, x).waits ==> WaitOk(At(n, x), k);
  }

  // ---- Shutting down with nested calls -------------------------------------------------

  // A step of the handler of job `k`; one that is inside `Call` only resumes.
  predicate ForJob(x: Side, k: nat, st: Step) {
    match st
    case OfServer(y, OfJob(js)) => y == x && js.k == k
    case Respond(y, j, _) => y == x && j == k
    case Acquire(y, j) => y == x && j == k
    case Release(y, j) => y == x && j == k
    case Resume(y, j) => y == x && j == k
    case _ => false
  }

  // The goroutine of call `c` waits for the writers' mutex, which another party holds.
  predicate WaitsForMutex(n: State, x: Side, c: nat) {
    C.At(At(n, x).client, c, C.Wanting) && At(n, x).client.req != C.Free
  }

  // What can move the goroutine of call `c` on: itself, or, only if it waits for the
  // mutex, the party that holds it.
  ghost predicate MovesSend(n: State, x: Side, c: nat, st: Step) {
    ForCall(x, c, st) || (WaitsForMutex(n, x, c) && ForHolder(n, x, st))
  }

  // What can move call `c` on: its goroutine, or, while it waits for the Cancel it sent,
  // the goroutine of that.
  ghost predicate MovesCall(n: State, x: Side, c: nat, st: Step) {
    || MovesSend(n, x, c, st)
    || (c < |At(n, x).client.calls| && At(n, x).client.calls[c].place.Awaiting?
        && MovesSend(n, x, At(n, x).client.calls[c].place.notice, st))
  }

  // What can move the handler of job `k` on: itself, the call it is inside of, or, only if
  // its answer waits for the mutex, the party that holds it.
  ghost predicate MovesHandler(n: State, x: Side, k: nat, st: Step) {
    || ForJob(x, k, st)
    || (k in At(n, x).waits && MovesCall(n, x, At(n, x).waits[k], st))
    || (S.At(At(n, x).server, k, S.Composed) && At(n, x).client.req != C.Free && ForHolder(n, x, st))
  }

  // A call that is inside `send` holds the mutex or waits for it.
  lemma SendingCallMoves(n: State, x: Side, c: nat)
    requires Reachable(n) && c < |At(n, x).client.calls|
    requires var p := At(n, x).client.calls[c].place; p.Wanting? || CI.Inside(p)
    ensures exists st: Step :: Enabled(n, st) && MovesSend(n, x, c, st)
  {
    hide L.Reachable, Reachable, C.Reachable, S.Reachable, LinkOf, Named, CR.HolderStep, HolderStep, Inv;
    TwoLinks(n, x);
    HalvesReachable(n, x);
    var s := At(n, x).client;
    InsideHolds(s, c);
    if s.req == C.Free {
      FreeMutexGoes(n, x);
      assert Enabled(n, OfClient(x, C.OfCall(C.Lock(c)))) && ForCall(x, c, OfClient(x, C.OfCall(C.Lock(c))));
    } else {
      HolderGoesOn(n, x);
      HolderStepIsOwn(n, x);
      assert Enabled(n, HolderStep(n, x)) && MovesSend(n, x, c, HolderStep(n, x));
    }
  }

  lemma InsideHolds(s: C.State, c: nat)
    requires C.Reachable(s) && c < |s.calls|
    ensures CI.Inside(s.calls[c].place) ==> s.req == C.BySender(c)
  {
    CS.Always(s);
  }

  // Once the termination section is over, no call waits for the network: every one that
  // has not returned can be moved on.
  lemma CallMoves(n: State, x: Side, c: nat)
    requires Reachable(n) && At(n, x).client.reader.Ended? && c < |At(n, x).client.calls|
    requires var p := At(n, x).client.calls[c].place; !p.Returned? && !p.Replied? && !p.GaveUp?
    ensures exists st: Step :: Enabled(n, st) && MovesCall(n, x, c, st)
  {
    hide L.Reachable, Reachable, C.Reachable, S.Reachable, LinkOf, Named, Inv, ForHolder;
    TwoLinks(n, x);
    HalvesReachable(n, x);
    var s := At(n, x).client;
    NeverRecalling(s, c);
    var p := s.calls[c].place;
    if p.Selecting? {
      CR.NestedCallersReleased(s, c);
      assert Enabled(n, OfClient(x, C.OfCall(C.Receive(c)))) && ForCall(x, c, OfClient(x, C.OfCall(C.Receive(c))));
    } else if p.Notifying? {
      assert Enabled(n, OfClient(x, C.OfCall(C.Notify(c)))) && ForCall(x, c, OfClient(x, C.OfCall(C.Notify(c))));
    } else if p.Awaiting? {
      NoticeInSend(s, c);
      if s.calls[p.notice].place.Returned? {
        assert Enabled(n, OfClient(x, C.OfCall(C.Leave(c)))) && ForCall(x, c, OfClient(x, C.OfCall(C.Leave(c))));
      } else {
        SendingCallMoves(n, x, p.notice);
        var st: Step :| Enabled(n, st) && MovesSend(n, x, p.notice, st);
        assert MovesCall(n, x, c, st);
      }
    } else {
      SendingCallMoves(n, x, c);
      var st: Step :| Enabled(n, st) && MovesSend(n, x, c, st);
      assert MovesCall(n, x, c, st);
    }
  }

  lemma NeverRecalling(s: C.State, c: nat)
    requires C.Reachable(s) && c < |s.calls|
    ensures !s.calls[c].place.Recalling?
  {
    CS.Always(s);
    assert CI.CallOk(s, c);
  }

  // The Cancel of a withdrawn call is not a `Call`, so it is in `send` or returned.
  lemma NoticeInSend(s: C.State, c: nat)
    requires C.Reachable(s) && c < |s.calls| && s.calls[c].place.Awaiting?
    ensures s.calls[c].place.notice < |s.calls|
    ensures var p := s.calls[s.calls[c].place.notice].place; p.Wanting? || CI.Inside(p) || p.Returned?
  {
    CS.Always(s);
    assert CI.CallOk(s, c);
    assert CI.CallOk(s, s.calls[c].place.notice);
  }

  // A handler's `Call` ends in call.Error or ctx.Err(), like any `Call`.
  lemma WaitedForIsCall(s: C.State, c: nat)
    requires C.Reachable(s) && c < |s.calls| && s.calls[c].kind == C.Sync
    ensures !s.calls[c].place.Returned?
  {
    CS.Always(s);
    assert CI.CallOk(s, c);
  }

  // The handler's own next step, when it does not wait for a lock or a call.
  lemma JobMoves(n: State, x: Side, k: nat)
    requires Reachable(n) && k < |At(n, x).server.jobs| && k !in At(n, x).waits
    requires SI.Active(At(n, x).server.jobs[k]) && !At(n, x).server.jobs[k].place.Composed?
    ensures exists st: Step :: Enabled(n, st) && MovesHandler(n, x, k, st)
  {
    hide L.Reachable, Reachable, C.Reachable, S.Reachable, LinkOf, Named, WaitsOk, Inv;
    TwoLinks(n, x);
    HalvesReachable(n, x);
    var s := At(n, x).server;
    SR.JobsGoOn(s, k);
    SR.SendingExclusive(s, k);
    CoupledAt(n, x);
    var js: S.JobStep :| js.k == k && !js.LockSending? && S.CanJob(s, js);
    if s.jobs[k].place.Responding? || s.jobs[k].place.Releasing? {
      HolderGoesOn(n, x);
      HolderStepIsOwn(n, x);
      assert Enabled(n, HolderStep(n, x)) && MovesHandler(n, x, k, HolderStep(n, x));
    } else {
      var st := OfServer(x, S.OfJob(js));
      assert Enabled(n, st) && MovesHandler(n, x, k, st);
    }
  }

  lemma CoupledAt(n: State, x: Side)
    requires Inv(n)
    ensures Coupled(At(n, x)) && WaitsOk(At(n, x))
  {
  }

  // Every handler that is not over can be moved on, also one that is blocked in a `Call`
  // over the connection that is shutting down.
  lemma HandlerMoves(n: State, x: Side, k: nat)
    requires Reachable(n) && At(n, x).client.reader.Ended? && k < |At(n, x).server.jobs|
    requires SI.Active(At(n, x).server.jobs[k])
    ensures exists st: Step :: Enabled(n, st) && MovesHandler(n, x, k, st)
  {
    hide L.Reachable, Reachable, C.Reachable, S.Reachable, LinkOf, Named, Inv, ForHolder, SI.Active;
    TwoLinks(n, x);
    HalvesReachable(n, x);
    CoupledAt(n, x);
    var p := At(n, x);
    if k in p.waits {
      assert WaitOk(p, k);
      var c := p.waits[k];
      WaitedForIsCall(p.client, c);
      if p.client.calls[c].place.Replied? || p.client.calls[c].place.GaveUp? {
        assert Enabled(n, Resume(x, k)) && MovesHandler(n, x, k, Resume(x, k));
      } else {
        CallMoves(n, x, c);
        var st: Step :| Enabled(n, st) && MovesCall(n, x, c, st);
        assert MovesHandler(n, x, k, st);
      }
    } else if p.server.jobs[k].place.Composed? {
      if p.client.req == C.Free {
        FreeMutexGoes(n, x);
        assert Enabled(n, Acquire(x, k)) && MovesHandler(n, x, k, Acquire(x, k));
      } else {
        HolderGoesOn(n, x);
        HolderStepIsOwn(n, x);
        assert Enabled(n, HolderStep(n, x)) && MovesHandler(n, x, k, HolderStep(n, x));
      }
    } else {
      JobMoves(n, x, k);
    }
  }

  // After the termination section `wg.Wait` is never stuck: as long as the codec is not
  // closed, the loop can be left, or the last handler is over and the codec can be closed,
  // or some handler that the wait group counts can be moved on.
  lemma ShutdownMoves(n: State, x: Side)
    requires Reachable(n) && At(n, x).client.reader.Ended? && !At(n, x).server.reader.Closed?
    ensures var s := At(n, x).server;
            || Enabled(n, Quit(x))
            || (s.wg == 0 && Enabled(n, Shut(x)))
            || exists k: nat, st: Step :: k < |s.jobs| && SI.Active(s.jobs[k]) && Enabled(n, st) && MovesHandler(n, x, k, st)
  {
    hide L.Reachable, Reachable, C.Reachable, S.Reachable, LinkOf, Named, WaitsOk, Inv, MovesHandler, SI.Active;
    TwoLinks(n, x);
    HalvesReachable(n, x);
    CoupledAt(n, x);
    var s := At(n, x).server;
    CountIsWg(s);
    if s.reader.Waiting? && s.wg > 0 {
      var k := SI.CountSome(s.jobs);
      HandlerMoves(n, x, k);
      var st: Step :| Enabled(n, st) && MovesHandler(n, x, k, st);
    }
  }

  lemma CountIsWg(s: S.State)
    requires S.Reachable(s)
    ensures s.wg == SI.CountActive(s.jobs)
  {
    SS.Always(s);
  }

  // Naming a method is necessary: a request without a method name, read by the peer, is
  // taken for a response and settles the peer's own call of that number with the
  // arguments as its reply.
  lemma UnnamedRequestMixesUp(n: State, x: Side, number: nat, args: Value)
    requires Incoming(n, x) != [] && Incoming(n, x)[0] == Asks(Request(number, Invoke("", args)))
    requires Enabled(n, ReadHeader(x))
    ensures At(Apply(n, ReadHeader(x)), x).client.reader == C.Matching(Response(number, "", args))
    ensures At(Apply(n, ReadHeader(x)), x).server.jobs == At(n, x).server.jobs
  {
  }

  // ---- A run that ends at a response body ----------------------------------------------

  const WORK := Invoke("Arith.Add", 1)
  const NO_METHOD := "can't find method"
  const REFUSAL := Response(1, NO_METHOD, INVALID_REQUEST)

  // The left peer's call, written and registered.
  function Asker(): C.State {
    C.State(PC.Table(1, map[1 := 0], false, false),
            [C.NewCall(C.Async, WORK).(mark := 1, number := 1, place := C.Returned)],
            C.Free, C.Reading, [0], [C.Attempt(true, None)], false)
  }

  lemma LeftAsks() returns (n: State)
    ensures Reachable(n)
    ensures n == State(Peer(Asker(), S.INIT, [Asks(Request(1, WORK))], map[]), Peer(C.INIT, S.INIT, [], map[]))
  {
    hide Reachable, S.CanJob, S.ApplyJob, S.CanRead, S.ApplyRead, C.CanConn, C.ApplyConn;
    Begun();
    var n1 := Next(INIT, OfClient(Left, C.OfCall(C.Begin(false, WORK))));
    var n2 := Next(n1, OfClient(Left, C.OfCall(C.Lock(0))));
    var n3 := Next(n2, OfClient(Left, C.OfCall(C.Enroll(0))));
    var n4 := Next(n3, Send(Left, 0, C.Attempt(true, None)));
    n := Next(n4, OfClient(Left, C.OfCall(C.Unlock(0))));
  }

  lemma Begun()
    ensures Reachable(INIT)
  {
    assert Exec(INIT, []) == Some(INIT);
  }

  lemma RightRefuses(n: State) returns (m: State)
    requires Reachable(n)
    requires n == State(Peer(Asker(), S.INIT, [Asks(Request(1, WORK))], map[]), Peer(C.INIT, S.INIT, [], map[]))
    ensures Reachable(m) && m.left == Peer(Asker(), S.INIT, [], map[]) && m.right.out == [Answers(REFUSAL)]
  {
    hide Reachable, C.CanCall, C.ApplyCall;
    var n1 := Next(n, OfServer(Right, S.OfReader(S.Grab)));
    var n2 := Next(n1, ReadHeader(Right));
    var n3 := Next(n2, OfServer(Right, S.OfReader(S.Reject(NO_METHOD))));
    var n4 := Next(n3, Acquire(Right, 0));
    m := Next(n4, Respond(Right, 0, true));
  }

  // The left peer's reader has settled the call and is about to stop.
  function Stopping(): C.State {
    Asker().(table := PC.Table(1, map[], false, false), reader := C.Stopping(BadErrorBody(Fault(1))),
             calls := [Asker().calls[0].(outcome := Err(Error.Server(NO_METHOD)), signals := 1,
                                         answer := Some(C.Heard(REFUSAL, Some(Fault(1)))))])
  }

  lemma LeftHears(n: State) returns (m: State)
    requires Reachable(n) && n.left == Peer(Asker(), S.INIT, [], map[]) && n.right.out == [Answers(REFUSAL)]
    ensures Reachable(m) && m.left.client == Stopping() && m.left.server.reader == S.Top && m.left.server.wg == 0
  {
    hide Reachable, C.CanCall, C.ApplyCall;
    var n1 := Next(n, OfServer(Left, S.OfReader(S.Grab)));
    var n2 := Next(n1, ReadHeader(Left));
    var n3 := Next(n2, OfClient(Left, C.OfConn(C.Match)));
    assert n3.left.client.table.pending == map[];
    var n4 := Next(n3, OfClient(Left, C.OfConn(C.GotBody(Some(Fault(1)), None))));
    m := Next(n4, OfClient(Left, C.OfConn(C.Answer)));
  }

  // The loop does end at a response whose body cannot be read, with no request record in
  // hand, and the peer closes its codec and cancels its connection's context all the same.
  lemma BodyFailureCloses()
    ensures exists n :: Reachable(n) && n.left.server.parentCancelled
                        && n.left.client.reader == C.Ended(BadErrorBody(Fault(1)))
  {
    hide Reachable, C.CanCall, C.ApplyCall;
    var n0 := LeftAsks();
    var n1 := RightRefuses(n0);
    var n2 := LeftHears(n1);
    var n3 := Next(n2, OfClient(Left, C.OfConn(C.StopLock)));
    var n4 := Next(n3, OfClient(Left, C.OfConn(C.StopBegin)));
    assert n4.left.client.reader.todo == {};
    var n5 := Next(n4, OfClient(Left, C.OfConn(C.StopEnd)));
    var n6 := Next(n5, Quit(Left));
    var n7 := Next(n6, Shut(Left));
  }
}
