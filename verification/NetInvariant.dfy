/** Two peers on shared streams are two independent links, and the invariant of a peer. */
module NetInvariant {
  import opened Protocol
  import opened Net
  import C = ClientMachine
  import CI = ClientInvariant
  import CR = ClientResults
  import CS = ClientSteps
  import S = ServerMachine
  import SI = ServerInvariant
  import SS = ServerSteps
  import L = Link
  import LI = LinkInvariant

  // ---- The two links ---------------------------------------------------------------

  function Requests(fs: seq<Frame>): seq<Request> {
    if fs == [] then []
    else (if fs[0].Asks? then [fs[0].request] else []) + Requests(fs[1..])
  }

  function Responses(fs: seq<Frame>): seq<Response> {
    if fs == [] then []
    else (if fs[0].Answers? then [fs[0].response] else []) + Responses(fs[1..])
  }

  lemma {:induction false} RequestsSnoc(fs: seq<Frame>, f: Frame)
    ensures Requests(fs + [f]) == Requests(fs) + (if f.Asks? then [f.request] else [])
    ensures Responses(fs + [f]) == Responses(fs) + (if f.Answers? then [f.response] else [])
    decreases |fs|
  {
    if fs == [] {
      assert ([] + [f])[1..] == [];
    } else {
      assert (fs + [f])[1..] == fs[1..] + [f];
      RequestsSnoc(fs[1..], f);
    }
  }

  // The link from the client half of `x` to the server half of the other peer.
  function LinkOf(n: State, x: Side): L.State {
    L.State(At(n, x).client, At(n, Flip(x)).server, Requests(At(n, x).out), Responses(At(n, Flip(x)).out))
  }

  // Every call and every request under way names a method.
  ghost predicate Named(p: Peer) {
    && (forall c :: 0 <= c < |p.client.calls| ==> NameOf(p.client.calls[c].payload) != "")
    && (forall i :: 0 <= i < |p.out| && p.out[i].Asks? ==> NameOf(p.out[i].request.payload) != "")
  }

  // The two halves of a peer see the same mutex and the same reader.
  ghost predicate Coupled(p: Peer) {
    && (forall k: nat :: p.client.req == C.ByWriter(k) <==> p.server.sending == Some(k))
    && (p.server.reader.Armed? || p.server.reader.Busy? ==> p.client.reader.Reading?)
    && (p.server.reader.Waiting? ==> OutOfLoop(p.client.reader))
    && (p.server.reader.Closed? ==> p.client.reader.Ended?)
  }

  ghost predicate PeerOk(p: Peer) {
    Named(p) && Coupled(p) && WaitsOk(p)
  }

  // A handler that waits is inside its method, and what it waits for is a `Call`.
  ghost predicate WaitsOk(p: Peer) {
    forall k :: k in p.waits ==> WaitOk(p, k)
  }

  ghost predicate WaitOk(p: Peer, k: nat)
    requires k in p.waits
  {
    && S.At(p.server, k, S.Running) && p.server.jobs[k].payload.Invoke?
    && p.waits[k] < |p.client.calls| && p.client.calls[p.waits[k]].kind == C.Sync
  }

  ghost predicate Inv(n: State) {
    && PeerOk(n.left) && PeerOk(n.right)
    && L.Reachable(LinkOf(n, Left)) && L.Reachable(LinkOf(n, Right))
  }

  // What a step of the net is for the link that starts at `x`.
  function LinkStep(n: State, st: Step, x: Side): Option<L.Step>
    requires Enabled(n, st)
  {
    var mine := st.x == x;
    match st
    case OfClient(_, cl) => if mine then Some(L.OfClient(cl)) else None
    case OfServer(_, sv) => if mine then None else Some(L.OfServer(sv))
    case Send(_, c, how) => if mine then Some(L.Send(c, how)) else None
    case Respond(_, k, sent) => if mine then None else Some(L.Respond(k, sent))
    case Acquire(_, k) =>
      Some(if mine then L.OfClient(C.OfConn(C.WriterLock(k))) else L.OfServer(S.OfJob(S.LockSending(k))))
    case Release(_, k) =>
      Some(if mine then L.OfClient(C.OfConn(C.WriterUnlock(k))) else L.OfServer(S.OfJob(S.UnlockSending(k))))
    case ReadHeader(_) =>
      (match Read(Incoming(n, st.x)[0])
       case Asks(q) => if mine then None else Some(L.Serve)
       case Answers(f) => Some(if mine then L.Hear else L.OfServer(S.OfReader(S.GotResponse))))
    case ReadEnd(_, e) =>
      Some(if mine then L.OfClient(C.OfConn(C.GotEnd(e))) else L.OfServer(S.OfReader(S.GotEnd)))
    case Quit(_) => if mine then None else Some(L.OfServer(S.OfReader(S.Quit)))
    case Shut(_) => if mine then None else Some(L.OfServer(S.OfReader(S.Shut)))
    case Nest(_, _, q) => if mine then Some(L.OfClient(C.OfCall(C.Begin(true, q)))) else None
    case Resume(_, _) => None
  }

  // The step of the net is this step of the link from `x`, or leaves the link alone.
  ghost predicate Projects(n: State, st: Step, x: Side)
    requires Enabled(n, st)
  {
    var ls := LinkStep(n, st, x);
    if ls.None? then LinkOf(Apply(n, st), x) == LinkOf(n, x)
    else L.Enabled(LinkOf(n, x), ls.value) && LinkOf(Apply(n, st), x) == L.Apply(LinkOf(n, x), ls.value)
  }

  lemma SendProjects(n: State, st: Step, x: Side)
    requires Enabled(n, st) && (st.Send? || st.Respond?)
    ensures Projects(n, st, x)
  {
    hide C.ApplyCall, S.ApplyJob, Requests, Responses;
    var p := At(n, st.x);
    match st
    case Send(z, c, how) =>
      RequestsSnoc(p.out, Asks(Request(p.client.calls[c].number, p.client.calls[c].payload)));
    case Respond(z, k, sent) => RequestsSnoc(p.out, Answers(p.server.jobs[k].answer.value));
  }

  lemma ReadProjects(n: State, st: Step, x: Side)
    requires Enabled(n, st) && st.ReadHeader? && Named(n.left) && Named(n.right)
    ensures Projects(n, st, x)
  {
    hide C.ApplyConn, S.ApplyRead, C.CanConn, S.CanRead;
    var fs := Incoming(n, st.x);
    assert Read(fs[0]) == fs[0];
  }

  lemma LocalProjects(n: State, st: Step, x: Side)
    requires Enabled(n, st) && !st.Send? && !st.Respond? && !st.ReadHeader? && !st.Nest?
    ensures Projects(n, st, x)
  {
    hide C.ApplyConn, C.ApplyCall, S.ApplyRead, S.ApplyJob, C.CanCall, C.CanConn, S.CanRead, S.CanJob, Requests, Responses;
  }

  lemma NestProjects(n: State, st: Step, x: Side)
    requires Enabled(n, st) && st.Nest?
    ensures Projects(n, st, x)
  {
    hide C.ApplyCall;
  }

  // Every step of the net is one step, or none, of each of its two links: the shared
  // stream, mutex and reader do not let the two directions interfere.
  lemma StepProjects(n: State, st: Step, x: Side)
    requires Enabled(n, st) && Named(n.left) && Named(n.right)
    ensures Projects(n, st, x)
  {
    hide Projects, Enabled, Named;
    match st
    case Send(_, _, _) => SendProjects(n, st, x);
    case Respond(_, _, _) => SendProjects(n, st, x);
    case ReadHeader(_) => ReadProjects(n, st, x);
    case Nest(_, _, _) => NestProjects(n, st, x);
    case _ => LocalProjects(n, st, x);
  }

  lemma {:induction false} LinkSnoc(l: L.State, steps: seq<L.Step>, m: L.State, st: L.Step)
    requires L.Exec(l, steps) == Some(m) && L.Enabled(m, st)
    ensures L.Exec(l, steps + [st]) == Some(L.Apply(m, st))
    decreases |steps|
  {
    if steps == [] {
      assert ([] + [st])[1..] == [];
      assert L.Exec(L.Apply(m, st), []) == Some(L.Apply(m, st));
    } else {
      LinkSnoc(L.Apply(l, steps[0]), steps[1..], m, st);
      assert (steps + [st])[1..] == steps[1..] + [st];
    }
  }

  lemma LinkStays(n: State, st: Step, x: Side)
    requires Inv(n) && Enabled(n, st)
    ensures L.Reachable(LinkOf(Apply(n, st), x))
  {
    StepProjects(n, st, x);
    var ls := LinkStep(n, st, x);
    if ls.Some? {
      var steps :| L.Exec(L.INIT, steps) == Some(LinkOf(n, x));
      LinkSnoc(L.INIT, steps, LinkOf(n, x), ls.value);
    }
  }

  // ---- Invariant ---------------------------------------------------------------------

  ghost predicate NamedCalls(s: C.State) {
    forall c :: 0 <= c < |s.calls| ==> NameOf(s.calls[c].payload) != ""
  }

  lemma CallKeepsPeer(s: C.State, st: C.CallStep, k: nat)
    requires CI.Inv(s) && C.CanCall(s, st) && NamedCalls(s) && (st.Begin? ==> NameOf(st.payload) != "")
    ensures NamedCalls(C.ApplyCall(s, st))
    ensures C.ApplyCall(s, st).req == C.ByWriter(k) <==> s.req == C.ByWriter(k)
    ensures s.reader == C.ApplyCall(s, st).reader
  {
    hide CI.Inv, NamedCalls, C.ApplyCall;
    CallNames(s, st);
    CallShares(s, st, k);
  }

  lemma CallNames(s: C.State, st: C.CallStep)
    requires C.CanCall(s, st) && NamedCalls(s) && (st.Begin? ==> NameOf(st.payload) != "")
    ensures NamedCalls(C.ApplyCall(s, st))
  {
  }

  lemma CallShares(s: C.State, st: C.CallStep, k: nat)
    requires C.CanCall(s, st)
    ensures C.ApplyCall(s, st).req == C.ByWriter(k) <==> s.req == C.ByWriter(k)
    ensures s.reader == C.ApplyCall(s, st).reader
  {
  }

  lemma ConnKeepsPeer(s: C.State, st: C.ConnStep, k: nat)
    requires CI.Inv(s) && C.CanConn(s, st) && NamedCalls(s)
    ensures NamedCalls(C.ApplyConn(s, st))
    ensures !st.WriterLock? && !st.WriterUnlock? ==>
              (C.ApplyConn(s, st).req == C.ByWriter(k) <==> s.req == C.ByWriter(k))
    ensures s.reader.Ended? ==> C.ApplyConn(s, st).reader.Ended?
    ensures OutOfLoop(s.reader) ==> OutOfLoop(C.ApplyConn(s, st).reader)
    ensures s.reader.Reading? && !st.GotHeader? && !st.GotEnd? ==> C.ApplyConn(s, st).reader.Reading?
  {
    hide CI.CallOk, CI.NamesOk, CI.WritesOk, CI.ReaderOk;
  }

  // Calls keep their kind.
  ghost predicate KindsKept(s: C.State, t: C.State) {
    |s.calls| <= |t.calls| && forall c :: 0 <= c < |s.calls| ==> t.calls[c].kind == s.calls[c].kind
  }

  lemma CallKinds(s: C.State, st: C.CallStep)
    requires C.CanCall(s, st)
    ensures KindsKept(s, C.ApplyCall(s, st))
  {
    forall c: nat | c < |s.calls|
      ensures c < |C.ApplyCall(s, st).calls| && C.ApplyCall(s, st).calls[c].kind == s.calls[c].kind
    {
      CR.CallKeepsKind(s, st, c);
    }
  }

  lemma ConnKinds(s: C.State, st: C.ConnStep)
    requires C.CanConn(s, st)
    ensures KindsKept(s, C.ApplyConn(s, st))
  {
    forall c: nat | c < |s.calls|
      ensures c < |C.ApplyConn(s, st).calls| && C.ApplyConn(s, st).calls[c].kind == s.calls[c].kind
    {
      CR.ConnKeepsKind(s, st, c);
    }
  }

  // A handler inside its method.
  predicate InMethod(s: S.State, k: nat) {
    S.At(s, k, S.Running) && s.jobs[k].payload.Invoke?
  }

  lemma JobStaysInMethod(s: S.State, st: S.JobStep, k: nat)
    requires S.CanJob(s, st) && InMethod(s, k) && !(st.Return? && st.k == k)
    ensures InMethod(S.ApplyJob(s, st), k)
  {
  }

  lemma ReadStaysInMethod(s: S.State, st: S.ReadStep, k: nat)
    requires S.CanRead(s, st) && InMethod(s, k)
    ensures InMethod(S.ApplyRead(s, st), k)
  {
  }

  // What the server half of a peer may do without the client half.
  predicate ServerMay(p: Peer, sv: S.Step) {
    && S.Enabled(p.server, sv) && (ServerAlone(sv) || (sv.OfJob? && sv.job.Respond?))
    && (sv == S.OfReader(S.Grab) ==> p.client.reader.Reading?)
    && (sv.OfJob? && sv.job.Return? ==> sv.job.k !in p.waits)
  }

  lemma ServerReadPeer(s: S.State, st: S.ReadStep)
    requires S.CanRead(s, st)
    ensures var t := S.ApplyRead(s, st);
            && t.sending == s.sending
            && (t.reader.Armed? || t.reader.Busy? ==> s.reader.Armed? || s.reader.Busy? || st.Grab?)
            && (t.reader.Waiting? ==> s.reader.Waiting? || st.GotEnd? || st.Quit?)
            && (t.reader.Closed? ==> s.reader.Closed? || st.Shut?)
  {
  }

  lemma ServerJobPeer(s: S.State, st: S.JobStep)
    requires S.CanJob(s, st)
    ensures !st.LockSending? && !st.UnlockSending? ==> S.ApplyJob(s, st).sending == s.sending
    ensures var t := S.ApplyJob(s, st);
            && (t.reader == s.reader || (s.reader.Busy? && t.reader == S.Top) || (st.Recycle? && t.reader == S.Top && s.jobs[st.k].inReader))
  {
  }

  lemma RecyclesWhileBusy(s: S.State, st: S.JobStep)
    requires SI.Inv(s) && S.CanJob(s, st) && st.Recycle? && s.jobs[st.k].inReader
    ensures s.reader.Busy?
  {
    assert SI.Readers(s.jobs[st.k]);
  }

  lemma WaitsKept(p: Peer, q: Peer)
    requires WaitsOk(p) && q.waits == p.waits && KindsKept(p.client, q.client)
    requires forall k :: k in p.waits && InMethod(p.server, k) ==> InMethod(q.server, k)
    ensures WaitsOk(q)
  {
    forall k | k in q.waits ensures WaitOk(q, k) {
      assert WaitOk(p, k);
    }
  }

  lemma ClientMoves(p: Peer, cl: C.Step)
    requires PeerOk(p) && CI.Inv(p.client) && ClientAlone(cl) && C.Enabled(p.client, cl)
    ensures PeerOk(p.(client := C.Apply(p.client, cl)))
  {
    hide CI.Inv, WaitsOk, KindsKept;
    var q := p.(client := C.Apply(p.client, cl));
    forall k: nat
      ensures C.Apply(p.client, cl).req == C.ByWriter(k) <==> p.client.req == C.ByWriter(k)
    {
      match cl
      case OfCall(cs) => CallKeepsPeer(p.client, cs, k);
      case OfConn(cs) => ConnKeepsPeer(p.client, cs, k);
    }
    match cl {
      case OfCall(cs) => CallKeepsPeer(p.client, cs, 0); CallKinds(p.client, cs);
      case OfConn(cs) => ConnKeepsPeer(p.client, cs, 0); ConnKinds(p.client, cs);
    }
    WaitsKept(p, q);
  }

  lemma ServerMoves(p: Peer, sv: S.Step)
    requires PeerOk(p) && SI.Inv(p.server) && ServerMay(p, sv)
    ensures PeerOk(p.(server := S.Apply(p.server, sv)))
  {
    hide SI.Inv, WaitsOk, InMethod;
    var q := p.(server := S.Apply(p.server, sv));
    forall k | k in p.waits && InMethod(p.server, k) ensures InMethod(q.server, k) {
      match sv
      case OfReader(rs) => ReadStaysInMethod(p.server, rs, k);
      case OfJob(js) => JobStaysInMethod(p.server, js, k);
    }
    WaitsKept(p, q);
    match sv {
      case OfReader(rs) => ServerReadPeer(p.server, rs);
      case OfJob(js) =>
        ServerJobPeer(p.server, js);
        if js.Recycle? && p.server.jobs[js.k].inReader { RecyclesWhileBusy(p.server, js); }
    }
  }

  lemma SendMoves(p: Peer, c: nat, how: C.Attempt)
    requires PeerOk(p) && CI.Inv(p.client) && C.CanCall(p.client, C.Write(c, how))
    ensures var r := p.client.calls[c];
            PeerOk(p.(client := C.ApplyCall(p.client, C.Write(c, how)),
                      out := if how.sent then p.out + [Asks(Request(r.number, r.payload))] else p.out))
  {
    hide CI.Inv, WaitsOk, KindsKept;
    forall k: nat
      ensures C.ApplyCall(p.client, C.Write(c, how)).req == C.ByWriter(k) <==> p.client.req == C.ByWriter(k)
    {
      CallKeepsPeer(p.client, C.Write(c, how), k);
    }
    CallKeepsPeer(p.client, C.Write(c, how), 0);
    CallKinds(p.client, C.Write(c, how));
    var r := p.client.calls[c];
    WaitsKept(p, p.(client := C.ApplyCall(p.client, C.Write(c, how)),
                    out := if how.sent then p.out + [Asks(Request(r.number, r.payload))] else p.out));
  }

  predicate OfTheReader(st: Step) {
    st.ReadHeader? || st.ReadEnd? || st.Quit? || st.Shut?
  }

  lemma ReaderWaits(n: State, st: Step)
    requires Enabled(n, st) && PeerOk(n.left) && PeerOk(n.right) && OfTheReader(st)
    ensures WaitsOk(Apply(n, st).left) && WaitsOk(Apply(n, st).right)
  {
    hide WaitsOk, KindsKept, S.ApplyRead, S.CanRead, C.CanConn, C.ApplyConn, InMethod, Coupled, Named;
    var p := At(n, st.x);
    match st {
      case ReadHeader(x) =>
        match Read(Incoming(n, x)[0]) {
          case Asks(q) => ReadKeepsMethods(p, S.GotRequest(q));
          case Answers(f) => ReadKeepsMethods(p, S.GotResponse); ConnKinds(p.client, C.GotHeader(f));
        }
      case ReadEnd(x, e) => ReadKeepsMethods(p, S.GotEnd); ConnKinds(p.client, C.GotEnd(e));
      case Quit(x) => ReadKeepsMethods(p, S.Quit);
      case Shut(x) => ReadKeepsMethods(p, S.Shut);
    }
    SameKinds(n.left.client);
    SameKinds(n.right.client);
    WaitsKept(n.left, Apply(n, st).left);
    WaitsKept(n.right, Apply(n, st).right);
  }

  lemma SameKinds(s: C.State)
    ensures KindsKept(s, s)
  {
  }

  lemma ReadKeepsMethods(p: Peer, st: S.ReadStep)
    requires S.CanRead(p.server, st)
    ensures forall k :: k in p.waits && InMethod(p.server, k) ==> InMethod(S.ApplyRead(p.server, st), k)
  {
    forall k | k in p.waits && InMethod(p.server, k) ensures InMethod(S.ApplyRead(p.server, st), k) {
      ReadStaysInMethod(p.server, st, k);
    }
  }

  lemma ReaderNames(n: State, st: Step)
    requires Enabled(n, st) && PeerOk(n.left) && PeerOk(n.right) && OfTheReader(st)
    ensures Named(Apply(n, st).left) && Named(Apply(n, st).right)
  {
    hide WaitsOk, Coupled, S.ApplyRead, S.CanRead, C.CanConn;
  }

  lemma ReaderCouples(n: State, st: Step, z: Side)
    requires Enabled(n, st) && PeerOk(At(n, z)) && OfTheReader(st)
    ensures Coupled(At(Apply(n, st), z))
  {
    hide WaitsOk, Named;
  }

  lemma ReaderMoves(n: State, st: Step)
    requires Enabled(n, st) && PeerOk(n.left) && PeerOk(n.right) && OfTheReader(st)
    ensures PeerOk(Apply(n, st).left) && PeerOk(Apply(n, st).right)
  {
    hide WaitsOk, Named, Coupled, Apply;
    ReaderNames(n, st);
    ReaderCouples(n, st, Left);
    ReaderCouples(n, st, Right);
    ReaderWaits(n, st);
  }

  lemma MutexMoves(p: Peer, k: nat, lock: bool)
    requires PeerOk(p) && SI.Inv(p.server)
    requires if lock then C.CanConn(p.client, C.WriterLock(k)) && S.CanJob(p.server, S.LockSending(k))
             else C.CanConn(p.client, C.WriterUnlock(k)) && S.CanJob(p.server, S.UnlockSending(k))
    ensures var cs := if lock then C.WriterLock(k) else C.WriterUnlock(k);
            var js := if lock then S.LockSending(k) else S.UnlockSending(k);
            PeerOk(p.(client := C.ApplyConn(p.client, cs), server := S.ApplyJob(p.server, js)))
  {
    hide SI.Inv, WaitsOk, KindsKept, InMethod;
    var cs := if lock then C.WriterLock(k) else C.WriterUnlock(k);
    var js := if lock then S.LockSending(k) else S.UnlockSending(k);
    ConnKinds(p.client, cs);
    forall j | j in p.waits && InMethod(p.server, j) ensures InMethod(S.ApplyJob(p.server, js), j) {
      JobStaysInMethod(p.server, js, j);
    }
    WaitsKept(p, p.(client := C.ApplyConn(p.client, cs), server := S.ApplyJob(p.server, js)));
  }

  lemma NestMoves(p: Peer, k: nat, q: Payload)
    requires PeerOk(p) && CI.Inv(p.client) && InMethod(p.server, k) && Proper(q) && NameOf(q) != ""
    ensures PeerOk(p.(client := C.ApplyCall(p.client, C.Begin(true, q)), waits := p.waits[k := |p.client.calls|]))
  {
    hide CI.Inv;
    var t := p.(client := C.ApplyCall(p.client, C.Begin(true, q)));
    ClientMoves(p, C.OfCall(C.Begin(true, q)));
    var u := t.(waits := p.waits[k := |p.client.calls|]);
    forall j | j in u.waits ensures WaitOk(u, j) {
      if j != k { assert WaitOk(t, j); }
    }
  }

  lemma ResumeMoves(p: Peer, k: nat)
    requires PeerOk(p)
    ensures PeerOk(p.(waits := p.waits - {k}))
  {
    forall j | j in p.waits && j != k ensures WaitOk(p.(waits := p.waits - {k}), j) {
      assert WaitOk(p, j);
    }
  }

  lemma StepKeeps(n: State, st: Step)
    requires Inv(n) && Enabled(n, st)
    ensures Inv(Apply(n, st))
  {
    hide Inv, L.Reachable, C.Reachable, S.Reachable, CI.Inv, SI.Inv, PeerOk, LinkOf;
    LinkStays(n, st, Left);
    LinkStays(n, st, Right);
    HalvesReachable(n, st.x);
    var p := At(n, st.x);
    CS.Always(p.client);
    SS.Always(p.server);
    PeersOk(n);
    match st {
      case OfClient(x, cl) => ClientMoves(p, cl);
      case OfServer(x, sv) => ServerMoves(p, sv);
      case Send(x, c, how) => SendMoves(p, c, how);
      case Respond(x, k, sent) =>
        ServerMoves(p, S.OfJob(S.Respond(k, sent)));
        RespondOut(p.(server := S.ApplyJob(p.server, S.Respond(k, sent))), p.server.jobs[k].answer.value);
      case Acquire(x, k) => MutexMoves(p, k, true);
      case Release(x, k) => MutexMoves(p, k, false);
      case Nest(x, k, q) => NestMoves(p, k, q);
      case Resume(x, k) => ResumeMoves(p, k);
      case _ => ReaderMoves(n, st);
    }
    PeersInv(Apply(n, st));
  }

  lemma RespondOut(p: Peer, f: Response)
    requires PeerOk(p)
    ensures PeerOk(p.(out := p.out + [Answers(f)]))
  {
    WaitsKept(p, p.(out := p.out + [Answers(f)]));
  }

  lemma PeersOk(n: State)
    requires Inv(n)
    ensures PeerOk(n.left) && PeerOk(n.right)
  {
  }

  lemma PeersInv(n: State)
    requires PeerOk(n.left) && PeerOk(n.right) && L.Reachable(LinkOf(n, Left)) && L.Reachable(LinkOf(n, Right))
    ensures Inv(n)
  {
  }

  lemma HalvesReachable(n: State, x: Side)
    requires Inv(n)
    ensures C.Reachable(At(n, x).client) && S.Reachable(At(n, x).server)
  {
    LI.Always(LinkOf(n, x));
    LI.Always(LinkOf(n, Flip(x)));
  }

  lemma {:induction false} RunKeeps(n: State, steps: seq<Step>, m: State)
    requires Inv(n) && Exec(n, steps) == Some(m)
    ensures Inv(m)
    decreases |steps|
  {
    hide Inv;
    if steps != [] {
      StepKeeps(n, steps[0]);
      RunKeeps(Apply(n, steps[0]), steps[1..], m);
    }
  }

  // In every run between two peers whose users name their methods, each direction is a
  // run of one link; so everything proved of links holds for both, although the two
  // peers use the same numbers on the same streams.
  lemma TwoLinks(n: State, x: Side)
    requires Reachable(n)
    ensures Inv(n) && L.Reachable(LinkOf(n, x))
  {
    var steps :| Exec(INIT, steps) == Some(n);
    assert L.Exec(L.INIT, []) == Some(L.INIT);
    assert LinkOf(INIT, Left) == L.INIT && LinkOf(INIT, Right) == L.INIT;
    RunKeeps(INIT, steps, n);
  }

  lemma {:induction false} ExecSnoc(n: State, steps: seq<Step>, m: State, st: Step)
    requires Exec(n, steps) == Some(m) && Enabled(m, st)
    ensures Exec(n, steps + [st]) == Some(Apply(m, st))
    decreases |steps|
  {
    hide Enabled, Apply;
    if steps == [] {
      assert ([] + [st])[1..] == [];
      assert Exec(Apply(m, st), []) == Some(Apply(m, st));
    } else {
      ExecSnoc(Apply(n, steps[0]), steps[1..], m, st);
      assert (steps + [st])[1..] == steps[1..] + [st];
    }
  }

  lemma Next(n: State, st: Step) returns (m: State)
    requires Reachable(n) && Enabled(n, st)
    ensures m == Apply(n, st) && Reachable(m)
  {
    hide Enabled, Apply;
    var steps :| Exec(INIT, steps) == Some(n);
    ExecSnoc(INIT, steps, n, st);
    m := Apply(n, st);
  }
}
