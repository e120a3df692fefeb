/** Two peers of a bidirectional connection. Each has a client half and a server half that
    share one reader, one writer mutex and one stream in each direction; both number
    their requests from 1. Handlers may call back over the connection they serve. */
module Net {
  import opened Protocol
  import C = ClientMachine
  import S = ServerMachine

  // One message on the wire: header and body.
  datatype Frame = Asks(request: Request) | Answers(response: Response)

  // `waits`: the handlers that are inside `Call` over this same connection, and which call.
  datatype Peer = Peer(client: C.State, server: S.State, out: seq<Frame>, waits: map<nat, nat>)

  datatype State = State(left: Peer, right: Peer)

  datatype Side = Left | Right

  const INIT: State := State(Peer(C.INIT, S.INIT, [], map[]), Peer(C.INIT, S.INIT, [], map[]))

  function Flip(x: Side): Side {
    if x.Left? then Right else Left
  }

  function At(n: State, x: Side): Peer {
    if x.Left? then n.left else n.right
  }

  function With(n: State, x: Side, p: Peer): State {
    if x.Left? then n.(left := p) else n.(right := p)
  }

  // What arrives at `x`.
  function Incoming(n: State, x: Side): seq<Frame> {
    At(n, Flip(x)).out
  }

  // `ReadHeader`: the kind of a message is decided by its method name. The gob codec
  // reads a request without a method name as a response.
  function Read(f: Frame): Frame {
    match f
    case Asks(q) => if NameOf(q.payload) != "" then f
                    else Answers(Response(q.number, "", if q.payload.Invoke? then q.payload.args else 0))
    case Answers(_) => f
  }

  datatype Step =
    | OfClient(x: Side, cl: C.Step)
    | OfServer(x: Side, sv: S.Step)
    | Send(x: Side, c: nat, how: C.Attempt)
    | Respond(x: Side, k: nat, sent: bool)
    | Acquire(x: Side, k: nat)           // a response writer takes the shared mutex
    | Release(x: Side, k: nat)
    | ReadHeader(x: Side)
    | ReadEnd(x: Side, cause: IoError)
    | Quit(x: Side)                      // the loop ends after a response's body failed
    | Shut(x: Side)
    | Nest(x: Side, k: nat, payload: Payload) // a handler calls back: `ctx.Client.Call`
    | Resume(x: Side, k: nat)            // its `Call` has returned

  // Steps of the client half that involve neither the wire nor the server half. A user
  // names a method.
  predicate ClientAlone(st: C.Step) {
    match st
    case OfCall(cs) => !cs.Write? && (cs.Begin? ==> NameOf(cs.payload) != "")
    case OfConn(cs) => !cs.GotHeader? && !cs.GotEnd? && !cs.WriterLock? && !cs.WriterUnlock?
  }

  predicate ServerAlone(st: S.Step) {
    match st
    case OfReader(rs) => rs.Grab? || rs.Accept? || rs.Reject?
    case OfJob(js) => !js.LockSending? && !js.Respond? && !js.UnlockSending?
  }

  // The reader has left its loop.
  predicate OutOfLoop(r: C.Reader) {
    r.Stopping? || r.Holding? || r.Draining? || r.Ended?
  }

  predicate Enabled(n: State, st: Step) {
    var p := At(n, st.x);
    match st
    case OfClient(x, cl) => ClientAlone(cl) && C.Enabled(p.client, cl)
    case OfServer(x, sv) =>
      && ServerAlone(sv) && S.Enabled(p.server, sv)
      && (sv == S.OfReader(S.Grab) ==> p.client.reader.Reading?)
      && (sv.OfJob? && sv.job.Return? ==> sv.job.k !in p.waits)
    case Send(x, c, how) => C.CanCall(p.client, C.Write(c, how))
    case Respond(x, k, sent) => S.CanJob(p.server, S.Respond(k, sent)) && p.server.jobs[k].answer.Some?
    case Acquire(x, k) => C.CanConn(p.client, C.WriterLock(k)) && S.CanJob(p.server, S.LockSending(k))
    case Release(x, k) => C.CanConn(p.client, C.WriterUnlock(k)) && S.CanJob(p.server, S.UnlockSending(k))
    case ReadHeader(x) =>
      && Incoming(n, x) != [] && p.client.reader.Reading?
      && (match Read(Incoming(n, x)[0])
          case Asks(q) => S.CanRead(p.server, S.GotRequest(q))
          case Answers(f) => C.CanConn(p.client, C.GotHeader(f)) && S.CanRead(p.server, S.GotResponse))
    case ReadEnd(x, e) => C.CanConn(p.client, C.GotEnd(e)) && S.CanRead(p.server, S.GotEnd)
    case Quit(x) => OutOfLoop(p.client.reader) && S.CanRead(p.server, S.Quit)
    case Shut(x) => p.client.reader.Ended? && S.CanRead(p.server, S.Shut)
    case Nest(x, k, q) =>
      && S.At(p.server, k, S.Running) && p.server.jobs[k].payload.Invoke? && k !in p.waits
      && Proper(q) && NameOf(q) != ""
    case Resume(x, k) =>
      && k in p.waits && p.waits[k] < |p.client.calls|
      && (p.client.calls[p.waits[k]].place.Replied? || p.client.calls[p.waits[k]].place.GaveUp?)
  }

  function Apply(n: State, st: Step): State
    requires Enabled(n, st)
  {
    var p := At(n, st.x);
    match st
    case OfClient(x, cl) => With(n, x, p.(client := C.Apply(p.client, cl)))
    case OfServer(x, sv) => With(n, x, p.(server := S.Apply(p.server, sv)))
    case Send(x, c, how) =>
      var r := p.client.calls[c];
      With(n, x, p.(client := C.ApplyCall(p.client, C.Write(c, how)),
                    out := if how.sent then p.out + [Asks(Request(r.number, r.payload))] else p.out))
    case Respond(x, k, sent) =>
      With(n, x, p.(server := S.ApplyJob(p.server, S.Respond(k, sent)),
                    out := if sent then p.out + [Answers(p.server.jobs[k].answer.value)] else p.out))
    case Acquire(x, k) =>
      With(n, x, p.(client := C.ApplyConn(p.client, C.WriterLock(k)),
                    server := S.ApplyJob(p.server, S.LockSending(k))))
    case Release(x, k) =>
      With(n, x, p.(client := C.ApplyConn(p.client, C.WriterUnlock(k)),
                    server := S.ApplyJob(p.server, S.UnlockSending(k))))
    case ReadHeader(x) =>
      var y := Flip(x);
      var q := At(n, y);
      var n1 := With(n, y, q.(out := q.out[1..]));
      (match Read(q.out[0])
       case Asks(r) => With(n1, x, p.(server := S.ApplyRead(p.server, S.GotRequest(r))))
       case Answers(f) => With(n1, x, p.(client := C.ApplyConn(p.client, C.GotHeader(f)),
                                         server := S.ApplyRead(p.server, S.GotResponse))))
    case ReadEnd(x, e) =>
      With(n, x, p.(client := C.ApplyConn(p.client, C.GotEnd(e)), server := S.ApplyRead(p.server, S.GotEnd)))
    case Quit(x) => With(n, x, p.(server := S.ApplyRead(p.server, S.Quit)))
    case Shut(x) => With(n, x, p.(server := S.ApplyRead(p.server, S.Shut)))
    case Nest(x, k, q) =>
      With(n, x, p.(client := C.ApplyCall(p.client, C.Begin(true, q)), waits := p.waits[k := |p.client.calls|]))
    case Resume(x, k) => With(n, x, p.(waits := p.waits - {k}))
  }

  function Exec(n: State, steps: seq<Step>): Option<State>
    decreases |steps|
  {
    if steps == [] then Some(n)
    else if Enabled(n, steps[0]) then Exec(Apply(n, steps[0]), steps[1..])
    else None
  }

  ghost predicate Reachable(n: State) {
    exists steps :: Exec(INIT, steps) == Some(n)
  }
}
