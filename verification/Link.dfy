/** One direction of a connection: the client half of one peer, the server half of the
    other, and between them a queue of requests and a queue of responses. A write may
    fail with or without its frame going out, a read may fail at any time. */
module Link {
  import opened Protocol
  import C = ClientMachine
  import S = ServerMachine

  datatype State = State(client: C.State, server: S.State, requests: seq<Request>, responses: seq<Response>)

  const INIT: State := State(C.INIT, S.INIT, [], [])

  datatype Step =
    | OfClient(cl: C.Step)               // any step of the client half but the next two
    | Send(c: nat, how: C.Attempt)       // WriteRequest returns
    | Hear                               // ReadHeader of a response
    | OfServer(sv: S.Step)               // any step of the server half but the next two
    | Serve                              // ReadHeader of a request
    | Respond(k: nat, sent: bool)        // WriteResponse returns

  predicate OwnStep(st: C.Step) {
    !(st.OfCall? && st.call.Write?) && !(st.OfConn? && st.conn.GotHeader?)
  }

  predicate ServerOwnStep(st: S.Step) {
    !(st.OfReader? && st.read.GotRequest?) && !(st.OfJob? && st.job.Respond?)
  }

  predicate Enabled(l: State, st: Step) {
    match st
    case OfClient(cl) => OwnStep(cl) && C.Enabled(l.client, cl)
    case Send(c, how) => C.CanCall(l.client, C.Write(c, how))
    case Hear => l.responses != [] && C.CanConn(l.client, C.GotHeader(l.responses[0]))
    case OfServer(sv) => ServerOwnStep(sv) && S.Enabled(l.server, sv)
    case Serve => l.requests != [] && S.CanRead(l.server, S.GotRequest(l.requests[0]))
    case Respond(k, sent) => S.CanJob(l.server, S.Respond(k, sent))
  }

  function Apply(l: State, st: Step): State
    requires Enabled(l, st)
  {
    match st
    case OfClient(cl) => l.(client := C.Apply(l.client, cl))
    case Send(c, how) =>
      var r := l.client.calls[c];
      l.(client := C.ApplyCall(l.client, C.Write(c, how)),
         requests := if how.sent then l.requests + [Request(r.number, r.payload)] else l.requests)
    case Hear => l.(client := C.ApplyConn(l.client, C.GotHeader(l.responses[0])), responses := l.responses[1..])
    case OfServer(sv) => l.(server := S.Apply(l.server, sv))
    case Serve => l.(server := S.ApplyRead(l.server, S.GotRequest(l.requests[0])), requests := l.requests[1..])
    case Respond(k, sent) =>
      l.(server := S.ApplyJob(l.server, S.Respond(k, sent)),
         responses := if sent && l.server.jobs[k].answer.Some? then l.responses + [l.server.jobs[k].answer.value]
                      else l.responses)
  }

  function Exec(l: State, steps: seq<Step>): Option<State>
    decreases |steps|
  {
    if steps == [] then Some(l)
    else if Enabled(l, steps[0]) then Exec(Apply(l, steps[0]), steps[1..])
    else None
  }

  ghost predicate Reachable(l: State) {
    exists steps :: Exec(INIT, steps) == Some(l)
  }
}
