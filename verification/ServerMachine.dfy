/** The server half of one connection as a state machine: the reader, which takes a
    request object and reads a header into it, the goroutines in `Service.call`, the
    free list of request objects and the table of cancel functions (`svc.Pending`).
    What arrives, what handlers return and whether writes succeed is arbitrary. */
module ServerMachine {
  import opened Protocol

  // A `Request` object of the free list; its `next` field is the list itself.
  datatype Object = Object(number: nat, name: string)

  const ZERO: Object := Object(0, "")

  // Who may use a request object.
  datatype Owner = InList | ByReader | ByJob(job: nat) | Dropped

  // History: where the cancel function of a job's context is.
  datatype Hook =
    | NotMade
    | InTable
    | InHand(taker: nat)       // `taker` took it out of the table and will run it
    | Ran(runner: nat)
    | Displaced(usurper: nat) // `usurper` registered under the same number

  // What a handler returned: the text of its error, if any, and what it put in the reply.
  datatype Result = Result(error: Option<string>, value: Value)

  datatype Place =
    | Header                       // the reader looks the method up and reads the body
    | Spawned                      // the goroutine exists
    | Running                      // the context is registered; the method runs
    | Cancelling(victim: Option<nat>) // `_goRPC_.Cancel` took this job's cancel function
    | Cancelled                    // and ran it
    | Composed                     // the response is composed, wants `sending`
    | Responding                   // holds `sending`, in WriteResponse
    | Releasing
    | Recycling                    // about to free the request object
    | Deferring                    // about to run the deferred `pending.Cancel`
    | Deferred(victim: Option<nat>) // took this job's cancel function
    | Ending                       // about to call wg.Done
    | Over

  // One request header that was read, and what became of it.
  datatype Job = Job(
    number: nat,             // history: what the header said
    payload: Payload,        // history: what header and body asked for
    slot: nat,               // the request object
    place: Place,
    inReader: bool,          // the reader itself answers
    started: bool,
    argument: nat,           // the argument of the deferred Cancel, fixed by `defer`
    result: Option<Result>,  // history: what the method returned
    reason: Option<string>,  // history: why the reader refused the request
    answer: Option<Response>,
    attempts: nat,           // history: calls of WriteResponse
    cancels: nat,            // history: how often its cancel function ran
    hook: Hook)

  datatype Reader = Top | Armed(slot: nat) | Busy(job: nat) | Waiting | Closed

  datatype State = State(
    heap: seq<Object>,
    owner: seq<Owner>,       // history: who may use each object
    free: seq<nat>,          // the free list, head first
    reader: Reader,
    jobs: seq<Job>,
    table: map<nat, nat>,    // svc.Pending.m: number -> job whose cancel function it is
    sending: Option<nat>,    // the job that holds the mutex `sending`
    wg: nat,
    parentCancelled: bool)

  const INIT: State := State([], [], [], Top, [], map[], None, 0, false)

  // Steps of the reader.
  datatype ReadStep =
    | Grab
    | GotRequest(request: Request)
    | GotResponse              // a response: the object goes back unused
    | GotEnd
    | Quit                     // the loop ends after a response whose body cannot be read
    | Accept
    | Reject(text: string)     // no such method, or a bad body
    | Shut

  // Steps of the goroutine, or of the reader, that serves a job.
  datatype JobStep =
    | Start(k: nat)
    | Return(k: nat, result: Result)
    | Take(k: nat)             // `_goRPC_.Cancel` looks its target up
    | Strike(k: nat)           // runs the cancel function it took
    | LockSending(k: nat)
    | Respond(k: nat, sent: bool)
    | UnlockSending(k: nat)
    | Recycle(k: nat)
    | Defer(k: nat)
    | Done(k: nat)

  datatype Step = OfReader(read: ReadStep) | OfJob(job: JobStep)

  // `sendResponse`: an error with an empty text counts as success.
  function Reply(n: nat, r: Result): Response {
    if r.error.Some? && r.error.value != "" then Response(n, r.error.value, INVALID_REQUEST)
    else Response(n, "", r.value)
  }

  predicate At(s: State, k: nat, p: Place) {
    k < |s.jobs| && s.jobs[k].place == p
  }

  predicate Enabled(s: State, st: Step) {
    match st
    case OfReader(rs) => CanRead(s, rs)
    case OfJob(js) => CanJob(s, js)
  }

  predicate CanRead(s: State, st: ReadStep) {
    match st
    case Grab => s.reader.Top? && (s.free != [] ==> s.free[0] < |s.heap| && |s.owner| == |s.heap|)
    case GotRequest(q) => s.reader.Armed? && s.reader.slot < |s.heap| && |s.owner| == |s.heap| && Proper(q.payload)
    case GotResponse => s.reader.Armed? && s.reader.slot < |s.owner|
    case GotEnd => s.reader.Armed? && s.reader.slot < |s.owner|
    case Quit => s.reader.Top?
    case Accept => s.reader.Busy? && At(s, s.reader.job, Header)
    case Reject(text) =>
      && s.reader.Busy? && At(s, s.reader.job, Header) && text != ""
      && s.jobs[s.reader.job].slot < |s.heap|
    case Shut => s.reader.Waiting? && s.wg == 0
  }

  predicate CanJob(s: State, st: JobStep) {
    match st
    case Start(k) => At(s, k, Spawned) && s.jobs[k].slot < |s.heap|
    case Return(k, result) =>
      && k < |s.jobs| && s.jobs[k].slot < |s.heap|
      && if s.jobs[k].payload.Invoke? then s.jobs[k].place.Running?
         else s.jobs[k].place.Cancelled? && result == Result(None, 0)
    case Take(k) => At(s, k, Running) && s.jobs[k].payload.CancelOf?
    case Strike(k) =>
      && k < |s.jobs| && (s.jobs[k].place.Cancelling? || s.jobs[k].place.Deferred?)
      && (s.jobs[k].place.victim.Some? ==> s.jobs[k].place.victim.value < |s.jobs|)
    case LockSending(k) => At(s, k, Composed) && s.sending == None
    case Respond(k, _) => At(s, k, Responding)
    case UnlockSending(k) => At(s, k, Releasing)
    case Recycle(k) => At(s, k, Recycling) && s.jobs[k].slot < |s.owner|
    case Defer(k) => At(s, k, Deferring)
    case Done(k) => At(s, k, Ending) && s.wg > 0
  }

  function Apply(s: State, st: Step): State
    requires Enabled(s, st)
  {
    match st
    case OfReader(rs) => ApplyRead(s, rs)
    case OfJob(js) => ApplyJob(s, js)
  }

  function ApplyRead(s: State, st: ReadStep): State
    requires CanRead(s, st)
  {
    match st
    case Grab => Grabbed(s)
    case GotRequest(q) =>
      var o := s.reader.slot;
      s.(heap := s.heap[o := Object(q.number, NameOf(q.payload))],
         owner := s.owner[o := ByJob(|s.jobs|)],
         jobs := s.jobs + [NewJob(q, o)],
         reader := Busy(|s.jobs|))
    case GotResponse =>
      s.(free := [s.reader.slot] + s.free, owner := s.owner[s.reader.slot := InList], reader := Top)
    case GotEnd => s.(owner := s.owner[s.reader.slot := Dropped], reader := Waiting)
    case Quit => s.(reader := Waiting)
    case Accept => Move(s, s.reader.job, Spawned).(wg := s.wg + 1, reader := Top)
    case Reject(text) =>
      var k := s.reader.job;
      var r := s.jobs[k];
      s.(jobs := s.jobs[k := r.(inReader := true, place := Composed, reason := Some(text),
                                answer := Some(Response(s.heap[r.slot].number, text, INVALID_REQUEST)))])
    case Shut => s.(reader := Closed, parentCancelled := true)
  }

  function ApplyJob(s: State, st: JobStep): State
    requires CanJob(s, st)
  {
    match st
    case Start(k) =>
      var n := s.heap[s.jobs[k].slot].number;
      var s1 := Hooked(s, Victim(s, n), Displaced(k));
      s1.(table := s.table[n := k],
          jobs := s1.jobs[k := s1.jobs[k].(started := true, argument := n, place := Running, hook := InTable)])
    case Return(k, result) => Answered(s, k, result)
    case Take(k) =>
      var t := s.jobs[k].payload.target;
      Hooked(Move(s, k, Cancelling(Victim(s, t))), Victim(s, t), InHand(k)).(table := s.table - {t})
    case Strike(k) =>
      Move(Struck(s, s.jobs[k].place.victim, k), k, if s.jobs[k].place.Cancelling? then Cancelled else Ending)
    case LockSending(k) => Move(s, k, Responding).(sending := Some(k))
    case Respond(k, _) =>
      s.(jobs := s.jobs[k := s.jobs[k].(attempts := s.jobs[k].attempts + 1, place := Releasing)])
    case UnlockSending(k) => Move(s, k, Recycling).(sending := None)
    case Recycle(k) => Recycled(s, k)
    case Defer(k) =>
      var n := s.jobs[k].argument;
      Hooked(Move(s, k, Deferred(Victim(s, n))), Victim(s, n), InHand(k)).(table := s.table - {n})
    case Done(k) => Move(s, k, Over).(wg := s.wg - 1)
  }

  function Move(s: State, k: nat, p: Place): State
    requires k < |s.jobs|
  {
    s.(jobs := s.jobs[k := s.jobs[k].(place := p)])
  }

  function NewJob(q: Request, o: nat): Job {
    Job(q.number, q.payload, o, Header, false, false, 0, None, None, None, 0, 0, NotMade)
  }

  // `getRequest`: the head of the free list, zeroed, or a new object.
  function Grabbed(s: State): State
    requires s.free != [] ==> s.free[0] < |s.heap| && |s.owner| == |s.heap|
  {
    if s.free == [] then
      s.(heap := s.heap + [ZERO], owner := s.owner + [ByReader], reader := Armed(|s.heap|))
    else
      var o := s.free[0];
      s.(heap := s.heap[o := ZERO], owner := s.owner[o := ByReader], free := s.free[1..], reader := Armed(o))
  }

  // The method returned; `sendResponse` composes the response from the request object.
  function Answered(s: State, k: nat, result: Result): State
    requires k < |s.jobs| && s.jobs[k].slot < |s.heap|
  {
    var r := s.jobs[k];
    s.(jobs := s.jobs[k := r.(result := Some(result), place := Composed,
                              answer := Some(Reply(s.heap[r.slot].number, result)))])
  }

  // `freeRequest`, after which the reader goes on or the deferred calls run.
  function Recycled(s: State, k: nat): State
    requires k < |s.jobs| && s.jobs[k].slot < |s.owner|
  {
    var o := s.jobs[k].slot;
    Move(s, k, if s.jobs[k].inReader then Over else Deferring)
      .(free := [o] + s.free, owner := s.owner[o := InList],
        reader := if s.jobs[k].inReader then Top else s.reader)
  }

  // `cancel, ok := s.m[n]`.
  function Victim(s: State, n: nat): Option<nat> {
    if n in s.table then Some(s.table[n]) else None
  }

  // Job `k` runs the cancel function of `victim`.
  function Struck(s: State, victim: Option<nat>, k: nat): State
    requires victim.Some? ==> victim.value < |s.jobs|
  {
    if victim.None? then s
    else
      var v := s.jobs[victim.value];
      s.(jobs := s.jobs[victim.value := v.(cancels := v.cancels + 1, hook := Ran(k))])
  }

  // Keeps the history of the cancel function of `victim`.
  function Hooked(s: State, victim: Option<nat>, h: Hook): (t: State)
    ensures |t.jobs| == |s.jobs|
  {
    if victim.Some? && victim.value < |s.jobs| then
      s.(jobs := s.jobs[victim.value := s.jobs[victim.value].(hook := h)])
    else s
  }

  function Exec(s: State, steps: seq<Step>): Option<State>
    decreases |steps|
  {
    if steps == [] then Some(s)
    else if Enabled(s, steps[0]) then Exec(Apply(s, steps[0]), steps[1..])
    else None
  }

  ghost predicate Reachable(s: State) {
    exists steps :: Exec(INIT, steps) == Some(s)
  }
}
