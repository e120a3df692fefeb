/** The client half of one connection as a state machine: every goroutine in `send`,
    `Go` or `Call`, and the reader `input` with its termination sequence. One step is
    one critical section, one codec operation or one channel operation. What the codec
    reads and whether its writes succeed is arbitrary, so the peer is arbitrary. */
module ClientMachine {
  import opened Protocol
  import opened PendingCalls

  // `Go` called by a user, `Call`, or the `Go` by which a `Call` reports its withdrawal.
  datatype Kind = Async | Sync | Notice(of: nat)

  // Where the goroutine of a call is: in `send`, then, for `Call`, in its select.
  datatype Place =
    | Wanting                             // waits for reqMutex
    | Locked                              // holds reqMutex
    | Refusing                            // the connection is shut down
    | Recalling                           // "already canceled"
    | Writing                             // registered, in WriteRequest
    | Broken(cause: IoError)              // WriteRequest failed
    | Failing(found: nat, cause: IoError) // took `found` back from the table
    | Leaving                             // about to release reqMutex
    | Returned                            // `Go` returned
    | Selecting                           // `Call` waits for its signal or its context
    | Notifying(number: nat)              // withdrew, about to send the Cancel
    | Awaiting(notice: nat)               // the Cancel's `Go` runs
    | Replied(result: Outcome)            // `Call` returned call.Error
    | GaveUp                              // `Call` returned ctx.Err()

  datatype Heard = Heard(frame: Response, fail: Option<IoError>)

  datatype Call = Call(
    kind: Kind,
    payload: Payload,
    mark: nat,             // the field call.seq
    place: Place,
    outcome: Outcome,      // call.Error, or success
    reply: Option<Value>,  // what *call.Reply was set to
    number: nat,           // history: the number it was registered under, 0 if none
    withdrawn: bool,       // history: its Call removed it from the table
    notice: Option<nat>,   // history: the call that carries its Cancel
    answer: Option<Heard>, // history: the response read for it
    signals: nat)          // history: how often done() ran

  datatype Holder = Free | BySender(call: nat) | ByReader | ByWriter(job: nat)

  datatype Reader =
    | Reading
    | Matching(frame: Response)
    | Decoding(frame: Response, waiter: Option<nat>)
    | Answering(call: nat, outcome: Outcome, stop: Option<Error>)
    | Stopping(cause: Error)              // waits for reqMutex
    | Holding(cause: Error)               // has reqMutex, takes mutex
    | Draining(error: Error, todo: set<nat>)
    | Ended(error: Error)

  // How a WriteRequest ended: a frame may go out although it reports an error.
  datatype Attempt = Attempt(sent: bool, fail: Option<IoError>)

  datatype State = State(
    table: Table<nat>,
    calls: seq<Call>,
    req: Holder,            // who holds reqMutex
    reader: Reader,
    names: seq<nat>,        // history: names[n - 1] is the call registered as n
    writes: seq<Attempt>,   // history: WriteRequest calls that returned, in order
    handmade: bool)         // history: a user sent a `_goRPC_.Cancel` of his own

  const INIT: State := State(EMPTY, [], Free, Reading, [], [], false)

  // Steps of the goroutines in `Go` and `Call`.
  datatype CallStep =
    | Begin(sync: bool, payload: Payload)
    | Lock(c: nat)
    | Enroll(c: nat)
    | Refuse(c: nat)
    | Recall(c: nat)
    | Write(c: nat, how: Attempt)
    | Reclaim(c: nat)
    | FailWrite(c: nat)
    | Unlock(c: nat)
    | Receive(c: nat)
    | Withdraw(c: nat)      // its context is done
    | Notify(c: nat)
    | Leave(c: nat)

  // Steps of the reader, of Close, and of other writers that share reqMutex.
  datatype ConnStep =
    | Close
    | GotHeader(frame: Response)
    | GotEnd(cause: IoError)
    | Match
    | GotBody(fail: Option<IoError>, junk: Option<Value>)
    | Answer
    | StopLock
    | StopBegin
    | StopFail(n: nat)
    | StopEnd
    | WriterLock(job: nat)
    | WriterUnlock(job: nat)

  datatype Step = OfCall(call: CallStep) | OfConn(conn: ConnStep)

  // Only the termination section keeps `mutex` across steps.
  predicate MutexFree(s: State) {
    !s.reader.Draining?
  }

  predicate At(s: State, c: nat, p: Place) {
    c < |s.calls| && s.calls[c].place == p
  }

  predicate Enabled(s: State, st: Step) {
    match st
    case OfCall(cs) => CanCall(s, cs)
    case OfConn(cs) => CanConn(s, cs)
  }

  predicate CanCall(s: State, st: CallStep) {
    match st
    case Begin(_, p) => Proper(p)
    case Lock(c) => At(s, c, Wanting) && s.req == Free
    case Enroll(c) => At(s, c, Locked) && MutexFree(s)
    case Refuse(c) => At(s, c, Refusing)
    case Recall(c) => At(s, c, Recalling)
    case Write(c, how) => At(s, c, Writing) && (how.sent || how.fail.Some?)
    case Reclaim(c) => c < |s.calls| && s.calls[c].place.Broken? && MutexFree(s)
    case FailWrite(c) =>
      c < |s.calls| && s.calls[c].place.Failing? && s.calls[c].place.found < |s.calls|
    case Unlock(c) => At(s, c, Leaving) && s.req == BySender(c)
    case Receive(c) => At(s, c, Selecting) && s.calls[c].signals > 0
    case Withdraw(c) => At(s, c, Selecting) && MutexFree(s)
    case Notify(c) => c < |s.calls| && s.calls[c].place.Notifying?
    case Leave(c) =>
      c < |s.calls| && s.calls[c].place.Awaiting? && At(s, s.calls[c].place.notice, Returned)
  }

  predicate CanConn(s: State, st: ConnStep) {
    match st
    case Close => MutexFree(s)
    case GotHeader(_) => s.reader.Reading?
    case GotEnd(_) => s.reader.Reading?
    case Match => s.reader.Matching? && MutexFree(s)
    case GotBody(_, _) =>
      s.reader.Decoding? && (s.reader.waiter.Some? ==> s.reader.waiter.value < |s.calls|)
    case Answer => s.reader.Answering? && s.reader.call < |s.calls|
    case StopLock => s.reader.Stopping? && s.req == Free
    case StopBegin => s.reader.Holding?
    case StopFail(n) =>
      && s.reader.Draining? && n in s.reader.todo
      && n in s.table.pending && s.table.pending[n] < |s.calls|
    case StopEnd => s.reader.Draining? && s.reader.todo == {}
    case WriterLock(_) => s.req == Free
    case WriterUnlock(k) => s.req == ByWriter(k)
  }

  function NewCall(kind: Kind, payload: Payload): Call {
    Call(kind, payload, 0, Wanting, Unsettled, None, 0, false, None, None, 0)
  }

  function Move(s: State, c: nat, p: Place): State
    requires c < |s.calls|
  {
    s.(calls := s.calls[c := s.calls[c].(place := p)])
  }

  // `call.Error = ...; call.done()`.
  function Signal(s: State, c: nat, o: Outcome): State
    requires c < |s.calls|
  {
    s.(calls := s.calls[c := s.calls[c].(outcome := o, signals := s.calls[c].signals + 1)])
  }

  function Apply(s: State, st: Step): State
    requires Enabled(s, st)
  {
    match st
    case OfCall(cs) => ApplyCall(s, cs)
    case OfConn(cs) => ApplyConn(s, cs)
  }

  function ApplyCall(s: State, st: CallStep): State
    requires CanCall(s, st)
  {
    match st
    case Begin(sync, p) =>
      s.(calls := s.calls + [NewCall(if sync then Sync else Async, p)],
         handmade := s.handmade || p.CancelOf?)
    case Lock(c) => Move(s, c, Locked).(req := BySender(c))
    case Enroll(c) => Enrolled(s, c)
    case Refuse(c) => Move(Signal(s, c, Err(Shutdown)), c, Leaving)
    case Recall(c) => Move(Signal(s, c, Err(Canceled)), c, Leaving)
    case Write(c, how) =>
      Move(s, c, if how.fail.Some? then Broken(how.fail.value) else Leaving)
        .(writes := s.writes + [how])
    case Reclaim(c) => Reclaimed(s, c)
    case FailWrite(c) =>
      Move(Signal(s, s.calls[c].place.found, Err(Io(s.calls[c].place.cause))), c, Leaving)
    case Unlock(c) =>
      Move(s, c, if s.calls[c].kind == Sync then Selecting else Returned).(req := Free)
    case Receive(c) => Move(s, c, Replied(s.calls[c].outcome))
    case Withdraw(c) => Withdrawn(s, c)
    case Notify(c) => Notified(s, c)
    case Leave(c) => Move(s, c, GaveUp)
  }

  function ApplyConn(s: State, st: ConnStep): State
    requires CanConn(s, st)
  {
    match st
    case Close => s.(table := s.table.(closing := true))
    case GotHeader(f) => s.(reader := Matching(f))
    case GotEnd(e) => s.(reader := Stopping(Io(e)))
    case Match => Matched(s)
    case GotBody(fail, junk) => BodyRead(s, fail, junk)
    case Answer =>
      Signal(s, s.reader.call, s.reader.outcome)
        .(reader := if s.reader.stop.Some? then Stopping(s.reader.stop.value) else Reading)
    case StopLock => s.(req := ByReader, reader := Holding(s.reader.cause))
    case StopBegin => DrainBegun(s)
    case StopFail(n) =>
      Signal(s, s.table.pending[n], Err(s.reader.error))
        .(reader := Draining(s.reader.error, s.reader.todo - {n}))
    case StopEnd => s.(req := Free, reader := Ended(s.reader.error))
    case WriterLock(k) => s.(req := ByWriter(k))
    case WriterUnlock(_) => s.(req := Free)
  }

  // The registration section of `send`.
  function Enrolled(s: State, c: nat): State
    requires c < |s.calls|
  {
    match Admit(s.table, c, s.calls[c].mark)
    case Refused => Move(s, c, Refusing)
    case Recalled => Move(s, c, Recalling)
    case Admitted(t, n) =>
      s.(table := t, names := s.names + [c],
         calls := s.calls[c := s.calls[c].(mark := n, number := n, place := Writing)])
  }

  // The section after a failed WriteRequest.
  function Reclaimed(s: State, c: nat): State
    requires c < |s.calls| && s.calls[c].place.Broken?
  {
    var n := s.calls[c].number;
    var found := Lookup(s.table, n);
    Move(s, c, if found.Some? then Failing(found.value, s.calls[c].place.cause) else Leaving)
      .(table := Remove(s.table, n))
  }

  // The `<-ctx.Done()` branch of `Call`, under mutex.
  function Withdrawn(s: State, c: nat): State
    requires c < |s.calls|
  {
    var r := s.calls[c];
    var ok := r.mark in s.table.pending;
    s.(table := Remove(s.table, r.mark),
       calls := s.calls[c := r.(mark := if r.mark == 0 then 1 else r.mark,
                                withdrawn := ok,
                                place := if r.mark != 0 && ok then Notifying(r.mark) else GaveUp)])
  }

  // `client.Go("_goRPC_.Cancel", ...)` is entered.
  function Notified(s: State, c: nat): State
    requires c < |s.calls| && s.calls[c].place.Notifying?
  {
    var r := s.calls[c];
    s.(calls := s.calls[c := r.(place := Awaiting(|s.calls|), notice := Some(|s.calls|))]
                + [NewCall(Notice(c), CancelOf(r.place.number))])
  }

  // The reader looks the number of a response up and deletes it.
  function Matched(s: State): State
    requires s.reader.Matching?
  {
    s.(reader := Decoding(s.reader.frame, Lookup(s.table, s.reader.frame.number)),
       table := Remove(s.table, s.reader.frame.number))
  }

  // ReadResponseBody: into nil when nobody waits or the response is an error, else
  // into the caller's reply. A failed decode may leave `junk` there.
  function BodyRead(s: State, fail: Option<IoError>, junk: Option<Value>): State
    requires s.reader.Decoding?
    requires s.reader.waiter.Some? ==> s.reader.waiter.value < |s.calls|
  {
    var f := s.reader.frame;
    if s.reader.waiter.None? then
      s.(reader := if fail.Some? then Stopping(BadErrorBody(fail.value)) else Reading)
    else
      var c := s.reader.waiter.value;
      var r := s.calls[c].(answer := Some(Heard(f, fail)));
      if f.text != "" then
        s.(calls := s.calls[c := r],
           reader := Answering(c, Err(Server(f.text)),
                               if fail.Some? then Some(BadErrorBody(fail.value)) else None))
      else if fail.Some? then
        s.(calls := s.calls[c := r.(reply := if junk.Some? then junk else r.reply)],
           reader := Answering(c, Err(BadBody(fail.value)), Some(Io(fail.value))))
      else
        s.(calls := s.calls[c := r.(reply := Some(f.body))],
           reader := Answering(c, Ok(f.body), None))
  }

  // "Terminate pending calls", under both mutexes; the table keeps its entries.
  function DrainBegun(s: State): State
    requires s.reader.Holding?
  {
    s.(table := s.table.(shutdown := true),
       reader := Draining(StopError(s.reader.cause, s.table.closing), s.table.pending.Keys))
  }

  // Runs the steps in order; `None` when one of them cannot be taken.
  function Exec(s: State, steps: seq<Step>): Option<State>
    decreases |steps|
  {
    if steps == [] then Some(s)
    else if Enabled(s, steps[0]) then Exec(Apply(s, steps[0]), steps[1..])
    else None
  }

  // The states some run leads to.
  ghost predicate Reachable(s: State) {
    exists steps :: Exec(INIT, steps) == Some(s)
  }
}
