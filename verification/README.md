# A verified model of the multiplexed RPC protocol

The library lets many goroutines on both sides of one connection call each other. The
client half keeps a table from sequence numbers to waiting calls, the server half a table
from sequence numbers to cancel functions, the JSON codecs number requests a second time,
and a bidirectional connection runs both halves of both peers over one stream in each
direction. This project models those parts and proves what they guarantee in every run.

Verify it with `dafny verify dfyconfig.toml`.

## How it is built

**Step machines.** One step is one critical section, one codec operation or one channel
operation, so every interleaving of goroutines is a run. What a codec reads, and whether a
write succeeds, is arbitrary unless a machine connects two peers.

- `ClientMachine`: every goroutine in `send`, `Go` and `Call`, `Close`, the reader and its
  termination sequence, with both mutexes. Invariant in `ClientInvariant`, preservation in
  `ClientSteps`, theorems in `ClientResults`; `ClientStops` follows a failing header, body or
  write to the errors of the calls. The peer is arbitrary.
- `ServerMachine`: the reader, the handlers in `Service.call`, recycled request objects on
  an explicit heap, the cancel table, the wait group, the mutex `sending`. Invariant,
  steps and theorems in `ServerInvariant`, `ServerSteps`, `ServerResults`; `ServerAnswers`
  ties each response to the step that decided it.
- `Link`: the client half of one peer, the server half of the other, two queues
  (`LinkInvariant`, `LinkResults`); `CallAutomaton` shows that a link simulates the small
  machine Issued, Running, Done or Withdrawn that a caller sees.
- `Net`: two peers, each with both halves, one reader, one writer mutex and one stream per
  direction, whose handlers may call back over the connection they serve. `NetInvariant`
  proves it to be two independent links; `NetResults` has the theorems and the shutdown.
- `HalfRuns`, `NetRuns`, `JsonRuns`: that calls, nested calls and cancellations can be carried
  to their end from every reachable state in which nothing is on the wire.
- `FrameStream`: one stream item by item, header and body encoded by separate calls, and
  the reader with the branches it takes.
- `JsonIds`, `JsonServing`, `JsonLink`, `Lockstep`, `LockstepRuns`, `JsonResults`: the JSON
  id table against a reference in which each request carries its id, the table under the
  server machine, this library's client and its JSON server with their two numberings, and
  the outcomes.
- `DoneChannels`, `UserChannel`: channels that users share between calls of `Go`, alone and
  on a client as it runs.

**Objects.** The parts that the source updates in place are classes whose methods are
proved against specification functions: `BasicClient` (the call table, the reader's loop,
the termination loop), `Pool` (the free lists), `CancelTable` (`svc.Pending`),
`ServiceCall` (`sendResponse`, `Service.call`), `ServeLoop` (`ServeCodec`), `BirpcInput`
(the reader of a bidirectional connection), `GobCodec`, `GobTraffic` (what its writes are
read as) and `JsonCodec`. `PendingCalls`
holds the critical sections of the client as functions that the step machine and the class
share; `ObjectsRefine` relates the server's objects to its step machine.

## Where the code and its comments differ

- `birpc_client.go:39-40` says that header and payload are sent as a unit. The
  bidirectional gob codec encodes straight to the connection (`birpc_codec.go:66-67`) and
  never writes to `encBuf`, so they are two writes, and a failed body leaves its header on
  the stream. `FrameStream` and `GobCodec.BirpcGobCodec` follow the code.
- `basic_client.go:132-139` speaks of a call that "hasn't been sent yet". `Go` has
  returned from `send` by then, so the number 0 is seen only for a call that was refused;
  the "already canceled" branch of `send` is never taken.
- When a method is unknown and its body cannot be discarded either, `Server` reports the
  former (`server.go:265-273`) and `BirpcClient` the latter (`birpc_client.go:129-135`).
  Both are modelled, by the parameter `bidirectional` of `ServeLoop`.
- The two JSON server codecs differ from each other: `jsonrpc/birpc_codec.go:80-81` takes
  a request whose id is absent or null for a notification and does not answer it, as
  section 1.3 of the JSON-RPC 1.0 specification asks; `jsonrpc/server.go:75-80` numbers and
  answers it, with the id null. Both are modelled, by the parameter `bidirectional`.

## What turned out false, and the exact conditions

- "After `Call` returned, nobody writes its reply": false when the reader had already
  taken the call. `ClientResults.GaveUpReply` gives the condition, `LateWriteHappens` a run.
- "A done channel with room for one signal is enough for `Call`": false for a `Call` that
  gives up if and only if, when its context won the select, the call was still in the table
  and already had its signal, which the termination section gave it
  (`ClientResults.TwoSignalsIff`, with a run in `OneSlotIsTooFew`). A `Call` that returns its
  reply needs one slot (`AnsweredNeedsOne`), and two are always enough (`TwoSlotsSuffice`).
- "The stream is made of whole frames": exactly when no write failed between header and
  body (`FrameStream.WellFramedIff`); the reader is at the start of a frame exactly until it
  comes past the first stray header (`FrameStream.AtFrameStartIff`). It then goes on and
  reads bodies as headers (`GobCodec.StrayHeaderShifts`, `FrameStream.MisreadingHappens`).
- "A message is read as the kind it was sent": exactly when every request names a method
  (`GobCodec.StreamRoundTrip`).
- "A JSON response comes back as it was sent": exactly when it is not a success whose
  reply encodes to `null` (`JsonCodec.RoundTripIff`).
- "The JSON server's numbers are the client's": exactly when no earlier write failed
  (`Lockstep.NumbersInLockstep`, with a run that drifts in `LockstepRuns.NumbersDrift`).
- "Over JSON, a Cancel reaches only the call that was withdrawn": exactly when no write
  before that request failed (`Lockstep.CancelReaches`, `CancelAddressesTheCall`, with a run
  that cancels a sibling in `LockstepRuns.SiblingCancelled`).
- "A notification is never answered" rests on zeroed request objects
  (`JsonServing.NotificationsSilent`, `JsonServing.StaleRecordSteals`).
- "Each handler's cancel function is run": exactly when no other request with its number
  started while it was in the table (`ServerResults.CancelRunsIff`, with a run in
  `OvertakingHappens`). The table is empty at the end all the same (`TableDrains`).

## Model

| member | source | states |
|---|---|---|
| Protocol.CancelByName | service.go:84-89 | A request is one of the built-in Cancel if and only if that is its name; any other is known by the name its user gave. |
| ClientSteps.StepKeeps | basic_client.go:45-149 | Every step of a goroutine in `send`, `Go`, `Call` or `Close` and of the reader keeps the invariant that ties table, numbers, locks, signals and outcomes. |
| ClientResults.AtMostOneSignal | client.go:129-138 | In every run against any peer, `done` runs at most once for a call, across reply, write failure, withdrawal and termination, and `call.Error` is set exactly then. |
| ClientResults.NoLostCall | client.go:106-123 | Once the termination section is over, every call ever registered was signalled once or withdrawn by its own `Call`; one that was never registered got ErrShutdown. |
| ClientResults.OutcomeExplained | client.go:70-104 | A nil error means a frame with the call's number, no error text and a decoded body; a ServerError leaves the reply untouched; every other error names the failed write or the error the reader stopped with. |
| ClientResults.StopErrorKind | client.go:108-117 | The calls failed at a stop never see io.EOF, and ErrShutdown only after Close. |
| ClientResults.StopErrorIff | client.go:106-117 | From a termination section on, the error it gives is ErrShutdown if and only if the reader stopped at io.EOF and Close had been called by then, ErrUnexpectedEOF if and only if it stopped there and it had not, and otherwise the reader's own error. |
| ClientStops.BodyMeans | birpc_client.go:160-188 | One body read: the reader goes on exactly when it succeeded; else it stops with the codec's own error exactly when the body was the reply of a waiting call, and with "reading error body" otherwise; the waiting call gets the error text, the failure or the reply, and its reply is left alone when the response is an error. |
| ClientStops.EndReachesCalls | birpc_client.go:100-118 | From the header or body that fails, over any continuation: each call left in the table, or withdrawn from it, has the error the reader stopped with; at io.EOF, also inside a reply, that is ErrShutdown if Close came before, ErrUnexpectedEOF if it has not come. |
| ClientStops.LeftAreFailed | birpc_client.go:115-118 | When the termination section is over, every call in the table has its signal and the error the reader stopped with. |
| ClientStops.CloseBars | basic_client.go:88-97 | From the step of Close on, over any continuation: calls that begin later are never registered and get ErrShutdown, and unless the reader had stopped before, no call is failed with ErrUnexpectedEOF. |
| ClientStops.FailedWriteIsReported | basic_client.go:71-83 | From a WriteRequest that fails, over any continuation: once its goroutine is past the failure branch the call is out of the table, with the error of the write, unless the reader had taken it for a response before. |
| ClientResults.SequenceDiscipline | basic_client.go:57-67 | pending[n] is a call whose seq is n, 1 <= n <= client.seq; numbers are never reused; the "already canceled" branch is unreachable. |
| ClientSteps.NeverRecalled | basic_client.go:57-63 | No goroutine is ever in the "already canceled" branch. |
| ClientResults.LateResponse | client.go:71-87 | A response finds its call exactly when the call is still in the table; a withdrawn call is not found. |
| ClientResults.NoLateWrite | basic_client.go:131-147 | After a call was withdrawn by its `Call`, or signalled outside the termination section, no step of any continuation changes its error, reply or signal. |
| ClientResults.GaveUpReply | basic_client.go:131-147 | When `Call` returned ctx.Err(), some continuation still writes the reply if and only if the reader had taken the call and is about to decode its body. |
| ClientResults.LateWriteHappens | client.go:73-99 | There is a run in which `Call` has returned ctx.Err() and its reply can still be written. |
| ClientResults.LaterCallsRefused | basic_client.go:51-56 | A call that begins after shutdown or after Close is never registered, and its signal carries ErrShutdown. |
| ClientResults.RefusedCallReturns | basic_client.go:51-56 | A refused call has at most five steps left, all its own; each of them brings it nearer to its return and no other step moves it back. |
| ClientResults.RefusedCallGoesOn | basic_client.go:45-56 | Until it has returned, a refused call can take its next step at once, unless another party holds reqMutex; it never waits for the network or its context. |
| ClientResults.NestedCallersReleased | birpc_client.go:100-122 | After the termination section every goroutine that waits in `Call` has its signal available. |
| ClientResults.HoldersGoOn | basic_client.go:45-83 | Whoever holds reqMutex can take its next step without another lock being released; mutex is kept across steps only by the termination section, which holds reqMutex. |
| ClientResults.TwoSlotsSuffice | basic_client.go:126-146 | At most two signals are ever put into the channel of one `Call`, its own and its Cancel's, and at most one while it waits. |
| ClientResults.OneSlotIsTooFew | basic_client.go:126-146 | There is a run, termination first and withdrawal after it, that puts both signals there. |
| ClientResults.WithdrawnIfInTable | basic_client.go:131-143 | When a context wins the select, the call is withdrawn, and a Cancel is due, exactly if it is still in the table; otherwise `Call` returns at once; its seq is then never 0. |
| ClientResults.TwoSignalsIff | basic_client.go:126-147 | Exactly when one slot is not enough: a `Call` that gave up has two signals in its channel if and only if, when its context won the select, the call was still in the table and already had its signal. |
| ClientResults.AnsweredNeedsOne | basic_client.go:126-130 | A `Call` that returned its reply has one signal in its channel and has sent no Cancel. |
| ClientResults.OneSlotSuffices | basic_client.go:126-146 | If the call has no signal at the moment its `Call` gives up, no continuation puts two there: one slot would do. |
| ClientResults.SecondSignalAfterStop | basic_client.go:126-146 | Whenever two signals are there, the termination section had failed the call before its `Call` withdrew it. |
| UserChannel.ClientStepIsEvent | client.go:129-138 | Every step of a client against any peer is for a user's channel one event it can take, or none: each of its calls is begun once and signalled at most once, afterwards. |
| UserChannel.NoSignalLost | basic_client.go:110-117 | In every run of the client, if its user never has more calls outstanding on a channel than it has room for, no signal on it is dropped; each was received or waits in the buffer. |
| DoneChannels.NothingLost | basic_client.go:110-117 | If a user never has more calls outstanding on a channel than it has room for, no signal is dropped, and each one given was received or is in the buffer. |
| DoneChannels.OneMoreIsLost | basic_client.go:110-117 | With a full buffer, one call more loses its signal. |
| BasicClient.BasicClient.Register | basic_client.go:50-68 | The first critical section of `send`: refused, recalled, or registered under the next number; the table afterwards is that of `PendingCalls.Admit`. |
| BasicClient.BasicClient.TakeOut | basic_client.go:75-78 | Lookup and deletion under one lock: the call found has the number it was looked up by. |
| BasicClient.BasicClient.Send | basic_client.go:45-84 | The whole of `send` alone on the connection: the call is signalled exactly when it is not left waiting in the table, with the error of the branch taken. |
| BasicClient.BasicClient.Withdraw | basic_client.go:131-147 | The ctx.Done branch: the call leaves the table, and a Cancel with its number is due exactly when it was there. |
| BasicClient.BasicClient.Close | basic_client.go:88-97 | Sets `closing`, and reports ErrShutdown exactly when it was set before. |
| BasicClient.BasicClient.Deliver | client.go:70-104 | One message: the call of its number, if any, leaves the table and is signalled once with the outcome the message means; the reader stops exactly when the body failed, with the codec's own error exactly when it was a waiting call's reply. |
| BasicClient.BasicClient.Terminate | client.go:106-123 | The loop over `pending` fails every call in the table exactly once with the stop error, touches no other and keeps the entries. |
| BasicClient.BasicClient.ReadAll | client.go:65-105 | The reader's loop over any messages: calls taken from the table have their verdict, the verdict on the others is the error it stops with, and that is the error of the first body that failed, or of the header after all messages. |
| BasicClient.BasicClient.Input | client.go:62-127 | From the first header to the end: every call that waited is signalled exactly once with the verdict on the messages that arrived. |
| BasicClient.VerdictDecides | client.go:70-123 | The verdict: the first message with the call's number decides; without one, the first body that failed: io.EOF in the reply of a call that still waits becomes ErrShutdown or ErrUnexpectedEOF, any other body failure is reported as it is; and without that, the header that failed. |
| BasicClient.MachineAgrees | client.go:77-104 | The step machine's reader does with a message what `Deliver` does. |
| ServerSteps.StepKeeps | service.go:80-104 | Every step of the reader and of the handlers keeps the invariant that ties objects, free list, cancel table, wait group and responses. |
| ServerResults.ObjectsNotShared | basic_server.go:84-102 | A request object in use belongs to one job only, is not on the free list, and still says what that job's header said. |
| ServerResults.GrabIsFresh | basic_server.go:84-95 | getRequest returns a zeroed object that no job and no list has. |
| ServerResults.NoDoubleFree | basic_server.go:97-102 | What is freed was not on the list, and the list stays free of duplicates. |
| ServerResults.OneResponsePerHeader | server.go:209-231 | Each header read gets at most one response attempt, exactly one by the time the codec is closed, with its own number and its own method's result, or the reason why the reader refused it. |
| ServerAnswers.RefusedIff | server.go:209-222 | Over any run: a request was refused for a text in its course if and only if that is the reason the other theorems speak of, and its response then has its number, that text and the placeholder body. |
| ServerAnswers.ReturnedIff | service.go:92-102 | Over any run: a method returned a result in its course if and only if that is the result the other theorems speak of, and its response then has its number and the error text, or the reply. |
| ServerAnswers.EndIsFinal | server.go:203-231 | After a header that cannot be read, or the response body that ends the loop, no header is read in any continuation; the loop only waits for its handlers and closes. |
| ServerResults.ReplyTellsApart | basic_server.go:152-161 | Two results give the same response if and only if they fail with the same text, or both succeed with the same reply; an error with an empty text counts as success. |
| ServerResults.TableDrains | internal/svc/svc.go:29-48 | The cancel table is empty once all handlers have returned, even with duplicate numbers. |
| ServerResults.DrainedAtClose | server.go:205-231 | When the codec is closed and the connection's context cancelled, every handler is over. |
| ServerResults.CancelRunsOnce | internal/svc/svc.go:38-48 | No cancel function runs twice; with distinct numbers each has run exactly once when all handlers are over. |
| ServerResults.CancelRunsIff | internal/svc/svc.go:29-48 | With any numbers: when all handlers are over, a handler's cancel function has run exactly once, unless in the course of the run another request with its number started while it was in the table; then it has not run. |
| ServerResults.OvertakerHasSameNumber | internal/svc/svc.go:32-33 | What overtakes a handler is another request under the same number, between the handler's Start and its deferred Cancel. |
| ServerResults.OvertakenNeverCancelled | internal/svc/svc.go:32-33 | A cancel function that was lost in this way is run in no continuation. |
| ServerResults.OvertakingHappens | internal/svc/svc.go:32-33 | There is a run in which a second request with the same number starts while the first one runs. |
| ServerResults.EarlyCancelHasRequest | internal/svc/svc.go:69-72 | With distinct numbers, the context of a handler that has not returned is done only if a Cancel request named its number. |
| ServerResults.IdleCancel | internal/svc/svc.go:38-48 | A Cancel of a number that is not in the table, for instance before the target's Start, changes no other job. |
| ServerResults.SendingExclusive | basic_server.go:160-165 | One job at a time holds `sending`, and it is writing or about to release it. |
| ServerResults.JobsGoOn | service.go:80-104 | A handler that is not over can take its next step, unless it waits for `sending`; its method is taken to be ready to return (methods inside a nested `Call` are in `NetResults.HandlerMoves`). |
| LinkResults.OneToken | basic_client.go:64-73 | Conservation: each number has at most one trace among request being written, under way, being served, response under way, being read. |
| LinkResults.ServedOnce | basic_client.go:64-73 | The job with a call's number asks for what the call asked for, and there is no other such job. |
| LinkResults.OwnReply | birpc_client.go:153-188 | A call that ends without error has the value that the method returned for its own request. |
| LinkResults.OwnError | birpc_client.go:172-176 | A ServerError carries the text its own method returned, or the reason why this very request was refused. |
| LinkResults.OutcomeRoundTrip | service.go:95-102 | Whenever a response was read and decoded for a call, its outcome and reply are exactly the handler's result: Ok(v) arrives as v, an error with text as ServerError with the reply untouched. |
| LinkResults.CancelJustified | basic_client.go:131-147 | Without hand-written Cancel calls, a handler's context is done before it returns only if the client withdrew that same call. |
| LinkInvariant.Always | basic_client.go:70-73 | In every run of a link what was sent is what was served followed by what is under way, in order, and each request is what its caller asked. |
| CallAutomaton.StepSimulates | basic_client.go:45-149 | Forward simulation: every step of the link moves a call along Issued, Running, Done or Withdrawn, or not at all; a call settled by the peer was running there. |
| CallAutomaton.RunSimulates | basic_client.go:45-149 | Along any run an outcome is final, a withdrawn call stays withdrawn, and a call the peer has read stays read. |
| NetInvariant.StepProjects | birpc_client.go:69-126 | Every step of two peers on shared streams is one step or none of each of two links. |
| NetInvariant.TwoLinks | birpc_client.go:69-126 | In every run of two peers whose users name their methods, each direction is a run of one link, although both use the same numbers on the same streams. |
| NetResults.NoMixUp | birpc_client.go:85-98 | One trace per number in each direction, and each reply is that of the peer's own request. |
| NetResults.CancelJustified | birpc_client.go:73-76 | In both directions early cancellation is justified by a withdrawal of that call. |
| NetResults.FreeMutexGoes | birpc_client.go:72-101 | While the shared mutex is free, every sender, response writer and the terminating reader that waits for it can take it. |
| NetResults.HolderGoesOn | basic_server.go:160-165 | Whoever holds the shared mutex, sender, response writer or reader, has an enabled step: there is no deadlock on locks. |
| NetResults.NoDeadlock | birpc_client.go:72-117 | As long as anybody waits for a lock, the party that holds the shared mutex has an enabled step of its own, which may be its own write to the codec, and if nobody holds it, a waiting party can take it. |
| NetResults.CleanShutdown | birpc_client.go:100-125 | When a peer closes its codec, however its loop ended, its termination section is over, all its handlers have returned, none waits in a nested call, and each of its calls is signalled, withdrawn or still to be refused. |
| NetResults.BodyFailureCloses | birpc_client.go:94-125 | There is a run in which the loop ends at a response whose body cannot be read and the peer closes its codec. |
| NetResults.CallMoves | birpc_client.go:100-122 | After the termination section every call that has not returned can be moved on: by its goroutine, by that of the Cancel it sent while it waits for that, or, only if one of them waits for the shared mutex, by the party that holds it. |
| NetResults.HandlerMoves | birpc_client.go:121-121 | After the termination section every handler that is not over can be moved on: by itself, through the nested `Call` it is inside of, or, only if its answer waits for the shared mutex, by the party that holds it. |
| NetResults.ShutdownMoves | birpc_client.go:121-125 | `wg.Wait` is never stuck: until the codec is closed, the loop can be left, or it can be closed, or some handler that the wait group counts can be moved on. |
| NetResults.UnnamedRequestMixesUp | birpc_codec.go:78-84 | A request without a method name is taken for a response to the peer's own call of that number. |
| NetRuns.CallCompletes | birpc_client.go:69-126 | Availability: from every reachable state of two peers with nothing on the wire, however many calls wait and handlers run, either peer can make a call with any arguments that returns whatever its handler returns, and no other call or handler is touched. |
| NetRuns.NestedCallCompletes | birpc_client.go:73-75 | The same for a call whose handler calls back over the connection it serves, gets its own result, and then returns. |
| NetRuns.WithdrawalArrives | basic_client.go:131-147 | A call in service can be given up: its Cancel arrives and the context of its handler is done while the method still runs. |
| NetRuns.ConnectionEnds | birpc_client.go:100-125 | Disconnection is survived: from every quiet state, when no header can be read any more, the peer can come to the end of its termination section, where every call that waited has ErrUnexpectedEOF or the codec's error, and, unless handlers still run, close its codec. |
| FrameStream.TwoItemsATurn | birpc_client.go:128-191 | In every run, with any branches taken and any bodies failing, an even number of items is gone at the top of the reader's loop (that the code's branches are these turns is `GobCodec.TurnIsReadMessage`). |
| FrameStream.FramesStayWhole | basic_server.go:160-165 | With any interleaving of writers and no write failing between header and body, the stream is whole frames, the reader is at a frame's start at each ReadHeader and at a body at each body read, and its turns had the frames that were written. |
| FrameStream.WellFramedIff | birpc_codec.go:96-126 | Between writes the stream is made of whole frames if and only if no write failed between its header and its body. |
| FrameStream.AtFrameStartIff | birpc_client.go:78-99 | At the top of the loop there are whole frames and nothing else behind the reader if and only if it has not come past the first stray header. |
| FrameStream.StrayTurn | codec.go:88-96 | The turn at a stray header takes the next header for its body, after turns that had the frames written; the reader goes on. |
| FrameStream.MisreadingHappens | codec.go:88-96 | There is a run in which a body fails after its header and the reader comes to decode a body as a header. |
| FrameStream.RefinesQueue | birpc_codec.go:72-126 | Without stray headers each step puts one whole frame at the end of a queue, takes the first one off, or leaves the queue alone. |
| Pool.FreeList.Get | basic_server.go:84-95 | Pops the head, or allocates; the record is zeroed and off the list, which stays acyclic. |
| Pool.FreeList.Free | basic_server.go:97-102 | Pushes the record; its fields are kept. |
| Pool.FreeThenGet | basic_server.go:84-122 | What was freed last comes back first and zeroed, and the list is as before. |
| ObjectsRefine.GrabIsGet | basic_server.go:84-95 | The step machine's reader takes from its free list as FreeList.Get does. |
| ObjectsRefine.RecycleIsFree | basic_server.go:97-102 | A handler, or a refusing reader, gives its object back as FreeList.Free does. |
| ObjectsRefine.UnusedIsFree | birpc_client.go:92-93 | So does the reader with an object it did not need. |
| ObjectsRefine.TableIsPending | internal/svc/svc.go:29-48 | The handlers' steps change the machine's table as svc.Pending's methods do. |
| ObjectsRefine.HandlerIsCall | service.go:80-104 | In every reachable state a handler of either kind whose steps nobody interrupts sends one response: its method's error text or reply, for a Cancel an empty success; its object is given back, its own cancel function and that of the handler it names have run once and no other, and both numbers are gone. |
| ObjectsRefine.CallIsHandler | service.go:80-104 | Side by side, Connection.Call and the machine's handler send the same response and leave tables with the same numbers. |
| CancelTable.Pending.Start | internal/svc/svc.go:29-36 | A new live context under the number; its cancel function replaces any earlier one there. |
| CancelTable.Pending.Cancel | internal/svc/svc.go:38-48 | Runs the function under the number, if there is one, once and no other, and removes it; no function in the table was run. |
| CancelTable.StartThenCancel | service.go:91-92 | Under an unused number the handler's own Cancel runs its own function and leaves the table as it was. |
| CancelTable.DuplicateNumber | internal/svc/svc.go:32-33 | On the object: after two Starts under one number, two Cancels run the second function once and the first one never; the exact condition for all runs is `ServerResults.CancelRunsIff`. |
| ServiceCall.Connection.SendResponse | basic_server.go:152-167 | One response with the request record's number and error text, the placeholder body for an error; the response record returns to its list. |
| ServiceCall.Connection.Call | service.go:80-104 | One handler: exactly one response with the number on entry and the method's error text or reply, an empty success for a Cancel; the record back on the list after it, its own cancel function run exactly once, its number and the one it cancels gone from the table. |
| ServiceCall.Connection.Invoke | internal/svc/svc.go:69-72 | A Cancel runs the function it names and returns no error; other handlers return what they return. |
| ServeLoop.ServeCodec | server.go:203-232 | The loop answers the refused requests in order and leaves each other request with one handler (which ones, and with what text, is `EachOnce`); handlers hold distinct records with their own requests, none in the pool. |
| ServeLoop.ServeOne | server.go:264-287 | One turn: with a known method and a good body the record goes to one new handler and nothing is sent; otherwise exactly one response says why, and the record is back in the pool. |
| ServeLoop.EachOnce | server.go:209-226 | A request is handed on if and only if its method was found and its body read; every other one gets exactly one response, with its number and the reason why the method is unknown, or else what was wrong with the body (in `BirpcClient` the other way round when there are both); both in the order of arrival. |
| BirpcInput.Input | birpc_client.go:69-126 | The bidirectional reader over any mixture of requests and responses: it reads exactly as far as `Extent` says, the requests read are refused in order or held by one handler each, and every call that waited is signalled exactly once with the verdict on the responses. |
| BirpcInput.ExtentIs | birpc_client.go:78-99 | The extent: the loop ends right after the first response whose body cannot be read, with the codec's own error exactly if a call still waits for that body as its reply, else with "reading error body"; without one it reads everything; a bad request body does not end it. |
| BirpcInput.ReadAll | birpc_client.go:78-99 | The loop alone: how many messages it reads and the error that ends it are those of `Extent`. |
| BirpcInput.Serve | birpc_client.go:85-93 | One header for the server half: a request is refused or handed on, a response gives its unused record back. |
| BirpcInput.Hear | birpc_client.go:153-191 | One header for the client half: a response settles the call of its number, a request touches no call. |
| GobCodec.ArrivesIff | birpc_codec.go:72-86 | gob omits zero fields: a header arrives as sent exactly when the target is zero where the header is, always for a zeroed target. |
| GobCodec.KindIff | birpc_codec.go:72-86 | A message keeps kind and fields exactly when it is a response or names a method. |
| GobCodec.StreamRoundTrip | birpc_codec.go:72-126 | Any stream of messages decodes to itself if and only if every request names a method. |
| GobCodec.ReadsOn | birpc_codec.go:72-94 | What comes before any point of a stream is delivered as it was sent, and reading goes on from there. |
| GobCodec.StrayHeaderShifts | codec.go:88-96 | After a header without a body the peer delivers what came before, takes the next header for the lost body, and from then on reads bodies as headers. |
| GobCodec.CancelReadAsResponse | birpc_codec.go:78-84 | The body of a Cancel, read as a header, is a response without error to the number it names. |
| GobCodec.NetReadsLikeGob | birpc_codec.go:72-86 | The reading used by `Net` is this codec's. |
| GobCodec.BirpcGobCodec.ReadHeader | birpc_codec.go:72-86 | Consumes one item and fills exactly one of the two records; a struct that was sent as a body is read by its field names. |
| GobCodec.BirpcGobCodec.ReadBody | birpc_codec.go:88-94 | Consumes one item, wanted or not, fitting or not. |
| GobCodec.BirpcGobCodec.ReadMessage | birpc_client.go:78-191 | One turn of the reader on the items of the stream: every branch (unknown method, arguments, nobody waits, error text, reply) consumes exactly one body, and only a response whose body cannot be read, or a failing header, ends the loop. |
| GobCodec.TurnIsReadMessage | birpc_client.go:78-191 | The stream machine's turn is that of ReadMessage: the header decoded, the branch the code takes and its body read consume the same two items, and the machine stops exactly when ReadMessage ends the loop. |
| GobCodec.BirpcGobCodec.WriteRequest | birpc_codec.go:96-104 | What is on the stream after success, a failed header and a failed body. |
| GobCodec.BirpcGobCodec.WriteResponse | birpc_codec.go:106-126 | The same, and the connection is closed exactly on failure. |
| GobCodec.BufferedCodec.WriteRequest | codec.go:88-96 | Header and body leave together or stay in the buffer; a failed body leaves its header there. |
| GobCodec.BufferedCodec.WriteResponse | codec.go:41-61 | What was buffered is flushed either way; failure closes the connection. |
| GobTraffic.WritesRead | birpc_codec.go:96-126 | Any sequence of writes none of which loses a body: the peer reads exactly the messages whose writes succeeded, in order, and a failed header leaves no trace. |
| GobTraffic.FailedBodyShifts | birpc_codec.go:96-126 | A body that fails leaves exactly one stray header among such writes: what came before is read as sent, what comes after is read shifted. |
| GobTraffic.WriteIsSteps | birpc_codec.go:96-126 | Each write is the run of the stream machine that its fate names: header item, then body item, and a header without a body is stray. |
| GobTraffic.RequestArrives | birpc_codec.go:96-104 | A named request written and read: the peer's record has its number and method, and a handler gets its arguments unless the method is unknown or they do not fit. |
| GobTraffic.ResponseArrives | birpc_codec.go:106-126 | A response written and read: the waiting call gets the error text, or the body if it fits; without one it is ignored. |
| GobTraffic.LostThenSent | codec.go:88-96 | Buffered: a request whose body failed stays behind as a header, which takes the next request's header for its body. |
| GobTraffic.AskedTurn | birpc_client.go:128-151 | The reader's turn on a request hands it on exactly when the serving loop would, and takes the branch that wants the arguments exactly when the method is known. |
| GobTraffic.AnsweredTurn | birpc_client.go:153-191 | The reader's turn on a response is the outcome that readResponse gives the waiting call, and ends the loop exactly when readResponse reports an error. |
| GobTraffic.BranchesFit | birpc_client.go:78-191 | The branches of the stream machine are those of the code, for some services and call table, and no other. |
| GobTraffic.FailedBodyEnds | birpc_client.go:85-98 | A body that cannot be read ends the loop exactly when its header was a response, whichever branch was taken. |
| JsonIds.StepRefines | jsonrpc/server.go:65-124 | One operation of the id table matches one of the reference in which requests carry their ids. |
| JsonIds.RefinesCarrying | jsonrpc/server.go:65-124 | For any ids, duplicate or null, and any order of answers: what is written is what the reference writes, the table holds exactly what was read and not answered, and nothing is answered twice. |
| JsonServing.StepKeeps | jsonrpc/birpc_codec.go:63-167 | The id table under the server machine: every step keeps numbers, table and output in agreement. |
| JsonServing.RightId | jsonrpc/server.go:103-124 | With recycled records and concurrent handlers, each response on the wire has the id of the request whose method produced it, and no request has two. |
| JsonServing.NotificationsSilent | jsonrpc/birpc_codec.go:80-89 | In no run of the bidirectional codec is a notification answered; its number is 0, and 0 is never in the table. |
| JsonServing.TableExact | jsonrpc/birpc_codec.go:146-154 | The table's domain is exactly the numbers read, expecting an answer and not answered, each with its own id. |
| JsonServing.AllAnsweredAtClose | server.go:228-231 | At close every request that expects an answer has one on the wire, unless it could not be encoded, and the table is empty. |
| JsonServing.NumberedInOrder | jsonrpc/server.go:75-80 | Without notifications the k-th request read is number k. |
| JsonServing.StaleRecordSteals | jsonrpc/birpc_codec.go:80-89 | With a record that was not zeroed, a notification would take another request's id and answer. |
| JsonCodec.RoundTripIff | jsonrpc/client.go:85-96 | Text and body come back exactly unless success comes with a null reply, which is an "invalid error"; on the wire an error has no result and a success no error. |
| JsonCodec.HeaderGoodIff | jsonrpc/client.go:85-96 | A header is good exactly when the error is a string, or absent with a result; a success header has a result to decode. |
| JsonCodec.ReplyReachesCaller | jsonrpc/client.go:75-105 | A client that sent its number as the id reads the response under that number, with the text and the body of its own method's result, unless it is a null reply. |
| JsonCodec.Codec.ReadRequestHeader | jsonrpc/server.go:65-83 | The record gets the next number and the id is kept under it; a notification leaves number and table alone. |
| JsonCodec.Codec.ReadResponseHeader | jsonrpc/client.go:75-98 | Number and error text of any response, the two ways it is refused, and the crash of the bidirectional codec on a missing id, after which it cannot be used. |
| JsonCodec.Codec.ReadHeader | jsonrpc/birpc_codec.go:63-113 | A message with a method is a request, any other a response; the other record is untouched. |
| JsonCodec.CallRoundTrip | jsonrpc/client.go:53-105 | One call over two JSON codecs with other traffic pending: the server reads the method and the arguments the client wrote, and the client reads text or result under its own number, unless the result is null. |
| JsonCodec.Codec.WriteResponse | jsonrpc/server.go:103-124 | Written once with the id kept under its number, which is then forgotten; an unknown number is refused and changes nothing. |
| JsonCodec.ReadThenAnswer | jsonrpc/server.go:65-124 | A request read and answered: its id is on the reply, the table is as before, a second answer is refused. |
| JsonCodec.NotificationUnanswerable | jsonrpc/birpc_codec.go:146-152 | A notification read into a pooled record cannot be answered. |
| JsonLink.Always | jsonrpc/server.go:65-124 | Client, request queue, JSON server and answers agree in every run on what was sent, read, numbered and answered. |
| JsonResults.ServedOnce | jsonrpc/client.go:53-61 | The request that has a call's number as its id is that call's, and the only one, even after failed writes. |
| JsonResults.OwnReply | jsonrpc/client.go:75-105 | Over JSON, a call that ends without error has the value that its own method returned. |
| JsonResults.OwnError | jsonrpc/client.go:87-96 | Over JSON, a ServerError carries the text of its own method, or the reason why this very request was refused. |
| JsonResults.OutcomeRoundTrip | jsonrpc/server.go:103-124 | Over JSON, a call whose response was read and decoded ends exactly as its handler's result says. |
| JsonResults.MissingIdReachesNobody | jsonrpc/client.go:75-84 | A response without an id gets number 0 in `clientCodec`, which no call has: it is discarded and the table stays as it is. |
| JsonRuns.CallCompletes | jsonrpc/client.go:53-105 | From every reachable state with nothing under way, whatever writes failed before, a call can be made over JSON that returns what its method returns, whatever that is, and leaves the connection as it was. |
| JsonRuns.NullReplyStops | jsonrpc/client.go:87-91 | The exception: a method that succeeds with a null reply ends the client's reader while its caller waits. |
| Lockstep.SentShift | basic_client.go:64-73 | The k-th frame sent carries k plus the number of failed writes before it. |
| Lockstep.NumbersInLockstep | jsonrpc/server.go:75-80 | The codec's number of a request is the client's minus the failed writes before it; they agree if and only if none failed. |
| LockstepRuns.NumbersDrift | jsonrpc/server.go:75-80 | There is a run with one failed write after which the client's number 2 is the server's number 1. |
| LockstepRuns.SiblingCancelled | basic_client.go:145-145 | There is a run with one failed write in which a withdrawal of the call numbered 2 cancels the context of the running handler of the call numbered 3. |
| Lockstep.CancelAddressesTheCall | basic_client.go:145-145 | The entry that a Cancel with the client's number finds is that of the withdrawn call if and only if no write before it failed. |
| Lockstep.CancelReaches | basic_client.go:131-147 | Over JSON, failed writes or not: if no Cancel is hand-written, early cancellation of a handler comes from a withdrawn call whose number is the server's number of the handler's request; that is the handler's own call if and only if no write before it failed. |
| Lockstep.CancelJustified | basic_client.go:131-147 | Over JSON, if no write failed and no Cancel is hand-written, early cancellation is justified by a withdrawal of that very call. |

## Left out

- Dialling, listeners, HTTP hijacking, `Accept` loops and the `DefaultServer` wrappers: input and output only.
- The byte encodings of gob and JSON: a header is a record with its zero fields omitted, a JSON message a record of members, a body an opaque value. Whether a reply encodes to `null`, and whether encoding or decoding fails, are parameters.
- gob's treatment of zero fields inside bodies: a caller's reply is taken to be zero before the call.
- gob's type check between fields of the same name: a struct that is read as another one gives the fields whose names agree.
- Reflection, method suitability and the registration of services: a lookup succeeds or fails with a text, and a handler is an arbitrary result, after arbitrary other steps of its peer.
- Handler panics, timeouts, debug logging, and Go's memory model below the atomicity of critical sections.
- The context library: a context is a flag that its cancel function or the end of its connection sets.
- `BirpcServer` and its event hub: an external library.
- The wrap-around of sequence numbers at 2^64: numbers are unbounded.
- What a crash of the process does: a response without an id, read by the bidirectional JSON codec, leaves the codec `crashed`, and no method may be called on it again.
- `clientCodec.pending`, a map of method names that is filled and emptied but never read.
- Failures of `Flush` in the buffered codecs, and `closed` as a guard against closing the connection twice.
- `BirpcClient.disconnect` and the error texts of `readRequest`; `ServeRequestContext`, which is one turn of the serving loop without a goroutine.
- BasicClient.BasicClient.Send: states `send` when nothing else happens between its critical sections; all interleavings are in `ClientMachine`.
- BasicClient.BasicClient.Input: states the loop when no call is made or withdrawn meanwhile; all interleavings are in `ClientMachine`.
- BirpcInput.Input: states the reader when no call is made or withdrawn and no handler recycles a record meanwhile; all interleavings are in `ClientMachine`, `ServerMachine` and `Net`.
- ServeLoop.ServeCodec: states the loop itself; handlers that recycle records meanwhile are in `ServerMachine`.
- ServiceCall.Connection.Call: states one handler on its own; concurrent handlers are in `ServerMachine`.
- CancelTable.Pending.Start: contexts are numbers, so the parent context is not part of the object; `ServerMachine` has it as `parentCancelled`.
- NetInvariant.TwoLinks: a frame goes out whole or not at all; partial writes are the subject of `FrameStream`.
- NetResults.HandlerMoves: a method that is not inside a nested `Call` over its own connection is taken to be ready to return; what else user code may wait for is not modelled. A handler has one nested `Call` at a time.
- JsonLink.Always: covers one direction of a JSON connection; the sharing of one stream by two directions is proved for gob in `NetInvariant`.
- ClientResults.NoLostCall: that a context which fires is noticed, or that a peer answers, is not claimed of every run; `NetRuns` shows that it can happen from every quiet state.
