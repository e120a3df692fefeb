/** Values that both halves of a connection exchange, and small helpers on maps and sequences. */
module Protocol {

  datatype Option<+T> = None | Some(value: T)

  // An argument or reply: its encoding is not part of the model.
  type Value = int

  // What a request asks for: a method of a registered service, or the
  // built-in `_goRPC_.Cancel`, whose argument names a sequence number.
  datatype Payload = Invoke(service: string, args: Value) | CancelOf(target: nat)

  const CANCEL := "_goRPC_.Cancel"

  function NameOf(p: Payload): string {
    if p.Invoke? then p.service else CANCEL
  }

  // A call of the built-in method is always written as CancelOf.
  predicate Proper(p: Payload) {
    p.Invoke? ==> p.service != CANCEL
  }

  // So the built-in method is told from all others by its name, and by nothing else.
  lemma CancelByName(p: Payload)
    requires Proper(p)
    ensures p.CancelOf? <==> NameOf(p) == "_goRPC_.Cancel"
    ensures p.Invoke? ==> NameOf(p) == p.service
  {
  }

  // A request on the wire: header (number, method) and body (arguments).
  datatype Request = Request(number: nat, payload: Payload)

  // A response on the wire: header (number, error text) and body.
  datatype Response = Response(number: nat, text: string, body: Value)

  // `Eof` is io.EOF itself; every other codec failure is a `Fault`.
  datatype IoError = Eof | Fault(code: int)

  // The error a call can end with.
  datatype Error =
    | Shutdown                // ErrShutdown
    | UnexpectedEof           // io.ErrUnexpectedEOF
    | Canceled                // context.Canceled
    | Io(cause: IoError)      // the codec's own error
    | Server(text: string)    // ServerError
    | BadBody(cause: IoError) // "reading body ..."
    | BadErrorBody(cause: IoError) // "reading error body: ..."

  // The state of `call.Error`, with the reply that goes with success.
  datatype Outcome = Unsettled | Ok(value: Value) | Err(error: Error)

  // The placeholder body of an error response (`invalidRequest`).
  const INVALID_REQUEST: Value := 0

  ghost predicate Increasing(s: seq<nat>) {
    forall i, j :: 0 <= i < j < |s| ==> s[i] < s[j]
  }

  ghost predicate Distinct<T>(s: seq<T>) {
    forall i, j :: 0 <= i < j < |s| ==> s[i] != s[j]
  }
}
