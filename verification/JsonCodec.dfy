/** The JSON codecs: what a response becomes on the wire and back, how the bidirectional
    codec tells requests from responses, and the id table updated in place. */
module JsonCodec {
  import opened Protocol
  import opened Pool
  import opened ServiceCall
  import opened JsonIds
  import S = ServerMachine
  import JS = JsonServing

  // ---- Results and errors --------------------------------------------------------------

  // The member `error` as decoded: absent or null, a string, or any other JSON value.
  datatype JsonError = NoError | Text(text: string) | Strange

  // The members `result` (null counts as absent) and `error`.
  datatype Members = Members(result: Option<Value>, error: JsonError)

  // What WriteResponse encodes; `isNull` says whether the reply encodes to JSON null.
  function Wrap(text: string, body: Value, isNull: bool): Members {
    if text != "" then Members(None, Text(text))
    else Members(if isNull then None else Some(body), NoError)
  }

  const UNSPECIFIED := "unspecified error"

  // The error text a response header gets; `None` is "invalid error", which stops the reader.
  function Unwrap(m: Members): Option<string> {
    if m.error != NoError || m.result == None then
      if m.error.Text? then Some(if m.error.text == "" then UNSPECIFIED else m.error.text)
      else None
    else Some("")
  }

  // A response comes back with its own text, and its body if it is no error, unless it
  // reports success with a reply that encodes to null: that one stops the reader. On the
  // wire an error has its text and no result, a success no error.
  lemma RoundTripIff(text: string, body: Value, isNull: bool)
    ensures Unwrap(Wrap(text, body, isNull)) == Some(text) <==> text != "" || !isNull
    ensures text == "" && isNull ==> Unwrap(Wrap(text, body, isNull)) == None
    ensures text == "" && !isNull ==> Wrap(text, body, isNull).result == Some(body)
    ensures Wrap(text, body, isNull).error == NoError <==> text == ""
    ensures text != "" ==> Wrap(text, body, isNull).result == None && Wrap(text, body, isNull).error == Text(text)
  {
  }

  // Whatever a peer sends: the header is good if and only if the error is a string, or
  // there is none and a result; an error header is never empty; and a success header comes
  // with a result, which ReadResponseBody can decode.
  lemma HeaderGoodIff(m: Members)
    ensures Unwrap(m).Some? <==> m.error.Text? || (m.error.NoError? && m.result.Some?)
    ensures Unwrap(m) == Some("") <==> m.error.NoError? && m.result.Some?
  {
  }

  // ---- The codec objects -----------------------------------------------------------------

  // A JSON message: absent and null members are None, an absent method is empty.
  datatype Json = Json(name: string, params: Option<Value>, id: Option<Id>, members: Members)

  const NO_MEMBERS: Members := Members(None, NoError)

  datatype HeaderError =
    | NotNumeric     // the id of a response is no number
    | InvalidError   // neither a result nor an error text

  // How reading a header ends. `Crashed`: jsonCodec dereferences the id of a response, and
  // there is none; the program does not survive that.
  datatype Reading = Good | Refused(error: HeaderError) | Crashed

  // What reading the header of response `m` yields. clientCodec decodes a missing id as 0.
  function ResponseHeader(m: Json, bidirectional: bool): (Reading, Fields) {
    match m.id
    case Some(Other(_)) => (Refused(NotNumeric), NO_FIELDS)
    case Some(Number(n)) => NumberedHeader(m, n)
    case None => if bidirectional then (Crashed, NO_FIELDS) else NumberedHeader(m, 0)
  }

  function NumberedHeader(m: Json, number: nat): (Reading, Fields) {
    var text := Unwrap(m.members);
    if text.None? then (Refused(InvalidError), Fields(number, "")) else (Good, Fields(number, text.value))
  }

  // What reading the body of a request yields: its arguments were not wanted, were
  // missing, were given.
  datatype Arguments = Skipped | Missing | Given(args: Value)

  // `jsonCodec` when bidirectional; otherwise `serverCodec` and `clientCodec`, whose
  // fields are disjoint.
  class Codec {
    const bidirectional: bool
    var last: nat
    var pending: map<nat, Option<Id>>
    var params: Option<Value>   // work space for the request being read
    var result: Option<Value>   // work space for the response being read
    var out: seq<Json>
    var crashed: bool

    function Ids(): Table
      reads this
    {
      Table(last, pending)
    }

    // Numbers start at 1; 0 is never registered. A crashed codec is never used again.
    ghost predicate Valid()
      reads this
    {
      !crashed && forall n :: n in pending ==> 1 <= n <= last
    }

    constructor (bidirectional: bool)
      ensures Valid() && this.bidirectional == bidirectional && Ids() == EMPTY && out == []
    {
      this.bidirectional := bidirectional;
      last, pending, params, result, out, crashed := 0, map[], None, None, [], false;
    }

    // A request header: the record gets the next number, unless the message is a
    // notification; then it keeps the number it has.
    method ReadRequestHeader(m: Json, req: Record<S.Object>)
      requires Valid()
      modifies this`last, this`pending, this`params, req`fields
      ensures Valid() && Ids() == Enter(old(Ids()), m.id, bidirectional) && params == m.params
      ensures req.fields == S.Object(NumberFor(old(Ids()), m.id, bidirectional, old(req.fields.number)), m.name)
      ensures m.id.Some? || !bidirectional ==> req.fields.number !in old(pending) && pending[req.fields.number] == m.id
    {
      params := m.params;
      req.fields := req.fields.(name := m.name);
      if m.id.Some? || !bidirectional {
        last := last + 1;
        pending := pending[last := m.id];
        req.fields := req.fields.(number := last);
      }
    }

    method ReadResponseHeader(m: Json, resp: Record<Fields>) returns (reading: Reading)
      requires Valid() && resp.fields == NO_FIELDS
      modifies this`result, this`crashed, resp`fields
      ensures (reading, resp.fields) == ResponseHeader(m, bidirectional)
      ensures Valid() <==> m.id.Some? || !bidirectional
      ensures reading.Good? ==> result == m.members.result
      ensures reading.Good? && resp.fields.text == "" ==> result.Some?
    {
      var number := 0;
      match m.id {
        case Some(Number(n)) => number := n;
        case Some(Other(_)) => return Refused(NotNumeric);
        case None =>
          if bidirectional {
            crashed := true;
            return Crashed;
          }
      }
      result := m.members.result;
      resp.fields := Fields(number, "");
      if m.members.error != NoError || m.members.result == None {
        if !m.members.error.Text? {
          return Refused(InvalidError);
        }
        var text := m.members.error.text;
        if text == "" {
          text := UNSPECIFIED;
        }
        resp.fields := Fields(number, text);
      }
      reading := Good;
    }

    // The reader of jsonCodec: a message with a method is a request, any other a response;
    // the record of the other kind is left alone. A response without an id is fatal.
    method ReadHeader(m: Json, req: Record<S.Object>, resp: Record<Fields>) returns (reading: Reading)
      requires Valid() && bidirectional && resp.fields == NO_FIELDS
      modifies this, req`fields, resp`fields
      ensures out == old(out) && (Valid() <==> m.name != "" || m.id.Some?)
      ensures if m.name != "" then
                && reading.Good? && resp.fields == NO_FIELDS && Ids() == Enter(old(Ids()), m.id, true)
                && req.fields == S.Object(NumberFor(old(Ids()), m.id, true, old(req.fields.number)), m.name)
              else (reading, resp.fields) == ResponseHeader(m, true) && req.fields == old(req.fields) && Ids() == old(Ids())
    {
      if m.name != "" {
        ReadRequestHeader(m, req);
        reading := Good;
      } else {
        reading := ReadResponseHeader(m, resp);
      }
    }

    method ReadRequestBody(wanted: bool) returns (a: Arguments)
      ensures a == if !wanted then Skipped else if params.None? then Missing else Given(params.value)
    {
      if !wanted {
        return Skipped;
      }
      if params == None {
        return Missing;
      }
      a := Given(params.value);
    }

    method WriteRequest(r: S.Object, param: Value)
      requires Valid()
      modifies this`out
      ensures Valid()
      ensures out == old(out) + [Json(r.name, Some(param), Some(Number(r.number)), NO_MEMBERS)]
    {
      out := out + [Json(r.name, Some(param), Some(Number(r.number)), NO_MEMBERS)];
    }

    // The response goes out with the id kept under its number, and the id is forgotten;
    // a number without an id there is refused and nothing changes.
    method WriteResponse(r: Fields, body: Value, isNull: bool) returns (ok: bool)
      requires Valid()
      modifies this`pending, this`out
      ensures Valid() && (ok <==> r.number in old(pending))
      ensures Ids() == Leave(old(Ids()), r.number)
      ensures out == if ok then old(out) + [Json("", None, old(pending)[r.number], Wrap(r.text, body, isNull))] else old(out)
    {
      if r.number !in pending {
        assert pending - {r.number} == pending;
        return false;
      }
      var id := pending[r.number];
      pending := pending - {r.number};
      var members := if r.text == "" then Members(if isNull then None else Some(body), NoError)
                     else Members(None, Text(r.text));
      out := out + [Json("", None, id, members)];
      ok := true;
    }
  }

  // A request is read and answered, with other traffic pending: the reply has its id, the
  // table is as it was, and a second answer is refused.
  method ReadThenAnswer(c: Codec, m: Json, req: Record<S.Object>, text: string, body: Value) returns (again: bool)
    requires c.Valid() && (m.id.Some? || !c.bidirectional)
    modifies c, req
    ensures c.Valid() && c.pending == old(c.pending) && c.last == old(c.last) + 1 && !again
    ensures c.out == old(c.out) + [Json("", None, m.id, Wrap(text, body, false))]
  {
    c.ReadRequestHeader(m, req);
    var ok := c.WriteResponse(Fields(req.fields.number, text), body, false);
    assert c.pending == old(c.pending);
    again := c.WriteResponse(Fields(req.fields.number, text), body, false);
  }

  // One call over the JSON codecs, from the client's WriteRequest to its
  // ReadResponseHeader, with other traffic pending at both: the server reads the method
  // and the arguments the client wrote, and the client reads the error text or the result
  // the server wrote, under its own number, unless the result is null.
  method CallRoundTrip(client: Codec, server: Codec, r: S.Object, param: Value,
                       req: Record<S.Object>, resp: Record<Fields>, text: string, body: Value, isNull: bool)
    returns (args: Arguments, reading: Reading)
    requires client != server && client.Valid() && server.Valid() && resp.fields == NO_FIELDS
    modifies client, server, req, resp
    ensures client.Valid() && server.Valid() && server.pending == old(server.pending)
    ensures req.fields.name == r.name && req.fields.number == old(server.last) + 1 && args == Given(param)
    ensures if text != "" || !isNull then reading == Good && resp.fields == Fields(r.number, text)
            else reading == Refused(InvalidError)
    ensures text == "" && !isNull ==> client.result == Some(body)
  {
    client.WriteRequest(r, param);
    server.ReadRequestHeader(client.out[|client.out| - 1], req);
    args := server.ReadRequestBody(true);
    var ok := server.WriteResponse(Fields(req.fields.number, text), body, isNull);
    assert server.pending == old(server.pending);
    RoundTripIff(text, body, isNull);
    reading := client.ReadResponseHeader(server.out[|server.out| - 1], resp);
  }

  // A notification read into a zeroed record cannot be answered.
  method NotificationUnanswerable(c: Codec, m: Json, pool: FreeList<S.Object>, text: string, body: Value) returns (ok: bool)
    requires c.Valid() && c.bidirectional && m.id == None && pool.Valid() && pool.zero == S.ZERO
    modifies c, pool, pool.list
    ensures !ok && c.out == old(c.out) && c.pending == old(c.pending)
  {
    var req := pool.Get();
    c.ReadRequestHeader(m, req);
    ok := c.WriteResponse(Fields(req.fields.number, text), body, false);
  }

  // ---- End to end ----------------------------------------------------------------------

  // The message that puts output `o` on the wire.
  function OnWire(o: JS.Output, isNull: bool): Json {
    Json("", None, o.reply.id, Wrap(o.reply.text, o.reply.body, isNull))
  }

  // In any run of a JSON server, a client of this library that sent its number as the id
  // of a request reads the response to that request under that number: the error text and
  // the result are those that its method returned, unless it is a null reply.
  lemma ReplyReachesCaller(s: JS.State, i: nat, n: nat, isNull: bool, bidirectional: bool, client: bool)
    requires JS.Reachable(s, bidirectional) && i < |s.out| && s.out[i].job < |s.raws|
    requires s.raws[s.out[i].job] == Some(Number(n))
    ensures s.out[i].job < |s.server.jobs|
    ensures var m := OnWire(s.out[i], isNull);
            var o := s.out[i].reply;
            && (ResponseHeader(m, client) == (Good, Fields(n, o.text)) <==> o.text != "" || !isNull)
            && (o.text == "" && isNull ==> ResponseHeader(m, client).0 == Refused(InvalidError))
            && (o.text == "" && !isNull ==> m.members.result == Some(o.body))
    ensures var j := s.server.jobs[s.out[i].job];
            if j.inReader then s.out[i].reply.text != "" && j.reason == Some(s.out[i].reply.text)
            else
              && j.result.Some?
              && s.out[i].reply.text == S.Reply(n, j.result.value).text
              && s.out[i].reply.body == S.Reply(n, j.result.value).body
  {
    JS.RightId(s, i, i, bidirectional);
    JS.Refusals(s, i, bidirectional);
    RoundTripIff(s.out[i].reply.text, s.out[i].reply.body, isNull);
  }
}
