/** The gob codecs: which fields of a header travel, how a reader of the bidirectional
    codec tells requests from responses, and what a failed write leaves on the stream. */
module GobCodec {
  import opened Protocol
  import opened Pool
  import opened ServiceCall
  import opened FrameStream
  import S = ServerMachine
  import N = Net

  const ZERO_HEADER: Header := Header(0, "", "")

  // gob sends the fields of a struct that are not zero.
  datatype Sparse = Sparse(number: Option<nat>, name: Option<string>, text: Option<string>)

  // What one Encode puts on the stream: a struct, of which only the fields that a header
  // has too matter here, or any other value. A body may be either: that of a Cancel is a
  // struct with a field Seq.
  datatype GobItem = Struct(fields: Sparse) | Opaque(body: Value)

  // The body of `_goRPC_.Cancel`.
  function CancelArgs(target: nat): GobItem {
    Struct(Sparse(if target == 0 then None else Some(target), None, None))
  }

  function Encode(h: Header): Sparse {
    Sparse(if h.number == 0 then None else Some(h.number),
           if h.name == "" then None else Some(h.name),
           if h.text == "" then None else Some(h.text))
  }

  // Decoding leaves a field of the target alone when it was not sent.
  function Decode(s: Sparse, target: Header): Header {
    Header(if s.number.Some? then s.number.value else target.number,
           if s.name.Some? then s.name.value else target.name,
           if s.text.Some? then s.text.value else target.text)
  }

  // A header arrives as it was sent exactly when the target is zero wherever the header is:
  // always for a zeroed target, which is why request and response records are zeroed.
  lemma ArrivesIff(h: Header, target: Header)
    ensures Decode(Encode(h), target) == h <==>
              (h.number == 0 ==> target.number == 0) && (h.name == "" ==> target.name == "")
              && (h.text == "" ==> target.text == "")
    ensures Decode(Encode(h), ZERO_HEADER) == h
  {
  }

  // ---- Kinds -------------------------------------------------------------------------

  datatype Message = Ask(number: nat, name: string, body: GobItem) | Answer(number: nat, text: string, body: GobItem)

  function HeaderOf(m: Message): Header {
    match m
    case Ask(n, name, _) => Header(n, name, "")
    case Answer(n, text, _) => Header(n, "", text)
  }

  // The union message of `ReadHeader`, decoded into a fresh target.
  function Classify(s: Sparse, body: GobItem): Message {
    var h := Decode(s, ZERO_HEADER);
    if h.name != "" then Ask(h.number, h.name, body) else Answer(h.number, h.text, body)
  }

  // A message keeps its kind and all its fields unless it is a request without a name.
  lemma KindIff(m: Message)
    ensures Classify(Encode(HeaderOf(m)), m.body) == m <==> m.Answer? || m.name != ""
  {
    ArrivesIff(HeaderOf(m), ZERO_HEADER);
  }

  // The reading that `Net` is built on is this codec's.
  lemma NetReadsLikeGob(f: N.Frame)
    ensures var m := if f.Asks? then Ask(f.request.number, NameOf(f.request.payload), Opaque(0))
                     else Answer(f.response.number, f.response.text, Opaque(f.response.body));
            var got := Classify(Encode(HeaderOf(m)), m.body);
            match N.Read(f)
            case Asks(q) => got == Ask(q.number, NameOf(q.payload), Opaque(0))
            case Answers(r) => got.Answer? && got.number == r.number && got.text == r.text
  {
  }

  // ---- Streams -----------------------------------------------------------------------

  function EncodeAll(ms: seq<Message>): seq<GobItem> {
    if ms == [] then []
    else [Struct(Encode(HeaderOf(ms[0]))), ms[0].body] + EncodeAll(ms[1..])
  }

  // The messages a reader makes of a stream: it decodes a header and gives the next item to
  // a body read, whatever that is and whether or not it fits, and stops only at an item
  // that cannot be a header. (It may stop sooner, after a response whose body does not fit.)
  function DecodeAll(items: seq<GobItem>): seq<Message> {
    if |items| >= 2 && items[0].Struct?
    then [Classify(items[0].fields, items[1])] + DecodeAll(items[2..])
    else []
  }

  predicate Unnamed(m: Message) {
    m.Ask? && m.name == ""
  }

  // What the reader makes of a request without a name.
  function Misread(m: Message): Message {
    if Unnamed(m) then Answer(m.number, "", m.body) else m
  }

  function Misreads(ms: seq<Message>): seq<Message> {
    seq(|ms|, i requires 0 <= i < |ms| => Misread(ms[i]))
  }

  // Any stream of messages arrives as it was sent, in order and of the same kinds, if and
  // only if every request names a method.
  lemma {:induction false} StreamRoundTrip(ms: seq<Message>)
    ensures DecodeAll(EncodeAll(ms)) == ms <==> forall i :: 0 <= i < |ms| ==> !Unnamed(ms[i])
  {
    ReadsOn(ms, []);
    assert EncodeAll(ms) + [] == EncodeAll(ms);
    if i: nat :| i < |ms| && Unnamed(ms[i]) {
      assert Misreads(ms)[i] != ms[i];
    } else {
      assert Misreads(ms) == ms;
    }
  }

  // ---- The codec objects -------------------------------------------------------------

  // Whether Encode of the header, Encode of the body, or neither fails.
  datatype Fate = Fine | HeaderFails(cause: IoError) | BodyFails(cause: IoError)

  // What a write puts on the stream.
  function Written(h: Header, body: GobItem, fate: Fate): seq<GobItem> {
    match fate
    case Fine => [Struct(Encode(h)), body]
    case HeaderFails(_) => []
    case BodyFails(_) => [Struct(Encode(h))]
  }

  // How a turn of the reader ends: a handler gets the arguments, the request is refused, the
  // response is ignored, a call gets an error or its reply, or the loop ends.
  datatype TurnEnd =
    | Handed(args: GobItem)
    | Refused
    | Ignored
    | Failed(text: string)
    | Replied(body: GobItem)
    | Ended(error: IoError)

  // What a message means for the reader when its method is known, a call waits for it, and
  // its body fits.
  function TurnFor(m: Message, known: bool, awaited: bool, fits: bool): TurnEnd {
    match m
    case Ask(_, _, body) => if known && fits then Handed(body) else Refused
    case Answer(_, text, body) =>
      if !awaited then Ignored
      else if text != "" then Failed(text)
      else if fits then Replied(body)
      else Ended(Fault(1))
  }

  // The branch of the reader's code, and whether its body read succeeds: reading into nil
  // always does.
  function BranchFor(h: Header, known: bool, awaited: bool): Branch {
    if h.name != "" then (if known then Arguments else UnknownMethod)
    else if !awaited then Nobody
    else if h.text != "" then ErrorText
    else Reply
  }

  predicate BodyIsRead(b: Branch, fits: bool) {
    b.Arguments? || b.Reply? ==> fits
  }

  // A gob item stands for an item of the stream machine: a header for itself, anything for
  // a body.
  predicate StandsFor(item: GobItem, i: Item) {
    i.Head? ==> item == Struct(Encode(i.header))
  }

  lemma ThreeSteps(s: State, a: Step, b: Step, c: Step)
    requires Enabled(s, a) && Enabled(Apply(s, a), b) && Enabled(Apply(Apply(s, a), b), c)
    ensures Exec(s, [a, b, c]) == Some(Apply(Apply(Apply(s, a), b), c))
  {
    hide Enabled, Apply;
    var t := Apply(Apply(Apply(s, a), b), c);
    assert Exec(t, []) == Some(t);
    assert [c][1..] == [];
    assert Exec(Apply(Apply(s, a), b), [c]) == Some(t);
    assert [b, c][1..] == [c];
    assert Exec(Apply(s, a), [b, c]) == Some(t);
    assert [a, b, c][1..] == [b, c];
  }

  // The stream machine's turn is that of `ReadMessage`: on items that stand for each other,
  // decoding a header, taking the code's branch and reading its body consumes the same two
  // items, and the machine stops exactly when `ReadMessage` ends the loop.
  lemma TurnIsReadMessage(s: State, items: seq<GobItem>, known: bool, awaited: bool, fits: bool) returns (t: State)
    requires s.reader.Top? && |items| >= 2 && items[0].Struct? && s.position + 2 <= |s.stream|
    requires StandsFor(items[0], s.stream[s.position]) && StandsFor(items[1], s.stream[s.position + 1])
    ensures var h := Decode(items[0].fields, ZERO_HEADER);
            var b := BranchFor(h, known, awaited);
            && Exec(s, [DecodeHeader(Some(h)), Choose(b), DecodeBody(BodyIsRead(b, fits))]) == Some(t)
            && t.position == s.position + 2 && t.turns == s.turns + [Turn(h, b, s.stream[s.position + 1])]
            && t.stream == s.stream && t.written == s.written && t.stray == s.stray
    ensures t.reader == if TurnFor(Classify(items[0].fields, items[1]), known, awaited, fits).Ended? then Stopped else Top
  {
    hide Exec;
    var h := Decode(items[0].fields, ZERO_HEADER);
    var b := BranchFor(h, known, awaited);
    if s.stream[s.position].Head? {
      ArrivesIff(s.stream[s.position].header, ZERO_HEADER);
    }
    ThreeSteps(s, DecodeHeader(Some(h)), Choose(b), DecodeBody(BodyIsRead(b, fits)));
    t := Apply(Apply(Apply(s, DecodeHeader(Some(h))), Choose(b)), DecodeBody(BodyIsRead(b, fits)));
  }

  // `gobCodec`: its encoder writes to the connection itself, not to `encBuf`, so what was
  // encoded is on the stream even when a write fails, and Flush has nothing to do.
  class BirpcGobCodec {
    var incoming: seq<GobItem>
    var outgoing: seq<GobItem>
    var closed: bool

    constructor (incoming: seq<GobItem>)
      ensures this.incoming == incoming && outgoing == [] && !closed
    {
      this.incoming := incoming;
      outgoing, closed := [], false;
    }

    method WriteRequest(r: S.Object, body: GobItem, fate: Fate) returns (error: Option<IoError>)
      modifies this`outgoing
      ensures outgoing == old(outgoing) + Written(Header(r.number, r.name, ""), body, fate)
      ensures error.None? <==> fate.Fine?
    {
      if fate.HeaderFails? {
        return Some(fate.cause);
      }
      outgoing := outgoing + [Struct(Encode(Header(r.number, r.name, "")))];
      if fate.BodyFails? {
        return Some(fate.cause);
      }
      outgoing := outgoing + [body];
      error := None;
    }

    // A failed response closes the connection; a failed request does not.
    method WriteResponse(r: Fields, body: GobItem, fate: Fate) returns (error: Option<IoError>)
      modifies this`outgoing, this`closed
      ensures outgoing == old(outgoing) + Written(Header(r.number, "", r.text), body, fate)
      ensures error.None? <==> fate.Fine?
      ensures closed <==> old(closed) || !fate.Fine?
    {
      if fate.HeaderFails? {
        closed := true;
        return Some(fate.cause);
      }
      outgoing := outgoing + [Struct(Encode(Header(r.number, "", r.text)))];
      if fate.BodyFails? {
        closed := true;
        return Some(fate.cause);
      }
      outgoing := outgoing + [body];
      error := None;
    }

    // One of the two records gets the header, the other is left alone.
    method ReadHeader(req: Record<S.Object>, resp: Record<Fields>) returns (error: Option<IoError>)
      modifies this`incoming, req`fields, resp`fields
      ensures error.None? <==> old(incoming) != [] && old(incoming)[0].Struct?
      ensures error.Some? ==> req.fields == old(req.fields) && resp.fields == old(resp.fields)
      ensures outgoing == old(outgoing) && closed == old(closed)
      ensures error.None? ==>
                && incoming == old(incoming)[1..]
                && match Classify(old(incoming)[0].fields, Opaque(0))
                   case Ask(n, name, _) => req.fields == S.Object(n, name) && resp.fields == old(resp.fields)
                   case Answer(n, text, _) => resp.fields == Fields(n, text) && req.fields == old(req.fields)
    {
      if incoming == [] {
        return Some(Eof);
      }
      var item := incoming[0];
      incoming := incoming[1..];
      if !item.Struct? {
        return Some(Fault(0));
      }
      var msg := Decode(item.fields, ZERO_HEADER);
      if msg.name != "" {
        req.fields := S.Object(msg.number, msg.name);
      } else {
        resp.fields := Fields(msg.number, msg.text);
      }
      error := None;
    }

    // ReadRequestBody and ReadResponseBody: one Decode, into a value of the caller's type,
    // which the item may not fit, or, for nil, into nothing.
    method ReadBody(wanted: bool, fits: bool) returns (item: Option<GobItem>, error: Option<IoError>)
      modifies this`incoming
      ensures incoming == if old(incoming) == [] then [] else old(incoming)[1..]
      ensures error == if old(incoming) == [] then Some(Eof) else if wanted && !fits then Some(Fault(1)) else None
      ensures item == if wanted && error.None? then Some(old(incoming)[0]) else None
    {
      item := None;
      if incoming == [] {
        return None, Some(Eof);
      }
      var next := incoming[0];
      incoming := incoming[1..];
      if wanted {
        if !fits {
          return None, Some(Fault(1));
        }
        item := Some(next);
      }
      error := None;
    }

    // One turn of `BirpcClient.input`, from ReadHeader to the body read of the branch it
    // takes. `known`: the method exists; `awaited`: a call waits for the response; `fits`:
    // the body can be decoded into what the branch wants. Every branch consumes exactly
    // one body, also those that have no use for it, and only a response whose body cannot
    // be read ends the loop.
    method ReadMessage(req: Record<S.Object>, resp: Record<Fields>, known: bool, awaited: bool, fits: bool)
      returns (turn: TurnEnd)
      requires req.fields == S.ZERO && resp.fields == NO_FIELDS
      modifies this`incoming, req`fields, resp`fields
      ensures |old(incoming)| >= 2 && old(incoming)[0].Struct? ==>
                && incoming == old(incoming)[2..]
                && match Classify(old(incoming)[0].fields, old(incoming)[1])
                   case Ask(n, name, _) => req.fields == S.Object(n, name) && resp.fields == NO_FIELDS
                   case Answer(n, text, _) => resp.fields == Fields(n, text) && req.fields == S.ZERO
      ensures |old(incoming)| >= 2 && old(incoming)[0].Struct? ==>
                turn == TurnFor(Classify(old(incoming)[0].fields, old(incoming)[1]), known, awaited, fits)
      ensures old(incoming) == [] || !old(incoming)[0].Struct? ==> turn.Ended?
      ensures |old(incoming)| == 1 && old(incoming)[0].Struct? ==>
                incoming == [] && turn == if Classify(old(incoming)[0].fields, Opaque(0)).Ask? then Refused else Ended(Eof)
    {
      var error := ReadHeader(req, resp);
      if error.Some? {
        return Ended(error.value);
      }
      var item;
      if req.fields.name != "" {
        item, error := ReadBody(known, fits);
        turn := if known && error.None? then Handed(item.value) else Refused;
      } else if !awaited {
        item, error := ReadBody(false, fits);
        turn := if error.Some? then Ended(error.value) else Ignored;
      } else if resp.fields.text != "" {
        item, error := ReadBody(false, fits);
        turn := if error.Some? then Ended(error.value) else Failed(resp.fields.text);
      } else {
        item, error := ReadBody(true, fits);
        turn := if error.Some? then Ended(error.value) else Replied(item.value);
      }
    }
  }

  // `gobServerCodec` and `gobClientCodec`: the encoder writes to a buffer that is flushed
  // when the message is whole.
  class BufferedCodec {
    var buffer: seq<GobItem>
    var outgoing: seq<GobItem>
    var closed: bool

    constructor ()
      ensures buffer == [] && outgoing == [] && !closed
    {
      buffer, outgoing, closed := [], [], false;
    }

    method Flush()
      modifies this`buffer, this`outgoing
      ensures buffer == [] && outgoing == old(outgoing) + old(buffer)
    {
      outgoing := outgoing + buffer;
      buffer := [];
    }

    // The peer sees header and body together or not at all, until a later flush: a body
    // that cannot be encoded leaves its header in the buffer.
    method WriteRequest(r: S.Object, body: GobItem, fate: Fate) returns (error: Option<IoError>)
      modifies this`buffer, this`outgoing
      ensures error.None? <==> fate.Fine?
      ensures var all := old(buffer) + Written(Header(r.number, r.name, ""), body, fate);
              if fate.Fine? then outgoing == old(outgoing) + all && buffer == []
              else outgoing == old(outgoing) && buffer == all
    {
      if fate.HeaderFails? {
        return Some(fate.cause);
      }
      buffer := buffer + [Struct(Encode(Header(r.number, r.name, "")))];
      if fate.BodyFails? {
        return Some(fate.cause);
      }
      buffer := buffer + [body];
      Flush();
      error := None;
    }

    method WriteResponse(r: Fields, body: GobItem, fate: Fate) returns (error: Option<IoError>)
      modifies this`buffer, this`outgoing, this`closed
      ensures error.None? <==> fate.Fine?
      ensures outgoing == old(outgoing) + old(buffer) + Written(Header(r.number, "", r.text), body, fate) && buffer == []
      ensures closed <==> old(closed) || !fate.Fine?
    {
      if !fate.HeaderFails? {
        buffer := buffer + [Struct(Encode(Header(r.number, "", r.text)))];
        if fate.Fine? {
          buffer := buffer + [body];
        }
      }
      Flush();
      if !fate.Fine? {
        Close();
        return Some(fate.cause);
      }
      error := None;
    }

    method Close()
      modifies this`closed
      ensures closed
    {
      if !closed {
        closed := true;
      }
    }
  }

  // ---- After a stray header ------------------------------------------------------------

  // Reading that starts at a body: each body is taken for a header, as far as it can be,
  // and the header after it for its body.
  function Shifted(body: GobItem, ms: seq<Message>): seq<Message>
    decreases |ms|
  {
    if body.Struct? && ms != []
    then [Classify(body.fields, Struct(Encode(HeaderOf(ms[0]))))] + Shifted(ms[0].body, ms[1..])
    else []
  }

  lemma {:induction false} ReadsShifted(body: GobItem, ms: seq<Message>)
    ensures DecodeAll([body] + EncodeAll(ms)) == Shifted(body, ms)
    decreases |ms|
  {
    var items := [body] + EncodeAll(ms);
    if body.Struct? && ms != [] {
      ReadsShifted(ms[0].body, ms[1..]);
      assert items[2..] == [ms[0].body] + EncodeAll(ms[1..]);
      assert items[1] == Struct(Encode(HeaderOf(ms[0])));
    }
  }

  lemma ClassifyIs(m: Message)
    ensures Classify(Encode(HeaderOf(m)), m.body) == Misread(m)
  {
  }

  // One message, whatever follows it.
  lemma ReadsFirst(m: Message, rest: seq<GobItem>)
    ensures DecodeAll([Struct(Encode(HeaderOf(m))), m.body] + rest) == [Misread(m)] + DecodeAll(rest)
  {
    hide HeaderOf, Encode, Classify, Misread;
    ClassifyIs(m);
    var items := [Struct(Encode(HeaderOf(m))), m.body] + rest;
    assert items[2..] == rest;
  }

  lemma {:induction false} ReadsOn(before: seq<Message>, rest: seq<GobItem>)
    ensures DecodeAll(EncodeAll(before) + rest) == Misreads(before) + DecodeAll(rest)
    decreases |before|
  {
    hide DecodeAll, HeaderOf, Encode, Misread;
    if before == [] {
      assert EncodeAll(before) + rest == rest;
    } else {
      var first := [Struct(Encode(HeaderOf(before[0]))), before[0].body];
      ReadsOn(before[1..], rest);
      ReadsFirst(before[0], EncodeAll(before[1..]) + rest);
      assert EncodeAll(before) + rest == first + (EncodeAll(before[1..]) + rest);
      assert Misreads(before) == [Misread(before[0])] + Misreads(before[1..]);
    }
  }

  // A request whose body could not be encoded is reported and withdrawn, but its header
  // stays in front of the next message. The peer receives what was sent before it, takes
  // the next header for the lost request's body, and from then on reads bodies as headers.
  lemma StrayHeaderShifts(before: seq<Message>, lost: Message, after: seq<Message>)
    ensures DecodeAll(EncodeAll(before) + ([Struct(Encode(HeaderOf(lost)))] + EncodeAll(after)))
            == Misreads(before)
               + if after == [] then []
                 else [Classify(Encode(HeaderOf(lost)), Struct(Encode(HeaderOf(after[0]))))] + Shifted(after[0].body, after[1..])
  {
    hide DecodeAll, EncodeAll, Shifted, Misreads, Classify, HeaderOf;
    ReadsOn(before, [Struct(Encode(HeaderOf(lost)))] + EncodeAll(after));
    if after == [] {
      NothingAfter(Encode(HeaderOf(lost)), after);
    } else {
      HeaderForBody(Encode(HeaderOf(lost)), after);
    }
  }

  // A header with nothing after it gives no message.
  lemma NothingAfter(header: Sparse, after: seq<Message>)
    requires after == []
    ensures DecodeAll([Struct(header)] + EncodeAll(after)) == []
  {
  }

  // With messages after it, the header of the first one is its body.
  lemma HeaderForBody(header: Sparse, after: seq<Message>)
    requires after != []
    ensures DecodeAll([Struct(header)] + EncodeAll(after))
            == [Classify(header, Struct(Encode(HeaderOf(after[0]))))] + Shifted(after[0].body, after[1..])
  {
    hide Classify, HeaderOf, Encode, Shifted;
    var items := [Struct(header)] + EncodeAll(after);
    ReadsShifted(after[0].body, after[1..]);
    assert items[1] == Struct(Encode(HeaderOf(after[0])));
    assert items[2..] == [after[0].body] + EncodeAll(after[1..]);
  }

  // So the body of a Cancel, when it is read as a header, is a response without error to
  // the number it names.
  lemma CancelReadAsResponse(target: nat, ms: seq<Message>)
    requires ms != []
    ensures Shifted(CancelArgs(target), ms) != []
    ensures Shifted(CancelArgs(target), ms)[0] == Answer(target, "", Struct(Encode(HeaderOf(ms[0]))))
  {
  }
}
