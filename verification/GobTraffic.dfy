/** What the gob codecs write is what they read: sequences of writes, whole or failing, the
    messages a peer makes of them, and what a turn of the reader means for calls and
    handlers. */
module GobTraffic {
  import opened Protocol
  import opened Pool
  import opened ServiceCall
  import opened GobCodec
  import S = ServerMachine
  import F = FrameStream
  import B = BasicClient
  import SL = ServeLoop

  // ---- Sequences of writes ---------------------------------------------------------------

  // A call of WriteRequest or WriteResponse, and how it ends.
  datatype Write = Write(message: Message, fate: Fate)

  // What these writes, one after the other, put on the stream.
  function Output(ws: seq<Write>): seq<GobItem> {
    if ws == [] then []
    else Written(HeaderOf(ws[0].message), ws[0].message.body, ws[0].fate) + Output(ws[1..])
  }

  // The messages whose writes succeeded.
  function Whole(ws: seq<Write>): seq<Message> {
    if ws == [] then []
    else (if ws[0].fate.Fine? then [ws[0].message] else []) + Whole(ws[1..])
  }

  // No body failed after its header.
  predicate NoStray(ws: seq<Write>) {
    forall i :: 0 <= i < |ws| ==> !ws[i].fate.BodyFails?
  }

  lemma {:induction false} OutputIs(ws: seq<Write>)
    requires NoStray(ws)
    ensures Output(ws) == EncodeAll(Whole(ws))
    decreases |ws|
  {
    hide HeaderOf, Encode;
    if ws != [] {
      OutputIs(ws[1..]);
      assert !ws[0].fate.BodyFails?;
      if ws[0].fate.Fine? {
        assert Whole(ws)[1..] == Whole(ws[1..]);
      } else {
        assert Whole(ws) == Whole(ws[1..]) && Output(ws) == Output(ws[1..]);
      }
    }
  }

  lemma {:induction false} OutputConcat(vs: seq<Write>, ws: seq<Write>)
    ensures Output(vs + ws) == Output(vs) + Output(ws)
    decreases |vs|
  {
    hide Written, HeaderOf;
    if vs == [] {
      assert vs + ws == ws;
    } else {
      OutputConcat(vs[1..], ws);
      assert (vs + ws)[1..] == vs[1..] + ws;
    }
  }

  // As long as no body fails after its header, the peer reads exactly the messages whose
  // writes succeeded, in order; a write whose header failed leaves no trace.
  lemma WritesRead(ws: seq<Write>)
    requires NoStray(ws)
    ensures DecodeAll(Output(ws)) == Misreads(Whole(ws))
  {
    OutputIs(ws);
    ReadsOn(Whole(ws), []);
    assert EncodeAll(Whole(ws)) + [] == EncodeAll(Whole(ws));
  }

  // A body that fails leaves exactly one stray header: what was written before it is read
  // as it was sent, the next header is taken for the lost body, and everything after that
  // is read shifted.
  lemma FailedBodyShifts(before: seq<Write>, lost: Write, after: seq<Write>)
    requires NoStray(before) && lost.fate.BodyFails? && NoStray(after)
    ensures DecodeAll(Output(before + [lost] + after))
            == Misreads(Whole(before))
               + var ms := Whole(after);
                 if ms == [] then []
                 else [Classify(Encode(HeaderOf(lost.message)), Struct(Encode(HeaderOf(ms[0]))))] + Shifted(ms[0].body, ms[1..])
  {
    hide DecodeAll, EncodeAll, Shifted, Classify, HeaderOf, Encode, Output, Whole, Misreads, NoStray;
    OutputConcat(before + [lost], after);
    OutputConcat(before, [lost]);
    OutputIs(before);
    OutputIs(after);
    StrayOutput(lost);
    StrayHeaderShifts(Whole(before), lost.message, Whole(after));
    var stray := [Struct(Encode(HeaderOf(lost.message)))];
    assert (EncodeAll(Whole(before)) + stray) + EncodeAll(Whole(after))
           == EncodeAll(Whole(before)) + (stray + EncodeAll(Whole(after)));
  }

  lemma StrayOutput(lost: Write)
    requires lost.fate.BodyFails?
    ensures Output([lost]) == [Struct(Encode(HeaderOf(lost.message)))]
  {
    assert [lost][1..] == [];
  }

  // ---- A write and the stream machine ----------------------------------------------------

  function StepsOf(w: nat, fate: Fate): seq<F.Step> {
    match fate
    case Fine => [F.EncodeHeader(w), F.EncodeBody(w)]
    case HeaderFails(_) => [F.FailHeader(w)]
    case BodyFails(_) => [F.EncodeHeader(w), F.FailBody(w)]
  }

  lemma TwoSteps(s: F.State, a: F.Step, b: F.Step)
    requires F.Enabled(s, a) && F.Enabled(F.Apply(s, a), b)
    ensures F.Exec(s, [a, b]) == Some(F.Apply(F.Apply(s, a), b))
  {
    hide F.Enabled, F.Apply;
    var t := F.Apply(F.Apply(s, a), b);
    assert F.Exec(t, []) == Some(t);
    assert [b][1..] == [];
    assert F.Exec(F.Apply(s, a), [b]) == Some(t);
    assert [a, b][1..] == [b];
  }

  // A write is the run of the stream machine that its fate names: the stream grows by items
  // that stand for each other, the header first, and a header without a body is stray.
  lemma WriteIsSteps(s: F.State, w: nat, h: F.Header, value: Value, body: GobItem, fate: Fate) returns (t: F.State)
    requires w < |s.writers| && s.writers[w] == F.Locked(F.Frame(h, value))
    ensures F.Exec(s, StepsOf(w, fate)) == Some(t) && t.writers == s.writers[w := F.Finished] && t.reader == s.reader
    ensures var items := Written(h, body, fate);
            && |t.stream| == |s.stream| + |items| && t.stream[..|s.stream|] == s.stream
            && forall i :: 0 <= i < |items| ==>
                 && StandsFor(items[i], t.stream[|s.stream| + i])
                 && (t.stream[|s.stream| + i].Head? <==> i == 0)
                 && (i > 0 ==> items[i] == body && t.stream[|s.stream| + i] == F.Body(value))
    ensures t.written == (if fate.Fine? then s.written + [F.Frame(h, value)] else s.written)
    ensures t.stray == (if fate.BodyFails? && s.stray.None? then Some(|s.stream|) else s.stray)
  {
    hide F.Exec;
    match fate
    case Fine =>
      TwoSteps(s, F.EncodeHeader(w), F.EncodeBody(w));
      t := F.Apply(F.Apply(s, F.EncodeHeader(w)), F.EncodeBody(w));
    case HeaderFails(_) =>
      t := F.Apply(s, F.FailHeader(w));
      OneStep(s, F.FailHeader(w));
    case BodyFails(_) =>
      TwoSteps(s, F.EncodeHeader(w), F.FailBody(w));
      t := F.Apply(F.Apply(s, F.EncodeHeader(w)), F.FailBody(w));
  }

  lemma OneStep(s: F.State, a: F.Step)
    requires F.Enabled(s, a)
    ensures F.Exec(s, [a]) == Some(F.Apply(s, a))
  {
    hide F.Enabled, F.Apply;
    assert F.Exec(F.Apply(s, a), []) == Some(F.Apply(s, a));
    assert [a][1..] == [];
  }

  // ---- A write and a turn of the peer's reader -------------------------------------------

  // A request that names a method, written and read over `gobCodec` behind any other
  // traffic: the peer's record has its number and method, the response record is untouched,
  // and a handler gets its arguments unless the method is unknown or they do not fit.
  method RequestArrives(writer: BirpcGobCodec, reader: BirpcGobCodec, q: S.Object, body: GobItem,
                        req: Record<S.Object>, resp: Record<Fields>, known: bool, fits: bool)
    returns (turn: TurnEnd)
    requires writer != reader && q.name != "" && req.fields == S.ZERO && resp.fields == NO_FIELDS
    modifies writer`outgoing, reader`incoming, req`fields, resp`fields
    ensures req.fields == q && resp.fields == NO_FIELDS && reader.incoming == []
    ensures turn == if known && fits then Handed(body) else Refused
  {
    var before := |writer.outgoing|;
    var error := writer.WriteRequest(q, body, Fine);
    reader.incoming := writer.outgoing[before..];
    KindIff(Ask(q.number, q.name, body));
    turn := reader.ReadMessage(req, resp, known, true, fits);
  }

  // Likewise a response: the call that waits for it gets its error text, or its body if
  // that fits; without such a call it is ignored.
  method ResponseArrives(writer: BirpcGobCodec, reader: BirpcGobCodec, f: Fields, body: GobItem,
                         req: Record<S.Object>, resp: Record<Fields>, awaited: bool, fits: bool)
    returns (turn: TurnEnd)
    requires writer != reader && req.fields == S.ZERO && resp.fields == NO_FIELDS
    modifies writer`outgoing, writer`closed, reader`incoming, req`fields, resp`fields
    ensures resp.fields == f && req.fields == S.ZERO && reader.incoming == [] && writer.closed == old(writer.closed)
    ensures !awaited ==> turn == Ignored
    ensures awaited && f.text != "" ==> turn == Failed(f.text)
    ensures awaited && f.text == "" ==> if fits then turn == Replied(body) else turn.Ended?
  {
    var before := |writer.outgoing|;
    var error := writer.WriteResponse(f, body, Fine);
    reader.incoming := writer.outgoing[before..];
    KindIff(Answer(f.number, f.text, body));
    turn := reader.ReadMessage(req, resp, true, awaited, fits);
  }

  // Over a buffered codec: a request whose body could not be encoded stays behind as a
  // header; when the next request is written, the peer reads what was sent before, and then
  // the lost header with the next one for its body.
  method LostThenSent(c: BufferedCodec, before: seq<Message>, lost: S.Object, next: S.Object, cause: IoError, body: GobItem)
    requires c.buffer == [] && c.outgoing == EncodeAll(before)
    modifies c`buffer, c`outgoing
    ensures c.buffer == []
    ensures DecodeAll(c.outgoing)
            == Misreads(before) + [Classify(Encode(F.Header(lost.number, lost.name, "")),
                                            Struct(Encode(F.Header(next.number, next.name, ""))))]
  {
    hide DecodeAll, Shifted, Misreads, Classify;
    ghost var first, second := Ask(lost.number, lost.name, body), Ask(next.number, next.name, body);
    var error := c.WriteRequest(lost, body, BodyFails(cause));
    error := c.WriteRequest(next, body, Fine);
    StrayHeaderShifts(before, first, [second]);
    assert EncodeAll([second]) == [Struct(Encode(HeaderOf(second))), body];
    assert c.outgoing == EncodeAll(before) + ([Struct(Encode(HeaderOf(first)))] + EncodeAll([second]));
    NothingShifted(body);
  }

  lemma NothingShifted(body: GobItem)
    ensures Shifted(body, []) == []
  {
  }

  // ---- What a turn means -----------------------------------------------------------------

  // A request, with the texts that would refuse it: `TurnFor` hands it to a handler exactly
  // when the serving loop would, and the reader takes the branch that wants the arguments
  // exactly when the method is known.
  lemma AskedTurn(m: Message, payload: Payload, why: string, other: string, known: bool, awaited: bool, fits: bool)
    requires m.Ask? && m.name != ""
    ensures var a := SL.Arrival(Request(m.number, payload), if known then None else Some(why),
                                if known && !fits then Some(other) else None);
            var turn := TurnFor(m, known, awaited, fits);
            var b := BranchFor(HeaderOf(m), known, awaited);
            && (turn == Handed(m.body) <==> SL.Refusal(a, true).None?)
            && (turn == Refused <==> SL.Refusal(a, true).Some?)
            && (turn.Handed? ==> b == F.Arguments) && (turn.Refused? && fits ==> b == F.UnknownMethod)
            && (b == F.UnknownMethod ==> turn.Refused?)
  {
  }

  // A response: for the call that waits for it the turn is the outcome that `readResponse`
  // gives it, the loop ends exactly when `readResponse` reports an error, and each end has
  // its branch.
  lemma AnsweredTurn(m: Message, value: Value, known: bool, awaited: bool, fits: bool)
    requires m.Answer?
    ensures var fail := if awaited && m.text == "" && !fits then Some(Fault(1)) else None;
            var read := B.Message(Response(m.number, m.text, value), fail, None);
            var turn := TurnFor(m, known, awaited, fits);
            var b := BranchFor(HeaderOf(m), known, awaited);
            && (turn.Ended? <==> B.StopOf(read, awaited).Some?)
            && (turn == Ignored <==> !awaited) && (turn == Ignored <==> b == F.Nobody)
            && (awaited ==>
                  && (turn.Failed? <==> b == F.ErrorText)
                  && (turn == Failed(m.text) <==> B.OutcomeOf(read) == Err(Server(m.text)))
                  && (turn == Replied(m.body) <==> B.OutcomeOf(read) == Ok(value))
                  && (turn.Ended? <==> B.OutcomeOf(read) == Err(BadBody(Fault(1)))))
  {
  }

  // A body that cannot be read ends the loop exactly when its header was a response,
  // whichever branch was taken.
  lemma FailedBodyEnds(s: F.State, b: F.Branch, good: bool)
    requires F.Enabled(s, F.Choose(b)) && s.position < |s.stream|
    ensures var t := F.Apply(s, F.Choose(b));
            && F.Enabled(t, F.DecodeBody(good))
            && F.Apply(t, F.DecodeBody(good)).reader == if !good && s.reader.header.name == "" then F.Stopped else F.Top
  {
  }

  // After a header the reader can take the branches of the code, for some state of the
  // services and the call table, and no other.
  lemma BranchesFit(h: F.Header, b: F.Branch)
    ensures F.Fits(b, h) <==> exists known, awaited :: b == BranchFor(h, known, awaited)
  {
    assert F.Fits(b, h) ==> b == BranchFor(h, b == F.Arguments, b != F.Nobody);
  }
}
