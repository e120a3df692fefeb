/** One stream in one direction of a gob connection, item by item: a frame is a header
    item and a body item, written by separate Encode calls under one mutex by any number
    of goroutines. The reader decodes a header, takes one of the branches of `input`, and
    each branch decodes or discards one item. The machine refines a queue of whole frames
    exactly as long as no write fails between its header and its body. */
module FrameStream {
  import opened Protocol

  datatype Header = Header(number: nat, name: string, text: string)

  datatype Frame = Frame(header: Header, body: Value)

  datatype Item = Head(header: Header) | Body(body: Value)

  // A writer: outside, holding the mutex, between its two items, or past them.
  datatype Writer = Outside | Locked(frame: Frame) | Half(frame: Frame) | Finished

  // What the reader does with the body that follows a header.
  datatype Branch =
    | UnknownMethod // ReadRequestBody(nil): the method cannot be found
    | Arguments     // ReadRequestBody(argv)
    | Nobody        // ReadResponseBody(nil): no call waits for this response
    | ErrorText     // ReadResponseBody(nil): the response is an error
    | Reply         // ReadResponseBody(call.Reply)

  // The branches that `input` can take after a header.
  predicate Fits(b: Branch, h: Header) {
    match b
    case UnknownMethod => h.name != ""
    case Arguments => h.name != ""
    case Nobody => h.name == ""
    case ErrorText => h.name == "" && h.text != ""
    case Reply => h.name == "" && h.text == ""
  }

  // Whether the reader gives up: only when the body of a response cannot be read.
  predicate Ends(b: Branch, good: bool) {
    !good && (b.Nobody? || b.ErrorText? || b.Reply?)
  }

  datatype Reader = Top | Got(header: Header) | AtBody(header: Header, branch: Branch) | Stopped

  // One turn of the reader's loop: the header it had, its branch, the item it consumed.
  datatype Turn = Turn(header: Header, branch: Branch, item: Item)

  datatype State = State(
    writers: seq<Writer>,
    mutex: Option<nat>,
    stream: seq<Item>,       // everything that was encoded
    position: nat,           // how much of it was decoded
    reader: Reader,
    written: seq<Frame>,     // history: frames whose body was encoded
    turns: seq<Turn>,        // history: what the reader did
    stray: Option<nat>)      // history: where the first header without a body is

  function Init(writers: nat): State {
    State(seq(writers, _ => Outside), None, [], 0, Top, [], [], None)
  }

  datatype Step =
    | Lock(w: nat, frame: Frame)
    | EncodeHeader(w: nat)
    | EncodeBody(w: nat)
    | FailHeader(w: nat)     // nothing was encoded
    | FailBody(w: nat)       // the header was, the body was not
    | Unlock(w: nat)
    | DecodeHeader(got: Option<Header>)
    | Choose(branch: Branch)
    | DecodeBody(good: bool)
    | Disconnect

  // What decoding an item into a header can give: a header gives itself; a body may have
  // fields of the same names, and then gives anything, or it cannot be decoded.
  predicate MayGive(item: Item, got: Option<Header>) {
    item.Head? ==> got == Some(item.header)
  }

  predicate Enabled(s: State, st: Step) {
    match st
    case Lock(w, _) => w < |s.writers| && s.writers[w].Outside? && s.mutex == None
    case EncodeHeader(w) => w < |s.writers| && s.writers[w].Locked?
    case EncodeBody(w) => w < |s.writers| && s.writers[w].Half?
    case FailHeader(w) => w < |s.writers| && s.writers[w].Locked?
    case FailBody(w) => w < |s.writers| && s.writers[w].Half? && s.stream != []
    case Unlock(w) => w < |s.writers| && s.writers[w].Finished?
    case DecodeHeader(got) => s.reader.Top? && s.position < |s.stream| && MayGive(s.stream[s.position], got)
    case Choose(b) => s.reader.Got? && Fits(b, s.reader.header)
    case DecodeBody(_) => s.reader.AtBody? && s.position < |s.stream|
    case Disconnect => !s.reader.Stopped?
  }

  predicate Reads(st: Step) {
    st.DecodeHeader? || st.Choose? || st.DecodeBody? || st.Disconnect?
  }

  function Put(s: State, w: nat, x: Writer): State
    requires w < |s.writers|
  {
    s.(writers := s.writers[w := x])
  }

  function Apply(s: State, st: Step): State
    requires Enabled(s, st)
  {
    match st
    case Lock(w, f) => Put(s, w, Locked(f)).(mutex := Some(w))
    case EncodeHeader(w) =>
      var f := s.writers[w].frame;
      Put(s, w, Half(f)).(stream := s.stream + [Head(f.header)])
    case EncodeBody(w) =>
      var f := s.writers[w].frame;
      Put(s, w, Finished).(stream := s.stream + [Body(f.body)], written := s.written + [f])
    case FailHeader(w) => Put(s, w, Finished)
    case FailBody(w) =>
      Put(s, w, Finished).(stray := if s.stray.Some? then s.stray else Some(|s.stream| - 1))
    case Unlock(w) => Put(s, w, Outside).(mutex := None)
    case DecodeHeader(got) =>
      s.(position := s.position + 1, reader := if got.Some? then Got(got.value) else Stopped)
    case Choose(b) => s.(reader := AtBody(s.reader.header, b))
    case DecodeBody(good) =>
      s.(position := s.position + 1,
         reader := if Ends(s.reader.branch, good) then Stopped else Top,
         turns := s.turns + [Turn(s.reader.header, s.reader.branch, s.stream[s.position])])
    case Disconnect => s.(reader := Stopped)
  }

  function Exec(s: State, steps: seq<Step>): Option<State>
    decreases |steps|
  {
    if steps == [] then Some(s)
    else if Enabled(s, steps[0]) then Exec(Apply(s, steps[0]), steps[1..])
    else None
  }

  ghost predicate Reachable(s: State) {
    exists steps :: Exec(Init(|s.writers|), steps) == Some(s)
  }

  // The items of a sequence of whole frames.
  function Items(fs: seq<Frame>): seq<Item> {
    seq(2 * |fs|, i requires 0 <= i < 2 * |fs| => if i % 2 == 0 then Head(fs[i / 2].header) else Body(fs[i / 2].body))
  }

  // The stream is a concatenation of whole frames.
  ghost predicate WellFramed(stream: seq<Item>) {
    exists fs :: stream == Items(fs)
  }

  predicate Inside(x: Writer) {
    !x.Outside?
  }

  ghost predicate MutexOk(s: State) {
    forall w: nat :: w < |s.writers| ==> (Inside(s.writers[w]) <==> s.mutex == Some(w))
  }

  // Somebody has encoded its header and not yet its body.
  predicate MidFrame(s: State) {
    s.mutex.Some? && s.mutex.value < |s.writers| && s.writers[s.mutex.value].Half?
  }

  // Up to the first stray header the stream is made of whole frames.
  ghost predicate StreamOk(s: State) {
    if s.stray.None? then
      s.stream == Items(s.written) + (if MidFrame(s) then [Head(s.writers[s.mutex.value].frame.header)] else [])
    else
      var p := s.stray.value;
      && p % 2 == 0 && p < |s.stream| && s.stream[p].Head?
      && p / 2 <= |s.written| && s.stream[..p] == Items(s.written[..p / 2])
      && (p + 1 < |s.stream| ==> s.stream[p + 1].Head?)
      && (p + 1 == |s.stream| ==> !MidFrame(s))
  }

  // In the middle of a turn.
  predicate Midway(r: Reader) {
    r.Got? || r.AtBody?
  }

  // Two items a turn; each turn had the header at its place, if there was one, and
  // consumed the item after it.
  ghost predicate ReaderOk(s: State) {
    && s.position <= |s.stream| && 2 * |s.turns| <= s.position
    && (s.reader.Top? ==> s.position == 2 * |s.turns|)
    && (Midway(s.reader) ==>
          s.position == 2 * |s.turns| + 1
          && (s.stream[2 * |s.turns|].Head? ==> s.stream[2 * |s.turns|].header == s.reader.header))
    && (forall i :: 0 <= i < |s.turns| ==> TurnOk(s, i))
  }

  ghost predicate TurnOk(s: State, i: nat)
    requires i < |s.turns| && 2 * |s.turns| <= |s.stream|
  {
    && s.stream[2 * i + 1] == s.turns[i].item
    && (s.stream[2 * i].Head? ==> s.stream[2 * i].header == s.turns[i].header)
  }

  ghost predicate Inv(s: State) {
    MutexOk(s) && StreamOk(s) && ReaderOk(s)
  }

  lemma ItemsSnoc(fs: seq<Frame>, f: Frame)
    ensures Items(fs + [f]) == Items(fs) + [Head(f.header), Body(f.body)]
  {
  }

  lemma BodyEncoded(s: State, w: nat)
    requires MutexOk(s) && StreamOk(s) && Enabled(s, EncodeBody(w))
    ensures StreamOk(Apply(s, EncodeBody(w)))
  {
    ItemsSnoc(s.written, s.writers[w].frame);
    if s.stray.Some? {
      SamePrefix(s.written, s.writers[w].frame, s.stray.value / 2);
    }
  }

  lemma SamePrefix(fs: seq<Frame>, f: Frame, n: nat)
    requires n <= |fs|
    ensures (fs + [f])[..n] == fs[..n]
  {
  }

  lemma BodyFailed(s: State, w: nat)
    requires MutexOk(s) && StreamOk(s) && Enabled(s, FailBody(w))
    ensures StreamOk(Apply(s, FailBody(w)))
  {
    if s.stray.None? {
      assert Apply(s, FailBody(w)).stream[..|s.stream| - 1] == Items(s.written);
      assert s.written[..|s.written|] == s.written;
    }
  }

  lemma HeaderEncoded(s: State, w: nat)
    requires MutexOk(s) && StreamOk(s) && Enabled(s, EncodeHeader(w))
    ensures StreamOk(Apply(s, EncodeHeader(w)))
  {
  }

  lemma OthersKeepStream(s: State, st: Step)
    requires MutexOk(s) && StreamOk(s) && Enabled(s, st)
    requires !st.EncodeHeader? && !st.EncodeBody? && !st.FailBody?
    ensures StreamOk(Apply(s, st))
  {
  }

  lemma MutexKept(s: State, st: Step)
    requires MutexOk(s) && Enabled(s, st)
    ensures MutexOk(Apply(s, st))
  {
  }

  lemma WriteLeavesReader(s: State, st: Step)
    requires ReaderOk(s) && Enabled(s, st) && !Reads(st)
    ensures ReaderOk(Apply(s, st))
  {
    var t := Apply(s, st);
    forall i: nat | i < |t.turns| ensures TurnOk(t, i) {
      assert TurnOk(s, i);
    }
  }

  lemma ReadKeepsReader(s: State, st: Step)
    requires ReaderOk(s) && Enabled(s, st) && Reads(st)
    ensures ReaderOk(Apply(s, st))
  {
    var t := Apply(s, st);
    forall i: nat | i < |t.turns| ensures TurnOk(t, i) {
      if i < |s.turns| { assert TurnOk(s, i); }
    }
  }

  lemma StepKeeps(s: State, st: Step)
    requires Inv(s) && Enabled(s, st)
    ensures Inv(Apply(s, st))
  {
    hide MutexOk, StreamOk, ReaderOk, Apply;
    MutexKept(s, st);
    if Reads(st) {
      ReadKeepsReader(s, st);
    } else {
      WriteLeavesReader(s, st);
    }
    match st
    case EncodeHeader(w) => HeaderEncoded(s, w);
    case EncodeBody(w) => BodyEncoded(s, w);
    case FailBody(w) => BodyFailed(s, w);
    case _ => OthersKeepStream(s, st);
  }

  lemma {:induction false} RunKeeps(s: State, steps: seq<Step>, t: State)
    requires Inv(s) && Exec(s, steps) == Some(t)
    ensures Inv(t)
    decreases |steps|
  {
    hide Inv;
    if steps != [] {
      StepKeeps(s, steps[0]);
      RunKeeps(Apply(s, steps[0]), steps[1..], t);
    }
  }

  lemma Always(s: State)
    requires Reachable(s)
    ensures Inv(s)
  {
    var steps :| Exec(Init(|s.writers|), steps) == Some(s);
    RunKeeps(Init(|s.writers|), steps, s);
  }

  // ---- Results -------------------------------------------------------------------------

  // Every turn consumes one header and one body, whatever branch it takes and whether or
  // not the body could be decoded: at the top of the loop an even number of items is gone.
  lemma TwoItemsATurn(s: State)
    requires Reachable(s)
    ensures s.reader.Top? ==> s.position == 2 * |s.turns|
    ensures Midway(s.reader) ==> s.position == 2 * |s.turns| + 1
    ensures 2 * |s.turns| <= |s.stream|
    ensures forall i :: 0 <= i < |s.turns| ==> s.turns[i].item == s.stream[2 * i + 1]
  {
    Always(s);
    forall i: nat | i < |s.turns| ensures s.turns[i].item == s.stream[2 * i + 1] {
      assert TurnOk(s, i);
    }
  }

  // While no write failed between header and body, the stream is whole frames followed
  // by at most the header of the frame being written; at each ReadHeader the reader is at
  // the start of a frame, at each body read it is at a body, and its turns so far had the
  // headers and bodies of the frames that were written, in order.
  lemma FramesStayWhole(s: State)
    requires Reachable(s) && s.stray == None
    ensures s.stream == Items(s.written) + (if MidFrame(s) then [Head(s.writers[s.mutex.value].frame.header)] else [])
    ensures s.reader.Top? && s.position < |s.stream| ==> s.stream[s.position].Head?
    ensures Midway(s.reader) && s.position < |s.stream| ==> s.stream[s.position].Body?
    ensures |s.turns| <= |s.written|
    ensures forall i :: 0 <= i < |s.turns| ==>
              s.turns[i].header == s.written[i].header && s.turns[i].item == Body(s.written[i].body)
  {
    hide TurnOk;
    Always(s);
    forall i: nat | i < |s.turns|
      ensures i < |s.written| && s.turns[i].header == s.written[i].header && s.turns[i].item == Body(s.written[i].body)
    {
      SoundTurn(s, i);
    }
  }

  lemma Alternating(stream: seq<Item>)
    ensures WellFramed(stream) ==> |stream| % 2 == 0
    ensures WellFramed(stream) ==> forall i :: 0 <= i < |stream| && i % 2 == 1 ==> stream[i].Body?
  {
  }

  // Between writes, the stream is a concatenation of whole frames if and only if no write
  // ever failed between its header and its body.
  lemma WellFramedIff(s: State)
    requires Reachable(s) && !MidFrame(s)
    ensures WellFramed(s.stream) <==> s.stray == None
  {
    Always(s);
    if s.stray.None? {
      assert s.stream == Items(s.written);
    }
    Alternating(s.stream);
  }

  // At the top of the loop the reader is at the start of a frame, with nothing but whole
  // frames behind it, if and only if it has not come past the first stray header.
  lemma AtFrameStartIff(s: State)
    requires Reachable(s) && s.reader.Top?
    ensures s.position <= |s.stream|
    ensures WellFramed(s.stream[..s.position]) <==> s.stray.None? || s.position <= s.stray.value
  {
    Always(s);
    var before := s.stream[..s.position];
    var n := |s.turns|;
    Alternating(before);
    if s.stray.None? || s.position <= s.stray.value {
      assert n <= |s.written|;
      assert before == Items(s.written[..n]) by {
        forall i | 0 <= i < s.position ensures before[i] == Items(s.written[..n])[i] {
          assert before[i] == Items(s.written)[i] by { SoundItem(s, i); }
        }
      }
    } else {
      assert before[s.stray.value + 1].Head?;
    }
  }

  // Up to the first stray header the stream has the items of what was written.
  lemma SoundItem(s: State, i: nat)
    requires StreamOk(s) && i < |s.stream| && (s.stray.Some? ==> i < s.stray.value)
    requires i < 2 * |s.written|
    ensures s.stream[i] == Items(s.written)[i]
  {
    if s.stray.Some? {
      var p := s.stray.value;
      assert s.stream[..p][i] == Items(s.written[..p / 2])[i];
    }
  }

  // The turn that comes to a stray header takes the next header for its body; the turns
  // before it had the frames that were written. The reader itself goes on.
  lemma StrayTurn(s: State)
    requires Reachable(s) && s.stray.Some? && |s.turns| > s.stray.value / 2
    ensures var k := s.stray.value / 2;
            && s.stray.value == 2 * k && 2 * k + 1 < |s.stream| && k <= |s.written|
            && s.stream[2 * k].Head? && s.turns[k].header == s.stream[2 * k].header
            && s.turns[k].item.Head?
            && forall i :: 0 <= i < k ==>
                 s.turns[i].header == s.written[i].header && s.turns[i].item == Body(s.written[i].body)
  {
    hide TurnOk, MutexOk;
    Always(s);
    var k := s.stray.value / 2;
    TurnAt(s, k);
    forall i: nat | i < k
      ensures s.turns[i].header == s.written[i].header && s.turns[i].item == Body(s.written[i].body)
    {
      SoundTurn(s, i);
    }
  }

  lemma TurnAt(s: State, i: nat)
    requires ReaderOk(s) && i < |s.turns|
    ensures 2 * i + 1 < |s.stream| && s.stream[2 * i + 1] == s.turns[i].item
    ensures s.stream[2 * i].Head? ==> s.stream[2 * i].header == s.turns[i].header
  {
    assert TurnOk(s, i);
  }

  lemma SoundTurn(s: State, i: nat)
    requires StreamOk(s) && ReaderOk(s) && i < |s.turns| && i < |s.written|
    requires s.stray.Some? ==> i < s.stray.value / 2
    ensures s.turns[i].header == s.written[i].header && s.turns[i].item == Body(s.written[i].body)
  {
    hide TurnOk;
    TurnAt(s, i);
    SoundItem(s, 2 * i);
    SoundItem(s, 2 * i + 1);
  }

  // The frames under way.
  function Queue(s: State): seq<Frame>
    requires |s.turns| <= |s.written|
  {
    s.written[|s.turns|..]
  }

  // Refinement: without stray headers every step puts one whole frame at the end of the
  // queue, takes the first one off, or does nothing to it.
  lemma RefinesQueue(s: State, st: Step)
    requires Reachable(s) && s.stray == None && Enabled(s, st) && !st.FailBody?
    ensures |s.turns| <= |s.written| && |Apply(s, st).turns| <= |Apply(s, st).written|
    ensures var t := Apply(s, st);
            if st.EncodeBody? then Queue(t) == Queue(s) + [s.writers[st.w].frame]
            else if st.DecodeBody? then
              && Queue(s) != [] && Queue(t) == Queue(s)[1..]
              && t.turns == s.turns + [Turn(Queue(s)[0].header, s.reader.branch, Body(Queue(s)[0].body))]
            else Queue(t) == Queue(s)
  {
    var t := Apply(s, st);
    FramesStayWhole(s);
    ReachNext(s, st);
    FramesStayWhole(t);
    TwoItemsATurn(s);
    if st.DecodeBody? {
      assert t.turns[|s.turns|].header == s.written[|s.turns|].header;
    }
  }

  // A stray header does occur, and then the reader does take a body for a header: one
  // writer fails between header and body and writes its next frame; the first turn
  // consumes both headers, and the loop is at a body.
  lemma MisreadingHappens(f: Frame, g: Frame)
    requires f.header.name != ""
    ensures exists s :: Reachable(s) && s.stray == Some(0) && s.reader.Top? && s.turns == [Turn(f.header, Arguments, Head(g.header))]
                        && s.position < |s.stream| && s.stream[s.position] == Body(g.body)
  {
    hide Reachable;
    var s0 := StrayFrame(f);
    var s1 := NextFrame(s0, f, g);
    ReachNext(s1, DecodeHeader(Some(f.header)));
    var s2 := Apply(s1, DecodeHeader(Some(f.header)));
    ReachNext(s2, Choose(Arguments));
    var s3 := Apply(s2, Choose(Arguments));
    ReachNext(s3, DecodeBody(false));
    var s4 := Apply(s3, DecodeBody(false));
    assert s4.turns == [Turn(f.header, Arguments, Head(g.header))];
  }

  lemma StrayFrame(f: Frame) returns (s: State)
    ensures Reachable(s)
    ensures s == State([Finished], Some(0), [Head(f.header)], 0, Top, [], [], Some(0))
  {
    var s0 := Init(1);
    assert Exec(s0, []) == Some(s0);
    ReachNext(s0, Lock(0, f));
    var s1 := Apply(s0, Lock(0, f));
    ReachNext(s1, EncodeHeader(0));
    var s2 := Apply(s1, EncodeHeader(0));
    ReachNext(s2, FailBody(0));
    s := Apply(s2, FailBody(0));
  }

  lemma NextFrame(s: State, f: Frame, g: Frame) returns (t: State)
    requires Reachable(s) && s == State([Finished], Some(0), [Head(f.header)], 0, Top, [], [], Some(0))
    ensures Reachable(t)
    ensures t == State([Finished], Some(0), [Head(f.header), Head(g.header), Body(g.body)], 0, Top, [g], [], Some(0))
  {
    hide Reachable;
    ReachNext(s, Unlock(0));
    var s1 := Apply(s, Unlock(0));
    ReachNext(s1, Lock(0, g));
    var s2 := Apply(s1, Lock(0, g));
    ReachNext(s2, EncodeHeader(0));
    var s3 := Apply(s2, EncodeHeader(0));
    ReachNext(s3, EncodeBody(0));
    t := Apply(s3, EncodeBody(0));
  }

  lemma {:induction false} ExecSnoc(s: State, steps: seq<Step>, t: State, st: Step)
    requires Exec(s, steps) == Some(t) && Enabled(t, st)
    ensures Exec(s, steps + [st]) == Some(Apply(t, st))
    decreases |steps|
  {
    if steps == [] {
      assert ([] + [st])[1..] == [];
      assert Exec(Apply(t, st), []) == Some(Apply(t, st));
    } else {
      ExecSnoc(Apply(s, steps[0]), steps[1..], t, st);
      assert (steps + [st])[1..] == steps[1..] + [st];
    }
  }

  lemma ReachNext(s: State, st: Step)
    requires Reachable(s) && Enabled(s, st)
    ensures Reachable(Apply(s, st))
  {
    var steps :| Exec(Init(|s.writers|), steps) == Some(s);
    ExecSnoc(Init(|s.writers|), steps, s, st);
    assert |Apply(s, st).writers| == |s.writers|;
    assert Exec(Init(|Apply(s, st).writers|), steps + [st]) == Some(Apply(s, st));
  }
}
