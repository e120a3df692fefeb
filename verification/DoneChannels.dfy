/** Done channels that users share between calls of `Go`: a signal is dropped only when a
    user had more calls outstanding on the channel than it has room for. */
module DoneChannels {
  import opened Protocol

  // One channel: its buffer, the calls that were begun on it, and those it signalled.
  datatype Channel = Channel(cap: nat, queue: seq<nat>, begun: set<nat>, signalled: set<nat>, collected: set<nat>, lost: nat)

  datatype Event = Begin(call: nat) | Signal(call: nat) | Collect

  function Open(cap: nat): Channel {
    Channel(cap, [], {}, {}, {}, 0)
  }

  // A call signals once, after it was begun.
  predicate Enabled(h: Channel, e: Event) {
    match e
    case Begin(c) => c !in h.begun
    case Signal(c) => c in h.begun && c !in h.signalled
    case Collect => h.queue != []
  }

  // `Call.done`: a send that does not block.
  function Deposit(h: Channel, c: nat): (t: Channel)
    ensures t.lost > h.lost <==> |h.queue| >= h.cap
    ensures t.lost == h.lost ==> t.queue == h.queue + [c]
  {
    if |h.queue| < h.cap then h.(queue := h.queue + [c]) else h.(lost := h.lost + 1)
  }

  function Apply(h: Channel, e: Event): Channel
    requires Enabled(h, e)
  {
    match e
    case Begin(c) => h.(begun := h.begun + {c})
    case Signal(c) => Deposit(h, c).(signalled := h.signalled + {c})
    case Collect => h.(queue := h.queue[1..], collected := h.collected + {h.queue[0]})
  }

  function Exec(h: Channel, events: seq<Event>): Option<Channel>
    decreases |events|
  {
    if events == [] then Some(h)
    else if Enabled(h, events[0]) then Exec(Apply(h, events[0]), events[1..])
    else None
  }

  // The calls whose signal was not received yet.
  function Outstanding(h: Channel): set<nat> {
    h.begun - h.collected
  }

  // The user's duty: no more outstanding calls than the buffer has room for.
  predicate Disciplined(h: Channel, events: seq<Event>)
    decreases |events|
  {
    events == [] ||
    (Enabled(h, events[0])
     && (events[0].Begin? ==> |Outstanding(h)| < h.cap)
     && Disciplined(Apply(h, events[0]), events[1..]))
  }

  ghost predicate Inv(h: Channel) {
    && h.lost == 0 && |Outstanding(h)| <= h.cap
    && Distinct(h.queue)
    && (forall c :: c in h.queue <==> c in h.signalled && c !in h.collected)
    && h.signalled <= h.begun && h.collected <= h.signalled
  }

  // Distinct elements of a finite set are not more than the set has.
  lemma {:induction false} FitsIn(s: seq<nat>, xs: set<nat>)
    requires Distinct(s) && forall i :: 0 <= i < |s| ==> s[i] in xs
    ensures |s| <= |xs|
    decreases |s|
  {
    if s != [] {
      var rest := s[..|s| - 1];
      FitsIn(rest, xs - {s[|s| - 1]});
    }
  }

  lemma StepKeeps(h: Channel, e: Event)
    requires Inv(h) && Enabled(h, e) && (e.Begin? ==> |Outstanding(h)| < h.cap)
    ensures Inv(Apply(h, e)) && Apply(h, e).cap == h.cap
  {
    match e
    case Begin(c) => assert Outstanding(Apply(h, e)) == Outstanding(h) + {c};
    case Signal(c) => SignalKeeps(h, c);
    case Collect => CollectKeeps(h);
  }

  lemma SignalKeeps(h: Channel, c: nat)
    requires Inv(h) && Enabled(h, Signal(c))
    ensures Inv(Apply(h, Signal(c)))
  {
    var others := Outstanding(h) - {c};
    forall i | 0 <= i < |h.queue| ensures h.queue[i] in others { assert h.queue[i] in h.queue; }
    FitsIn(h.queue, others);
    assert Outstanding(Apply(h, Signal(c))) == Outstanding(h);
  }

  lemma CollectKeeps(h: Channel)
    requires Inv(h) && Enabled(h, Collect)
    ensures Inv(Apply(h, Collect))
  {
    var c := h.queue[0];
    assert h.queue == [c] + h.queue[1..];
    assert Outstanding(Apply(h, Collect)) == Outstanding(h) - {c};
  }

  // Under that discipline no signal is ever dropped.
  lemma {:induction false} NothingLost(h: Channel, events: seq<Event>, t: Channel)
    requires Inv(h) && Disciplined(h, events) && Exec(h, events) == Some(t)
    ensures t.lost == 0 && t.signalled == t.collected + (set c | c in t.queue)
    decreases |events|
  {
    if events == [] {
      assert forall c :: c in t.signalled <==> c in t.collected || c in t.queue;
    } else {
      StepKeeps(h, events[0]);
      NothingLost(Apply(h, events[0]), events[1..], t);
    }
  }

  lemma OpenOk(cap: nat)
    ensures Inv(Open(cap))
  {
  }

  // The discipline cannot be weakened: one call more, and its signal may be dropped.
  lemma {:induction false} OneMoreIsLost(h: Channel, c: nat)
    requires Inv(h) && |h.queue| == h.cap && c !in h.begun
    ensures exists t :: Exec(h, [Begin(c), Signal(c)]) == Some(t) && t.lost == 1 && t.queue == h.queue
  {
    var h1 := Apply(h, Begin(c));
    var h2 := Apply(h1, Signal(c));
    assert Exec(h2, []) == Some(h2);
    assert [Signal(c)][1..] == [];
    assert Exec(h1, [Signal(c)]) == Some(h2);
    assert [Begin(c), Signal(c)][1..] == [Signal(c)];
  }
}
