/** The JSON server codecs number the requests they read and keep each request's own id on
    the side. The table, and the reference in which every request simply carries its id. */
module JsonIds {
  import opened Protocol

  // The id of a message; absent and null ids are `None`, which a response shows as null.
  datatype Id = Number(n: nat) | Other(raw: string)

  // The fields `seq` and `pending`.
  datatype Table = Table(last: nat, pending: map<nat, Option<Id>>)

  const EMPTY: Table := Table(0, map[])

  // A header was read; `before` is the number in the request record. The bidirectional
  // codec takes a request without id for a notification and gives it no number.
  function Enter(t: Table, id: Option<Id>, bidirectional: bool): Table {
    if bidirectional && id.None? then t
    else Table(t.last + 1, t.pending[t.last + 1 := id])
  }

  function NumberFor(t: Table, id: Option<Id>, bidirectional: bool, before: nat): nat {
    if bidirectional && id.None? then before else t.last + 1
  }

  function Leave(t: Table, n: nat): Table {
    t.(pending := t.pending - {n})
  }

  // A response as written: its id, error text and result.
  datatype Reply = Reply(id: Option<Id>, text: string, body: Value)

  // What a codec is used for: headers read, responses handed to WriteResponse in any
  // order, for any number, any number of times.
  datatype Event = Read(id: Option<Id>) | Answer(response: Response)

  datatype Codec = Codec(table: Table, out: seq<Reply>)

  function Apply(s: Codec, e: Event, bidirectional: bool): Codec {
    match e
    case Read(id) => s.(table := Enter(s.table, id, bidirectional))
    case Answer(r) =>
      if r.number in s.table.pending
      then Codec(Leave(s.table, r.number), s.out + [Reply(s.table.pending[r.number], r.text, r.body)])
      else s
  }

  function Run(events: seq<Event>, bidirectional: bool): Codec
    decreases |events|
  {
    if events == [] then Codec(EMPTY, [])
    else Apply(Run(events[..|events| - 1], bidirectional), events[|events| - 1], bidirectional)
  }

  // ---- The reference -----------------------------------------------------------------

  // Without numbers or a table: the ids of the requests that expect an answer, in the
  // order they were read; the requests that were answered, counted from 1; the replies.
  datatype Story = Story(ids: seq<Option<Id>>, answered: set<nat>, replies: seq<Reply>)

  // The first answer to a request that was read is written, with the request's own id.
  function Tell(t: Story, e: Event, bidirectional: bool): Story {
    match e
    case Read(id) => if bidirectional && id.None? then t else t.(ids := t.ids + [id])
    case Answer(r) =>
      if 1 <= r.number <= |t.ids| && r.number !in t.answered
      then t.(answered := t.answered + {r.number},
              replies := t.replies + [Reply(t.ids[r.number - 1], r.text, r.body)])
      else t
  }

  function Told(events: seq<Event>, bidirectional: bool): Story
    decreases |events|
  {
    if events == [] then Story([], {}, [])
    else Tell(Told(events[..|events| - 1], bidirectional), events[|events| - 1], bidirectional)
  }

  // ---- Refinement --------------------------------------------------------------------

  // The table holds exactly the requests that were read and not answered, each with its
  // own id, and what was written is what the reference writes.
  ghost predicate Matches(s: Codec, t: Story) {
    && s.out == t.replies && s.table.last == |t.ids|
    && (forall n :: n in s.table.pending <==> 1 <= n <= |t.ids| && n !in t.answered)
    && (forall n :: n in s.table.pending ==> s.table.pending[n] == t.ids[n - 1])
  }

  // No request is answered twice.
  ghost predicate Sound(t: Story) {
    && |t.replies| == |t.answered|
    && forall n :: n in t.answered ==> 1 <= n <= |t.ids|
  }

  lemma StepRefines(s: Codec, t: Story, e: Event, bidirectional: bool)
    requires Matches(s, t) && Sound(t)
    ensures Matches(Apply(s, e, bidirectional), Tell(t, e, bidirectional)) && Sound(Tell(t, e, bidirectional))
  {
  }

  // For any requests, with duplicate and null ids, and any order of answers, however
  // often: carrying a number and a table is the same as carrying the id.
  lemma {:induction false} RefinesCarrying(events: seq<Event>, bidirectional: bool)
    ensures Matches(Run(events, bidirectional), Told(events, bidirectional))
    ensures Sound(Told(events, bidirectional))
    decreases |events|
  {
    hide Matches, Sound;
    if events == [] {
      StartMatches();
    } else {
      RefinesCarrying(events[..|events| - 1], bidirectional);
      StepRefines(Run(events[..|events| - 1], bidirectional), Told(events[..|events| - 1], bidirectional),
                  events[|events| - 1], bidirectional);
    }
  }

  lemma StartMatches()
    ensures Matches(Codec(EMPTY, []), Story([], {}, [])) && Sound(Story([], {}, []))
  {
  }
}
