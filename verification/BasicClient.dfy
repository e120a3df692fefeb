/** `basicClient` and `Client.input` as objects updated in place: the table of calls, its
    critical sections, the reader's loop and the termination section. The methods are
    proved against the functions of `PendingCalls` that the step machine uses. */
module BasicClient {
  import opened Protocol
  import opened PendingCalls
  import C = ClientMachine

  // An active call; `signals` counts how often its `done` ran.
  class Call {
    const payload: Payload
    var mark: nat            // the field seq
    var outcome: Outcome     // the field Error, or success
    var reply: Option<Value> // what *Reply was set to
    var signals: nat

    constructor (payload: Payload)
      ensures this.payload == payload && mark == 0 && outcome == Unsettled && reply == None && signals == 0
    {
      this.payload := payload;
      mark, outcome, reply, signals := 0, Unsettled, None, 0;
    }

    method Settle(o: Outcome)
      modifies this`outcome, this`signals
      ensures outcome == o && signals == old(signals) + 1
    {
      outcome := o;
      signals := signals + 1;
    }
  }

  // What ReadResponseHeader and ReadResponseBody yield for one message; a failed decode
  // may leave `junk` in the reply.
  datatype Message = Message(frame: Response, fail: Option<IoError>, junk: Option<Value>)

  // What the call a message is for ends with.
  function OutcomeOf(m: Message): Outcome {
    if m.frame.text != "" then Err(Server(m.frame.text))
    else if m.fail.Some? then Err(BadBody(m.fail.value))
    else Ok(m.frame.body)
  }

  function ReplyOf(m: Message, before: Option<Value>): Option<Value> {
    if m.frame.text != "" then before
    else if m.fail.None? then Some(m.frame.body)
    else if m.junk.Some? then m.junk
    else before
  }

  // The error with which the reader stops after a message, if it does.
  function StopOf(m: Message, awaited: bool): Option<Error> {
    if m.fail.None? then None
    else if awaited && m.frame.text == "" then Some(Io(m.fail.value))
    else Some(BadErrorBody(m.fail.value))
  }

  // The step machine's reader does the same with a message.
  lemma MachineAgrees(s: C.State, m: Message)
    requires C.CanConn(s, C.GotBody(m.fail, m.junk)) && s.reader.frame == m.frame
    ensures var t := C.BodyRead(s, m.fail, m.junk);
            if s.reader.waiter.Some? then
              var c := s.reader.waiter.value;
              && t.reader == C.Answering(c, OutcomeOf(m), StopOf(m, true))
              && t.calls[c].reply == ReplyOf(m, s.calls[c].reply)
            else t.reader == if StopOf(m, false).Some? then C.Stopping(StopOf(m, false).value) else C.Reading
  {
  }

  // What the call waiting under `n` ends with when these messages arrive while the calls
  // `waiting` are in the table, and then ReadResponseHeader fails with `end`.
  function Verdict(messages: seq<Message>, end: IoError, waiting: set<nat>, closing: bool, n: nat): (o: Outcome)
    ensures o != Unsettled
    decreases |messages|
  {
    if messages == [] then Err(StopError(Io(end), closing))
    else
      var k := messages[0].frame.number;
      var stop := StopOf(messages[0], k in waiting);
      if k == n then OutcomeOf(messages[0])
      else if stop.Some? then Err(StopError(stop.value, closing))
      else Verdict(messages[1..], end, waiting - {k}, closing, n)
  }

  // When the i-th message comes, a call still waits for it: it was in the table, and no
  // earlier message had its number.
  predicate Awaited(messages: seq<Message>, waiting: set<nat>, i: nat)
    requires i < |messages|
  {
    && messages[i].frame.number in waiting
    && forall j :: 0 <= j < i ==> messages[j].frame.number != messages[i].frame.number
  }

  // Why the reader stops at message `i`, whose body failed: the codec's own error if the
  // body was to be the reply of a call that waits for it; a body that nobody wants, and
  // that of an error, is reported as such.
  function StopAt(messages: seq<Message>, waiting: set<nat>, i: nat): Error
    requires i < |messages| && messages[i].fail.Some?
  {
    var f := messages[i].fail.value;
    if Awaited(messages, waiting, i) && messages[i].frame.text == "" then Io(f) else BadErrorBody(f)
  }

  predicate FirstFailure(messages: seq<Message>, i: int) {
    0 <= i < |messages| && messages[i].fail.Some? && forall j :: 0 <= j < i ==> messages[j].fail.None?
  }

  // The first message with the call's number decides, whatever follows it; without one
  // the call fails with the reason why the reader stopped: the first body that failed, or
  // the header that failed after all messages.
  lemma {:induction false} VerdictDecides(messages: seq<Message>, end: IoError, waiting: set<nat>, closing: bool, n: nat, i: nat)
    requires i <= |messages|
    requires forall j :: 0 <= j < i ==> messages[j].frame.number != n && messages[j].fail.None?
    ensures i == |messages| ==> Verdict(messages, end, waiting, closing, n) == Err(StopError(Io(end), closing))
    ensures i < |messages| && messages[i].frame.number == n ==>
              Verdict(messages, end, waiting, closing, n) == OutcomeOf(messages[i])
    ensures i < |messages| && messages[i].frame.number != n && messages[i].fail.Some? ==>
              Verdict(messages, end, waiting, closing, n) == Err(StopError(StopAt(messages, waiting, i), closing))
    decreases i
  {
    if i > 0 {
      var rest, left := messages[1..], waiting - {messages[0].frame.number};
      VerdictDecides(rest, end, left, closing, n, i - 1);
      if i < |messages| {
        assert rest[i - 1] == messages[i];
        AwaitedLater(messages, waiting, i);
      }
    }
  }

  lemma AwaitedLater(messages: seq<Message>, waiting: set<nat>, i: nat)
    requires 0 < i < |messages|
    ensures Awaited(messages, waiting, i) <==> Awaited(messages[1..], waiting - {messages[0].frame.number}, i - 1)
  {
    assert forall j :: 0 < j <= i ==> messages[1..][j - 1] == messages[j];
    if Awaited(messages[1..], waiting - {messages[0].frame.number}, i - 1) {
      forall j | 0 <= j < i ensures messages[j].frame.number != messages[i].frame.number {
        if j > 0 { assert messages[1..][j - 1] == messages[j]; }
      }
    }
  }

  lemma VerdictStep(messages: seq<Message>, i: nat, end: IoError, waiting: set<nat>, closing: bool)
    requires i < |messages|
    ensures forall n: nat ::
              Verdict(messages[i..], end, waiting, closing, n)
              == var m := messages[i];
                 var stop := StopOf(m, m.frame.number in waiting);
                 if m.frame.number == n then OutcomeOf(m)
                 else if stop.Some? then Err(StopError(stop.value, closing))
                 else Verdict(messages[i + 1..], end, waiting - {m.frame.number}, closing, n)
  {
    assert messages[i..][1..] == messages[i + 1..];
  }

  lemma VerdictEnd(messages: seq<Message>, end: IoError, waiting: set<nat>, closing: bool)
    requires messages == []
    ensures forall n: nat :: Verdict(messages, end, waiting, closing, n) == Err(StopError(Io(end), closing))
  {
  }

  ghost predicate Different(table: map<nat, Call>) {
    forall n, k :: n in table && k in table && n != k ==> table[n] != table[k]
  }

  class BasicClient {
    var last: nat
    var pending: map<nat, Call>
    var closing: bool
    var shutdown: bool

    function Contents(): Table<Call>
      reads this
    {
      Table(last, pending, closing, shutdown)
    }

    // pending[n] is a call whose seq is n, not signalled before the termination section.
    ghost predicate Valid()
      reads this, pending.Values
    {
      forall n :: n in pending ==>
        1 <= n <= last && pending[n].mark == n
        && (!shutdown ==> pending[n].signals == 0 && pending[n].outcome == Unsettled)
    }

    constructor ()
      ensures Valid() && Contents() == Table(0, map[], false, false)
    {
      last, pending, closing, shutdown := 0, map[], false, false;
    }

    // The first critical section of `send`; the caller signals what is refused.
    method Register(call: Call) returns (a: Admission<Call>)
      requires Valid() && call !in pending.Values && call.signals == 0 && call.outcome == Unsettled
      modifies this`last, this`pending, call`mark
      ensures Valid() && a == Admit(old(Contents()), call, old(call.mark))
      ensures Contents() == if a.Admitted? then a.table else old(Contents())
      ensures call.mark == if a.Admitted? then a.number else old(call.mark)
    {
      if shutdown || closing {
        a := Refused;
      } else if call.mark != 0 {
        a := Recalled;
      } else {
        last := last + 1;
        call.mark := last;
        pending := pending[last := call];
        a := Admitted(Contents(), last);
      }
    }

    // `call = client.pending[n]; delete(client.pending, n)`: the section after a failed
    // write, and the reader's section for a response.
    method TakeOut(n: nat) returns (call: Call?)
      requires Valid()
      modifies this`pending
      ensures Valid() && Contents() == Remove(old(Contents()), n)
      ensures if call == null then Lookup(old(Contents()), n) == None
              else Lookup(old(Contents()), n) == Some(call) && call.mark == n
    {
      if n in pending {
        call := pending[n];
      } else {
        call := null;
      }
      pending := pending - {n};
    }

    // `send`, when nothing else happens on the connection meanwhile: the call is signalled
    // if and only if it is not left waiting in the table.
    method Send(call: Call, write: C.Attempt)
      requires Valid() && call !in pending.Values && call.signals == 0 && call.outcome == Unsettled
      modifies this`last, this`pending, call`mark, call`outcome, call`signals
      ensures Valid() && closing == old(closing) && shutdown == old(shutdown)
      ensures match Admit(old(Contents()), call, old(call.mark))
              case Refused => Contents() == old(Contents()) && call.outcome == Err(Shutdown)
              case Recalled => Contents() == old(Contents()) && call.outcome == Err(Canceled)
              case Admitted(t, n) =>
                if write.fail.None? then Contents() == t && call.outcome == Unsettled
                else pending == old(pending) && last == n && call.outcome == Err(Io(write.fail.value))
      ensures call.signals == (if call in pending.Values then 0 else 1)
    {
      var a := Register(call);
      match a
      case Refused => call.Settle(Err(Shutdown));
      case Recalled => call.Settle(Err(Canceled));
      case Admitted(_, n) =>
        if write.fail.Some? {
          var found := TakeOut(n);
          if found != null {
            found.Settle(Err(Io(write.fail.value)));
          }
          assert pending == old(pending);
        } else {
          assert pending[n] == call;
        }
    }

    // The `<-ctx.Done()` branch of `Call`: what it removes, and the number its Cancel names.
    method Withdraw(call: Call) returns (cancel: Option<nat>)
      requires Valid() && (call.mark in pending ==> pending[call.mark] == call)
      modifies this`pending, call`mark
      ensures Valid() && Contents() == Remove(old(Contents()), old(call.mark)) && call !in pending.Values
      ensures cancel == if call in old(pending.Values) then Some(old(call.mark)) else None
      ensures call.mark != 0 && (old(call.mark) != 0 ==> call.mark == old(call.mark))
    {
      var number := call.mark;
      var ok := number in pending;
      assert ok ==> pending[number] == call;
      pending := pending - {number};
      if number == 0 {
        call.mark := 1;
      }
      cancel := if number != 0 && ok then Some(number) else None;
    }

    method Close() returns (error: Option<Error>)
      requires Valid()
      modifies this`closing
      ensures Valid() && Contents() == old(Contents()).(closing := true)
      ensures error == if old(closing) then Some(Shutdown) else None
    {
      if closing {
        return Some(Shutdown);
      }
      closing := true;
      error := None;
    }

    // The termination section: every call in the table is failed and signalled once, no
    // other call is touched, and the table keeps its entries.
    method Terminate(cause: Error)
      requires Valid() && !shutdown
      modifies this`shutdown, pending.Values
      ensures Valid() && Contents() == old(Contents()).(shutdown := true)
      ensures forall n :: n in pending ==>
                pending[n].outcome == Err(StopError(cause, closing)) && pending[n].signals == 1
                && pending[n].reply == old(pending[n].reply)
    {
      shutdown := true;
      var error := StopError(cause, closing);
      var todo := pending.Keys;
      while todo != {}
        invariant shutdown && todo <= pending.Keys
        invariant forall n :: n in pending ==> 1 <= n <= last && pending[n].mark == n && pending[n].reply == old(pending[n].reply)
        invariant forall n :: n in todo ==> pending[n].signals == 0
        invariant forall n :: n in pending && n !in todo ==> pending[n].outcome == Err(error) && pending[n].signals == 1
        decreases todo
      {
        var n :| n in todo;
        pending[n].Settle(Err(error));
        todo := todo - {n};
      }
    }

    // The body of the reader's loop for one message: readResponse.
    method Deliver(m: Message) returns (stop: Option<Error>)
      requires Valid() && !shutdown
      modifies this`pending, if m.frame.number in pending then {pending[m.frame.number]} else {}
      ensures Valid() && Contents() == Remove(old(Contents()), m.frame.number)
      ensures stop == StopOf(m, m.frame.number in old(pending))
      ensures stop.Some? <==> m.fail.Some?
      ensures m.fail.Some? ==> (stop == Some(Io(m.fail.value)) <==> m.frame.number in old(pending) && m.frame.text == "")
      ensures m.frame.number in old(pending) ==>
                var call := old(pending)[m.frame.number];
                && call.outcome == OutcomeOf(m) && call.signals == 1
                && call.reply == ReplyOf(m, old(call.reply))
                && (m.frame.text == "" && m.fail.None? <==> call.outcome.Ok?)
                && (call.outcome.Ok? ==> call.reply == Some(call.outcome.value))
                && (m.frame.text != "" ==> call.reply == old(call.reply))
    {
      var call := TakeOut(m.frame.number);
      stop := StopOf(m, call != null);
      if call != null {
        call.reply := ReplyOf(m, call.reply);
        call.Settle(OutcomeOf(m));
      }
    }

    // After `i` of the messages: the calls of `start` that are no longer in the table have
    // their verdict, and the verdict on the others depends on what is still to come.
    ghost predicate Judged(start: map<nat, Call>, messages: seq<Message>, end: IoError, i: nat, stop: Option<Error>)
      requires i <= |messages|
      reads this, start.Values
    {
      && (forall n :: n in pending ==>
            n in start && pending[n] == start[n]
            && Verdict(messages, end, start.Keys, closing, n)
               == if stop.Some? then Err(StopError(stop.value, closing))
                  else Verdict(messages[i..], end, pending.Keys, closing, n))
      && (forall n :: n in start && n !in pending ==>
            start[n].signals == 1 && start[n].outcome == Verdict(messages, end, start.Keys, closing, n))
    }

    // A call knows its number, so no call is in the table twice.
    lemma MarksDiffer()
      requires Valid()
      ensures Different(pending)
    {
      forall n, k | n in pending && k in pending && n != k ensures pending[n] != pending[k] {
        assert pending[n].mark == n && pending[k].mark == k;
      }
    }

    // One turn of the reader's loop.
    method ReadOne(messages: seq<Message>, end: IoError, i: nat, ghost start: map<nat, Call>) returns (stop: Option<Error>)
      requires Valid() && !shutdown && i < |messages| && Judged(start, messages, end, i, None)
      requires Different(start)
      modifies this`pending, pending.Values
      ensures Valid() && Contents() == old(Contents()).(pending := pending)
      ensures Judged(start, messages, end, i + 1, stop)
      ensures pending == old(pending) - {messages[i].frame.number}
      ensures stop == StopOf(messages[i], messages[i].frame.number in old(pending))
    {
      hide Verdict, StopOf, OutcomeOf, ReplyOf;
      ghost var before := pending;
      VerdictStep(messages, i, end, before.Keys, closing);
      stop := Deliver(messages[i]);
      assert pending == before - {messages[i].frame.number};
      assert pending.Keys == before.Keys - {messages[i].frame.number};
    }

    lemma JudgedFirst(messages: seq<Message>, end: IoError)
      ensures Judged(pending, messages, end, 0, None)
    {
      assert messages[0..] == messages;
    }

    lemma JudgedLast(start: map<nat, Call>, messages: seq<Message>, end: IoError, i: nat, stop: Option<Error>)
      requires i <= |messages| && (i == |messages| || stop.Some?) && Judged(start, messages, end, i, stop)
      ensures forall n :: n in pending ==>
                n in start && pending[n] == start[n]
                && Verdict(messages, end, start.Keys, closing, n)
                   == Err(StopError(if stop.Some? then stop.value else Io(end), closing))
      ensures forall n :: n in start && n !in pending ==>
                start[n].signals == 1 && start[n].outcome == Verdict(messages, end, start.Keys, closing, n)
    {
      if stop.None? {
        VerdictEnd(messages[i..], end, pending.Keys, closing);
      }
    }

    // What is left in the table after `i` messages.
    ghost predicate Remaining(start: map<nat, Call>, messages: seq<Message>, i: nat, stop: Option<Error>)
      requires i <= |messages|
      reads this
    {
      && (forall n :: n in pending <==> n in start && forall j :: 0 <= j < i ==> messages[j].frame.number != n)
      && (stop.None? ==> forall j :: 0 <= j < i ==> messages[j].fail.None?)
      && (stop.Some? ==> FirstFailure(messages, i - 1) && stop.value == StopAt(messages, start.Keys, i - 1))
    }

    lemma RemainingNext(start: map<nat, Call>, messages: seq<Message>, i: nat, before: map<nat, Call>, stop: Option<Error>)
      requires i < |messages| && pending == before - {messages[i].frame.number}
      requires forall n :: n in before <==> n in start && forall j :: 0 <= j < i ==> messages[j].frame.number != n
      requires forall j :: 0 <= j < i ==> messages[j].fail.None?
      requires stop == StopOf(messages[i], messages[i].frame.number in before)
      ensures Remaining(start, messages, i + 1, stop)
    {
      assert Awaited(messages, start.Keys, i) <==> messages[i].frame.number in before;
      forall n ensures n in pending <==> n in start && forall j :: 0 <= j < i + 1 ==> messages[j].frame.number != n {
        if n in pending {
          assert n in before;
        }
      }
    }

    // The reader's loop: it ends with the error that stopped it, that of the first body that
    // failed, or else of the header after all messages. Calls it took from the table have
    // their verdict; the verdict on the others is that error.
    method ReadAll(messages: seq<Message>, end: IoError) returns (cause: Error)
      requires Valid() && !shutdown
      modifies this`pending, pending.Values
      ensures Valid() && Contents() == old(Contents()).(pending := pending)
      ensures forall n :: n in pending ==>
                n in old(pending) && pending[n] == old(pending)[n]
                && Verdict(messages, end, old(pending.Keys), closing, n) == Err(StopError(cause, closing))
      ensures forall n :: n in old(pending) && n !in pending ==>
                old(pending)[n].signals == 1
                && old(pending)[n].outcome == Verdict(messages, end, old(pending.Keys), closing, n)
      ensures forall i :: FirstFailure(messages, i) ==> cause == StopAt(messages, old(pending.Keys), i)
      ensures (forall i :: 0 <= i < |messages| ==> messages[i].fail.None?) ==> cause == Io(end)
    {
      hide Verdict, BasicClient.Valid, BasicClient.Judged;
      MarksDiffer();
      JudgedFirst(messages, end);
      var i := 0;
      var stop: Option<Error> := None;
      while i < |messages| && stop.None?
        invariant 0 <= i <= |messages|
        invariant Valid() && Contents() == old(Contents()).(pending := pending)
        invariant forall n :: n in pending ==> n in old(pending) && pending[n] == old(pending)[n]
        invariant Judged(old(pending), messages, end, i, stop)
        invariant Remaining(old(pending), messages, i, stop)
      {
        ghost var before := pending;
        stop := ReadOne(messages, end, i, old(pending));
        RemainingNext(old(pending), messages, i, before, stop);
        i := i + 1;
      }
      JudgedLast(old(pending), messages, end, i, stop);
      cause := if stop.Some? then stop.value else Io(end);
    }

    // `input`, from the first ReadResponseHeader to the end, when nothing else happens on
    // the connection: every call that waited is signalled exactly once, with the verdict
    // on the messages that arrived.
    method Input(messages: seq<Message>, end: IoError)
      requires Valid() && !shutdown
      modifies this`pending, this`shutdown, pending.Values
      ensures Valid() && shutdown && closing == old(closing) && last == old(last) && pending.Keys <= old(pending.Keys)
      ensures forall n :: n in old(pending) ==>
                old(pending)[n].signals == 1
                && old(pending)[n].outcome == Verdict(messages, end, old(pending.Keys), closing, n)
    {
      hide Verdict;
      var cause := ReadAll(messages, end);
      Terminate(cause);
    }
  }
}
