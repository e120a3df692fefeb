/** `ServeCodec` and `readRequest` over the real request records: what the serving loop
    itself does with each header it reads. */
module ServeLoop {
  import opened Protocol
  import opened Pool
  import opened ServiceCall
  import S = ServerMachine

  // One header that ReadRequestHeader reads, and what follows: why the method cannot be
  // found, if so; why the body cannot be read into the arguments, or, for a method that
  // cannot be found, be discarded, if so.
  datatype Arrival = Arrival(request: Request, unknown: Option<string>, badBody: Option<string>)

  // A goroutine in Service.call, with its record.
  datatype Handler = Handler(req: Record<S.Object>, payload: Payload)

  // The text with which the loop itself answers; `None` when it starts a handler. When
  // there are two reasons, Server ignores that the body could not be discarded, and
  // BirpcClient reports just that.
  function Refusal(a: Arrival, bidirectional: bool): Option<string> {
    if a.unknown.Some? && !(bidirectional && a.badBody.Some?) then a.unknown else a.badBody
  }

  function Refusals(arrivals: seq<Arrival>, bidirectional: bool): seq<Response> {
    if arrivals == [] then []
    else
      var a := arrivals[|arrivals| - 1];
      var before := Refusals(arrivals[..|arrivals| - 1], bidirectional);
      if Refusal(a, bidirectional).None? then before
      else before + [Response(a.request.number, Refusal(a, bidirectional).value, INVALID_REQUEST)]
  }

  function Accepted(arrivals: seq<Arrival>): seq<Request> {
    if arrivals == [] then []
    else
      var a := arrivals[|arrivals| - 1];
      var before := Accepted(arrivals[..|arrivals| - 1]);
      if Refusal(a, false).None? then before + [a.request] else before
  }

  // How many of the first `i` requests have an unknown method or a bad body.
  function BadBefore(arrivals: seq<Arrival>, i: nat): (n: nat)
    requires i <= |arrivals|
    ensures n <= i
  {
    if i == 0 then 0
    else BadBefore(arrivals, i - 1) + (if arrivals[i - 1].unknown.None? && arrivals[i - 1].badBody.None? then 0 else 1)
  }

  lemma {:induction false} BadPrefix(arrivals: seq<Arrival>, k: nat, i: nat)
    requires i <= k <= |arrivals|
    ensures BadBefore(arrivals[..k], i) == BadBefore(arrivals, i)
    decreases i
  {
    if i > 0 {
      BadPrefix(arrivals, k, i - 1);
      assert arrivals[..k][i - 1] == arrivals[i - 1];
    }
  }

  lemma {:induction false} Counts(arrivals: seq<Arrival>, bidirectional: bool)
    ensures |Refusals(arrivals, bidirectional)| == BadBefore(arrivals, |arrivals|)
    ensures |Accepted(arrivals)| == |arrivals| - BadBefore(arrivals, |arrivals|)
    decreases |arrivals|
  {
    if arrivals != [] {
      Counts(arrivals[..|arrivals| - 1], bidirectional);
      BadPrefix(arrivals, |arrivals| - 1, |arrivals| - 1);
    }
  }

  // The loop's own answer to a request it cannot serve.
  predicate Explains(f: Response, a: Arrival, bidirectional: bool) {
    && f.number == a.request.number && f.body == INVALID_REQUEST
    && match (a.unknown, a.badBody)
       case (Some(why), None) => f.text == why
       case (None, Some(why)) => f.text == why
       case (Some(why), Some(other)) => f.text == if bidirectional then other else why
       case (None, None) => false
  }

  // A request is handed to a handler if and only if its method was found and its body
  // read, in the order of arrival. Every other one gets exactly one response, in the order
  // of arrival: its number with the reason why the method is unknown, or else with what
  // was wrong with its body; BirpcClient prefers the latter.
  lemma {:induction false} EachOnce(arrivals: seq<Arrival>, i: nat, bidirectional: bool)
    requires i < |arrivals|
    ensures |Refusals(arrivals, bidirectional)| == BadBefore(arrivals, |arrivals|)
    ensures |Accepted(arrivals)| == |arrivals| - BadBefore(arrivals, |arrivals|)
    ensures var a := arrivals[i];
            var r := BadBefore(arrivals, i);
            if a.unknown.None? && a.badBody.None? then
              i - r < |Accepted(arrivals)| && Accepted(arrivals)[i - r] == a.request
            else
              r < |Refusals(arrivals, bidirectional)| && Explains(Refusals(arrivals, bidirectional)[r], a, bidirectional)
    decreases |arrivals|
  {
    var last := |arrivals| - 1;
    Counts(arrivals, bidirectional);
    Counts(arrivals[..last], bidirectional);
    BadPrefix(arrivals, last, last);
    if i < last {
      BadPrefix(arrivals, last, i);
      EachOnce(arrivals[..last], i, bidirectional);
    }
  }

  // Handlers hold different records, filled with their own requests, none of them in the pool.
  ghost predicate Holding(hs: seq<Handler>, qs: seq<Request>, list: seq<Record<S.Object>>)
    reads set h | h in hs :: h.req
  {
    && |hs| == |qs|
    && (forall i :: 0 <= i < |hs| ==>
          && hs[i].req.fields == S.Object(qs[i].number, NameOf(qs[i].payload))
          && hs[i].payload == qs[i].payload && hs[i].req !in list)
    && (forall i, j :: 0 <= i < j < |hs| ==> hs[i].req != hs[j].req)
  }

  // readRequestHeader: a record from the pool takes the header.
  method ReadRequestHeader(c: Connection, q: Request, ghost handlers: seq<Handler>, ghost qs: seq<Request>)
    returns (req: Record<S.Object>)
    requires c.Valid() && Holding(handlers, qs, c.requests.list)
    modifies c.requests, c.requests.list
    ensures Taken(old(c.requests.list), c.requests.list, req)
    ensures c.Valid() && req !in c.requests.list && req.fields == S.Object(q.number, NameOf(q.payload))
    ensures Holding(handlers, qs, c.requests.list) && forall i :: 0 <= i < |handlers| ==> handlers[i].req != req
    ensures req in old(c.requests.list) || fresh(req)
    ensures forall i :: 0 <= i < |c.requests.list| ==> c.requests.list[i] in old(c.requests.list)
  {
    hide FreeList.Valid;
    req := c.requests.Get();
    req.fields := S.Object(q.number, NameOf(q.payload));
  }

  // What one request adds.
  lemma One(a: Arrival, bidirectional: bool)
    ensures if a.unknown.None? && a.badBody.None? then Refusals([a], bidirectional) == [] && Accepted([a]) == [a.request]
            else
              && Accepted([a]) == [] && |Refusals([a], bidirectional)| == 1
              && forall f :: Explains(f, a, bidirectional) ==> Refusals([a], bidirectional) == [f]
  {
    forall f | Explains(f, a, bidirectional) ensures Refusals([a], bidirectional) == [f] {
      assert f == Response(f.number, f.text, f.body);
      assert Refusals([a], bidirectional)[0] == f;
    }
  }

  // The loop's own answer: the record goes back to the pool behind the response.
  method Refuse(c: Connection, req: Record<S.Object>, a: Arrival, bidirectional: bool,
                ghost handlers: seq<Handler>, ghost qs: seq<Request>)
    requires a.unknown.Some? || a.badBody.Some?
    requires c.Valid() && req !in c.requests.list && req.fields.number == a.request.number
    requires Holding(handlers, qs, c.requests.list) && forall i :: 0 <= i < |handlers| ==> handlers[i].req != req
    modifies c`sent, c.requests, req, c.responses, c.responses.list
    ensures c.Valid() && c.requests.list == [req] + old(c.requests.list) && Holding(handlers, qs, c.requests.list)
    ensures |c.sent| == |old(c.sent)| + 1 && c.sent[..|old(c.sent)|] == old(c.sent)
    ensures Explains(c.sent[|old(c.sent)|], a, bidirectional)
    ensures forall i :: 0 <= i < |c.responses.list| ==>
              c.responses.list[i] in old(c.responses.list) || fresh(c.responses.list[i])
  {
    hide Connection.Valid;
    var reason := if a.unknown.Some? && !(bidirectional && a.badBody.Some?) then a.unknown else a.badBody;
    c.Finish(req, S.Result(reason, INVALID_REQUEST));
  }

  // One turn of the loop: a handler goes off with the record, or the record goes back to
  // the pool behind the response that says why not.
  method ServeOne(c: Connection, a: Arrival, bidirectional: bool, handlers: seq<Handler>, ghost qs: seq<Request>)
    returns (more: seq<Handler>)
    requires c.Valid() && Holding(handlers, qs, c.requests.list)
    modifies c`sent, c.requests, c.requests.list, c.responses, c.responses.list
    ensures if a.unknown.None? && a.badBody.None? then
              && c.sent == old(c.sent) && |more| == |handlers| + 1 && more[..|handlers|] == handlers
              && more[|handlers|].payload == a.request.payload
              && Taken(old(c.requests.list), c.requests.list, more[|handlers|].req)
            else
              && more == handlers && |c.sent| == |old(c.sent)| + 1 && c.sent[..|old(c.sent)|] == old(c.sent)
              && Explains(c.sent[|old(c.sent)|], a, bidirectional)
              && if old(c.requests.list) == [] then |c.requests.list| == 1 else c.requests.list == old(c.requests.list)
    ensures c.Valid() && c.sent == old(c.sent) + Refusals([a], bidirectional)
    ensures Holding(more, qs + Accepted([a]), c.requests.list)
    ensures forall i :: 0 <= i < |c.requests.list| ==>
              c.requests.list[i] in old(c.requests.list) || fresh(c.requests.list[i])
    ensures forall i :: 0 <= i < |c.responses.list| ==>
              c.responses.list[i] in old(c.responses.list) || fresh(c.responses.list[i])
  {
    hide Connection.Valid, Refusals, Accepted;
    One(a, bidirectional);
    var req := ReadRequestHeader(c, a.request, handlers, qs);
    if a.unknown.Some? || a.badBody.Some? {
      Refuse(c, req, a, bidirectional, handlers, qs);
      more := handlers;
    } else {
      more := handlers + [Handler(req, a.request.payload)]; // go service.call(...)
    }
  }

  lemma OneMore(arrivals: seq<Arrival>, k: nat, bidirectional: bool)
    requires k < |arrivals|
    ensures Accepted(arrivals[..k + 1]) == Accepted(arrivals[..k]) + Accepted([arrivals[k]])
    ensures Refusals(arrivals[..k + 1], bidirectional)
            == Refusals(arrivals[..k], bidirectional) + Refusals([arrivals[k]], bidirectional)
  {
    assert arrivals[..k + 1][..k] == arrivals[..k];
  }

  // One turn of ServeCodec, seen from the loop: `k` headers were read before.
  method Turn(c: Connection, arrivals: seq<Arrival>, k: nat, handlers: seq<Handler>, ghost before: seq<Response>)
    returns (more: seq<Handler>)
    requires c.Valid() && k < |arrivals| && c.sent == before + Refusals(arrivals[..k], false)
    requires Holding(handlers, Accepted(arrivals[..k]), c.requests.list)
    modifies c`sent, c.requests, c.requests.list, c.responses, c.responses.list
    ensures c.Valid() && c.sent == before + Refusals(arrivals[..k + 1], false)
    ensures Holding(more, Accepted(arrivals[..k + 1]), c.requests.list)
    ensures forall i :: 0 <= i < |c.requests.list| ==>
              c.requests.list[i] in old(c.requests.list) || fresh(c.requests.list[i])
    ensures forall i :: 0 <= i < |c.responses.list| ==>
              c.responses.list[i] in old(c.responses.list) || fresh(c.responses.list[i])
  {
    hide Connection.Valid;
    OneMore(arrivals, k, false);
    more := ServeOne(c, arrivals[k], false, handlers, Accepted(arrivals[..k]));
  }

  // The loop of ServeCodec up to the header error that ends it: the refused requests are
  // answered in order, and each other one is in the hands of one handler.
  method ServeCodec(c: Connection, arrivals: seq<Arrival>) returns (handlers: seq<Handler>)
    requires c.Valid()
    modifies c`sent, c.requests, c.requests.list, c.responses, c.responses.list
    ensures c.Valid() && c.sent == old(c.sent) + Refusals(arrivals, false)
    ensures Holding(handlers, Accepted(arrivals), c.requests.list)
  {
    hide Connection.Valid;
    handlers := [];
    var k := 0;
    while k < |arrivals|
      invariant 0 <= k <= |arrivals|
      invariant c.Valid() && c.sent == old(c.sent) + Refusals(arrivals[..k], false)
      invariant forall i :: 0 <= i < |c.requests.list| ==>
                  c.requests.list[i] in old(c.requests.list) || fresh(c.requests.list[i])
      invariant forall i :: 0 <= i < |c.responses.list| ==>
                  c.responses.list[i] in old(c.responses.list) || fresh(c.responses.list[i])
      invariant Holding(handlers, Accepted(arrivals[..k]), c.requests.list)
    {
      handlers := Turn(c, arrivals, k, handlers, old(c.sent));
      k := k + 1;
    }
    assert arrivals[..k] == arrivals;
  }
}
