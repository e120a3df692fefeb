/** `sendResponse` and `Service.call` over the real objects: recycled request and response
    records, the cancel table, and the codec's output. One handler, from its Start to its
    deferred Cancel. */
module ServiceCall {
  import opened Protocol
  import opened Pool
  import opened CancelTable
  import S = ServerMachine

  // The exported fields of `Response`.
  datatype Fields = Fields(number: nat, text: string)

  const NO_FIELDS: Fields := Fields(0, "")

  class Connection {
    const requests: FreeList<S.Object>
    const responses: FreeList<Fields>
    const pending: Pending
    var sent: seq<Response> // what the codec was given to write

    // The two free lists; `pending` is valid by itself.
    ghost predicate Valid()
      reads requests, requests.list, responses, responses.list
    {
      && requests.Valid() && responses.Valid()
      && requests.zero == S.ZERO && responses.zero == NO_FIELDS
    }

    constructor ()
      ensures Valid() && pending.Valid() && fresh(requests) && fresh(responses) && fresh(pending)
      ensures requests.list == [] && responses.list == [] && pending.m == map[] && sent == []
    {
      requests := new FreeList(S.ZERO);
      responses := new FreeList(NO_FIELDS);
      pending := new Pending();
      sent := [];
    }

    // basicServer.sendResponse. The response carries the number in the request record;
    // the response record goes back to its list.
    method SendResponse(req: Record<S.Object>, reply: Value, errmsg: string)
      requires Valid()
      modifies this`sent, responses, responses.list
      ensures Valid()
      ensures sent == old(sent) + [Response(req.fields.number, errmsg, if errmsg != "" then INVALID_REQUEST else reply)]
      ensures if old(responses.list) != [] then responses.list == old(responses.list) else |responses.list| == 1
      ensures forall i :: 0 <= i < |responses.list| ==> responses.list[i] in old(responses.list) || fresh(responses.list[i])
    {
      hide FreeList.Valid;
      var resp := responses.Get();
      var body := reply;
      if errmsg != "" {
        resp.fields := resp.fields.(text := errmsg);
        body := INVALID_REQUEST;
      }
      resp.fields := resp.fields.(number := req.fields.number);
      sent := sent + [Response(resp.fields.number, resp.fields.text, body)];
      responses.Free(resp);
    }

    // The contexts that a handler under `number` leaves done: its own, after the one its
    // Cancel names if that is another's.
    static function Strikes(m: map<nat, Context>, number: nat, payload: Payload, ctx: Context): seq<Context> {
      if payload.CancelOf? && payload.target != number && payload.target in m then [m[payload.target], ctx] else [ctx]
    }

    // What Start, a Cancel of `target` and the deferred Cancel make of the table together.
    static lemma Effects(m: map<nat, Context>, number: nat, payload: Payload, ctx: Context)
      ensures var m1 := m[number := ctx];
              var m2 := if payload.CancelOf? then m1 - {payload.target} else m1;
              && m2 - {number} == m - {number} - (if payload.CancelOf? then {payload.target} else {})
              && Strikes(m, number, payload, ctx)
                 == (if payload.CancelOf? && payload.target in m1 then [m1[payload.target]] else [])
                    + (if number in m2 then [m2[number]] else [])
    {
    }

    // The method itself: a Cancel runs the cancel function it names; any other handler is
    // arbitrary.
    method Invoke(payload: Payload, result: S.Result) returns (returned: S.Result)
      requires pending.Valid()
      modifies pending
      ensures pending.Valid() && returned == if payload.CancelOf? then S.Result(None, 0) else result
      ensures pending.m == if payload.CancelOf? then old(pending.m) - {payload.target} else old(pending.m)
      ensures pending.ran == if payload.CancelOf? && payload.target in old(pending.m)
                             then old(pending.ran) + [old(pending.m)[payload.target]] else old(pending.ran)
    {
      if payload.CancelOf? {
        pending.Cancel(payload.target);
        returned := S.Result(None, 0);
      } else {
        returned := result;
      }
    }

    // sendResponse, then freeRequest: the end of Service.call, and of a refusal.
    method Finish(req: Record<S.Object>, returned: S.Result)
      requires Valid() && req !in requests.list
      modifies this`sent, requests, req, responses, responses.list
      ensures Valid() && requests.list == [req] + old(requests.list)
      ensures sent == old(sent) + [S.Reply(old(req.fields.number), returned)]
      ensures forall i :: 0 <= i < |responses.list| ==> responses.list[i] in old(responses.list) || fresh(responses.list[i])
    {
      hide FreeList.Valid;
      var errmsg := if returned.error.Some? then returned.error.value else "";
      SendResponse(req, returned.value, errmsg);
      requests.Free(req);
    }

    // Service.call. One response goes out, with the number the request record had on
    // entry: what the method returned, its error text or its reply, and for a Cancel an
    // empty success. The record goes back to its list only after that; the deferred Cancel
    // uses the number fixed on entry. Afterwards the handler's own cancel function has run
    // exactly once, that of the call its Cancel names too if it was in the table, no
    // other has, and neither number is in the table.
    method Call(req: Record<S.Object>, payload: Payload, result: S.Result) returns (ctx: Context)
      requires Valid() && pending.Valid() && req !in requests.list
      modifies this`sent, pending, requests, req, responses, responses.list
      ensures Valid() && requests.list == [req] + old(requests.list)
      ensures |sent| == |old(sent)| + 1 && sent[..|old(sent)|] == old(sent)
      ensures var f := sent[|old(sent)|];
              && f.number == old(req.fields.number)
              && match payload
                 case CancelOf(_) => f.text == "" && f.body == 0
                 case Invoke(_, _) =>
                   if result.error.Some? && result.error.value != ""
                   then f.text == result.error.value && f.body == INVALID_REQUEST
                   else f.text == "" && f.body == result.value
      ensures pending.Valid() && ctx == old(pending.made)
      ensures pending.m == old(pending.m) - {old(req.fields.number)} - (if payload.CancelOf? then {payload.target} else {})
      ensures pending.ran == old(pending.ran) + Strikes(old(pending.m), old(req.fields.number), payload, ctx)
    {
      hide Connection.Valid, Pending.Valid;
      var number := req.fields.number; // the argument of the deferred Cancel
      ctx := pending.Start(number);
      var returned := Invoke(payload, result);
      ghost var m, ran := pending.m, pending.ran;
      Effects(old(pending.m), number, payload, ctx);
      Finish(req, returned);
      assert pending.m == m && pending.ran == ran;
      pending.Cancel(number);
    }
  }
}
