/** `createWebSocketHandler`: the frame sent back for each message a connection receives. */
module WsAdapter {
  import opened Js
  import opened Pipeline
  import opened GetMatch
  import opened Adapters
  import WsLink

  /** The typed `Message` the listener declares: a path, a method and an input. */
  datatype Message = Message(path: string, methodName: string, input: Value)

  /** What is sent back, before `JSON.stringify`: a status and its data. */
  datatype Reply = Reply(status: int, data: Value)

  /** The object `JSON.stringify` is given: `{status, data}`, and nothing else. */
  function ReplyValue(r: Reply): (v: Value)
    ensures v.Obj? && v.fields.Keys == {"status", "data"}
    ensures v.fields["status"] == Num(r.status) && v.fields["data"] == r.data
  {
    Obj(map["status" := Num(r.status), "data" := r.data])
  }

  /** `JSON.parse` applied to `message.input`, which throws on what is not JSON text. */
  type ParseInput = Value -> Outcome<Value>

  /** `message.input ? JSON.parse(message.input) : void 0`. */
  function Input(input: Value, parse: ParseInput): (r: Outcome<Value>)
    ensures !Truthy(input) ==> r == Ok(Undefined)
    ensures Truthy(input) ==> r == parse(input)
  {
    if Truthy(input) then parse(input) else Ok(Undefined)
  }

  /** The context of a matched message: its path and params, then `createContext`'s fields.
      There is no cookie manager on a socket. */
  function BaseContext(path: string, params: map<string, string>): Context {
    map["path" := Str(path), "params" := ParamsValue(params)]
  }

  /** The listener for one message; a throw leaves the message unanswered. */
  function OnMessage<H>(msg: Message, routes: seq<(string, Route<H>)>, createContext: Outcome<Value>,
                        invoke: Invoke<H>, parse: ParseInput): Outcome<Reply>
  {
    var m :- Matching(routes, msg.path);
    match m.handler
    case None => Ok(Reply(404, Str("Not found")))
    case Some(h) =>
      var extra :- createContext;
      var context := RequestContext(BaseContext(msg.path, m.params), extra);
      var input :- Input(msg.input, parse);
      var response :- invoke(h, input, context);
      Ok(Reply(response.status, Coalesce(response.data, Null)))
  }

  // ---------------------------------------------------------------------------------------
  // Properties

  /** A path no route matches is answered `{status: 404, data: "Not found"}`. */
  lemma UnmatchedIsNotFound<H>(msg: Message, routes: seq<(string, Route<H>)>, createContext: Outcome<Value>,
                               invoke: Invoke<H>, parse: ParseInput)
    requires forall j :: 0 <= j < |routes| ==> routes[j].1.regex(msg.path).None?
    ensures OnMessage(msg, routes, createContext, invoke, parse) == Ok(Reply(404, Str("Not found")))
  {
  }

  /** A matched message is answered with the handler's status and data, `null` for nullish
      data; the handler gets the parsed input, `undefined` for a falsy one, and a context
      whose path is the message's. */
  lemma DispatchedReply<H>(msg: Message, routes: seq<(string, Route<H>)>, extra: Value,
                           invoke: Invoke<H>, parse: ParseInput)
    requires Matching(routes, msg.path).Ok? && Matching(routes, msg.path).value.handler.Some?
    requires Input(msg.input, parse).Ok?
    ensures var m := Matching(routes, msg.path).value;
      var context := RequestContext(BaseContext(msg.path, m.params), extra);
      var called := invoke(m.handler.value, Input(msg.input, parse).value, context);
      && (called.Ok? ==>
            OnMessage(msg, routes, Ok(extra), invoke, parse)
              == Ok(Reply(called.value.status, Coalesce(called.value.data, Null))))
      && (called.IsFailure() ==> OnMessage(msg, routes, Ok(extra), invoke, parse).IsFailure())
      && ("path" !in Spread(extra) ==> context["path"] == Str(msg.path))
      && ("cookies" !in Spread(extra) ==> "cookies" !in context)
  {
  }

  /** The message's method plays no part: a SUBSCRIBE, an UNSUBSCRIBE and a POST on the same
      path with the same input are answered alike. */
  lemma MethodIgnored<H>(msg: Message, other: string, routes: seq<(string, Route<H>)>,
                         createContext: Outcome<Value>, invoke: Invoke<H>, parse: ParseInput)
    ensures OnMessage(msg.(methodName := other), routes, createContext, invoke, parse)
              == OnMessage(msg, routes, createContext, invoke, parse)
  {
  }

  /** As written, `wsLink`'s listener drops every reply this handler sends: with no `id` the
      reply hits neither the pending requests nor the subscriptions, so no request promise is
      ever settled and no subscriber is ever called. */
  lemma ReplyIgnoredByLink(s: WsLink.LinkState, r: Reply)
    ensures WsLink.MessageStep(s, ReplyValue(r)) == (s, Ok(()))
  {
    assert Lookup(ReplyValue(r).fields, "id") == Undefined;
    WsLink.UnknownReplyIgnored(s, ReplyValue(r));
  }

  /** The answer in the envelope `wsLink` reads: the id of the frame being answered and the
      reply under `body`. */
  function ReplyFrame(id: int, r: Reply): (v: Value)
    ensures v.Obj? && v.fields.Keys == {"id", "body"}
    ensures v.fields["id"] == Num(id) && v.fields["body"] == ReplyValue(r)
  {
    Obj(map["id" := Num(id), "body" := ReplyValue(r)])
  }

  /** With the envelope, the reply to a pending request settles exactly that request: resolved
      with the data for a status in 200 .. 299, rejected with the frame otherwise. */
  lemma ReplyFrameSettles(s: WsLink.LinkState, id: int, r: Reply)
    requires WsLink.Valid(s) && id in s.pending
    ensures var (t, res) := WsLink.MessageStep(s, ReplyFrame(id, r));
      && res.Ok?
      && t.pending == s.pending - {id}
      && t.subscriptions == s.subscriptions && t.deliveries == s.deliveries
      && t.settled == s.settled +
           [if 200 <= r.status <= 299 then WsLink.Resolved(id, r.data) else WsLink.Rejected(id, ReplyFrame(id, r))]
  {
    var body := ReplyValue(r).fields;
    var rest: map<string, Value> := map[];
    assert ReplyFrame(id, r) == Obj(rest["id" := Num(id)]["body" := Obj(body)]);
    WsLink.ReplySettlesPending(s, id, body, rest);
    assert Lookup(body, "status") == Num(r.status);
    assert Lookup(body, "data") == r.data;
  }

  /** With the envelope, the reply to a subscription reaches its callback with the data. */
  lemma ReplyFrameDelivers(s: WsLink.LinkState, id: int, r: Reply)
    requires WsLink.Valid(s) && id in s.subscriptions && Truthy(s.subscriptions[id])
    ensures WsLink.MessageStep(s, ReplyFrame(id, r))
              == (s.(deliveries := s.deliveries + [WsLink.Delivery(s.subscriptions[id], r.data)]), Ok(()))
  {
    var body := ReplyValue(r).fields;
    var rest: map<string, Value> := map[];
    assert ReplyFrame(id, r) == Obj(rest["id" := Num(id)]["body" := Obj(body)]);
    WsLink.ReplyReachesSubscription(s, id, body, rest);
    assert Lookup(body, "data") == r.data;
  }
}
