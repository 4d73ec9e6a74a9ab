/** `wsLink`: the client side of the WebSocket transport. Every call takes the next id from a
    counter; POST calls wait in `pending` for the reply with their id, subscriptions keep their
    callback in `subscriptions`; the message listener dispatches replies by id. The socket is an
    outbox of frames, and each settled promise and each callback invocation is logged. */
module WsLink {
  import opened Js

  /** The message object a call serialises, before `JSON.stringify`. */
  datatype Frame = Frame(id: int, methodName: string, body: map<string, Value>)

  /** How a POST promise was settled: `resolve(body.data)` or `reject(response)`. */
  datatype Settlement = Resolved(id: int, data: Value) | Rejected(id: int, response: Value)

  /** One invocation of a subscription callback with `body.data`. */
  datatype Delivery = Delivery(callback: Value, data: Value)

  /** What a call returns: a promise waiting on reply `id`, a promise rejected because the
      socket failed to open, the unsubscribe closure of subscription `id`, or `undefined`. */
  datatype CallResult =
    | Request(id: int)
    | ConnectError
    | Unsubscriber(id: int, path: string)
    | NoResult

  /** The closure state of one link, together with what it has sent and settled. */
  datatype LinkState = LinkState(
    nextId: int,
    pending: set<int>,
    subscriptions: map<int, Value>,
    outbox: seq<Frame>,
    settled: seq<Settlement>,
    deliveries: seq<Delivery>)

  const Initial := LinkState(1, {}, map[], [], [], [])

  const PostMethod := "POST"
  const SubscribeMethod := "SUBSCRIBE"
  const UnsubscribeMethod := "UNSUBSCRIBE"

  /** A frame that opens a request or a subscription (not an UNSUBSCRIBE). */
  predicate Opening(f: Frame) {
    f.methodName != UnsubscribeMethod
  }

  /** What the closures keep true: ids handed out lie in `1 .. nextId - 1`, no id is both a
      pending request and a subscription, and opening frames carry strictly increasing ids. */
  ghost predicate Valid(s: LinkState) {
    && s.nextId >= 1
    && (forall id :: id in s.pending ==> 1 <= id < s.nextId)
    && (forall id :: id in s.subscriptions ==> 1 <= id < s.nextId)
    && (forall id :: id in s.pending ==> id !in s.subscriptions)
    && (forall k :: 0 <= k < |s.outbox| && Opening(s.outbox[k]) ==> 1 <= s.outbox[k].id < s.nextId)
    && (forall k, l :: 0 <= k < l < |s.outbox| && Opening(s.outbox[k]) && Opening(s.outbox[l]) ==>
          s.outbox[k].id < s.outbox[l].id)
  }

  /** The `input` of a call's frame: `args` for POST, `args.input` for SUBSCRIBE (which throws
      on nullish `args`), `undefined` for any other method. */
  function CallInput(args: Value, methodName: string): Outcome<Value> {
    if methodName == SubscribeMethod then Prop(args, "input")
    else if methodName == PostMethod then Ok(args)
    else Ok(Undefined)
  }

  /** One call of the link with `{path, args, method}`; `ready` is whether the socket opens. */
  function CallStep(s: LinkState, path: string, args: Value, methodName: string, ready: bool): (LinkState, Outcome<CallResult>) {
    match CallInput(args, methodName)
    case Ok(input) =>
      var id := s.nextId;
      var frame := Frame(id, methodName, map["path" := Str(path), "input" := input]);
      var s1 := s.(nextId := id + 1);
      if methodName == PostMethod then
        if ready then (s1.(pending := s.pending + {id}, outbox := s.outbox + [frame]), Ok(Request(id)))
        else (s1, Ok(ConnectError))
      else if methodName == SubscribeMethod then
        var onMessage := Prop(args, "onMessage").value;
        if ready then (s1.(subscriptions := s.subscriptions[id := onMessage], outbox := s.outbox + [frame]),
                       Ok(Unsubscriber(id, path)))
        else (s1, Ok(Unsubscriber(id, path)))
      else (s1, Ok(NoResult))
    case ThrowClassified(st, m, d) => (s, ThrowClassified(st, m, d))
    case ThrowOther(e) => (s, ThrowOther(e))
  }

  /** `200 <= status < 300` for a numeric status. */
  predicate Success(status: Value) {
    status.Num? && 200 <= status.n < 300
  }

  /** The key a reply's `id` hits in the two tables, if it is a number. */
  function IdKey(id: Value): Option<int> {
    if id.Num? then Some(id.n) else None
  }

  /** The listener for one parsed reply. A throw leaves whatever was already done in place. */
  function MessageStep(s: LinkState, response: Value): (LinkState, Outcome<()>) {
    match Prop(response, "id")
    case Ok(idv) =>
      // `response` is not nullish here, so reading `response.body` cannot throw.
      var body := Prop(response, "body").value;
      var key := IdKey(idv);
      var isRequest := key.Some? && key.value in s.pending;
      var subscription := if key.Some? && key.value in s.subscriptions then s.subscriptions[key.value] else Undefined;
      var afterRequest: Outcome<LinkState> :=
        if !isRequest then Ok(s)
        else
          var status :- Prop(body, "status");
          // `body` is not nullish once `body.status` was read.
          if Success(status) then
            Ok(s.(settled := s.settled + [Resolved(key.value, Prop(body, "data").value)], pending := s.pending - {key.value}))
          else Ok(s.(settled := s.settled + [Rejected(key.value, response)], pending := s.pending - {key.value}));
      (match afterRequest
       case Ok(s2) =>
         if !Truthy(subscription) then (s2, Ok(()))
         else
           (match Prop(body, "data")
            case Ok(data) => (s2.(deliveries := s2.deliveries + [Delivery(subscription, data)]), Ok(()))
            case ThrowClassified(st, m, d) => (s2, ThrowClassified(st, m, d))
            case ThrowOther(e) => (s2, ThrowOther(e)))
       case ThrowClassified(st, m, d) => (s, ThrowClassified(st, m, d))
       case ThrowOther(e) => (s, ThrowOther(e)))
    case ThrowClassified(st, m, d) => (s, ThrowClassified(st, m, d))
    case ThrowOther(e) => (s, ThrowOther(e))
  }

  /** The unsubscribe closure of subscription `id` on `path`: once the socket is ready, an
      UNSUBSCRIBE frame without input is sent and the entry is removed. */
  function UnsubscribeStep(s: LinkState, id: int, path: string, ready: bool): (r: LinkState) {
    if ready then
      s.(outbox := s.outbox + [Frame(id, UnsubscribeMethod, map["path" := Str(path)])],
         subscriptions := s.subscriptions - {id})
    else s
  }

  // ---------------------------------------------------------------------------------------
  // Properties

  lemma InitialValid()
    ensures Valid(Initial)
  {
  }

  /** A call that does not throw takes `nextId` and increments it; a POST that reaches the
      socket registers that id as pending and sends `{id, method, body: {path, input: args}}`;
      a SUBSCRIBE registers `args.onMessage` under it and sends `input: args.input`. */
  lemma CallFrames(s: LinkState, path: string, args: Value, methodName: string, ready: bool)
    requires CallStep(s, path, args, methodName, ready).1.Ok?
    ensures var (t, r) := CallStep(s, path, args, methodName, ready);
      && t.nextId == s.nextId + 1
      && (methodName == PostMethod && ready ==>
            && r == Ok(Request(s.nextId)) && t.pending == s.pending + {s.nextId}
            && t.outbox == s.outbox + [Frame(s.nextId, PostMethod, map["path" := Str(path), "input" := args])])
      && (methodName == SubscribeMethod && ready && args.Obj? ==>
            && t.subscriptions == s.subscriptions[s.nextId := Lookup(args.fields, "onMessage")]
            && t.outbox == s.outbox + [Frame(s.nextId, SubscribeMethod,
                                              map["path" := Str(path), "input" := Lookup(args.fields, "input")])])
      && (methodName == SubscribeMethod ==> r == Ok(Unsubscriber(s.nextId, path)))
      && t.settled == s.settled && t.deliveries == s.deliveries
  {
  }

  /** A SUBSCRIBE on nullish `args` throws before taking an id: nothing changes. */
  lemma SubscribeWithoutArgsThrows(s: LinkState, path: string, args: Value, ready: bool)
    requires Nullish(args)
    ensures CallStep(s, path, args, SubscribeMethod, ready).0 == s
    ensures CallStep(s, path, args, SubscribeMethod, ready).1.IsFailure()
  {
  }

  lemma CallPreservesValid(s: LinkState, path: string, args: Value, methodName: string, ready: bool)
    requires Valid(s)
    ensures Valid(CallStep(s, path, args, methodName, ready).0)
  {
    var t := CallStep(s, path, args, methodName, ready).0;
    if t.outbox != s.outbox {
      assert t.outbox[|s.outbox|].id == s.nextId;
    }
  }

  /** The ids of the opening frames, in the order they were sent. */
  function OpeningIds(outbox: seq<Frame>): (ids: seq<int>)
    ensures |ids| <= |outbox|
    decreases |outbox|
  {
    if outbox == [] then []
    else
      var rest := OpeningIds(outbox[..|outbox| - 1]);
      if Opening(outbox[|outbox| - 1]) then rest + [outbox[|outbox| - 1].id] else rest
  }

  /** The ids a link has put on the wire for opening frames are strictly increasing, hence
      distinct: no two requests or subscriptions ever share an id. */
  lemma {:induction false} OpeningIdsIncrease(s: LinkState)
    requires Valid(s)
    ensures forall i, j :: 0 <= i < j < |OpeningIds(s.outbox)| ==> OpeningIds(s.outbox)[i] < OpeningIds(s.outbox)[j]
    ensures forall i :: 0 <= i < |OpeningIds(s.outbox)| ==> 1 <= OpeningIds(s.outbox)[i] < s.nextId
  {
    OpeningIdsFromFrames(s.outbox, s.nextId);
  }

  lemma {:induction false} OpeningIdsFromFrames(outbox: seq<Frame>, bound: int)
    requires forall k :: 0 <= k < |outbox| && Opening(outbox[k]) ==> 1 <= outbox[k].id < bound
    requires forall k, l :: 0 <= k < l < |outbox| && Opening(outbox[k]) && Opening(outbox[l]) ==>
               outbox[k].id < outbox[l].id
    ensures forall i, j :: 0 <= i < j < |OpeningIds(outbox)| ==> OpeningIds(outbox)[i] < OpeningIds(outbox)[j]
    ensures forall i :: 0 <= i < |OpeningIds(outbox)| ==> 1 <= OpeningIds(outbox)[i] < bound
    decreases |outbox|
  {
    if outbox != [] {
      var init := outbox[..|outbox| - 1];
      var last := outbox[|outbox| - 1];
      OpeningIdsFromFrames(init, bound);
      if Opening(last) {
        // Every opening frame before `last` has a smaller id, so `last.id` bounds them.
        OpeningIdsFromFrames(init, last.id);
        assert OpeningIds(outbox) == OpeningIds(init) + [last.id];
      }
    }
  }

  /** A reply for a pending id settles it, by `resolve(body.data)` when the status is in
      200 .. 299 and by `reject(response)` otherwise, and removes the entry either way. */
  lemma ReplySettlesPending(s: LinkState, id: int, body: map<string, Value>, rest: map<string, Value>)
    requires Valid(s)
    requires id in s.pending
    ensures var response := Obj(rest["id" := Num(id)]["body" := Obj(body)]);
      var (t, r) := MessageStep(s, response);
      && r.Ok?
      && t.pending == s.pending - {id}
      && t.subscriptions == s.subscriptions && t.outbox == s.outbox && t.deliveries == s.deliveries
      && t.settled == s.settled +
           [if Success(Lookup(body, "status")) then Resolved(id, Lookup(body, "data")) else Rejected(id, response)]
  {
  }

  /** A reply for a subscription id calls its (truthy) callback with `body.data` and keeps the
      entry, so later replies reach it too. */
  lemma ReplyReachesSubscription(s: LinkState, id: int, body: map<string, Value>, rest: map<string, Value>)
    requires Valid(s)
    requires id in s.subscriptions && Truthy(s.subscriptions[id])
    ensures var response := Obj(rest["id" := Num(id)]["body" := Obj(body)]);
      var (t, r) := MessageStep(s, response);
      && r.Ok?
      && t == s.(deliveries := s.deliveries + [Delivery(s.subscriptions[id], Lookup(body, "data"))])
  {
  }

  /** A reply whose id is in neither table changes nothing and delivers nothing, whatever else
      it holds. */
  lemma UnknownReplyIgnored(s: LinkState, response: Value)
    requires response.Obj?
    requires var key := IdKey(Lookup(response.fields, "id"));
      key.None? || (key.value !in s.pending && key.value !in s.subscriptions)
    ensures MessageStep(s, response) == (s, Ok(()))
  {
  }

  lemma MessagePreservesValid(s: LinkState, response: Value)
    requires Valid(s)
    ensures Valid(MessageStep(s, response).0)
  {
  }

  /** Unsubscribing sends `{id, method: "UNSUBSCRIBE", body: {path}}` with no `input`, then
      removes the subscription, so replies for that id are no longer delivered. */
  lemma UnsubscribeEffect(s: LinkState, id: int, path: string)
    ensures var t := UnsubscribeStep(s, id, path, true);
      && t.outbox == s.outbox + [Frame(id, UnsubscribeMethod, map["path" := Str(path)])]
      && "input" !in t.outbox[|s.outbox|].body
      && t.subscriptions == s.subscriptions - {id}
      && t.pending == s.pending && t.nextId == s.nextId
      && t.settled == s.settled && t.deliveries == s.deliveries
  {
  }

  lemma UnsubscribePreservesValid(s: LinkState, id: int, path: string, ready: bool)
    requires Valid(s)
    ensures Valid(UnsubscribeStep(s, id, path, ready))
  {
  }

  // ---------------------------------------------------------------------------------------
  // The link as an object

  /** The variables the `wsLink` closures share, plus the socket's outbox and the logs. */
  class Link {
    var nextId: int
    var pending: set<int>
    var subscriptions: map<int, Value>
    var outbox: seq<Frame>
    var settled: seq<Settlement>
    var deliveries: seq<Delivery>

    function State(): LinkState
      reads this
    {
      LinkState(nextId, pending, subscriptions, outbox, settled, deliveries)
    }

    /** `wsLink(config)`: `nextId = 1` and both tables empty. */
    constructor ()
      ensures State() == Initial && Valid(State())
    {
      nextId := 1;
      pending := {};
      subscriptions := map[];
      outbox := [];
      settled := [];
      deliveries := [];
    }

    /** The link function returned by `wsLink`. */
    method Call(path: string, args: Value, methodName: string, ready: bool) returns (r: Outcome<CallResult>)
      requires Valid(State())
      modifies this
      ensures (State(), r) == CallStep(old(State()), path, args, methodName, ready)
      ensures Valid(State())
    {
      CallPreservesValid(State(), path, args, methodName, ready);
      var input := CallInput(args, methodName);
      if input.IsFailure() {
        return input.PropagateFailure();
      }
      var id := nextId;
      nextId := nextId + 1;
      var message := Frame(id, methodName, map["path" := Str(path), "input" := input.value]);
      if methodName == PostMethod {
        if !ready {
          return Ok(ConnectError);
        }
        pending := pending + {id};
        outbox := outbox + [message];
        return Ok(Request(id));
      }
      if methodName == SubscribeMethod {
        if ready {
          subscriptions := subscriptions[id := Prop(args, "onMessage").value];
          outbox := outbox + [message];
        }
        return Ok(Unsubscriber(id, path));
      }
      return Ok(NoResult);
    }

    /** The `message` listener, given the parsed reply. */
    method OnMessage(response: Value) returns (r: Outcome<()>)
      requires Valid(State())
      modifies this
      ensures (State(), r) == MessageStep(old(State()), response)
      ensures Valid(State())
    {
      MessagePreservesValid(State(), response);
      var idv := Prop(response, "id");
      if idv.IsFailure() {
        return idv.PropagateFailure();
      }
      var body := Prop(response, "body").value;
      var key := IdKey(idv.value);
      var isRequest := key.Some? && key.value in pending;
      var subscription := if key.Some? && key.value in subscriptions then subscriptions[key.value] else Undefined;
      if isRequest {
        var status := Prop(body, "status");
        if status.IsFailure() {
          return status.PropagateFailure();
        }
        if Success(status.value) {
          settled := settled + [Resolved(key.value, Prop(body, "data").value)];
        } else {
          settled := settled + [Rejected(key.value, response)];
        }
        pending := pending - {key.value};
      }
      if Truthy(subscription) {
        var data := Prop(body, "data");
        if data.IsFailure() {
          return data.PropagateFailure();
        }
        deliveries := deliveries + [Delivery(subscription, data.value)];
      }
      return Ok(());
    }

    /** The unsubscribe closure of subscription `id`. */
    method Unsubscribe(id: int, path: string, ready: bool)
      requires Valid(State())
      modifies this
      ensures State() == UnsubscribeStep(old(State()), id, path, ready)
      ensures Valid(State())
    {
      UnsubscribePreservesValid(State(), id, path, ready);
      if ready {
        outbox := outbox + [Frame(id, UnsubscribeMethod, map["path" := Str(path)])];
        subscriptions := subscriptions - {id};
      }
    }
  }
}
