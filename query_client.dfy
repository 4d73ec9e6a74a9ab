/** `createQueryClient`: a proxy that accumulates a path and hands out query hooks, and the
    table that lets every `useSubscription` with the same path and input share one underlying
    subscription, counted by reference. */
module QueryClient {
  import opened Js

  /** `JSON.stringify`, which gives `undefined` (`None`) for `undefined`, functions and
      symbols. It is a parameter: the model does not render JSON. */
  type Json = Value -> Option<string>

  /** What a property of the hook proxy at `props` is. */
  datatype Access =
    | NotThenable                       // "then": `undefined`, so the proxy is not awaited
    | QueryHook(path: seq<string>)
    | InfiniteQueryHook(path: seq<string>)
    | MutationHook(path: seq<string>)
    | SubscriptionHook(path: seq<string>)
    | Nested(path: seq<string>)         // `buildQueryHook([...props, prop])`

  function Get(props: seq<string>, prop: string): (r: Access)
    ensures prop == "then" <==> r == NotThenable
    ensures r.Nested? <==> prop !in {"then", "useQuery", "useInfiniteQuery", "useMutation", "useSubscription"}
    ensures r.Nested? ==> r.path == props + [prop]
    ensures !r.Nested? && !r.NotThenable? ==> r.path == props
  {
    if prop == "then" then NotThenable
    else if prop == "useQuery" then QueryHook(props)
    else if prop == "useInfiniteQuery" then InfiniteQueryHook(props)
    else if prop == "useMutation" then MutationHook(props)
    else if prop == "useSubscription" then SubscriptionHook(props)
    else Nested(props + [prop])
  }

  /** `options.input`, where the query hooks default a missing `options` to `{input: undefined}`. */
  function QueryInput(options: Value): Outcome<Value> {
    Prop(if options.Undefined? then Obj(map["input" := Undefined]) else options, "input")
  }

  /** `["aether", props.join("."), JSON.stringify(options.input)]`, for both query hooks. */
  function QueryKey(props: seq<string>, options: Value, json: Json): (r: Outcome<seq<Value>>)
    ensures r.IsFailure() <==> options.Null?
    ensures r.Ok? ==>
      && |r.value| == 3 && r.value[0] == Str("aether") && r.value[1] == Str(Join(props, "."))
      && var input := QueryInput(options).value;
         r.value[2] == (if json(input).Some? then Str(json(input).value) else Undefined)
  {
    var input :- QueryInput(options);
    Ok([Str("aether"), Str(Join(props, ".")), match json(input) case Some(t) => Str(t) case None => Undefined])
  }

  /** The argument of one page fetch of `useInfiniteQuery`: `{...options.input, cursor: pageParam}`. */
  function PageInput(input: Value, pageParam: Value): (r: Value)
    ensures r.Obj? && r.fields.Keys == Spread(input).Keys + {"cursor"}
    ensures r.fields["cursor"] == pageParam
    ensures forall k :: k in Spread(input) && k != "cursor" ==> r.fields[k] == Spread(input)[k]
  {
    Obj(Spread(input)["cursor" := pageParam])
  }

  /** The sharing key of `useSubscription`: `props.join(".") + JSON.stringify(options.input)`,
      where string concatenation renders a missing JSON text as "undefined". */
  function SubscriptionKey(props: seq<string>, input: Value, json: Json): string {
    Join(props, ".") + (match json(input) case Some(t) => t case None => "undefined")
  }

  // ---------------------------------------------------------------------------------------
  // The shared-subscription table

  /** `{unsubscribe, count, callbacks}`; the `Set` of callbacks in insertion order. */
  datatype Entry = Entry(unsubscribe: Value, count: int, callbacks: seq<Value>)

  /** What the table asks of the client: one underlying `subscribe` with the options passed, or
      one call of a stored `unsubscribe`. */
  datatype WireEvent = Subscribed(path: seq<string>, options: map<string, Value>) | Unsubscribed(handle: Value)

  datatype Delivery = Delivery(callback: Value, data: Value)

  datatype TableState = TableState(entries: map<string, Entry>, wire: seq<WireEvent>, delivered: seq<Delivery>)

  /** The `handleMessage` closure created for `key`. */
  function HandleMessageFor(key: string): Value {
    Native("function", "handleMessage " + key)
  }

  predicate NoDuplicates(s: seq<Value>) {
    forall i, j :: 0 <= i < j < |s| ==> s[i] != s[j]
  }

  /** Every stored entry has `count >= 1` and a set of callbacks. */
  predicate Valid(s: TableState) {
    forall k :: k in s.entries ==> s.entries[k].count >= 1 && NoDuplicates(s.entries[k].callbacks)
  }

  /** `set.add(x)`: an element already present keeps its place. */
  function SetAdd(s: seq<Value>, x: Value): (r: seq<Value>)
    ensures forall y :: y in r <==> y in s || y == x
    ensures NoDuplicates(s) ==> NoDuplicates(r)
  {
    if x in s then s else s + [x]
  }

  /** `set.delete(x)`. */
  function SetDelete(s: seq<Value>, x: Value): (r: seq<Value>)
    ensures forall y :: y in r <==> y in s && y != x
    ensures NoDuplicates(s) ==> NoDuplicates(r)
    ensures x !in s ==> r == s
  {
    if s == [] then []
    else
      var rest := SetDelete(s[1..], x);
      assert NoDuplicates(s) ==> NoDuplicates(s[1..]) && s[0] !in s[1..];
      if s[0] == x then rest else [s[0]] + rest
  }

  /** The effect of `useSubscription(options)` on the client, where `handle` is what the
      underlying `subscribe` would return (the call is taken to return normally). On the server
      nothing happens. */
  function SubscribeStep(s: TableState, props: seq<string>, options: map<string, Value>, json: Json,
                         handle: Value, onServer: bool): TableState
  {
    if onServer then s
    else
      var key := SubscriptionKey(props, Lookup(options, "input"), json);
      var onMessage := Lookup(options, "onMessage");
      if key in s.entries then
        var e := s.entries[key];
        s.(entries := s.entries[key := e.(count := e.count + 1, callbacks := SetAdd(e.callbacks, onMessage))])
      else
        s.(entries := s.entries[key := Entry(handle, 1, [onMessage])],
           wire := s.wire + [Subscribed(props, options["onMessage" := HandleMessageFor(key)])])
  }

  /** The `ref.current` closure for `key` and `onMessage`, with the stored teardown taken to be
      callable and to return normally. */
  function UnsubscribeStep(s: TableState, key: string, onMessage: Value): TableState {
    if key !in s.entries then s
    else
      var e := s.entries[key];
      var e' := e.(count := e.count - 1, callbacks := SetDelete(e.callbacks, onMessage));
      if e'.count == 0 then
        s.(entries := s.entries - {key}, wire := s.wire + [Unsubscribed(e.unsubscribe)])
      else s.(entries := s.entries[key := e'])
  }

  /** One call of each callback, in set order. */
  function DeliveriesOf(callbacks: seq<Value>, data: Value): (r: seq<Delivery>)
    ensures |r| == |callbacks|
    ensures forall i :: 0 <= i < |callbacks| ==> r[i] == Delivery(callbacks[i], data)
  {
    seq(|callbacks|, i requires 0 <= i < |callbacks| => Delivery(callbacks[i], data))
  }

  /** `handleMessage(data)` for `key`: a key that is gone delivers nothing. */
  function MessageStep(s: TableState, key: string, data: Value): TableState {
    if key in s.entries then s.(delivered := s.delivered + DeliveriesOf(s.entries[key].callbacks, data))
    else s
  }

  // ---------------------------------------------------------------------------------------
  // Properties

  /** The first subscriber for a key calls the underlying `subscribe` exactly once, with its own
      options except that `onMessage` is the shared dispatcher, and stores count 1 with its
      callback alone. */
  lemma FirstSubscriber(s: TableState, props: seq<string>, options: map<string, Value>, json: Json, handle: Value)
    requires SubscriptionKey(props, Lookup(options, "input"), json) !in s.entries
    ensures var key := SubscriptionKey(props, Lookup(options, "input"), json);
      var t := SubscribeStep(s, props, options, json, handle, false);
      && t.entries == s.entries[key := Entry(handle, 1, [Lookup(options, "onMessage")])]
      && t.wire == s.wire + [Subscribed(props, options["onMessage" := HandleMessageFor(key)])]
      && t.delivered == s.delivered
  {
  }

  /** A later subscriber for the same key adds one to the count and its callback to the set;
      no underlying call is made. */
  lemma LaterSubscriber(s: TableState, props: seq<string>, options: map<string, Value>, json: Json, handle: Value)
    requires SubscriptionKey(props, Lookup(options, "input"), json) in s.entries
    ensures var key := SubscriptionKey(props, Lookup(options, "input"), json);
      var t := SubscribeStep(s, props, options, json, handle, false);
      && key in t.entries
      && t.entries[key].count == s.entries[key].count + 1
      && t.entries[key].unsubscribe == s.entries[key].unsubscribe
      && (forall cb :: cb in t.entries[key].callbacks <==> cb in s.entries[key].callbacks || cb == Lookup(options, "onMessage"))
      && (forall k :: k in s.entries && k != key ==> k in t.entries && t.entries[k] == s.entries[k])
      && t.entries.Keys == s.entries.Keys
      && t.wire == s.wire && t.delivered == s.delivered
  {
  }

  /** A message reaches every callback of its key, once each, in set order, and nothing else
      changes. */
  lemma MessageReachesAll(s: TableState, key: string, data: Value)
    requires key in s.entries
    ensures var t := MessageStep(s, key, data);
      && t.entries == s.entries && t.wire == s.wire
      && |t.delivered| == |s.delivered| + |s.entries[key].callbacks|
      && t.delivered[..|s.delivered|] == s.delivered
      && forall i :: 0 <= i < |s.entries[key].callbacks| ==>
           t.delivered[|s.delivered| + i] == Delivery(s.entries[key].callbacks[i], data)
  {
  }

  /** Unsubscribing removes the callback and decrements the count; the last one out calls the
      stored `unsubscribe` once and deletes the key. An absent key is left alone. */
  lemma UnsubscribeFacts(s: TableState, key: string, onMessage: Value)
    requires Valid(s)
    ensures key !in s.entries ==> UnsubscribeStep(s, key, onMessage) == s
    ensures key in s.entries && s.entries[key].count == 1 ==>
      var t := UnsubscribeStep(s, key, onMessage);
      t.entries == s.entries - {key} && t.wire == s.wire + [Unsubscribed(s.entries[key].unsubscribe)]
    ensures key in s.entries && s.entries[key].count > 1 ==>
      var t := UnsubscribeStep(s, key, onMessage);
      && key in t.entries && t.entries[key].count == s.entries[key].count - 1
      && onMessage !in t.entries[key].callbacks
      && (forall cb :: cb in t.entries[key].callbacks <==> cb in s.entries[key].callbacks && cb != onMessage)
      && t.wire == s.wire
  {
  }

  lemma SubscribePreservesValid(s: TableState, props: seq<string>, options: map<string, Value>, json: Json,
                                handle: Value, onServer: bool)
    requires Valid(s)
    ensures Valid(SubscribeStep(s, props, options, json, handle, onServer))
  {
  }

  lemma UnsubscribePreservesValid(s: TableState, key: string, onMessage: Value)
    requires Valid(s)
    ensures Valid(UnsubscribeStep(s, key, onMessage))
  {
  }

  /** One step of a subscriber's life on a single key. */
  datatype Op = Enter(onMessage: Value, options: map<string, Value>, handle: Value) | Leave(onMessage: Value)

  /** Subscribers that join through the hook at `props` with `input` and leave through their
      closures, in order. */
  function Run(s: TableState, props: seq<string>, input: Value, json: Json, ops: seq<Op>): TableState
    decreases |ops|
  {
    if ops == [] then s
    else
      var s' := Run(s, props, input, json, ops[..|ops| - 1]);
      match ops[|ops| - 1]
      case Enter(cb, options, handle) =>
        SubscribeStep(s', props, options["input" := input]["onMessage" := cb], json, handle, false)
      case Leave(cb) => UnsubscribeStep(s', SubscriptionKey(props, input, json), cb)
  }

  function Joins(ops: seq<Op>): nat
    decreases |ops|
  {
    if ops == [] then 0 else Joins(ops[..|ops| - 1]) + (if ops[|ops| - 1].Enter? then 1 else 0)
  }

  /** The net number of subscribers after each prefix of `ops`, starting from `c`. */
  predicate StaysSubscribed(c: int, ops: seq<Op>) {
    forall n :: 1 <= n <= |ops| ==> c + Joins(ops[..n]) - (n - Joins(ops[..n])) >= 1
  }

  /** Reference counting: while at least one subscriber remains after every step, the count is
      the number of joins minus the number of leaves, and no underlying call is made beyond
      the first subscribe. */
  lemma {:induction false} CountIsNetSubscribers(s: TableState, props: seq<string>, input: Value, json: Json, ops: seq<Op>)
    requires SubscriptionKey(props, input, json) in s.entries
    requires StaysSubscribed(s.entries[SubscriptionKey(props, input, json)].count, ops)
    ensures var key := SubscriptionKey(props, input, json);
      var t := Run(s, props, input, json, ops);
      && key in t.entries
      && t.entries[key].count == s.entries[key].count + Joins(ops) - (|ops| - Joins(ops))
      && t.entries[key].unsubscribe == s.entries[key].unsubscribe
      && t.wire == s.wire
    decreases |ops|
  {
    var key := SubscriptionKey(props, input, json);
    var c := s.entries[key].count;
    if ops != [] {
      var init := ops[..|ops| - 1];
      var n := |ops|;
      assert ops[..n] == ops;
      forall m | 1 <= m <= |init| ensures c + Joins(init[..m]) - (m - Joins(init[..m])) >= 1 {
        assert init[..m] == ops[..m];
      }
      CountIsNetSubscribers(s, props, input, json, init);
      match ops[n - 1]
      case Enter(cb, options, handle) =>
        var opts := options["input" := input]["onMessage" := cb];
        assert Lookup(opts, "input") == input;
      case Leave(cb) =>
    }
  }

  /** The count and the set can disagree: two subscribers that pass the SAME `onMessage` count
      twice but share one set element, so after one of them leaves the entry survives with
      count 1 and no callback, and a message reaches nobody. */
  lemma SharedCallbackLostAfterOneLeaves(props: seq<string>, input: Value, json: Json, cb: Value,
                                         options: map<string, Value>, handle: Value, data: Value)
    ensures var s0 := TableState(map[], [], []);
      var t := Run(s0, props, input, json, [Enter(cb, options, handle), Enter(cb, options, handle), Leave(cb)]);
      var key := SubscriptionKey(props, input, json);
      && key in t.entries && t.entries[key].count == 1 && t.entries[key].callbacks == []
      && MessageStep(t, key, data).delivered == t.delivered
  {
    var key := SubscriptionKey(props, input, json);
    var opts := options["input" := input]["onMessage" := cb];
    assert Lookup(opts, "input") == input && Lookup(opts, "onMessage") == cb;
    var s0 := TableState(map[], [], []);
    var ops := [Enter(cb, options, handle), Enter(cb, options, handle), Leave(cb)];
    assert ops[..1][..0] == [];
    var s1 := SubscribeStep(s0, props, opts, json, handle, false);
    assert Run(s0, props, input, json, ops[..1]) == s1;
    assert s1.entries[key] == Entry(handle, 1, [cb]);
    assert ops[..2][..1] == ops[..1];
    var s2 := SubscribeStep(s1, props, opts, json, handle, false);
    assert Run(s0, props, input, json, ops[..2]) == s2;
    assert s2.entries[key] == Entry(handle, 2, [cb]);
    assert ops[..2] == ops[..|ops| - 1];
    var s3 := UnsubscribeStep(s2, key, cb);
    assert Run(s0, props, input, json, ops) == s3;
    assert s3.entries[key] == Entry(handle, 1, []);
  }

  // ---------------------------------------------------------------------------------------
  // The table as an object

  /** The `subscriptions` map shared by every hook of one query client, with the client calls
      it makes and the callbacks it runs. */
  class SubscriptionTable {
    var entries: map<string, Entry>
    var wire: seq<WireEvent>
    var delivered: seq<Delivery>

    function State(): TableState
      reads this
    {
      TableState(entries, wire, delivered)
    }

    constructor ()
      ensures State() == TableState(map[], [], []) && Valid(State())
    {
      entries := map[];
      wire := [];
      delivered := [];
    }

    /** The effect of `useSubscription`. */
    method Subscribe(props: seq<string>, options: map<string, Value>, json: Json, handle: Value, onServer: bool)
      requires Valid(State())
      modifies this
      ensures State() == SubscribeStep(old(State()), props, options, json, handle, onServer)
      ensures Valid(State())
    {
      SubscribePreservesValid(State(), props, options, json, handle, onServer);
      if onServer {
        return;
      }
      var key := SubscriptionKey(props, Lookup(options, "input"), json);
      var onMessage := Lookup(options, "onMessage");
      if key in entries {
        var e := entries[key];
        entries := entries[key := e.(count := e.count + 1, callbacks := SetAdd(e.callbacks, onMessage))];
      } else {
        wire := wire + [Subscribed(props, options["onMessage" := HandleMessageFor(key)])];
        entries := entries[key := Entry(handle, 1, [onMessage])];
      }
    }

    /** `ref.current()`. */
    method Unsubscribe(key: string, onMessage: Value)
      requires Valid(State())
      modifies this
      ensures State() == UnsubscribeStep(old(State()), key, onMessage)
      ensures Valid(State())
    {
      UnsubscribePreservesValid(State(), key, onMessage);
      if key in entries {
        var e := entries[key];
        e := e.(count := e.count - 1, callbacks := SetDelete(e.callbacks, onMessage));
        if e.count == 0 {
          wire := wire + [Unsubscribed(e.unsubscribe)];
          entries := entries - {key};
        } else {
          entries := entries[key := e];
        }
      }
    }

    /** `handleMessage(data)`: `subscription.callbacks.forEach((cb) => cb(data))`. */
    method HandleMessage(key: string, data: Value)
      modifies this
      ensures State() == MessageStep(old(State()), key, data)
    {
      if key in entries {
        var callbacks := entries[key].callbacks;
        var i := 0;
        while i < |callbacks|
          invariant 0 <= i <= |callbacks|
          invariant entries == old(entries) && wire == old(wire)
          invariant delivered == old(delivered) + DeliveriesOf(callbacks[..i], data)
        {
          assert DeliveriesOf(callbacks[..i + 1], data) == DeliveriesOf(callbacks[..i], data) + [Delivery(callbacks[i], data)];
          delivered := delivered + [Delivery(callbacks[i], data)];
          i := i + 1;
        }
        assert callbacks[..i] == callbacks;
      }
    }
  }
}
