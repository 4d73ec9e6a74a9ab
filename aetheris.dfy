/** `Aetheris`: the same pipeline as `Procedure`, but every check goes through `validate`, so
    params and output failures read "Error validating input" with status 400; plus the
    subscription variant, which swallows every exception. */
module AetherisHandler {
  import opened Js
  import opened Pipeline
  import ProcedureHandler

  datatype HandlerConfig = HandlerConfig(
    input: Option<Schema>,
    output: Option<Schema>,
    params: Option<Schema>,
    resolve: Resolver)

  const ValidateMessage := "Error validating input"

  /** `validate(schema, data)`: returns when the schema is absent or accepts, else throws an
      `AetherisError` with 400, "Error validating input" and one detail per issue. */
  function Validate(schema: Option<Schema>, data: Value): (r: Outcome<()>)
    ensures r.Ok? <==> (schema.None? || schema.value(data) == [])
    ensures r.IsFailure() ==> r == ThrowClassified(400, ValidateMessage, Details(schema.value(data)))
  {
    Check(schema, data, 400, ValidateMessage)
  }

  function Run(a: Chain, cfg: HandlerConfig, data: Value, defaultContext: Context): Outcome<Value> {
    var context :- HandlerContext(a, defaultContext);
    var _ :- Validate(cfg.input, data);
    var _ :- Validate(cfg.params, Lookup(context, "params"));
    var response :- cfg.resolve(ResolverContext(context, data));
    var _ :- Validate(cfg.output, response);
    Ok(response)
  }

  /** The handler `Aetheris.handler(config)` returns, applied to `data` and `defaultContext`. */
  function Handle(a: Chain, cfg: HandlerConfig, data: Value, defaultContext: Context): Response {
    ToResponse(Run(a, cfg, data, defaultContext))
  }

  function AsProcedure(cfg: HandlerConfig): ProcedureHandler.HandlerConfig {
    ProcedureHandler.HandlerConfig(cfg.input, cfg.output, cfg.params, cfg.resolve)
  }

  /** Where the two handlers differ: a resolver result the output schema rejects gives 400 here
      and 500 in `Procedure`, with the same details. */
  lemma OutputMismatchIs400(a: Chain, cfg: HandlerConfig, data: Value, d: Context, v: Value)
    requires HandlerContext(a, d).Ok?
    requires ProcedureHandler.Passes(cfg.input, data)
    requires ProcedureHandler.Passes(cfg.params, Lookup(HandlerContext(a, d).value, "params"))
    requires cfg.resolve(ResolverContext(HandlerContext(a, d).value, data)) == Ok(v)
    requires cfg.output.Some? && cfg.output.value(v) != []
    ensures Handle(a, cfg, data, d) ==
      Response(400, Obj(map["message" := Str(ValidateMessage), "details" := Details(cfg.output.value(v))]))
    ensures ProcedureHandler.Handle(a, AsProcedure(cfg), data, d).status == 500
  {
  }

  /** A params rejection reports "Error validating input" (not "params") with status 400. */
  lemma ParamsRejectedAsInput(a: Chain, cfg: HandlerConfig, data: Value, d: Context)
    requires HandlerContext(a, d).Ok?
    requires ProcedureHandler.Passes(cfg.input, data)
    requires var ps := Lookup(HandlerContext(a, d).value, "params");
      cfg.params.Some? && cfg.params.value(ps) != []
    ensures var ps := Lookup(HandlerContext(a, d).value, "params");
      Handle(a, cfg, data, d) ==
        Response(400, Obj(map["message" := Str(ValidateMessage), "details" := Details(cfg.params.value(ps))]))
  {
  }

  /** Without a params or an output schema the two handlers agree on every input: the
      difference lies only in those two checks. */
  lemma AgreesWithProcedure(a: Chain, cfg: HandlerConfig, data: Value, d: Context)
    requires cfg.params.None? && cfg.output.None?
    ensures Handle(a, cfg, data, d) == ProcedureHandler.Handle(a, AsProcedure(cfg), data, d)
  {
  }

  /** Success and error mapping: 200 with the unchanged data once everything passes; a resolver
      throw keeps its status (`AetherisError`) or becomes 500 with only the message. */
  lemma ResolverOutcomeMapping(a: Chain, cfg: HandlerConfig, data: Value, d: Context)
    requires HandlerContext(a, d).Ok?
    requires ProcedureHandler.Passes(cfg.input, data)
    requires ProcedureHandler.Passes(cfg.params, Lookup(HandlerContext(a, d).value, "params"))
    ensures var r := cfg.resolve(ResolverContext(HandlerContext(a, d).value, data));
      && (r.Ok? && ProcedureHandler.Passes(cfg.output, r.value) ==> Handle(a, cfg, data, d) == Response(200, r.value))
      && (r.ThrowClassified? ==>
            Handle(a, cfg, data, d) == Response(r.status, Obj(map["message" := Str(r.message), "details" := r.data])))
      && (r.ThrowOther? ==> Handle(a, cfg, data, d) == Response(500, Obj(map["message" := r.errorMessage])))
  {
  }

  // ---------------------------------------------------------------------------------------
  // Subscriptions

  /** The `emit` function the resolver finds in its context (a host function). */
  const EmitFunction: Value := Native("function", "emit")

  /** `emit(data)`: `Ok(data)` means `send(data)` was called with exactly `data`; otherwise
      the throw of `validate` reaches the resolver before `send`. */
  function Emit(output: Option<Schema>, data: Value): (r: Outcome<Value>)
    ensures r.Ok? <==> ProcedureHandler.Passes(output, data)
    ensures r.Ok? ==> r.value == data
    ensures r.IsFailure() ==> r == ThrowClassified(400, ValidateMessage, Details(output.value(data)))
  {
    var _ :- Validate(output, data);
    Ok(data)
  }

  /** `{emit, ...defaultContext, ...applied}`: `emit` comes first, so a default or a middleware
      key named `emit` overrides it. */
  function SubscriptionContext(a: Chain, defaultContext: Context): Outcome<Context> {
    var applied :- Fold(a.middlewares, a.context + defaultContext);
    Ok(map["emit" := EmitFunction] + defaultContext + applied)
  }

  /** The `try` block of `subscribe`: the resolver's result is the teardown. */
  function StartSubscription(a: Chain, cfg: HandlerConfig, data: Value, defaultContext: Context): Outcome<Value> {
    var context :- SubscriptionContext(a, defaultContext);
    var _ :- Validate(cfg.input, data);
    var _ :- Validate(cfg.params, Lookup(context, "params"));
    cfg.resolve(ResolverContext(context, data))
  }

  /** `subscribe(data, defaultContext, send)`: what the promise resolves to. Every exception
      is caught and turned into `undefined`. */
  function Subscribe(a: Chain, cfg: HandlerConfig, data: Value, defaultContext: Context): Value {
    match StartSubscription(a, cfg, data, defaultContext)
    case Ok(teardown) => teardown
    case _ => Undefined
  }

  /** The subscription context always holds `emit`; it is the emit function unless the
      defaults or the middlewares supplied their own. */
  lemma EmitInContext(a: Chain, d: Context)
    requires SubscriptionContext(a, d).Ok?
    ensures "emit" in SubscriptionContext(a, d).value
    ensures "emit" !in d && "emit" !in Fold(a.middlewares, a.context + d).value ==>
      SubscriptionContext(a, d).value["emit"] == EmitFunction
  {
  }

  /** Any failure while starting (middleware, validation, resolver) is swallowed: the caller
      gets `undefined`, the same value as a resolver that returned no teardown. */
  lemma FailureIsSilent(a: Chain, cfg: HandlerConfig, data: Value, d: Context)
    requires StartSubscription(a, cfg, data, d).IsFailure()
    ensures Subscribe(a, cfg, data, d) == Undefined
  {
  }

  /** On success `subscribe` returns exactly what the resolver returned. */
  lemma SubscribeReturnsTeardown(a: Chain, cfg: HandlerConfig, data: Value, d: Context, teardown: Value)
    requires SubscriptionContext(a, d).Ok?
    requires ProcedureHandler.Passes(cfg.input, data)
    requires ProcedureHandler.Passes(cfg.params, Lookup(SubscriptionContext(a, d).value, "params"))
    requires cfg.resolve(ResolverContext(SubscriptionContext(a, d).value, data)) == Ok(teardown)
    ensures Subscribe(a, cfg, data, d) == teardown
  {
  }

  /** An input the schema rejects never reaches the resolver and leaves no trace. */
  lemma InvalidInputNeverStarts(a: Chain, cfg: HandlerConfig, data: Value, d: Context, otherResolve: Resolver)
    requires cfg.input.Some? && cfg.input.value(data) != []
    ensures Subscribe(a, cfg, data, d) == Undefined
    ensures Subscribe(a, cfg.(resolve := otherResolve), data, d) == Undefined
  {
  }
}
