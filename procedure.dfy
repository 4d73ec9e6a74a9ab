/** `Procedure.handler`: context, input check, params check, resolver, output check, and the
    mapping of every completion to `{status, data}`. An output mismatch is a server error. */
module ProcedureHandler {
  import opened Js
  import opened Pipeline

  datatype HandlerConfig = HandlerConfig(
    input: Option<Schema>,
    output: Option<Schema>,
    params: Option<Schema>,
    resolve: Resolver)

  const InputMessage := "Error validating input"
  const ParamsMessage := "Error validating params"
  const OutputMessage := "Error validating output"

  /** The body of the `try` block; a throw anywhere ends it. */
  function Run(p: Chain, cfg: HandlerConfig, data: Value, defaultContext: Context): Outcome<Value> {
    var context :- HandlerContext(p, defaultContext);
    var _ :- Check(cfg.input, data, 400, InputMessage);
    var _ :- Check(cfg.params, Lookup(context, "params"), 400, ParamsMessage);
    var response :- cfg.resolve(ResolverContext(context, data));
    var _ :- Check(cfg.output, response, 500, OutputMessage);
    Ok(response)
  }

  /** The handler `Procedure.handler(config)` returns, applied to `data` and `defaultContext`. */
  function Handle(p: Chain, cfg: HandlerConfig, data: Value, defaultContext: Context): Response {
    ToResponse(Run(p, cfg, data, defaultContext))
  }

  predicate Passes(schema: Option<Schema>, v: Value) {
    schema.None? || schema.value(v) == []
  }

  /** A middleware throw keeps its own status (an `AetherisError`) or becomes 500, and nothing
      after the middleware runs. */
  lemma MiddlewareThrowIsReported(p: Chain, cfg: HandlerConfig, data: Value, d: Context)
    requires Fold(p.middlewares, p.context + d).IsFailure()
    ensures Handle(p, cfg, data, d) == ToResponse(Fold(p.middlewares, p.context + d).PropagateFailure())
  {
    HandlerContextIsFold(p, d);
  }

  /** An input the schema rejects gives 400 with one detail per issue, whatever the params schema
      and the resolver are: neither is consulted. */
  lemma InputRejected(p: Chain, cfg: HandlerConfig, data: Value, d: Context,
                      otherParams: Option<Schema>, otherResolve: Resolver)
    requires HandlerContext(p, d).Ok?
    requires cfg.input.Some? && cfg.input.value(data) != []
    ensures Handle(p, cfg, data, d) ==
      Response(400, Obj(map["message" := Str(InputMessage), "details" := Details(cfg.input.value(data))]))
    ensures Handle(p, cfg.(params := otherParams, resolve := otherResolve), data, d) == Handle(p, cfg, data, d)
  {
  }

  /** Params are checked only once the input passes; a rejection gives 400 "Error validating
      params" and the resolver is not consulted. */
  lemma ParamsRejected(p: Chain, cfg: HandlerConfig, data: Value, d: Context, otherResolve: Resolver)
    requires HandlerContext(p, d).Ok?
    requires Passes(cfg.input, data)
    requires var ps := Lookup(HandlerContext(p, d).value, "params");
      cfg.params.Some? && cfg.params.value(ps) != []
    ensures var ps := Lookup(HandlerContext(p, d).value, "params");
      Handle(p, cfg, data, d) ==
        Response(400, Obj(map["message" := Str(ParamsMessage), "details" := Details(cfg.params.value(ps))]))
    ensures Handle(p, cfg.(resolve := otherResolve), data, d) == Handle(p, cfg, data, d)
  {
  }

  /** Once both checks pass, the outcome is decided by the resolver, called with the merged
      context whose `input` is the raw data, and by the output check, which fails with 500. */
  lemma AfterChecks(p: Chain, cfg: HandlerConfig, data: Value, d: Context)
    requires HandlerContext(p, d).Ok?
    requires Passes(cfg.input, data)
    requires Passes(cfg.params, Lookup(HandlerContext(p, d).value, "params"))
    ensures var ctx := HandlerContext(p, d).value;
      var result := cfg.resolve(ResolverContext(ctx, data));
      Handle(p, cfg, data, d) ==
        if result.IsFailure() then ToResponse(result)
        else if !Passes(cfg.output, result.value) then
          Response(500, Obj(map["message" := Str(OutputMessage),
                                "details" := Details(cfg.output.value(result.value))]))
        else Response(200, result.value)
  {
  }

  /** With no schemas and middlewares that do not throw, a resolver returning `v` yields
      `{status: 200, data: v}` unchanged. */
  lemma NoSchemasRoundTrip(p: Chain, resolve: Resolver, data: Value, d: Context, v: Value)
    requires Fold(p.middlewares, p.context + d).Ok?
    requires resolve(ResolverContext(Fold(p.middlewares, p.context + d).value, data)) == Ok(v)
    ensures Handle(p, HandlerConfig(None, None, None, resolve), data, d) == Response(200, v)
  {
    HandlerContextIsFold(p, d);
  }

  /** A 400 without a classified throw from middleware or resolver means that the input or
      the params schema rejected: an input that passes both never yields 400 otherwise. */
  lemma ValidInputNever400(p: Chain, cfg: HandlerConfig, data: Value, d: Context)
    requires HandlerContext(p, d).Ok?
    requires Passes(cfg.input, data)
    requires Passes(cfg.params, Lookup(HandlerContext(p, d).value, "params"))
    requires var r := cfg.resolve(ResolverContext(HandlerContext(p, d).value, data));
      !(r.ThrowClassified? && r.status == 400)
    ensures Handle(p, cfg, data, d).status != 400
  {
    AfterChecks(p, cfg, data, d);
  }
}
