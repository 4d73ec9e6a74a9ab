/** What `Procedure` and `Aetheris` share: the middleware chain, the context fold, schema
    checks and the mapping of an outcome to a `{status, data}` response. */
module Pipeline {
  import opened Js

  type Context = map<string, Value>

  /** A middleware or a resolver: the context in, a completion out (awaits are settled). */
  type Middleware = Context -> Outcome<Value>
  type Resolver = Context -> Outcome<Value>

  /** A schema seen only through `safeParse`: the issues it reports, success when empty. */
  datatype Issue = Issue(path: seq<Value>, message: string)
  type Schema = Value -> seq<Issue>

  /** The `{status, data}` a handler resolves to. */
  datatype Response = Response(status: int, data: Value)

  /** The two fields of a `Procedure` or an `Aetheris` builder: a base context and the
      middlewares accumulated by `use`. Builders are never mutated, so this is a value. */
  datatype Chain = Chain(context: Context, middlewares: seq<Middleware>)

  const EmptyObject: Value := Obj(map[])

  /** The wrapper `use` puts around `createContext`: `createContext(context) ?? {}`. */
  function OrEmpty(o: Outcome<Value>): (r: Outcome<Value>)
    ensures o.Ok? && Nullish(o.value) ==> r == Ok(EmptyObject)
    ensures o.Ok? && !Nullish(o.value) ==> r == o
    ensures o.IsFailure() ==> r == o
  {
    match o
    case Ok(v) => Ok(Coalesce(v, EmptyObject))
    case _ => o
  }

  /** `use`: a new builder whose list is the old one with the wrapped middleware appended;
      the receiver, being a value, is unchanged. */
  function Use(c: Chain, createContext: Middleware): (r: Chain)
    ensures r.context == c.context
    ensures |r.middlewares| == |c.middlewares| + 1
    ensures r.middlewares[..|c.middlewares|] == c.middlewares
    ensures forall ctx :: r.middlewares[|c.middlewares|](ctx) == OrEmpty(createContext(ctx))
  {
    Chain(c.context, c.middlewares + [(ctx: Context) => OrEmpty(createContext(ctx))])
  }

  /** The specification of `applyMiddlewares`: each middleware sees the context accumulated
      so far and its result is merged into it; the first throw ends the fold. */
  function Fold(mws: seq<Middleware>, ctx: Context): Outcome<Context>
    decreases |mws|
  {
    if mws == [] then Ok(ctx)
    else
      var partial :- mws[0](ctx);
      Fold(mws[1..], Merge(ctx, partial))
  }

  /** `applyMiddlewares`: the `for ... of` loop that reassigns `accumulatedContext`. */
  method ApplyMiddlewares(c: Chain, context: Context) returns (r: Outcome<Context>)
    ensures r == Fold(c.middlewares, context)
  {
    var accumulated := context;
    var i := 0;
    while i < |c.middlewares|
      invariant 0 <= i <= |c.middlewares|
      invariant Fold(c.middlewares, context) == Fold(c.middlewares[i..], accumulated)
    {
      assert c.middlewares[i..][1..] == c.middlewares[i + 1..];
      var partial := c.middlewares[i](accumulated);
      if partial.IsFailure() {
        return partial.PropagateFailure();
      }
      accumulated := Merge(accumulated, partial.value);
      i := i + 1;
    }
    return Ok(accumulated);
  }

  /** Folding a concatenation is folding the first part, then the second from where the
      first left off: middlewares run strictly in list order, and a throw stops the rest. */
  lemma {:induction false} FoldAppend(a: seq<Middleware>, b: seq<Middleware>, ctx: Context)
    ensures Fold(a + b, ctx) ==
      match Fold(a, ctx)
      case Ok(mid) => Fold(b, mid)
      case ThrowClassified(s, m, d) => ThrowClassified(s, m, d)
      case ThrowOther(e) => ThrowOther(e)
    decreases |a|
  {
    if a == [] {
      assert a + b == b;
    } else {
      assert (a + b)[0] == a[0];
      assert (a + b)[1..] == a[1..] + b;
      match a[0](ctx)
      case Ok(v) => FoldAppend(a[1..], b, Merge(ctx, v));
      case _ =>
    }
  }

  /** After `use(f)`, the fold is the old fold followed by one right-biased merge of `f`'s
      result, where a nullish result contributes nothing. */
  lemma FoldAfterUse(c: Chain, f: Middleware, ctx: Context)
    ensures Fold(Use(c, f).middlewares, ctx) ==
      match Fold(c.middlewares, ctx)
      case Ok(mid) => (
        match f(mid)
        case Ok(v) => Ok(if Nullish(v) then mid else Merge(mid, v))
        case ThrowClassified(s, m, d) => ThrowClassified(s, m, d)
        case ThrowOther(e) => ThrowOther(e))
      case ThrowClassified(s, m, d) => ThrowClassified(s, m, d)
      case ThrowOther(e) => ThrowOther(e)
  {
    var u := Use(c, f).middlewares;
    assert u == c.middlewares + [u[|c.middlewares|]];
    FoldAppend(c.middlewares, [u[|c.middlewares|]], ctx);
    if Fold(c.middlewares, ctx).Ok? {
      var mid := Fold(c.middlewares, ctx).value;
      var w := u[|c.middlewares|];
      assert w(mid) == OrEmpty(f(mid));
      assert [w][1..] == [];
      if f(mid).Ok? {
        var v := f(mid).value;
        assert Fold([w], mid) == Fold([], Merge(mid, Coalesce(v, EmptyObject)));
        if Nullish(v) {
          assert Merge(mid, EmptyObject) == mid;
        }
      }
    }
  }

  /** Middlewares only add or override keys: nothing present before the fold is lost. */
  lemma {:induction false} FoldKeepsKeys(mws: seq<Middleware>, ctx: Context)
    ensures Fold(mws, ctx).Ok? ==> ctx.Keys <= Fold(mws, ctx).value.Keys
    decreases |mws|
  {
    if mws != [] && mws[0](ctx).Ok? {
      FoldKeepsKeys(mws[1..], Merge(ctx, mws[0](ctx).value));
    }
  }

  /** The context a handler builds: `{...defaultContext, ...(await applyMiddlewares({...this.context,
      ...defaultContext}))}`. */
  function HandlerContext(c: Chain, defaultContext: Context): Outcome<Context> {
    var applied :- Fold(c.middlewares, c.context + defaultContext);
    Ok(defaultContext + applied)
  }

  /** The outer spread of `defaultContext` changes nothing: the fold already contains it. */
  lemma HandlerContextIsFold(c: Chain, defaultContext: Context)
    ensures HandlerContext(c, defaultContext) == Fold(c.middlewares, c.context + defaultContext)
  {
    FoldKeepsKeys(c.middlewares, c.context + defaultContext);
    match Fold(c.middlewares, c.context + defaultContext)
    case Ok(applied) =>
      assert defaultContext + applied == applied;
    case _ =>
  }

  /** What the resolver receives: `{...context, input: data}`. */
  function ResolverContext(context: Context, data: Value): (r: Context)
    ensures r.Keys == context.Keys + {"input"}
    ensures r["input"] == data
    ensures forall k :: k in context && k != "input" ==> r[k] == context[k]
  {
    context["input" := data]
  }

  /** The `errorDetails` array: one `{path, message}` object per issue, in order. */
  function Details(issues: seq<Issue>): (r: Value)
    ensures r.Arr? && |r.items| == |issues|
    ensures forall k :: 0 <= k < |issues| ==>
      r.items[k] == Obj(map["path" := Arr(issues[k].path), "message" := Str(issues[k].message)])
  {
    if issues == [] then Arr([])
    else
      var rest := Details(issues[1..]);
      Arr([Obj(map["path" := Arr(issues[0].path), "message" := Str(issues[0].message)])] + rest.items)
  }

  /** A present schema that reports issues throws an `AetherisError` with the given status and
      message and the issue details; an absent schema, or no issue, passes. */
  function Check(schema: Option<Schema>, v: Value, status: int, message: string): (r: Outcome<()>)
    ensures r.Ok? <==> (schema.None? || schema.value(v) == [])
    ensures r.IsFailure() ==> r == ThrowClassified(status, message, Details(schema.value(v)))
  {
    if schema.Some? && schema.value(v) != [] then
      ThrowClassified(status, message, Details(schema.value(v)))
    else Ok(())
  }

  /** The `catch` block shared by both handlers: an `AetherisError` keeps its status and
      exposes `{message, details}`; anything else becomes 500 with only `{message}`. */
  function ToResponse(o: Outcome<Value>): (r: Response)
    ensures o.Ok? ==> r == Response(200, o.value)
    ensures o.ThrowClassified? ==>
      r == Response(o.status, Obj(map["message" := Str(o.message), "details" := o.data]))
    ensures o.ThrowOther? ==> r == Response(500, Obj(map["message" := o.errorMessage]))
  {
    match o
    case Ok(v) => Response(200, v)
    case ThrowClassified(s, m, d) => Response(s, Obj(map["message" := Str(m), "details" := d]))
    case ThrowOther(e) => Response(500, Obj(map["message" := e]))
  }
}
