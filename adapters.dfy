/** What the three server adapters share: the path a request is routed on, the params object
    and the context handed to a matched handler. */
module Adapters {
  import opened Js
  import opened Pipeline

  /** A matched handler applied to its input and context. The handlers `Procedure.handler` and
      `Aetheris.handler` build only throw when a middleware or resolver throws `null` or
      `undefined` (their `catch` then fails reading `.message`), which this model does not
      represent; a router may also hold any other async function, which may throw. */
  type Invoke<!H> = (H, Value, Context) -> Outcome<Response>

  /** `prefix ? path.replace(prefix, "") : path`: only the first occurrence of the prefix is
      removed, wherever it is. */
  function RoutingPath(path: string, prefix: Option<string>): (r: string)
    ensures (prefix.None? || prefix.value == "") ==> r == path
    ensures prefix.Some? && prefix.value != "" && IndexOf(path, prefix.value).None? ==> r == path
    ensures prefix.Some? && prefix.value != "" && IndexOf(path, prefix.value).Some? ==>
      var i := IndexOf(path, prefix.value).value;
      r == path[..i] + path[i + |prefix.value|..]
  {
    if prefix.Some? && prefix.value != "" then ReplaceFirst(path, prefix.value, "") else path
  }

  /** The `params` record of a match. */
  function ParamsValue(params: map<string, string>): (r: Value)
    ensures r.Obj? && r.fields.Keys == params.Keys
    ensures forall k :: k in params ==> r.fields[k] == Str(params[k])
  {
    Obj(map k | k in params :: Str(params[k]))
  }

  /** `{...base, ...(await createContext(...))}`. */
  function RequestContext(base: Context, extra: Value): (r: Context)
    ensures r.Keys == base.Keys + Spread(extra).Keys
    ensures forall k :: k in base && k !in Spread(extra) ==> r[k] == base[k]
    ensures forall k :: k in Spread(extra) ==> r[k] == Spread(extra)[k]
  {
    Merge(base, extra)
  }

  /** Where the path removed is not at the start, the stripped path keeps what came before. */
  lemma PrefixRemovedWherever(path: string, prefix: string, i: nat)
    requires prefix != "" && IndexOf(path, prefix) == Some(i)
    ensures RoutingPath(path, Some(prefix)) == path[..i] + path[i + |prefix|..]
    ensures |RoutingPath(path, Some(prefix))| == |path| - |prefix|
  {
  }
}
