/** `createHTTPHandler`: the response a Node `http` request gets. */
module HttpAdapter {
  import opened Js
  import opened Pipeline
  import opened GetMatch
  import opened Cors
  import opened Adapters

  /** The parts of an `IncomingMessage` the handler reads; `body` is the whole streamed body. */
  datatype HttpRequest = HttpRequest(httpMethod: string, url: string, body: string)

  /** What is written to the `ServerResponse`: status, headers in the order they were set, and
      the argument of `res.end` (`None` when nothing is written). The `Set-Cookie` header the
      cookie manager writes during the handler is modelled by `HttpCookies`. */
  datatype HttpReply = HttpReply(status: int, headers: seq<Header>, body: Option<string>)

  /** `JSON.parse`, which throws on malformed text, and `JSON.stringify`, which gives
      `undefined` for some values. */
  type Parse = string -> Outcome<Value>
  type Stringify = Value -> Option<string>

  /** `body ? JSON.parse(body) : void 0`. */
  function Input(body: string, parse: Parse): (r: Outcome<Value>)
    ensures body == "" ==> r == Ok(Undefined)
    ensures body != "" ==> r == parse(body)
  {
    if body != "" then parse(body) else Ok(Undefined)
  }

  /** The context of a matched request: the unstripped url, the params, the cookie manager,
      then whatever `createContext` returns, which wins on a clash. */
  function BaseContext(url: string, params: map<string, string>): Context {
    map["path" := Str(url), "params" := ParamsValue(params), "cookies" := Native("HttpCookieManager", url)]
  }

  /** The handler for one request. A throw (from `getMatch`, `createContext`, `JSON.parse` or
      the handler) rejects the handler's promise and no response is written. */
  function Handle<H>(req: HttpRequest, prefix: Option<string>, cors: CorsOptions,
                     routes: seq<(string, Route<H>)>, createContext: Outcome<Value>,
                     invoke: Invoke<H>, parse: Parse, stringify: Stringify): Outcome<HttpReply>
  {
    var headers := CorsHeaders(cors);
    if req.httpMethod == "OPTIONS" then Ok(HttpReply(204, headers, None))
    else
      var m :- Matching(routes, RoutingPath(req.url, prefix));
      match m.handler
      case None => Ok(HttpReply(404, headers, Some("Not found")))
      case Some(h) =>
        var extra :- createContext;
        var context := RequestContext(BaseContext(req.url, m.params), extra);
        var input :- Input(req.body, parse);
        var response :- invoke(h, input, context);
        Ok(HttpReply(response.status, headers + [(ContentType, "application/json")],
                     stringify(Coalesce(response.data, Null))))
  }

  // ---------------------------------------------------------------------------------------
  // Properties

  /** A preflight is answered 204 with the CORS headers and an empty body, whatever the
      routes, the context and the handlers are: nothing is routed and nothing is called. */
  lemma OptionsShortCircuits<H>(req: HttpRequest, prefix: Option<string>, cors: CorsOptions,
                                routes: seq<(string, Route<H>)>, createContext: Outcome<Value>,
                                invoke: Invoke<H>, parse: Parse, stringify: Stringify)
    requires req.httpMethod == "OPTIONS"
    ensures Handle(req, prefix, cors, routes, createContext, invoke, parse, stringify)
              == Ok(HttpReply(204, CorsHeaders(cors), None))
  {
  }

  /** A path no route matches gets 404 "Not found", with the CORS headers already set. */
  lemma UnmatchedIsNotFound<H>(req: HttpRequest, prefix: Option<string>, cors: CorsOptions,
                               routes: seq<(string, Route<H>)>, createContext: Outcome<Value>,
                               invoke: Invoke<H>, parse: Parse, stringify: Stringify)
    requires req.httpMethod != "OPTIONS"
    requires forall j :: 0 <= j < |routes| ==> routes[j].1.regex(RoutingPath(req.url, prefix)).None?
    ensures Handle(req, prefix, cors, routes, createContext, invoke, parse, stringify)
              == Ok(HttpReply(404, CorsHeaders(cors), Some("Not found")))
  {
  }

  /** A matched request is answered with the handler's status and the JSON of its data, `null`
      for nullish data. The handler is the first matching route's, it is called with the
      parsed body (`undefined` for an empty one), and its context carries the url before the
      prefix was stripped. */
  lemma DispatchedReply<H>(req: HttpRequest, prefix: Option<string>, cors: CorsOptions,
                           routes: seq<(string, Route<H>)>, extra: Value,
                           invoke: Invoke<H>, parse: Parse, stringify: Stringify)
    requires req.httpMethod != "OPTIONS"
    requires Matching(routes, RoutingPath(req.url, prefix)).Ok?
    requires Matching(routes, RoutingPath(req.url, prefix)).value.handler.Some?
    requires Input(req.body, parse).Ok?
    ensures var m := Matching(routes, RoutingPath(req.url, prefix)).value;
      var context := RequestContext(BaseContext(req.url, m.params), extra);
      var called := invoke(m.handler.value, Input(req.body, parse).value, context);
      && m.handler.value == routes[FirstMatching(routes, RoutingPath(req.url, prefix)).value].1.handler
      && (called.Ok? ==>
            Handle(req, prefix, cors, routes, Ok(extra), invoke, parse, stringify)
              == Ok(HttpReply(called.value.status, CorsHeaders(cors) + [(ContentType, "application/json")],
                              stringify(Coalesce(called.value.data, Null)))))
      && (called.IsFailure() ==> Handle(req, prefix, cors, routes, Ok(extra), invoke, parse, stringify).IsFailure())
      && ("path" !in Spread(extra) ==> context["path"] == Str(req.url))
      && ("params" !in Spread(extra) ==> context["params"] == ParamsValue(m.params))
  {
  }

  /** The headers of a dispatched response: each CORS header as its option calls for it, and
      the JSON content type. */
  lemma DispatchedHeaders(cors: CorsOptions, name: HeaderName)
    ensures var headers := CorsHeaders(cors) + [(ContentType, "application/json")];
      Find(headers, name) == if name == ContentType then Some("application/json") else Expected(cors, name)
  {
    FindCors(cors, name);
    FindAppend(CorsHeaders(cors), [(ContentType, "application/json")], name);
  }

  /** A body that does not parse rejects the request: no response is written. */
  lemma MalformedBodyRejects<H>(req: HttpRequest, prefix: Option<string>, cors: CorsOptions,
                                routes: seq<(string, Route<H>)>, extra: Value,
                                invoke: Invoke<H>, parse: Parse, stringify: Stringify)
    requires req.httpMethod != "OPTIONS" && req.body != "" && parse(req.body).IsFailure()
    requires Matching(routes, RoutingPath(req.url, prefix)).Ok?
    requires Matching(routes, RoutingPath(req.url, prefix)).value.handler.Some?
    ensures Handle(req, prefix, cors, routes, Ok(extra), invoke, parse, stringify).IsFailure()
  {
  }
}
