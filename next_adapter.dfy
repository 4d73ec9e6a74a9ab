/** `createNextHandler`: the `Response` a Next.js route handler returns. */
module NextAdapter {
  import opened Js
  import opened Pipeline
  import opened GetMatch
  import opened Cors
  import opened Adapters

  /** The parts of a `NextRequest` the handler reads: the method, the url, its parsed pathname,
      and `req.json()` with a rejection caught (`None` for a body that is missing or does not
      parse). */
  datatype NextRequest = NextRequest(httpMethod: string, url: string, pathname: string, body: Option<Value>)

  /** A `Response`: status, the headers it carries in order, and the value serialised as its
      JSON body (`None` for `new Response(null)`). */
  datatype NextReply = NextReply(status: int, headers: seq<Header>, body: Option<Value>)

  /** The header `Response.json` adds itself. */
  const JsonContentType: Header := (ContentType, "application/json")

  /** One `Set-Cookie` header per string, in order. */
  function SetCookieHeaders(cookies: seq<string>): (r: seq<Header>)
    ensures |r| == |cookies|
    ensures forall i :: 0 <= i < |cookies| ==> r[i] == (SetCookie, cookies[i])
  {
    if cookies == [] then [] else SetCookieHeaders(cookies[..|cookies| - 1]) + [(SetCookie, cookies[|cookies| - 1])]
  }

  /** The context of a matched request: the parsed `URL`, the params, the cookie manager, then
      whatever `createContext` returns, which wins on a clash. */
  function BaseContext(url: string, params: map<string, string>): Context {
    map["path" := Native("URL", url), "params" := ParamsValue(params), "cookies" := Native("NextCookieManager", url)]
  }

  /** Everything after the preflight: routing, the handler and the cookies it set.
      `setCookies` is `cookies.getSetCookieHeader()` once the handler has finished
      (`NextCookies.Headers`). */
  function Dispatch<H>(req: NextRequest, prefix: Option<string>, cors: CorsOptions,
                       routes: seq<(string, Route<H>)>, createContext: Outcome<Value>,
                       invoke: Invoke<H>, setCookies: seq<string>): Outcome<NextReply>
  {
    var m :- Matching(routes, RoutingPath(req.pathname, prefix));
    match m.handler
    case None => Ok(NextReply(404, [JsonContentType], Some(Str("Not found"))))
    case Some(h) =>
      var extra :- createContext;
      var context := RequestContext(BaseContext(req.url, m.params), extra);
      var input := if req.body.Some? then req.body.value else Undefined;
      MatchedReply(invoke(h, input, context), cors, setCookies)
  }

  /** What the handler's result becomes: a thrown error propagates; a response is answered
      with its status, its data (`null` when nullish) and the CORS, cookie and JSON headers. */
  function MatchedReply(called: Outcome<Response>, cors: CorsOptions, setCookies: seq<string>): Outcome<NextReply>
  {
    var response :- called;
    Ok(NextReply(response.status, CorsHeaders(cors) + SetCookieHeaders(setCookies) + [JsonContentType],
                 Some(Coalesce(response.data, Null))))
  }

  /** The handler as written: the preflight response is built without the header list the
      CORS options were appended to. */
  function HandleAsWritten<H>(req: NextRequest, prefix: Option<string>, cors: CorsOptions,
                              routes: seq<(string, Route<H>)>, createContext: Outcome<Value>,
                              invoke: Invoke<H>, setCookies: seq<string>): Outcome<NextReply>
  {
    if req.httpMethod == "OPTIONS" then Ok(NextReply(204, [], None))
    else Dispatch(req, prefix, cors, routes, createContext, invoke, setCookies)
  }

  /** The handler with the preflight answered the way the HTTP adapter answers it. */
  function Handle<H>(req: NextRequest, prefix: Option<string>, cors: CorsOptions,
                     routes: seq<(string, Route<H>)>, createContext: Outcome<Value>,
                     invoke: Invoke<H>, setCookies: seq<string>): Outcome<NextReply>
  {
    if req.httpMethod == "OPTIONS" then Ok(NextReply(204, CorsHeaders(cors), None))
    else Dispatch(req, prefix, cors, routes, createContext, invoke, setCookies)
  }

  /** The `for (const cookie of cookies.getSetCookieHeader())` loop. */
  method AppendSetCookies(headers: HeaderList, cookies: seq<string>)
    modifies headers
    ensures headers.entries == old(headers.entries) + SetCookieHeaders(cookies)
  {
    ghost var start := headers.entries;
    var i := 0;
    while i < |cookies|
      invariant 0 <= i <= |cookies|
      invariant headers.entries == start + SetCookieHeaders(cookies[..i])
    {
      headers.Append(SetCookie, cookies[i]);
      assert cookies[..i + 1][..i] == cookies[..i];
      i := i + 1;
    }
    assert cookies[..i] == cookies;
  }

  /** The header list of a handled request, built in the order the handler builds it: the CORS
      headers, then one `Set-Cookie` per cookie the handler set. */
  method BuildHeaders(cors: CorsOptions, cookies: seq<string>) returns (headers: HeaderList)
    ensures fresh(headers)
    ensures headers.entries == CorsHeaders(cors) + SetCookieHeaders(cookies)
  {
    headers := new HeaderList();
    WriteCorsHeaders(headers, cors);
    assert headers.entries == CorsHeaders(cors);
    AppendSetCookies(headers, cookies);
  }

  // ---------------------------------------------------------------------------------------
  // Properties

  /** As written, a preflight answer carries none of the configured CORS headers, even when
      some are configured; the corrected handler carries exactly them. Everything else is
      answered the same by both. */
  lemma PreflightDropsCors<H>(req: NextRequest, prefix: Option<string>, cors: CorsOptions,
                              routes: seq<(string, Route<H>)>, createContext: Outcome<Value>,
                              invoke: Invoke<H>, setCookies: seq<string>)
    ensures req.httpMethod == "OPTIONS" ==>
      && HandleAsWritten(req, prefix, cors, routes, createContext, invoke, setCookies) == Ok(NextReply(204, [], None))
      && Handle(req, prefix, cors, routes, createContext, invoke, setCookies) == Ok(NextReply(204, CorsHeaders(cors), None))
      && (CorsHeaders(cors) != [] ==>
            HandleAsWritten(req, prefix, cors, routes, createContext, invoke, setCookies)
              != Handle(req, prefix, cors, routes, createContext, invoke, setCookies))
    ensures req.httpMethod != "OPTIONS" ==>
      HandleAsWritten(req, prefix, cors, routes, createContext, invoke, setCookies)
        == Handle(req, prefix, cors, routes, createContext, invoke, setCookies)
  {
  }

  /** A concrete configuration: with only an origin configured the preflight needs exactly
      one header, and the handler as written sends none. */
  lemma PreflightWitness<H>(routes: seq<(string, Route<H>)>, invoke: Invoke<H>)
    ensures var cors := NoCors.(origin := Some("https://app.example"));
      var req := NextRequest("OPTIONS", "https://api.example/", "/", None);
      && CorsHeaders(cors) == [(AllowOrigin, "https://app.example")]
      && HandleAsWritten(req, None, cors, routes, Ok(Undefined), invoke, []).value.headers == []
      && Handle(req, None, cors, routes, Ok(Undefined), invoke, []).value.headers == [(AllowOrigin, "https://app.example")]
  {
    var cors := NoCors.(origin := Some("https://app.example"));
    assert CorsHeaders(cors) == [(AllowOrigin, "https://app.example")];
  }

  /** The corrected preflight answer is the HTTP adapter's: 204, the CORS headers, no body. */
  lemma PreflightCarriesCors<H>(req: NextRequest, prefix: Option<string>, cors: CorsOptions,
                                routes: seq<(string, Route<H>)>, createContext: Outcome<Value>,
                                invoke: Invoke<H>, setCookies: seq<string>)
    requires req.httpMethod == "OPTIONS"
    ensures var r := Handle(req, prefix, cors, routes, createContext, invoke, setCookies);
      && r.Ok? && r.value.status == 204 && r.value.body.None?
      && forall name :: Find(r.value.headers, name) == Expected(cors, name)
  {
    forall name ensures Find(CorsHeaders(cors), name) == Expected(cors, name) {
      FindCors(cors, name);
    }
  }

  /** An unmatched path gets the JSON string "Not found" with status 404 and, unlike a matched
      one, none of the CORS headers. */
  lemma UnmatchedIsNotFound<H>(req: NextRequest, prefix: Option<string>, cors: CorsOptions,
                               routes: seq<(string, Route<H>)>, createContext: Outcome<Value>,
                               invoke: Invoke<H>, setCookies: seq<string>)
    requires req.httpMethod != "OPTIONS"
    requires forall j :: 0 <= j < |routes| ==> routes[j].1.regex(RoutingPath(req.pathname, prefix)).None?
    ensures Handle(req, prefix, cors, routes, createContext, invoke, setCookies)
              == Ok(NextReply(404, [JsonContentType], Some(Str("Not found"))))
  {
  }

  /** A matched request: the handler gets the parsed body, or `undefined` when there is none
      or it does not parse; the answer has its status and data (`null` when nullish); the
      headers are the CORS ones, then one `Set-Cookie` per cookie the handler set, in order. */
  lemma DispatchedReply<H>(req: NextRequest, prefix: Option<string>, cors: CorsOptions,
                           routes: seq<(string, Route<H>)>, extra: Value,
                           invoke: Invoke<H>, setCookies: seq<string>)
    requires req.httpMethod != "OPTIONS"
    requires Matching(routes, RoutingPath(req.pathname, prefix)).Ok?
    requires Matching(routes, RoutingPath(req.pathname, prefix)).value.handler.Some?
    ensures var m := Matching(routes, RoutingPath(req.pathname, prefix)).value;
      var context := RequestContext(BaseContext(req.url, m.params), extra);
      var input := if req.body.Some? then req.body.value else Undefined;
      var called := invoke(m.handler.value, input, context);
      var r := Handle(req, prefix, cors, routes, Ok(extra), invoke, setCookies);
      && (called.IsFailure() ==> r.IsFailure())
      && (called.Ok? ==>
            && r.Ok? && r.value.status == called.value.status
            && r.value.body == Some(Coalesce(called.value.data, Null))
            && r.value.headers[..|CorsHeaders(cors)|] == CorsHeaders(cors)
            && (forall i :: 0 <= i < |setCookies| ==>
                  r.value.headers[|CorsHeaders(cors)| + i] == (SetCookie, setCookies[i]))
            && |r.value.headers| == |CorsHeaders(cors)| + |setCookies| + 1)
      && ("path" !in Spread(extra) ==> context["path"] == Native("URL", req.url))
  {
    var m := Matching(routes, RoutingPath(req.pathname, prefix)).value;
    var context := RequestContext(BaseContext(req.url, m.params), extra);
    var input := if req.body.Some? then req.body.value else Undefined;
    HandleMatched(req, prefix, cors, routes, extra, invoke, setCookies);
    MatchedReplyShape(invoke(m.handler.value, input, context), cors, setCookies);
    ContextPath(req.url, m.params, extra);
  }

  /** Past the preflight, a matched request with a handler is answered with what its result
      becomes. */
  lemma HandleMatched<H>(req: NextRequest, prefix: Option<string>, cors: CorsOptions,
                         routes: seq<(string, Route<H>)>, extra: Value,
                         invoke: Invoke<H>, setCookies: seq<string>)
    requires req.httpMethod != "OPTIONS"
    requires Matching(routes, RoutingPath(req.pathname, prefix)).Ok?
    requires Matching(routes, RoutingPath(req.pathname, prefix)).value.handler.Some?
    ensures var m := Matching(routes, RoutingPath(req.pathname, prefix)).value;
      var context := RequestContext(BaseContext(req.url, m.params), extra);
      var input := if req.body.Some? then req.body.value else Undefined;
      Handle(req, prefix, cors, routes, Ok(extra), invoke, setCookies)
        == MatchedReply(invoke(m.handler.value, input, context), cors, setCookies)
  {
  }

  /** A thrown error stays thrown; a response keeps its status and data, and its headers are
      the CORS ones, one `Set-Cookie` per cookie in order, and the JSON content type. */
  lemma MatchedReplyShape(called: Outcome<Response>, cors: CorsOptions, setCookies: seq<string>)
    ensures var r := MatchedReply(called, cors, setCookies);
      && (called.IsFailure() ==> r.IsFailure())
      && (called.Ok? ==>
            && r.Ok? && r.value.status == called.value.status
            && r.value.body == Some(Coalesce(called.value.data, Null))
            && r.value.headers[..|CorsHeaders(cors)|] == CorsHeaders(cors)
            && (forall i :: 0 <= i < |setCookies| ==>
                  r.value.headers[|CorsHeaders(cors)| + i] == (SetCookie, setCookies[i]))
            && |r.value.headers| == |CorsHeaders(cors)| + |setCookies| + 1)
  {
    ReplyHeaderLayout(CorsHeaders(cors), setCookies);
  }

  /** The handler's context has the request's `URL` under "path" unless `createContext`
      returned its own. */
  lemma ContextPath(url: string, params: map<string, string>, extra: Value)
    ensures "path" !in Spread(extra) ==> RequestContext(BaseContext(url, params), extra)["path"] == Native("URL", url)
  {
  }

  /** A matched reply's headers: the given leading ones, then one `Set-Cookie` per cookie in
      order, then the JSON content type. */
  lemma ReplyHeaderLayout(cs: seq<Header>, setCookies: seq<string>)
    ensures var hs := cs + SetCookieHeaders(setCookies) + [JsonContentType];
      && hs[..|cs|] == cs
      && (forall i :: 0 <= i < |setCookies| ==> hs[|cs| + i] == (SetCookie, setCookies[i]))
      && |hs| == |cs| + |setCookies| + 1
  {
    var hs := cs + SetCookieHeaders(setCookies) + [JsonContentType];
    assert hs[..|cs|] == cs;
    forall i | 0 <= i < |setCookies| ensures hs[|cs| + i] == (SetCookie, setCookies[i]) {
      assert hs[|cs| + i] == SetCookieHeaders(setCookies)[i];
    }
  }
}
