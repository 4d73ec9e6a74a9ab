/** The CORS response headers both HTTP adapters write from `CORSOptions` (the response side of
    the CORS protocol, section 3.2 of the WHATWG Fetch Standard). */
module Cors {
  import opened Js

  /** `CORSOptions`; `None` for a property left out. */
  datatype CorsOptions = CorsOptions(
    origin: Option<string>,
    methods: Option<string>,
    allowedHeaders: Option<string>,
    exposedHeaders: Option<string>,
    credentials: Option<bool>,
    maxAge: Option<int>)

  /** `cors = {}`, the adapters' default. */
  const NoCors := CorsOptions(None, None, None, None, None, None)

  /** The response headers the adapters write. */
  datatype HeaderName =
    | AllowOrigin
    | AllowMethods
    | AllowHeaders
    | ExposeHeaders
    | AllowCredentials
    | MaxAge
    | ContentType
    | SetCookie

  function HeaderText(h: HeaderName): string {
    match h
    case AllowOrigin => "Access-Control-Allow-Origin"
    case AllowMethods => "Access-Control-Allow-Methods"
    case AllowHeaders => "Access-Control-Allow-Headers"
    case ExposeHeaders => "Access-Control-Expose-Headers"
    case AllowCredentials => "Access-Control-Allow-Credentials"
    case MaxAge => "Access-Control-Max-Age"
    case ContentType => "Content-Type"
    case SetCookie => "Set-Cookie"
  }

  type Header = (HeaderName, string)

  // Truthiness of each option type.
  predicate TruthyText(o: Option<string>) { o.Some? && o.value != "" }
  predicate TruthyFlag(o: Option<bool>) { o.Some? && o.value }
  predicate TruthyCount(o: Option<int>) { o.Some? && o.value != 0 }

  /** The header value a text option calls for: the text itself when it is truthy. */
  function TextValue(o: Option<string>): (r: Option<string>)
    ensures r.Some? <==> TruthyText(o)
    ensures r.Some? ==> r.value == o.value
  {
    if TruthyText(o) then Some(o.value) else None
  }

  /** `credentials` is written as "true" when it is truthy. */
  function FlagValue(o: Option<bool>): (r: Option<string>)
    ensures r.Some? <==> TruthyFlag(o)
    ensures r.Some? ==> r.value == "true"
  {
    if TruthyFlag(o) then Some("true") else None
  }

  /** `maxAge` is written as its decimal text when it is truthy (0 is not). */
  function CountValue(o: Option<int>): (r: Option<string>)
    ensures r.Some? <==> TruthyCount(o)
    ensures r.Some? ==> r.value == IntToString(o.value)
  {
    if TruthyCount(o) then Some(IntToString(o.value)) else None
  }

  /** One `cors.x && headers.set(name, ...)` line: a header exactly when there is a value. */
  function Optional(name: HeaderName, value: Option<string>): seq<Header> {
    if value.Some? then [(name, value.value)] else []
  }

  /** The headers written by the six `cors.x && headers.set(...)` lines, in order. */
  function CorsHeaders(c: CorsOptions): seq<Header> {
    Optional(AllowOrigin, TextValue(c.origin))
    + Optional(AllowMethods, TextValue(c.methods))
    + Optional(AllowHeaders, TextValue(c.allowedHeaders))
    + Optional(ExposeHeaders, TextValue(c.exposedHeaders))
    + Optional(AllowCredentials, FlagValue(c.credentials))
    + Optional(MaxAge, CountValue(c.maxAge))
  }

  /** The value of the first header called `name`. */
  function Find(headers: seq<Header>, name: HeaderName): Option<string> {
    if headers == [] then None
    else if headers[0].0 == name then Some(headers[0].1)
    else Find(headers[1..], name)
  }

  lemma {:induction false} FindAppend(xs: seq<Header>, ys: seq<Header>, name: HeaderName)
    ensures Find(xs + ys, name) == if Find(xs, name).Some? then Find(xs, name) else Find(ys, name)
    decreases |xs|
  {
    if xs == [] {
      assert xs + ys == ys;
    } else {
      assert (xs + ys)[1..] == xs[1..] + ys;
      FindAppend(xs[1..], ys, name);
    }
  }

  predicate DistinctNames(headers: seq<Header>) {
    forall i, j :: 0 <= i < j < |headers| ==> headers[i].0 != headers[j].0
  }

  /** Each header is present exactly when its option is truthy, with the option's value;
      credentials are written as "true" and the max age as its decimal text. The origin, the
      methods and the header lists are passed through unchanged. */
  lemma CorsHeaderValues(c: CorsOptions)
    ensures Find(CorsHeaders(c), AllowOrigin) == if TruthyText(c.origin) then Some(c.origin.value) else None
    ensures Find(CorsHeaders(c), AllowMethods) == if TruthyText(c.methods) then Some(c.methods.value) else None
    ensures Find(CorsHeaders(c), AllowHeaders) == if TruthyText(c.allowedHeaders) then Some(c.allowedHeaders.value) else None
    ensures Find(CorsHeaders(c), ExposeHeaders) == if TruthyText(c.exposedHeaders) then Some(c.exposedHeaders.value) else None
    ensures Find(CorsHeaders(c), AllowCredentials) == if TruthyFlag(c.credentials) then Some("true") else None
    ensures Find(CorsHeaders(c), MaxAge) == if TruthyCount(c.maxAge) then Some(IntToString(c.maxAge.value)) else None
  {
    FindCors(c, AllowOrigin);
    FindCors(c, AllowMethods);
    FindCors(c, AllowHeaders);
    FindCors(c, ExposeHeaders);
    FindCors(c, AllowCredentials);
    FindCors(c, MaxAge);
  }

  /** The header `name` as the options call for it. */
  function Expected(c: CorsOptions, name: HeaderName): Option<string> {
    match name
    case AllowOrigin => TextValue(c.origin)
    case AllowMethods => TextValue(c.methods)
    case AllowHeaders => TextValue(c.allowedHeaders)
    case ExposeHeaders => TextValue(c.exposedHeaders)
    case AllowCredentials => FlagValue(c.credentials)
    case MaxAge => CountValue(c.maxAge)
    case ContentType => None
    case SetCookie => None
  }

  /** Looking a name up in the CORS headers finds what the options call for. */
  lemma FindCors(c: CorsOptions, name: HeaderName)
    ensures Find(CorsHeaders(c), name) == Expected(c, name)
  {
    FindSix(TextValue(c.origin), TextValue(c.methods), TextValue(c.allowedHeaders),
            TextValue(c.exposedHeaders), FlagValue(c.credentials), CountValue(c.maxAge), name);
  }

  /** The six optional writes, whatever their values. */
  function SixWrites(o1: Option<string>, o2: Option<string>, o3: Option<string>,
                     o4: Option<string>, o5: Option<string>, o6: Option<string>): seq<Header> {
    Optional(AllowOrigin, o1) + Optional(AllowMethods, o2) + Optional(AllowHeaders, o3)
    + Optional(ExposeHeaders, o4) + Optional(AllowCredentials, o5) + Optional(MaxAge, o6)
  }

  lemma FindOptional(name: HeaderName, value: Option<string>, n: HeaderName)
    ensures Find(Optional(name, value), n) == if n == name then value else None
  {
    if value.Some? {
      assert Optional(name, value)[1..] == [];
    }
  }

  /** A name is found at the one write that carries it, whichever of the writes happened. */
  lemma FindSix(o1: Option<string>, o2: Option<string>, o3: Option<string>,
                o4: Option<string>, o5: Option<string>, o6: Option<string>, name: HeaderName)
    ensures Find(SixWrites(o1, o2, o3, o4, o5, o6), name)
      == match name
         case AllowOrigin => o1
         case AllowMethods => o2
         case AllowHeaders => o3
         case ExposeHeaders => o4
         case AllowCredentials => o5
         case MaxAge => o6
         case _ => None
  {
    var a1 := Optional(AllowOrigin, o1);
    var a2 := a1 + Optional(AllowMethods, o2);
    var a3 := a2 + Optional(AllowHeaders, o3);
    var a4 := a3 + Optional(ExposeHeaders, o4);
    var a5 := a4 + Optional(AllowCredentials, o5);
    FindOptional(AllowOrigin, o1, name);
    FindOptional(AllowMethods, o2, name);
    FindOptional(AllowHeaders, o3, name);
    FindOptional(ExposeHeaders, o4, name);
    FindOptional(AllowCredentials, o5, name);
    FindOptional(MaxAge, o6, name);
    FindAppend(a1, Optional(AllowMethods, o2), name);
    FindAppend(a2, Optional(AllowHeaders, o3), name);
    FindAppend(a3, Optional(ExposeHeaders, o4), name);
    FindAppend(a4, Optional(AllowCredentials, o5), name);
    FindAppend(a5, Optional(MaxAge, o6), name);
  }

  /** No header is written twice, and with no options none is written at all. */
  lemma CorsHeadersDistinct(c: CorsOptions)
    ensures DistinctNames(CorsHeaders(c))
    ensures CorsHeaders(NoCors) == []
  {
    SixWritesDistinct(TextValue(c.origin), TextValue(c.methods), TextValue(c.allowedHeaders),
                      TextValue(c.exposedHeaders), FlagValue(c.credentials), CountValue(c.maxAge));
  }

  /** The six optional writes, whatever their values, name distinct headers. */
  lemma SixWritesDistinct(o1: Option<string>, o2: Option<string>, o3: Option<string>,
                          o4: Option<string>, o5: Option<string>, o6: Option<string>)
    ensures DistinctNames(SixWrites(o1, o2, o3, o4, o5, o6))
  {
    var hs: seq<Header> := [];
    PushOptional(hs, AllowOrigin, o1);
    hs := hs + Optional(AllowOrigin, o1);
    PushOptional(hs, AllowMethods, o2);
    hs := hs + Optional(AllowMethods, o2);
    PushOptional(hs, AllowHeaders, o3);
    hs := hs + Optional(AllowHeaders, o3);
    PushOptional(hs, ExposeHeaders, o4);
    hs := hs + Optional(ExposeHeaders, o4);
    PushOptional(hs, AllowCredentials, o5);
    hs := hs + Optional(AllowCredentials, o5);
    PushOptional(hs, MaxAge, o6);
    assert [] + Optional(AllowOrigin, o1) == Optional(AllowOrigin, o1);
  }

  /** The position of each header among the writes. */
  function Rank(h: HeaderName): nat {
    match h
    case AllowOrigin => 0
    case AllowMethods => 1
    case AllowHeaders => 2
    case ExposeHeaders => 3
    case AllowCredentials => 4
    case MaxAge => 5
    case ContentType => 6
    case SetCookie => 7
  }

  predicate RanksBelow(hs: seq<Header>, n: nat) {
    forall i :: 0 <= i < |hs| ==> Rank(hs[i].0) < n
  }

  /** Writing a header of a higher rank than every earlier one keeps the names distinct. */
  lemma PushOptional(hs: seq<Header>, name: HeaderName, value: Option<string>)
    requires DistinctNames(hs) && RanksBelow(hs, Rank(name))
    ensures DistinctNames(hs + Optional(name, value))
    ensures RanksBelow(hs + Optional(name, value), Rank(name) + 1)
  {
    var r := hs + Optional(name, value);
    forall i, j | 0 <= i < j < |r| ensures r[i].0 != r[j].0 {
      if j == |hs| {
        assert Rank(r[i].0) < Rank(name);
      }
    }
  }

  /** A response's header list, appended to in place. */
  class HeaderList {
    var entries: seq<Header>

    constructor ()
      ensures entries == []
    {
      entries := [];
    }

    method Append(name: HeaderName, value: string)
      modifies this
      ensures entries == old(entries) + [(name, value)]
    {
      entries := entries + [(name, value)];
    }
  }

  /** The six conditional header writes at the top of each HTTP handler. */
  method WriteCorsHeaders(headers: HeaderList, c: CorsOptions)
    modifies headers
    ensures headers.entries == old(headers.entries) + CorsHeaders(c)
  {
    ghost var start := headers.entries;
    ghost var written: seq<Header> := [];
    if TruthyText(c.origin) {
      headers.Append(AllowOrigin, c.origin.value);
    }
    written := Optional(AllowOrigin, TextValue(c.origin));
    assert headers.entries == start + written;
    if TruthyText(c.methods) {
      headers.Append(AllowMethods, c.methods.value);
    }
    AppendAssoc(start, written, Optional(AllowMethods, TextValue(c.methods)));
    written := written + Optional(AllowMethods, TextValue(c.methods));
    if TruthyText(c.allowedHeaders) {
      headers.Append(AllowHeaders, c.allowedHeaders.value);
    }
    AppendAssoc(start, written, Optional(AllowHeaders, TextValue(c.allowedHeaders)));
    written := written + Optional(AllowHeaders, TextValue(c.allowedHeaders));
    if TruthyText(c.exposedHeaders) {
      headers.Append(ExposeHeaders, c.exposedHeaders.value);
    }
    AppendAssoc(start, written, Optional(ExposeHeaders, TextValue(c.exposedHeaders)));
    written := written + Optional(ExposeHeaders, TextValue(c.exposedHeaders));
    if TruthyFlag(c.credentials) {
      headers.Append(AllowCredentials, "true");
    }
    AppendAssoc(start, written, Optional(AllowCredentials, FlagValue(c.credentials)));
    written := written + Optional(AllowCredentials, FlagValue(c.credentials));
    if TruthyCount(c.maxAge) {
      headers.Append(MaxAge, IntToString(c.maxAge.value));
    }
    AppendAssoc(start, written, Optional(MaxAge, CountValue(c.maxAge)));
  }

  /** Appending an optional header after a run of headers. */
  lemma AppendAssoc(start: seq<Header>, written: seq<Header>, piece: seq<Header>)
    requires |piece| <= 1
    ensures start + written + piece == start + (written + piece)
    ensures piece == [] ==> start + written + piece == start + written
  {
  }
}
