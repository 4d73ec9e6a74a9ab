/** What the two cookie managers share: `CookieOptions`, the `Object.assign` that fills in the
    defaults, and the `Set-Cookie` attributes of section 4.1.1 of RFC 6265 as each manager
    writes them. */
module Cookies {
  import opened Js

  /** An optional property as `Object.assign` sees it: absent, present but `undefined`, or set. */
  datatype Field<T> = Missing | Undef | Given(value: T)

  /** A `Date`, by its time value (milliseconds since the epoch). */
  datatype Date = Date(time: int)

  /** `Date.prototype.toUTCString` and `encodeURIComponent`: parameters of the model. */
  type Utc = Date -> string
  type Encode = string -> string

  datatype Options = Options(
    expires: Field<Date>,
    maxAge: Field<int>,
    domain: Field<string>,
    path: Field<string>,
    secure: Field<bool>,
    httpOnly: Field<bool>,
    sameSite: Field<string>)

  const NoOptions := Options(Missing, Missing, Missing, Missing, Missing, Missing, Missing)

  const Epoch := Date(0)

  /** `Object.assign(target, source)` for one key: every own property of the source is
      copied, an explicit `undefined` included. */
  function Pick<T>(target: Field<T>, source: Field<T>): (r: Field<T>)
    ensures source.Missing? ==> r == target
    ensures !source.Missing? ==> r == source
  {
    if source.Missing? then target else source
  }

  /** `Object.assign({path: "/", httpOnly: true, secure: true, sameSite: "Lax"}, options)`. */
  function WithDefaults(o: Options): Options {
    Options(o.expires, o.maxAge, o.domain,
            Pick(Given("/"), o.path), Pick(Given(true), o.secure),
            Pick(Given(true), o.httpOnly), Pick(Given("Lax"), o.sameSite))
  }

  /** `{...options, expires: new Date(0)}`. */
  function Expiring(o: Options): Options {
    o.(expires := Given(Epoch))
  }

  // Truthiness of each property type (a `Date` object is always truthy).
  predicate TruthyDate(f: Field<Date>) { f.Given? }
  predicate TruthyNumber(f: Field<int>) { f.Given? && f.value != 0 }
  predicate TruthyString(f: Field<string>) { f.Given? && f.value != "" }
  predicate TruthyBool(f: Field<bool>) { f.Given? && f.value }

  /** One `; Name=value` attribute of a `Set-Cookie` string. */
  datatype Attribute =
    | Expires(date: Date)
    | MaxAge(seconds: int)
    | Domain(domain: string)
    | Path(path: string)
    | Secure
    | HttpOnly
    | SameSite(policy: string)

  /** The position of each attribute kind in the order both managers write them. */
  function Rank(a: Attribute): nat {
    match a
    case Expires(_) => 0
    case MaxAge(_) => 1
    case Domain(_) => 2
    case Path(_) => 3
    case Secure => 4
    case HttpOnly => 5
    case SameSite(_) => 6
  }

  /** The text one attribute appends to the cookie string, leading "; " included. */
  function Segment(a: Attribute, utc: Utc): string {
    match a
    case Expires(d) => "; Expires=" + utc(d)
    case MaxAge(n) => "; Max-Age=" + IntToString(n)
    case Domain(d) => "; Domain=" + d
    case Path(p) => "; Path=" + p
    case Secure => "; Secure"
    case HttpOnly => "; HttpOnly"
    case SameSite(p) => "; SameSite=" + p
  }

  /** `head` followed by the segment of each attribute in order. */
  function Render(head: string, attributes: seq<Attribute>, utc: Utc): string
    decreases |attributes|
  {
    if attributes == [] then head
    else Render(head, attributes[..|attributes| - 1], utc) + Segment(attributes[|attributes| - 1], utc)
  }

  /** `s` followed by the segment of the attribute in `piece`, if there is one. */
  function AppendPiece(s: string, piece: seq<Attribute>, utc: Utc): string {
    if piece == [] then s else s + Segment(piece[0], utc)
  }

  /** Rendering one optional attribute more appends its segment, if there is one. */
  lemma RenderSnoc(head: string, done: seq<Attribute>, piece: seq<Attribute>, utc: Utc)
    requires |piece| <= 1
    ensures Render(head, done + piece, utc) == AppendPiece(Render(head, done, utc), piece, utc)
  {
    if piece == [] {
      assert done + piece == done;
    } else {
      var all := done + piece;
      assert all[..|all| - 1] == done;
      assert all[|all| - 1] == piece[0];
    }
  }

  /** Rendering seven runs of at most one attribute each appends their segments one run at a
      time, which is how both serialisers build the string. */
  lemma RenderSeven(head: string, e: seq<Attribute>, m: seq<Attribute>, d: seq<Attribute>, p: seq<Attribute>,
                    sec: seq<Attribute>, h: seq<Attribute>, ss: seq<Attribute>, utc: Utc)
    requires |e| <= 1 && |m| <= 1 && |d| <= 1 && |p| <= 1 && |sec| <= 1 && |h| <= 1 && |ss| <= 1
    ensures Render(head, e + m + d + p + sec + h + ss, utc)
      == AppendPiece(AppendPiece(AppendPiece(AppendPiece(AppendPiece(AppendPiece(AppendPiece(
           head, e, utc), m, utc), d, utc), p, utc), sec, utc), h, utc), ss, utc)
  {
    assert Render(head, [], utc) == head;
    assert [] + e == e;
    RenderSnoc(head, [], e, utc);
    RenderSnoc(head, e, m, utc);
    RenderSnoc(head, e + m, d, utc);
    RenderSnoc(head, e + m + d, p, utc);
    RenderSnoc(head, e + m + d + p, sec, utc);
    RenderSnoc(head, e + m + d + p + sec, h, utc);
    RenderSnoc(head, e + m + d + p + sec + h, ss, utc);
  }

  /** The attributes `HttpCookieManager.set` writes: Max-Age whenever it is not `undefined`
      (0 included) and Path always, "/" when the option is falsy. */
  function HttpAttributes(o: Options): seq<Attribute> {
    (if TruthyDate(o.expires) then [Expires(o.expires.value)] else [])
    + (if o.maxAge.Given? then [MaxAge(o.maxAge.value)] else [])
    + (if TruthyString(o.domain) then [Domain(o.domain.value)] else [])
    + [Path(if TruthyString(o.path) then o.path.value else "/")]
    + (if TruthyBool(o.secure) then [Secure] else [])
    + (if TruthyBool(o.httpOnly) then [HttpOnly] else [])
    + (if TruthyString(o.sameSite) then [SameSite(o.sameSite.value)] else [])
  }

  /** The attributes `NextCookieManager.getSetCookieHeader` writes: Max-Age only when truthy
      and Path only when set. */
  function NextAttributes(o: Options): seq<Attribute> {
    (if TruthyDate(o.expires) then [Expires(o.expires.value)] else [])
    + (if TruthyNumber(o.maxAge) then [MaxAge(o.maxAge.value)] else [])
    + (if TruthyString(o.domain) then [Domain(o.domain.value)] else [])
    + (if TruthyString(o.path) then [Path(o.path.value)] else [])
    + (if TruthyBool(o.secure) then [Secure] else [])
    + (if TruthyBool(o.httpOnly) then [HttpOnly] else [])
    + (if TruthyString(o.sameSite) then [SameSite(o.sameSite.value)] else [])
  }

  predicate InRankOrder(attributes: seq<Attribute>) {
    forall i, j :: 0 <= i < j < |attributes| ==> Rank(attributes[i]) < Rank(attributes[j])
  }

  // ---------------------------------------------------------------------------------------
  // Properties

  /** Every default is overridable: a property the caller gives (even `undefined`) wins, and
      one it leaves out takes the default. */
  lemma DefaultsFacts(o: Options)
    ensures WithDefaults(NoOptions) ==
              Options(Missing, Missing, Missing, Given("/"), Given(true), Given(true), Given("Lax"))
    ensures var d := WithDefaults(o);
      && d.expires == o.expires && d.maxAge == o.maxAge && d.domain == o.domain
      && d.path == (if o.path.Missing? then Given("/") else o.path)
      && d.secure == (if o.secure.Missing? then Given(true) else o.secure)
      && d.httpOnly == (if o.httpOnly.Missing? then Given(true) else o.httpOnly)
      && d.sameSite == (if o.sameSite.Missing? then Given("Lax") else o.sameSite)
  {
  }

  /** Appending at most one attribute of rank `r` to a list of lower ranks keeps rank order. */
  lemma ExtendInOrder(xs: seq<Attribute>, extra: seq<Attribute>, r: nat)
    requires InRankOrder(xs) && forall a :: a in xs ==> Rank(a) < r
    requires |extra| <= 1 && forall a :: a in extra ==> Rank(a) == r
    ensures InRankOrder(xs + extra) && forall a :: a in xs + extra ==> Rank(a) <= r
  {
    forall i, j | 0 <= i < j < |xs + extra| ensures Rank((xs + extra)[i]) < Rank((xs + extra)[j]) {
      if j >= |xs| {
        assert (xs + extra)[i] in xs && (xs + extra)[j] in extra;
      }
    }
  }

  /** The HTTP manager writes attributes in a fixed order, each kind at most once. */
  lemma HttpAttributesInOrder(o: Options)
    ensures InRankOrder(HttpAttributes(o))
  {
    var e := if TruthyDate(o.expires) then [Expires(o.expires.value)] else [];
    var m := if o.maxAge.Given? then [MaxAge(o.maxAge.value)] else [];
    var d := if TruthyString(o.domain) then [Domain(o.domain.value)] else [];
    var p := [Path(if TruthyString(o.path) then o.path.value else "/")];
    var sec := if TruthyBool(o.secure) then [Secure] else [];
    var h := if TruthyBool(o.httpOnly) then [HttpOnly] else [];
    var ss := if TruthyString(o.sameSite) then [SameSite(o.sameSite.value)] else [];
    ExtendInOrder(e, m, 1);
    ExtendInOrder(e + m, d, 2);
    ExtendInOrder(e + m + d, p, 3);
    ExtendInOrder(e + m + d + p, sec, 4);
    ExtendInOrder(e + m + d + p + sec, h, 5);
    ExtendInOrder(e + m + d + p + sec + h, ss, 6);
  }

  /** The Next manager writes the same kinds in the same order, each at most once. */
  lemma NextAttributesInOrder(o: Options)
    ensures InRankOrder(NextAttributes(o))
  {
    var e := if TruthyDate(o.expires) then [Expires(o.expires.value)] else [];
    var m := if TruthyNumber(o.maxAge) then [MaxAge(o.maxAge.value)] else [];
    var d := if TruthyString(o.domain) then [Domain(o.domain.value)] else [];
    var p := if TruthyString(o.path) then [Path(o.path.value)] else [];
    var sec := if TruthyBool(o.secure) then [Secure] else [];
    var h := if TruthyBool(o.httpOnly) then [HttpOnly] else [];
    var ss := if TruthyString(o.sameSite) then [SameSite(o.sameSite.value)] else [];
    ExtendInOrder(e, m, 1);
    ExtendInOrder(e + m, d, 2);
    ExtendInOrder(e + m + d, p, 3);
    ExtendInOrder(e + m + d + p, sec, 4);
    ExtendInOrder(e + m + d + p + sec, h, 5);
    ExtendInOrder(e + m + d + p + sec + h, ss, 6);
  }

  /** The HTTP manager always writes exactly one Path attribute, "/" when the option is falsy;
      Max-Age appears exactly when the option is not `undefined`, with its value. */
  lemma HttpPathAndMaxAge(o: Options)
    ensures var attrs := HttpAttributes(o);
      && Path(if TruthyString(o.path) then o.path.value else "/") in attrs
      && (forall a :: a in attrs && a.Path? ==> a == Path(if TruthyString(o.path) then o.path.value else "/"))
      && ((exists a :: a in attrs && a.MaxAge?) <==> o.maxAge.Given?)
      && (o.maxAge.Given? ==> MaxAge(o.maxAge.value) in attrs)
  {
    var m := if o.maxAge.Given? then [MaxAge(o.maxAge.value)] else [];
    SevenParts(
      if TruthyDate(o.expires) then [Expires(o.expires.value)] else [],
      m,
      if TruthyString(o.domain) then [Domain(o.domain.value)] else [],
      Path(if TruthyString(o.path) then o.path.value else "/"),
      if TruthyBool(o.secure) then [Secure] else [],
      if TruthyBool(o.httpOnly) then [HttpOnly] else [],
      if TruthyString(o.sameSite) then [SameSite(o.sameSite.value)] else []);
    if o.maxAge.Given? {
      assert MaxAge(o.maxAge.value) in m;
    }
  }

  /** In seven runs of attributes, one kind per run and a single Path, the one Path is the only
      Path and every Max-Age comes from the Max-Age run. */
  lemma SevenParts(e: seq<Attribute>, m: seq<Attribute>, d: seq<Attribute>, path: Attribute,
                   sec: seq<Attribute>, h: seq<Attribute>, ss: seq<Attribute>)
    requires path.Path?
    requires forall a :: a in e ==> a.Expires?
    requires forall a :: a in m ==> a.MaxAge?
    requires forall a :: a in d ==> a.Domain?
    requires forall a :: a in sec ==> a.Secure?
    requires forall a :: a in h ==> a.HttpOnly?
    requires forall a :: a in ss ==> a.SameSite?
    ensures var attrs := e + m + d + [path] + sec + h + ss;
      && path in attrs
      && (forall a :: a in attrs && a.Path? ==> a == path)
      && (forall a :: a in attrs && a.MaxAge? ==> a in m)
      && (forall a :: a in m ==> a in attrs)
  {
  }

  /** The two serialisers agree exactly when Max-Age is not 0 and Path is set: Max-Age 0 is
      written only by the HTTP manager, and a falsy Path only by the HTTP manager, as "/". */
  lemma SerialisersAgree(o: Options)
    ensures HttpAttributes(o) == NextAttributes(o) <==> o.maxAge != Given(0) && TruthyString(o.path)
  {
  }

  /** With no options at all, a cookie is `Path=/; Secure; HttpOnly; SameSite=Lax` in both. */
  lemma DefaultAttributes()
    ensures HttpAttributes(WithDefaults(NoOptions)) == [Path("/"), Secure, HttpOnly, SameSite("Lax")]
    ensures NextAttributes(WithDefaults(NoOptions)) == [Path("/"), Secure, HttpOnly, SameSite("Lax")]
  {
  }
}
