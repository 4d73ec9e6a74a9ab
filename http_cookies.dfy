/** `HttpCookieManager`: cookies read from the request's `Cookie` header (a simplified take on
    section 4.2.1 of RFC 6265) and written as `Set-Cookie` headers on the response. */
module HttpCookies {
  import opened Js
  import opened Cookies

  // ---------------------------------------------------------------------------------------
  // Parsing the Cookie header

  /** `const [name, ...rest] = cookie.split("=")`; the name is trimmed. */
  function PieceName(piece: string): string {
    Trim(Split(piece, '=')[0])
  }

  /** `rest.join("=").trim()`: everything after the first "=", trimmed. */
  function PieceValue(piece: string): string {
    Trim(Join(Split(piece, '=')[1..], "="))
  }

  /** The (name, value) pair of each ";"-piece, in order. */
  function Fields(pieces: seq<string>): (f: seq<(string, string)>)
    ensures |f| == |pieces|
    ensures forall i :: 0 <= i < |pieces| ==> f[i] == (PieceName(pieces[i]), PieceValue(pieces[i]))
  {
    seq(|pieces|, i requires 0 <= i < |pieces| => (PieceName(pieces[i]), PieceValue(pieces[i])))
  }

  /** The record the `forEach` fills: one assignment per pair, in order. */
  function Collect(pairs: seq<(string, string)>): map<string, string>
    decreases |pairs|
  {
    if pairs == [] then map[]
    else
      var last := pairs[|pairs| - 1];
      Collect(pairs[..|pairs| - 1])[last.0 := last.1]
  }

  lemma CollectSnoc(pairs: seq<(string, string)>, i: nat)
    requires i < |pairs|
    ensures Collect(pairs[..i + 1]) == Collect(pairs[..i])[pairs[i].0 := pairs[i].1]
  {
    var q := pairs[..i + 1];
    assert q[..|q| - 1] == pairs[..i];
    assert q[|q| - 1] == pairs[i];
  }

  /** The record filled from the pieces of a header. */
  function Entries(pieces: seq<string>): map<string, string> {
    Collect(Fields(pieces))
  }

  /** One more piece: its name is assigned its value. */
  lemma EntriesStep(pieces: seq<string>, i: nat)
    requires i < |pieces|
    ensures Collect(Fields(pieces)[..i + 1]) == Collect(Fields(pieces)[..i])[PieceName(pieces[i]) := PieceValue(pieces[i])]
  {
    var f := Fields(pieces);
    CollectSnoc(f, i);
    assert f[i] == (PieceName(pieces[i]), PieceValue(pieces[i]));
  }

  /** `parse()` for the request's `Cookie` header (`None` when it is absent). */
  function ParseHeader(header: Option<string>): map<string, string> {
    if header.None? || header.value == "" then map[] else Entries(Split(header.value, ';'))
  }

  /** A missing or empty header parses to an empty record. */
  lemma EmptyHeaderParsesEmpty(header: Option<string>)
    requires header.None? || header == Some("")
    ensures ParseHeader(header) == map[]
  {
  }

  /** A piece's name is the text before its first "=" and its value the text after it, both
      trimmed, so an "=" inside a value is kept; a piece without "=" has an empty value. */
  lemma PieceFields(piece: string)
    ensures '=' in piece ==>
      var i := FirstIndexOfChar(piece, '=');
      PieceName(piece) == Trim(piece[..i]) && PieceValue(piece) == Trim(piece[i + 1..])
    ensures '=' !in piece ==> PieceName(piece) == Trim(piece) && PieceValue(piece) == ""
  {
    SplitHeadAndRest(piece, '=');
    if '=' !in piece {
      assert Split(piece, '=')[1..] == [];
      assert Trim("") == "";
    }
  }

  lemma {:induction false} CollectKeys(pairs: seq<(string, string)>)
    ensures Collect(pairs).Keys == set p | p in pairs :: p.0
    decreases |pairs|
  {
    if pairs != [] {
      var init := pairs[..|pairs| - 1];
      var last := pairs[|pairs| - 1];
      CollectKeys(init);
      assert Collect(pairs) == Collect(init)[last.0 := last.1];
      assert pairs == init + [last];
      assert forall p :: p in pairs <==> p in init || p == last;
    }
  }

  lemma {:induction false} CollectLastWins(pairs: seq<(string, string)>, j: nat)
    requires j < |pairs|
    requires forall j' :: j < j' < |pairs| ==> pairs[j'].0 != pairs[j].0
    ensures pairs[j].0 in Collect(pairs) && Collect(pairs)[pairs[j].0] == pairs[j].1
    decreases |pairs|
  {
    var n := |pairs| - 1;
    var init := pairs[..n];
    assert Collect(pairs) == Collect(init)[pairs[n].0 := pairs[n].1];
    if j < n {
      assert forall j' :: j < j' < |init| ==> init[j'] == pairs[j'];
      CollectLastWins(init, j);
    }
  }

  /** Pairs that carry the names of a list of items, one each, carry the items' names. */
  lemma NamesOfPairs(items: seq<string>, pairs: seq<(string, string)>, name: string -> string)
    requires |pairs| == |items|
    requires forall i :: 0 <= i < |items| ==> pairs[i].0 == name(items[i])
    ensures (set q | q in pairs :: q.0) == set p | p in items :: name(p)
  {
    var named := set q | q in pairs :: q.0;
    var given := set p | p in items :: name(p);
    forall x | x in named ensures x in given {
      var q :| q in pairs && q.0 == x;
      var i :| 0 <= i < |pairs| && pairs[i] == q;
      assert items[i] in items;
    }
    forall x | x in given ensures x in named {
      var p :| p in items && name(p) == x;
      var i :| 0 <= i < |items| && items[i] == p;
      assert pairs[i] in pairs;
    }
  }

  /** The names of the record are the names of the pieces. */
  lemma EntriesKeys(pieces: seq<string>)
    ensures Entries(pieces).Keys == set p | p in pieces :: PieceName(p)
  {
    CollectKeys(Fields(pieces));
    NamesOfPairs(pieces, Fields(pieces), PieceName);
  }

  /** For a name given more than once, the LAST piece with that name decides the value. */
  lemma LastOccurrenceWins(pieces: seq<string>, j: nat)
    requires j < |pieces|
    requires forall j' :: j < j' < |pieces| ==> PieceName(pieces[j']) != PieceName(pieces[j])
    ensures PieceName(pieces[j]) in Entries(pieces)
    ensures Entries(pieces)[PieceName(pieces[j])] == PieceValue(pieces[j])
  {
    var f := Fields(pieces);
    assert forall j' :: j < j' < |f| ==> f[j'].0 != f[j].0;
    CollectLastWins(f, j);
  }

  // ---------------------------------------------------------------------------------------
  // Writing Set-Cookie

  /** The response's `Set-Cookie` header: unset, one string, or a list of strings. */
  datatype HeaderValue = Absent | One(s: string) | Many(items: seq<string>)

  /** The strings a header holds. */
  function ValuesOf(h: HeaderValue): seq<string> {
    match h
    case Absent => []
    case One(s) => [s]
    case Many(items) => items
  }

  /** The header after one more cookie: it becomes a single string when there was none (an
      empty string is falsy and counts as none), and a list otherwise. */
  function Accumulate(h: HeaderValue, cookie: string): (r: HeaderValue)
    ensures h.Absent? || h == One("") ==> r == One(cookie)
    ensures !(h.Absent? || h == One("")) ==> r.Many? && r.items == ValuesOf(h) + [cookie]
  {
    match h
    case Absent => One(cookie)
    case One(s) => if s == "" then One(cookie) else Many([s, cookie])
    case Many(items) => Many(items + [cookie])
  }

  /** Every earlier cookie is kept, in order, and the new one comes last (except that an
      empty single header is replaced). */
  lemma {:induction false} AccumulateAll(h: HeaderValue, cookies: seq<string>)
    requires h != One("")
    requires forall k :: 0 <= k < |cookies| ==> cookies[k] != ""
    ensures ValuesOf(AccumulateEach(h, cookies)) == ValuesOf(h) + cookies
    decreases |cookies|
  {
    if cookies == [] {
      assert ValuesOf(h) + cookies == ValuesOf(h);
    } else {
      var init := cookies[..|cookies| - 1];
      var last := cookies[|cookies| - 1];
      AccumulateAll(h, init);
      var before := AccumulateEach(h, init);
      AccumulateNotEmpty(h, init);
      AccumulateValues(before, last);
      assert AccumulateEach(h, cookies) == Accumulate(before, last);
      assert ValuesOf(h) + init + [last] == ValuesOf(h) + cookies;
    }
  }

  /** Non-empty cookies never leave the header as the empty string. */
  lemma AccumulateNotEmpty(h: HeaderValue, cookies: seq<string>)
    requires h != One("")
    requires forall k :: 0 <= k < |cookies| ==> cookies[k] != ""
    ensures AccumulateEach(h, cookies) != One("")
  {
    if cookies != [] {
      assert cookies[|cookies| - 1] != "";
    }
  }

  /** One more cookie after a header that is not the empty string lists it last. */
  lemma AccumulateValues(h: HeaderValue, cookie: string)
    requires h != One("")
    ensures ValuesOf(Accumulate(h, cookie)) == ValuesOf(h) + [cookie]
  {
    if h.Absent? {
      assert ValuesOf(h) + [cookie] == [cookie];
    }
  }

  /** Several `set` calls in a row. */
  function AccumulateEach(h: HeaderValue, cookies: seq<string>): HeaderValue
    decreases |cookies|
  {
    if cookies == [] then h else Accumulate(AccumulateEach(h, cookies[..|cookies| - 1]), cookies[|cookies| - 1])
  }

  /** The string `set(name, value, options)` builds: the name as given, the value URI-encoded,
      then the attributes of `HttpAttributes` over the options with defaults. */
  function SetCookieString(name: string, value: string, options: Options, encode: Encode, utc: Utc): string {
    Render(name + "=" + encode(value), HttpAttributes(WithDefaults(options)), utc)
  }

  /** `delete(name, options)` is `set(name, "", {...options, expires: new Date(0)})`: it writes
      an empty value that expired at the epoch. */
  lemma DeleteExpiresAtEpoch(name: string, options: Options, encode: Encode, utc: Utc)
    ensures HttpAttributes(WithDefaults(Expiring(options)))[0] == Expires(Epoch)
  {
  }

  /** The attribute-by-attribute building of the cookie string inside `set`. */
  method CookieString(head: string, o: Options, utc: Utc) returns (cookieString: string)
    ensures cookieString == Render(head, HttpAttributes(o), utc)
  {
    ghost var e: seq<Attribute> := if TruthyDate(o.expires) then [Expires(o.expires.value)] else [];
    ghost var m: seq<Attribute> := if o.maxAge.Given? then [MaxAge(o.maxAge.value)] else [];
    ghost var d: seq<Attribute> := if TruthyString(o.domain) then [Domain(o.domain.value)] else [];
    ghost var p: seq<Attribute> := [Path(if TruthyString(o.path) then o.path.value else "/")];
    ghost var sec: seq<Attribute> := if TruthyBool(o.secure) then [Secure] else [];
    ghost var h: seq<Attribute> := if TruthyBool(o.httpOnly) then [HttpOnly] else [];
    ghost var ss: seq<Attribute> := if TruthyString(o.sameSite) then [SameSite(o.sameSite.value)] else [];
    assert HttpAttributes(o) == e + m + d + p + sec + h + ss;
    RenderSeven(head, e, m, d, p, sec, h, ss, utc);
    cookieString := head;
    if TruthyDate(o.expires) {
      cookieString := cookieString + Segment(Expires(o.expires.value), utc);
    }
    if o.maxAge.Given? {
      cookieString := cookieString + Segment(MaxAge(o.maxAge.value), utc);
    }
    if TruthyString(o.domain) {
      cookieString := cookieString + Segment(Domain(o.domain.value), utc);
    }
    if TruthyString(o.path) {
      cookieString := cookieString + Segment(Path(o.path.value), utc);
    } else {
      cookieString := cookieString + Segment(Path("/"), utc);
    }
    if TruthyBool(o.secure) {
      cookieString := cookieString + Segment(Secure, utc);
    }
    if TruthyBool(o.httpOnly) {
      cookieString := cookieString + Segment(HttpOnly, utc);
    }
    if TruthyString(o.sameSite) {
      cookieString := cookieString + Segment(SameSite(o.sameSite.value), utc);
    }
  }

  /** The response object the manager writes to. */
  class ServerResponse {
    var setCookie: HeaderValue

    constructor (h: HeaderValue)
      ensures setCookie == h
    {
      setCookie := h;
    }
  }

  class HttpCookieManager {
    const cookieHeader: Option<string>
    const res: ServerResponse

    constructor (cookieHeader: Option<string>, res: ServerResponse)
      ensures this.cookieHeader == cookieHeader && this.res == res
    {
      this.cookieHeader := cookieHeader;
      this.res := res;
    }

    /** `parse()`: split on ";", then assign each piece's trimmed name and value in turn. */
    method Parse() returns (cookies: map<string, string>)
      ensures cookies == ParseHeader(cookieHeader)
    {
      cookies := map[];
      if cookieHeader.Some? && cookieHeader.value != "" {
        var pieces := Split(cookieHeader.value, ';');
        var i := 0;
        while i < |pieces|
          invariant 0 <= i <= |pieces|
          invariant cookies == Collect(Fields(pieces)[..i])
        {
          var piece := pieces[i];
          var parts := Split(piece, '=');
          var name := parts[0];
          var rest := parts[1..];
          EntriesStep(pieces, i);
          assert Trim(name) == PieceName(piece) && Trim(Join(rest, "=")) == PieceValue(piece);
          cookies := cookies[Trim(name) := Trim(Join(rest, "="))];
          i := i + 1;
        }
        assert Fields(pieces)[..i] == Fields(pieces);
      }
    }

    /** `get(name)`: `parse()[name]`, `None` for `undefined`. */
    method Get(name: string) returns (r: Option<string>)
      ensures r == if name in ParseHeader(cookieHeader) then Some(ParseHeader(cookieHeader)[name]) else None
    {
      var cookies := Parse();
      r := if name in cookies then Some(cookies[name]) else None;
    }

    method GetAll() returns (r: map<string, string>)
      ensures r == ParseHeader(cookieHeader)
    {
      r := Parse();
    }

    /** `set(name, value, options)`: the cookie string is built attribute by attribute, then
      added to the response's `Set-Cookie` header. */
    method Set(name: string, value: string, options: Options, encode: Encode, utc: Utc)
      modifies res
      ensures res.setCookie == Accumulate(old(res.setCookie), SetCookieString(name, value, options, encode, utc))
    {
      var o := WithDefaults(options);
      var head := name + "=" + encode(value);
      var cookieString := CookieString(head, o, utc);
      var existing := res.setCookie;
      if existing.One? && existing.s != "" {
        res.setCookie := Many([existing.s, cookieString]);
      } else if existing.Many? {
        res.setCookie := Many(existing.items + [cookieString]);
      } else {
        res.setCookie := One(cookieString);
      }
    }

    /** `delete(name, options)`. */
    method Delete(name: string, options: Options, encode: Encode, utc: Utc)
      modifies res
      ensures res.setCookie == Accumulate(old(res.setCookie), SetCookieString(name, "", Expiring(options), encode, utc))
    {
      Set(name, "", Expiring(options), encode, utc);
    }
  }
}
