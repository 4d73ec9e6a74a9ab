/** `NextCookieManager`: the request's cookies copied into a `Map`, changed in place by `set` and
    `delete`, and written back as one `Set-Cookie` string per cookie that was changed. */
module NextCookies {
  import opened Js
  import opened Cookies
  import opened OrderedMap

  /** One entry of the manager's `Map`. */
  datatype Stored = Stored(value: string, options: Options, updated: bool)

  /** One cookie of the request's cookie store, as `getAll()` lists it. */
  datatype StoreCookie = StoreCookie(name: string, value: string)

  /** The assignments the constructor makes: every request cookie, unchanged, no options. */
  function FromStore(store: seq<StoreCookie>): (xs: seq<(string, Stored)>)
    ensures |xs| == |store|
    ensures forall i :: 0 <= i < |store| ==> xs[i] == (store[i].name, Stored(store[i].value, NoOptions, false))
    decreases |store|
  {
    if store == [] then []
    else FromStore(store[..|store| - 1]) + [(store[|store| - 1].name, Stored(store[|store| - 1].value, NoOptions, false))]
  }

  /** The record `getAll()` fills: one `cookies[key] = value` per entry, in `Map` order. */
  function Record(entries: seq<(string, Stored)>): map<string, string>
    decreases |entries|
  {
    if entries == [] then map[]
    else
      var last := entries[|entries| - 1];
      Record(entries[..|entries| - 1])[last.0 := last.1.value]
  }

  /** The `Set-Cookie` string of one entry: name and value both URI-encoded, then the
      attributes of `NextAttributes`. */
  function NextSetCookie(name: string, s: Stored, encode: Encode, utc: Utc): string {
    Render(encode(name) + "=" + encode(s.value), NextAttributes(s.options), utc)
  }

  /** The positions of the updated entries, in ascending order. */
  function UpdatedPositions(entries: seq<(string, Stored)>): (ps: seq<nat>)
    ensures forall k :: 0 <= k < |ps| ==> ps[k] < |entries| && entries[ps[k]].1.updated
    ensures forall k, l :: 0 <= k < l < |ps| ==> ps[k] < ps[l]
    ensures forall i :: 0 <= i < |entries| && entries[i].1.updated ==> i in ps
    decreases |entries|
  {
    if entries == [] then []
    else
      var init := entries[..|entries| - 1];
      var ps := UpdatedPositions(init);
      assert forall k :: 0 <= k < |ps| ==> entries[ps[k]] == init[ps[k]];
      ps + (if entries[|entries| - 1].1.updated then [|entries| - 1] else [])
  }

  /** What `getSetCookieHeader()` returns: one string per updated entry, in `Map` order. */
  function Headers(entries: seq<(string, Stored)>, encode: Encode, utc: Utc): (hs: seq<string>)
    ensures |hs| <= |entries|
    ensures |hs| == |UpdatedPositions(entries)|
    decreases |entries|
  {
    if entries == [] then []
    else
      var last := entries[|entries| - 1];
      Headers(entries[..|entries| - 1], encode, utc)
      + (if last.1.updated then [NextSetCookie(last.0, last.1, encode, utc)] else [])
  }

  /** The options `delete(name)` sets: only `expires`, at the epoch; any options the caller
      might pass are not accepted. */
  const DeleteOptions := NoOptions.(expires := Given(Epoch))

  // ---------------------------------------------------------------------------------------
  // Properties

  /** The record `getAll()` builds agrees with `get`: the same names, the same values. */
  lemma {:induction false} RecordAgreesWithGet(entries: seq<(string, Stored)>)
    requires DistinctKeys(entries)
    ensures forall k :: k in Record(entries) <==> OrderedMap.Get(entries, k).Some?
    ensures forall k :: k in Record(entries) ==> Record(entries)[k] == OrderedMap.Get(entries, k).value.value
    decreases |entries|
  {
    if entries != [] {
      var init := entries[..|entries| - 1];
      var last := entries[|entries| - 1];
      assert DistinctKeys(init);
      assert entries == init + [last];
      RecordAgreesWithGet(init);
      GetOfSnoc(init, last);
      GetOfAbsent(init, last.0);
    }
  }

  /** A name no pair carries is not found. */
  lemma {:induction false} GetOfAbsent<T>(r: seq<(string, T)>, k: string)
    requires forall i :: 0 <= i < |r| ==> r[i].0 != k
    ensures OrderedMap.Get(r, k).None?
    decreases |r|
  {
    if r != [] {
      GetOfAbsent(r[1..], k);
    }
  }

  /** Looking up in a list with one more pair at the end: the earlier pairs win. */
  lemma {:induction false} GetOfSnoc<T>(r: seq<(string, T)>, last: (string, T))
    ensures forall k :: OrderedMap.Get(r + [last], k) ==
              (if OrderedMap.Get(r, k).Some? then OrderedMap.Get(r, k) else if k == last.0 then Some(last.1) else None)
    decreases |r|
  {
    if r != [] {
      assert (r + [last])[1..] == r[1..] + [last];
      GetOfSnoc(r[1..], last);
    }
  }

  /** `getSetCookieHeader()` writes a string for every changed entry, and only for those. */
  lemma HeadersAreTheUpdatedEntries(entries: seq<(string, Stored)>, encode: Encode, utc: Utc)
    ensures forall i :: 0 <= i < |entries| && entries[i].1.updated ==>
              NextSetCookie(entries[i].0, entries[i].1, encode, utc) in Headers(entries, encode, utc)
    ensures forall h :: h in Headers(entries, encode, utc) ==>
              exists i :: 0 <= i < |entries| && entries[i].1.updated && h == NextSetCookie(entries[i].0, entries[i].1, encode, utc)
  {
    UpdatedEntriesWritten(entries, encode, utc);
    OnlyUpdatedEntriesWritten(entries, encode, utc);
  }

  /** The k-th header is the string of the k-th updated entry in `Map` order. */
  lemma {:induction false} HeadersInMapOrder(entries: seq<(string, Stored)>, encode: Encode, utc: Utc)
    ensures forall k :: 0 <= k < |Headers(entries, encode, utc)| ==>
      Headers(entries, encode, utc)[k]
        == NextSetCookie(entries[UpdatedPositions(entries)[k]].0, entries[UpdatedPositions(entries)[k]].1, encode, utc)
    decreases |entries|
  {
    if entries != [] {
      var n := |entries| - 1;
      var init := entries[..n];
      HeadersInMapOrder(init, encode, utc);
      var hs, ps := Headers(init, encode, utc), UpdatedPositions(init);
      var rs := seq(|entries|, i requires 0 <= i < |entries| => NextSetCookie(entries[i].0, entries[i].1, encode, utc));
      forall k | 0 <= k < |ps| ensures ps[k] < n && hs[k] == rs[ps[k]] {
        var p := ps[k];
        var e := entries[p];
        assert init[p] == e;
        assert hs[k] == NextSetCookie(e.0, e.1, encode, utc);
      }
      AppendInOrder(hs, ps, rs, n, entries[n].1.updated);
    }
  }

  /** One more entry after headers that follow their positions still follow them. */
  lemma AppendInOrder(hs: seq<string>, ps: seq<nat>, rs: seq<string>, n: nat, keep: bool)
    requires |hs| == |ps| && |rs| == n + 1
    requires forall k :: 0 <= k < |ps| ==> ps[k] < n && hs[k] == rs[ps[k]]
    ensures var hs', ps' := hs + (if keep then [rs[n]] else []), ps + (if keep then [n] else []);
      |hs'| == |ps'| && forall k :: 0 <= k < |hs'| ==> hs'[k] == rs[ps'[k]]
  {
  }

  /** Every changed entry has its string among the headers. */
  lemma {:induction false} UpdatedEntriesWritten(entries: seq<(string, Stored)>, encode: Encode, utc: Utc)
    ensures forall i :: 0 <= i < |entries| && entries[i].1.updated ==>
              NextSetCookie(entries[i].0, entries[i].1, encode, utc) in Headers(entries, encode, utc)
    decreases |entries|
  {
    if entries != [] {
      var init := entries[..|entries| - 1];
      var last := entries[|entries| - 1];
      UpdatedEntriesWritten(init, encode, utc);
      var hs := Headers(entries, encode, utc);
      assert Headers(init, encode, utc) <= hs;
      forall i | 0 <= i < |entries| && entries[i].1.updated
        ensures NextSetCookie(entries[i].0, entries[i].1, encode, utc) in hs
      {
        if i < |init| {
          assert entries[i] == init[i];
        } else {
          assert hs[|hs| - 1] == NextSetCookie(last.0, last.1, encode, utc);
        }
      }
    }
  }

  /** Every header is the string of some changed entry. */
  lemma {:induction false} OnlyUpdatedEntriesWritten(entries: seq<(string, Stored)>, encode: Encode, utc: Utc)
    ensures forall h :: h in Headers(entries, encode, utc) ==>
              exists i :: 0 <= i < |entries| && entries[i].1.updated && h == NextSetCookie(entries[i].0, entries[i].1, encode, utc)
    decreases |entries|
  {
    if entries != [] {
      var init := entries[..|entries| - 1];
      var last := entries[|entries| - 1];
      OnlyUpdatedEntriesWritten(init, encode, utc);
      var tail := if last.1.updated then [NextSetCookie(last.0, last.1, encode, utc)] else [];
      assert Headers(entries, encode, utc) == Headers(init, encode, utc) + tail;
      forall h | h in Headers(entries, encode, utc)
        ensures exists i :: 0 <= i < |entries| && entries[i].1.updated && h == NextSetCookie(entries[i].0, entries[i].1, encode, utc)
      {
        if h in Headers(init, encode, utc) {
          var i :| 0 <= i < |init| && init[i].1.updated && h == NextSetCookie(init[i].0, init[i].1, encode, utc);
          assert entries[i] == init[i];
        } else {
          assert h in tail;
          assert entries[|entries| - 1] == last;
        }
      }
    }
  }

  /** Entries nobody changed produce no header. */
  lemma {:induction false} UntouchedWritesNothing(entries: seq<(string, Stored)>, encode: Encode, utc: Utc)
    requires forall i :: 0 <= i < |entries| ==> !entries[i].1.updated
    ensures Headers(entries, encode, utc) == []
    decreases |entries|
  {
    if entries != [] {
      UntouchedWritesNothing(entries[..|entries| - 1], encode, utc);
    }
  }

  /** A manager fresh from the request names each request cookie once, in order of first
      appearance, with the value it was given last, and writes no header. */
  lemma FreshManager(store: seq<StoreCookie>, encode: Encode, utc: Utc)
    ensures KeysOf(AssignAll([], FromStore(store))) == FirstOccurrences(KeysOf(FromStore(store)))
    ensures forall k :: OrderedMap.Get(AssignAll([], FromStore(store)), k) == LastWith(FromStore(store), k)
    ensures DistinctKeys(AssignAll([], FromStore(store)))
    ensures Headers(AssignAll([], FromStore(store)), encode, utc) == []
  {
    var xs := FromStore(store);
    AssignAllFromEmpty(xs);
    UntouchedAfterAssigns([], xs);
    UntouchedWritesNothing(AssignAll([], xs), encode, utc);
  }

  /** Assigning entries nobody changed into entries nobody changed. */
  lemma {:induction false} UntouchedAfterAssigns(r: seq<(string, Stored)>, xs: seq<(string, Stored)>)
    requires forall i :: 0 <= i < |r| ==> !r[i].1.updated
    requires forall i :: 0 <= i < |xs| ==> !xs[i].1.updated
    ensures forall i :: 0 <= i < |AssignAll(r, xs)| ==> !AssignAll(r, xs)[i].1.updated
    decreases |xs|
  {
    if xs != [] {
      var init := xs[..|xs| - 1];
      var last := xs[|xs| - 1];
      UntouchedAfterAssigns(r, init);
      UntouchedAfterAssign(AssignAll(r, init), last.0, last.1);
    }
  }

  lemma {:induction false} UntouchedAfterAssign(r: seq<(string, Stored)>, k: string, v: Stored)
    requires forall i :: 0 <= i < |r| ==> !r[i].1.updated
    requires !v.updated
    ensures forall i :: 0 <= i < |Assign(r, k, v)| ==> !Assign(r, k, v)[i].1.updated
    decreases |r|
  {
    if r != [] && r[0].0 != k {
      UntouchedAfterAssign(r[1..], k, v);
      var a := Assign(r, k, v);
      assert a == [r[0]] + Assign(r[1..], k, v);
      forall i | 0 < i < |a| ensures !a[i].1.updated {
        assert a[i] == Assign(r[1..], k, v)[i - 1];
      }
    }
  }

  /** After `set`, `get` returns the new value and every other name is unaffected, and the
      cookie is among those `getSetCookieHeader()` writes. */
  lemma SetThenGet(entries: seq<(string, Stored)>, name: string, value: string, options: Options,
                   encode: Encode, utc: Utc)
    requires DistinctKeys(entries)
    ensures var after := Assign(entries, name, Stored(value, WithDefaults(options), true));
      && OrderedMap.Get(after, name) == Some(Stored(value, WithDefaults(options), true))
      && (forall k :: k != name ==> OrderedMap.Get(after, k) == OrderedMap.Get(entries, k))
      && NextSetCookie(name, Stored(value, WithDefaults(options), true), encode, utc) in Headers(after, encode, utc)
  {
    var s := Stored(value, WithDefaults(options), true);
    var after := Assign(entries, name, s);
    AssignFacts(entries, name, s);
    var i := GetIndex(after, name);
    HeadersAreTheUpdatedEntries(after, encode, utc);
  }

  /** Where `Get` found its value. */
  lemma {:induction false} GetIndex<T>(r: seq<(string, T)>, k: string) returns (i: nat)
    requires OrderedMap.Get(r, k).Some?
    ensures i < |r| && r[i] == (k, OrderedMap.Get(r, k).value)
    decreases |r|
  {
    if r[0].0 == k {
      i := 0;
    } else {
      var j := GetIndex(r[1..], k);
      i := j + 1;
    }
  }

  /** After `delete`, `get` does not return `undefined`: the cookie stays, with an empty value,
      and its header expires it at the epoch with the default attributes. */
  lemma DeleteKeepsEmptyCookie(entries: seq<(string, Stored)>, name: string, encode: Encode, utc: Utc)
    ensures OrderedMap.Get(Assign(entries, name, Stored("", WithDefaults(DeleteOptions), true)), name)
              == Some(Stored("", WithDefaults(DeleteOptions), true))
    ensures NextAttributes(WithDefaults(DeleteOptions)) == [Expires(Epoch), Path("/"), Secure, HttpOnly, SameSite("Lax")]
  {
    AssignFacts(entries, name, Stored("", WithDefaults(DeleteOptions), true));
  }

  /** The attribute-by-attribute building of one cookie string inside `getSetCookieHeader`. */
  method CookieString(head: string, o: Options, utc: Utc) returns (cookie: string)
    ensures cookie == Render(head, NextAttributes(o), utc)
  {
    ghost var e: seq<Attribute> := if TruthyDate(o.expires) then [Expires(o.expires.value)] else [];
    ghost var m: seq<Attribute> := if TruthyNumber(o.maxAge) then [MaxAge(o.maxAge.value)] else [];
    ghost var d: seq<Attribute> := if TruthyString(o.domain) then [Domain(o.domain.value)] else [];
    ghost var p: seq<Attribute> := if TruthyString(o.path) then [Path(o.path.value)] else [];
    ghost var sec: seq<Attribute> := if TruthyBool(o.secure) then [Secure] else [];
    ghost var h: seq<Attribute> := if TruthyBool(o.httpOnly) then [HttpOnly] else [];
    ghost var ss: seq<Attribute> := if TruthyString(o.sameSite) then [SameSite(o.sameSite.value)] else [];
    assert NextAttributes(o) == e + m + d + p + sec + h + ss;
    RenderSeven(head, e, m, d, p, sec, h, ss, utc);
    cookie := head;
    if TruthyDate(o.expires) {
      cookie := cookie + Segment(Expires(o.expires.value), utc);
    }
    if TruthyNumber(o.maxAge) {
      cookie := cookie + Segment(MaxAge(o.maxAge.value), utc);
    }
    if TruthyString(o.domain) {
      cookie := cookie + Segment(Domain(o.domain.value), utc);
    }
    if TruthyString(o.path) {
      cookie := cookie + Segment(Path(o.path.value), utc);
    }
    if TruthyBool(o.secure) {
      cookie := cookie + Segment(Secure, utc);
    }
    if TruthyBool(o.httpOnly) {
      cookie := cookie + Segment(HttpOnly, utc);
    }
    if TruthyString(o.sameSite) {
      cookie := cookie + Segment(SameSite(o.sameSite.value), utc);
    }
  }

  class NextCookieManager {
    var cookies: seq<(string, Stored)>

    ghost predicate Valid()
      reads this
    {
      DistinctKeys(cookies)
    }

    /** Copies every request cookie into the `Map`, unchanged and without options. */
    constructor (store: seq<StoreCookie>)
      ensures cookies == AssignAll([], FromStore(store))
      ensures Valid()
    {
      var entries: seq<(string, Stored)> := [];
      var i := 0;
      while i < |store|
        invariant 0 <= i <= |store|
        invariant entries == AssignAll([], FromStore(store[..i]))
      {
        assert FromStore(store[..i + 1])[..i] == FromStore(store[..i]);
        assert store[..i + 1][..i] == store[..i];
        entries := Assign(entries, store[i].name, Stored(store[i].value, NoOptions, false));
        i := i + 1;
      }
      assert store[..i] == store;
      AssignAllFromEmpty(FromStore(store));
      cookies := entries;
    }

    /** `this.cookies.get(name)?.value`. */
    method Get(name: string) returns (r: Option<string>)
      ensures r == match OrderedMap.Get(cookies, name) case None => None case Some(s) => Some(s.value)
    {
      var entry := OrderedMap.Get(cookies, name);
      r := match entry case None => None case Some(s) => Some(s.value);
    }

    method GetAll() returns (r: map<string, string>)
      ensures r == Record(cookies)
    {
      r := map[];
      var i := 0;
      while i < |cookies|
        invariant 0 <= i <= |cookies|
        invariant r == Record(cookies[..i])
      {
        assert cookies[..i + 1][..i] == cookies[..i];
        r := r[cookies[i].0 := cookies[i].1.value];
        i := i + 1;
      }
      assert cookies[..i] == cookies;
    }

    /** `set(name, value, options)`: the entry takes the new value, the options with their
      defaults, and is marked as changed. */
    method Set(name: string, value: string, options: Options)
      requires Valid()
      modifies this
      ensures cookies == Assign(old(cookies), name, Stored(value, WithDefaults(options), true))
      ensures Valid()
    {
      AssignFacts(cookies, name, Stored(value, WithDefaults(options), true));
      cookies := Assign(cookies, name, Stored(value, WithDefaults(options), true));
    }

    /** `delete(name)`. */
    method Delete(name: string)
      requires Valid()
      modifies this
      ensures cookies == Assign(old(cookies), name, Stored("", WithDefaults(DeleteOptions), true))
      ensures Valid()
    {
      Set(name, "", DeleteOptions);
    }

    /** `getSetCookieHeader()`: entries not marked as changed are skipped. */
    method GetSetCookieHeader(encode: Encode, utc: Utc) returns (headers: seq<string>)
      ensures headers == Headers(cookies, encode, utc)
    {
      headers := [];
      var i := 0;
      while i < |cookies|
        invariant 0 <= i <= |cookies|
        invariant headers == Headers(cookies[..i], encode, utc)
      {
        assert cookies[..i + 1][..i] == cookies[..i];
        var name := cookies[i].0;
        var entry := cookies[i].1;
        if entry.updated {
          var cookie := CookieString(encode(name) + "=" + encode(entry.value), entry.options, utc);
          headers := headers + [cookie];
        }
        i := i + 1;
      }
      assert cookies[..i] == cookies;
    }
  }
}
