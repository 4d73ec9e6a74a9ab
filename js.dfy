/** JavaScript values, exceptions and the few string operations the framework relies on. */
module Js {

  datatype Option<+T> = None | Some(value: T)

  /** A JSON-like JavaScript value. `Native` stands for a host object the model does not look
      inside (a function, a cookie manager, a URL): it is an object, so it is truthy. */
  datatype Value =
    | Undefined
    | Null
    | Bool(b: bool)
    | Num(n: int)
    | Str(s: string)
    | Arr(items: seq<Value>)
    | Obj(fields: map<string, Value>)
    | Native(kind: string, ref: string)

  /** How a step finishes: normally, by throwing an `AetherisError` (the only error class the
      pipeline recognises), or by throwing anything else. `ThrowOther` carries `e.message`,
      which is `undefined` for a thrown object or primitive with no `message`. A thrown `null`
      or `undefined` has no such message to carry (reading it throws a `TypeError`) and is
      not represented. */
  datatype Outcome<+T> =
    | Ok(value: T)
    | ThrowClassified(status: int, message: string, data: Value)
    | ThrowOther(errorMessage: Value)
  {
    /** Failure-compatible, so that `:-` propagates a throw the way `await` rethrows it. */
    predicate IsFailure() {
      !Ok?
    }

    function PropagateFailure<U>(): Outcome<U>
      requires IsFailure()
    {
      match this
      case ThrowClassified(s, m, d) => ThrowClassified(s, m, d)
      case ThrowOther(e) => ThrowOther(e)
    }

    function Extract(): T
      requires Ok?
    {
      value
    }
  }

  /** JavaScript truthiness: `undefined`, `null`, `false`, `0` and `""` are falsy. */
  predicate Truthy(v: Value) {
    match v
    case Undefined => false
    case Null => false
    case Bool(b) => b
    case Num(n) => n != 0
    case Str(s) => s != ""
    case _ => true
  }

  predicate Nullish(v: Value) {
    v.Undefined? || v.Null?
  }

  /** `v ?? d`: only `null` and `undefined` are replaced. */
  function Coalesce(v: Value, d: Value): (r: Value)
    ensures Nullish(v) ==> r == d
    ensures !Nullish(v) ==> r == v
  {
    if Nullish(v) then d else v
  }

  /** The own entries that `{...v}` copies (strings and arrays are left out, see README). */
  function Spread(v: Value): map<string, Value> {
    if v.Obj? then v.fields else map[]
  }

  /** Property lookup on a plain record: a missing key reads as `undefined`. */
  function Lookup(m: map<string, Value>, k: string): Value {
    if k in m then m[k] else Undefined
  }

  /** `v.k`: reading a property of `null` or `undefined` throws a `TypeError` (V8's wording);
      an object gives its own field; other primitives have none of the properties read here. */
  function Prop(v: Value, k: string): (r: Outcome<Value>)
    ensures r.IsFailure() <==> Nullish(v)
    ensures v.Obj? ==> r == Ok(Lookup(v.fields, k))
  {
    match v
    case Undefined => ThrowOther(Str("Cannot read properties of undefined (reading '" + k + "')"))
    case Null => ThrowOther(Str("Cannot read properties of null (reading '" + k + "')"))
    case Obj(f) => Ok(Lookup(f, k))
    case _ => Ok(Undefined)
  }

  /** `{...acc, ...v}`: right-biased merge. */
  function Merge(acc: map<string, Value>, v: Value): (r: map<string, Value>)
    ensures r.Keys == acc.Keys + Spread(v).Keys
    ensures forall k :: k in Spread(v) ==> r[k] == Spread(v)[k]
    ensures forall k :: k in acc && k !in Spread(v) ==> r[k] == acc[k]
  {
    acc + Spread(v)
  }

  lemma MergeNullishIsIdentity(acc: map<string, Value>, v: Value)
    requires Nullish(v)
    ensures Merge(acc, v) == acc
  {
  }

  // ---------------------------------------------------------------------------------------
  // Strings

  /** `parts.join(sep)`. */
  function Join(parts: seq<string>, sep: string): string
    decreases |parts|
  {
    if |parts| == 0 then ""
    else if |parts| == 1 then parts[0]
    else parts[0] + sep + Join(parts[1..], sep)
  }

  /** `s.split(c)` for a one-character separator; `"".split(c)` is `[""]`. */
  function Split(s: string, c: char): (r: seq<string>)
    ensures |r| >= 1
    decreases |s|
  {
    if s == [] then [""]
    else
      var rest := Split(s[1..], c);
      if s[0] == c then [""] + rest else [[s[0]] + rest[0]] + rest[1..]
  }

  lemma {:induction false} SplitPiecesAvoidSeparator(s: string, c: char)
    ensures forall i :: 0 <= i < |Split(s, c)| ==> c !in Split(s, c)[i]
    decreases |s|
  {
    if s != [] {
      SplitPiecesAvoidSeparator(s[1..], c);
    }
  }

  /** Splitting and joining with the same separator gives the original string back. */
  lemma {:induction false} JoinSplit(s: string, c: char)
    ensures Join(Split(s, c), [c]) == s
    decreases |s|
  {
    if s != [] {
      var rest := Split(s[1..], c);
      JoinSplit(s[1..], c);
      if s[0] == c {
        assert Split(s, c) == [""] + rest;
        JoinCons("", rest, [c]);
      } else {
        assert Split(s, c) == [[s[0]] + rest[0]] + rest[1..];
        if |rest| == 1 {
        } else {
          assert Join(rest, [c]) == rest[0] + [c] + Join(rest[1..], [c]);
        }
      }
    }
  }

  lemma JoinCons(x: string, xs: seq<string>, sep: string)
    requires |xs| >= 1
    ensures Join([x] + xs, sep) == x + sep + Join(xs, sep)
  {
    assert ([x] + xs)[1..] == xs;
  }

  /** The first piece of a split is the text before the first separator, and the remaining
      pieces joined with the separator are the text after it. */
  lemma {:induction false} SplitHeadAndRest(s: string, c: char)
    ensures c !in s ==> Split(s, c) == [s]
    ensures c in s ==>
      var i := FirstIndexOfChar(s, c);
      Split(s, c)[0] == s[..i] && Join(Split(s, c)[1..], [c]) == s[i + 1..]
    decreases |s|
  {
    if s != [] {
      var rest := Split(s[1..], c);
      SplitHeadAndRest(s[1..], c);
      if s[0] == c {
        assert Split(s, c)[1..] == rest;
        JoinSplit(s[1..], c);
      } else {
        assert s == [s[0]] + s[1..];
        assert c in s ==> c in s[1..];
      }
    }
  }

  /** Index of the first occurrence of `c` in `s`. */
  function FirstIndexOfChar(s: string, c: char): (i: nat)
    requires c in s
    ensures i < |s| && s[i] == c && c !in s[..i]
  {
    if s[0] == c then 0
    else
      assert s == [s[0]] + s[1..];
      1 + FirstIndexOfChar(s[1..], c)
  }

  /** `String.prototype.trim` removes WhiteSpace and LineTerminator code points
      (section 22.1.3.32 of ECMA-262; the code points of sections 12.2 and 12.3). */
  predicate IsJsWhitespace(c: char) {
    c == '\t' || c == '\n' || c == '\U{000B}' || c == '\U{000C}' || c == '\r' || c == ' '
    || c == '\U{00A0}' || c == '\U{1680}' || ('\U{2000}' <= c <= '\U{200A}')
    || c == '\U{2028}' || c == '\U{2029}' || c == '\U{202F}' || c == '\U{205F}'
    || c == '\U{3000}' || c == '\U{FEFF}'
  }

  function TrimStart(s: string): string {
    if s != [] && IsJsWhitespace(s[0]) then TrimStart(s[1..]) else s
  }

  function TrimEnd(s: string): string {
    if s != [] && IsJsWhitespace(s[|s| - 1]) then TrimEnd(s[..|s| - 1]) else s
  }

  /** `s.trim()`. */
  function Trim(s: string): string {
    TrimEnd(TrimStart(s))
  }

  /** Leading whitespace is dropped, up to the first other character. */
  lemma {:induction false} TrimStartFacts(s: string)
    ensures var r := TrimStart(s);
      && |r| <= |s| && r == s[|s| - |r|..]
      && (r == [] || !IsJsWhitespace(r[0]))
      && forall k :: 0 <= k < |s| - |r| ==> IsJsWhitespace(s[k])
  {
    if s != [] && IsJsWhitespace(s[0]) {
      var t := s[1..];
      TrimStartFacts(t);
      var r := TrimStart(t);
      assert TrimStart(s) == r;
      assert s[|s| - |r|..] == t[|t| - |r|..];
      forall k | 0 <= k < |s| - |r| ensures IsJsWhitespace(s[k]) {
        if k > 0 {
          assert s[k] == t[k - 1];
        }
      }
    }
  }

  /** Trailing whitespace is dropped, back to the last other character. */
  lemma {:induction false} TrimEndFacts(s: string)
    ensures var r := TrimEnd(s);
      && |r| <= |s| && r == s[..|r|]
      && (r == [] || !IsJsWhitespace(r[|r| - 1]))
      && forall k :: |r| <= k < |s| ==> IsJsWhitespace(s[k])
  {
    if s != [] && IsJsWhitespace(s[|s| - 1]) {
      TrimEndFacts(s[..|s| - 1]);
    }
  }

  /** The trimmed string is the longest infix with no whitespace at either end: only
      whitespace is cut off before and after it. */
  lemma TrimIsInfix(s: string)
    ensures var r := Trim(s);
      && (exists i, j ::
            && 0 <= i <= j <= |s| && r == s[i..j]
            && (forall k :: 0 <= k < i ==> IsJsWhitespace(s[k]))
            && (forall k :: j <= k < |s| ==> IsJsWhitespace(s[k])))
      && (r == [] || (!IsJsWhitespace(r[0]) && !IsJsWhitespace(r[|r| - 1])))
  {
    var a := TrimStart(s);
    var r := TrimEnd(a);
    TrimStartFacts(s);
    TrimEndFacts(a);
    var i := |s| - |a|;
    assert r == s[i..i + |r|];
    assert forall k :: i + |r| <= k < |s| ==> IsJsWhitespace(a[k - i]) && s[k] == a[k - i];
  }

  /** `p` occurs in `s` at position `j`. */
  predicate OccursAt(s: string, p: string, j: nat) {
    j + |p| <= |s| && s[j..j + |p|] == p
  }

  /** `s.indexOf(p, k)` as an option: the first position at or after `k` where `p` occurs. */
  function IndexOfFrom(s: string, p: string, k: nat): (r: Option<nat>)
    requires k <= |s|
    ensures r.Some? ==>
              && k <= r.value && OccursAt(s, p, r.value)
              && (forall j :: k <= j < r.value ==> !OccursAt(s, p, j))
    ensures r.None? ==> forall j :: k <= j ==> !OccursAt(s, p, j)
    decreases |s| - k
  {
    if k + |p| > |s| then None
    else if s[k..k + |p|] == p then Some(k)
    else if k == |s| then None
    else IndexOfFrom(s, p, k + 1)
  }

  function IndexOf(s: string, p: string): Option<nat> {
    IndexOfFrom(s, p, 0)
  }

  /** `s.replace(p, rep)` with a string pattern: only the FIRST occurrence is replaced. */
  function ReplaceFirst(s: string, p: string, rep: string): (r: string)
    ensures IndexOf(s, p).None? ==> r == s
    ensures IndexOf(s, p).Some? ==>
      var i := IndexOf(s, p).value;
      r == s[..i] + rep + s[i + |p|..]
  {
    match IndexOf(s, p)
    case None => s
    case Some(i) => s[..i] + rep + s[i + |p|..]
  }

  /** Decimal rendering of an integer, as `${n}` prints it. */
  function IntToString(n: int): string {
    if n < 0 then "-" + NatToString(-n) else NatToString(n)
  }

  function NatToString(n: nat): (r: string)
    ensures |r| >= 1
    ensures forall k :: 0 <= k < |r| ==> '0' <= r[k] <= '9'
  {
    var d := ['0' + (n % 10) as char];
    if n < 10 then d else NatToString(n / 10) + d
  }

  // ---------------------------------------------------------------------------------------
  // Case mapping over ASCII letters (other code points are left unchanged)

  predicate IsAsciiLower(c: char) { 'a' <= c <= 'z' }
  predicate IsAsciiUpper(c: char) { 'A' <= c <= 'Z' }

  function UpperChar(c: char): (r: char)
    ensures !IsAsciiLower(r)
    ensures IsAsciiLower(c) ==> IsAsciiUpper(r)
    ensures !IsAsciiLower(c) ==> r == c
  {
    if IsAsciiLower(c) then (c as int - 32) as char else c
  }

  function LowerChar(c: char): (r: char)
    ensures !IsAsciiUpper(r)
    ensures IsAsciiUpper(c) ==> IsAsciiLower(r)
    ensures !IsAsciiUpper(c) ==> r == c
  {
    if IsAsciiUpper(c) then (c as int + 32) as char else c
  }

  /** `s.toLowerCase()` restricted to ASCII. */
  function ToLower(s: string): (r: string)
    ensures |r| == |s|
    ensures forall k :: 0 <= k < |s| ==> r[k] == LowerChar(s[k])
  {
    seq(|s|, k requires 0 <= k < |s| => LowerChar(s[k]))
  }
}
