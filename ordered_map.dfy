/** A JavaScript `Map` or object with string keys, as an association list in insertion order:
    assigning to an existing key keeps its position. (A plain object would enumerate
    integer-like keys first; the only object kept here has keys starting with "/".) */
module OrderedMap {
  import opened Js

  /** Own keys in enumeration order. */
  function KeysOf<T>(r: seq<(string, T)>): (ks: seq<string>)
    ensures |ks| == |r|
    ensures forall i :: 0 <= i < |r| ==> ks[i] == r[i].0
  {
    if r == [] then [] else [r[0].0] + KeysOf(r[1..])
  }

  predicate DistinctKeys<T>(r: seq<(string, T)>) {
    forall i, j :: 0 <= i < j < |r| ==> r[i].0 != r[j].0
  }

  function Get<T>(r: seq<(string, T)>, k: string): Option<T> {
    if r == [] then None else if r[0].0 == k then Some(r[0].1) else Get(r[1..], k)
  }

  /** `obj[k] = v`: an existing key keeps its position and takes the new value; a new key is
      appended. */
  function Assign<T>(r: seq<(string, T)>, k: string, v: T): seq<(string, T)> {
    if r == [] then [(k, v)]
    else if r[0].0 == k then [(k, v)] + r[1..]
    else [r[0]] + Assign(r[1..], k, v)
  }

  lemma AssignFacts<T>(r: seq<(string, T)>, k: string, v: T)
    ensures KeysOf(Assign(r, k, v)) == if k in KeysOf(r) then KeysOf(r) else KeysOf(r) + [k]
    ensures forall k' :: Get(Assign(r, k, v), k') == if k' == k then Some(v) else Get(r, k')
    ensures DistinctKeys(r) ==> DistinctKeys(Assign(r, k, v))
  {
    AssignKeys(r, k, v);
    forall k' ensures Get(Assign(r, k, v), k') == if k' == k then Some(v) else Get(r, k') {
      AssignGet(r, k, v, k');
    }
    if DistinctKeys(r) {
      var a := Assign(r, k, v);
      forall i, j | 0 <= i < j < |a| ensures a[i].0 != a[j].0 {
        assert a[i].0 == KeysOf(a)[i] && a[j].0 == KeysOf(a)[j];
        if j < |r| {
          assert KeysOf(r)[i] == r[i].0 && KeysOf(r)[j] == r[j].0;
        } else {
          assert KeysOf(a)[j] == k && k !in KeysOf(r);
          assert KeysOf(r)[i] in KeysOf(r);
        }
      }
    }
  }

  lemma {:induction false} AssignKeys<T>(r: seq<(string, T)>, k: string, v: T)
    ensures KeysOf(Assign(r, k, v)) == if k in KeysOf(r) then KeysOf(r) else KeysOf(r) + [k]
    decreases |r|
  {
    if r != [] {
      var a := Assign(r, k, v);
      assert KeysOf(r) == [r[0].0] + KeysOf(r[1..]);
      assert KeysOf(a) == [a[0].0] + KeysOf(a[1..]);
      if r[0].0 == k {
        assert a[1..] == r[1..];
      } else {
        AssignKeys(r[1..], k, v);
        assert a[1..] == Assign(r[1..], k, v);
        assert k in KeysOf(r) <==> k in KeysOf(r[1..]);
      }
    }
  }

  lemma {:induction false} AssignGet<T>(r: seq<(string, T)>, k: string, v: T, k': string)
    ensures Get(Assign(r, k, v), k') == if k' == k then Some(v) else Get(r, k')
    decreases |r|
  {
    if r != [] && r[0].0 != k {
      var a := Assign(r, k, v);
      assert a[0] == r[0] && a[1..] == Assign(r[1..], k, v);
      AssignGet(r[1..], k, v, k');
    } else if r != [] {
      assert Assign(r, k, v)[1..] == r[1..];
    }
  }

  /** A sequence of assignments, applied in order. */
  function AssignAll<T>(r: seq<(string, T)>, xs: seq<(string, T)>): seq<(string, T)>
    decreases |xs|
  {
    if xs == [] then r else
      var last := xs[|xs| - 1];
      Assign(AssignAll(r, xs[..|xs| - 1]), last.0, last.1)
  }

  lemma {:induction false} AssignAllAppend<T>(r: seq<(string, T)>, xs: seq<(string, T)>, ys: seq<(string, T)>)
    ensures AssignAll(r, xs + ys) == AssignAll(AssignAll(r, xs), ys)
    decreases |ys|
  {
    if ys == [] {
      assert xs + ys == xs;
    } else {
      assert (xs + ys)[..|xs + ys| - 1] == xs + ys[..|ys| - 1];
      AssignAllAppend(r, xs, ys[..|ys| - 1]);
    }
  }

  /** The distinct strings of `s` in order of first occurrence. */
  function FirstOccurrences(s: seq<string>): (d: seq<string>)
    ensures forall x :: x in d <==> x in s
    decreases |s|
  {
    if s == [] then []
    else
      var d := FirstOccurrences(s[..|s| - 1]);
      assert forall x :: x in s <==> x in s[..|s| - 1] || x == s[|s| - 1];
      if s[|s| - 1] in d then d else d + [s[|s| - 1]]
  }

  /** The value of the last pair with key `k`. */
  function LastWith<T>(xs: seq<(string, T)>, k: string): Option<T>
    decreases |xs|
  {
    if xs == [] then None
    else if xs[|xs| - 1].0 == k then Some(xs[|xs| - 1].1)
    else LastWith(xs[..|xs| - 1], k)
  }

  /** Assigning a list of pairs into an empty object: the keys are the distinct keys in the
      order each was first written, the value of a key is the one written last, and no key
      appears twice. */
  lemma {:induction false} AssignAllFromEmpty<T>(xs: seq<(string, T)>)
    ensures KeysOf(AssignAll([], xs)) == FirstOccurrences(KeysOf(xs))
    ensures forall k :: Get(AssignAll([], xs), k) == LastWith(xs, k)
    ensures DistinctKeys(AssignAll([], xs))
    decreases |xs|
  {
    if xs != [] {
      var init := xs[..|xs| - 1];
      var last := xs[|xs| - 1];
      var r := AssignAll([], init);
      var ks := KeysOf(xs);
      AssignAllFromEmpty(init);
      AssignFacts(r, last.0, last.1);
      assert AssignAll([], xs) == Assign(r, last.0, last.1);
      assert ks[..|ks| - 1] == KeysOf(init);
      assert ks[|ks| - 1] == last.0;
      assert FirstOccurrences(ks) == if last.0 in KeysOf(r) then KeysOf(r) else KeysOf(r) + [last.0];
    }
  }
}
