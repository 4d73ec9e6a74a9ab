/** `createRouterMap`: a depth-first walk over a nested router object that writes every
    function-valued leaf into one shared JavaScript object under its full path. */
module RouterMap {
  import opened Js
  import opened OrderedMap

  /** A router value as `for ... in` sees it: a function (a leaf) or an object whose own
      enumerable entries are listed in iteration order. A number, boolean, null or undefined
      iterates nothing and is `Node([])`. A non-empty string is not represented: `for ... in`
      enumerates its indices and the walk never ends. */
  datatype Tree<H> = Leaf(handler: H) | Node(entries: seq<(string, Tree<H>)>)

  // ---------------------------------------------------------------------------------------
  // The walk

  /** The `(fullPath, handler)` writes of `buildMap(value, path)` over an object's entries, in
      the order they happen. */
  function EntryWrites<H>(es: seq<(string, Tree<H>)>, path: string): seq<(string, H)>
    decreases es
  {
    if es == [] then []
    else EntryWrites(es[..|es| - 1], path) + ValueWrites(es[|es| - 1], path)
  }

  function ValueWrites<H>(e: (string, Tree<H>), path: string): seq<(string, H)>
    decreases e
  {
    var fullPath := path + "/" + e.0;
    match e.1
    case Leaf(h) => [(fullPath, h)]
    case Node(children) => EntryWrites(children, fullPath)
  }

  /** Everything written for a tree at `path`: a function at the root iterates nothing. */
  function Writes<H>(t: Tree<H>, path: string): seq<(string, H)> {
    if t.Node? then EntryWrites(t.entries, path) else []
  }

  /** The object `createRouterMap(router)` returns. */
  function RouterMapOf<H>(t: Tree<H>): seq<(string, H)> {
    AssignAll([], Writes(t, ""))
  }

  // ---------------------------------------------------------------------------------------
  // The leaves, independently of the walk

  /** The function leaves below an object's entries, in visit order, each with the keys on
      the way from the entries' owner down to it. */
  function EntryLeaves<H>(es: seq<(string, Tree<H>)>): (r: seq<(seq<string>, H)>)
    ensures forall i :: 0 <= i < |r| ==> |r[i].0| >= 1
    decreases es
  {
    if es == [] then []
    else EntryLeaves(es[..|es| - 1]) + ValueLeaves(es[|es| - 1])
  }

  function ValueLeaves<H>(e: (string, Tree<H>)): (r: seq<(seq<string>, H)>)
    ensures forall i :: 0 <= i < |r| ==> |r[i].0| >= 1 && r[i].0[0] == e.0
    decreases e
  {
    match e.1
    case Leaf(h) => [([e.0], h)]
    case Node(children) => Under(e.0, EntryLeaves(children))
  }

  /** The same leaves, one level deeper under `k`. */
  function Under<H>(k: string, ls: seq<(seq<string>, H)>): (r: seq<(seq<string>, H)>)
    ensures |r| == |ls|
    ensures forall i :: 0 <= i < |ls| ==> r[i] == ([k] + ls[i].0, ls[i].1)
  {
    seq(|ls|, i requires 0 <= i < |ls| => ([k] + ls[i].0, ls[i].1))
  }

  /** Every function leaf of a router with its root-to-leaf keys; a function at the root has
      no keys to walk. */
  function LeafPaths<H>(t: Tree<H>): seq<(seq<string>, H)> {
    if t.Node? then EntryLeaves(t.entries) else []
  }

  /** The walk writes the leaves in visit order, each keyed `path`, "/" and its keys joined
      by "/". */
  lemma {:induction false} EntryWritesAreLeaves<H>(es: seq<(string, Tree<H>)>, path: string)
    ensures |EntryWrites(es, path)| == |EntryLeaves(es)|
    ensures forall i :: 0 <= i < |EntryLeaves(es)| ==>
      EntryWrites(es, path)[i] == (path + "/" + Join(EntryLeaves(es)[i].0, "/"), EntryLeaves(es)[i].1)
    decreases es
  {
    if es != [] {
      var init, last := es[..|es| - 1], es[|es| - 1];
      EntryWritesAreLeaves(init, path);
      ValueWritesAreLeaves(last, path);
      var a: seq<(string, H)>, b: seq<(string, H)> := EntryWrites(init, path), ValueWrites(last, path);
      var la: seq<(seq<string>, H)>, lb: seq<(seq<string>, H)> := EntryLeaves(init), ValueLeaves(last);
      forall i | 0 <= i < |la| + |lb|
        ensures (a + b)[i] == (path + "/" + Join((la + lb)[i].0, "/"), (la + lb)[i].1)
      {
        if i >= |la| {
          assert (a + b)[i] == b[i - |la|] && (la + lb)[i] == lb[i - |la|];
        }
      }
    }
  }

  lemma {:induction false} ValueWritesAreLeaves<H>(e: (string, Tree<H>), path: string)
    ensures |ValueWrites(e, path)| == |ValueLeaves(e)|
    ensures forall i :: 0 <= i < |ValueLeaves(e)| ==>
      ValueWrites(e, path)[i] == (path + "/" + Join(ValueLeaves(e)[i].0, "/"), ValueLeaves(e)[i].1)
    decreases e
  {
    var fullPath := path + "/" + e.0;
    if e.1.Node? {
      var children := e.1.entries;
      EntryWritesAreLeaves(children, fullPath);
      var ls := EntryLeaves(children);
      forall i | 0 <= i < |ls|
        ensures EntryWrites(children, fullPath)[i].0 == path + "/" + Join([e.0] + ls[i].0, "/")
      {
        JoinCons(e.0, ls[i].0, "/");
        assert fullPath + "/" + Join(ls[i].0, "/") == path + "/" + (e.0 + "/" + Join(ls[i].0, "/"));
      }
    }
  }

  /** `createRouterMap`'s writes, in order: every function leaf under "/" followed by its
      root-to-leaf keys joined by "/". */
  lemma WritesAreLeafPaths<H>(t: Tree<H>)
    ensures |Writes(t, "")| == |LeafPaths(t)|
    ensures forall i :: 0 <= i < |LeafPaths(t)| ==>
      Writes(t, "")[i] == ("/" + Join(LeafPaths(t)[i].0, "/"), LeafPaths(t)[i].1)
  {
    if t.Node? {
      EntryWritesAreLeaves(t.entries, "");
      assert forall x: string :: "" + "/" + x == "/" + x;
    }
  }

  /** Every write below `path` is keyed `path + "/" + ...`, so at the root every key starts
      with "/". */
  lemma {:induction false} WritesUnderPath<H>(es: seq<(string, Tree<H>)>, path: string)
    ensures forall i :: 0 <= i < |EntryWrites(es, path)| ==>
      |EntryWrites(es, path)[i].0| > |path| && EntryWrites(es, path)[i].0[..|path| + 1] == path + "/"
    decreases es
  {
    if es != [] {
      WritesUnderPath(es[..|es| - 1], path);
      ValueWritesUnderPath(es[|es| - 1], path);
    }
  }

  lemma {:induction false} ValueWritesUnderPath<H>(e: (string, Tree<H>), path: string)
    ensures forall i :: 0 <= i < |ValueWrites(e, path)| ==>
      |ValueWrites(e, path)[i].0| > |path| && ValueWrites(e, path)[i].0[..|path| + 1] == path + "/"
    decreases e
  {
    var fullPath := path + "/" + e.0;
    if e.1.Node? {
      WritesUnderPath(e.1.entries, fullPath);
      forall i | 0 <= i < |EntryWrites(e.1.entries, fullPath)|
        ensures EntryWrites(e.1.entries, fullPath)[i].0[..|path| + 1] == path + "/"
      {
        var w := EntryWrites(e.1.entries, fullPath)[i].0;
        assert w[..|fullPath| + 1] == fullPath + "/";
        assert w[..|path| + 1] == fullPath[..|path| + 1];
      }
    }
  }

  /** Keys of the router map: distinct, each starting with "/", in the order the walk first
      reached them; each key holds the handler of the LAST leaf visited with that path. */
  lemma RouterMapShape<H>(t: Tree<H>)
    ensures DistinctKeys(RouterMapOf(t))
    ensures KeysOf(RouterMapOf(t)) == FirstOccurrences(KeysOf(Writes(t, "")))
    ensures forall k :: Get(RouterMapOf(t), k) == LastWith(Writes(t, ""), k)
    ensures forall i :: 0 <= i < |RouterMapOf(t)| ==> |RouterMapOf(t)[i].0| >= 1 && RouterMapOf(t)[i].0[0] == '/'
  {
    AssignAllFromEmpty(Writes(t, ""));
    RouterMapKeysRooted(t);
  }

  /** Every key of the router map starts with "/". */
  lemma RouterMapKeysRooted<H>(t: Tree<H>)
    requires KeysOf(RouterMapOf(t)) == FirstOccurrences(KeysOf(Writes(t, "")))
    ensures forall i :: 0 <= i < |RouterMapOf(t)| ==> |RouterMapOf(t)[i].0| >= 1 && RouterMapOf(t)[i].0[0] == '/'
  {
    var w := Writes(t, "");
    var m := RouterMapOf(t);
    if t.Node? {
      WritesUnderPath(t.entries, "");
    }
    assert forall j :: 0 <= j < |w| ==> |w[j].0| >= 1 && w[j].0[0] == '/' by {
      forall j | 0 <= j < |w| ensures |w[j].0| >= 1 && w[j].0[0] == '/' {
        assert w[j].0[..1] == "/";
      }
    }
    forall i | 0 <= i < |m| ensures |m[i].0| >= 1 && m[i].0[0] == '/' {
      assert m[i].0 == KeysOf(m)[i];
      assert m[i].0 in FirstOccurrences(KeysOf(w));
      var j :| 0 <= j < |w| && KeysOf(w)[j] == m[i].0;
      assert w[j].0 == KeysOf(w)[j];
    }
  }

  /** The shared `map` object that the recursive `buildMap` closure writes into. */
  class MapObject<H> {
    var entries: seq<(string, H)>

    constructor ()
      ensures entries == []
    {
      entries := [];
    }

    method Set(k: string, h: H)
      modifies this
      ensures entries == Assign(old(entries), k, h)
    {
      entries := Assign(entries, k, h);
    }
  }

  /** `buildMap(router, path)`: the `for ... in` loop; a function is stored, any other value is
      recursed into. */
  method BuildMap<H>(m: MapObject<H>, t: Tree<H>, path: string)
    modifies m
    ensures m.entries == AssignAll(old(m.entries), Writes(t, path))
    decreases t, 1
  {
    if t.Leaf? {
      return;
    }
    var es := t.entries;
    var i := 0;
    while i < |es|
      invariant 0 <= i <= |es|
      invariant m.entries == AssignAll(old(m.entries), EntryWrites(es[..i], path))
    {
      var key := es[i].0;
      var value := es[i].1;
      var fullPath := path + "/" + key;
      assert es[..i + 1][..i] == es[..i];
      ghost var before := m.entries;
      if value.Leaf? {
        m.Set(fullPath, value.handler);
        assert AssignAll(before, ValueWrites(es[i], path)) == m.entries;
      } else {
        assert es[i] in es;
        BuildMap(m, value, fullPath);
      }
      AssignAllAppend(old(m.entries), EntryWrites(es[..i], path), ValueWrites(es[i], path));
      i := i + 1;
    }
    assert es[..i] == es;
  }

  /** `createRouterMap(router)`. */
  method CreateRouterMap<H>(t: Tree<H>) returns (r: seq<(string, H)>)
    ensures r == RouterMapOf(t)
  {
    var m := new MapObject<H>();
    BuildMap(m, t, "");
    r := m.entries;
  }
}
