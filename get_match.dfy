/** `getMatch`: first-match-wins over an ordered route table, with parameters read from the
    capture groups of the matching route's pattern. */
module GetMatch {
  import opened Js

  /** The result array of `path.match(regex)`, or `None` for `null`. Index 0 is the whole
      match; a group that did not take part is `None` (`undefined`). */
  type Matcher = string -> Option<seq<Option<string>>>

  /** The `{regex, keys, handler}` record `getMatch` destructures from each table entry. */
  datatype Route<H> = Route(regex: Matcher, keys: seq<string>, handler: H)

  /** `{handler, params}`; `handler` is `None` when it stayed `undefined`. */
  datatype Match<H> = Match(handler: Option<H>, params: map<string, string>)

  /** The message of the `TypeError` thrown by `undefined.replace(...)` (V8's wording). */
  const UndefinedGroupMessage := "Cannot read properties of undefined (reading 'replace')"

  /** `match[i]`, where an index past the end reads as `undefined`. */
  function Group(groups: seq<Option<string>>, i: nat): Option<string> {
    if i < |groups| then groups[i] else None
  }

  /** `group.replace(`${name}:`, "")`: the first occurrence of the prefix is removed. */
  function Strip(name: string, group: string): string {
    ReplaceFirst(group, name + ":", "")
  }

  /** Index of the first route, in table order, whose pattern matches `path`. */
  function FirstMatching<H>(routes: seq<(string, Route<H>)>, path: string): (r: Option<nat>)
    ensures r.Some? ==>
              && r.value < |routes| && routes[r.value].1.regex(path).Some?
              && forall j :: 0 <= j < r.value ==> routes[j].1.regex(path).None?
    ensures r.None? ==> forall j :: 0 <= j < |routes| ==> routes[j].1.regex(path).None?
  {
    if routes == [] then None
    else if routes[0].1.regex(path).Some? then Some(0)
    else
      match FirstMatching(routes[1..], path)
      case None => None
      case Some(i) => Some(i + 1)
  }

  /** The `keys.forEach` that writes `params[name]` for every key in order; an absent group
      makes `.replace` throw. */
  function BindParams(keys: seq<string>, groups: seq<Option<string>>): Outcome<map<string, string>>
    decreases |keys|
  {
    if keys == [] then Ok(map[])
    else
      var params :- BindParams(keys[..|keys| - 1], groups);
      var name := keys[|keys| - 1];
      match Group(groups, |keys|)
      case None => ThrowOther(Str(UndefinedGroupMessage))
      case Some(g) => Ok(params[name := Strip(name, g)])
  }

  /** What `getMatch(map, path)` returns or throws. */
  function Matching<H>(routes: seq<(string, Route<H>)>, path: string): (r: Outcome<Match<H>>)
    ensures (forall j :: 0 <= j < |routes| ==> routes[j].1.regex(path).None?) <==> r == Ok(Match(None, map[]))
    ensures r.Ok? && r.value.handler.Some? ==>
              && FirstMatching(routes, path).Some?
              && r.value.handler.value == routes[FirstMatching(routes, path).value].1.handler
  {
    match FirstMatching(routes, path)
    case None => Ok(Match(None, map[]))
    case Some(i) =>
      var route := routes[i].1;
      var params :- BindParams(route.keys, route.regex(path).value);
      Ok(Match(Some(route.handler), params))
  }

  /** Binding succeeds exactly when capture groups 1 .. |keys| are all present; otherwise it
      throws the `TypeError` of `undefined.replace`. */
  lemma {:induction false} BindParamsSucceeds(keys: seq<string>, groups: seq<Option<string>>)
    ensures BindParams(keys, groups).Ok? <==> forall j :: 1 <= j <= |keys| ==> Group(groups, j).Some?
    ensures BindParams(keys, groups).IsFailure() ==>
              BindParams(keys, groups) == ThrowOther(Str(UndefinedGroupMessage))
    decreases |keys|
  {
    if keys != [] {
      BindParamsSucceeds(keys[..|keys| - 1], groups);
    }
  }

  /** The parameter names are exactly the route's keys: nothing from another route. */
  lemma {:induction false} BindParamsKeys(keys: seq<string>, groups: seq<Option<string>>)
    requires BindParams(keys, groups).Ok?
    ensures BindParams(keys, groups).value.Keys == set k | k in keys
    decreases |keys|
  {
    if keys != [] {
      var init := keys[..|keys| - 1];
      BindParamsKeys(init, groups);
      assert forall k :: k in keys <==> k in init || k == keys[|keys| - 1];
    }
  }

  /** Key `j` holds capture group `j + 1` with the first "<name>:" removed; when a name occurs
      more than once, its LAST index wins. */
  lemma {:induction false} BindParamsValues(keys: seq<string>, groups: seq<Option<string>>, j: nat)
    requires BindParams(keys, groups).Ok?
    requires j < |keys|
    requires forall j' :: j < j' < |keys| ==> keys[j'] != keys[j]
    ensures Group(groups, j + 1).Some? && keys[j] in BindParams(keys, groups).value
    ensures BindParams(keys, groups).value[keys[j]] == Strip(keys[j], Group(groups, j + 1).value)
    decreases |keys|
  {
    var n := |keys| - 1;
    BindParamsSucceeds(keys, groups);
    if j < n {
      var init := keys[..n];
      assert forall j' :: j < j' < |init| ==> init[j'] == keys[j'];
      BindParamsValues(init, groups, j);
    }
  }

  /** First match wins: once a route matches, whatever follows it in the table is never
      consulted. */
  lemma {:induction false} FirstMatchWins<H>(routes: seq<(string, Route<H>)>, more: seq<(string, Route<H>)>, path: string)
    requires FirstMatching(routes, path).Some?
    ensures FirstMatching(routes + more, path) == FirstMatching(routes, path)
    ensures Matching(routes + more, path) == Matching(routes, path)
  {
    if routes[0].1.regex(path).None? {
      assert (routes + more)[1..] == routes[1..] + more;
      FirstMatchWins(routes[1..], more, path);
    }
    var i := FirstMatching(routes, path).value;
    assert (routes + more)[i] == routes[i];
  }

  /** A successful match returns the matched route's handler and params named by exactly that
      route's keys, each bound as `BindParamsValues` states. */
  lemma MatchedRoute<H>(routes: seq<(string, Route<H>)>, path: string)
    requires Matching(routes, path).Ok?
    requires FirstMatching(routes, path).Some?
    ensures var i := FirstMatching(routes, path).value;
      var route := routes[i].1;
      && Matching(routes, path).value.handler == Some(route.handler)
      && BindParams(route.keys, route.regex(path).value) == Ok(Matching(routes, path).value.params)
      && Matching(routes, path).value.params.Keys == set k | k in route.keys
  {
    var route := routes[FirstMatching(routes, path).value].1;
    BindParamsKeys(route.keys, route.regex(path).value);
  }

  /** `getMatch`: the `for ... in` loop with `break`, and the inner `forEach` over the keys. */
  method GetMatch<H>(routes: seq<(string, Route<H>)>, path: string) returns (r: Outcome<Match<H>>)
    ensures r == Matching(routes, path)
  {
    var handler: Option<H> := None;
    var params: map<string, string> := map[];
    var i := 0;
    while i < |routes|
      invariant 0 <= i <= |routes|
      invariant forall j :: 0 <= j < i ==> routes[j].1.regex(path).None?
      invariant handler == None && params == map[]
    {
      var route := routes[i].1;
      var m := route.regex(path);
      if m.Some? {
        assert FirstMatching(routes, path) == Some(i);
        handler := Some(route.handler);
        var k := 0;
        while k < |route.keys|
          invariant 0 <= k <= |route.keys|
          invariant BindParams(route.keys[..k], m.value) == Ok(params)
        {
          var name := route.keys[k];
          assert route.keys[..k + 1][..k] == route.keys[..k];
          if k + 1 >= |m.value| || m.value[k + 1].None? {
            assert Group(m.value, k + 1).None?;
            BindParamsSucceeds(route.keys, m.value);
            assert BindParams(route.keys, m.value) == ThrowOther(Str(UndefinedGroupMessage));
            return ThrowOther(Str(UndefinedGroupMessage));
          }
          params := params[name := Strip(name, m.value[k + 1].value)];
          k := k + 1;
        }
        assert route.keys[..k] == route.keys;
        break;
      }
      i := i + 1;
    }
    return Ok(Match(handler, params));
  }
}
