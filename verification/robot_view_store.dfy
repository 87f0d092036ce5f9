/** The tag-view store: the visited views and the permitted routes (both
    deduplicated by path) and the names of the cached views. */
module RobotViewStore {
  import opened Common

  /** A tag view: its path and full path (absent when unset), its name
      (absent when it is not a string), and the `affix` and `keepAlive`
      flags of its meta. */
  datatype View = View(path: Option<string>, fullPath: Option<string>, name: Option<string>, affix: bool, keepAlive: bool)

  datatype Views = Views(visited: seq<View>, cached: seq<string>, perm: seq<View>)

  /** The path of a view: the key the visited and permitted lists are
      searched by. */
  function PathOf(v: View): Option<string>
  {
    v.path
  }

  /** No two views share a path. */
  predicate UniquePaths(views: seq<View>)
  {
    forall i, j :: 0 <= i < j < |views| ==> views[i].path != views[j].path
  }

  /** `addVisitedView` and `addPermRouters`: when a view with the same path
      exists, nothing is appended and that first match is replaced by the
      new view only if the full paths differ; otherwise the view is
      appended. */
  function AddByPath(views: seq<View>, view: View): (r: seq<View>)
    ensures (forall i :: 0 <= i < |views| ==> views[i].path != view.path) ==> r == views + [view]
    ensures (exists i :: 0 <= i < |views| && views[i].path == view.path) ==> |r| == |views|
    ensures forall i :: 0 <= i < |views| && views[i].path == view.path && (forall j :: 0 <= j < i ==> views[j].path != view.path) ==>
      r[i] == (if views[i].fullPath != view.fullPath then view else views[i])
    ensures forall i :: 0 <= i < |views| && (views[i].path != view.path || exists j :: 0 <= j < i && views[j].path == view.path) ==>
      r[i] == views[i]
    ensures UniquePaths(views) ==> UniquePaths(r)
  {
    match FirstIndex(views, PathOf, view.path)
    case None => views + [view]
    case Some(i) => if views[i].fullPath != view.fullPath then views[i := view] else views
  }

  /** Adding the same view twice is adding it once, and afterwards a view
      with its path and full path is present. */
  lemma AddByPathIdempotent(views: seq<View>, view: View)
    ensures AddByPath(AddByPath(views, view), view) == AddByPath(views, view)
    ensures exists i :: 0 <= i < |AddByPath(views, view)| && AddByPath(views, view)[i].path == view.path
                                                      && AddByPath(views, view)[i].fullPath == view.fullPath
  {
    var once := AddByPath(views, view);
    match FirstIndex(views, PathOf, view.path)
    case None =>
      assert once[|views|] == view;
      assert FirstIndex(once, PathOf, view.path) == Some(|views|);
    case Some(i) =>
      assert once[i].fullPath == view.fullPath;
      assert FirstIndex(once, PathOf, view.path) == Some(i);
  }

  /** `delVisitedView` and `delPermRouters`: removes the first view with
      the path; the others keep their order. */
  function DelByPath(views: seq<View>, view: View): (r: seq<View>)
    ensures (forall i :: 0 <= i < |views| ==> views[i].path != view.path) ==> r == views
    ensures forall i :: 0 <= i < |views| && views[i].path == view.path && (forall j :: 0 <= j < i ==> views[j].path != view.path) ==>
      r == views[..i] + views[i + 1..]
    ensures UniquePaths(views) ==> forall i :: 0 <= i < |r| ==> r[i].path != view.path
  {
    match FirstIndex(views, PathOf, view.path)
    case None => views
    case Some(i) => views[..i] + views[i + 1..]
  }

  /** Adding a view with a new path and then deleting it gives back the
      list. */
  lemma AddThenDelete(views: seq<View>, view: View)
    requires forall i :: 0 <= i < |views| ==> views[i].path != view.path
    ensures DelByPath(AddByPath(views, view), view) == views
  {
    var added := AddByPath(views, view);
    assert added == views + [view];
    assert added[|views|] == view;
    var k := FirstIndex(added, PathOf, view.path);
    assert k.Some?;
    assert !(k.value < |views|);
    assert FirstIndex(added, PathOf, view.path) == Some(|views|);
    assert added[..|views|] == views;
  }

  /** `addCachedView`: a string name not yet cached is appended when the
      view is kept alive; anything else changes nothing. */
  function AddCachedView(cached: seq<string>, view: View): (r: seq<string>)
    ensures view.name.Some? && view.name.value !in cached && view.keepAlive ==> r == cached + [view.name.value]
    ensures !(view.name.Some? && view.name.value !in cached && view.keepAlive) ==> r == cached
  {
    if view.name.None? || view.name.value in cached then cached
    else if view.keepAlive then cached + [view.name.value]
    else cached
  }

  /** A cached name is its own key (`indexOf`). */
  function NameOf(name: string): string
  {
    name
  }

  /** No name is cached twice. */
  predicate Distinct(names: seq<string>)
  {
    forall i, j :: 0 <= i < j < |names| ==> names[i] != names[j]
  }

  /** `delCachedView`: removes the first occurrence of a string name, if
      present; otherwise nothing changes. */
  function DelCachedView(cached: seq<string>, view: View): (r: seq<string>)
    ensures view.name.None? || view.name.value !in cached ==> r == cached
    ensures view.name.Some? && view.name.value in cached ==>
      |r| == |cached| - 1 && multiset(r) == multiset(cached) - multiset{view.name.value}
    ensures Distinct(cached) && view.name.Some? ==> view.name.value !in r
  {
    if view.name.None? then cached
    else
      match FirstIndex(cached, NameOf, view.name.value)
      case None => cached
      case Some(i) =>
        assert cached == cached[..i] + [cached[i]] + cached[i + 1..];
        cached[..i] + cached[i + 1..]
  }

  /** Adding preserves distinctness, and deleting what was just added gives
      back the list. */
  lemma CachedAddThenDelete(cached: seq<string>, view: View)
    ensures Distinct(cached) ==> Distinct(AddCachedView(cached, view))
    ensures view.name.Some? && view.name.value !in cached ==> DelCachedView(AddCachedView(cached, view), view) == cached
  {
    if view.name.Some? && view.name.value !in cached && view.keepAlive {
      var added := cached + [view.name.value];
      FirstIndexAt(added, NameOf, view.name.value, |cached|);
      assert added[..|cached|] == cached;
    }
  }

  /** `delOthersVisitedViews`: keeps exactly the affix views and the views
      with the given path, in their order and with their multiplicity. */
  function DelOthersVisited(visited: seq<View>, view: View): (r: seq<View>)
    ensures forall v :: v in r <==> v in visited && (v.affix || v.path == view.path)
    ensures Subsequence(r, visited) && |r| <= |visited|
    ensures forall v :: multiset(r)[v] == if v.affix || v.path == view.path then multiset(visited)[v] else 0
    decreases |visited|
  {
    if visited == [] then
      assert PicksInOrder([], [], visited);
      []
    else
      var rest := DelOthersVisited(visited[1..], view);
      assert multiset(visited) == multiset([visited[0]]) + multiset(visited[1..]) by {
        assert visited == [visited[0]] + visited[1..];
      }
      SubsequenceCons(rest, visited[1..], visited[0]);
      assert [visited[0]] + visited[1..] == visited;
      if visited[0].affix || visited[0].path == view.path then [visited[0]] + rest else rest
  }

  /** `delAllVisitedViews`: keeps exactly the affix views, in their order
      and with their multiplicity. */
  function DelAllVisited(visited: seq<View>): (r: seq<View>)
    ensures forall v :: v in r <==> v in visited && v.affix
    ensures Subsequence(r, visited) && |r| <= |visited|
    ensures forall v :: multiset(r)[v] == if v.affix then multiset(visited)[v] else 0
    decreases |visited|
  {
    if visited == [] then
      assert PicksInOrder([], [], visited);
      []
    else
      var rest := DelAllVisited(visited[1..]);
      assert multiset(visited) == multiset([visited[0]]) + multiset(visited[1..]) by {
        assert visited == [visited[0]] + visited[1..];
      }
      SubsequenceCons(rest, visited[1..], visited[0]);
      assert [visited[0]] + visited[1..] == visited;
      if visited[0].affix then [visited[0]] + rest else rest
  }

  /** Closing the others and then all is closing all; closing the others
      twice is closing them once. */
  lemma {:induction false} DelOthersThenAll(visited: seq<View>, view: View)
    ensures DelAllVisited(DelOthersVisited(visited, view)) == DelAllVisited(visited)
    ensures DelOthersVisited(DelOthersVisited(visited, view), view) == DelOthersVisited(visited, view)
    decreases |visited|
  {
    if visited != [] {
      DelOthersThenAll(visited[1..], view);
      var rest := DelOthersVisited(visited[1..], view);
      if visited[0].affix || visited[0].path == view.path {
        assert ([visited[0]] + rest)[1..] == rest;
      }
    }
  }

  /** `delOthersCachedViews`: a string name leaves just that name if it
      was cached and nothing otherwise; a non-string name changes nothing. */
  function DelOthersCached(cached: seq<string>, view: View): (r: seq<string>)
    ensures view.name.None? ==> r == cached
    ensures view.name.Some? ==> r == (if view.name.value in cached then [view.name.value] else [])
  {
    if view.name.None? then cached
    else
      match FirstIndex(cached, NameOf, view.name.value)
      case None => []
      case Some(i) => cached[i..i + 1]
  }

  /** The store operations: each touches its own list only; the delete-all
      operations on the cached and permitted lists empty them. */
  function Apply(s: Views, op: Op): (r: Views)
    ensures op.AddVisited? || op.DelVisited? || op.DelOthersVisitedOp? || op.DelAllVisitedOp? ==>
      r.cached == s.cached && r.perm == s.perm
    ensures op.AddCached? || op.DelCached? || op.DelOthersCachedOp? || op.DelAllCached? ==>
      r.visited == s.visited && r.perm == s.perm
    ensures op.AddPerm? || op.DelPerm? || op.DelAllPerm? ==>
      r.visited == s.visited && r.cached == s.cached
    ensures op.DelAllCached? ==> r.cached == []
    ensures op.DelAllPerm? ==> r.perm == []
    ensures op.DelAllVisitedOp? ==> forall v :: v in r.visited ==> v.affix
  {
    match op
    case AddVisited(v) => s.(visited := AddByPath(s.visited, v))
    case AddPerm(v) => s.(perm := AddByPath(s.perm, v))
    case AddCached(v) => s.(cached := AddCachedView(s.cached, v))
    case DelVisited(v) => s.(visited := DelByPath(s.visited, v))
    case DelPerm(v) => s.(perm := DelByPath(s.perm, v))
    case DelCached(v) => s.(cached := DelCachedView(s.cached, v))
    case DelOthersVisitedOp(v) => s.(visited := DelOthersVisited(s.visited, v))
    case DelOthersCachedOp(v) => s.(cached := DelOthersCached(s.cached, v))
    case DelAllVisitedOp => s.(visited := DelAllVisited(s.visited))
    case DelAllCached => s.(cached := [])
    case DelAllPerm => s.(perm := [])
  }

  datatype Op =
    | AddVisited(view: View)
    | AddPerm(view: View)
    | AddCached(view: View)
    | DelVisited(view: View)
    | DelPerm(view: View)
    | DelCached(view: View)
    | DelOthersVisitedOp(view: View)
    | DelOthersCachedOp(view: View)
    | DelAllVisitedOp
    | DelAllCached
    | DelAllPerm

  /** Every store operation keeps the visited and permitted lists free of
      duplicate paths and the cached list free of duplicate names. */
  lemma ApplyKeepsUnique(s: Views, op: Op)
    requires UniquePaths(s.visited) && UniquePaths(s.perm) && Distinct(s.cached)
    ensures var r := Apply(s, op); UniquePaths(r.visited) && UniquePaths(r.perm) && Distinct(r.cached)
  {
    var r := Apply(s, op);
    match op
    case AddCached(v) => CachedAddThenDelete(s.cached, v);
    case DelVisited(v) => SliceUnique(s.visited, v);
    case DelPerm(v) => SliceUnique(s.perm, v);
    case DelCached(v) => DelCachedDistinct(s.cached, v);
    case DelOthersVisitedOp(v) => FilterUnique(s.visited, v);
    case DelAllVisitedOp => AllUnique(s.visited);
    case _ =>
  }

  lemma DelCachedDistinct(cached: seq<string>, view: View)
    requires Distinct(cached)
    ensures Distinct(DelCachedView(cached, view))
  {
    var r := DelCachedView(cached, view);
    if view.name.Some? && view.name.value in cached {
      var i := FirstIndex(cached, NameOf, view.name.value).value;
      assert r == cached[..i] + cached[i + 1..];
      assert forall a :: 0 <= a < |r| ==> r[a] == (if a < i then cached[a] else cached[a + 1]);
    }
  }

  lemma SliceUnique(views: seq<View>, view: View)
    requires UniquePaths(views)
    ensures UniquePaths(DelByPath(views, view))
  {
    var r := DelByPath(views, view);
    if FirstIndex(views, PathOf, view.path).Some? {
      var i := FirstIndex(views, PathOf, view.path).value;
      assert forall a :: 0 <= a < |r| ==> r[a] == (if a < i then views[a] else views[a + 1]);
    }
  }

  lemma {:induction false} FilterUnique(views: seq<View>, view: View)
    requires UniquePaths(views)
    ensures UniquePaths(DelOthersVisited(views, view))
    decreases |views|
  {
    if views != [] {
      FilterUnique(views[1..], view);
      var rest := DelOthersVisited(views[1..], view);
      assert forall v :: v in rest ==> v in views[1..];
      assert forall v :: v in views[1..] ==> v.path != views[0].path;
    }
  }

  lemma {:induction false} AllUnique(views: seq<View>)
    requires UniquePaths(views)
    ensures UniquePaths(DelAllVisited(views))
    decreases |views|
  {
    if views != [] {
      AllUnique(views[1..]);
      var rest := DelAllVisited(views[1..]);
      assert forall v :: v in rest ==> v in views[1..];
      assert forall v :: v in views[1..] ==> v.path != views[0].path;
    }
  }
}
