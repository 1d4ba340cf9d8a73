/** Filtering a stored tree: each node that fails removes itself through its parent. */
module Filtering {
  import opened Wrappers
  import opened ResourceTree

  datatype Filter = Filter(kind: Kind, including: bool, names: set<string>)

  predicate Passes(f: Filter, name: string) {
    (f.including && name in f.names) || (!f.including && name !in f.names)
  }

  /** A node stays iff it is above, at or below a node of the filter's kind that passes. */
  ghost predicate Survives(keys: set<Path>, rootName: string, p: Path, f: Filter) {
    match DepthOf(f.kind)
    case None => false
    case Some(d) =>
      if d == 0 then Passes(f, rootName)
      else if d <= |p| then Passes(f, p[d - 1])
      else exists q :: q in keys && |q| == d && Under(q, p) && Passes(f, q[d - 1])
  }

  /** The tree after filtering the subtree at `p`. */
  ghost function Pruned(t: map<Path, Node>, rootName: string, p: Path, f: Filter): map<Path, Node> {
    map q | q in t && (Under(q, p) ==> Survives(t.Keys, rootName, q, f)) :: t[q]
  }

  /** The same for the subtrees below `p` that hang on the names in `done`. */
  ghost function PrunedBelow(t: map<Path, Node>, rootName: string, p: Path, done: set<string>, f: Filter)
    : map<Path, Node>
  {
    map q | q in t && (BelowAny(q, p, done) ==> Survives(t.Keys, rootName, q, f)) :: t[q]
  }

  /** Filtering below one more child extends the set of children that are done. */
  lemma PruneOneMore(t: map<Path, Node>, rootName: string, p: Path, done: set<string>, k: string, f: Filter)
    requires k !in done
    requires DepthOf(f.kind).None? || |p| < DepthOf(f.kind).value
    ensures Pruned(PrunedBelow(t, rootName, p, done, f), rootName, Kid(p, k), f)
         == PrunedBelow(t, rootName, p, done + {k}, f)
  {
    var before := PrunedBelow(t, rootName, p, done, f);
    forall q | q in t && Under(q, Kid(p, k))
      ensures q in before && Survives(before.Keys, rootName, q, f) == Survives(t.Keys, rootName, q, f)
    {
      BelowKid(q, p, k);
      var d := DepthOf(f.kind);
      if d.Some? && d.value > |q| {
        forall r | r in t && Under(r, q)
          ensures r in before
        {
          assert r[|p|] == q[|p|];
        }
      }
    }
    forall q
      ensures BelowAny(q, p, done + {k}) <==> BelowAny(q, p, done) || Under(q, Kid(p, k))
    {
      BelowKid(q, p, k);
    }
  }

  lemma SurvivesThroughKid(keys: set<Path>, rootName: string, p: Path, f: Filter)
    requires Closed(keys)
    requires DepthOf(f.kind).None? || |p| < DepthOf(f.kind).value
    ensures Survives(keys, rootName, p, f)
       <==> exists k :: Kid(p, k) in keys && Survives(keys, rootName, Kid(p, k), f)
  {
    var d := DepthOf(f.kind);
    if Survives(keys, rootName, p, f) {
      var q :| q in keys && |q| == d.value && Under(q, p) && Passes(f, q[d.value - 1]);
      var k := q[|p|];
      assert q[..|p| + 1] == Kid(p, k);
      PrefixIn(keys, Kid(p, k), q);
      assert Kid(p, k) in keys && Survives(keys, rootName, Kid(p, k), f);
    }
    if k :| Kid(p, k) in keys && Survives(keys, rootName, Kid(p, k), f) {
      if d.value == |p| + 1 {
        assert Under(Kid(p, k), p);
      } else {
        var q :| q in keys && |q| == d.value && Under(q, Kid(p, k)) && Passes(f, q[d.value - 1]);
        assert Under(q, p) by { BelowKid(q, p, k); }
      }
    }
  }

  /** Once all children are done, the node itself stays iff a child is left. */
  lemma PruneAll(t: map<Path, Node>, rootName: string, p: Path, names: set<string>, f: Filter)
    requires Closed(t.Keys) && p in t && forall k :: k in names <==> Kid(p, k) in t
    requires DepthOf(f.kind).None? || |p| < DepthOf(f.kind).value
    ensures var all := PrunedBelow(t, rootName, p, names, f);
            && (Survives(t.Keys, rootName, p, f) <==> exists k :: Kid(p, k) in all)
            && Pruned(t, rootName, p, f) == if Survives(t.Keys, rootName, p, f) then all else Without(all, p)
  {
    var all := PrunedBelow(t, rootName, p, names, f);
    var ok := Survives(t.Keys, rootName, p, f);
    SurvivesThroughKid(t.Keys, rootName, p, f);
    forall k
      ensures Kid(p, k) in all <==> Kid(p, k) in t && Survives(t.Keys, rootName, Kid(p, k), f)
    {
      BelowKid(Kid(p, k), p, k);
    }
    forall q | q in t
      ensures q in Pruned(t, rootName, p, f) <==> q in all && (!ok ==> !Under(q, p))
    {
      StrictlyBelow(t.Keys, p, names, q);
      if !ok && Under(q, p) && q != p {
        SurvivorsHang(t.Keys, rootName, p, q, f);
      }
    }
  }

  lemma SurvivorsHang(keys: set<Path>, rootName: string, p: Path, q: Path, f: Filter)
    requires Closed(keys) && q in keys && Under(q, p)
    ensures Survives(keys, rootName, q, f) ==> Survives(keys, rootName, p, f)
  {
    var d := DepthOf(f.kind);
    if Survives(keys, rootName, q, f) && d != Some(0) {
      var r := q;
      if d.value <= |p| {
        return;
      } else if d.value <= |q| {
        r := q[..d.value];
        PrefixIn(keys, r, q);
      } else {
        r :| r in keys && |r| == d.value && Under(r, q) && Passes(f, r[d.value - 1]);
      }
      assert r in keys && |r| == d.value && Under(r, p) && Passes(f, r[d.value - 1]);
    }
  }

  lemma OnlyRoot(t: map<Path, Node>)
    requires Ok(t) && t[[]].children == map[]
    ensures t == map[[] := t[[]]]
  {
    OkIsClosed(t);
    assert Linked(t, []);
    forall q | q in t
      ensures q == []
    {
      if q != [] {
        assert q[..1] == Kid([], q[0]);
        PrefixIn(t.Keys, q[..1], q);
      }
    }
  }

  method RemoveFromParent(n: Node, ghost t: map<Path, Node>) returns (panicked: bool, ghost t': map<Path, Node>)
    requires Ok(t) && In(n, t)
    modifies t.Values`children
    ensures Ok(t')
    ensures panicked <==> n.path == []
    ensures t' == if panicked then t else Without(t, n.path)
  {
    assert Linked(t, n.path);
    panicked, t' := n.parent == null, t;
    if n.parent != null {
      ghost var up := n.path[..|n.path| - 1];
      assert Linked(t, up) && Kid(up, n.name) == n.path;
      var found;
      found, t' := n.parent.DeleteChildren(n, t);
    }
  }

  method DeepFiltrateResources(n: Node, f: Filter, ghost t: map<Path, Node>)
    returns (panicked: bool, ghost t': map<Path, Node>)
    requires Ok(t) && In(n, t)
    requires DepthOf(f.kind).None? || |n.path| <= DepthOf(f.kind).value
    modifies t.Values`children
    ensures Ok(t')
    ensures panicked <==> n.path == [] && !Survives(t.Keys, t[[]].name, [], f)
    ensures !panicked ==> t' == Pruned(t, t[[]].name, n.path, f)
    ensures panicked ==> t' == if f.kind == RootKind then t else map[[] := n]
    ensures panicked ==> In(n, t')
    decreases OBJECT_DEPTH - |n.path|
  {
    ghost var p := n.path;
    ghost var rootName := t[[]].name;
    assert Linked(t, p);
    OkIsClosed(t);
    if n.kind != f.kind {
      var todo := n.ListChildren();
      ghost var names := todo;
      assert DepthOf(f.kind).None? || |p| < DepthOf(f.kind).value;
      t' := t;
      assert t' == PrunedBelow(t, rootName, p, names - todo, f);
      while todo != {}
        invariant todo <= names && Ok(t') && In(n, t')
        invariant t' == PrunedBelow(t, rootName, p, names - todo, f)
      {
        var k :| k in todo;
        assert Kid(p, k) in t' by { assert Kid(p, k) in t; assert Kid(p, k)[|p|] == k; }
        assert Linked(t', p);
        PruneOneMore(t, rootName, p, names - todo, k, f);
        assert Linked(t', Kid(p, k));
        ghost var done := names - todo;
        var gone;
        gone, t' := DeepFiltrateResources(n.children[k], f, t');
        OneMoreDone(names, todo, k);
        todo := todo - {k};
      }
      assert names - todo == names;
      assert Linked(t', p);
      PruneAll(t, rootName, p, names, f);
      panicked, t' := false, t';
      if n.ListChildren() == {} {
        if p == [] {
          OnlyRoot(t');
        }
        panicked, t' := RemoveFromParent(n, t');
      }
    } else if !Passes(f, n.name) {
      panicked, t' := RemoveFromParent(n, t);
    } else {
      panicked, t' := false, t;
    }
  }

  predicate LeafPasses(rootName: string, q: Path, f: Filter)
    requires IsLeaf(q)
  {
    match DepthOf(f.kind)
    case None => false
    case Some(d) => if d == 0 then Passes(f, rootName) else Passes(f, q[d - 1])
  }

  /** The name of a leaf, or of what it hangs on, that a filter of the kind looks at. */
  function NameAt(kind: Kind, rootName: string, q: Path): string
    requires |q| == 5 && kind != ClusterKind
  {
    match kind
    case RootKind => rootName
    case GroupKind => q[0]
    case VersionKind => q[1]
    case ResourceKind => q[2]
    case NamespaceKind => q[3]
    case ObjectKind => q[4]
  }

  /** An including filter lets through what it names, any other lets through what it does not name. */
  lemma LeafPassesIff(rootName: string, q: Path, f: Filter)
    requires IsLeaf(q)
    ensures |q| == 5
    ensures LeafPasses(rootName, q, f) <==>
              && f.kind != ClusterKind
              && if f.including then NameAt(f.kind, rootName, q) in f.names else NameAt(f.kind, rootName, q) !in f.names
  {
  }

  predicate LeafPassesAll(rootName: string, q: Path, filters: map<string, Filter>)
    requires IsLeaf(q)
  {
    forall key :: key in filters ==> LeafPasses(rootName, q, filters[key])
  }

  ghost predicate HasLeaf(keys: set<Path>) {
    exists q :: q in keys && IsLeaf(q)
  }

  /** The root outlives a filter iff some object passes it. */
  lemma RootSurvivesIff(keys: set<Path>, rootName: string, f: Filter)
    requires Closed(keys) && NoEmptyInner(keys, 1) && HasLeaf(keys)
    ensures Survives(keys, rootName, [], f) <==> exists q :: q in keys && IsLeaf(q) && LeafPasses(rootName, q, f)
  {
    var d := DepthOf(f.kind);
    if Survives(keys, rootName, [], f) {
      var q :| q in keys && IsLeaf(q);
      if d != Some(0) {
        var p :| p in keys && |p| == d.value && Passes(f, p[d.value - 1]);
        q := LeafBelow(keys, p);
      }
      assert q in keys && IsLeaf(q) && LeafPasses(rootName, q, f);
    }
    if q :| q in keys && IsLeaf(q) && LeafPasses(rootName, q, f) {
      if d != Some(0) {
        PrefixIn(keys, q[..d.value], q);
        assert Passes(f, q[..d.value][d.value - 1]) && Under(q[..d.value], []);
      }
    }
  }

  /** A filter that keeps something leaves no inner node empty. */
  lemma PrunedStaysFull(t: map<Path, Node>, rootName: string, f: Filter)
    requires Closed(t.Keys) && NoEmptyInner(t.Keys, 1) && Survives(t.Keys, rootName, [], f)
    ensures Closed(Pruned(t, rootName, [], f).Keys) && NoEmptyInner(Pruned(t, rootName, [], f).Keys, 1)
  {
    var kept := Pruned(t, rootName, [], f);
    var d := DepthOf(f.kind);
    assert [] in kept by { assert [] in t; }
    forall p | p in kept
      ensures Hangs(kept.Keys, p)
    {
      assert Hangs(t.Keys, p);
      if p != [] {
        SurvivorsHang(t.Keys, rootName, p[..|p| - 1], p, f);
      }
    }
    forall p | p in kept && 1 <= |p| < OBJECT_DEPTH
      ensures HasKid(kept.Keys, p)
    {
      assert HasKid(t.Keys, p);
      if d.value <= |p| {
        var k :| Kid(p, k) in t;
        assert Kid(p, k) in kept;
      } else {
        SurvivesThroughKid(t.Keys, rootName, p, f);
        var k :| Kid(p, k) in t && Survives(t.Keys, rootName, Kid(p, k), f);
        assert Kid(p, k) in kept;
      }
    }
  }

  lemma PrunedLeaves(t: map<Path, Node>, rootName: string, f: Filter)
    ensures LeafPaths(Pruned(t, rootName, [], f).Keys)
         == set q | q in LeafPaths(t.Keys) && LeafPasses(rootName, q, f)
  {
    forall q | q in t && IsLeaf(q)
      ensures Survives(t.Keys, rootName, q, f) <==> LeafPasses(rootName, q, f)
    {
    }
  }

  lemma RootOf(t: map<Path, Node>, root: Node)
    requires Ok(t) && In(root, t) && root.path == []
    ensures Closed(t.Keys) && t[[]] == root && root.path == []
    ensures forall f: Filter :: DepthOf(f.kind).None? || |root.path| <= DepthOf(f.kind).value
  {
    OkIsClosed(t);
  }

  lemma StillRoot(t: map<Path, Node>, part: map<Path, Node>, root: Node)
    requires Ok(part) && In(root, t) && root.path == []
    requires part.Keys <= t.Keys && forall q :: q in part ==> part[q] == t[q]
    ensures In(root, part)
  {
  }

  lemma PassingNone(keys: set<Path>, rootName: string)
    ensures PassingLeaves(keys, rootName, map[]) == LeafPaths(keys)
  {
  }

  lemma PrunedPart(t: map<Path, Node>, rootName: string, f: Filter)
    ensures var part := Pruned(t, rootName, [], f);
            part.Keys <= t.Keys && forall q :: q in part ==> part[q] == t[q]
  {
  }

  lemma NonePasses(
    keys: set<Path>, part: set<Path>, rootName: string, done: map<string, Filter>, all: map<string, Filter>,
    key: string)
    requires LeafPaths(part) == PassingLeaves(keys, rootName, done)
    requires key in all && done.Keys <= all.Keys && forall k :: k in done ==> done[k] == all[k]
    requires forall q :: q in part && IsLeaf(q) ==> !LeafPasses(rootName, q, all[key])
    ensures forall q :: q in keys && IsLeaf(q) ==> !LeafPassesAll(rootName, q, all)
  {
    forall q | q in keys && IsLeaf(q)
      ensures !LeafPassesAll(rootName, q, all)
    {
      assert LeafPassesAll(rootName, q, all) ==> LeafPassesAll(rootName, q, done);
      assert LeafPassesAll(rootName, q, done) <==> q in LeafPaths(part);
    }
  }

  lemma PassingSome(keys: set<Path>, before: set<Path>, rootName: string, f: Filter)
    requires LeafPaths(keys) == set q | q in LeafPaths(before) && LeafPasses(rootName, q, f)
    requires exists q :: q in before && IsLeaf(q) && LeafPasses(rootName, q, f)
    ensures HasLeaf(keys)
  {
    var q :| q in before && IsLeaf(q) && LeafPasses(rootName, q, f);
    assert q in LeafPaths(keys);
  }

  lemma LeavesPassing(keys: set<Path>, part: set<Path>, rootName: string, filters: map<string, Filter>)
    requires LeafPaths(part) == PassingLeaves(keys, rootName, filters) && HasLeaf(part)
    ensures exists q :: q in keys && IsLeaf(q) && LeafPassesAll(rootName, q, filters)
  {
    var q :| q in part && IsLeaf(q);
    assert q in LeafPaths(part);
  }

  lemma PassingOneMore(keys: set<Path>, rootName: string, done: map<string, Filter>, key: string, f: Filter)
    requires key !in done
    ensures PassingLeaves(keys, rootName, done[key := f])
         == set q | q in PassingLeaves(keys, rootName, done) && LeafPasses(rootName, q, f)
  {
    forall q | q in keys && IsLeaf(q)
      ensures LeafPassesAll(rootName, q, done[key := f])
         <==> LeafPassesAll(rootName, q, done) && LeafPasses(rootName, q, f)
    {
      var more := done[key := f];
      assert key in more && more[key] == f;
      assert forall other :: other in done ==> other in more && more[other] == done[other];
    }
  }

  /** Applies the filters one after the other, in any order. The program fails iff no
      object passes them all, and otherwise what is left does not depend on the order. */
  method FiltrateResources(root: Node, filters: map<string, Filter>, ghost t: map<Path, Node>)
    returns (panicked: bool, ghost t': map<Path, Node>)
    requires Ok(t) && In(root, t) && root.path == []
    requires NoEmptyInner(t.Keys, 1) && HasLeaf(t.Keys)
    modifies t.Values`children
    ensures Ok(t') && In(root, t')
    ensures panicked <==> forall q :: q in t && IsLeaf(q) ==> !LeafPassesAll(root.name, q, filters)
    ensures !panicked ==> t' == Spine(t, PassingLeaves(t.Keys, root.name, filters))
    ensures !panicked ==> NoEmptyInner(t'.Keys, 1) && LeafPaths(t'.Keys) == PassingLeaves(t.Keys, root.name, filters)
    ensures !panicked ==> forall q :: |q| == 5 ==>
      (q in t' <==> q in t && forall key :: key in filters ==>
        && filters[key].kind != ClusterKind
        && (NameAt(filters[key].kind, root.name, q) in filters[key].names <==> filters[key].including))
  {
    hide *;
    ghost var rootName := root.name;
    ghost var done: map<string, Filter> := map[];
    var todo := filters.Keys;
    OkIsClosed(t);
    PassingNone(t.Keys, rootName);
    t' := t;
    while todo != {}
      invariant filters.Keys == done.Keys + todo && done.Keys !! todo
      invariant forall key :: key in done ==> done[key] == filters[key]
      invariant Ok(t') && In(root, t') && NoEmptyInner(t'.Keys, 1) && HasLeaf(t'.Keys)
      invariant t'.Keys <= t.Keys && forall q :: q in t' ==> t'[q] == t[q]
      invariant LeafPaths(t'.Keys) == PassingLeaves(t.Keys, rootName, done)
    {
      var key :| key in todo;
      ghost var f := filters[key];
      RootOf(t', root);
      PassingOneMore(t.Keys, rootName, done, key, f);
      RootSurvivesIff(t'.Keys, rootName, f);
      PrunedPart(t', rootName, f);
      ghost var before := t';
      panicked, t' := DeepFiltrateResources(root, filters[key], t');
      if panicked {
        NonePasses(t.Keys, before.Keys, rootName, done, filters, key);
        return;
      }
      StillRoot(before, t', root);
      PrunedStaysFull(before, rootName, f);
      PrunedLeaves(before, rootName, f);
      todo, done := todo - {key}, done[key := f];
      PassingSome(t'.Keys, before.Keys, rootName, f);
    }
    OkIsClosed(t');
    SpineIsDetermined(t, t');
    assert done == filters;
    LeavesPassing(t.Keys, t'.Keys, rootName, filters);
    PassingSays(t.Keys, t'.Keys, rootName, filters);
    panicked := false;
  }

  lemma PassingSays(keys: set<Path>, left: set<Path>, rootName: string, filters: map<string, Filter>)
    requires LeafPaths(left) == PassingLeaves(keys, rootName, filters)
    ensures forall q :: |q| == 5 ==>
              (q in left <==> q in keys && forall key :: key in filters ==>
                && filters[key].kind != ClusterKind
                && (NameAt(filters[key].kind, rootName, q) in filters[key].names <==> filters[key].including))
  {
    hide LeafPasses, NameAt;
    forall q | |q| == 5
      ensures q in left <==> q in keys && forall key :: key in filters ==>
        && filters[key].kind != ClusterKind
        && (NameAt(filters[key].kind, rootName, q) in filters[key].names <==> filters[key].including)
    {
      assert q in left <==> q in LeafPaths(left);
      forall key | key in filters
        ensures LeafPasses(rootName, q, filters[key]) <==>
          && filters[key].kind != ClusterKind
          && (NameAt(filters[key].kind, rootName, q) in filters[key].names <==> filters[key].including)
      {
        LeafPassesIff(rootName, q, filters[key]);
      }
    }
  }

  ghost function PassingLeaves(keys: set<Path>, rootName: string, filters: map<string, Filter>): set<Path> {
    set q | q in keys && IsLeaf(q) && LeafPassesAll(rootName, q, filters)
  }
}
