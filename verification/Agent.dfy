/** The tree of a cluster, read from the cluster, and the restore of a tree into it. */
module Agent {
  import opened Wrappers
  import opened ResourceTree
  import opened Filtering
  import opened Discovery
  import opened Build
  import opened BuildProperties
  import opened Cluster
  import opened Restore
  import opened RestoreProperties

  const RESOURCE_KEY := "ResourceKind"
  const NAMESPACE_KEY := "NamespaceKind"
  const CLUSTER_KEY := "ClusterKind"

  /** What the cluster says of itself while a tree is built. */
  datatype Answer = Answer(
    offers: seq<Offer>, namespaces: seq<string>, items: map<Gvr, seq<Item>>, clusterScoped: set<Gvr>)

  /** What the user asks for, before the built-in exclusions come in. */
  datatype Wish = Wish(resources: Option<Filter>, namespaces: Option<Filter>, clusterInclude: bool)

  ghost function UserFilter(filters: map<string, ResourceFilter>, key: string): Option<Filter>
    reads filters.Values
  {
    if key in filters then Some(filters[key].Value()) else None
  }

  ghost function WishOf(filters: map<string, ResourceFilter>): Wish
    reads filters.Values
  {
    Wish(UserFilter(filters, RESOURCE_KEY), UserFilter(filters, NAMESPACE_KEY),
         CLUSTER_KEY in filters && filters[CLUSTER_KEY].kind == ClusterKind && filters[CLUSTER_KEY].including)
  }

  /** The keys under which the filters are found. */
  lemma WishSays(filters: map<string, ResourceFilter>)
    ensures WishOf(filters).resources
         == if "ResourceKind" in filters then Some(filters["ResourceKind"].Value()) else None
    ensures WishOf(filters).namespaces
         == if "NamespaceKind" in filters then Some(filters["NamespaceKind"].Value()) else None
    ensures WishOf(filters).clusterInclude
       <==> "ClusterKind" in filters && filters["ClusterKind"].kind == ClusterKind && filters["ClusterKind"].including
  {
  }

  ghost predicate OneFilterPerKey(filters: map<string, ResourceFilter>) {
    forall a, b :: a in filters && b in filters && a != b ==> filters[a] != filters[b]
  }

  /** The supply that the tree is built from. */
  ghost function SupplyFor(a: Answer, w: Wish, names: Filter): Supply {
    Supply(a.items, a.clusterScoped, NameSet(KeptNames(a.namespaces, names)), w.clusterInclude)
  }

  ghost predicate IsFor(f: Filter, user: Option<Filter>, builtOut: set<string>) {
    forall name :: Passes(f, name) <==> Admits(user, builtOut, name)
  }

  /** The discovery lists as the filters leave them: thinned, and the slice as its owner sees it. */
  ghost predicate Thinned(
    now: seq<ApiResourceList>, all: seq<ApiResourceList>, first: seq<seq<ApiResource>>, f: Filter)
    reads all
  {
    AllThinned(all, first, f) && now == Stale(all)
  }

  ghost predicate Untouched(now: seq<ApiResourceList>, all: seq<ApiResourceList>, first: seq<seq<ApiResource>>)
    reads all
  {
    now == all && Contents(all) == first
  }

  lemma UntouchedIs(now: seq<ApiResourceList>, all: seq<ApiResourceList>, first: seq<seq<ApiResource>>)
    ensures Untouched(now, all, first) <==> now == all && Contents(all) == first
  {
  }

  lemma ThinnedIs(now: seq<ApiResourceList>, all: seq<ApiResourceList>, first: seq<seq<ApiResource>>, f: Filter)
    ensures Thinned(now, all, first, f) <==> AllThinned(all, first, f) && now == Stale(all)
  {
  }

  lemma ClusterIncludeIs(filters: map<string, ResourceFilter>)
    ensures WishOf(filters).clusterInclude
       <==> CLUSTER_KEY in filters && filters[CLUSTER_KEY].kind == ClusterKind && filters[CLUSTER_KEY].including
  {
  }

  /** Adds the built-in exclusions to both filters. */
  method PreHandleFilters(filters: map<string, ResourceFilter>)
    returns (filters': map<string, ResourceFilter>)
    requires OneFilterPerKey(filters)
    modifies filters.Values
    ensures RESOURCE_KEY in filters' && NAMESPACE_KEY in filters'
    ensures IsFor(filters'[RESOURCE_KEY].Value(), old(WishOf(filters)).resources, DEFAULT_RESOURCES)
    ensures IsFor(filters'[NAMESPACE_KEY].Value(), old(WishOf(filters)).namespaces, DEFAULT_NAMESPACES)
    ensures WishOf(filters').clusterInclude == old(WishOf(filters)).clusterInclude
    ensures forall key :: key in filters' ==> filters'[key] in filters.Values || fresh(filters'[key])
  {
    hide Passes, Admits;
    var middle := PreHandleFilter(filters, NAMESPACE_KEY, NamespaceKind, DEFAULT_NAMESPACES);
    filters' := PreHandleFilter(middle, RESOURCE_KEY, ResourceKind, DEFAULT_RESOURCES);
    assert middle[NAMESPACE_KEY] == filters'[NAMESPACE_KEY];
  }

  lemma KeysDiffer()
    ensures RESOURCE_KEY != NAMESPACE_KEY && NAMESPACE_KEY != CLUSTER_KEY && RESOURCE_KEY != CLUSTER_KEY
  {
    assert RESOURCE_KEY[0] == 'R' && NAMESPACE_KEY[0] == 'N' && CLUSTER_KEY[0] == 'C';
  }

  /** Goes through the filters, in any order. */
  method Thin(
    filters: map<string, ResourceFilter>, vs: array<ApiResourceList>, ns: NamespaceList,
    ghost all: seq<ApiResourceList>, ghost first: seq<seq<ApiResource>>)
    returns (clusterInclude: bool)
    requires RESOURCE_KEY in filters && NAMESPACE_KEY in filters
    requires all == vs[..] && first == Contents(all) && Distinct(all)
    modifies vs, all, ns
    ensures Thinned(vs[..], all, first, old(filters[RESOURCE_KEY].Value()))
    ensures ns.items == KeptNames(old(ns.items), old(filters[NAMESPACE_KEY].Value()))
    ensures clusterInclude == old(WishOf(filters)).clusterInclude
  {
    hide *;
    ghost var rv, nv := filters[RESOURCE_KEY].Value(), filters[NAMESPACE_KEY].Value();
    ghost var items := ns.items;
    KeysDiffer();
    clusterInclude := false;
    var todo := filters.Keys;
    UntouchedIs(vs[..], all, first);
    while todo != {}
      invariant todo <= filters.Keys
      invariant if RESOURCE_KEY in todo then Untouched(vs[..], all, first) else Thinned(vs[..], all, first, rv)
      invariant ns.items == if NAMESPACE_KEY in todo then items else KeptNames(items, nv)
      invariant clusterInclude == (CLUSTER_KEY in filters && CLUSTER_KEY !in todo
        && filters[CLUSTER_KEY].kind == ClusterKind && filters[CLUSTER_KEY].including)
      decreases todo
    {
      var key :| key in todo;
      var f := filters[key];
      if key == RESOURCE_KEY {
        UntouchedIs(vs[..], all, first);
        FiltrateResource(vs, f);
        ThinnedIs(vs[..], all, first, rv);
      } else if key == NAMESPACE_KEY {
        FiltrateNamespace(ns, f);
      } else if key == CLUSTER_KEY {
        if f.kind == ClusterKind && f.including {
          clusterInclude := true;
        }
      }
      todo := todo - {key};
    }
    ClusterIncludeIs(filters);
  }

  // ---- What the tree is to hold

  /** Objects of one resource agree on the scope, whatever list offers it. */
  ghost predicate Coherent(a: Answer) {
    AllConsistent(Supply(a.items, a.clusterScoped, {}, false), a.offers)
  }

  /** The answer tells what the cluster holds: a listing has every object of the resource and no other. */
  ghost predicate Honest(a: Answer, objects: map<Path, Definition>) {
    && (forall gvr, item :: gvr in a.items && item in a.items[gvr] ==> Listed(a, objects, gvr, item))
    && (forall q :: q in objects && IsLeaf(q) && GvrOf(q) in a.items ==> IsListed(a, q))
    && (forall name :: name in a.namespaces <==> NamespacePath(name) in objects)
  }

  ghost predicate Listed(a: Answer, objects: map<Path, Definition>, gvr: Gvr, item: Item) {
    var q := LeafPath(gvr, PlaceOf(item, gvr in a.clusterScoped), item.name);
    q in objects && objects[q] == item.definition
  }

  ghost predicate IsListed(a: Answer, q: Path)
    requires IsLeaf(q) && GvrOf(q) in a.items
  {
    exists item ::
      item in a.items[GvrOf(q)] && LeafPath(GvrOf(q), PlaceOf(item, GvrOf(q) in a.clusterScoped), item.name) == q
  }

  ghost predicate OfferedBy(a: Answer, clusterInclude: bool, gvr: Gvr) {
    Offered(Supply(a.items, a.clusterScoped, {}, clusterInclude), a.offers, gvr)
  }

  /** The object belongs into a tree for that wish. */
  ghost predicate Shown(a: Answer, w: Wish, objects: map<Path, Definition>, q: Path) {
    && IsLeaf(q) && q in objects
    && GvrOf(q) in a.items && OfferedBy(a, w.clusterInclude, GvrOf(q))
    && Admits(w.resources, DEFAULT_RESOURCES, q[2]) && ObjectAllowed(q[2], q[4])
    && (GvrOf(q) in a.clusterScoped || NamespaceShown(w, objects, q[3]))
  }

  ghost predicate NamespaceShown(w: Wish, objects: map<Path, Definition>, name: string) {
    NamespacePath(name) in objects && Admits(w.namespaces, DEFAULT_NAMESPACES, name)
  }

  /** The part of the cluster that a tree for that wish holds. */
  ghost function Snapshot(a: Answer, w: Wish, objects: map<Path, Definition>): map<Path, Payload> {
    map q | q in objects && Shown(a, w, objects, q) ::
      Payload(Some(GvrOf(q)), Some(objects[q]), Some(MetadataAt(q, GvrOf(q) in a.clusterScoped)))
  }

  /** The user's filter, if there is one, lets the name through. */
  predicate UserLets(user: Option<Filter>, name: string) {
    user.Some? ==> (name in user.value.names <==> user.value.including)
  }

  /** What a backup holds, said with nothing but names: the object is there; its resource is listed, offered and
      wanted; it is no event, pod or endpoint slice and no secret with a default token; and, if it is namespaced,
      its namespace is there, wanted, and none of the three of the system. */
  lemma SnapshotSays(a: Answer, w: Wish, objects: map<Path, Definition>, q: Path)
    ensures q in Snapshot(a, w, objects) <==>
              && q in objects && |q| == 5
              && var gvr := Gvr(q[0], q[1], q[2]);
              && gvr in a.items
              && '/' !in q[0] && '/' !in q[1]
              && (exists offer, api ::
                   offer in a.offers && api in offer.apis && Names(offer, api, gvr, w.clusterInclude))
              && q[2] != "events" && q[2] != "pods" && q[2] != "endpointslices" && UserLets(w.resources, q[2])
              && (q[2] == "secrets" ==> !exists i :: OccursAt(q[4], "default-token", i))
              && (gvr !in a.clusterScoped ==>
                  && ["", "v1", "namespaces", "cluster", q[3]] in objects
                  && q[3] != "kube-system" && q[3] != "kube-public" && q[3] != "kube-node-lease"
                  && UserLets(w.namespaces, q[3]))
    ensures q in Snapshot(a, w, objects) ==> Snapshot(a, w, objects)[q].definition == Some(objects[q])
  {
    hide Offered;
    if IsLeaf(q) {
      OfferedIff(Supply(a.items, a.clusterScoped, {}, w.clusterInclude), a.offers, GvrOf(q));
      ContainsIff(q[4], "default-token");
    }
  }

  lemma OfferedAnyway(s: Supply, z: Supply, offers: seq<Offer>, gvr: Gvr)
    requires s.clusterInclude == z.clusterInclude
    ensures Offered(s, offers, gvr) <==> Offered(z, offers, gvr)
  {
    forall offer, api
      ensures Offering(s, offer, api, gvr) <==> Offering(z, offer, api, gvr)
    {
    }
  }

  lemma WantedAre(a: Answer, w: Wish, objects: map<Path, Definition>, names: Filter, q: Path)
    requires Honest(a, objects) && IsFor(names, w.namespaces, DEFAULT_NAMESPACES) && IsLeaf(q)
    ensures var s := SupplyFor(a, w, names); var leaves := LeavesOf(s, GvrOf(q));
            q in leaves <==> q in objects && GvrOf(q) in a.items && ObjectAllowed(q[2], q[4])
                             && (GvrOf(q) in a.clusterScoped || NamespaceShown(w, objects, q[3]))
    ensures var s := SupplyFor(a, w, names); var leaves := LeavesOf(s, GvrOf(q));
            q in leaves ==>
              leaves[q] == Payload(Some(GvrOf(q)), Some(objects[q]), Some(MetadataAt(q, GvrOf(q) in a.clusterScoped)))
  {
    hide ObjectAllowed, Admits, Passes, KeptNames;
    var s, gvr := SupplyFor(a, w, names), GvrOf(q);
    var cluster := gvr in a.clusterScoped;
    var leaves := LeavesOf(s, gvr);
    LeavesAre(s, gvr, q);
    KeptNamesAre(a.namespaces, names, q[3]);
    assert q[3] in s.namespaces <==> NamespaceShown(w, objects, q[3]);
    if q in leaves {
      var item :| item in a.items[gvr] && q[4] == item.name && leaves[q] == PayloadOf(gvr, item, cluster)
                  && q[3] == PlaceOf(item, cluster);
      assert Listed(a, objects, gvr, item);
      assert LeafPath(gvr, q[3], q[4]) == q;
    }
    if q in objects && gvr in a.items && ObjectAllowed(q[2], q[4]) && (cluster || NamespaceShown(w, objects, q[3])) {
      assert IsListed(a, q);
      var item :| item in a.items[gvr] && LeafPath(gvr, PlaceOf(item, cluster), item.name) == q;
      assert Wanted(gvr, item, cluster, s.namespaces);
    }
  }

  /** Built from the purely filtered lists, the tree holds the snapshot. */
  lemma SnapshotIsBuilt(a: Answer, w: Wish, objects: map<Path, Definition>, resources: Filter, names: Filter)
    requires Honest(a, objects)
    requires IsFor(resources, w.resources, DEFAULT_RESOURCES) && IsFor(names, w.namespaces, DEFAULT_NAMESPACES)
    ensures OffersLeaves(SupplyFor(a, w, names), PureFilter(a.offers, resources)) == Snapshot(a, w, objects)
  {
    var s, b := SupplyFor(a, w, names), Snapshot(a, w, objects);
    var leaves := OffersLeaves(s, PureFilter(a.offers, resources));
    forall q
      ensures q in leaves <==> q in b
      ensures q in leaves ==> leaves[q] == b[q]
    {
      SnapshotAt(a, w, objects, resources, names, q);
    }
  }

  lemma SnapshotAt(
    a: Answer, w: Wish, objects: map<Path, Definition>, resources: Filter, names: Filter, q: Path)
    requires Honest(a, objects)
    requires IsFor(resources, w.resources, DEFAULT_RESOURCES) && IsFor(names, w.namespaces, DEFAULT_NAMESPACES)
    ensures var leaves := OffersLeaves(SupplyFor(a, w, names), PureFilter(a.offers, resources));
            (q in leaves <==> q in Snapshot(a, w, objects))
            && (q in leaves ==> leaves[q] == Snapshot(a, w, objects)[q])
  {
    hide Honest, OffersLeaves, PureFilter, LeavesOf, Offered, Passes, Admits, ObjectAllowed;
    var s := SupplyFor(a, w, names);
    BuiltExactly(s, PureFilter(a.offers, resources), q);
    if IsLeaf(q) {
      WantedAre(a, w, objects, names, q);
      PureFilterOffers(s, a.offers, resources, GvrOf(q));
      OfferedAnyway(s, Supply(a.items, a.clusterScoped, {}, w.clusterInclude), a.offers, GvrOf(q));
    }
  }

  // ---- Reading the tree

  /** Scopes are as the server says, and namespaces are among those shown. */
  ghost predicate Lodges(t: map<Path, Node>, a: Answer, w: Wish, objects: map<Path, Definition>) {
    && (forall p :: p in t && |p| == 3 ==> (t[p].isCluster <==> GvrOf(p) in a.clusterScoped))
    && (forall at :: at in t && |at| == 4 ==>
         if GvrOf(at) in a.clusterScoped then at[3] == CLUSTER_LEVEL_NAMESPACE else NamespaceShown(w, objects, at[3]))
  }

  lemma FitsLodges(t: map<Path, Node>, a: Answer, w: Wish, objects: map<Path, Definition>, names: Filter)
    requires Fits(t, SupplyFor(a, w, names)) && IsFor(names, w.namespaces, DEFAULT_NAMESPACES) && Honest(a, objects)
    ensures Lodges(t, a, w, objects)
  {
    hide Passes, Admits, KeptNames;
    forall at | at in t && |at| == 4
      ensures if GvrOf(at) in a.clusterScoped then at[3] == CLUSTER_LEVEL_NAMESPACE
              else NamespaceShown(w, objects, at[3])
    {
      assert Lodged(at, SupplyFor(a, w, names));
      KeptNamesAre(a.namespaces, names, at[3]);
    }
  }

  lemma StaleIsOld(lists: seq<ApiResourceList>, i: nat) returns (j: nat)
    requires i < |Stale(lists)|
    ensures j < |lists| && lists[j] == Stale(lists)[i]
  {
    hide NonEmpty, Copies;
    var left, last := NonEmpty(lists), lists[|lists| - 1];
    var copies := Copies(last, |lists| - |left|);
    if i < |left| {
      NonEmptyMember(lists, left[i]);
      j :| 0 <= j < |lists| && lists[j] == left[i];
    } else {
      assert copies[i - |left|] in copies;
      j := |lists| - 1;
    }
  }

  /** What is left of the lists still parses and still agrees on scopes. */
  lemma ThinnedStaysCoherent(
    now: seq<ApiResourceList>, all: seq<ApiResourceList>, first: seq<seq<ApiResource>>, f: Filter, a: Answer, s: Supply)
    requires Thinned(now, all, first, f) && Coherent(a) && s.clusterScoped == a.clusterScoped
    requires |a.offers| == |all| == |first|
    requires forall i :: 0 <= i < |all| ==> a.offers[i] == Offer(all[i].groupVersion, first[i])
    ensures AllConsistent(s, Values(now)) && (AllParse(a.offers) ==> AllParse(Values(now)))
  {
    hide KeptApis, ParseGroupVersion, Stale;
    ValuesAt(now);
    forall i | 0 <= i < |now|
      ensures ConsistentOffer(s, Values(now)[i])
      ensures exists j :: 0 <= j < |all| && Values(now)[i].groupVersion == a.offers[j].groupVersion
    {
      var j := StaleIsOld(all, i);
      assert ConsistentOffer(Supply(a.items, a.clusterScoped, {}, false), a.offers[j]);
      assert now[i].apiResources == KeptApis(first[j], f);
      forall api | api in now[i].apiResources
        ensures api in a.offers[j].apis
      {
        KeptApisAre(first[j], f, api);
      }
    }
  }

  /** The tree of the cluster for a wish. */
  ghost predicate IsTreeOf(
    root: Node, t: map<Path, Node>, a: Answer, w: Wish, objects: map<Path, Definition>)
    reads t.Values
  {
    && Ok(t) && In(root, t) && NoEmptyInner(t.Keys, 1)
    && LeafPayloads(t) == Snapshot(a, w, objects)
    && Lodges(t, a, w, objects)
  }

  lemma TreeOfIs(root: Node, t: map<Path, Node>, a: Answer, w: Wish, objects: map<Path, Definition>)
    ensures IsTreeOf(root, t, a, w, objects)
       <==> Ok(t) && In(root, t) && NoEmptyInner(t.Keys, 1) && LeafPayloads(t) == Snapshot(a, w, objects)
            && Lodges(t, a, w, objects)
  {
  }

  lemma ListsNow(
    now: seq<ApiResourceList>, all: seq<ApiResourceList>, first: seq<seq<ApiResource>>, a: Answer, w: Wish,
    objects: map<Path, Definition>, resources: Filter, names: Filter)
    requires Thinned(now, all, first, resources) && Coherent(a) && Honest(a, objects)
    requires IsFor(resources, w.resources, DEFAULT_RESOURCES) && IsFor(names, w.namespaces, DEFAULT_NAMESPACES)
    requires |a.offers| == |all| == |first|
    requires forall i :: 0 <= i < |all| ==> a.offers[i] == Offer(all[i].groupVersion, first[i])
    ensures var s := SupplyFor(a, w, names);
            && AllConsistent(s, Values(now)) && (AllParse(a.offers) ==> AllParse(Values(now)))
            && OffersLeaves(s, Values(now)) == Snapshot(a, w, objects)
  {
    hide *;
    var s := SupplyFor(a, w, names);
    SuppliesItems(a, w, names);
    ThinnedStaysCoherent(now, all, first, resources, a, s);
    ThinnedIs(now, all, first, resources);
    StaleSliceIsHarmless(s, all, first, a.offers, resources);
    SnapshotIsBuilt(a, w, objects, resources, names);
  }

  lemma SuppliesItems(a: Answer, w: Wish, names: Filter)
    ensures SupplyFor(a, w, names).items == a.items && SupplyFor(a, w, names).clusterScoped == a.clusterScoped
  {
  }

  lemma SupplyIs(a: Answer, w: Wish, names: Filter, s: Supply)
    requires s.items == a.items && s.clusterScoped == a.clusterScoped && s.clusterInclude == w.clusterInclude
    requires s.namespaces == NameSet(KeptNames(a.namespaces, names))
    ensures s == SupplyFor(a, w, names)
  {
  }

  lemma NameSetIs(names: seq<string>)
    ensures NameSet(names) == set n | n in names
  {
  }

  lemma OffersAre(lists: seq<ApiResourceList>)
    ensures |Values(lists)| == |Contents(lists)| == |lists|
    ensures forall i :: 0 <= i < |lists| ==> Values(lists)[i] == Offer(lists[i].groupVersion, Contents(lists)[i])
  {
    ValuesAt(lists);
    ContentsAt(lists);
  }

  /** Discovery hands out lists of its own. */
  method Discover(a: Answer) returns (vs: array<ApiResourceList>, ns: NamespaceList)
    ensures fresh(vs) && fresh(ns) && fresh(set x | x in vs[..]) && Distinct(vs[..])
    ensures Values(vs[..]) == a.offers && ns.items == a.namespaces
  {
    var lists: seq<ApiResourceList> := [];
    assert a.offers[..0] == [] && Values([]) == [];
    for i := 0 to |a.offers|
      invariant |lists| == i && fresh(set x | x in lists) && Distinct(lists)
      invariant Values(lists) == a.offers[..i]
    {
      var list := new ApiResourceList(a.offers[i].groupVersion, a.offers[i].apis);
      ghost var before := lists;
      lists := lists + [list];
      assert lists[..i] == before;
    }
    assert a.offers[..|a.offers|] == a.offers;
    vs := new ApiResourceList[|lists|](i requires 0 <= i < |lists| => lists[i]);
    assert vs[..] == lists;
    ns := new NamespaceList(a.namespaces);
  }

  /** Reads the tree for a wish: it holds the snapshot of the cluster for that wish. */
  method GetResourceTree(
    root: Node, filters: map<string, ResourceFilter>, a: Answer, ghost objects: map<Path, Definition>)
    returns (ok: bool, ghost t': map<Path, Node>)
    requires Ok(map[[] := root]) && OneFilterPerKey(filters) && Coherent(a) && Honest(a, objects)
    modifies root`children, root`payload, filters.Values
    ensures AllParse(a.offers) ==> ok
    ensures ok ==> fresh(t'.Values - {root}) && IsTreeOf(root, t', a, old(WishOf(filters)), objects)
  {
    hide *;
    var vs, ns := Discover(a);
    ghost var w := WishOf(filters);
    ghost var all, first := vs[..], Contents(vs[..]);
    OffersAre(all);
    var filters' := PreHandleFilters(filters);
    ghost var resources, names := filters'[RESOURCE_KEY].Value(), filters'[NAMESPACE_KEY].Value();
    assert first == Contents(all);
    var clusterInclude := Thin(filters', vs, ns, all, first);
    ListsNow(vs[..], all, first, a, w, objects, resources, names);
    var s := Supply(a.items, a.clusterScoped, (set n | n in ns.items), clusterInclude);
    NameSetIs(ns.items);
    SupplyIs(a, w, names, s);
    ok, t' := BuildGroupAndVersionTree(root, vs[..], ns, s, map[[] := root]);
    if ok {
      FitsLodges(t', a, w, objects, names);
      TreeOfIs(root, t', a, w, objects);
    }
  }

  // ---- Asking the cluster

  /** Objects of cluster-scoped resources are kept under the pseudo namespace. */
  ghost predicate WellScoped(objects: map<Path, Definition>, clusterScoped: set<Gvr>) {
    forall q :: q in objects && IsLeaf(q) && GvrOf(q) in clusterScoped ==> q[3] == CLUSTER_LEVEL_NAMESPACE
  }

  /** The answer tells of the objects at `seen`. */
  ghost predicate Tells(a: Answer, objects: map<Path, Definition>, seen: set<Path>) {
    && (forall gvr, item :: gvr in a.items && item in a.items[gvr] ==> Listed(a, objects, gvr, item))
    && (forall q :: q in seen && IsLeaf(q) && GvrOf(q) in a.items ==> IsListed(a, q))
    && (forall name :: name in a.namespaces <==> NamespacePath(name) in seen)
  }

  /** The answer with the object at `q` added to its listing and, if it is a namespace, to the namespaces. */
  function WithObject(a: Answer, q: Path, d: Definition): Answer
    requires IsLeaf(q)
  {
    var gvr := GvrOf(q);
    var items := if gvr in a.items then a.items[gvr := a.items[gvr] + [Item(q[3], q[4], d)]] else a.items;
    a.(items := items, namespaces := a.namespaces + if q == NamespacePath(q[4]) then [q[4]] else [])
  }

  lemma TellsMore(a: Answer, objects: map<Path, Definition>, seen: set<Path>, q: Path)
    requires Tells(a, objects, seen) && q in objects && WellScoped(objects, a.clusterScoped)
    ensures IsLeaf(q) ==> Tells(WithObject(a, q, objects[q]), objects, seen + {q})
    ensures !IsLeaf(q) ==> Tells(a, objects, seen + {q})
  {
    if IsLeaf(q) {
      var b := WithObject(a, q, objects[q]);
      var item := Item(q[3], q[4], objects[q]);
      assert LeafPath(GvrOf(q), PlaceOf(item, GvrOf(q) in b.clusterScoped), item.name) == q;
      forall gvr, i | gvr in b.items && i in b.items[gvr]
        ensures Listed(b, objects, gvr, i)
      {
        assert i in a.items[gvr] ==> Listed(a, objects, gvr, i);
        assert i !in a.items[gvr] ==> gvr == GvrOf(q) && i == item;
      }
      forall r | r in seen + {q} && IsLeaf(r) && GvrOf(r) in b.items
        ensures IsListed(b, r)
      {
        if r == q {
          assert item in b.items[GvrOf(q)];
        } else {
          assert IsListed(a, r);
          var i :| i in a.items[GvrOf(r)]
                   && LeafPath(GvrOf(r), PlaceOf(i, GvrOf(r) in a.clusterScoped), i.name) == r;
          assert i in b.items[GvrOf(r)];
        }
      }
      forall name
        ensures name in b.namespaces <==> NamespacePath(name) in seen + {q}
      {
        assert NamespacePath(name)[4] == name;
      }
    } else {
      assert forall name :: NamespacePath(name) != q;
    }
  }

  lemma TellsNothing(a: Answer, objects: map<Path, Definition>)
    requires a.namespaces == [] && forall gvr :: gvr in a.items ==> a.items[gvr] == []
    ensures Tells(a, objects, {})
  {
  }

  lemma TellsAll(a: Answer, objects: map<Path, Definition>)
    requires Tells(a, objects, objects.Keys)
    ensures Honest(a, objects)
  {
  }

  /** What a cluster answers that offers these lists and can list these resources. */
  method Ask(server: ApiServer, offers: seq<Offer>, listable: set<Gvr>, clusterScoped: set<Gvr>) returns (a: Answer)
    requires WellScoped(server.objects, clusterScoped)
    ensures Honest(a, server.objects)
    ensures a.offers == offers && a.items.Keys == listable && a.clusterScoped == clusterScoped
  {
    hide *;
    a := Answer(offers, [], map gvr | gvr in listable :: [], clusterScoped);
    TellsNothing(a, server.objects);
    var todo := server.objects.Keys;
    assert server.objects.Keys - todo == {};
    while todo != {}
      invariant todo <= server.objects.Keys && Tells(a, server.objects, server.objects.Keys - todo)
      invariant a.offers == offers && a.items.Keys == listable && a.clusterScoped == clusterScoped
      decreases |todo|
    {
      var q :| q in todo;
      TellsMore(a, server.objects, server.objects.Keys - todo, q);
      WithObjectKeeps(a, q, server.objects[q]);
      OneMoreDone(server.objects.Keys, todo, q);
      if IsLeaf(q) {
        a := WithObject(a, q, server.objects[q]);
      }
      todo := todo - {q};
    }
    assert server.objects.Keys - todo == server.objects.Keys;
    TellsAll(a, server.objects);
  }

  lemma WithObjectKeeps(a: Answer, q: Path, d: Definition)
    ensures IsLeaf(q) ==>
              var b := WithObject(a, q, d);
              b.offers == a.offers && b.items.Keys == a.items.Keys && b.clusterScoped == a.clusterScoped
  {
  }

  // ---- Restoring a tree

  /** The tree to compare with holds whatever the built-in exclusions let through. */
  const EVERYTHING := Wish(None, None, true)

  lemma TreeIsTruthful(root: Node, t: map<Path, Node>, a: Answer, w: Wish, objects: map<Path, Definition>)
    requires IsTreeOf(root, t, a, w, objects)
    ensures Truthful(t, objects) && Closed(t.Keys) && LeafPaths(t.Keys) == Snapshot(a, w, objects).Keys
  {
    hide Snapshot;
    OkIsClosed(t);
    forall at | at in t && |at| == 4 && at[3] != CLUSTER_LEVEL_NAMESPACE
      ensures NamespacePath(at[3]) in objects
    {
      assert NamespaceShown(w, objects, at[3]);
    }
    assert LeafPayloads(t).Keys == LeafPaths(t.Keys);
  }

  /** A tree that can be restored. */
  ghost predicate Restorable(root: Node, t: map<Path, Node>)
    reads t.Values
  {
    && Ok(t) && In(root, t) && root.path == [] && Tagged(t, Payloads(t))
    && NoEmptyInner(t.Keys, 1) && HasKid(t.Keys, [])
  }

  lemma RestorableIs(root: Node, t: map<Path, Node>)
    ensures Restorable(root, t)
       <==> Ok(t) && In(root, t) && root.path == [] && Tagged(t, Payloads(t)) && NoEmptyInner(t.Keys, 1)
            && HasKid(t.Keys, [])
  {
  }

  lemma StateHasKeys(server: ApiServer, status: MissionStatus, t: map<Path, Node>)
    ensures StateOf(server, status, t).payloads.Keys == t.Keys
  {
  }

  lemma RestorableIsWalkable(root: Node, tb: map<Path, Node>, current: Node, tc: map<Path, Node>)
    requires Restorable(root, tb) && current.path == [] && tb.Values !! tc.Values
    ensures Walkable(tb, tb, tc, root, current) && Closed(tb.Keys)
  {
    OkIsClosed(tb);
    OkIsPlaced(tb);
    forall q | q in tb.Keys && |q| < OBJECT_DEPTH
      ensures HasKid(tb.Keys, q)
    {
    }
  }

  lemma AloneIsOk(root: Node)
    requires root.kind == RootKind && root.path == [] && root.parent == null && root.children == map[]
    ensures Ok(map[[] := root])
  {
    var t := map[[] := root];
    assert forall k :: Kid([], k) != [] by {
      forall k
        ensures Kid([], k) != []
      {
        assert |Kid([], k)| == 1;
      }
    }
    assert Linked(t, []);
  }

  lemma OnlyCluster(f: ResourceFilter)
    requires f.kind == ClusterKind && f.including
    ensures WishOf(map[CLUSTER_KEY := f]) == EVERYTHING && OneFilterPerKey(map[CLUSTER_KEY := f])
  {
    KeysDiffer();
  }

  /** Reads the tree to compare with. */
  method GetCurrentTree(a: Answer, ghost objects: map<Path, Definition>)
    returns (ok: bool, current: Node, ghost tc: map<Path, Node>)
    requires Coherent(a) && Honest(a, objects)
    ensures AllParse(a.offers) ==> ok
    ensures ok ==> current.path == [] && fresh(tc.Values) && Ok(tc) && In(current, tc)
    ensures ok ==> Truthful(tc, objects) && LeafPaths(tc.Keys) == Snapshot(a, EVERYTHING, objects).Keys
    ensures ok ==> Closed(tc.Keys)
  {
    hide *;
    var clusterFilter := new ResourceFilter(ClusterKind, true, {});
    OnlyCluster(clusterFilter);
    current := new Node(RootKind, "k8s-cluster-a-1", null, false, []);
    AloneIsOk(current);
    ok, tc := GetResourceTree(current, map[CLUSTER_KEY := clusterFilter], a, objects);
    if ok {
      TreeIsTruthful(current, tc, a, EVERYTHING, objects);
      TreeOfIs(current, tc, a, EVERYTHING, objects);
    }
  }

  /** Compares the tree with a tree of the cluster, and writes to the cluster what it lacks. */
  method ApplyResourceTree(
    root: Node, server: ApiServer, status: MissionStatus, a: Answer, ghost tb: map<Path, Node>)
    returns (ok: bool, ghost tb': map<Path, Node>, ghost tc: map<Path, Node>, ghost tc': map<Path, Node>,
             ghost events: seq<Event>)
    requires Restorable(root, tb) && Coherent(a) && Honest(a, server.objects)
    modifies tb.Values`children, tb.Values`payload, server, status
    ensures AllParse(a.offers) ==> ok
    ensures ok ==> LeafPaths(tc.Keys) == Snapshot(a, EVERYTHING, old(server.objects)).Keys
    ensures ok ==>
      WalkedAll(tb, tc, tb', tc', old(StateOf(server, status, tb)), StateOf(server, status, tb), events,
                server.reliable)
    ensures ok ==> Ok(tb')
    ensures !ok ==> StateOf(server, status, tb) == old(StateOf(server, status, tb)) && tb' == tb && Ok(tb)
  {
    hide *;
    ghost var start := StateOf(server, status, tb);
    StateHasKeys(server, status, tb);
    var current;
    ok, current, tc := GetCurrentTree(a, server.objects);
    assert StateOf(server, status, tb) == start && Restorable(root, tb);
    RestorableIs(root, tb);
    tb', tc', events := tb, tc, [];
    if ok {
      RestorableIsWalkable(root, tb, current, tc);
      tb', tc', events := CompareTree(root, current, server, status, tb, tb, tc);
      assert start.payloads.Keys == tb.Keys;
      WalkedAllIs(tb, tc, tb', tc', start, StateOf(server, status, tb), events, server.reliable);
    }
  }
}
