/** Building the tree of a cluster: groups, versions, resources and namespaces are added
    first, objects are hung on them, and what stays empty is removed again. */
module Build {
  import opened Wrappers
  import opened ResourceTree
  import opened Paths
  import opened Discovery

  /** An object as the API server lists it. */
  datatype Item = Item(namespace: string, name: string, definition: Definition)

  /** What the API server answers while the tree is built. A resource without an entry is
      one that cannot be listed. */
  datatype Supply = Supply(
    items: map<Gvr, seq<Item>>, clusterScoped: set<Gvr>, namespaces: set<string>, clusterInclude: bool)

  const DEFAULT_CLUSTER_RESOURCES := {"namespaces", "persistentvolumes"}
  const DEFAULT_TOKEN := "default-token"

  predicate Contains(s: string, part: string) {
    part <= s || (s != "" && Contains(s[1..], part))
  }

  /** The rule for single objects: no secret with a default token. */
  predicate ObjectAllowed(resource: string, name: string) {
    resource != "secrets" || !Contains(name, DEFAULT_TOKEN)
  }

  predicate Admitted(api: ApiResource, clusterInclude: bool) {
    clusterInclude || api.namespaced || api.name in DEFAULT_CLUSTER_RESOURCES
  }

  /** Reads "group/version", or "version" for the core group. */
  function ParseGroupVersion(s: string): Option<(string, string)> {
    if s == "" || s == "/" then Some(("", ""))
    else
      var parts := Split(s);
      if |parts| == 1 then Some(("", s))
      else if |parts| == 2 then Some((parts[0], parts[1]))
      else None
  }

  /** It reads exactly "group/version" and, for the core group, "version", and no text with two slashes. */
  lemma ParsesIff(s: string, group: string, version: string)
    ensures ParseGroupVersion(s) == Some((group, version)) <==>
              && '/' !in group && '/' !in version
              && (s == group + "/" + version || (group == "" && s == version))
    ensures ParseGroupVersion(s).None? <==> exists i, j :: 0 <= i < j < |s| && s[i] == '/' && s[j] == '/'
  {
    SplitIsSlashFree(s);
    SplitJoins(s);
    var parts := Split(s);
    assert parts[0] in parts;
    if |parts| == 1 {
      assert Intercalate(parts) == parts[0];
    } else if |parts| == 2 {
      assert parts[1] in parts && parts[1..] == [parts[1]];
      assert Intercalate(parts) == parts[0] + "/" + parts[1];
      OneSlash(parts[0], parts[1]);
    } else {
      var i, j := TwoSlashes(parts);
    }
    if '/' !in group && '/' !in version && s == group + "/" + version {
      SplitAtSlash(group, version);
      SplitName(group);
      SplitName(version);
    }
    if '/' !in version && group == "" && s == version {
      SplitName(version);
    }
  }

  lemma {:induction false} SplitJoins(s: string)
    ensures Intercalate(Split(s)) == s
  {
    if s != "" {
      var rest := Split(s[1..]);
      SplitJoins(s[1..]);
      assert s == [s[0]] + s[1..];
      if s[0] == '/' {
        assert Split(s)[1..] == rest;
      } else {
        assert Split(s)[1..] == rest[1..];
        assert |rest| > 1 ==> [s[0]] + (rest[0] + "/" + Intercalate(rest[1..]))
                              == ([s[0]] + rest[0]) + "/" + Intercalate(rest[1..]);
      }
    }
  }

  lemma OneSlash(a: string, b: string)
    requires '/' !in a && '/' !in b
    ensures var s := a + "/" + b; !exists i, j :: 0 <= i < j < |s| && s[i] == '/' && s[j] == '/'
  {
    var s := a + "/" + b;
    assert forall i :: 0 <= i < |s| && s[i] == '/' ==> i == |a|;
  }

  lemma TwoSlashes(parts: seq<string>) returns (i: nat, j: nat)
    requires |parts| > 2
    ensures var s := Intercalate(parts); i < j < |s| && s[i] == '/' && s[j] == '/'
  {
    var s, rest := Intercalate(parts), parts[1..];
    assert |rest| > 1 && Intercalate(rest) == rest[0] + "/" + Intercalate(rest[1..]);
    assert s == parts[0] + "/" + (rest[0] + "/" + Intercalate(rest[1..]));
    i, j := |parts[0]|, |parts[0]| + 1 + |rest[0]|;
  }

  predicate OccursAt(s: string, part: string, i: int) {
    0 <= i <= |s| - |part| && s[i..i + |part|] == part
  }

  /** The part occurs somewhere. */
  lemma {:induction false} ContainsIff(s: string, part: string)
    ensures Contains(s, part) <==> exists i :: OccursAt(s, part, i)
  {
    if part <= s {
      assert OccursAt(s, part, 0);
    } else if s != "" {
      ContainsIff(s[1..], part);
      if i :| OccursAt(s, part, i) {
        assert i > 0 && s[i..i + |part|] == s[1..][i - 1..i - 1 + |part|];
        assert OccursAt(s[1..], part, i - 1);
      }
      if i :| OccursAt(s[1..], part, i) {
        assert s[i + 1..i + 1 + |part|] == s[1..][i..i + |part|];
        assert OccursAt(s, part, i + 1);
      }
    }
  }

  function LeafPath(gvr: Gvr, namespace: string, name: string): Path {
    [gvr.group, gvr.version, gvr.resource, namespace, name]
  }

  function ResourcePath(gvr: Gvr): Path {
    [gvr.group, gvr.version, gvr.resource]
  }

  function PlaceOf(item: Item, cluster: bool): string {
    if cluster then CLUSTER_LEVEL_NAMESPACE else item.namespace
  }

  function PayloadOf(gvr: Gvr, item: Item, cluster: bool): Payload {
    var q := LeafPath(gvr, PlaceOf(item, cluster), item.name);
    Payload(Some(gvr), Some(item.definition), Some(MetadataAt(q, cluster)))
  }

  predicate Wanted(gvr: Gvr, item: Item, cluster: bool, namespaces: set<string>) {
    ObjectAllowed(gvr.resource, item.name) && (cluster || item.namespace in namespaces)
  }

  /** The leaf that an item gives, if it is wanted. */
  function LeafOf(gvr: Gvr, item: Item, cluster: bool, namespaces: set<string>): map<Path, Payload> {
    if Wanted(gvr, item, cluster, namespaces)
    then map[LeafPath(gvr, PlaceOf(item, cluster), item.name) := PayloadOf(gvr, item, cluster)]
    else map[]
  }

  /** The leaves that a listing gives. */
  function Selected(gvr: Gvr, items: seq<Item>, cluster: bool, namespaces: set<string>): map<Path, Payload> {
    if items == [] then map[]
    else Selected(gvr, items[..|items| - 1], cluster, namespaces) + LeafOf(gvr, items[|items| - 1], cluster, namespaces)
  }

  function LeavesOf(s: Supply, gvr: Gvr): map<Path, Payload> {
    if gvr in s.items then Selected(gvr, s.items[gvr], gvr in s.clusterScoped, s.namespaces) else map[]
  }

  function ApisLeaves(s: Supply, group: string, version: string, apis: seq<ApiResource>): map<Path, Payload> {
    if apis == [] then map[]
    else
      var last := apis[|apis| - 1];
      ApisLeaves(s, group, version, apis[..|apis| - 1]) +
      if Admitted(last, s.clusterInclude) then LeavesOf(s, Gvr(group, version, last.name)) else map[]
  }

  function OfferLeaves(s: Supply, offer: Offer): map<Path, Payload> {
    match ParseGroupVersion(offer.groupVersion)
    case None => map[]
    case Some((group, version)) => ApisLeaves(s, group, version, offer.apis)
  }

  function OffersLeaves(s: Supply, offers: seq<Offer>): map<Path, Payload> {
    if offers == [] then map[]
    else OffersLeaves(s, offers[..|offers| - 1]) + OfferLeaves(s, offers[|offers| - 1])
  }

  // ---- The tree while it grows

  /** Resources have the scope that the server says, and namespaces are among those listed. */
  ghost predicate Fits(t: map<Path, Node>, s: Supply) {
    && (forall p :: p in t && |p| == 3 ==> (t[p].isCluster <==> Gvr(p[0], p[1], p[2]) in s.clusterScoped))
    && (forall at :: at in t && |at| == 4 ==> Lodged(at, s))
  }

  ghost predicate Lodged(at: Path, s: Supply)
    requires |at| == 4
  {
    if Gvr(at[0], at[1], at[2]) in s.clusterScoped then at[3] == CLUSTER_LEVEL_NAMESPACE else at[3] in s.namespaces
  }

  /** The resource at `p` has exactly the namespaces that its objects may lie in. */
  ghost predicate Ready(p: Path, t: map<Path, Node>, s: Supply)
    requires |p| == 3
  {
    forall k :: Kid(p, k) in t <==> Lodged(Kid(p, k), s)
  }

  /** The tree has grown below `p` only, from the given depth on. */
  ghost predicate GrownBelow(t: map<Path, Node>, t': map<Path, Node>, p: Path, depth: nat) {
    Part(t, t') && forall q :: q in t' && q !in t ==> Under(q, p) && |q| >= depth
  }

  /** Adds the object of that name, or finds it, and sets what it carries. */
  method HangObject(n: Node, name: string, payload: Payload, ghost t: map<Path, Node>)
    returns (ghost t': map<Path, Node>)
    requires Ok(t) && In(n, t) && |n.path| == 4
    modifies t.Values`children, t.Values`payload
    ensures Ok(t') && Joined(t, t', Kid(n.path, name)) && fresh(t'.Values - t.Values)
    ensures LeafPayloads(t') == old(LeafPayloads(t))[Kid(n.path, name) := payload]
  {
    var o;
    ghost var before := LeafPayloads(t);
    o, t' := n.AddChildren(name, false, t);
    assert LeafPayloads(t) == before;
    OkIsPlaced(t');
    o.payload := payload;
    assert |o.path| == 5;
  }

  method PlaceItem(r: Node, gvr: Gvr, item: Item, ghost s: Supply, ghost t: map<Path, Node>)
    returns (ghost t': map<Path, Node>)
    requires Ok(t) && In(r, t) && r.path == ResourcePath(gvr) && Fits(t, s)
    requires Ready(r.path, t, s)
    modifies t.Values`children, t.Values`payload
    ensures Ok(t') && In(r, t') && Fits(t', s) && fresh(t'.Values - t.Values)
    ensures GrownBelow(t, t', r.path, OBJECT_DEPTH)
    ensures LeafPayloads(t') == old(LeafPayloads(t)) + LeafOf(gvr, item, r.isCluster, s.namespaces)
  {
    hide Ok, Linked, Fits, LeafPayloads, In, Joined, GrownBelow, Lodged, ObjectAllowed, LeafOf;
    t' := t;
    var place := item.namespace;
    if r.isCluster {
      place := CLUSTER_LEVEL_NAMESPACE;
    }
    PlaceFacts(r, gvr, item, s, t, place);
    ghost var before := LeafPayloads(t);
    if ObjectAllowed(gvr.resource, item.name) && r.ContainsChildren(place) {
      var n := r.children[place];
      t' := HangObject(n, item.name, PayloadOf(gvr, item, r.isCluster), t);
      LeafJoined(r, t, t', gvr, place, item.name, s);
    } else {
      assert before + map[] == before;
    }
  }

  lemma PlaceFacts(r: Node, gvr: Gvr, item: Item, s: Supply, t: map<Path, Node>, place: string)
    requires Ok(t) && In(r, t) && r.path == ResourcePath(gvr) && Fits(t, s)
    requires Ready(r.path, t, s)
    requires place == PlaceOf(item, r.isCluster)
    ensures r.ContainsChildren(place) <==> Kid(r.path, place) in t
    ensures r.ContainsChildren(place) ==>
              && place in r.children && In(r.children[place], t) && |r.children[place].path| == 4
              && Kid(r.children[place].path, item.name) == LeafPath(gvr, place, item.name)
    ensures LeafOf(gvr, item, r.isCluster, s.namespaces) ==
              if ObjectAllowed(gvr.resource, item.name) && r.ContainsChildren(place)
              then map[LeafPath(gvr, place, item.name) := PayloadOf(gvr, item, r.isCluster)] else map[]
    ensures GrownBelow(t, t, r.path, OBJECT_DEPTH)
  {
    assert Linked(t, r.path);
    if r.ContainsChildren(place) {
      assert Linked(t, Kid(r.path, place));
    }
  }

  lemma LeafJoined(
    r: Node, t: map<Path, Node>, t': map<Path, Node>, gvr: Gvr, place: string, name: string, s: Supply)
    requires In(r, t) && Fits(t, s) && Joined(t, t', LeafPath(gvr, place, name)) && r.path == ResourcePath(gvr)
    ensures In(r, t') && Fits(t', s) && GrownBelow(t, t', r.path, OBJECT_DEPTH)
  {
  }

  method BuildObjectTree(r: Node, gvr: Gvr, s: Supply, ghost t: map<Path, Node>) returns (ghost t': map<Path, Node>)
    requires Ok(t) && In(r, t) && r.path == ResourcePath(gvr) && Fits(t, s) && Ready(r.path, t, s)
    modifies t.Values`children, t.Values`payload
    ensures Ok(t') && In(r, t') && Fits(t', s) && fresh(t'.Values - t.Values)
    ensures GrownBelow(t, t', r.path, OBJECT_DEPTH)
    ensures LeafPayloads(t') == old(LeafPayloads(t)) + LeavesOf(s, gvr)
  {
    hide Ok, In, Fits, GrownBelow, LeafPayloads, Selected, Ready, Contains;
    t' := t;
    ghost var before := LeafPayloads(t);
    NothingGrown(t, r.path, OBJECT_DEPTH);
    if gvr !in s.items {
      assert before + map[] == before;
      return;
    }
    var items := s.items[gvr];
    ScopeOf(r, gvr, t, s);
    ghost var cluster := r.isCluster;
    SelectedNext(gvr, items, 0, cluster, s.namespaces);
    assert before + map[] == before;
    for i := 0 to |items|
      invariant Ok(t') && In(r, t') && Fits(t', s) && Ready(r.path, t', s) && fresh(t'.Values - t.Values)
      invariant GrownBelow(t, t', r.path, OBJECT_DEPTH)
      invariant LeafPayloads(t') == before + Selected(gvr, items[..i], cluster, s.namespaces)
    {
      ghost var middle := t';
      t' := PlaceItem(r, gvr, items[i], s, t');
      StillReady(t, middle, t', r.path, s);
      SelectedNext(gvr, items, i, cluster, s.namespaces);
      MapAssoc(before, Selected(gvr, items[..i], cluster, s.namespaces), LeafOf(gvr, items[i], cluster, s.namespaces));
    }
    assert items[..|items|] == items;
  }

  lemma NothingGrown(t: map<Path, Node>, p: Path, depth: nat)
    ensures GrownBelow(t, t, p, depth)
  {
  }

  lemma ScopeOf(r: Node, gvr: Gvr, t: map<Path, Node>, s: Supply)
    requires In(r, t) && r.path == ResourcePath(gvr) && Fits(t, s)
    ensures r.isCluster <==> gvr in s.clusterScoped
  {
  }

  lemma SelectedNext(gvr: Gvr, items: seq<Item>, i: nat, cluster: bool, namespaces: set<string>)
    ensures Selected(gvr, items[..0], cluster, namespaces) == map[]
    ensures i < |items| ==>
              Selected(gvr, items[..i + 1], cluster, namespaces) ==
              Selected(gvr, items[..i], cluster, namespaces) + LeafOf(gvr, items[i], cluster, namespaces)
  {
    if i < |items| {
      assert items[..i + 1][..i] == items[..i];
    }
  }

  lemma StillReady(t: map<Path, Node>, t1: map<Path, Node>, t2: map<Path, Node>, p: Path, s: Supply)
    requires GrownBelow(t, t1, p, OBJECT_DEPTH) && GrownBelow(t1, t2, p, OBJECT_DEPTH) && |p| == 3 && Ready(p, t1, s)
    ensures GrownBelow(t, t2, p, OBJECT_DEPTH) && Ready(p, t2, s)
  {
    assert forall k :: |Kid(p, k)| == 4;
  }

  lemma MapAssoc<K, V>(a: map<K, V>, b: map<K, V>, c: map<K, V>)
    ensures a + b + c == a + (b + c)
  {
  }

  // ---- Removing what stayed empty

  ghost predicate EmptyKid(keys: set<Path>, p: Path, q: Path) {
    |q| == |p| + 1 && Under(q, p) && !HasKid(keys, q)
  }

  /** The tree without the children of `p` that have no children. */
  ghost function Trimmed(t: map<Path, Node>, p: Path): map<Path, Node> {
    map q | q in t && !EmptyKid(t.Keys, p, q) :: t[q]
  }

  ghost function TrimmedIn(t: map<Path, Node>, p: Path, done: set<string>): map<Path, Node> {
    map q | q in t && !(EmptyKid(t.Keys, p, q) && q[|p|] in done) :: t[q]
  }

  lemma TrimStep(t: map<Path, Node>, p: Path, done: set<string>, k: string)
    requires Closed(t.Keys) && Kid(p, k) in t && k !in done
    ensures Kid(p, k) in TrimmedIn(t, p, done)
    ensures HasKid(t.Keys, Kid(p, k)) <==> HasKid(TrimmedIn(t, p, done).Keys, Kid(p, k))
    ensures TrimmedIn(t, p, done + {k}) ==
              if HasKid(t.Keys, Kid(p, k)) then TrimmedIn(t, p, done) else Without(TrimmedIn(t, p, done), Kid(p, k))
  {
    var kid := Kid(p, k);
    assert kid[|p|] == k;
    forall j
      ensures Kid(kid, j) in t <==> Kid(kid, j) in TrimmedIn(t, p, done)
    {
      assert |Kid(kid, j)| == |p| + 2;
    }
    forall q | q in t && Under(q, kid) && q != kid
      ensures HasKid(t.Keys, kid)
    {
      var j := q[|kid|];
      assert q[..|kid| + 1] == Kid(kid, j);
      PrefixIn(t.Keys, Kid(kid, j), q);
    }
    forall q | |q| == |p| + 1 && Under(q, p)
      ensures q[|p|] == k <==> q == kid
      ensures q != kid ==> !Under(q, kid)
    {
      assert q == Kid(p, q[|p|]);
    }
  }

  method PruneEmpty(n: Node, ghost t: map<Path, Node>) returns (ghost t': map<Path, Node>)
    requires Ok(t) && In(n, t) && |n.path| < OBJECT_DEPTH - 1
    modifies n`children
    ensures Ok(t') && In(n, t') && t' == Trimmed(t, n.path)
  {
    hide *;
    var todo := n.children.Keys;
    ghost var names := todo;
    ghost var done: set<string> := {};
    TrimBounds(t, n, names);
    t' := t;
    while todo != {}
      invariant names == done + todo && done !! todo
      invariant Ok(t') && In(n, t') && t' == TrimmedIn(t, n.path, done)
    {
      var k :| k in todo;
      t' := PruneOne(n, k, t, t', done);
      todo, done := todo - {k}, done + {k};
    }
    assert done == names;
  }

  lemma TrimBounds(t: map<Path, Node>, n: Node, names: set<string>)
    requires Ok(t) && In(n, t) && names == n.children.Keys
    ensures TrimmedIn(t, n.path, {}) == t && TrimmedIn(t, n.path, names) == Trimmed(t, n.path)
    ensures Closed(t.Keys) && forall k :: k in names <==> Kid(n.path, k) in t
  {
    OkIsClosed(t);
    assert Linked(t, n.path);
    forall q | q in t && EmptyKid(t.Keys, n.path, q)
      ensures q[|n.path|] in names
    {
      assert q == Kid(n.path, q[|n.path|]);
    }
  }

  method PruneOne(n: Node, k: string, ghost t: map<Path, Node>, ghost part: map<Path, Node>, ghost done: set<string>)
    returns (ghost part': map<Path, Node>)
    requires Closed(t.Keys) && Kid(n.path, k) in t && k !in done
    requires Ok(part) && In(n, part) && part == TrimmedIn(t, n.path, done)
    modifies n`children
    ensures Ok(part') && In(n, part') && part' == TrimmedIn(t, n.path, done + {k})
  {
    hide TrimmedIn, EmptyKid, Ok, HasKid;
    TrimStep(t, n.path, done, k);
    assert Linked(part, n.path) && Linked(part, Kid(n.path, k)) by { OkLinks(part, n.path, Kid(n.path, k)); }
    part' := part;
    var child := n.children[k];
    assert HasKid(part.Keys, Kid(n.path, k)) <==> child.children != map[] by { HasKidIff(part, child); }
    if |child.children| == 0 {
      var found;
      found, part' := n.DeleteChildren(child, part);
    }
  }

  lemma OkLinks(t: map<Path, Node>, p: Path, q: Path)
    requires Ok(t) && p in t && q in t
    ensures Linked(t, p) && Linked(t, q)
  {
  }

  // ---- One resource

  method AddNamespace(r: Node, name: string, ghost s: Supply, ghost t: map<Path, Node>)
    returns (ghost t': map<Path, Node>)
    requires Ok(t) && In(r, t) && |r.path| == 3 && Fits(t, s) && Lodged(Kid(r.path, name), s)
    modifies r`children
    ensures Ok(t') && In(r, t') && Fits(t', s) && fresh(t'.Values - t.Values)
    ensures GrownBelow(t, t', r.path, 4) && t'.Keys == t.Keys + {Kid(r.path, name)}
    ensures LeafPayloads(t') == old(LeafPayloads(t))
  {
    var n;
    n, t' := r.AddChildren(name, false, t);
    assert |n.path| == 4;
  }

  ghost function NameSet(names: seq<string>): set<string> {
    set n | n in names
  }

  ghost function KidSet(p: Path, names: set<string>): set<Path> {
    set n | n in names :: Kid(p, n)
  }

  lemma NextKid(p: Path, names: seq<string>, i: nat)
    requires i <= |names|
    ensures NameSet(names[..0]) == {} && KidSet(p, {}) == {} && NameSet(names[..|names|]) == NameSet(names)
    ensures i < |names| ==> NameSet(names[..i + 1]) == NameSet(names[..i]) + {names[i]} && names[i] in NameSet(names)
    ensures i < |names| ==> KidSet(p, NameSet(names[..i + 1])) == KidSet(p, NameSet(names[..i])) + {Kid(p, names[i])}
  {
    if i < |names| {
      assert names[..i + 1] == names[..i] + [names[i]];
      assert NameSet(names[..i + 1]) == NameSet(names[..i]) + {names[i]};
    }
    assert names[..|names|] == names;
  }

  method AddListed(r: Node, namespaces: seq<string>, ghost s: Supply, ghost t: map<Path, Node>)
    returns (ghost t': map<Path, Node>)
    requires Ok(t) && In(r, t) && |r.path| == 3 && Fits(t, s)
    requires forall n :: n in NameSet(namespaces) ==> Lodged(Kid(r.path, n), s)
    modifies r`children
    ensures Ok(t') && In(r, t') && Fits(t', s) && fresh(t'.Values - t.Values)
    ensures GrownBelow(t, t', r.path, 4) && t'.Keys == t.Keys + KidSet(r.path, NameSet(namespaces))
    ensures LeafPayloads(t') == old(LeafPayloads(t))
  {
    hide *;
    t' := t;
    NothingGrown(t, r.path, 4);
    NextKid(r.path, namespaces, 0);
    for i := 0 to |namespaces|
      invariant Ok(t') && In(r, t') && Fits(t', s) && fresh(t'.Values - t.Values) && GrownBelow(t, t', r.path, 4)
      invariant t'.Keys == t.Keys + KidSet(r.path, NameSet(namespaces[..i]))
      invariant LeafPayloads(t') == old(LeafPayloads(t))
    {
      NextKid(r.path, namespaces, i);
      ghost var middle := t';
      t' := AddNamespace(r, namespaces[i], s, t');
      GrownOn(t, middle, t', r.path, 4);
    }
    NextKid(r.path, namespaces, |namespaces|);
  }

  method AddNamespaces(r: Node, namespaces: seq<string>, ghost s: Supply, ghost t: map<Path, Node>)
    returns (ghost t': map<Path, Node>)
    requires Ok(t) && In(r, t) && |r.path| == 3 && Fits(t, s) && s.namespaces == NameSet(namespaces)
    modifies r`children
    ensures Ok(t') && In(r, t') && Fits(t', s) && fresh(t'.Values - t.Values)
    ensures GrownBelow(t, t', r.path, 4) && Ready(r.path, t', s)
    ensures LeafPayloads(t') == old(LeafPayloads(t))
  {
    hide Ok, Linked, In, Fits, GrownBelow, LeafPayloads, Ready, Lodged, KidSet, NameSet;
    LodgedKids(r, t, s);
    if r.isCluster {
      t' := AddNamespace(r, CLUSTER_LEVEL_NAMESPACE, s, t);
      ReadyNow(t, t', r.path, s, {CLUSTER_LEVEL_NAMESPACE});
    } else {
      t' := AddListed(r, namespaces, s, t);
      ReadyNow(t, t', r.path, s, NameSet(namespaces));
    }
  }

  lemma LodgedKids(r: Node, t: map<Path, Node>, s: Supply)
    requires In(r, t) && |r.path| == 3 && Fits(t, s)
    ensures forall n :: Lodged(Kid(r.path, n), s) <==>
                          if r.isCluster then n == CLUSTER_LEVEL_NAMESPACE else n in s.namespaces
    ensures forall k :: Kid(r.path, k) in t ==> Lodged(Kid(r.path, k), s)
    ensures KidSet(r.path, {CLUSTER_LEVEL_NAMESPACE}) == {Kid(r.path, CLUSTER_LEVEL_NAMESPACE)}
  {
  }

  lemma GrownOn(t: map<Path, Node>, t1: map<Path, Node>, t2: map<Path, Node>, p: Path, depth: nat)
    requires GrownBelow(t, t1, p, depth) && GrownBelow(t1, t2, p, depth)
    ensures GrownBelow(t, t2, p, depth)
  {
  }

  lemma ReadyNow(t: map<Path, Node>, t': map<Path, Node>, p: Path, s: Supply, names: set<string>)
    requires |p| == 3 && t'.Keys == t.Keys + KidSet(p, names)
    requires forall k :: Kid(p, k) in t ==> Lodged(Kid(p, k), s)
    requires forall n :: n in names <==> Lodged(Kid(p, n), s)
    ensures Ready(p, t', s)
  {
    forall k
      ensures Kid(p, k) in t' <==> Lodged(Kid(p, k), s)
    {
      assert Lodged(Kid(p, k), s) ==> k in names;
    }
  }

  method BuildNamespaceTree(r: Node, gvr: Gvr, namespaces: NamespaceList, s: Supply, ghost t: map<Path, Node>)
    returns (ghost t': map<Path, Node>)
    requires Ok(t) && In(r, t) && r.path == ResourcePath(gvr) && Fits(t, s) && NoEmptyInner(t.Keys, 4)
    requires s.namespaces == NameSet(namespaces.items)
    modifies t.Values`children, t.Values`payload
    ensures Ok(t') && In(r, t') && Fits(t', s) && fresh(t'.Values - t.Values)
    ensures GrownBelow(t, t', r.path, 4) && NoEmptyInner(t'.Keys, 4)
    ensures LeafPayloads(t') == old(LeafPayloads(t)) + LeavesOf(s, gvr)
  {
    hide *;
    ghost var p := r.path;
    ResourceDepth(gvr);
    InNodes(r, t);
    ghost var t1 := AddNamespaces(r, namespaces.items, s, t);
    ghost var t2 := BuildObjectTree(r, gvr, s, t1);
    GrownTwice(t, t1, t2, p);
    ghost var leaves := LeafPayloads(t2);
    InNodes(r, t2);
    t' := PruneEmpty(r, t2);
    NamespacesTrimmed(t, t2, t', p, s);
    SameLeaves(t2, t');
  }

  lemma ResourceDepth(gvr: Gvr)
    ensures |ResourcePath(gvr)| == 3 && OBJECT_DEPTH == 5
  {
  }

  lemma GrownTwice(t: map<Path, Node>, t1: map<Path, Node>, t2: map<Path, Node>, p: Path)
    requires GrownBelow(t, t1, p, 4) && GrownBelow(t1, t2, p, OBJECT_DEPTH)
    ensures GrownBelow(t, t2, p, 4)
  {
  }

  lemma SameLeaves(t: map<Path, Node>, t': map<Path, Node>)
    requires Part(t', t) && LeafPaths(t'.Keys) == LeafPaths(t.Keys)
    ensures LeafPayloads(t') == LeafPayloads(t)
  {
    forall q | q in t && IsLeaf(q)
      ensures q in t'
    {
      assert q in LeafPaths(t.Keys);
    }
  }

  lemma NamespacesTrimmed(t: map<Path, Node>, t2: map<Path, Node>, t': map<Path, Node>, p: Path, s: Supply)
    requires GrownBelow(t, t2, p, 4) && NoEmptyInner(t.Keys, 4) && Fits(t2, s) && |p| == 3
    requires t' == Trimmed(t2, p)
    ensures GrownBelow(t, t', p, 4) && NoEmptyInner(t'.Keys, 4) && Fits(t', s)
    ensures Part(t', t2) && LeafPaths(t'.Keys) == LeafPaths(t2.Keys)
  {
    forall q | q in t && |q| == 4
      ensures HasKid(t2.Keys, q)
    {
      assert HasKid(t.Keys, q);
      var k :| Kid(q, k) in t.Keys;
      assert Kid(q, k) in t2.Keys;
    }
    forall q | q in t' && 4 <= |q| < OBJECT_DEPTH
      ensures HasKid(t'.Keys, q)
    {
      assert q !in t ==> Under(q, p);
      assert HasKid(t2.Keys, q);
      var k :| Kid(q, k) in t2.Keys;
      assert Kid(q, k) in t'.Keys;
    }
  }

  // ---- One version

  /** Discovery and server agree on the scope of each resource. */
  predicate Consistent(s: Supply, group: string, version: string, apis: seq<ApiResource>) {
    forall api :: api in apis ==> (!api.namespaced <==> Gvr(group, version, api.name) in s.clusterScoped)
  }

  method BuildOneResource(
    v: Node, group: string, version: string, api: ApiResource, namespaces: NamespaceList, s: Supply,
    ghost t: map<Path, Node>)
    returns (ghost t': map<Path, Node>)
    requires Ok(t) && In(v, t) && v.path == [group, version] && Fits(t, s) && NoEmptyInner(t.Keys, 4)
    requires s.namespaces == NameSet(namespaces.items)
    requires !api.namespaced <==> Gvr(group, version, api.name) in s.clusterScoped
    modifies t.Values`children, t.Values`payload
    ensures Ok(t') && In(v, t') && Fits(t', s) && fresh(t'.Values - t.Values)
    ensures GrownBelow(t, t', v.path, 3) && NoEmptyInner(t'.Keys, 4)
    ensures LeafPayloads(t') == old(LeafPayloads(t)) + LeavesOf(s, Gvr(group, version, api.name))
  {
    hide Ok, In, Fits, GrownBelow, NoEmptyInner, LeafPayloads, LeavesOf, Joined;
    var gvr := Gvr(group, version, api.name);
    ghost var before := LeafPayloads(t);
    InNodes(v, t);
    var r;
    ghost var t1;
    r, t1 := v.AddChildren(api.name, !api.namespaced, t);
    JoinedInner(t, t1, r, v, s, gvr);
    assert LeafPayloads(t1) == before by { JoinedLeaves(t, t1, r.path, r); }
    t' := BuildNamespaceTree(r, gvr, namespaces, s, t1);
    GrownUnder(t, t1, t', v, r.path);
  }

  lemma JoinedInner(t: map<Path, Node>, t1: map<Path, Node>, r: Node, v: Node, s: Supply, gvr: Gvr)
    requires Joined(t, t1, r.path) && In(v, t) && In(r, t1) && v.path == [gvr.group, gvr.version]
    requires r.path == Kid(v.path, gvr.resource) && Fits(t, s) && NoEmptyInner(t.Keys, 4)
    requires r.path in t || (r.isCluster <==> gvr in s.clusterScoped)
    ensures r.path == ResourcePath(gvr) && Fits(t1, s) && NoEmptyInner(t1.Keys, 4)
  {
    forall p | p in t1.Keys && 4 <= |p| < OBJECT_DEPTH
      ensures HasKid(t1.Keys, p)
    {
      assert HasKid(t.Keys, p);
      var k :| Kid(p, k) in t.Keys;
      assert Kid(p, k) in t1.Keys;
    }
  }

  lemma JoinedLeaves(t: map<Path, Node>, t1: map<Path, Node>, q: Path, n: Node)
    requires Joined(t, t1, q) && |q| < OBJECT_DEPTH
    ensures LeafPayloads(t1) == LeafPayloads(t)
  {
  }

  lemma GrownUnder(t: map<Path, Node>, t1: map<Path, Node>, t2: map<Path, Node>, v: Node, q: Path)
    requires Joined(t, t1, q) && |q| == 3 && Under(q, v.path) && GrownBelow(t1, t2, q, 4) && In(v, t)
    ensures GrownBelow(t, t2, v.path, 3) && In(v, t2)
  {
  }

  method BuildResourceTree(
    v: Node, group: string, version: string, offer: ApiResourceList, namespaces: NamespaceList, s: Supply,
    ghost t: map<Path, Node>)
    returns (ghost t': map<Path, Node>)
    requires Ok(t) && In(v, t) && v.path == [group, version] && Fits(t, s) && NoEmptyInner(t.Keys, 3)
    requires s.namespaces == NameSet(namespaces.items) && Consistent(s, group, version, offer.apiResources)
    modifies t.Values`children, t.Values`payload
    ensures Ok(t') && In(v, t') && Fits(t', s) && fresh(t'.Values - t.Values)
    ensures GrownBelow(t, t', v.path, 3) && NoEmptyInner(t'.Keys, 3)
    ensures LeafPayloads(t') == old(LeafPayloads(t)) + ApisLeaves(s, group, version, offer.apiResources)
  {
    hide Ok, In, Fits, GrownBelow, NoEmptyInner, LeafPayloads, LeavesOf, ApisLeaves, Trimmed;
    t' := t;
    ghost var before := LeafPayloads(t);
    var apis := offer.apiResources;
    VersionStarts(t, v.path);
    NextApiLeaves(s, group, version, apis, 0);
    assert before + map[] == before;
    for i := 0 to |apis|
      invariant Ok(t') && In(v, t') && Fits(t', s) && fresh(t'.Values - t.Values)
      invariant GrownBelow(t, t', v.path, 3) && NoEmptyInner(t'.Keys, 4)
      invariant LeafPayloads(t') == before + ApisLeaves(s, group, version, apis[..i])
    {
      NextApiLeaves(s, group, version, apis, i);
      if !(!s.clusterInclude && !apis[i].namespaced && apis[i].name !in DEFAULT_CLUSTER_RESOURCES) {
        ghost var middle := t';
        t' := BuildOneResource(v, group, version, apis[i], namespaces, s, t');
        GrownOn(t, middle, t', v.path, 3);
        MapAssoc(before, ApisLeaves(s, group, version, apis[..i]), LeavesOf(s, Gvr(group, version, apis[i].name)));
      } else {
        assert ApisLeaves(s, group, version, apis[..i]) + map[] == ApisLeaves(s, group, version, apis[..i]);
      }
    }
    assert apis[..|apis|] == apis;
    ghost var t2 := t';
    InNodes(v, t2);
    ghost var leaves := LeafPayloads(t2);
    t' := PruneEmpty(v, t2);
    ResourcesTrimmed(t, t2, t', v.path, s);
    SameLeaves(t2, t');
  }

  lemma VersionStarts(t: map<Path, Node>, p: Path)
    requires NoEmptyInner(t.Keys, 3)
    ensures GrownBelow(t, t, p, 3) && NoEmptyInner(t.Keys, 4)
  {
  }

  lemma NextApiLeaves(s: Supply, group: string, version: string, apis: seq<ApiResource>, i: nat)
    requires i <= |apis|
    ensures ApisLeaves(s, group, version, apis[..0]) == map[]
    ensures i < |apis| ==>
              ApisLeaves(s, group, version, apis[..i + 1]) ==
              ApisLeaves(s, group, version, apis[..i]) +
              if Admitted(apis[i], s.clusterInclude) then LeavesOf(s, Gvr(group, version, apis[i].name)) else map[]
  {
    if i < |apis| {
      assert apis[..i + 1][..i] == apis[..i];
    }
  }

  lemma ResourcesTrimmed(t: map<Path, Node>, t2: map<Path, Node>, t': map<Path, Node>, p: Path, s: Supply)
    requires GrownBelow(t, t2, p, 3) && NoEmptyInner(t.Keys, 3) && NoEmptyInner(t2.Keys, 4) && Fits(t2, s) && |p| == 2
    requires t' == Trimmed(t2, p)
    ensures GrownBelow(t, t', p, 3) && NoEmptyInner(t'.Keys, 3) && Fits(t', s)
    ensures Part(t', t2) && LeafPaths(t'.Keys) == LeafPaths(t2.Keys)
  {
    forall q | q in t && 3 <= |q| < OBJECT_DEPTH
      ensures HasKid(t2.Keys, q)
    {
      assert HasKid(t.Keys, q);
      var k :| Kid(q, k) in t.Keys;
      assert Kid(q, k) in t2.Keys;
    }
    forall q | q in t' && 3 <= |q| < OBJECT_DEPTH
      ensures HasKid(t'.Keys, q)
    {
      assert q !in t ==> Under(q, p);
      assert |q| >= 4 ==> HasKid(t2.Keys, q);
      var k :| Kid(q, k) in t2.Keys;
      assert Kid(q, k) in t'.Keys;
    }
  }

  // ---- All versions

  /** Everything but `v` has children from the versions on. */
  ghost predicate FullBut(keys: set<Path>, v: Path) {
    forall q {:trigger HasKid(keys, q)} :: q in keys && 2 <= |q| < OBJECT_DEPTH && q != v ==> HasKid(keys, q)
  }

  method AddVersion(root: Node, group: string, version: string, ghost s: Supply, ghost t: map<Path, Node>)
    returns (v: Node, ghost t': map<Path, Node>)
    requires Ok(t) && In(root, t) && root.path == [] && Fits(t, s) && NoEmptyInner(t.Keys, 2)
    modifies t.Values`children
    ensures Ok(t') && In(root, t') && In(v, t') && v.path == [group, version] && fresh(t'.Values - t.Values)
    ensures Fits(t', s) && NoEmptyInner(t'.Keys, 3) && FullBut(t'.Keys, v.path)
    ensures LeafPayloads(t') == old(LeafPayloads(t))
  {
    hide Ok, In, Fits, GrownBelow, NoEmptyInner, LeafPayloads, Joined, Linked, FullBut;
    ghost var before := LeafPayloads(t);
    InNodes(root, t);
    var g;
    ghost var t1;
    g, t1 := root.AddChildren(group, false, t);
    InNodes(g, t1);
    v, t' := g.AddChildren(version, false, t1);
    assert v.path == [group, version];
    VersionJoined(t, t1, t', g.path, v.path, s);
    assert LeafPayloads(t') == before by { JoinedLeaves(t, t1, g.path, g); JoinedLeaves(t1, t', v.path, v); }
    RootJoined(root, t, t1, t', g.path, v.path);
  }

  /** Removes the version again if nothing was hung on it. */
  method DropVersion(root: Node, v: Node, ghost s: Supply, ghost t2: map<Path, Node>, ghost t3: map<Path, Node>)
    returns (ghost t': map<Path, Node>)
    requires In(root, t2) && root.path == [] && FullBut(t2.Keys, v.path) && GrownBelow(t2, t3, v.path, 3)
    requires Ok(t3) && In(v, t3) && |v.path| == 2 && NoEmptyInner(t3.Keys, 3) && Fits(t3, s)
    modifies t3.Values`children
    ensures Ok(t') && In(root, t') && t'.Values <= t3.Values
    ensures Fits(t', s) && NoEmptyInner(t'.Keys, 2)
    ensures LeafPayloads(t') == old(LeafPayloads(t3))
  {
    hide *;
    ghost var before := LeafPayloads(t3);
    HasKidIff(t3, v);
    OkIsClosed(t3);
    t' := t3;
    if |v.children| == 0 {
      ParentOf(v, t3);
      var found;
      found, t' := v.parent.DeleteChildren(v, t3);
    }
    VersionDropped(root, t2, t3, t', v.path, s);
    SameLeaves(t3, t');
  }

  method BuildOneList(
    root: Node, offer: ApiResourceList, namespaces: NamespaceList, s: Supply, ghost t: map<Path, Node>)
    returns (ok: bool, ghost t': map<Path, Node>)
    requires Ok(t) && In(root, t) && root.path == [] && Fits(t, s) && NoEmptyInner(t.Keys, 2)
    requires s.namespaces == NameSet(namespaces.items) && ConsistentOffer(s, offer.Value())
    modifies t.Values`children, t.Values`payload
    ensures ok <==> ParseGroupVersion(offer.groupVersion).Some?
    ensures var s := offer.groupVersion; !ok <==> exists i, j :: 0 <= i < j < |s| && s[i] == '/' && s[j] == '/'
    ensures ok ==> Ok(t') && In(root, t') && fresh(t'.Values - t.Values) && Fits(t', s) && NoEmptyInner(t'.Keys, 2)
    ensures ok ==> LeafPayloads(t') == old(LeafPayloads(t)) + OfferLeaves(s, offer.Value())
  {
    hide Ok, In, Fits, GrownBelow, NoEmptyInner, LeafPayloads, ApisLeaves, ParseGroupVersion, FullBut, Consistent;
    var parsed := ParseGroupVersion(offer.groupVersion);
    ParsesIff(offer.groupVersion, "", "");
    if parsed.None? {
      return false, t;
    }
    var (group, version) := parsed.value;
    var v;
    ghost var t2, t3;
    v, t2 := AddVersion(root, group, version, s, t);
    t3 := BuildResourceTree(v, group, version, offer, namespaces, s, t2);
    t' := DropVersion(root, v, s, t2, t3);
    ok := true;
  }

  predicate ConsistentOffer(s: Supply, offer: Offer) {
    match ParseGroupVersion(offer.groupVersion)
    case None => true
    case Some((group, version)) => Consistent(s, group, version, offer.apis)
  }

  lemma VersionJoined(t: map<Path, Node>, t1: map<Path, Node>, t2: map<Path, Node>, g: Path, v: Path, s: Supply)
    requires Joined(t, t1, g) && Joined(t1, t2, v) && |g| == 1 && |v| == 2
    requires Fits(t, s) && NoEmptyInner(t.Keys, 2)
    ensures Fits(t2, s) && NoEmptyInner(t2.Keys, 3)
    ensures FullBut(t2.Keys, v)
  {
    forall q | q in t2.Keys && 2 <= |q| < OBJECT_DEPTH && (|q| >= 3 || q != v)
      ensures HasKid(t2.Keys, q)
    {
      assert HasKid(t.Keys, q);
      var k :| Kid(q, k) in t.Keys;
      assert Kid(q, k) in t2.Keys;
    }
  }

  lemma RootJoined(root: Node, t: map<Path, Node>, t1: map<Path, Node>, t2: map<Path, Node>, g: Path, v: Path)
    requires In(root, t) && Joined(t, t1, g) && Joined(t1, t2, v)
    ensures In(root, t2)
  {
  }

  lemma ParentOf(v: Node, t: map<Path, Node>)
    requires Ok(t) && In(v, t) && |v.path| == 2
    ensures v.parent != null && In(v.parent, t) && Kid(v.parent.path, v.name) == v.path && v.parent in t.Values
    ensures v.parent.path != v.path
  {
    assert Linked(t, v.path);
    assert Linked(t, v.path[..1]);
  }

  lemma VersionDropped(
    root: Node, t2: map<Path, Node>, t3: map<Path, Node>, t': map<Path, Node>, v: Path, s: Supply)
    requires In(root, t2) && root.path == [] && FullBut(t2.Keys, v)
    requires GrownBelow(t2, t3, v, 3) && NoEmptyInner(t3.Keys, 3) && Fits(t3, s) && |v| == 2 && Closed(t3.Keys)
    requires t' == if HasKid(t3.Keys, v) then t3 else Without(t3, v)
    ensures NoEmptyInner(t'.Keys, 2) && Fits(t', s) && Part(t', t3) && LeafPaths(t'.Keys) == LeafPaths(t3.Keys)
    ensures In(root, t') && t'.Values <= t3.Values
  {
    forall q | q in t3 && Under(q, v) && q != v
      ensures HasKid(t3.Keys, v)
    {
      assert q[..3] == Kid(v, q[2]);
      PrefixIn(t3.Keys, Kid(v, q[2]), q);
    }
    forall q | q in t'.Keys && 2 <= |q| < OBJECT_DEPTH
      ensures HasKid(t'.Keys, q)
    {
      if q != v {
        if q in t2 {
          assert HasKid(t2.Keys, q);
          var k :| Kid(q, k) in t2.Keys;
          assert Kid(q, k) in t3.Keys;
        }
        assert HasKid(t3.Keys, q);
        var k :| Kid(q, k) in t3.Keys;
        assert Kid(q, k) in t'.Keys;
      }
    }
  }

  ghost function Values(lists: seq<ApiResourceList>): seq<Offer>
    reads lists
  {
    if lists == [] then [] else Values(lists[..|lists| - 1]) + [lists[|lists| - 1].Value()]
  }

  lemma {:induction false} ValuesAt(lists: seq<ApiResourceList>)
    ensures |Values(lists)| == |lists| && forall i :: 0 <= i < |lists| ==> Values(lists)[i] == lists[i].Value()
  {
    if lists != [] {
      ValuesAt(lists[..|lists| - 1]);
    }
  }

  predicate AllParse(offers: seq<Offer>) {
    forall i :: 0 <= i < |offers| ==> ParseGroupVersion(offers[i].groupVersion).Some?
  }

  predicate AllConsistent(s: Supply, offers: seq<Offer>) {
    forall i :: 0 <= i < |offers| ==> ConsistentOffer(s, offers[i])
  }

  lemma NextOffer(s: Supply, offers: seq<Offer>, i: nat)
    requires i <= |offers|
    ensures OffersLeaves(s, offers[..0]) == map[] && OffersLeaves(s, offers[..|offers|]) == OffersLeaves(s, offers)
    ensures i < |offers| ==>
              OffersLeaves(s, offers[..i + 1]) == OffersLeaves(s, offers[..i]) + OfferLeaves(s, offers[i])
  {
    assert offers[..|offers|] == offers;
    if i < |offers| {
      assert offers[..i + 1][..i] == offers[..i];
    }
  }

  lemma ThisOffer(s: Supply, lists: seq<ApiResourceList>, i: nat)
    requires i < |lists| && AllConsistent(s, Values(lists))
    ensures |Values(lists)| == |lists| && Values(lists)[i] == lists[i].Value() && ConsistentOffer(s, lists[i].Value())
    ensures !ParseGroupVersion(lists[i].groupVersion).Some? ==> !AllParse(Values(lists))
  {
    ValuesAt(lists);
  }

  lemma AllParsed(lists: seq<ApiResourceList>)
    requires forall i :: 0 <= i < |lists| ==> ParseGroupVersion(lists[i].groupVersion).Some?
    ensures AllParse(Values(lists))
  {
    ValuesAt(lists);
  }

  /** Goes through the lists. */
  method BuildLists(
    root: Node, lists: seq<ApiResourceList>, namespaces: NamespaceList, s: Supply, ghost t: map<Path, Node>)
    returns (ok: bool, ghost t': map<Path, Node>)
    requires Ok(t) && In(root, t) && root.path == [] && t.Values == {root} && LeafPayloads(t) == map[]
    requires Fits(t, s) && NoEmptyInner(t.Keys, 2)
    requires s.namespaces == NameSet(namespaces.items) && AllConsistent(s, Values(lists))
    modifies root`children, root`payload
    ensures ok <==> AllParse(Values(lists))
    ensures ok ==> Ok(t') && In(root, t') && fresh(t'.Values - {root}) && Fits(t', s) && NoEmptyInner(t'.Keys, 2)
    ensures ok ==> LeafPayloads(t') == OffersLeaves(s, Values(lists))
  {
    hide *;
    t' := t;
    ValuesAt(lists);
    ghost var offers := Values(lists);
    NextOffer(s, offers, 0);
    for i := 0 to |lists|
      invariant Ok(t') && In(root, t') && fresh(t'.Values - t.Values) && Fits(t', s) && NoEmptyInner(t'.Keys, 2)
      invariant forall j :: 0 <= j < i ==> ParseGroupVersion(lists[j].groupVersion).Some?
      invariant LeafPayloads(t') == OffersLeaves(s, offers[..i])
    {
      ThisOffer(s, lists, i);
      NextOffer(s, offers, i);
      ok, t' := BuildOneList(root, lists[i], namespaces, s, t');
      if !ok {
        return;
      }
    }
    AllParsed(lists);
    NextOffer(s, offers, |lists|);
    ok := true;
  }

  /** From an empty root the tree gets exactly the leaves that the offers give, and no
      group, version, resource or namespace without any. */
  method BuildGroupAndVersionTree(
    root: Node, lists: seq<ApiResourceList>, namespaces: NamespaceList, s: Supply, ghost t: map<Path, Node>)
    returns (ok: bool, ghost t': map<Path, Node>)
    requires Ok(t) && t == map[[] := root]
    requires s.namespaces == NameSet(namespaces.items) && AllConsistent(s, Values(lists))
    modifies root`children, root`payload
    ensures ok <==> AllParse(Values(lists))
    ensures ok ==> Ok(t') && In(root, t') && fresh(t'.Values - {root}) && Fits(t', s) && NoEmptyInner(t'.Keys, 1)
    ensures ok ==> LeafPayloads(t') == OffersLeaves(s, Values(lists))
  {
    hide *;
    EmptyStart(t, root, s);
    ok, t' := BuildLists(root, lists, namespaces, s, t);
    if ok {
      ghost var t2 := t';
      t' := PruneEmpty(root, t2);
      GroupsTrimmed(t2, t', s);
      SameLeaves(t2, t');
    }
  }

  lemma EmptyStart(t: map<Path, Node>, root: Node, s: Supply)
    requires t == map[[] := root] && Ok(t)
    ensures In(root, t) && root.path == [] && t.Values == {root} && Fits(t, s) && NoEmptyInner(t.Keys, 2)
    ensures LeafPayloads(t) == map[] && OBJECT_DEPTH == 5
  {
    assert Linked(t, []);
    assert root in t.Values;
  }

  lemma GroupsTrimmed(t2: map<Path, Node>, t': map<Path, Node>, s: Supply)
    requires NoEmptyInner(t2.Keys, 2) && Fits(t2, s) && t' == Trimmed(t2, [])
    ensures NoEmptyInner(t'.Keys, 1) && Fits(t', s)
    ensures Part(t', t2) && LeafPaths(t'.Keys) == LeafPaths(t2.Keys) && t'.Values <= t2.Values
  {
    forall q | q in t' && 1 <= |q| < OBJECT_DEPTH
      ensures HasKid(t'.Keys, q)
    {
      assert HasKid(t2.Keys, q);
      var k :| Kid(q, k) in t2.Keys;
      assert Kid(q, k) in t'.Keys;
    }
  }
}
