/** The resource tree: root, group, version, resource, namespace and object nodes.
    The six node types share one interface in the program, and here one class.

    A tree is described by the ghost map from the path of each node to the node. The
    invariant `Ok` is local: it relates a node to its parent and to its children only. */
module ResourceTree {
  import opened Wrappers

  type Path = seq<string>

  datatype Kind =
    | RootKind
    | ClusterKind // a kind of filter; no node has it
    | GroupKind
    | VersionKind
    | ResourceKind
    | NamespaceKind
    | ObjectKind

  const CLUSTER_LEVEL_NAMESPACE := "cluster"
  const OBJECT_DEPTH := 5

  /** How far below the root the nodes of a kind are. */
  function DepthOf(kind: Kind): Option<nat> {
    match kind
    case RootKind => Some(0)
    case ClusterKind => None
    case GroupKind => Some(1)
    case VersionKind => Some(2)
    case ResourceKind => Some(3)
    case NamespaceKind => Some(4)
    case ObjectKind => Some(5)
  }

  function KindAt(depth: nat): Kind
    requires depth <= OBJECT_DEPTH
  {
    [RootKind, GroupKind, VersionKind, ResourceKind, NamespaceKind, ObjectKind][depth]
  }

  /** The kind of the children that a node of this kind makes. */
  function KindBelow(kind: Kind): Kind
    requires kind != ObjectKind
  {
    match kind
    case RootKind => GroupKind
    case GroupKind => VersionKind
    case VersionKind => ResourceKind
    case ResourceKind => NamespaceKind
    case NamespaceKind => ObjectKind
    case ClusterKind => ClusterKind
  }

  /** The path of the child `k` of the node at `p`. */
  function Kid(p: Path, k: string): Path {
    p + [k]
  }

  /** `q` is the node at `p` or lies below it. */
  predicate Under(q: Path, p: Path) {
    p <= q
  }

  /** A JSON value, as far as the program looks into it. */
  datatype Json = Fields(fields: map<string, Json>) | Scalar(text: string)

  type Definition = map<string, Json>

  datatype Gvr = Gvr(group: string, version: string, resource: string)

  datatype Metadata = Metadata(
    kind: Kind, name: string, group: string, version: string, resource: string, namespace: string, isCluster: bool)

  /** What an object node carries beside its name. */
  datatype Payload = Payload(gvr: Option<Gvr>, definition: Option<Definition>, metadata: Option<Metadata>)

  const BLANK := Payload(None, None, None)

  /** The metadata that agrees with the path of an object. */
  function MetadataAt(q: Path, isCluster: bool): Metadata
    requires |q| == OBJECT_DEPTH
  {
    Metadata(ObjectKind, q[4], q[0], q[1], q[2], q[3], isCluster)
  }

  lemma KidsDiffer(p: Path, k: string, q: Path)
    ensures forall j :: Kid(q, j) == Kid(p, k) <==> q == p && j == k
    ensures Kid(p, k)[..|p|] == p && Kid(p, k)[|p|] == k
  {
    forall j
      ensures Kid(q, j) == Kid(p, k) <==> q == p && j == k
    {
      assert Kid(q, j)[..|Kid(q, j)| - 1] == q && Kid(q, j)[|q|] == j;
      assert Kid(p, k)[..|Kid(p, k)| - 1] == p && Kid(p, k)[|p|] == k;
    }
  }

  /** Only the step from the parent to the root of a subtree leads into it. */
  lemma SubtreeBoundary(q: Path, p: Path)
    requires p != []
    ensures forall j :: Under(Kid(q, j), p) <==> Under(q, p) || Kid(q, j) == p
    ensures q != [] && Under(q[..|q| - 1], p) ==> Under(q, p)
  {
    forall j
      ensures Under(Kid(q, j), p) <==> Under(q, p) || Kid(q, j) == p
    {
      if |p| <= |q| {
        assert Kid(q, j)[..|p|] == q[..|p|];
      } else if |p| == |q| + 1 {
        assert Kid(q, j)[..|p|] == Kid(q, j);
      }
    }
  }

  class Node {
    const kind: Kind
    const name: string
    const parent: Node?
    const isCluster: bool // meaningful for resources only
    var children: map<string, Node>
    var payload: Payload // meaningful for objects only
    ghost const path: Path

    constructor (kind: Kind, name: string, parent: Node?, isCluster: bool, ghost path: Path)
      ensures this.kind == kind && this.name == name && this.parent == parent
      ensures this.isCluster == isCluster && this.path == path
      ensures children == map[] && payload == BLANK
    {
      this.kind, this.name, this.parent, this.isCluster := kind, name, parent, isCluster;
      this.path := path;
      children, payload := map[], BLANK;
    }

    predicate ContainsChildren(name: string)
      reads this`children
    {
      name in children
    }

    function ListChildren(): set<string>
      reads this`children
    {
      children.Keys
    }

    /** Returns the child of that name, making it first if there is none. The scope flag
        of a child that exists already is not touched. */
    method AddChildren(name: string, cluster: bool, ghost t: map<Path, Node>)
      returns (child: Node, ghost t': map<Path, Node>)
      requires Ok(t) && In(this, t) && |path| < OBJECT_DEPTH
      modifies this`children
      ensures Ok(t') && In(this, t') && In(child, t') && child.path == Kid(path, name)
      ensures fresh(t'.Values - t.Values) && t'.Values <= t.Values + {child}
      ensures Joined(t, t', Kid(path, name))
      ensures Kid(path, name) in t ==> t' == t
      ensures Kid(path, name) !in t ==>
                && t' == t[Kid(path, name) := child] && fresh(child)
                && child.isCluster == cluster && child.children == map[] && child.payload == BLANK
    {
      assert Linked(t, path);
      if ContainsChildren(name) {
        child, t' := children[name], t;
        assert Linked(t, Kid(path, name));
      } else {
        NoKidOfNewcomer(t, path, name);
        child := new Node(KindBelow(kind), name, this, cluster, Kid(path, name));
        t' := t[child.path := child];
        children := children[name := child];
        forall p | p in t'
          ensures Linked(t', p)
        {
          KidsDiffer(path, name, p);
          assert p != child.path ==> old(Linked(t, p));
        }
      }
    }

    /** Drops the child that has the other node's name. */
    method DeleteChildren(other: Node, ghost t: map<Path, Node>)
      returns (found: bool, ghost t': map<Path, Node>)
      requires Ok(t) && In(this, t)
      modifies this`children
      ensures found <==> Kid(path, other.name) in t
      ensures t' == Without(t, Kid(path, other.name)) && Ok(t') && In(this, t')
    {
      t' := Without(t, Kid(path, other.name));
      found := ContainsChildren(other.name);
      assert Linked(t, path);
      if found {
        children := children - {other.name};
      }
      forall p | p in t'
        ensures Linked(t', p)
      {
        KidsDiffer(path, other.name, p);
        assert old(Linked(t, p));
        SubtreeBoundary(p, Kid(path, other.name));
      }
    }
  }

  /** At most the node at `q` has been added. */
  ghost predicate Joined(t: map<Path, Node>, t': map<Path, Node>, q: Path) {
    t' == t || (q !in t && t'.Keys == t.Keys + {q} && forall r :: r in t ==> t'[r] == t[r])
  }

  ghost predicate In(n: Node, t: map<Path, Node>) {
    n.path in t && t[n.path] == n
  }

  /** The tree without the subtree at `p`. */
  ghost function Without(t: map<Path, Node>, p: Path): map<Path, Node> {
    map q | q in t && !Under(q, p) :: t[q]
  }

  ghost predicate Linked(t: map<Path, Node>, p: Path)
    requires p in t
    reads t.Values`children
  {
    var n := t[p];
    && n.path == p && |p| <= OBJECT_DEPTH && n.kind == KindAt(|p|)
    && (p == [] ==> n.parent == null)
    && (p != [] ==>
      var up := p[..|p| - 1];
      up in t && n.parent == t[up] && n.name == p[|p| - 1])
    && (forall k :: k in n.children <==> Kid(p, k) in t)
    && (forall k :: k in n.children ==> n.children[k] == t[Kid(p, k)])
  }

  ghost predicate Ok(t: map<Path, Node>)
    reads t.Values`children
  {
    [] in t && forall p {:trigger Linked(t, p)} :: p in t ==> Linked(t, p)
  }

  lemma NoKidOfNewcomer(t: map<Path, Node>, p: Path, k: string)
    requires Ok(t) && Kid(p, k) !in t
    ensures forall j :: Kid(Kid(p, k), j) !in t
  {
    forall j
      ensures Kid(Kid(p, k), j) !in t
    {
      var q := Kid(Kid(p, k), j);
      assert q[..|q| - 1] == Kid(p, k);
      assert q in t ==> Linked(t, q);
    }
  }

  /** The paths of a tree: each one is there with everything above it. */
  ghost predicate Closed(keys: set<Path>) {
    [] in keys && forall q {:trigger Hangs(keys, q)} :: q in keys ==> Hangs(keys, q)
  }

  ghost predicate Hangs(keys: set<Path>, q: Path) {
    |q| <= OBJECT_DEPTH && (q != [] ==> q[..|q| - 1] in keys)
  }

  lemma OkIsClosed(t: map<Path, Node>)
    requires Ok(t)
    ensures Closed(t.Keys)
  {
    forall q | q in t
      ensures Hangs(t.Keys, q)
    {
      assert Linked(t, q);
    }
  }

  lemma {:induction false} PrefixIn(keys: set<Path>, p: Path, q: Path)
    requires Closed(keys) && q in keys && Under(q, p)
    ensures p in keys
    decreases |q|
  {
    assert Hangs(keys, q);
    if p != q {
      PrefixIn(keys, p, q[..|q| - 1]);
    }
  }

  predicate IsLeaf(q: Path) {
    |q| == OBJECT_DEPTH
  }

  /** Between `min` and the objects, no node without children. */
  ghost predicate NoEmptyInner(keys: set<Path>, min: nat) {
    forall p {:trigger HasKid(keys, p)} :: p in keys && min <= |p| < OBJECT_DEPTH ==> HasKid(keys, p)
  }

  ghost predicate HasKid(keys: set<Path>, p: Path) {
    exists k :: Kid(p, k) in keys
  }

  lemma {:induction false} LeafBelow(keys: set<Path>, p: Path) returns (q: Path)
    requires Closed(keys) && p in keys && NoEmptyInner(keys, |p|)
    ensures q in keys && IsLeaf(q) && Under(q, p)
    decreases OBJECT_DEPTH - |p|
  {
    q := p;
    assert Hangs(keys, p);
    if |p| < OBJECT_DEPTH {
      assert HasKid(keys, p);
      var k :| Kid(p, k) in keys;
      q := LeafBelow(keys, Kid(p, k));
    }
  }

  lemma OkIsPlaced(t: map<Path, Node>)
    requires Ok(t)
    ensures forall q :: q in t ==> t[q].path == q
  {
    forall q | q in t
      ensures t[q].path == q
    {
      assert Linked(t, q);
    }
  }

  lemma HasKidIff(t: map<Path, Node>, n: Node)
    requires Ok(t) && In(n, t)
    ensures HasKid(t.Keys, n.path) <==> n.children != map[]
  {
    assert Linked(t, n.path);
    if n.children != map[] {
      var k :| k in n.children;
      assert Kid(n.path, k) in t.Keys;
    }
  }

  lemma InNodes(n: Node, t: map<Path, Node>)
    ensures n.path in t && t[n.path] == n <==> In(n, t)
    ensures In(n, t) ==> n in t.Values
    ensures OBJECT_DEPTH == 5
  {
  }

  /** What is left of a tree when only these leaves and what they hang on are kept. */
  ghost function Spine(t: map<Path, Node>, leaves: set<Path>): map<Path, Node> {
    map q | q in t && (q == [] || exists r :: r in leaves && Under(r, q)) :: t[q]
  }

  ghost function LeafPaths(keys: set<Path>): set<Path> {
    set q | q in keys && IsLeaf(q)
  }

  /** A part of a tree without empty inner nodes is determined by its leaves. */
  lemma SpineIsDetermined(t: map<Path, Node>, part: map<Path, Node>)
    requires Closed(part.Keys) && NoEmptyInner(part.Keys, 1)
    requires part.Keys <= t.Keys && forall q :: q in part ==> part[q] == t[q]
    ensures part == Spine(t, LeafPaths(part.Keys))
  {
    forall q | q in t
      ensures q in part <==> q in Spine(t, LeafPaths(part.Keys))
    {
      if q in part && q != [] {
        var r := LeafBelow(part.Keys, q);
      }
      if r :| r in LeafPaths(part.Keys) && Under(r, q) {
        PrefixIn(part.Keys, q, r);
      }
    }
  }

  /** `q` lies in the subtree of a child of `p` with one of the names. */
  ghost predicate BelowAny(q: Path, p: Path, names: set<string>) {
    |q| > |p| && Under(q, p) && q[|p|] in names
  }

  lemma BelowKid(q: Path, p: Path, k: string)
    ensures Under(q, Kid(p, k)) <==> BelowAny(q, p, {k})
  {
    if Under(q, Kid(p, k)) {
      assert q[|p|] == Kid(p, k)[|p|] == k;
      assert q[..|p|] == Kid(p, k)[..|p|] == p;
    }
    if BelowAny(q, p, {k}) {
      assert q[..|p| + 1] == Kid(p, k);
    }
  }

  lemma StrictlyBelow(keys: set<Path>, p: Path, names: set<string>, q: Path)
    requires Closed(keys) && q in keys
    requires forall k :: k in names <==> Kid(p, k) in keys
    ensures BelowAny(q, p, names) <==> Under(q, p) && q != p
  {
    if Under(q, p) && q != p {
      var k := q[|p|];
      assert q[..|p| + 1] == Kid(p, k);
      PrefixIn(keys, Kid(p, k), q);
    }
  }

  /** `part` is what is left of `t`. */
  ghost predicate Part(part: map<Path, Node>, t: map<Path, Node>) {
    part.Keys <= t.Keys && forall q :: q in part ==> part[q] == t[q]
  }

  // ---- What the nodes carry

  ghost function Payloads(t: map<Path, Node>): map<Path, Payload>
    reads t.Values`payload
  {
    map q | q in t :: t[q].payload
  }

  ghost predicate LeafTagged(t: map<Path, Node>, payloads: map<Path, Payload>, q: Path)
    requires IsLeaf(q)
  {
    && q in t && q in payloads && q[..3] in t
    && payloads[q].metadata == Some(MetadataAt(q, t[q[..3]].isCluster))
    && payloads[q].gvr == Some(Gvr(q[0], q[1], q[2]))
    && (t[q[..3]].isCluster ==> q[3] == CLUSTER_LEVEL_NAMESPACE)
  }

  /** Every object carries metadata that agrees with its place in the tree, and a
      cluster-scoped object lies in the pseudo namespace. */
  ghost predicate Tagged(t: map<Path, Node>, payloads: map<Path, Payload>) {
    forall q {:trigger LeafTagged(t, payloads, q)} :: q in t && IsLeaf(q) ==> LeafTagged(t, payloads, q)
  }

  ghost function LeafPayloads(t: map<Path, Node>): map<Path, Payload>
    reads t.Values`payload
  {
    map q | q in t && IsLeaf(q) :: t[q].payload
  }
}
