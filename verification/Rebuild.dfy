/** Rebuilding the tree from the files of an archive. */
module Rebuild {
  import opened Wrappers
  import opened ResourceTree
  import opened Paths
  import opened Layout
  import opened Store

  function PathOf(m: Metadata): Path {
    [m.group, m.version, m.resource, m.namespace, m.name]
  }

  /** What the files of one directory say, if they can be read. */
  function Decoded(c: Codec, files: map<string, Bytes>): Option<(Metadata, Definition)> {
    if METADATA_FILE !in files then None
    else
      match c.decodeMetadata(files[METADATA_FILE])
      case None => None
      case Some(m) =>
        var name := ObjectName(m.name, JSON_KIND);
        if name !in files then None
        else
          match c.decode(files[name])
          case None => None
          case Some(d) => Some((m, d))
  }

  /** A directory can be read when its metadata can, and when it has the definition of the object that they name. */
  lemma DecodedIff(c: Codec, files: map<string, Bytes>, m: Metadata, d: Definition)
    ensures Decoded(c, files) == Some((m, d)) <==>
              && "metadata" in files && c.decodeMetadata(files["metadata"]) == Some(m)
              && m.name + ".json" in files && c.decode(files[m.name + ".json"]) == Some(d)
  {
    forall name
      ensures ObjectName(name, JSON_KIND) == name + ".json"
    {
      assert name + "." + JSON_KIND == name + ("." + JSON_KIND);
    }
  }

  function DecodedPayload(m: Metadata, d: Definition): Payload {
    Payload(Some(Gvr(m.group, m.version, m.resource)), Some(d), Some(m))
  }

  /** The node at `q` and all that it hangs on are there. */
  ghost predicate Chained(t: map<Path, Node>, t': map<Path, Node>, q: Path)
    requires |q| == 5
  {
    Added(t, t', {q[..1], q[..2], q[..3], q[..4], q})
  }

  ghost predicate Added(t: map<Path, Node>, t': map<Path, Node>, paths: set<Path>) {
    Part(t, t') && t'.Keys == t.Keys + paths
  }

  /** Each resource has the scope that `like` gives it. */
  ghost predicate Scoped(t: map<Path, Node>, like: map<Path, Node>) {
    forall p :: p in t && |p| == 3 ==> p in like && t[p].isCluster == like[p].isCluster
  }

  /** The object of the metadata is there with all that it hangs on, and a resource that is new has the scope
      that they say. */
  ghost predicate Hung(t: map<Path, Node>, t': map<Path, Node>, m: Metadata) {
    && Chained(t, t', PathOf(m))
    && (PathOf(m)[..3] !in t ==> t'[PathOf(m)[..3]].isCluster == m.isCluster)
  }

  method AddTop(root: Node, m: Metadata, ghost t: map<Path, Node>) returns (v: Node, ghost t': map<Path, Node>)
    requires Ok(t) && In(root, t) && root.path == []
    modifies t.Values`children
    ensures Ok(t') && In(root, t') && In(v, t') && v.path == PathOf(m)[..2] && fresh(t'.Values - t.Values)
    ensures Added(t, t', {PathOf(m)[..1], PathOf(m)[..2]})
    ensures LeafPayloads(t') == old(LeafPayloads(t))
  {
    hide Ok, Linked, In, LeafPayloads, Joined, Added;
    ghost var before := LeafPayloads(t);
    InNodes(root, t);
    var g;
    ghost var t1;
    g, t1 := root.AddChildren(m.group, false, t);
    InNodes(g, t1);
    v, t' := g.AddChildren(m.version, false, t1);
    assert g.path == PathOf(m)[..1] && v.path == PathOf(m)[..2];
    JoinedTwice(root, t, t1, t', g, v);
    assert LeafPayloads(t') == before by { InnerJoined(t, t1, g.path); InnerJoined(t1, t', v.path); }
  }

  lemma JoinedTwice(root: Node, t: map<Path, Node>, t1: map<Path, Node>, t2: map<Path, Node>, a: Node, b: Node)
    requires In(root, t) && Joined(t, t1, a.path) && In(a, t1) && Joined(t1, t2, b.path) && In(b, t2)
    ensures Added(t, t2, {a.path, b.path}) && In(root, t2)
  {
  }

  lemma InnerJoined(t: map<Path, Node>, t': map<Path, Node>, q: Path)
    requires Joined(t, t', q) && |q| < OBJECT_DEPTH
    ensures LeafPayloads(t') == LeafPayloads(t)
  {
  }

  method AddResource(v: Node, m: Metadata, ghost t: map<Path, Node>) returns (n: Node, ghost t': map<Path, Node>)
    requires Ok(t) && In(v, t) && v.path == PathOf(m)[..2]
    modifies t.Values`children
    ensures Ok(t') && In(n, t') && n.path == PathOf(m)[..4] && fresh(t'.Values - t.Values)
    ensures Added(t, t', {PathOf(m)[..3], PathOf(m)[..4]})
    ensures PathOf(m)[..3] in t' && (PathOf(m)[..3] !in t ==> t'[PathOf(m)[..3]].isCluster == m.isCluster)
    ensures LeafPayloads(t') == old(LeafPayloads(t))
  {
    hide Ok, Linked, In, LeafPayloads, Joined, Added;
    ghost var before := LeafPayloads(t);
    InNodes(v, t);
    var r;
    ghost var t1;
    r, t1 := v.AddChildren(m.resource, m.isCluster, t);
    InNodes(r, t1);
    n, t' := r.AddChildren(m.namespace, false, t1);
    assert r.path == PathOf(m)[..3] && n.path == PathOf(m)[..4];
    JoinedTwice(v, t, t1, t', r, n);
    SameNode(t1, t', r, n.path);
    assert LeafPayloads(t') == before by { InnerJoined(t, t1, r.path); InnerJoined(t1, t', n.path); }
  }

  lemma SameNode(t: map<Path, Node>, t': map<Path, Node>, r: Node, n: Path)
    requires In(r, t) && Joined(t, t', n)
    ensures r.path in t' && t'[r.path] == r
  {
  }

  method AddObject(n: Node, m: Metadata, ghost t: map<Path, Node>) returns (o: Node, ghost t': map<Path, Node>)
    requires Ok(t) && In(n, t) && n.path == PathOf(m)[..4]
    modifies t.Values`children
    ensures Ok(t') && In(o, t') && o.path == PathOf(m) && fresh(t'.Values - t.Values)
    ensures Added(t, t', {PathOf(m)})
    ensures forall q :: q in t' && IsLeaf(q) && q != PathOf(m) ==> t'[q].payload == old(t[q].payload)
  {
    InNodes(n, t);
    o, t' := n.AddChildren(m.name, false, t);
    assert Kid(PathOf(m)[..4], m.name) == PathOf(m);
  }

  /** Reads one directory into the tree. */
  method RebuildOne(
    root: Node, files: map<string, Bytes>, c: Codec, ghost t: map<Path, Node>)
    returns (ok: bool, ghost t': map<Path, Node>)
    requires Ok(t) && In(root, t) && root.path == []
    modifies t.Values`children, t.Values`payload
    ensures ok <==> Decoded(c, files).Some?
    ensures ok ==> Ok(t') && In(root, t') && fresh(t'.Values - t.Values)
    ensures ok ==> var (m, d) := Decoded(c, files).value;
                   && Hung(t, t', m)
                   && LeafPayloads(t') == old(LeafPayloads(t))[PathOf(m) := DecodedPayload(m, d)]
  {
    hide Ok, In, LeafPayloads, Decoded, Hung, DecodedPayload;
    ok, t' := false, t;
    var decoded := Decoded(c, files);
    if decoded.Some? {
      t' := AddAll(root, decoded.value.0, decoded.value.1, t);
      ok := true;
    }
  }

  method AddAll(root: Node, m: Metadata, d: Definition, ghost t: map<Path, Node>) returns (ghost t': map<Path, Node>)
    requires Ok(t) && In(root, t) && root.path == []
    modifies t.Values`children, t.Values`payload
    ensures Ok(t') && In(root, t') && fresh(t'.Values - t.Values)
    ensures Hung(t, t', m)
    ensures LeafPayloads(t') == old(LeafPayloads(t))[PathOf(m) := DecodedPayload(m, d)]
  {
    hide *;
    ghost var q := PathOf(m);
    PathShape(m);
    var v, n;
    ghost var t1, t2;
    v, t1 := AddTop(root, m, t);
    n, t2 := AddResource(v, m, t1);
    t' := SetObject(n, m, d, t2);
    ChainedUp(root, t, t1, t2, t', m);
  }

  lemma PathShape(m: Metadata)
    ensures |PathOf(m)| == 5
  {
  }

  lemma ChainedUp(
    root: Node, t: map<Path, Node>, t1: map<Path, Node>, t2: map<Path, Node>, t3: map<Path, Node>, m: Metadata)
    requires In(root, t)
    requires Added(t, t1, {PathOf(m)[..1], PathOf(m)[..2]}) && Added(t1, t2, {PathOf(m)[..3], PathOf(m)[..4]})
    requires Added(t2, t3, {PathOf(m)})
    requires PathOf(m)[..3] in t2 && (PathOf(m)[..3] !in t1 ==> t2[PathOf(m)[..3]].isCluster == m.isCluster)
    ensures Hung(t, t3, m) && In(root, t3)
  {
    assert PathOf(m)[..3] != PathOf(m)[..1] && PathOf(m)[..3] != PathOf(m)[..2];
  }

  method SetObject(n: Node, m: Metadata, d: Definition, ghost t: map<Path, Node>) returns (ghost t': map<Path, Node>)
    requires Ok(t) && In(n, t) && n.path == PathOf(m)[..4]
    modifies t.Values`children, t.Values`payload
    ensures Ok(t') && fresh(t'.Values - t.Values)
    ensures Added(t, t', {PathOf(m)})
    ensures LeafPayloads(t') == old(LeafPayloads(t))[PathOf(m) := DecodedPayload(m, d)]
  {
    var o;
    ghost var before := LeafPayloads(t);
    o, t' := AddObject(n, m, t);
    OkIsPlaced(t');
    o.payload := DecodedPayload(m, d);
    assert |PathOf(m)| == 5;
  }

  lemma ChainedStaysFull(t: map<Path, Node>, t': map<Path, Node>, q: Path)
    requires IsLeaf(q) && Chained(t, t', q) && NoEmptyInner(t.Keys, 1)
    ensures NoEmptyInner(t'.Keys, 1)
  {
    forall p | p in t'.Keys && 1 <= |p| < OBJECT_DEPTH
      ensures HasKid(t'.Keys, p)
    {
      if p in t {
        assert HasKid(t.Keys, p);
        var k :| Kid(p, k) in t.Keys;
        assert Kid(p, k) in t'.Keys;
      } else {
        assert p == q[..|p|] && q[..5] == q;
        assert Kid(p, q[|p|]) == q[..|p| + 1];
        assert |p| == 1 || |p| == 2 || |p| == 3 || |p| == 4;
        assert Kid(p, q[|p|]) in t'.Keys;
      }
    }
  }

  // ---- All directories, in any order

  predicate Reads(c: Codec, rm: ResourceMap, dir: string) {
    dir in rm && Decoded(c, rm[dir]).Some?
  }

  ghost function PathAt(c: Codec, rm: ResourceMap, dir: string): Path
    requires Reads(c, rm, dir)
  {
    PathOf(Decoded(c, rm[dir]).value.0)
  }

  ghost function PayloadAt(c: Codec, rm: ResourceMap, dir: string): Payload
    requires Reads(c, rm, dir)
  {
    DecodedPayload(Decoded(c, rm[dir]).value.0, Decoded(c, rm[dir]).value.1)
  }

  /** The leaves of the tree are those that the directories in `done` describe. Where two describe one
      leaf, it carries what one of them says. */
  ghost predicate LeavesRead(c: Codec, rm: ResourceMap, done: set<string>, leaves: map<Path, Payload>) {
    && (forall dir {:trigger Reads(c, rm, dir)} :: dir in done && Reads(c, rm, dir) ==> PathAt(c, rm, dir) in leaves)
    && (forall q :: q in leaves ==> exists dir :: dir in done && Describes(c, rm, dir, q, leaves[q]))
  }

  ghost predicate Describes(c: Codec, rm: ResourceMap, dir: string, q: Path, p: Payload) {
    Reads(c, rm, dir) && PathAt(c, rm, dir) == q && PayloadAt(c, rm, dir) == p
  }

  /** Each resource has the scope that one of the directories in `done` says. */
  ghost predicate ScopesRead(c: Codec, rm: ResourceMap, done: set<string>, t: map<Path, Node>) {
    forall p :: p in t && |p| == 3 ==> exists dir :: dir in done && SaysScope(c, rm, dir, p, t[p].isCluster)
  }

  ghost predicate SaysScope(c: Codec, rm: ResourceMap, dir: string, p: Path, isCluster: bool) {
    Reads(c, rm, dir) && PathAt(c, rm, dir)[..3] == p && Decoded(c, rm[dir]).value.0.isCluster == isCluster
  }

  lemma ReadOneMore(
    c: Codec, rm: ResourceMap, done: set<string>, dir: string, leaves: map<Path, Payload>, m: Metadata, d: Definition)
    requires LeavesRead(c, rm, done, leaves) && dir in rm && Decoded(c, rm[dir]) == Some((m, d))
    ensures LeavesRead(c, rm, done + {dir}, leaves[PathOf(m) := DecodedPayload(m, d)])
  {
    hide Decoded, PathOf, DecodedPayload;
    var more := leaves[PathOf(m) := DecodedPayload(m, d)];
    assert Describes(c, rm, dir, PathOf(m), DecodedPayload(m, d));
    forall q | q in more
      ensures exists a :: a in done + {dir} && Describes(c, rm, a, q, more[q])
    {
      if q == PathOf(m) {
        assert dir in done + {dir};
      } else {
        var a :| a in done && Describes(c, rm, a, q, leaves[q]);
        assert a in done + {dir};
      }
    }
  }

  lemma ScopesMore(
    c: Codec, rm: ResourceMap, done: set<string>, dir: string, t: map<Path, Node>, t': map<Path, Node>, m: Metadata,
    d: Definition)
    requires ScopesRead(c, rm, done, t) && dir in rm && Decoded(c, rm[dir]) == Some((m, d)) && Hung(t, t', m)
    ensures ScopesRead(c, rm, done + {dir}, t')
  {
    hide Decoded;
    forall p | p in t' && |p| == 3
      ensures exists a :: a in done + {dir} && SaysScope(c, rm, a, p, t'[p].isCluster)
    {
      if p in t {
        var a :| a in done && SaysScope(c, rm, a, p, t[p].isCluster);
        assert a in done + {dir};
      } else {
        assert p == PathOf(m)[..3];
        assert SaysScope(c, rm, dir, p, t'[p].isCluster) && dir in done + {dir};
      }
    }
  }

  method BuildResourceTree(root: Node, rm: ResourceMap, c: Codec) returns (ok: bool, ghost t': map<Path, Node>)
    requires root.kind == RootKind && root.path == [] && root.parent == null
    modifies root`children, root`payload
    ensures ok <==> forall dir :: dir in rm ==> Reads(c, rm, dir)
    ensures ok ==> Ok(t') && In(root, t') && fresh(t'.Values - {root}) && NoEmptyInner(t'.Keys, 1)
    ensures ok ==> LeavesRead(c, rm, rm.Keys, LeafPayloads(t')) && ScopesRead(c, rm, rm.Keys, t')
  {
    hide *;
    root.children := map[];
    t' := map[[] := root];
    RootOnly(root, t');
    var todo := rm.Keys;
    ghost var done: set<string> := {};
    NoneRead(c, rm, root);
    ok := true;
    while todo != {} && ok
      invariant rm.Keys == done + todo && done !! todo
      invariant ok ==> forall dir :: dir in done ==> Reads(c, rm, dir)
      invariant !ok ==> exists dir :: dir in rm && !Reads(c, rm, dir)
      invariant ok ==> Ok(t') && In(root, t') && fresh(t'.Values - {root}) && NoEmptyInner(t'.Keys, 1)
      invariant ok ==> LeavesRead(c, rm, done, LeafPayloads(t')) && ScopesRead(c, rm, done, t')
      decreases todo, ok
    {
      var dir :| dir in todo;
      ok, t' := ReadDir(root, rm, dir, c, t', done);
      todo, done := todo - {dir}, done + {dir};
    }
    if ok {
      assert done == rm.Keys;
    }
  }

  lemma RootOnly(root: Node, t: map<Path, Node>)
    requires root.kind == RootKind && root.path == [] && root.parent == null && root.children == map[]
    requires t == map[[] := root]
    ensures Ok(t) && In(root, t) && t.Values == {root} && NoEmptyInner(t.Keys, 1)
    ensures LeafPayloads(t) == map[]
  {
    forall k
      ensures Kid([], k) !in t
    {
      assert |Kid([], k)| == 1;
    }
    assert Linked(t, []);
  }

  lemma NoneRead(c: Codec, rm: ResourceMap, root: Node)
    ensures LeavesRead(c, rm, {}, map[]) && ScopesRead(c, rm, {}, map[[] := root])
  {
  }

  method ReadDir(
    root: Node, rm: ResourceMap, dir: string, c: Codec, ghost t: map<Path, Node>, ghost done: set<string>)
    returns (ok: bool, ghost t': map<Path, Node>)
    requires dir in rm && Ok(t) && In(root, t) && root.path == [] && NoEmptyInner(t.Keys, 1)
    requires LeavesRead(c, rm, done, LeafPayloads(t)) && ScopesRead(c, rm, done, t)
    modifies t.Values`children, t.Values`payload
    ensures ok <==> Reads(c, rm, dir)
    ensures ok ==> Ok(t') && In(root, t') && fresh(t'.Values - t.Values) && NoEmptyInner(t'.Keys, 1)
    ensures ok ==> LeavesRead(c, rm, done + {dir}, LeafPayloads(t')) && ScopesRead(c, rm, done + {dir}, t')
  {
    hide Ok, In, LeafPayloads, Decoded, Hung, DecodedPayload, PathOf, NoEmptyInner, LeavesRead, ScopesRead;
    ghost var leaves := LeafPayloads(t);
    assert Reads(c, rm, dir) <==> Decoded(c, rm[dir]).Some?;
    ok, t' := RebuildOne(root, rm[dir], c, t);
    if ok {
      ghost var (m, d) := Decoded(c, rm[dir]).value;
      HungStaysFull(t, t', m);
      ReadOneMore(c, rm, done, dir, leaves, m, d);
      ScopesMore(c, rm, done, dir, t, t', m, d);
    }
  }

  lemma HungStaysFull(t: map<Path, Node>, t': map<Path, Node>, m: Metadata)
    requires Hung(t, t', m) && NoEmptyInner(t.Keys, 1)
    ensures NoEmptyInner(t'.Keys, 1)
  {
    ChainedStaysFull(t, t', PathOf(m));
  }

  // ---- The round trip

  /** The leaves agree with their paths and with the scopes of a tree. */
  ghost predicate LeavesTagged(leaves: map<Path, Payload>, like: map<Path, Node>) {
    forall q :: q in leaves ==> IsLeaf(q) && TaggedLeaf(leaves[q], q, like)
  }

  ghost predicate TaggedLeaf(p: Payload, q: Path, like: map<Path, Node>)
    requires IsLeaf(q)
  {
    && q[..3] in like && p.gvr == Some(Gvr(q[0], q[1], q[2])) && p.definition.Some?
    && p.metadata == Some(MetadataAt(q, like[q[..3]].isCluster))
  }

  lemma EntryDecodes(c: Codec, q: Path, p: Payload, like: map<Path, Node>)
    requires Invertible(c) && IsLeaf(q) && Writable(p) && TaggedLeaf(p, q, like)
    requires ObjectName(q[4], JSON_KIND) != METADATA_FILE
    ensures Decoded(c, EntryOf(c, q, p)) == Some((p.metadata.value, p.definition.value))
    ensures PathOf(p.metadata.value) == q && DecodedPayload(p.metadata.value, p.definition.value) == p
  {
    assert c.decodeMetadata(c.encodeMetadata(p.metadata.value)) == Some(p.metadata.value);
    assert c.decode(c.encode(p.definition.value)) == Some(p.definition.value);
  }

  lemma RepresentedDir(
    c: Codec, base: Dir, leaves: map<Path, Payload>, rm: ResourceMap, like: map<Path, Node>, dir: string)
    returns (q: Path)
    requires Invertible(c) && Represents(c, base, leaves, rm) && LeavesTagged(leaves, like) && dir in rm
    ensures q in leaves && IsLeaf(q) && ValidNames(q) && dir == DirKey(base, q)
    ensures Reads(c, rm, dir) && PathAt(c, rm, dir) == q && PayloadAt(c, rm, dir) == leaves[q]
    ensures q[..3] in like && like[q[..3]].isCluster == Decoded(c, rm[dir]).value.0.isCluster
  {
    q :| q in leaves && dir == DirKey(base, q);
    JsonNameIsNormal(q[4]);
    EntryDecodes(c, q, leaves[q], like);
  }

  lemma ReadIsUnique(
    c: Codec, base: Dir, leaves: map<Path, Payload>, rm: ResourceMap, like: map<Path, Node>, read: map<Path, Payload>)
    requires Invertible(c) && Represents(c, base, leaves, rm) && LeavesTagged(leaves, like) && Canonical(base)
    requires LeavesRead(c, rm, rm.Keys, read)
    ensures read == leaves
  {
    hide *;
    forall q | q in leaves
      ensures q in read
    {
      LeafIsRead(c, base, leaves, rm, like, read, q);
    }
    forall q | q in read
      ensures q in leaves && read[q] == leaves[q]
    {
      var dir := DirRead(c, rm, read, q);
      var r := RepresentedDir(c, base, leaves, rm, like, dir);
    }
  }

  lemma DirRead(c: Codec, rm: ResourceMap, read: map<Path, Payload>, q: Path) returns (dir: string)
    requires LeavesRead(c, rm, rm.Keys, read) && q in read
    ensures dir in rm && Reads(c, rm, dir) && PathAt(c, rm, dir) == q && PayloadAt(c, rm, dir) == read[q]
  {
    dir :| dir in rm.Keys && Describes(c, rm, dir, q, read[q]);
  }

  lemma LeafIsRead(
    c: Codec, base: Dir, leaves: map<Path, Payload>, rm: ResourceMap, like: map<Path, Node>, read: map<Path, Payload>,
    q: Path)
    requires Invertible(c) && Represents(c, base, leaves, rm) && LeavesTagged(leaves, like) && Canonical(base)
    requires LeavesRead(c, rm, rm.Keys, read) && q in leaves
    ensures q in read
  {
    hide Decoded, PathOf, DirKey, ValidNames, DecodedPayload, Canonical;
    var dir := DirKey(base, q);
    var r := RepresentedDir(c, base, leaves, rm, like, dir);
    DirKeyInjective(base, q, r);
    assert Reads(c, rm, dir);
  }

  /** What represents tagged leaves is read as those leaves, in any order. */
  lemma RepresentedIsRead(
    c: Codec, base: Dir, leaves: map<Path, Payload>, rm: ResourceMap, like: map<Path, Node>, read: map<Path, Payload>)
    requires Invertible(c) && Represents(c, base, leaves, rm) && LeavesTagged(leaves, like) && Canonical(base)
    ensures forall dir :: dir in rm ==> Reads(c, rm, dir)
    ensures LeavesRead(c, rm, rm.Keys, read) ==> read == leaves
  {
    hide Decoded, DirKey, ValidNames, DecodedPayload, Canonical, LeavesRead, Represents;
    forall dir | dir in rm
      ensures Reads(c, rm, dir)
    {
      var q := RepresentedDir(c, base, leaves, rm, like, dir);
    }
    if LeavesRead(c, rm, rm.Keys, read) {
      ReadIsUnique(c, base, leaves, rm, like, read);
    }
  }

  lemma RepresentedScopes(
    c: Codec, base: Dir, leaves: map<Path, Payload>, rm: ResourceMap, like: map<Path, Node>, t: map<Path, Node>)
    requires Invertible(c) && Represents(c, base, leaves, rm) && LeavesTagged(leaves, like) && Canonical(base)
    requires ScopesRead(c, rm, rm.Keys, t)
    ensures Scoped(t, like)
  {
    hide Decoded, DirKey, ValidNames, DecodedPayload, Canonical, Represents;
    forall p | p in t && |p| == 3
      ensures p in like && t[p].isCluster == like[p].isCluster
    {
      var dir :| dir in rm.Keys && SaysScope(c, rm, dir, p, t[p].isCluster);
      var q := RepresentedDir(c, base, leaves, rm, like, dir);
    }
  }

  /** Trees without empty inner nodes and with the same objects have the same nodes. */
  lemma SameLeavesSameTree(a: set<Path>, b: set<Path>)
    requires Closed(a) && Closed(b) && NoEmptyInner(a, 1) && NoEmptyInner(b, 1) && LeafPaths(a) == LeafPaths(b)
    ensures a == b
  {
    LeavesReach(a, b);
    LeavesReach(b, a);
  }

  lemma LeavesReach(a: set<Path>, b: set<Path>)
    requires Closed(a) && Closed(b) && NoEmptyInner(a, 1) && LeafPaths(a) <= LeafPaths(b)
    ensures a <= b
  {
    forall q | q in a
      ensures q in b
    {
      if q != [] {
        var r := LeafBelow(a, q);
        assert r in LeafPaths(a);
        PrefixIn(b, q, r);
      }
    }
  }

  /** Writes the tree below a directory and packs it. */
  method TransformResourceTreeToLocal(root: Node, c: Codec, base: Dir, ghost t: map<Path, Node>)
    returns (archive: Archive)
    requires Canonical(base) && Ok(t) && In(root, t) && root.path == []
    requires WritableTree(t, LeafPayloads(t))
    ensures Holds(c, archive, LeafPayloads(t))
  {
    hide *;
    ghost var leaves := LeafPayloads(t);
    var disk := new Disk();
    RootDir(base, leaves);
    WriteTree(root, Show(base), c, disk, base, t, leaves);
    PackHolds(c, base, leaves, map[], disk.files);
    archive := Pack(disk.files, base);
  }

  lemma RootDir(base: Dir, leaves: map<Path, Payload>)
    ensures Show(DirOf(base, [])) == Show(base) && LeavesUnder(leaves, []) == leaves && OBJECT_DEPTH == 5
  {
    assert base.names + [] == base.names;
    assert DirOf(base, []) == base;
    assert forall q: Path :: Under(q, []);
  }

  /** The archive is one that was written from a tree with these leaves and scopes. */
  ghost predicate WrittenFrom(c: Codec, archive: Archive, leaves: map<Path, Payload>, like: map<Path, Node>) {
    Invertible(c) && Holds(c, archive, leaves) && LeavesTagged(leaves, like)
  }

  lemma WrittenIsRead(
    c: Codec, base: Dir, archive: Archive, rm: ResourceMap, leaves: map<Path, Payload>, like: map<Path, Node>,
    t: map<Path, Node>, read: map<Path, Payload>)
    requires WrittenFrom(c, archive, leaves, like) && Canonical(base)
    requires forall n :: n in archive ==> forall x :: x in n ==> Normal(x)
    requires Grouping(UnPack(archive, base), rm)
    ensures forall dir :: dir in rm ==> Reads(c, rm, dir)
    ensures LeavesRead(c, rm, rm.Keys, read) ==> read == leaves
    ensures ScopesRead(c, rm, rm.Keys, t) ==> Scoped(t, like)
  {
    hide Holds, LeavesTagged, Canonical, Normal, UnPack, Grouping, Reads, LeavesRead, ScopesRead, Scoped;
    ReadRepresents(c, base, leaves, archive, rm);
    RepresentedIsRead(c, base, leaves, rm, like, read);
    if ScopesRead(c, rm, rm.Keys, t) {
      RepresentedScopes(c, base, leaves, rm, like, t);
    }
  }

  /** Unpacks an archive and builds the tree below the root anew. An archive that was written from a tree
      gives the leaves and the scopes of that tree. */
  method TransformLocalToResourceTree(
    archive: Archive, root: Node, c: Codec, base: Dir, ghost leaves: map<Path, Payload>, ghost like: map<Path, Node>)
    returns (ok: bool, ghost t': map<Path, Node>, ghost rm: ResourceMap)
    requires root.kind == RootKind && root.path == [] && root.parent == null && Canonical(base)
    requires forall n :: n in archive ==> forall x :: x in n ==> Normal(x)
    modifies root`children, root`payload
    ensures Grouping(UnPack(archive, base), rm) && (ok <==> forall dir :: dir in rm ==> Reads(c, rm, dir))
    ensures ok ==> Ok(t') && In(root, t') && fresh(t'.Values - {root}) && NoEmptyInner(t'.Keys, 1)
    ensures ok ==> LeavesRead(c, rm, rm.Keys, LeafPayloads(t')) && ScopesRead(c, rm, rm.Keys, t')
    ensures WrittenFrom(c, archive, leaves, like) ==> ok && LeafPayloads(t') == leaves && Scoped(t', like)
  {
    hide *;
    var files := UnPack(archive, base);
    var resourceMap := GetLocalResourceMap(files);
    rm := resourceMap;
    ok, t' := BuildResourceTree(root, resourceMap, c);
    if WrittenFrom(c, archive, leaves, like) {
      ghost var t, read := t', map[];
      if ok {
        read := LeafPayloads(t');
      }
      WrittenIsRead(c, base, archive, rm, leaves, like, t, read);
    }
  }
}
