/** Backup and restore from end to end. */
module Controller {
  import opened Wrappers
  import opened ResourceTree
  import opened Paths
  import opened Filtering
  import opened Discovery
  import opened Build
  import opened BuildProperties
  import opened Cluster
  import opened RestoreWalk = Restore
  import opened RestoreProperties
  import opened Layout
  import opened Store
  import opened Rebuild
  import opened Archives
  import opened Agent
  import opened Restoration

  /** The archive holds exactly these leaves, and they are what a backup can hold. */
  ghost predicate Keeps(c: Codec, archive: Archive, leaves: map<Path, Payload>, like: map<Path, Node>) {
    Store.Holds(c, archive, leaves) && LeavesTagged(leaves, like) && Backed(leaves)
  }

  lemma KeepsIs(c: Codec, archive: Archive, leaves: map<Path, Payload>, like: map<Path, Node>)
    ensures Keeps(c, archive, leaves, like)
       <==> Store.Holds(c, archive, leaves) && LeavesTagged(leaves, like) && Backed(leaves)
  {
  }

  ghost predicate IsEmptyRoot(root: Node)
    reads root
  {
    root.kind == RootKind && root.path == [] && root.parent == null && root.children == map[]
  }

  lemma EmptyRootIs(root: Node)
    requires IsEmptyRoot(root)
    ensures root.kind == RootKind && root.path == [] && root.parent == null && Ok(map[[] := root])
  {
    AloneIsOk(root);
  }

  /** The API server hands out names that can be file names. */
  ghost predicate NamesFit(objects: map<Path, Definition>) {
    forall q :: q in objects && IsLeaf(q) ==> ValidNames(q)
  }

  lemma SnapshotKeys(a: Answer, w: Wish, objects: map<Path, Definition>)
    ensures forall q :: q in Snapshot(a, w, objects) ==>
              && q in objects && IsLeaf(q)
              && Snapshot(a, w, objects)[q].definition == Some(objects[q])
              && Snapshot(a, w, objects)[q].metadata == Some(MetadataAt(q, GvrOf(q) in a.clusterScoped))
              && Snapshot(a, w, objects)[q].gvr == Some(GvrOf(q))
  {
  }

  lemma SnapshotIsTagged(root: Node, t: map<Path, Node>, a: Answer, w: Wish, objects: map<Path, Definition>)
    requires IsTreeOf(root, t, a, w, objects)
    ensures LeavesTagged(Snapshot(a, w, objects), t)
  {
    hide Snapshot;
    var leaves := Snapshot(a, w, objects);
    SnapshotKeys(a, w, objects);
    OkIsClosed(t);
    forall q | q in leaves
      ensures IsLeaf(q) && TaggedLeaf(leaves[q], q, t)
    {
      assert q in LeafPayloads(t);
      PrefixIn(t.Keys, q[..3], q);
    }
  }

  /** Every node lies on the way to an object, so its names are valid when those of the objects are. */
  lemma TreeIsWritable(t: map<Path, Node>, leaves: map<Path, Payload>)
    requires Closed(t.Keys) && NoEmptyInner(t.Keys, 1) && leaves.Keys == LeafPaths(t.Keys)
    requires forall q :: q in leaves ==> ValidNames(q) && Writable(leaves[q])
    ensures WritableTree(t, leaves)
  {
    forall q | q in t
      ensures ValidNames(q)
    {
      if q != [] {
        var r := LeafBelow(t.Keys, q);
        assert r in LeafPaths(t.Keys);
        assert ValidNames(r) && q == r[..|q|];
      }
    }
  }

  lemma SnapshotIsWritable(root: Node, t: map<Path, Node>, a: Answer, w: Wish, objects: map<Path, Definition>)
    requires IsTreeOf(root, t, a, w, objects) && NamesFit(objects)
    ensures WritableTree(t, LeafPayloads(t)) && Ok(t) && In(root, t) && LeafPayloads(t) == Snapshot(a, w, objects)
  {
    hide Snapshot;
    SnapshotKeys(a, w, objects);
    OkIsClosed(t);
    TreeIsWritable(t, LeafPayloads(t));
  }

  lemma NoKidsNoLeaves(root: Node, t: map<Path, Node>)
    requires Ok(t) && In(root, t) && root.path == [] && NoEmptyInner(t.Keys, 1)
    ensures root.children == map[] <==> LeafPayloads(t) == map[]
  {
    OkIsClosed(t);
    assert Linked(t, []);
    if root.children == map[] {
      forall q | q in t && IsLeaf(q)
        ensures HasKid(t.Keys, [])
      {
        PrefixIn(t.Keys, q[..1], q);
        assert q[..1] == Kid([], q[0]);
      }
    } else {
      var k :| k in root.children;
      assert Kid([], k) in t.Keys;
      var q := LeafBelow(t.Keys, Kid([], k));
      assert q in LeafPayloads(t);
    }
  }

  /** Stores what the cluster holds, thinned out by the filters. */
  method Backup(
    root: Node, tree: string, store: ObjectStore, c: Codec, base: Dir, filters: map<string, ResourceFilter>, a: Answer,
    log: string, ghost objects: map<Path, Definition>)
    returns (ok: bool, ghost archive: Archive, ghost like: map<Path, Node>)
    requires IsEmptyRoot(root) && Normal(tree) && CleanKeys(store.objects.Keys) && Canonical(base)
    requires OneFilterPerKey(filters) && NamesFit(objects) && Coherent(a) && Honest(a, objects)
    modifies root`children, root`payload, filters.Values, store
    ensures ArchivesKept(old(store.objects), store.objects) && CleanKeys(store.objects.Keys)
    ensures ChangedOnlyIn(old(store.objects), store.objects, RemoteDir(root.name, BACKUP_KIND, tree))
    ensures ok ==>
      var leaves := Snapshot(a, old(WishOf(filters)), objects);
      && (root.children == map[] <==> leaves == map[])
      && (leaves != map[] ==>
          IsStored(store.objects, root.name, BACKUP_KIND, tree, archive) && Keeps(c, archive, leaves, like))
    ensures ok ==> IsLogged(store.objects, root.name, BACKUP_KIND, tree, log)
    ensures ok && store.reliable ==>
      IsReported(store.objects, root.name, BACKUP_KIND, tree, c.encodeStatus("Success", map[]))
    ensures store.reliable && AllParse(a.offers) ==>
      (ok <==> Snapshot(a, old(WishOf(filters)), objects) == map[]
               || !Exists(old(store.objects).Keys, root.name, BACKUP_KIND, tree))
  {
    hide *;
    EmptyRootIs(root);
    ghost var w := WishOf(filters);
    ghost var leaves := Snapshot(a, w, objects);
    ArchiveNames();
    NothingChanged(store.objects, RemoteDir(root.name, BACKUP_KIND, tree));
    archive := map[];
    ok, like := GetResourceTree(root, filters, a, objects);
    if !ok {
      return;
    }
    SnapshotIsTagged(root, like, a, w, objects);
    SnapshotIsWritable(root, like, a, w, objects);
    SnapshotIsBacked(a, w, objects);
    TreeOfIs(root, like, a, w, objects);
    NoKidsNoLeaves(root, like);
    var files := map[];
    if root.children != map[] {
      files := TransformResourceTreeToLocal(root, c, base, like);
      KeepsIs(c, files, leaves, like);
    }
    archive := files;
    StatusTexts();
    ok := StoreRun(store, root.name, BACKUP_KIND, tree, files, root.children == map[], log,
                   c.encodeStatus(STATUS_SUCCESS, map[]));
  }

  // ---- Restoring

  /** The leaves that pass all filters. */
  ghost function Filtered(leaves: map<Path, Payload>, rootName: string, filters: map<string, Filter>)
    : map<Path, Payload>
  {
    map q | q in leaves && IsLeaf(q) && LeafPassesAll(rootName, q, filters) :: leaves[q]
  }

  /** Which leaves an archive gives: those whose names are in the set of each filter that includes, and in none of
      a filter that excludes. */
  lemma FilteredSays(leaves: map<Path, Payload>, rootName: string, filters: map<string, Filter>, q: Path)
    requires |q| == 5
    ensures q in Filtered(leaves, rootName, filters) <==>
              q in leaves && forall key :: key in filters ==>
                && filters[key].kind != ClusterKind
                && (NameAt(filters[key].kind, rootName, q) in filters[key].names <==> filters[key].including)
  {
    forall key | key in filters
      ensures LeafPasses(rootName, q, filters[key]) <==>
        && filters[key].kind != ClusterKind
        && (NameAt(filters[key].kind, rootName, q) in filters[key].names <==> filters[key].including)
    {
      LeafPassesIff(rootName, q, filters[key]);
    }
  }

  lemma FilteredIs(
    t0: map<Path, Node>, t: map<Path, Node>, leaves: map<Path, Payload>, rootName: string, filters: map<string, Filter>)
    requires LeafPayloads(t0) == leaves && Part(t, t0)
    requires LeafPaths(t.Keys) == PassingLeaves(t0.Keys, rootName, filters)
    ensures LeafPayloads(t) == Filtered(leaves, rootName, filters)
  {
    forall q
      ensures q in LeafPayloads(t) <==> q in Filtered(leaves, rootName, filters)
    {
      assert q in LeafPaths(t.Keys) <==> q in LeafPayloads(t);
      assert q in PassingLeaves(t0.Keys, rootName, filters) <==> q in Filtered(leaves, rootName, filters);
    }
  }

  /** A tree read from an archive carries metadata that agree with it. */
  lemma LoadedIsTagged(
    t0: map<Path, Node>, t: map<Path, Node>, leaves: map<Path, Payload>, like: map<Path, Node>)
    requires LeafPayloads(t0) == leaves && LeavesTagged(leaves, like) && Scoped(t0, like) && Backed(leaves)
    requires Closed(t.Keys) && Part(t, t0)
    ensures Tagged(t, Payloads(t))
  {
    hide ObjectAllowed;
    forall q | q in t && IsLeaf(q)
      ensures LeafTagged(t, Payloads(t), q)
    {
      PrefixIn(t.Keys, q[..3], q);
      assert q in LeafPayloads(t0);
      assert TaggedLeaf(leaves[q], q, like) && LeafBacked(q, leaves[q]);
      assert t[q[..3]].isCluster == like[q[..3]].isCluster;
    }
  }

  lemma SomeLeaf(t: map<Path, Node>, leaves: map<Path, Payload>)
    requires LeafPayloads(t) == leaves && leaves != map[]
    ensures HasLeaf(t.Keys)
  {
    var q :| q in leaves;
    assert q in LeafPayloads(t);
  }

  lemma SomeKid(t: map<Path, Node>, rootName: string, filters: map<string, Filter>, t0: map<Path, Node>)
    requires Closed(t.Keys) && LeafPaths(t.Keys) == PassingLeaves(t0.Keys, rootName, filters)
    requires exists q :: q in t0 && IsLeaf(q) && LeafPassesAll(rootName, q, filters)
    ensures HasKid(t.Keys, [])
  {
    var q :| q in t0 && IsLeaf(q) && LeafPassesAll(rootName, q, filters);
    assert q in LeafPaths(t.Keys);
    PrefixIn(t.Keys, q[..1], q);
    assert q[..1] == Kid([], q[0]);
  }

  datatype Loading = Loaded | NotFound | NothingLeft

  /** The archive of that name, if there is one, is one that a backup has stored. */
  ghost predicate Filed(
    objects: Objects, name: string, tree: string, c: Codec, leaves: map<Path, Payload>, like: map<Path, Node>)
  {
    var key := JsonKey(name, BACKUP_KIND, tree);
    key in objects ==>
      objects[key].JsonArchive? && Keeps(c, objects[key].files, leaves, like) && leaves != map[]
  }

  lemma FiledIs(
    objects: Objects, name: string, tree: string, c: Codec, leaves: map<Path, Payload>, like: map<Path, Node>)
    requires Filed(objects, name, tree, c, leaves, like) && JsonKey(name, BACKUP_KIND, tree) in objects
    ensures var blob := objects[JsonKey(name, BACKUP_KIND, tree)];
            blob.JsonArchive? && Keeps(c, blob.files, leaves, like) && leaves != map[]
  {
  }

  /** The archive is there, and the tree name is one that the check finds. */
  ghost predicate CanBeFound(objects: Objects, name: string, tree: string) {
    JsonKey(name, BACKUP_KIND, tree) in objects && Normal(tree)
  }

  lemma WhenFound(objects: Objects, name: string, tree: string)
    requires CleanKeys(objects.Keys)
    ensures CanBeFound(objects, name, tree)
       <==> JsonKey(name, BACKUP_KIND, tree) in objects && Exists(objects.Keys, name, BACKUP_KIND, tree)
  {
    ArchiveNames();
    if JsonKey(name, BACKUP_KIND, tree) in objects {
      CheckIsExact(objects.Keys, name, BACKUP_KIND, tree);
    }
  }

  /** Thins the tree out; the program fails when nothing is left. */
  method Sift(
    root: Node, filters: map<string, Filter>, ghost t0: map<Path, Node>, ghost leaves: map<Path, Payload>,
    ghost like: map<Path, Node>)
    returns (r: Loading, ghost t: map<Path, Node>)
    requires Ok(t0) && In(root, t0) && root.path == [] && NoEmptyInner(t0.Keys, 1)
    requires LeafPayloads(t0) == leaves != map[] && LeavesTagged(leaves, like) && Scoped(t0, like) && Backed(leaves)
    modifies t0.Values`children
    ensures !r.NotFound? && (r.NothingLeft? <==> Filtered(leaves, root.name, filters) == map[])
    ensures r.Loaded? ==> Restorable(root, t) && t.Values <= t0.Values
    ensures r.Loaded? ==> LeafPayloads(t) == Filtered(leaves, root.name, filters)
  {
    hide *;
    SomeLeaf(t0, leaves);
    var panicked;
    panicked, t := FiltrateResources(root, filters, t0);
    assert LeafPayloads(t0) == leaves;
    FilteredNone(t0, leaves, root.name, filters);
    if panicked {
      return NothingLeft, t;
    }
    r := Loaded;
    OkIsClosed(t);
    SpinePart(t0, PassingLeaves(t0.Keys, root.name, filters), root);
    FilteredIs(t0, t, leaves, root.name, filters);
    LoadedIsTagged(t0, t, leaves, like);
    SomeKid(t, root.name, filters, t0);
    RestorableIs(root, t);
  }

  lemma SpinePart(t: map<Path, Node>, leaves: set<Path>, root: Node)
    ensures Part(Spine(t, leaves), t) && Spine(t, leaves).Values <= t.Values
  {
  }

  lemma FilteredNone(t: map<Path, Node>, leaves: map<Path, Payload>, rootName: string, filters: map<string, Filter>)
    requires LeafPayloads(t) == leaves
    ensures Filtered(leaves, rootName, filters) == map[]
       <==> forall q :: q in t && IsLeaf(q) ==> !LeafPassesAll(rootName, q, filters)
  {
    assert forall q :: q in t && IsLeaf(q) <==> q in leaves;
    assert forall q :: q in Filtered(leaves, rootName, filters) <==>
             q in leaves && IsLeaf(q) && LeafPassesAll(rootName, q, filters);
  }

  lemma WrittenIs(c: Codec, archive: Archive, leaves: map<Path, Payload>, like: map<Path, Node>)
    ensures WrittenFrom(c, archive, leaves, like)
       <==> Invertible(c) && Store.Holds(c, archive, leaves) && LeavesTagged(leaves, like)
  {
  }

  /** Reads the tree from its archive, and thins it out. */
  method Load(
    root: Node, tree: string, store: ObjectStore, c: Codec, base: Dir, filters: map<string, Filter>,
    ghost leaves: map<Path, Payload>, ghost like: map<Path, Node>)
    returns (r: Loading, ghost t: map<Path, Node>)
    requires root.kind == RootKind && root.path == [] && root.parent == null
    requires CleanKeys(store.objects.Keys) && Canonical(base) && Invertible(c)
    requires Filed(store.objects, root.name, tree, c, leaves, like)
    modifies root`children, root`payload
    ensures r.NotFound? <==> !CanBeFound(store.objects, root.name, tree)
    ensures r.NothingLeft? <==>
      CanBeFound(store.objects, root.name, tree) && Filtered(leaves, root.name, filters) == map[]
    ensures r.Loaded? ==> Restorable(root, t) && fresh(t.Values - {root})
    ensures r.Loaded? ==> LeafPayloads(t) == Filtered(leaves, root.name, filters) != map[]
  {
    hide *;
    var key := JsonKey(root.name, BACKUP_KIND, tree);
    t := map[];
    WhenFound(store.objects, root.name, tree);
    if key !in store.objects || !Exists(store.objects.Keys, root.name, BACKUP_KIND, tree) {
      return NotFound, t;
    }
    FiledIs(store.objects, root.name, tree, c, leaves, like);
    var files := store.objects[key].files;
    ghost var t0;
    var ok;
    KeepsIs(c, files, leaves, like);
    ghost var rm;
    WrittenIs(c, files, leaves, like);
    HeldNamesAreNormal(c, files, leaves);
    ok, t0, rm := TransformLocalToResourceTree(files, root, c, base, leaves, like);
    SomeLeaf(t0, leaves);
    r, t := Sift(root, filters, t0, leaves, like);
  }

  // ---- The run as a whole

  datatype Result = Restored | Missing | Panicked | Failed

  /** The cluster is one that the objects can be restored into. */
  ghost predicate Matches(a: Answer, leaves: map<Path, Payload>, objects: map<Path, Definition>) {
    Covers(a, leaves) && Inhabited(a, objects) && NAMESPACES in a.clusterScoped
  }

  /** Only cluster-scoped objects lie in the pseudo namespace: no namespace is called like it. */
  ghost predicate NoNamespaceCalledCluster(a: Answer, leaves: map<Path, Payload>) {
    forall q :: q in leaves && IsLeaf(q) && q[3] == CLUSTER_LEVEL_NAMESPACE ==> GvrOf(q) in a.clusterScoped
  }

  /** The walk through the tree that holds these leaves, over these worlds. */
  ghost predicate Walks(
    w: Walk, a: Answer, leaves: map<Path, Payload>, before: World, after: World, reliable: bool)
  {
    && IsWalk(w, a, reliable) && w.start.world == before && w.now.world == after
    && LeavesAt(w) == leaves && LeafPaths(w.tb.Keys) == leaves.Keys
    && Tagged(w.tb, w.start.payloads) && NoEmptyInner(w.tb.Keys, 1)
  }

  /** The object is there; when it was missing, it is as it was saved, but for what the server fills in. */
  ghost predicate BroughtBack(p: Payload, q: Path, before: map<Path, Definition>, after: map<Path, Definition>) {
    q in after && p.definition.Some? && (q !in before ==> after[q] == Strip(p.definition.value))
  }

  /** What a restore has done to a cluster that matches. */
  ghost predicate Accomplished(
    a: Answer, leaves: map<Path, Payload>, before: World, after: World, reliable: bool, left: set<Path>)
  {
    && (forall q :: q in before.objects ==> q in after.objects && after.objects[q] == before.objects[q])
    && (reliable && NoNamespaceCalledCluster(a, leaves) ==>
         forall q :: q in leaves ==> BroughtBack(leaves[q], q, before.objects, after.objects))
    && (leaves.Keys <= before.objects.Keys ==> after == before && left == {[]})
    && Inhabited(a, after.objects)
    && (WellScoped(before.objects, a.clusterScoped) ==> WellScoped(after.objects, a.clusterScoped))
  }

  lemma WalkAccomplishes(
    w: Walk, a: Answer, leaves: map<Path, Payload>, before: World, after: World, reliable: bool)
    requires Walks(w, a, leaves, before, after, reliable)
    requires Backed(leaves) && Matches(a, leaves, before.objects) && Honest(a, before.objects)
    ensures Accomplished(a, leaves, before, after, reliable, w.tb'.Keys)
  {
    hide LeafBacked, Backed, Covers, Inhabited, Tagged, Honest, NoEmptyInner, WalkedAll, IsWalk, LeavesAt, LeafPaths;
    hide Snapshot, Strip, LeafTagged, CoversLeaf, WellScoped;
    forall q | q in before.objects
      ensures q in after.objects && after.objects[q] == before.objects[q]
    {
      PresentStays(w, a, reliable, q);
    }
    if reliable && NoNamespaceCalledCluster(a, leaves) {
      forall q | q in leaves
        ensures BroughtBack(leaves[q], q, before.objects, after.objects)
      {
        LeafLength(w.tb.Keys, q);
        InPseudo(a, leaves, q);
        LeafFacts(w, a, true, q);
        Defined(w, a, q);
        AllIsThere(w, a, q);
        if q !in before.objects {
          ComesBackAsSaved(w, a, q);
        }
      }
    }
    if leaves.Keys <= before.objects.Keys {
      NothingIsWritten(w, a, reliable);
    }
    StillInhabited(w, a, reliable);
    if WellScoped(before.objects, a.clusterScoped) {
      StillWellScoped(w, a, reliable);
    }
  }

  /** When nothing is missing, nothing is asked of the cluster. */
  lemma NothingIsAsked(
    w: Walk, a: Answer, leaves: map<Path, Payload>, before: World, after: World, reliable: bool)
    requires Walks(w, a, leaves, before, after, reliable) && leaves.Keys <= before.objects.Keys
    requires Backed(leaves) && Matches(a, leaves, before.objects) && Honest(a, before.objects)
    ensures w.events == [] && w.tb'.Keys == {[]} && after == before
  {
    hide LeafBacked, Backed, Covers, Inhabited, Tagged, Honest, NoEmptyInner, WalkedAll, IsWalk, LeavesAt, LeafPaths;
    NothingIsWritten(w, a, reliable);
  }

  /** What a run reports of itself, for objects whose group is not a dot name. */
  lemma RestoreReports(
    w: Walk, a: Answer, leaves: map<Path, Payload>, before: World, after: World, reliable: bool)
    requires Walks(w, a, leaves, before, after, reliable) && Storable(leaves)
    requires forall q :: q in leaves && |q| > 0 ==> q[0] !in {".", ".."}
    requires before.status == STATUS_SUCCESS && before.failed == map[]
    ensures after.status == (if after.failed == map[] then "Success" else "PartialFailed")
    ensures forall q :: ValidPath(q) ==>
              (DirPath(q) in after.failed <==>
               exists e :: e in w.events && e.ObjectWritten? && e.path == q && e.outcome == Rejected)
    ensures forall key :: key in after.failed ==> exists q :: q in leaves && DirPath(q) == key
  {
    hide *;
    WalksParts(w, a, leaves, before, after, reliable);
    WalkIs(w, a, reliable);
    CarvedFromBackup(w.tb, w.tc, w.tb', w.tc', w.start, w.now, w.events, reliable);
    forall q
      ensures q in w.tb && IsLeaf(q) ==> ValidPath(q) && q in leaves
    {
      AtLeaf(w.tb.Keys, q);
      if q in leaves {
        StorablePath(leaves, q);
      }
    }
    FailuresAccounted(w.tb, w.tc, w.tb', w.tc', w.start, w.now, w.events, reliable);
  }

  lemma WalksParts(
    w: Walk, a: Answer, leaves: map<Path, Payload>, before: World, after: World, reliable: bool)
    requires Walks(w, a, leaves, before, after, reliable)
    ensures IsWalk(w, a, reliable) && w.start.world == before && w.now.world == after
    ensures LeafPaths(w.tb.Keys) == leaves.Keys
  {
  }

  lemma StorablePath(leaves: map<Path, Payload>, q: Path)
    requires Storable(leaves) && q in leaves && (|q| > 0 ==> q[0] !in {".", ".."})
    ensures ValidPath(q)
  {
  }

  lemma AccomplishedIs(
    a: Answer, leaves: map<Path, Payload>, before: World, after: World, reliable: bool, left: set<Path>)
    requires Accomplished(a, leaves, before, after, reliable, left)
    ensures forall q :: q in before.objects ==> q in after.objects && after.objects[q] == before.objects[q]
    ensures reliable && NoNamespaceCalledCluster(a, leaves) ==>
              forall q :: q in leaves ==> BroughtBack(leaves[q], q, before.objects, after.objects)
    ensures leaves.Keys <= before.objects.Keys ==> after == before && left == {[]}
    ensures Inhabited(a, after.objects)
    ensures WellScoped(before.objects, a.clusterScoped) ==> WellScoped(after.objects, a.clusterScoped)
  {
  }

  lemma InPseudo(a: Answer, leaves: map<Path, Payload>, q: Path)
    requires NoNamespaceCalledCluster(a, leaves) && q in leaves && |q| == 5
    ensures q[3] == CLUSTER_LEVEL_NAMESPACE ==> GvrOf(q) in a.clusterScoped
  {
  }

  /** What is left of the tree can be written. */
  lemma RestIsWritable(w: Walk, a: Answer, leaves: map<Path, Payload>, before: World, after: World, reliable: bool)
    requires Walks(w, a, leaves, before, after, reliable) && Storable(leaves)
    requires Ok(w.tb') && Payloads(w.tb) == w.now.payloads
    ensures WritableTree(w.tb', LeafPayloads(w.tb'))
  {
    hide ValidNames, Snapshot, Reported, DueLeaves, DueSpaces, MissingBelow, Ran, EventFine, Grown, Truthful, Tagged;
    BackupMinusCurrent(w.tb, w.tc, w.tb', w.tc', w.start, w.now, w.events, reliable);
    var rest := LeafPayloads(w.tb');
    assert rest.Keys == LeafPaths(w.tb'.Keys);
    forall q | q in rest
      ensures ValidNames(q) && Writable(rest[q])
    {
      assert q in LeafPaths(w.tb'.Keys) && q in LeafPaths(w.tb.Keys) && q in leaves;
      assert rest[q] == Payloads(w.tb)[q];
      assert w.start.payloads[q] == leaves[q];
    }
    TreeIsWritable(w.tb', rest);
  }

  lemma RestIsSaved(w: Walk, a: Answer, leaves: map<Path, Payload>, before: World, after: World, reliable: bool)
    requires Walks(w, a, leaves, before, after, reliable) && Storable(leaves)
    requires Ok(w.tb') && Payloads(w.tb) == w.now.payloads
    ensures LeafPayloads(w.tb') == Remainder(leaves, Snapshot(a, EVERYTHING, before.objects).Keys, w.events)
    ensures NoEmptyInner(w.tb'.Keys, 1)
  {
    hide IsWalk, WalkedAll, Snapshot, ValidNames, Remainder, Tagged, NoEmptyInner, Ok;
    RestIsRemainder(w, a, reliable);
    WalkIs(w, a, reliable);
    BackupMinusCurrent(w.tb, w.tc, w.tb', w.tc', w.start, w.now, w.events, reliable);
    PartOfBackup(w, reliable);
  }

  lemma PartOfBackup(w: Walk, reliable: bool)
    requires WalkedAll(w.tb, w.tc, w.tb', w.tc', w.start, w.now, w.events, reliable)
    ensures Part(w.tb', w.tb)
  {
  }

  lemma RootStays(root: Node, w: Walk, reliable: bool)
    requires In(root, w.tb) && root.path == []
    requires WalkedAll(w.tb, w.tc, w.tb', w.tc', w.start, w.now, w.events, reliable)
    ensures In(root, w.tb')
  {
  }

  /** Compares the loaded tree with the cluster and writes what is missing. */
  method Bring(
    root: Node, server: ApiServer, status: MissionStatus, a: Answer, ghost tb: map<Path, Node>,
    ghost leaves: map<Path, Payload>)
    returns (ok: bool, ghost w: Walk)
    requires Restorable(root, tb) && LeafPayloads(tb) == leaves && Storable(leaves)
    requires Coherent(a) && Honest(a, server.objects)
    modifies tb.Values`children, tb.Values`payload, server, status
    ensures ok ==> Walks(w, a, leaves, old(WorldOf(server, status)), WorldOf(server, status), server.reliable)
    ensures ok ==> Ok(w.tb') && In(root, w.tb') && WritableTree(w.tb', LeafPayloads(w.tb'))
    ensures ok ==> NoEmptyInner(w.tb'.Keys, 1) && root.path == []
    ensures ok ==>
      LeafPayloads(w.tb') == Remainder(leaves, Snapshot(a, EVERYTHING, old(server.objects)).Keys, w.events)
    ensures !ok ==> WorldOf(server, status) == old(WorldOf(server, status))
    ensures AllParse(a.offers) ==> ok
  {
    hide *;
    ghost var start := StateOf(server, status, tb);
    StateIs(server, status, tb);
    RestorableIs(root, tb);
    LeavesOfTree(tb, leaves);
    ghost var tb', tc, tc', events;
    ok, tb', tc, tc', events := ApplyResourceTree(root, server, status, a, tb);
    ghost var now := StateOf(server, status, tb);
    StateIs(server, status, tb);
    w := Walk(tb, tc, tb', tc', start, now, events);
    if ok {
      WalksIs(w, a, leaves, server.reliable);
      RestIsWritable(w, a, leaves, start.world, now.world, server.reliable);
      RootStays(root, w, server.reliable);
      RestIsSaved(w, a, leaves, start.world, now.world, server.reliable);
    }
  }

  lemma StateIs(server: ApiServer, status: MissionStatus, t: map<Path, Node>)
    ensures StateOf(server, status, t) == State(WorldOf(server, status), Payloads(t))
    ensures WorldOf(server, status).objects == server.objects
  {
  }

  lemma WalksIs(w: Walk, a: Answer, leaves: map<Path, Payload>, reliable: bool)
    requires WalkedAll(w.tb, w.tc, w.tb', w.tc', w.start, w.now, w.events, reliable)
    requires LeafPaths(w.tc.Keys) == Snapshot(a, EVERYTHING, w.start.world.objects).Keys
    requires leaves == map q | q in w.start.payloads && IsLeaf(q) :: w.start.payloads[q]
    requires LeafPaths(w.tb.Keys) == leaves.Keys && Tagged(w.tb, w.start.payloads) && NoEmptyInner(w.tb.Keys, 1)
    ensures Walks(w, a, leaves, w.start.world, w.now.world, reliable)
  {
    hide WalkedAll, LeafPaths, Snapshot, Tagged, NoEmptyInner;
  }

  lemma LeavesOfTree(t: map<Path, Node>, leaves: map<Path, Payload>)
    requires LeafPayloads(t) == leaves
    ensures LeafPaths(t.Keys) == leaves.Keys
    ensures leaves == map q | q in Payloads(t) && IsLeaf(q) :: Payloads(t)[q]
  {
    assert LeafPayloads(t).Keys == LeafPaths(t.Keys);
  }

  /** Stores what was restored, under the name of the restore. */
  method StoreRest(
    root: Node, tree: string, store: ObjectStore, c: Codec, base: Dir, log: string, status: string,
    ghost t: map<Path, Node>)
    returns (ok: bool, ghost archive: Archive)
    requires Normal(tree) && CleanKeys(store.objects.Keys) && Canonical(base)
    requires Ok(t) && In(root, t) && root.path == [] && WritableTree(t, LeafPayloads(t)) && NoEmptyInner(t.Keys, 1)
    modifies store
    ensures ArchivesKept(old(store.objects), store.objects) && CleanKeys(store.objects.Keys)
    ensures ChangedOnlyIn(old(store.objects), store.objects, RemoteDir(root.name, RESTORE_KIND, tree))
    ensures ok && LeafPayloads(t) != map[] ==>
      IsStored(store.objects, root.name, RESTORE_KIND, tree, archive) && Store.Holds(c, archive, LeafPayloads(t))
    ensures store.reliable ==>
      (ok <==> LeafPayloads(t) == map[] || !Exists(old(store.objects).Keys, root.name, RESTORE_KIND, tree))
    ensures root.children == map[] <==> LeafPayloads(t) == map[]
    ensures ok ==> IsLogged(store.objects, root.name, RESTORE_KIND, tree, log)
    ensures ok && store.reliable ==> IsReported(store.objects, root.name, RESTORE_KIND, tree, status)
  {
    hide *;
    ArchiveNames();
    NoKidsNoLeaves(root, t);
    var files := map[];
    if root.children != map[] {
      files := TransformResourceTreeToLocal(root, c, base, t);
    }
    archive := files;
    ok := StoreRun(store, root.name, RESTORE_KIND, tree, files, root.children == map[], log, status);
  }

  lemma FilteredIsBacked(leaves: map<Path, Payload>, rootName: string, filters: map<string, Filter>)
    requires Backed(leaves) && Storable(leaves)
    ensures Backed(Filtered(leaves, rootName, filters)) && Storable(Filtered(leaves, rootName, filters))
  {
    hide LeafBacked, ValidNames;
  }

  /**
   * Reads an archive, thins it out, writes what the cluster lacks of it, and stores that. A run
   * that gets as far as the cluster leaves there what the tree to compare with shows, and brings back
   * what was missing unless a call fails.
   */
  method Restore(
    root: Node, tree: string, time: string, store: ObjectStore, c: Codec, base: Dir, filters: map<string, Filter>,
    server: ApiServer, status: MissionStatus, a: Answer, log: string, ghost leaves: map<Path, Payload>,
    ghost like: map<Path, Node>)
    returns (r: Result, ghost w: Option<Walk>, ghost archive: Archive)
    requires root.kind == RootKind && root.path == [] && root.parent == null
    requires SlashFree(time) && CleanKeys(store.objects.Keys) && Canonical(base) && Invertible(c)
    requires Filed(store.objects, root.name, tree, c, leaves, like) && Coherent(a) && Honest(a, server.objects)
    modifies root`children, root`payload, server, status, store
    ensures ArchivesKept(old(store.objects), store.objects) && CleanKeys(store.objects.Keys)
    ensures ChangedOnlyIn(
              old(store.objects), store.objects, RemoteDir(root.name, RESTORE_KIND, RestoredName(time, tree)))
    // when it gets how far
    ensures r.Missing? <==> !CanBeFound(old(store.objects), root.name, tree)
    ensures r.Panicked? <==>
      CanBeFound(old(store.objects), root.name, tree) && Filtered(leaves, root.name, filters) == map[]
    ensures w.Some? ==> !r.Missing? && !r.Panicked?
    ensures AllParse(a.offers) && !r.Missing? && !r.Panicked? ==> w.Some?
    ensures w.None? ==> !r.Restored? && WorldOf(server, status) == old(WorldOf(server, status))
    // what it does to the cluster
    ensures w.Some? ==>
      Walks(w.value, a, Filtered(leaves, root.name, filters), old(WorldOf(server, status)), WorldOf(server, status),
            server.reliable)
    ensures w.Some? && Matches(a, Filtered(leaves, root.name, filters), old(server.objects)) ==>
      Accomplished(a, Filtered(leaves, root.name, filters), old(WorldOf(server, status)), WorldOf(server, status),
                   server.reliable, w.value.tb'.Keys)
    // what it stores
    ensures w.Some? ==>
      var rest := Remainder(Filtered(leaves, root.name, filters), Snapshot(a, EVERYTHING, old(server.objects)).Keys,
                           w.value.events);
      && (root.children == map[] <==> rest == map[])
      && (r.Restored? && rest != map[] ==>
          IsStored(store.objects, root.name, RESTORE_KIND, RestoredName(time, tree), archive)
          && Store.Holds(c, archive, rest))
      && (store.reliable ==>
          (r.Restored? <==>
            rest == map[]
            || !Exists(old(store.objects).Keys, root.name, RESTORE_KIND, RestoredName(time, tree))))
    ensures r.Restored? ==> IsLogged(store.objects, root.name, RESTORE_KIND, RestoredName(time, tree), log)
    ensures r.Restored? && store.reliable ==>
      IsReported(store.objects, root.name, RESTORE_KIND, RestoredName(time, tree),
                 c.encodeStatus(status.status, status.failedObjects))
  {
    hide *;
    StateIs(server, status, map[]);
    w, archive := None, map[];
    ArchiveNames();
    NothingChanged(store.objects, RemoteDir(root.name, RESTORE_KIND, RestoredName(time, tree)));
    ghost var picked := Filtered(leaves, root.name, filters);
    ghost var before := WorldOf(server, status);
    ghost var t;
    var loading;
    loading, t := Load(root, tree, store, c, base, filters, leaves, like);
    if loading == NotFound {
      r := Missing;
      return;
    }
    if loading == NothingLeft {
      r := Panicked;
      return;
    }
    RestoredNameFits(store.objects, root.name, time, tree);
    PickedIsBacked(store.objects, root.name, tree, c, leaves, like, filters);
    var ok;
    ghost var walk;
    assert WorldOf(server, status) == before;
    ok, walk := Bring(root, server, status, a, t, picked);
    if !ok {
      r := Failed;
      return;
    }
    w := Some(walk);
    ghost var after := WorldOf(server, status);
    if Matches(a, picked, before.objects) {
      WalkAccomplishes(walk, a, picked, before, after, server.reliable);
    }
    ok, archive := StoreRest(root, RestoredName(time, tree), store, c, base, log,
                             c.encodeStatus(status.status, status.failedObjects), walk.tb');
    r := if ok then Restored else Failed;
  }

  lemma RestoredNameFits(objects: Objects, name: string, time: string, tree: string)
    requires CanBeFound(objects, name, tree) && SlashFree(time)
    ensures Normal(RestoredName(time, tree)) && JsonKey(name, BACKUP_KIND, tree) in objects
  {
    RestoredNameIsName(time, tree);
  }

  lemma PickedIsBacked(
    objects: Objects, name: string, tree: string, c: Codec, leaves: map<Path, Payload>, like: map<Path, Node>,
    filters: map<string, Filter>)
    requires Filed(objects, name, tree, c, leaves, like) && JsonKey(name, BACKUP_KIND, tree) in objects
    ensures Backed(Filtered(leaves, name, filters)) && Storable(Filtered(leaves, name, filters))
  {
    FilteredIsBacked(leaves, name, filters);
  }

  lemma StoredIsFiled(
    objects: Objects, name: string, tree: string, c: Codec, archive: Archive, leaves: map<Path, Payload>,
    like: map<Path, Node>)
    requires IsStored(objects, name, BACKUP_KIND, tree, archive) && Keeps(c, archive, leaves, like) && leaves != map[]
    ensures Filed(objects, name, tree, c, leaves, like)
    ensures Normal(tree) ==> CanBeFound(objects, name, tree)
  {
  }

  /**
   * With calls that succeed, and names that are free, what one cluster held when it was backed up and the
   * filters let through is in the end in the other, if that offers and lists the resources. What that
   * held it still holds as it was.
   */
  method BackupThenRestore(
    saved: Node, root: Node, tree: string, time: string, store: ObjectStore, c: Codec, base: Dir,
    wishes: map<string, ResourceFilter>, a: Answer, filters: map<string, Filter>, server: ApiServer,
    status: MissionStatus, a': Answer, log: string, ghost objects: map<Path, Definition>)
    requires IsEmptyRoot(saved) && IsEmptyRoot(root) && saved != root && saved.name == root.name
    requires Normal(tree) && SlashFree(time) && CleanKeys(store.objects.Keys) && Canonical(base) && Invertible(c)
    requires OneFilterPerKey(wishes) && NamesFit(objects) && Coherent(a) && Honest(a, objects)
    requires Coherent(a') && Honest(a', server.objects)
    modifies saved, root, wishes.Values, server, status, store
    ensures ArchivesKept(old(store.objects), store.objects)
    ensures
      var kept := Filtered(Snapshot(a, old(WishOf(wishes)), objects), root.name, filters);
      Matches(a', kept, old(server.objects)) ==>
        forall q :: q in old(server.objects) ==> q in server.objects && server.objects[q] == old(server.objects)[q]
    ensures
      var kept := Filtered(Snapshot(a, old(WishOf(wishes)), objects), root.name, filters);
      && store.reliable && server.reliable && AllParse(a.offers) && AllParse(a'.offers)
      && !Exists(old(store.objects).Keys, root.name, BACKUP_KIND, tree)
      && Matches(a', kept, old(server.objects)) && NoNamespaceCalledCluster(a', kept) ==>
        forall q :: q in kept ==> BroughtBack(kept[q], q, old(server.objects), server.objects)
  {
    hide *;
    EmptyRootIs(root);
    ghost var leaves := Snapshot(a, WishOf(wishes), objects);
    ghost var archive, like, w, rest;
    ghost var before, kept := WorldOf(server, status), Filtered(leaves, root.name, filters);
    StateIs(server, status, map[]);
    FilteredOfNone(root.name, filters);
    var ok, r;
    ok, archive, like := Backup(saved, tree, store, c, base, wishes, a, log, objects);
    if !ok || saved.children == map[] {
      return;
    }
    StoredIsFiled(store.objects, root.name, tree, c, archive, leaves, like);
    ghost var middle := store.objects;
    r, w, rest := Restore(root, tree, time, store, c, base, filters, server, status, a', log, leaves, like);
    KeptTwice(old(store.objects), middle, store.objects);
    StateIs(server, status, map[]);
    if w.Some? && Matches(a', kept, before.objects) {
      AccomplishedIs(a', kept, before, WorldOf(server, status), server.reliable, w.value.tb'.Keys);
    }
  }

  lemma FilteredOfNone(name: string, filters: map<string, Filter>)
    ensures Filtered(map[], name, filters) == map[]
  {
  }

  lemma KeptTwice(x: Objects, y: Objects, z: Objects)
    requires ArchivesKept(x, y) && ArchivesKept(y, z)
    ensures ArchivesKept(x, z)
  {
  }
}
