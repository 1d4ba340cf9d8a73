/** Restoring the same archive a second time. */
module Repeat {
  import opened ResourceTree
  import opened Paths
  import opened Filtering
  import opened Discovery
  import opened Build
  import opened BuildProperties
  import opened Cluster
  import opened RestoreWalk = Restore
  import opened Store
  import opened Archives
  import opened Agent
  import opened Restoration
  import opened Controller

  /** An answer of a cluster that offers these lists and can list these resources, as far as it does not
      depend on the objects. */
  function Outline(offers: seq<Offer>, listable: set<Gvr>, clusterScoped: set<Gvr>): Answer {
    Answer(offers, [], map gvr | gvr in listable :: [], clusterScoped)
  }

  ghost predicate Alike(a: Answer, b: Answer) {
    a.offers == b.offers && a.items.Keys == b.items.Keys && a.clusterScoped == b.clusterScoped
  }

  lemma AlikeOffers(a: Answer, b: Answer, gvr: Gvr)
    requires Alike(a, b)
    ensures OfferedBy(a, true, gvr) <==> OfferedBy(b, true, gvr)
  {
    var s, z := Supply(a.items, a.clusterScoped, {}, true), Supply(b.items, b.clusterScoped, {}, true);
    OfferedAnyway(s, z, a.offers, gvr);
  }

  lemma AlikeMatches(a: Answer, b: Answer, leaves: map<Path, Payload>, objects: map<Path, Definition>)
    requires Alike(a, b)
    ensures Matches(a, leaves, objects) <==> Matches(b, leaves, objects)
    ensures NoNamespaceCalledCluster(a, leaves) <==> NoNamespaceCalledCluster(b, leaves)
    ensures Coherent(a) <==> Coherent(b)
    ensures Inhabited(a, objects) <==> Inhabited(b, objects)
  {
    hide OfferedBy, ConsistentOffer;
    forall q | q in leaves
      ensures CoversLeaf(a, q, leaves[q]) <==> CoversLeaf(b, q, leaves[q])
    {
      if IsLeaf(q) {
        AlikeOffers(a, b, GvrOf(q));
      }
    }
    SameCoherence(a, b);
  }

  lemma SameCoherence(a: Answer, b: Answer)
    requires Alike(a, b)
    ensures Coherent(a) <==> Coherent(b)
  {
    forall offer: Offer
      ensures ConsistentOffer(Supply(a.items, a.clusterScoped, {}, false), offer)
         <==> ConsistentOffer(Supply(b.items, b.clusterScoped, {}, false), offer)
    {
    }
  }

  lemma AllShown(a: Answer, objects: map<Path, Definition>, leaves: map<Path, Payload>, events: seq<Event>)
    requires Backed(leaves) && Matches(a, leaves, objects) && leaves.Keys <= objects.Keys
    ensures Remainder(leaves, Snapshot(a, EVERYTHING, objects).Keys, events) == map[]
  {
    hide LeafBacked, CoversLeaf, Snapshot;
    forall q | q in leaves
      ensures q in Snapshot(a, EVERYTHING, objects)
    {
      PresentIsShown(a, objects, leaves, q);
    }
  }

  lemma StillFiled(
    before: Objects, after: Objects, name: string, tree: string, c: Codec, leaves: map<Path, Payload>,
    like: map<Path, Node>)
    requires Filed(before, name, tree, c, leaves, like) && CanBeFound(before, name, tree)
    requires ArchivesKept(before, after)
    ensures Filed(after, name, tree, c, leaves, like) && CanBeFound(after, name, tree)
  {
    ArchiveNames();
    JsonKeyShape(name, BACKUP_KIND, tree);
  }

  lemma MatchesIs(a: Answer, leaves: map<Path, Payload>, objects: map<Path, Definition>)
    ensures Matches(a, leaves, objects)
       <==> Covers(a, leaves) && Inhabited(a, objects) && NAMESPACES in a.clusterScoped
  {
  }

  lemma BroughtBackIsThere(leaves: map<Path, Payload>, before: map<Path, Definition>, after: map<Path, Definition>)
    requires forall q :: q in leaves ==> BroughtBack(leaves[q], q, before, after)
    ensures leaves.Keys <= after.Keys
  {
  }

  lemma OutlineIs(a: Answer, offers: seq<Offer>, listable: set<Gvr>, clusterScoped: set<Gvr>)
    ensures Outline(offers, listable, clusterScoped).offers == offers
    ensures Alike(a, Outline(offers, listable, clusterScoped))
       <==> a.offers == offers && a.items.Keys == listable && a.clusterScoped == clusterScoped
  {
  }

  /** What a run with calls that succeed leaves behind. */
  lemma RunLeaves(
    outline: Answer, a: Answer, leaves: map<Path, Payload>, before: World, after: World, left: set<Path>)
    requires Alike(a, outline) && Backed(leaves) && Accomplished(a, leaves, before, after, true, left)
    requires Matches(a, leaves, before.objects) && NoNamespaceCalledCluster(a, leaves)
    requires WellScoped(before.objects, a.clusterScoped)
    ensures forall q :: q in leaves ==> BroughtBack(leaves[q], q, before.objects, after.objects)
    ensures leaves.Keys <= after.objects.Keys && WellScoped(after.objects, a.clusterScoped)
    ensures Matches(outline, leaves, after.objects)
    ensures leaves.Keys <= before.objects.Keys ==> after == before
  {
    hide *;
    AccomplishedIs(a, leaves, before, after, true, left);
    BroughtBackIsThere(leaves, before.objects, after.objects);
    MatchesIs(a, leaves, before.objects);
    MatchesIs(a, leaves, after.objects);
    AlikeMatches(a, outline, leaves, after.objects);
  }

  /** One restore: what it came to, what the cluster answered, the walk, and what was stored. */
  datatype Trip = Trip(result: Result, answer: Answer, walk: Walk, archive: Archive)

  ghost predicate IsRoot(root: Node) {
    root.kind == RootKind && root.path == [] && root.parent == null
  }

  /** The leaves were loaded and walked against what the cluster answered, from one world to the other. */
  ghost predicate Travelled(t: Trip, leaves: map<Path, Payload>, before: World, after: World, reliable: bool) {
    Honest(t.answer, before.objects) && Walks(t.walk, t.answer, leaves, before, after, reliable)
  }

  /** What is left of the leaves to be stored. */
  ghost function RestOfTrip(t: Trip, leaves: map<Path, Payload>, before: World): map<Path, Payload> {
    Remainder(leaves, Snapshot(t.answer, EVERYTHING, before.objects).Keys, t.walk.events)
  }

  /** The run has stored its rest and its log. */
  ghost predicate Kept(
    t: Trip, rest: map<Path, Payload>, objects: Objects, name: string, tree: string, c: Codec, log: string)
  {
    && IsLogged(objects, name, RESTORE_KIND, tree, log)
    && (rest != map[] ==>
        IsStored(objects, name, RESTORE_KIND, tree, t.archive) && Store.Holds(c, t.archive, rest))
  }

  /** Asks the cluster, and restores. */
  method RunOnce(
    root: Node, tree: string, time: string, store: ObjectStore, c: Codec, base: Dir, filters: map<string, Filter>,
    server: ApiServer, status: MissionStatus, offers: seq<Offer>, listable: set<Gvr>, clusterScoped: set<Gvr>,
    log: string, ghost leaves: map<Path, Payload>, ghost like: map<Path, Node>, ghost picked: map<Path, Payload>)
    returns (ghost t: Trip)
    requires IsRoot(root)
    requires SlashFree(time) && CleanKeys(store.objects.Keys) && Canonical(base) && Invertible(c)
    requires Filed(store.objects, root.name, tree, c, leaves, like) && CanBeFound(store.objects, root.name, tree)
    requires server.reliable && WellScoped(server.objects, clusterScoped)
    requires Coherent(Outline(offers, listable, clusterScoped)) && AllParse(offers)
    requires picked == Filtered(leaves, root.name, filters) != map[]
    requires Matches(Outline(offers, listable, clusterScoped), picked, server.objects)
    requires NoNamespaceCalledCluster(Outline(offers, listable, clusterScoped), picked)
    modifies root`children, root`payload, server, status, store
    ensures ArchivesKept(old(store.objects), store.objects) && CleanKeys(store.objects.Keys)
    ensures WellScoped(server.objects, clusterScoped) && picked.Keys <= server.objects.Keys
    ensures Matches(Outline(offers, listable, clusterScoped), picked, server.objects)
    ensures forall q :: q in picked ==> BroughtBack(picked[q], q, old(server.objects), server.objects)
    ensures Travelled(t, picked, old(WorldOf(server, status)), WorldOf(server, status), true)
    ensures var rest := RestOfTrip(t, picked, old(WorldOf(server, status)));
            && (root.children == map[] <==> rest == map[])
            && (t.result.Restored? ==> Kept(t, rest, store.objects, root.name, RestoredName(time, tree), c, log))
            && (store.reliable ==>
                (t.result.Restored? <==>
                  rest == map[]
                  || !Exists(old(store.objects).Keys, root.name, RESTORE_KIND, RestoredName(time, tree))))
    ensures picked.Keys <= old(server.objects).Keys ==>
      && WorldOf(server, status) == old(WorldOf(server, status))
      && t.walk.events == [] && t.walk.tb'.Keys == {[]}
      && RestOfTrip(t, picked, old(WorldOf(server, status))) == map[]
  {
    hide *;
    RootIs(root);
    ghost var before, outline := WorldOf(server, status), Outline(offers, listable, clusterScoped);
    StateIs(server, status, map[]);
    var a := Ask(server, offers, listable, clusterScoped);
    OutlineIs(a, offers, listable, clusterScoped);
    AlikeMatches(a, outline, picked, server.objects);
    FoundIsThere(store.objects, root.name, tree);
    PickedIsBacked(store.objects, root.name, tree, c, leaves, like, filters);
    var r;
    ghost var w, archive;
    r, w, archive :=
      Controller.Restore(root, tree, time, store, c, base, filters, server, status, a, log, leaves, like);
    t := Trip(r, a, w.value, archive);
    StateIs(server, status, map[]);
    RunLeaves(outline, a, picked, before, WorldOf(server, status), w.value.tb'.Keys);
    TripIs(t, picked, before, WorldOf(server, status), store.objects, root.name, RestoredName(time, tree), c, log);
    if picked.Keys <= before.objects.Keys {
      AllShown(a, before.objects, picked, w.value.events);
      NothingIsAsked(w.value, a, picked, before, WorldOf(server, status), true);
    }
  }

  lemma RootIs(root: Node)
    ensures IsRoot(root) <==> root.kind == RootKind && root.path == [] && root.parent == null
  {
  }

  lemma TripIs(
    t: Trip, leaves: map<Path, Payload>, before: World, after: World, objects: Objects, name: string, tree: string,
    c: Codec, log: string)
    ensures RestOfTrip(t, leaves, before)
         == Remainder(leaves, Snapshot(t.answer, EVERYTHING, before.objects).Keys, t.walk.events)
    ensures Travelled(t, leaves, before, after, true)
       <==> Honest(t.answer, before.objects) && Walks(t.walk, t.answer, leaves, before, after, true)
    ensures var rest := RestOfTrip(t, leaves, before);
            && (Kept(t, rest, objects, name, tree, c, log) ==>
                IsLogged(objects, name, RESTORE_KIND, tree, log)
                && (rest != map[] ==>
                    IsStored(objects, name, RESTORE_KIND, tree, t.archive) && Store.Holds(c, t.archive, rest)))
            && (IsLogged(objects, name, RESTORE_KIND, tree, log)
                && (rest != map[] ==>
                    IsStored(objects, name, RESTORE_KIND, tree, t.archive) && Store.Holds(c, t.archive, rest)) ==>
                Kept(t, rest, objects, name, tree, c, log))
  {
    hide Honest, Walks, Remainder, Snapshot, IsLogged, IsStored, Store.Holds;
  }

  lemma StaysInStore(before: Objects, after: Objects, name: string, tree: string, archive: Archive)
    requires IsStored(before, name, RESTORE_KIND, tree, archive) && ArchivesKept(before, after)
    ensures IsStored(after, name, RESTORE_KIND, tree, archive)
  {
    ArchiveNames();
    JsonKeyShape(name, RESTORE_KIND, tree);
  }

  lemma FoundIsThere(objects: Objects, name: string, tree: string)
    requires CanBeFound(objects, name, tree)
    ensures JsonKey(name, BACKUP_KIND, tree) in objects
  {
  }

  /**
   * With calls that succeed, the first run brings back what the filters let through. The second run
   * asks the cluster anew, loads and walks the same leaves, asks nothing more of the cluster, and ends with the
   * bare root, and so has nothing to store but its log.
   */
  method RestoreTwice(
    first: Node, second: Node, tree: string, time1: string, time2: string, store: ObjectStore, c: Codec, base: Dir,
    filters: map<string, Filter>, server: ApiServer, status: MissionStatus, offers: seq<Offer>, listable: set<Gvr>,
    clusterScoped: set<Gvr>, log1: string, log2: string, ghost leaves: map<Path, Payload>,
    ghost like: map<Path, Node>)
    returns (ghost one: Trip, ghost two: Trip, ghost between: World)
    requires IsRoot(first) && IsRoot(second) && first != second && first.name == second.name
    requires SlashFree(time1) && SlashFree(time2) && CleanKeys(store.objects.Keys) && Canonical(base) && Invertible(c)
    requires Filed(store.objects, first.name, tree, c, leaves, like) && CanBeFound(store.objects, first.name, tree)
    requires server.reliable && WellScoped(server.objects, clusterScoped)
    requires Coherent(Outline(offers, listable, clusterScoped)) && AllParse(offers)
    requires Filtered(leaves, first.name, filters) != map[]
    requires Matches(Outline(offers, listable, clusterScoped), Filtered(leaves, first.name, filters), server.objects)
    requires NoNamespaceCalledCluster(Outline(offers, listable, clusterScoped), Filtered(leaves, first.name, filters))
    modifies first, second, server, status, store
    // the first run
    ensures var picked := Filtered(leaves, first.name, filters);
            && Travelled(one, picked, old(WorldOf(server, status)), between, true)
            && forall q :: q in picked ==> BroughtBack(picked[q], q, old(server.objects), between.objects)
    ensures store.reliable ==>
      (one.result.Restored? <==>
        RestOfTrip(one, Filtered(leaves, first.name, filters), old(WorldOf(server, status))) == map[]
        || !Exists(old(store.objects).Keys, first.name, RESTORE_KIND, RestoredName(time1, tree)))
    ensures var rest := RestOfTrip(one, Filtered(leaves, first.name, filters), old(WorldOf(server, status)));
            one.result.Restored? && rest != map[] ==>
              IsStored(store.objects, first.name, RESTORE_KIND, RestoredName(time1, tree), one.archive)
              && Store.Holds(c, one.archive, rest)
    // the second run
    ensures Travelled(two, Filtered(leaves, first.name, filters), between, WorldOf(server, status), true)
    ensures two.walk.events == [] && two.walk.tb'.Keys == {[]} && second.children == map[]
    ensures WorldOf(server, status) == between
    ensures two.result.Restored? ==>
      IsLogged(store.objects, second.name, RESTORE_KIND, RestoredName(time2, tree), log2)
    ensures store.reliable ==> two.result.Restored?
    ensures ArchivesKept(old(store.objects), store.objects)
  {
    hide *;
    ghost var picked := Filtered(leaves, first.name, filters);
    ghost var archives, start := store.objects, WorldOf(server, status);
    ghost var name1 := RestoredName(time1, tree);
    StateIs(server, status, map[]);
    one := RunOnce(first, tree, time1, store, c, base, filters, server, status, offers, listable, clusterScoped, log1,
                   leaves, like, picked);
    between := WorldOf(server, status);
    StateIs(server, status, map[]);
    ghost var middle := store.objects;
    TripIs(one, picked, start, between, middle, first.name, name1, c, log1);
    StillFiled(archives, middle, first.name, tree, c, leaves, like);
    two := RunOnce(second, tree, time2, store, c, base, filters, server, status, offers, listable, clusterScoped, log2,
                   leaves, like, picked);
    TripIs(two, picked, between, WorldOf(server, status), store.objects, second.name, RestoredName(time2, tree), c,
           log2);
    KeptTwice(archives, middle, store.objects);
    if IsStored(middle, first.name, RESTORE_KIND, name1, one.archive) {
      StaysInStore(middle, store.objects, first.name, name1, one.archive);
    }
  }
}
