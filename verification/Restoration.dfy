/** What a restore brings back of a backup. */
module Restoration {
  import opened Wrappers
  import opened ResourceTree
  import opened Discovery
  import opened Build
  import opened BuildProperties
  import opened Cluster
  import opened Restore
  import opened RestoreProperties
  import opened Agent

  const NAMESPACES := Gvr("", "v1", "namespaces")

  /** What holds of every object that a backup holds. */
  ghost predicate LeafBacked(q: Path, p: Payload) {
    && IsLeaf(q) && p.definition.Some? && p.metadata.Some? && p.gvr == Some(GvrOf(q))
    && p.metadata.value == MetadataAt(q, p.metadata.value.isCluster)
    && q[2] !in DEFAULT_RESOURCES && ObjectAllowed(q[2], q[4])
    && (if p.metadata.value.isCluster then q[3] == CLUSTER_LEVEL_NAMESPACE else q[3] !in DEFAULT_NAMESPACES)
  }

  ghost predicate Backed(leaves: map<Path, Payload>) {
    forall q :: q in leaves ==> LeafBacked(q, leaves[q])
  }

  lemma SnapshotIsBacked(a: Answer, w: Wish, objects: map<Path, Definition>)
    requires Honest(a, objects)
    ensures Backed(Snapshot(a, w, objects))
  {
    hide ObjectAllowed, OfferedBy;
    var leaves := Snapshot(a, w, objects);
    forall q | q in leaves
      ensures LeafBacked(q, leaves[q])
    {
      assert IsListed(a, q);
      var item :| item in a.items[GvrOf(q)]
                  && LeafPath(GvrOf(q), PlaceOf(item, GvrOf(q) in a.clusterScoped), item.name) == q;
      assert Admits(w.resources, DEFAULT_RESOURCES, q[2]);
      assert GvrOf(q) !in a.clusterScoped ==> NamespaceShown(w, objects, q[3]);
    }
  }

  /** The cluster offers the resource of each object, lists it, and gives it the scope it had. */
  ghost predicate Covers(a: Answer, leaves: map<Path, Payload>) {
    forall q :: q in leaves ==> CoversLeaf(a, q, leaves[q])
  }

  ghost predicate CoversLeaf(a: Answer, q: Path, p: Payload) {
    && IsLeaf(q) && GvrOf(q) in a.items && OfferedBy(a, true, GvrOf(q))
    && p.metadata.Some? && (GvrOf(q) in a.clusterScoped <==> p.metadata.value.isCluster)
  }

  /** No namespaced object without its namespace. */
  ghost predicate Inhabited(a: Answer, objects: map<Path, Definition>) {
    forall q :: q in objects && IsLeaf(q) && GvrOf(q) !in a.clusterScoped ==> NamespacePath(q[3]) in objects
  }

  /** What a backup holds and the cluster has, the tree to compare with shows. */
  lemma PresentIsShown(a: Answer, objects: map<Path, Definition>, leaves: map<Path, Payload>, q: Path)
    requires Backed(leaves) && Covers(a, leaves) && Inhabited(a, objects) && q in leaves && q in objects
    ensures q in Snapshot(a, EVERYTHING, objects)
  {
    hide ObjectAllowed, OfferedBy;
    assert LeafBacked(q, leaves[q]) && CoversLeaf(a, q, leaves[q]);
    assert GvrOf(q) !in a.clusterScoped ==> NamespaceShown(EVERYTHING, objects, q[3]);
  }

  /** The trees of a restore, and what it did. */
  datatype Walk = Walk(
    tb: map<Path, Node>, tc: map<Path, Node>, tb': map<Path, Node>, tc': map<Path, Node>, start: State, now: State,
    events: seq<Event>)

  ghost predicate IsWalk(w: Walk, a: Answer, reliable: bool) {
    && WalkedAll(w.tb, w.tc, w.tb', w.tc', w.start, w.now, w.events, reliable)
    && LeafPaths(w.tc.Keys) == Snapshot(a, EVERYTHING, w.start.world.objects).Keys
  }

  ghost function LeavesAt(w: Walk): map<Path, Payload> {
    map q | q in w.start.payloads && IsLeaf(q) :: w.start.payloads[q]
  }

  ghost predicate Fitting(w: Walk, a: Answer) {
    && Suited(w, a) && Inhabited(a, w.start.world.objects)
  }

  ghost predicate Suited(w: Walk, a: Answer) {
    && Backed(LeavesAt(w)) && Covers(a, LeavesAt(w)) && Tagged(w.tb, w.start.payloads)
    && NAMESPACES in a.clusterScoped && Honest(a, w.start.world.objects)
  }

  lemma WalkIs(w: Walk, a: Answer, reliable: bool)
    requires IsWalk(w, a, reliable)
    ensures WalkedAll(w.tb, w.tc, w.tb', w.tc', w.start, w.now, w.events, reliable)
    ensures LeafPaths(w.tc.Keys) == Snapshot(a, EVERYTHING, w.start.world.objects).Keys
    ensures w.start.payloads.Keys == w.tb.Keys
  {
  }

  lemma EventsReplay(w: Walk, reliable: bool)
    requires WalkedAll(w.tb, w.tc, w.tb', w.tc', w.start, w.now, w.events, reliable)
    ensures w.now.world.objects == Replay(w.start.world.objects, w.events)
  {
  }

  lemma FittingHere(w: Walk, a: Answer)
    ensures Fitting(w, a) <==> Suited(w, a) && Inhabited(a, w.start.world.objects)
    ensures Suited(w, a) ==> NAMESPACES in a.clusterScoped
  {
  }

  lemma SameScopes(a: Answer, b: Answer, objects: map<Path, Definition>)
    requires Inhabited(a, objects) && a.clusterScoped == b.clusterScoped
    ensures Inhabited(b, objects)
  {
  }

  lemma SnapshotIsThere(a: Answer, w: Wish, objects: map<Path, Definition>, q: Path)
    requires q in Snapshot(a, w, objects)
    ensures q in objects
  {
  }

  lemma LeafFacts(w: Walk, a: Answer, reliable: bool, q: Path)
    requires IsWalk(w, a, reliable) && Fitting(w, a) && q in LeafPaths(w.tb.Keys)
    ensures q in LeavesAt(w) && LeafBacked(q, LeavesAt(w)[q]) && CoversLeaf(a, q, LeavesAt(w)[q])
    ensures q[..3] in w.tb && (w.tb[q[..3]].isCluster <==> GvrOf(q) in a.clusterScoped)
    ensures w.tb[q[..3]].isCluster == LeavesAt(w)[q].metadata.value.isCluster
    ensures q in w.start.world.objects ==> q in w.tc
    ensures q in w.tc ==> q in w.start.world.objects
  {
    hide Snapshot, LeafBacked, OfferedBy, WalkedAll, Honest, Shown;
    WalkIs(w, a, reliable);
    assert q in LeavesAt(w);
    assert LeafTagged(w.tb, w.start.payloads, q);
    assert q in w.tc <==> q in LeafPaths(w.tc.Keys);
    if q in w.start.world.objects {
      PresentIsShown(a, w.start.world.objects, LeavesAt(w), q);
    }
    if q in Snapshot(a, EVERYTHING, w.start.world.objects) {
      SnapshotIsThere(a, EVERYTHING, w.start.world.objects, q);
    }
    assert CoversLeaf(a, q, LeavesAt(w)[q]);
    assert LeafBacked(q, LeavesAt(w)[q]);
    assert LeavesAt(w)[q].metadata.value.isCluster == w.tb[q[..3]].isCluster;
  }

  /** Where the cluster offers and lists the resources of the backup, no object that it has is touched,
      whatever call fails during the walk. */
  lemma PresentStays(w: Walk, a: Answer, reliable: bool, q: Path)
    requires IsWalk(w, a, reliable) && Fitting(w, a) && q in w.start.world.objects
    ensures q in w.now.world.objects && w.now.world.objects[q] == w.start.world.objects[q]
  {
    hide *;
    AtLeaf(w.tb.Keys, q);
    if q in w.tb && IsLeaf(q) {
      LeafFacts(w, a, reliable, q);
    }
    WalkIs(w, a, reliable);
    PresentUnchanged(w.tb, w.tc, w.tb', w.tc', w.start, w.now, w.events, reliable, q);
  }

  lemma Defined(w: Walk, a: Answer, q: Path)
    requires q in LeavesAt(w) && LeafBacked(q, LeavesAt(w)[q]) && CoversLeaf(a, q, LeavesAt(w)[q])
    ensures q in w.start.payloads && w.start.payloads[q].definition.Some? && |q| == 5
    ensures LeavesAt(w)[q] == w.start.payloads[q] && IsLeaf(q)
    ensures GvrOf(q) in a.clusterScoped ==> q[3] == CLUSTER_LEVEL_NAMESPACE
  {
  }

  /** With calls that succeed, every object of the backup is there in the end. */
  lemma AllIsThere(w: Walk, a: Answer, q: Path)
    requires IsWalk(w, a, true) && Fitting(w, a) && q in LeafPaths(w.tb.Keys)
    requires q[3] == CLUSTER_LEVEL_NAMESPACE ==> GvrOf(q) in a.clusterScoped
    ensures q in w.now.world.objects
  {
    hide *;
    LeafFacts(w, a, true, q);
    WalkIs(w, a, true);
    AtLeaf(w.tb.Keys, q);
    Defined(w, a, q);
    EverythingRestored(w.tb, w.tc, w.tb', w.tc', w.start, w.now, w.events, q);
  }

  lemma {:induction false} NotThereBefore(objects: map<Path, Definition>, events: seq<Event>, q: Path)
    requires q !in objects && Writes(events, q) == 0 && |q| == 5 && GvrOf(q) != NAMESPACES
    ensures q !in Replay(objects, events)
    decreases |events|
  {
    if events != [] {
      var e := events[|events| - 1];
      NotThereBefore(objects, events[..|events| - 1], q);
      assert e.NamespaceApplied? && |e.at| == 4 ==> GvrOf(NamespacePath(e.at[3])) == NAMESPACES;
    }
  }

  lemma WrittenOnce(events: seq<Event>, i: nat, q: Path)
    requires i < |events| && events[i].ObjectWritten? && events[i].path == q && Writes(events, q) <= 1
    ensures Writes(events[..i], q) == 0 && Writes(events[i + 1..], q) == 0
  {
    var before, e, after := events[..i], events[i], events[i + 1..];
    assert events == before + [e] + after;
    assert [e][..0] == [];
    CountsConcat(before + [e], after, q);
    CountsConcat(before, [e], q);
    assert Writes([e], q) == Writes([], q) + 1;
  }

  /** The one write of an object that was missing decides what is there in the end. */
  lemma WriteDecides(objects: map<Path, Definition>, events: seq<Event>, i: nat, q: Path)
    requires AllLawful(objects, events, true) && i < |events| && events[i].ObjectWritten? && events[i].path == q
    requires Writes(events, q) <= 1 && q !in objects && IsLeaf(q)
    requires events[i].clusterScoped || (events[i].namespaceThere && GvrOf(q) != NAMESPACES)
    ensures q in Replay(objects, events) && Replay(objects, events)[q] == events[i].definition
  {
    hide AllLawful;
    LawfulAt(objects, events, true, i);
    WrittenOnce(events, i, q);
    if !events[i].clusterScoped {
      NotThereBefore(objects, events[..i], q);
    }
    assert events[i].outcome == Done;
    ReplayOneMore(objects, events, i);
    var upto := events[..i + 1];
    assert upto + events[i + 1..] == events;
    ReplayConcat(objects, upto, events[i + 1..]);
    UntouchedStays(Replay(objects, upto), events[i + 1..], q);
  }

  /** With calls that succeed, what was missing is there in the end as it was backed up, but for
      what the server fills in. */
  lemma ComesBackAsSaved(w: Walk, a: Answer, q: Path)
    requires IsWalk(w, a, true) && Fitting(w, a) && q in LeafPaths(w.tb.Keys) && q !in w.start.world.objects
    requires q[3] == CLUSTER_LEVEL_NAMESPACE ==> GvrOf(q) in a.clusterScoped
    ensures q in w.now.world.objects && w.now.world.objects[q] == Strip(LeavesAt(w)[q].definition.value)
  {
    hide *;
    LeafFacts(w, a, true, q);
    Defined(w, a, q);
    WalkIs(w, a, true);
    FittingHere(w, a);
    var i := EventFor(w, q);
    var e := w.events[i];
    WalkedFacts(w, true, e);
    SentExactlyOnce(w.tb, w.tc, w.tb', w.tc', w.start, w.now, w.events, true, q);
    WriteDecides(w.start.world.objects, w.events, i, q);
  }

  lemma EventFor(w: Walk, q: Path) returns (i: nat)
    requires WalkedAll(w.tb, w.tc, w.tb', w.tc', w.start, w.now, w.events, true)
    requires q in LeafPaths(w.tb.Keys) && q !in w.tc && q in w.start.payloads && w.start.payloads[q].definition.Some?
    ensures i < |w.events| && w.events[i].ObjectWritten? && w.events[i].path == q
    ensures w.events[i].definition == Strip(w.start.payloads[q].definition.value) && |q| == 5
    ensures w.events[i].clusterScoped || q[3] == CLUSTER_LEVEL_NAMESPACE || w.events[i].namespaceThere
  {
    hide *;
    LeafLength(w.tb.Keys, q);
    BackupMinusCurrent(w.tb, w.tc, w.tb', w.tc', w.start, w.now, w.events, true);
    AtLeaf(w.tb'.Keys, q);
    AllAccepted(w);
    SentExactlyOnce(w.tb, w.tc, w.tb', w.tc', w.start, w.now, w.events, true, q);
    CountsMembers(w.events, q);
    var e :| e in w.events && e.ObjectWritten? && e.path == q;
    i :| 0 <= i < |w.events| && w.events[i] == e;
    FineEvent(w, true, e);
  }

  lemma AtLeaf(keys: set<Path>, q: Path)
    ensures q in LeafPaths(keys) <==> q in keys && IsLeaf(q)
  {
  }

  lemma FineEvent(w: Walk, reliable: bool, e: Event)
    requires WalkedAll(w.tb, w.tc, w.tb', w.tc', w.start, w.now, w.events, reliable)
    requires e in w.events && e.ObjectWritten?
    ensures IsLeaf(e.path) && |e.path| == 5 && e.path in w.start.payloads
    ensures w.start.payloads[e.path].definition.Some?
    ensures e.definition == Strip(w.start.payloads[e.path].definition.value)
    ensures e.clusterScoped || e.path[3] == CLUSTER_LEVEL_NAMESPACE || e.namespaceThere
  {
    hide AllLawful, Replay, Reported, DueLeaves, DueSpaces, Carved, Truthful, Grown, Ran, Strip;
    assert EventFine(w.tb, Definitions(w.start.payloads), e);
  }

  lemma AllAccepted(w: Walk)
    requires WalkedAll(w.tb, w.tc, w.tb', w.tc', w.start, w.now, w.events, true)
    ensures forall at :: NamespaceApplied(at, false) !in w.events
  {
    hide Reported, Carved, Grown;
    forall i | 0 <= i < |w.events| && w.events[i].NamespaceApplied?
      ensures w.events[i].accepted
    {
      LawfulAt(w.start.world.objects, w.events, true, i);
    }
  }

  /** When the cluster has every object already, nothing is written and nothing is left of the tree. */
  lemma NothingIsWritten(w: Walk, a: Answer, reliable: bool)
    requires IsWalk(w, a, reliable) && Fitting(w, a) && NoEmptyInner(w.tb.Keys, 1)
    requires LeafPaths(w.tb.Keys) <= w.start.world.objects.Keys
    ensures w.tb'.Keys == {[]} && w.events == [] && w.now == w.start
  {
    hide *;
    forall q | q in LeafPaths(w.tb.Keys)
      ensures q in w.tc
    {
      LeafFacts(w, a, reliable, q);
    }
    WalkIs(w, a, reliable);
    NothingToRestore(w.tb, w.tc, w.tb', w.tc', w.start, w.now, w.events, reliable);
  }

  // ---- What is left of the tree

  /** What the restore stores: what the tree to compare with did not show. What was sent has lost what the
      server fills in; what lay in a refused namespace is as it was saved. */
  ghost function Remainder(leaves: map<Path, Payload>, shown: set<Path>, events: seq<Event>): map<Path, Payload> {
    map q | q in leaves && q !in shown && IsLeaf(q) ::
      if NamespaceApplied(q[..4], false) in events then leaves[q] else Stripped(leaves[q])
  }

  ghost function RestOf(w: Walk): map<Path, Payload> {
    map q | q in w.tb' && IsLeaf(q) && q in w.now.payloads :: w.now.payloads[q]
  }

  lemma PayloadsNow(w: Walk, reliable: bool, q: Path)
    requires WalkedAll(w.tb, w.tc, w.tb', w.tc', w.start, w.now, w.events, reliable) && q in w.start.payloads
    ensures q in w.now.payloads
    ensures w.now.payloads[q] ==
            if Writes(w.events, q) > 0 then Stripped(w.start.payloads[q]) else w.start.payloads[q]
  {
    hide Ran, Reported, EventFine, Carved, Grown, Truthful, Stripped;
  }

  lemma LeftAt(w: Walk, a: Answer, reliable: bool, q: Path)
    requires IsWalk(w, a, reliable) && IsLeaf(q)
    ensures q in w.tb' <==> q in w.tb && q !in Snapshot(a, EVERYTHING, w.start.world.objects)
    ensures q in w.tb' ==> q in w.now.payloads && q in w.start.payloads
    ensures q in w.tb' && w.start.payloads[q].definition.Some? ==>
              w.now.payloads[q] ==
                if NamespaceApplied(q[..4], false) in w.events then w.start.payloads[q]
                else Stripped(w.start.payloads[q])
  {
    hide IsWalk, WalkedAll, Snapshot, Stripped;
    WalkIs(w, a, reliable);
    BackupMinusCurrent(w.tb, w.tc, w.tb', w.tc', w.start, w.now, w.events, reliable);
    CarvedFromBackup(w.tb, w.tc, w.tb', w.tc', w.start, w.now, w.events, reliable);
    AtLeaf(w.tc.Keys, q);
    AtLeaf(w.tb.Keys, q);
    AtLeaf(w.tb'.Keys, q);
    if q in w.tb' {
      SentExactlyOnce(w.tb, w.tc, w.tb', w.tc', w.start, w.now, w.events, reliable, q);
      PayloadsNow(w, reliable, q);
    }
  }

  lemma RestIsRemainder(w: Walk, a: Answer, reliable: bool)
    requires IsWalk(w, a, reliable) && forall q :: q in LeavesAt(w) ==> LeavesAt(w)[q].definition.Some?
    ensures RestOf(w) == Remainder(LeavesAt(w), Snapshot(a, EVERYTHING, w.start.world.objects).Keys, w.events)
    ensures RestOf(w).Keys == LeafPaths(w.tb'.Keys)
  {
    hide IsWalk, WalkedAll, Snapshot, Stripped;
    WalkIs(w, a, reliable);
    forall q | IsLeaf(q)
      ensures q in w.tb' <==> q in LeavesAt(w) && q !in Snapshot(a, EVERYTHING, w.start.world.objects)
      ensures q in w.tb' ==> q in w.now.payloads
      ensures q in w.tb' ==>
                w.now.payloads[q] ==
                  if NamespaceApplied(q[..4], false) in w.events then LeavesAt(w)[q] else Stripped(LeavesAt(w)[q])
    {
      LeftAt(w, a, reliable, q);
      assert q in w.tb <==> q in LeavesAt(w);
    }
  }

  // ---- Namespaces stay there

  lemma {:induction false} StaysWellScoped(a: Answer, w: Walk, reliable: bool, i: nat)
    requires IsWalk(w, a, reliable) && Fitting(w, a) && i <= |w.events|
    requires WellScoped(w.start.world.objects, a.clusterScoped)
    ensures WellScoped(Replay(w.start.world.objects, w.events[..i]), a.clusterScoped)
  {
    hide IsWalk, Fitting;
    if i > 0 {
      hide Replay, WellScoped;
      StaysWellScoped(a, w, reliable, i - 1);
      EventScope(w, a, reliable, i - 1);
      ReplayOneMore(w.start.world.objects, w.events, i - 1);
      StepWellScoped(a.clusterScoped, Replay(w.start.world.objects, w.events[..i - 1]), w.events[i - 1]);
    }
  }

  lemma StepWellScoped(clusterScoped: set<Gvr>, objects: map<Path, Definition>, e: Event)
    requires WellScoped(objects, clusterScoped)
    requires e.ObjectWritten? ==>
               IsLeaf(e.path) && (GvrOf(e.path) in clusterScoped ==> e.path[3] == CLUSTER_LEVEL_NAMESPACE)
    ensures WellScoped(Step(objects, e), clusterScoped)
  {
    assert e.NamespaceApplied? && |e.at| == 4 ==> NamespacePath(e.at[3])[3] == CLUSTER_LEVEL_NAMESPACE;
  }

  lemma StillWellScoped(w: Walk, a: Answer, reliable: bool)
    requires IsWalk(w, a, reliable) && Fitting(w, a) && WellScoped(w.start.world.objects, a.clusterScoped)
    ensures WellScoped(w.now.world.objects, a.clusterScoped)
  {
    hide *;
    StaysWellScoped(a, w, reliable, |w.events|);
    assert w.events[..|w.events|] == w.events;
    WalkIs(w, a, reliable);
    EventsReplay(w, reliable);
  }

  lemma {:induction false} StaysInhabited(
    a: Answer, w: Walk, reliable: bool, i: nat)
    requires IsWalk(w, a, reliable) && Fitting(w, a) && i <= |w.events|
    ensures Inhabited(a, Replay(w.start.world.objects, w.events[..i]))
  {
    hide *;
    if i == 0 {
      StartsInhabited(a, w);
    } else {
      StaysInhabited(a, w, reliable, i - 1);
      EventScope(w, a, reliable, i - 1);
      var before := Replay(w.start.world.objects, w.events[..i - 1]);
      ReplayOneMore(w.start.world.objects, w.events, i - 1);
      StepInhabited(a, before, w.events[i - 1], reliable);
    }
  }

  lemma StartsInhabited(a: Answer, w: Walk)
    requires Fitting(w, a)
    ensures Inhabited(a, Replay(w.start.world.objects, w.events[..0]))
  {
  }

  lemma EventScope(w: Walk, a: Answer, reliable: bool, i: nat)
    requires IsWalk(w, a, reliable) && Fitting(w, a) && i < |w.events|
    ensures var e := w.events[i];
            && Lawful(Replay(w.start.world.objects, w.events[..i]), e, reliable)
            && (e.ObjectWritten? ==> IsLeaf(e.path) && (e.clusterScoped <==> GvrOf(e.path) in a.clusterScoped))
            && (e.ObjectWritten? && e.clusterScoped ==> e.path[3] == CLUSTER_LEVEL_NAMESPACE)
    ensures NAMESPACES in a.clusterScoped
  {
    hide *;
    var e := w.events[i];
    WalkIs(w, a, reliable);
    FittingHere(w, a);
    WalkedFacts(w, reliable, e);
    LawfulAt(w.start.world.objects, w.events, reliable, i);
    if e.ObjectWritten? {
      SentExactlyOnce(w.tb, w.tc, w.tb', w.tc', w.start, w.now, w.events, reliable, e.path);
      CountsMembers(w.events, e.path);
      BackupMinusCurrent(w.tb, w.tc, w.tb', w.tc', w.start, w.now, w.events, reliable);
      AtLeaf(w.tb'.Keys, e.path);
      assert e.path in LeafPaths(w.tb.Keys);
      LeafFacts(w, a, reliable, e.path);
      Defined(w, a, e.path);
    }
  }

  lemma WalkedFacts(w: Walk, reliable: bool, e: Event)
    requires WalkedAll(w.tb, w.tc, w.tb', w.tc', w.start, w.now, w.events, reliable)
    ensures AllLawful(w.start.world.objects, w.events, reliable)
    ensures w.now.world.objects == Replay(w.start.world.objects, w.events)
    ensures e in w.events && e.ObjectWritten? ==>
              IsLeaf(e.path) && e.path[..3] in w.tb && e.clusterScoped == w.tb[e.path[..3]].isCluster
  {
    hide AllLawful, Replay, Reported, DueLeaves, DueSpaces, Carved, Truthful;
    assert e in w.events ==> EventFine(w.tb, Definitions(w.start.payloads), e);
  }

  lemma StepInhabited(a: Answer, objects: map<Path, Definition>, e: Event, reliable: bool)
    requires Inhabited(a, objects) && Lawful(objects, e, reliable) && NAMESPACES in a.clusterScoped
    requires e.ObjectWritten? ==> IsLeaf(e.path) && (e.clusterScoped <==> GvrOf(e.path) in a.clusterScoped)
    ensures Inhabited(a, Step(objects, e))
  {
    var after := Step(objects, e);
    assert e.NamespaceApplied? ==> GvrOf(NamespacePath(e.at[3])) == NAMESPACES;
    forall q | q in after && IsLeaf(q) && GvrOf(q) !in a.clusterScoped
      ensures NamespacePath(q[3]) in after
    {
    }
  }

  lemma StillInhabited(w: Walk, a: Answer, reliable: bool)
    requires IsWalk(w, a, reliable) && Fitting(w, a)
    ensures Inhabited(a, w.now.world.objects)
  {
    hide *;
    StaysInhabited(a, w, reliable, |w.events|);
    assert w.events[..|w.events|] == w.events;
    WalkIs(w, a, reliable);
    EventsReplay(w, reliable);
  }

  /** A second restore of the same objects, right after a first one in which no call failed,
      writes nothing and ends with an empty tree. */
  lemma SecondRestoreWritesNothing(w1: Walk, a1: Answer, w2: Walk, a2: Answer, reliable: bool)
    requires IsWalk(w1, a1, true) && Fitting(w1, a1) && IsWalk(w2, a2, reliable) && Suited(w2, a2)
    requires w2.start.world.objects == w1.now.world.objects && a2.clusterScoped == a1.clusterScoped
    requires LeafPaths(w2.tb.Keys) == LeafPaths(w1.tb.Keys) && NoEmptyInner(w2.tb.Keys, 1)
    requires forall q :: q in LeafPaths(w1.tb.Keys) && |q| > 3 && q[3] == CLUSTER_LEVEL_NAMESPACE ==>
               GvrOf(q) in a1.clusterScoped
    ensures w2.tb'.Keys == {[]} && w2.events == [] && w2.now == w2.start
  {
    hide *;
    StillInhabited(w1, a1, true);
    SameScopes(a1, a2, w1.now.world.objects);
    FittingHere(w2, a2);
    forall q | q in LeafPaths(w2.tb.Keys)
      ensures q in w2.start.world.objects
    {
      LeafLength(w1.tb.Keys, q);
      AllIsThere(w1, a1, q);
    }
    NothingIsWritten(w2, a2, reliable);
  }

  lemma LeafLength(keys: set<Path>, q: Path)
    requires q in LeafPaths(keys)
    ensures |q| == 5
  {
  }
}
