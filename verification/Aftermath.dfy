/**
 * What a restore does to objects that the tree to compare with does not show, and what a report of
 * success means.
 */
module Aftermath {
  import opened ResourceTree
  import opened BuildProperties
  import opened Cluster
  import opened Paths
  import opened Restore
  import opened RestoreProperties
  import opened Agent
  import opened Restoration

  /** The object has been written. */
  ghost predicate Written(events: seq<Event>, q: Path) {
    exists e :: e in events && IsWrite(e, q) && e.outcome == Done
  }

  predicate IsWrite(e: Event, q: Path) {
    e.ObjectWritten? && e.path == q
  }

  lemma {:induction false} UnwrittenStays(objects: map<Path, Definition>, events: seq<Event>, q: Path)
    requires q in objects && !Written(events, q)
    ensures q in Replay(objects, events) && Replay(objects, events)[q] == objects[q]
    decreases |events|
  {
    if events != [] {
      var before, e := events[..|events| - 1], events[|events| - 1];
      assert events == before + [e];
      assert e in events && forall d :: d in before ==> d in events;
      assert !(IsWrite(e, q) && e.outcome == Done);
      UnwrittenStays(objects, before, q);
    }
  }

  /** The one write that was carried out decides what is there in the end. */
  lemma WrittenDecides(objects: map<Path, Definition>, events: seq<Event>, i: nat, q: Path)
    requires i < |events| && IsWrite(events[i], q) && events[i].outcome == Done && Writes(events, q) <= 1
    ensures q in Replay(objects, events) && Replay(objects, events)[q] == events[i].definition
  {
    WrittenOnce(events, i, q);
    ReplayOneMore(objects, events, i);
    var upto := events[..i + 1];
    assert upto + events[i + 1..] == events;
    ReplayConcat(objects, upto, events[i + 1..]);
    UntouchedStays(Replay(objects, upto), events[i + 1..], q);
  }

  // ---- Objects that are there and are not shown

  /** A leaf of the backup with a definition, of a cluster-scoped resource, that the tree to compare with
      does not show. */
  ghost predicate Clobbered(w: Walk, a: Answer, q: Path) {
    && q in LeafPaths(w.tb.Keys) && q in w.start.payloads && w.start.payloads[q].definition.Some?
    && q !in Snapshot(a, EVERYTHING, w.start.world.objects)
    && |q| == OBJECT_DEPTH && q[..3] in w.tb && w.tb[q[..3]].isCluster
  }

  /** What a walk says about one object. */
  lemma LeafOfWalk(w: Walk, a: Answer, reliable: bool, q: Path)
    requires IsWalk(w, a, reliable)
    ensures q in LeafPaths(w.tb'.Keys)
       <==> q in LeafPaths(w.tb.Keys) && q !in Snapshot(a, EVERYTHING, w.start.world.objects)
    ensures q in LeafPaths(w.tb'.Keys) ==> |q| == OBJECT_DEPTH && q in w.start.payloads
    ensures Writes(w.events, q) <= 1
    ensures Writes(w.events, q) == 1
       <==> q in LeafPaths(w.tb'.Keys) && w.start.payloads[q].definition.Some?
            && NamespaceApplied(q[..4], false) !in w.events
  {
    hide *;
    WalkIs(w, a, reliable);
    BackupMinusCurrent(w.tb, w.tc, w.tb', w.tc', w.start, w.now, w.events, reliable);
    AtLeaf(w.tc.Keys, q);
    AtLeaf(w.tb.Keys, q);
    AtLeaf(w.tb'.Keys, q);
    DepthIs(q);
    CarvedFromBackup(w.tb, w.tc, w.tb', w.tc', w.start, w.now, w.events, reliable);
    SentExactlyOnce(w.tb, w.tc, w.tb', w.tc', w.start, w.now, w.events, reliable, q);
  }

  lemma DepthIs(q: Path)
    ensures IsLeaf(q) <==> |q| == OBJECT_DEPTH
    ensures OBJECT_DEPTH == 5
  {
  }

  lemma WriteOf(events: seq<Event>, q: Path) returns (i: nat)
    requires Writes(events, q) == 1
    ensures i < |events| && IsWrite(events[i], q)
  {
    CountsMembers(events, q);
    var e :| e in events && IsWrite(e, q);
    i :| 0 <= i < |events| && events[i] == e;
  }

  /** A write that is carried out meets no object of that path, unless the resource is cluster-scoped. */
  lemma DoneOverPresent(w: Walk, a: Answer, reliable: bool, q: Path)
    requires IsWalk(w, a, reliable) && q in w.start.world.objects && Written(w.events, q)
    ensures Clobbered(w, a, q) && q in w.start.payloads && w.start.payloads[q].definition.Some?
  {
    hide IsWalk, WalkedAll, AllLawful, Replay, Snapshot, LeafPaths, Strip;
    var e :| e in w.events && IsWrite(e, q) && e.outcome == Done;
    var i :| 0 <= i < |w.events| && w.events[i] == e;
    WalkIs(w, a, reliable);
    WalkedFacts(w, reliable, e);
    FineEvent(w, reliable, e);
    LawfulAt(w.start.world.objects, w.events, reliable, i);
    ReplayKeeps(w.start.world.objects, w.events[..i]);
    CountsMembers(w.events, q);
    LeafOfWalk(w, a, reliable, q);
  }

  /** A clobbered object is sent, and an API server that does not fail carries it out. */
  lemma ClobberedIsSent(w: Walk, a: Answer, reliable: bool, q: Path) returns (i: nat)
    requires IsWalk(w, a, reliable) && Tagged(w.tb, w.start.payloads) && Clobbered(w, a, q)
    ensures i < |w.events| && IsWrite(w.events[i], q) && w.events[i].clusterScoped && Writes(w.events, q) == 1
    ensures w.events[i].definition == Strip(w.start.payloads[q].definition.value)
    ensures reliable ==> w.events[i].outcome == Done
  {
    hide IsWalk, WalkedAll, AllLawful, Replay, Snapshot, LeafPaths, Strip;
    WalkIs(w, a, reliable);
    assert LeafTagged(w.tb, w.start.payloads, q) by {
      AtLeaf(w.tb.Keys, q);
    }
    assert q[..4][3] == q[3];
    NeverAsked(w.tb, w.tc, w.tb', w.tc', w.start, w.now, w.events, reliable, q[..4]);
    LeafOfWalk(w, a, reliable, q);
    i := WriteOf(w.events, q);
    WalkedFacts(w, reliable, w.events[i]);
    FineEvent(w, reliable, w.events[i]);
    LawfulAt(w.start.world.objects, w.events, reliable, i);
  }

  /**
   * An object that the cluster has is written if and only if it is clobbered and the Apply is carried out.
   * It then has the saved definition without what the server fills in; otherwise it stays as it was.
   */
  lemma PresentIsWrittenIff(w: Walk, a: Answer, reliable: bool, q: Path)
    requires IsWalk(w, a, reliable) && Tagged(w.tb, w.start.payloads) && q in w.start.world.objects
    ensures Written(w.events, q) ==> Clobbered(w, a, q)
    ensures Clobbered(w, a, q) ==> Writes(w.events, q) == 1 && (reliable ==> Written(w.events, q))
    ensures q in w.now.world.objects
    ensures w.now.world.objects[q] ==
      if Written(w.events, q) then Strip(w.start.payloads[q].definition.value) else w.start.world.objects[q]
  {
    hide *;
    WalkIs(w, a, reliable);
    EventsReplay(w, reliable);
    if Written(w.events, q) {
      DoneOverPresent(w, a, reliable, q);
      CarriedOut(w, a, reliable, q);
    } else {
      UnwrittenStays(w.start.world.objects, w.events, q);
    }
    if Clobbered(w, a, q) {
      var i := ClobberedIsSent(w, a, reliable, q);
      IsWritten(w.events, i, q);
    }
  }

  lemma IsWritten(events: seq<Event>, i: nat, q: Path)
    requires i < |events| && IsWrite(events[i], q)
    ensures events[i].outcome == Done ==> Written(events, q)
  {
  }

  lemma CarriedOut(w: Walk, a: Answer, reliable: bool, q: Path)
    requires IsWalk(w, a, reliable) && Written(w.events, q) && q in w.start.payloads
    requires w.start.payloads[q].definition.Some?
    ensures var after := Replay(w.start.world.objects, w.events);
            q in after && after[q] == Strip(w.start.payloads[q].definition.value)
  {
    hide WalkedAll, Snapshot, LeafPaths, Strip, Replay;
    var e :| e in w.events && IsWrite(e, q) && e.outcome == Done;
    var i :| 0 <= i < |w.events| && w.events[i] == e;
    FineEvent(w, reliable, e);
    LeafOfWalk(w, a, reliable, q);
    WrittenDecides(w.start.world.objects, w.events, i, q);
  }

  /** A failed listing hides the cluster-scoped objects of its resource, and the restore writes over them. */
  lemma FailedListingOverwrites(w: Walk, a: Answer, q: Path)
    requires IsWalk(w, a, true) && Tagged(w.tb, w.start.payloads) && q in w.start.world.objects
    requires q in LeafPaths(w.tb.Keys) && q in w.start.payloads && w.start.payloads[q].definition.Some?
    requires |q| == OBJECT_DEPTH && GvrOf(q) !in a.items && q[..3] in w.tb && w.tb[q[..3]].isCluster
    ensures q in w.now.world.objects
    ensures w.now.world.objects[q] == Strip(w.start.payloads[q].definition.value)
  {
    hide WalkedAll, Tagged, LeafPaths, Strip;
    assert !Shown(a, EVERYTHING, w.start.world.objects, q);
    PresentIsWrittenIff(w, a, true, q);
  }

  // ---- What a report of success means

  /** An object that the walk is to bring and the cluster lacks. */
  ghost predicate Due(w: Walk, a: Answer, q: Path) {
    && q in LeafPaths(w.tb.Keys) && q !in Snapshot(a, EVERYTHING, w.start.world.objects)
    && q in w.start.payloads && w.start.payloads[q].definition.Some?
    && q !in w.start.world.objects && |q| == OBJECT_DEPTH
  }

  ghost predicate Refused(w: Walk, q: Path)
    requires |q| == OBJECT_DEPTH
  {
    NamespaceApplied(q[..4], false) in w.events
  }

  lemma {:induction false} NotAdded(objects: map<Path, Definition>, events: seq<Event>, q: Path)
    requires q !in objects && Writes(events, q) == 0 && |q| == 5 && q[3] != CLUSTER_LEVEL_NAMESPACE
    ensures q !in Replay(objects, events)
    decreases |events|
  {
    if events != [] {
      var e := events[|events| - 1];
      NotAdded(objects, events[..|events| - 1], q);
      assert e.NamespaceApplied? && |e.at| == 4 ==> NamespacePath(e.at[3])[3] == CLUSTER_LEVEL_NAMESPACE;
    }
  }

  lemma RefusedIsLost(w: Walk, a: Answer, reliable: bool, q: Path)
    requires IsWalk(w, a, reliable) && Due(w, a, q) && Refused(w, q)
    ensures q !in w.now.world.objects
  {
    hide *;
    WalkIs(w, a, reliable);
    EventsReplay(w, reliable);
    DueIs(w, a, q);
    var i :| 0 <= i < |w.events| && w.events[i] == NamespaceApplied(q[..4], false);
    if q[3] == CLUSTER_LEVEL_NAMESPACE {
      NeverAsked(w.tb, w.tc, w.tb', w.tc', w.start, w.now, w.events, reliable, q[..4]);
    }
    LeafOfWalk(w, a, reliable, q);
    NotAdded(w.start.world.objects, w.events, q);
  }

  lemma DueIs(w: Walk, a: Answer, q: Path)
    requires Due(w, a, q)
    ensures q in LeafPaths(w.tb.Keys) && q !in Snapshot(a, EVERYTHING, w.start.world.objects)
    ensures q in w.start.payloads && w.start.payloads[q].definition.Some?
    ensures q !in w.start.world.objects && |q| == OBJECT_DEPTH == 5 && q[..4][3] == q[3]
    ensures Refused(w, q) <==> NamespaceApplied(q[..4], false) in w.events
  {
  }

  lemma RejectedIsKept(events: seq<Event>, e: Event)
    requires e in events && e.ObjectWritten?
    ensures e.outcome == Rejected ==> FailedKeys(events) != {}
  {
    hide DirPath;
    assert e.outcome == Rejected ==> DirPath(e.path) in FailedKeys(events);
  }

  lemma NothingRejected(w: Walk, reliable: bool, e: Event)
    requires WalkedAll(w.tb, w.tc, w.tb', w.tc', w.start, w.now, w.events, reliable)
    requires w.now.world.status == STATUS_SUCCESS && e in w.events && e.ObjectWritten?
    ensures e.outcome != Rejected
  {
    hide AllLawful, Replay, Reported, EventFine, Carved, Grown, Truthful, FailedKeys;
    RejectedIsKept(w.events, e);
    assert STATUS_SUCCESS[0] == 'S' && STATUS_PARTIAL_FAILED[0] == 'P';
  }

  /**
   * A run that reports success has brought exactly those missing objects whose namespace was not
   * refused: a refused namespace is not accounted for.
   */
  lemma SuccessBrings(w: Walk, a: Answer, reliable: bool, q: Path)
    requires IsWalk(w, a, reliable) && w.now.world.status == STATUS_SUCCESS && Due(w, a, q)
    ensures q in w.now.world.objects <==> !Refused(w, q)
  {
    hide *;
    WalkIs(w, a, reliable);
    DueIs(w, a, q);
    if Refused(w, q) {
      RefusedIsLost(w, a, reliable, q);
    } else {
      LeafOfWalk(w, a, reliable, q);
      var i := WriteOf(w.events, q);
      WriteIs(w.events[i], q);
      NothingRejected(w, reliable, w.events[i]);
      WalkedFacts(w, reliable, w.events[i]);
      DoneStays(w.start.world.objects, w.events, reliable, i);
    }
  }

  lemma WriteIs(e: Event, q: Path)
    ensures IsWrite(e, q) <==> e.ObjectWritten? && e.path == q
  {
  }

  /** A report of success means that everything was restored if and only if no namespace of a missing
      object was refused. */
  lemma SuccessMeansRestoredIff(w: Walk, a: Answer, reliable: bool)
    requires IsWalk(w, a, reliable) && w.now.world.status == STATUS_SUCCESS
    ensures (forall q :: Due(w, a, q) ==> q in w.now.world.objects)
       <==> (forall q :: Due(w, a, q) ==> NamespaceApplied(q[..4], false) !in w.events)
  {
    hide *;
    forall q | Due(w, a, q)
      ensures |q| == 5 && (q in w.now.world.objects <==> NamespaceApplied(q[..4], false) !in w.events)
    {
      DueIs(w, a, q);
      SuccessBrings(w, a, reliable, q);
    }
  }
}
