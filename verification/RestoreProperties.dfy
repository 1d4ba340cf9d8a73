/** What a restore guarantees as a whole, for every order in which maps are iterated and
    every pattern of failing calls. */
module RestoreProperties {
  import opened Wrappers
  import opened ResourceTree
  import opened Cluster
  import opened Paths
  import opened Restore

  /** The outcome of walking the whole of both trees. */
  ghost predicate WalkedAll(
    tb: map<Path, Node>, tc: map<Path, Node>, tb': map<Path, Node>, tc': map<Path, Node>,
    start: State, now: State, events: seq<Event>, reliable: bool)
  {
    && Closed(tb.Keys) && Closed(tc.Keys) && start.payloads.Keys == tb.Keys
    && Walked(tb, tb, tc, [], tb', tc', start, now, events, reliable)
  }

  lemma WalkedAllIs(
    tb: map<Path, Node>, tc: map<Path, Node>, tb': map<Path, Node>, tc': map<Path, Node>,
    start: State, now: State, events: seq<Event>, reliable: bool)
    ensures WalkedAll(tb, tc, tb', tc', start, now, events, reliable)
       <==> Closed(tb.Keys) && Closed(tc.Keys) && start.payloads.Keys == tb.Keys
            && Walked(tb, tb, tc, [], tb', tc', start, now, events, reliable)
  {
  }

  /** The backup tree is cut down to what the cluster lacked, with no branch left empty,
      and the live tree gains no object. */
  lemma BackupMinusCurrent(
    tb: map<Path, Node>, tc: map<Path, Node>, tb': map<Path, Node>, tc': map<Path, Node>,
    start: State, now: State, events: seq<Event>, reliable: bool)
    requires WalkedAll(tb, tc, tb', tc', start, now, events, reliable)
    ensures LeafPaths(tb'.Keys) == LeafPaths(tb.Keys) - tc.Keys
    ensures NoEmptyInner(tb'.Keys, 1) && Closed(tb'.Keys) && tb' == Spine(tb, LeafPaths(tb.Keys) - tc.Keys)
    ensures LeafPaths(tc'.Keys) == LeafPaths(tc.Keys)
  {
    hide Stretch, Truthful, Spine, Carved, Closed, NoEmptyInner;
    CarvedLeaves(tb, tc.Keys);
    CarvedStaysFull(tb, tc.Keys);
    SpineIsDetermined(tb, tb');
    SameLeafPaths(tc, tc', tb.Keys);
  }

  lemma SameLeafPaths(tc: map<Path, Node>, tc': map<Path, Node>, backup: set<Path>)
    requires Grown(tc, tc', backup, [])
    ensures LeafPaths(tc'.Keys) == LeafPaths(tc.Keys)
  {
  }

  lemma CarvedLeaves(t: map<Path, Node>, current: set<Path>)
    ensures LeafPaths(Carved(t, current, []).Keys) == LeafPaths(t.Keys) - current
    ensures Part(Carved(t, current, []), t)
  {
    forall q | q in t && IsLeaf(q)
      ensures q in Carved(t, current, []) <==> q !in current
    {
      assert q != [] && Under(q, []);
      assert forall r :: IsLeaf(r) && Under(r, q) <==> r == q;
    }
  }

  lemma CarvedStaysFull(t: map<Path, Node>, current: set<Path>)
    requires Closed(t.Keys)
    ensures Closed(Carved(t, current, []).Keys) && NoEmptyInner(Carved(t, current, []).Keys, 1)
  {
    var keys := Carved(t, current, []).Keys;
    forall q | q in keys
      ensures Hangs(keys, q)
    {
      assert Hangs(t.Keys, q);
      if q != [] {
        var r :| r in t.Keys && IsLeaf(r) && r !in current && Under(r, q);
        assert Under(r, q[..|q| - 1]);
      }
    }
    forall q | q in keys && 1 <= |q| < OBJECT_DEPTH
      ensures HasKid(keys, q)
    {
      MissingHangs(t.Keys, current, q);
      var k :| Kid(q, k) in t.Keys && MissingBelow(t.Keys, current, Kid(q, k));
      assert Kid(q, k) in keys;
    }
  }

  /** An object is sent at most once, and it is sent iff it has a definition, the cluster
      lacked it and its namespace was not refused. */
  lemma SentExactlyOnce(
    tb: map<Path, Node>, tc: map<Path, Node>, tb': map<Path, Node>, tc': map<Path, Node>,
    start: State, now: State, events: seq<Event>, reliable: bool, q: Path)
    requires WalkedAll(tb, tc, tb', tc', start, now, events, reliable)
    ensures Writes(events, q) <= 1
    ensures Writes(events, q) == 1 <==>
              q in tb' && IsLeaf(q) && start.payloads[q].definition.Some? && NamespaceApplied(q[..4], false) !in events
  {
    hide Ran, EventFine, Grown, Truthful, Carved, Closed, NoEmptyInner, Spine;
    BackupMinusCurrent(tb, tc, tb', tc', start, now, events, reliable);
    assert IsLeaf(q) ==> (q in tb' <==> q in LeafPaths(tb'.Keys));
  }

  lemma {:induction false} LawfulAt(objects: map<Path, Definition>, events: seq<Event>, reliable: bool, i: nat)
    requires AllLawful(objects, events, reliable) && i < |events|
    ensures Lawful(Replay(objects, events[..i]), events[i], reliable)
    decreases |events|
  {
    var before := events[..|events| - 1];
    if i < |events| - 1 {
      assert before[..i] == events[..i];
      LawfulAt(objects, before, reliable, i);
    }
  }

  /** A namespaced object is sent in a state of the cluster that has its namespace. */
  lemma NamespaceBeforeObject(
    tb: map<Path, Node>, tc: map<Path, Node>, tb': map<Path, Node>, tc': map<Path, Node>,
    start: State, now: State, events: seq<Event>, reliable: bool, i: nat)
    requires WalkedAll(tb, tc, tb', tc', start, now, events, reliable)
    requires i < |events| && events[i].ObjectWritten? && !events[i].clusterScoped
    requires |events[i].path| == OBJECT_DEPTH && events[i].path[3] != CLUSTER_LEVEL_NAMESPACE
    ensures NamespacePath(events[i].path[3]) in Replay(start.world.objects, events[..i])
  {
    LawfulAt(start.world.objects, events, reliable, i);
    assert EventFine(tb, Definitions(start.payloads), events[i]);
  }

  /** Whatever is sent is what the backup has, without what the server fills in itself. */
  lemma SentWithoutServerFields(
    tb: map<Path, Node>, tc: map<Path, Node>, tb': map<Path, Node>, tc': map<Path, Node>,
    start: State, now: State, events: seq<Event>, reliable: bool, e: Event)
    requires WalkedAll(tb, tc, tb', tc', start, now, events, reliable)
    requires e in events && e.ObjectWritten?
    ensures e.path in start.payloads && start.payloads[e.path].definition.Some?
    ensures SentOf(e.definition, start.payloads[e.path].definition.value)
  {
    hide Strip, SentOf, Ran, Reported, Carved, Grown;
    assert EventFine(tb, Definitions(start.payloads), e);
    StripIs(start.payloads[e.path].definition.value);
  }

  lemma EventAt(
    tb: map<Path, Node>, tc: map<Path, Node>, tb': map<Path, Node>, tc': map<Path, Node>,
    start: State, now: State, events: seq<Event>, reliable: bool, i: nat)
    requires WalkedAll(tb, tc, tb', tc', start, now, events, reliable)
    requires NamespacePath(CLUSTER_LEVEL_NAMESPACE) !in start.world.objects
    requires NamespacePath(CLUSTER_LEVEL_NAMESPACE) !in tb.Keys
    requires i < |events| && events[i].ObjectWritten?
    ensures EventIsDue(tb, tb', start, events[i])
    ensures events[i].clusterScoped || (events[i].namespaceThere <==> events[i].path[3] != CLUSTER_LEVEL_NAMESPACE)
  {
    var e := events[i];
    assert EventFine(tb, Definitions(start.payloads), e);
    CountsMembers(events, e.path);
    SentExactlyOnce(tb, tc, tb', tc', start, now, events, reliable, e.path);
    LawfulAt(start.world.objects, events, reliable, i);
    NoClusterNamespace(tb, tc, start, now, events, reliable, i);
  }

  /** An object with a definition that lies in the pseudo namespace. */
  ghost predicate InPseudoNamespace(payloads: map<Path, Payload>, q: Path) {
    |q| == OBJECT_DEPTH && q in payloads && payloads[q].definition.Some? && q[3] == CLUSTER_LEVEL_NAMESPACE
  }

  /** Where there is no namespace called like the pseudo namespace, each create meets its
      namespace iff no namespaced object of the difference claims to be in that namespace. */
  lemma AllMeetTheirNamespaceIff(
    tb: map<Path, Node>, tc: map<Path, Node>, tb': map<Path, Node>, tc': map<Path, Node>,
    start: State, now: State, events: seq<Event>, reliable: bool)
    requires WalkedAll(tb, tc, tb', tc', start, now, events, reliable)
    requires NamespacePath(CLUSTER_LEVEL_NAMESPACE) !in start.world.objects
    requires NamespacePath(CLUSTER_LEVEL_NAMESPACE) !in tb.Keys
    ensures (forall e :: e in events && e.ObjectWritten? && !e.clusterScoped ==> e.namespaceThere)
       <==> (forall q :: q in LeafPaths(tb.Keys) - tc.Keys && InPseudoNamespace(start.payloads, q) ==>
              q[..3] in tb && tb[q[..3]].isCluster)
  {
    CarvedFromBackup(tb, tc, tb', tc', start, now, events, reliable);
    BackupMinusCurrent(tb, tc, tb', tc', start, now, events, reliable);
    hide WalkedAll;
    assert forall q :: q in LeafPaths(tb.Keys) - tc.Keys <==> q in tb' && IsLeaf(q) by {
      assert forall q :: q in LeafPaths(tb'.Keys) <==> q in tb' && IsLeaf(q);
    }
    forall e | e in events && e.ObjectWritten?
      ensures EventIsDue(tb, tb', start, e)
      ensures e.clusterScoped || (e.namespaceThere <==> e.path[3] != CLUSTER_LEVEL_NAMESPACE)
    {
      var i :| 0 <= i < |events| && events[i] == e;
      EventAt(tb, tc, tb', tc', start, now, events, reliable, i);
    }
    forall q | q in tb' && IsLeaf(q) && start.payloads[q].definition.Some? && q[3] == CLUSTER_LEVEL_NAMESPACE
      ensures exists e :: e in events && e.ObjectWritten? && e.path == q
    {
      NeverAsked(tb, tc, tb', tc', start, now, events, reliable, q[..4]);
      SentExactlyOnce(tb, tc, tb', tc', start, now, events, reliable, q);
      CountsMembers(events, q);
    }
  }

  /** Where the cluster has a namespace of that name from the start, every create meets its namespace. */
  lemma AllMeetAnyway(
    tb: map<Path, Node>, tc: map<Path, Node>, tb': map<Path, Node>, tc': map<Path, Node>,
    start: State, now: State, events: seq<Event>, reliable: bool, i: nat)
    requires WalkedAll(tb, tc, tb', tc', start, now, events, reliable)
    requires NamespacePath(CLUSTER_LEVEL_NAMESPACE) in start.world.objects
    requires i < |events| && events[i].ObjectWritten? && !events[i].clusterScoped
    ensures events[i].namespaceThere
  {
    hide Replay, AllLawful, Reported, Carved, Grown;
    LawfulAt(start.world.objects, events, reliable, i);
    ReplayKeeps(start.world.objects, events[..i]);
    assert EventFine(tb, Definitions(start.payloads), events[i]);
  }

  lemma CarvedFromBackup(
    tb: map<Path, Node>, tc: map<Path, Node>, tb': map<Path, Node>, tc': map<Path, Node>,
    start: State, now: State, events: seq<Event>, reliable: bool)
    requires WalkedAll(tb, tc, tb', tc', start, now, events, reliable)
    ensures tb'.Keys <= tb.Keys == start.payloads.Keys
  {
  }

  lemma NeverAsked(
    tb: map<Path, Node>, tc: map<Path, Node>, tb': map<Path, Node>, tc': map<Path, Node>,
    start: State, now: State, events: seq<Event>, reliable: bool, at: Path)
    requires WalkedAll(tb, tc, tb', tc', start, now, events, reliable)
    requires |at| == 4 && at[3] == CLUSTER_LEVEL_NAMESPACE
    ensures forall accepted :: NamespaceApplied(at, accepted) !in events
  {
    CountsMembers(events, at);
    assert Applies(events, at) == 0;
  }

  ghost predicate EventIsDue(tb: map<Path, Node>, tb': map<Path, Node>, start: State, e: Event) {
    e.ObjectWritten? ==>
      && IsLeaf(e.path) && e.path in tb' && e.path in start.payloads && start.payloads[e.path].definition.Some?
      && e.path[..3] in tb && e.clusterScoped == tb[e.path[..3]].isCluster
  }

  /** What is asked for and written is of the backup tree. */
  ghost predicate OfTree(t: map<Path, Node>, e: Event) {
    match e
    case NamespaceApplied(at, _) => |at| == 4 && at[3] != CLUSTER_LEVEL_NAMESPACE
    case ObjectWritten(path, _, _, _, _) => path in t
  }

  lemma EventsOfTree(
    tb: map<Path, Node>, tc: map<Path, Node>, start: State, now: State, events: seq<Event>, reliable: bool, i: nat)
    requires Stretch(tb, start, now, DueLeaves(tb.Keys, tc.Keys, Definitions(start.payloads).Keys, []),
                     DueSpaces(tb.Keys, tc.Keys, []), events, reliable)
    requires i < |events|
    ensures OfTree(tb, events[i])
  {
    hide Ran, EventFine, Definitions;
    var e := events[i];
    match e
    case NamespaceApplied(at, _) =>
      CountsMembers(events, at);
      assert Applies(events, at) > 0;
      assert at in DueSpaces(tb.Keys, tc.Keys, []);
    case ObjectWritten(path, _, _, _, _) =>
      CountsMembers(events, path);
      assert Writes(events, path) > 0;
  }

  lemma {:induction false} NoClusterNamespace(
    tb: map<Path, Node>, tc: map<Path, Node>, start: State, now: State, events: seq<Event>, reliable: bool, i: nat)
    requires Stretch(tb, start, now, DueLeaves(tb.Keys, tc.Keys, Definitions(start.payloads).Keys, []),
                     DueSpaces(tb.Keys, tc.Keys, []), events, reliable)
    requires NamespacePath(CLUSTER_LEVEL_NAMESPACE) !in start.world.objects
    requires NamespacePath(CLUSTER_LEVEL_NAMESPACE) !in tb.Keys
    requires i <= |events|
    ensures NamespacePath(CLUSTER_LEVEL_NAMESPACE) !in Replay(start.world.objects, events[..i])
  {
    hide Stretch, DueLeaves, DueSpaces, Definitions;
    if i > 0 {
      NoClusterNamespace(tb, tc, start, now, events, reliable, i - 1);
      EventsOfTree(tb, tc, start, now, events, reliable, i - 1);
      assert events[..i][..i - 1] == events[..i - 1];
      StaysAway(tb, Replay(start.world.objects, events[..i - 1]), events[i - 1]);
    }
  }

  lemma StaysAway(t: map<Path, Node>, objects: map<Path, Definition>, e: Event)
    requires OfTree(t, e) && NamespacePath(CLUSTER_LEVEL_NAMESPACE) !in objects
    requires NamespacePath(CLUSTER_LEVEL_NAMESPACE) !in t
    ensures NamespacePath(CLUSTER_LEVEL_NAMESPACE) !in Step(objects, e)
  {
    assert e.NamespaceApplied? ==> NamespacePath(e.at[3])[4] == e.at[3];
  }

  // ---- Accounting for failures

  /** A path that the API server can hand out: only the group may be empty. */
  predicate ValidPath(q: Path) {
    IsLeaf(q) && (q[0] == "" || Normal(q[0])) && forall i :: 1 <= i < OBJECT_DEPTH ==> Normal(q[i])
  }

  lemma DirPathOfTwo(a: string, b: string)
    requires (a == "" || Normal(a)) && Normal(b)
    ensures DirPath([a, b]) == Show(Dir(false, if a == "" then [b] else [a, b]))
    ensures Canonical(Dir(false, if a == "" then [b] else [a, b]))
  {
    assert [a, b][..1] == [a] && [a][..0] == [];
    assert DirPath([a]) == Join("", a);
    SplitName(b);
    assert PushAll(false, [], [b]) == [b];
    if a == "" {
      assert Join("", b) == Show(Dir(false, [b]));
    } else {
      SplitName(a);
      assert PushAll(false, [], [a]) == [a];
      assert Join("", a) == Show(Dir(false, [a]));
      JoinName(Dir(false, [a]), b);
      assert [a] + [b] == [a, b];
    }
  }

  lemma DirPathSnoc(dirs: seq<string>)
    requires dirs != []
    ensures DirPath(dirs) == Join(DirPath(dirs[..|dirs| - 1]), dirs[|dirs| - 1])
  {
  }

  lemma {:induction false} DirPathOfNames(dirs: seq<string>)
    requires |dirs| >= 2 && (dirs[0] == "" || Normal(dirs[0]))
    requires forall i :: 1 <= i < |dirs| ==> Normal(dirs[i])
    ensures var d := Dir(false, if dirs[0] == "" then dirs[1..] else dirs);
            DirPath(dirs) == Show(d) && Canonical(d)
  {
    var last := |dirs| - 1;
    if |dirs| == 2 {
      hide Show, Canonical, Join, Normal, DirPath;
      DirPathOfTwo(dirs[0], dirs[1]);
      assert dirs == [dirs[0], dirs[1]];
    } else {
      hide Show, Canonical, Join, Normal, DirPath;
      var front := dirs[..last];
      DirPathSnoc(dirs);
      DirPathOfNames(front);
      var names := if front[0] == "" then front[1..] else front;
      JoinName(Dir(false, names), dirs[last]);
      assert names + [dirs[last]] == if dirs[0] == "" then dirs[1..] else dirs;
    }
  }

  /** The key under which a failed object is reported. */
  lemma KeyShape(q: Path)
    requires ValidPath(q)
    ensures DirPath(q) == Show(Dir(false, if q[0] == "" then q[1..] else q))
    ensures Canonical(Dir(false, if q[0] == "" then q[1..] else q))
  {
    DirPathOfNames(q);
  }

  /** Two objects never share a key, although the core group is the empty string. */
  lemma KeysAreDistinct(p: Path, q: Path)
    requires ValidPath(p) && ValidPath(q) && DirPath(p) == DirPath(q)
    ensures p == q
  {
    KeyShape(p);
    KeyShape(q);
    var a := if p[0] == "" then p[1..] else p;
    var b := if q[0] == "" then q[1..] else q;
    ShowInjective(Dir(false, a), Dir(false, b));
    assert a == b;
    if p[0] == "" {
      assert q[0] == "";
      assert p == [""] + a && q == [""] + b;
    }
  }

  lemma DotIsNothing(b: string)
    requires Normal(b)
    ensures DirPath([".", b]) == DirPath(["", b])
  {
    DirPathSnoc([".", b]);
    DirPathSnoc(["", b]);
    assert [".", b][..1] == ["."] && ["", b][..1] == [""] && ["."][..0] == [] && [""][..0] == [];
    assert DirPath(["."]) == Join("", ".") && DirPath([""]) == Join("", "");
    SplitName(".");
    assert PushAll(false, [], ["."]) == [];
    SplitName(b);
    JoinName(Dir(false, []), b);
    assert PushAll(false, [], [b]) == [b] && [] + [b] == [b];
  }

  /** The condition is needed: a group called like the current directory shares its keys with the core group. */
  lemma {:induction false} DotGroupSharesKeys(rest: seq<string>)
    requires rest != [] && forall i :: 0 <= i < |rest| ==> Normal(rest[i])
    ensures DirPath(["."] + rest) == DirPath([""] + rest)
    decreases |rest|
  {
    hide Join, Normal;
    if |rest| == 1 {
      assert ["."] + rest == [".", rest[0]] && [""] + rest == ["", rest[0]];
      DotIsNothing(rest[0]);
    } else {
      var front := rest[..|rest| - 1];
      DotGroupSharesKeys(front);
      DirPathSnoc(["."] + rest);
      DirPathSnoc([""] + rest);
      assert (["."] + rest)[..|rest|] == ["."] + front && ([""] + rest)[..|rest|] == [""] + front;
    }
  }

  /** A run that started clean reports a partial failure iff a write was rejected, and its
      keys stand one to one for the objects that were rejected. */
  lemma FailuresAccounted(
    tb: map<Path, Node>, tc: map<Path, Node>, tb': map<Path, Node>, tc': map<Path, Node>,
    start: State, now: State, events: seq<Event>, reliable: bool)
    requires WalkedAll(tb, tc, tb', tc', start, now, events, reliable)
    requires start.world.status == STATUS_SUCCESS && start.world.failed == map[]
    requires forall q :: q in tb && IsLeaf(q) ==> ValidPath(q)
    ensures now.world.status == (if now.world.failed == map[] then "Success" else "PartialFailed")
    ensures forall q :: ValidPath(q) ==>
              (DirPath(q) in now.world.failed <==>
               exists e :: e in events && e.ObjectWritten? && e.path == q && e.outcome == Rejected)
    ensures forall key :: key in now.world.failed ==> exists q :: q in tb' && IsLeaf(q) && DirPath(q) == key
  {
    assert now.world.failed.Keys == FailedKeys(events);
    assert now.world.failed == map[] <==> now.world.failed.Keys == {};
    forall e | e in events && e.ObjectWritten?
      ensures ValidPath(e.path) && e.path in tb'
    {
      assert EventFine(tb, Definitions(start.payloads), e);
      CountsMembers(events, e.path);
      SentExactlyOnce(tb, tc, tb', tc', start, now, events, reliable, e.path);
    }
    forall q | ValidPath(q) && DirPath(q) in FailedKeys(events)
      ensures exists e :: e in events && e.ObjectWritten? && e.path == q && e.outcome == Rejected
    {
      var e :| e in events && e.ObjectWritten? && e.outcome == Rejected && DirPath(e.path) == DirPath(q);
      KeysAreDistinct(e.path, q);
    }
  }

  // ---- Restores without failing calls

  lemma ReplayOneMore(objects: map<Path, Definition>, events: seq<Event>, i: nat)
    requires i < |events|
    ensures Replay(objects, events[..i + 1]) == Step(Replay(objects, events[..i]), events[i])
  {
    assert events[..i + 1][..i] == events[..i];
  }

  lemma ThereAfterStep(objects: map<Path, Definition>, e: Event, reliable: bool)
    requires Lawful(objects, e, reliable) && e.ObjectWritten? && e.outcome != Rejected
    ensures e.path in Step(objects, e)
  {
  }

  lemma DoneStays(objects: map<Path, Definition>, events: seq<Event>, reliable: bool, i: nat)
    requires AllLawful(objects, events, reliable) && i < |events|
    requires events[i].ObjectWritten? && events[i].outcome != Rejected
    ensures events[i].path in Replay(objects, events)
  {
    hide Replay, AllLawful, Step, Lawful;
    LawfulAt(objects, events, reliable, i);
    ReplayOneMore(objects, events, i);
    ThereAfterStep(Replay(objects, events[..i]), events[i], reliable);
    var upto := events[..i + 1];
    assert upto + events[i + 1..] == events;
    ReplayConcat(objects, upto, events[i + 1..]);
    ReplayKeeps(Replay(objects, upto), events[i + 1..]);
  }

  /** When no call fails without a reason, every object of the backup with a definition
      is in the cluster afterwards. */
  lemma EverythingRestored(
    tb: map<Path, Node>, tc: map<Path, Node>, tb': map<Path, Node>, tc': map<Path, Node>,
    start: State, now: State, events: seq<Event>, q: Path)
    requires WalkedAll(tb, tc, tb', tc', start, now, events, true)
    requires q in tb && IsLeaf(q) && start.payloads[q].definition.Some?
    requires q[..3] in tb && (tb[q[..3]].isCluster <==> q[3] == CLUSTER_LEVEL_NAMESPACE)
    requires q in tc ==> q in start.world.objects
    ensures q in now.world.objects
  {
    ReplayKeeps(start.world.objects, events);
    if q !in tc {
      forall i | 0 <= i < |events| && events[i].NamespaceApplied?
        ensures events[i].accepted
      {
        LawfulAt(start.world.objects, events, true, i);
      }
      BackupMinusCurrent(tb, tc, tb', tc', start, now, events, true);
      assert q in LeafPaths(tb'.Keys);
      SentExactlyOnce(tb, tc, tb', tc', start, now, events, true, q);
      CountsMembers(events, q);
      var e :| e in events && e.ObjectWritten? && e.path == q;
      var i :| 0 <= i < |events| && events[i] == e;
      assert EventFine(tb, Definitions(start.payloads), e);
      LawfulAt(start.world.objects, events, true, i);
      DoneStays(start.world.objects, events, true, i);
    }
  }

  lemma {:induction false} UntouchedStays(objects: map<Path, Definition>, events: seq<Event>, q: Path)
    requires q in objects && Writes(events, q) == 0
    ensures q in Replay(objects, events) && Replay(objects, events)[q] == objects[q]
    decreases |events|
  {
    if events != [] {
      UntouchedStays(objects, events[..|events| - 1], q);
    }
  }

  /** What the cluster had, and the live tree shows, is left as it was. */
  lemma PresentUnchanged(
    tb: map<Path, Node>, tc: map<Path, Node>, tb': map<Path, Node>, tc': map<Path, Node>,
    start: State, now: State, events: seq<Event>, reliable: bool, q: Path)
    requires WalkedAll(tb, tc, tb', tc', start, now, events, reliable)
    requires q in start.world.objects && (q in tb && IsLeaf(q) ==> q in tc)
    ensures q in now.world.objects && now.world.objects[q] == start.world.objects[q]
  {
    BackupMinusCurrent(tb, tc, tb', tc', start, now, events, reliable);
    SentExactlyOnce(tb, tc, tb', tc', start, now, events, reliable, q);
    assert q in LeafPaths(tb'.Keys) <==> q in tb' && IsLeaf(q);
    UntouchedStays(start.world.objects, events, q);
  }

  lemma NoFirstEvent(
    tb: map<Path, Node>, tc: map<Path, Node>, tb': map<Path, Node>, tc': map<Path, Node>,
    start: State, now: State, events: seq<Event>, reliable: bool)
    requires WalkedAll(tb, tc, tb', tc', start, now, events, reliable)
    requires LeafPaths(tb.Keys) <= tc.Keys && NoEmptyInner(tb.Keys, 1)
    ensures events == []
  {
    forall q
      ensures Writes(events, q) == 0
    {
      assert q in tb && IsLeaf(q) ==> q in LeafPaths(tb.Keys);
    }
    forall at
      ensures Applies(events, at) == 0
    {
      if at in DueSpaces(tb.Keys, tc.Keys, []) {
        var r := LeafBelow(tb.Keys, at);
        assert r in LeafPaths(tb.Keys);
        PrefixIn(tc.Keys, at, r);
      }
    }
    if events != [] {
      assert events[0] in events;
      CountsMembers(events, if events[0].ObjectWritten? then events[0].path else events[0].at);
    }
  }

  lemma NoEventsNoChange(
    t: map<Path, Node>, a: State, b: State, leaves: set<Path>, spaces: set<Path>, reliable: bool)
    requires Stretch(t, a, b, leaves, spaces, [], reliable)
    ensures a == b
  {
    assert FailedKeys([]) == {};
    assert b.world.failed == a.world.failed;
    assert forall q :: Writes([], q) == 0;
    assert b.payloads == a.payloads;
  }

  lemma OnlyRootOrLeaf(keys: set<Path>)
    requires Closed(keys) && NoEmptyInner(keys, 1)
    ensures keys == {[]} || LeafPaths(keys) != {}
  {
    if q :| q in keys && q != [] {
      var r := LeafBelow(keys, q);
      assert r in LeafPaths(keys);
    }
  }

  /** Restoring what is there already sends nothing and leaves only the root. */
  lemma NothingToRestore(
    tb: map<Path, Node>, tc: map<Path, Node>, tb': map<Path, Node>, tc': map<Path, Node>,
    start: State, now: State, events: seq<Event>, reliable: bool)
    requires WalkedAll(tb, tc, tb', tc', start, now, events, reliable)
    requires LeafPaths(tb.Keys) <= tc.Keys && NoEmptyInner(tb.Keys, 1)
    ensures tb'.Keys == {[]} && events == []
    ensures now == start
  {
    BackupMinusCurrent(tb, tc, tb', tc', start, now, events, reliable);
    OnlyRootOrLeaf(tb'.Keys);
    NoFirstEvent(tb, tc, tb', tc', start, now, events, reliable);
    NoEventsNoChange(tb, start, now, DueLeaves(tb.Keys, tc.Keys, Definitions(start.payloads).Keys, []),
                     DueSpaces(tb.Keys, tc.Keys, []), reliable);
  }
}
