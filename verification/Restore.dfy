/** Restoring: the backup tree is walked in step with the tree of the live cluster. What
    the cluster lacks is written to it, what it has is cut from the backup tree. */
module Restore {
  import opened Wrappers
  import opened ResourceTree
  import opened Cluster
  import opened Paths

  const SERVER_MANAGED := {
    "managedFields", "uid", "resourceVersion", "creationTimestamp", "selfLink", "generation", "ownerReferences"
  }

  function WithoutFields(d: Definition, key: string, names: set<string>): Definition {
    if key in d && d[key].Fields? then d[key := Fields(d[key].fields - names)] else d
  }

  /** The definition as it is sent: without what the server fills in itself. */
  function Strip(d: Definition): Definition {
    WithoutFields(WithoutFields(d - {"status"}, "metadata", SERVER_MANAGED), "spec", {"claimRef"})
  }

  lemma WithoutFieldsIs(d: Definition, key: string, names: set<string>)
    ensures var e := WithoutFields(d, key, names);
            e.Keys == d.Keys && (forall k :: k in e && k != key ==> e[k] == d[k])
            && (key in d && d[key].Fields? ==> e[key] == Fields(d[key].fields - names))
            && (key in d && d[key].Scalar? ==> e[key] == d[key])
  {
  }

  lemma NoneToLeaveOut(d: Definition, key: string, names: set<string>)
    requires key in d && d[key].Fields? ==> d[key].fields.Keys !! names
    ensures WithoutFields(d, key, names) == d
  {
    if key in d && d[key].Fields? {
      assert d[key].fields - names == d[key].fields;
      assert d[key := d[key]] == d;
    }
  }

  lemma StrippedStays(d: Definition)
    requires "status" !in d
    requires "metadata" in d && d["metadata"].Fields? ==> d["metadata"].fields.Keys !! SERVER_MANAGED
    requires "spec" in d && d["spec"].Fields? ==> d["spec"].fields.Keys !! {"claimRef"}
    ensures Strip(d) == d
  {
    hide SERVER_MANAGED;
    assert d - {"status"} == d;
    NoneToLeaveOut(d, "metadata", SERVER_MANAGED);
    NoneToLeaveOut(d, "spec", {"claimRef"});
  }

  /** What is sent of a definition: all but its status, seven fields of its metadata, and the claim reference. */
  ghost predicate SentOf(sent: Definition, d: Definition) {
    && (forall key :: key in sent <==> key in d && key != "status")
    && (forall key :: key in sent && key != "metadata" && key != "spec" ==> sent[key] == d[key])
    && ("metadata" in d ==>
        if d["metadata"].Fields? then
          var kept, all := sent["metadata"], d["metadata"].fields;
          && kept.Fields?
          && (forall key :: key in kept.fields <==>
               && key in all
               && key != "managedFields" && key != "uid" && key != "resourceVersion" && key != "creationTimestamp"
               && key != "selfLink" && key != "generation" && key != "ownerReferences")
          && (forall key :: key in kept.fields ==> kept.fields[key] == all[key])
        else sent["metadata"] == d["metadata"])
    && ("spec" in d ==>
        if d["spec"].Fields? then
          var kept, all := sent["spec"], d["spec"].fields;
          && kept.Fields?
          && (forall key :: key in kept.fields <==> key in all && key != "claimRef")
          && (forall key :: key in kept.fields ==> kept.fields[key] == all[key])
        else sent["spec"] == d["spec"])
  }

  /** Stripping leaves exactly that. */
  lemma StripSays(d: Definition)
    ensures SentOf(Strip(d), d)
  {
    assert "status"[1] == 't' && "metadata"[1] == 'e' && "spec"[1] == 'p';
    var e := d - {"status"};
    var f := WithoutFields(e, "metadata", SERVER_MANAGED);
    WithoutFieldsIs(e, "metadata", SERVER_MANAGED);
    WithoutFieldsIs(f, "spec", {"claimRef"});
  }

  /** Only what the server fills in is left out, and a second time nothing is. */
  lemma StripIs(d: Definition)
    ensures SentOf(Strip(d), d) && Strip(Strip(d)) == Strip(d)
  {
    StripSays(d);
    assert "metadata" in d && d["metadata"].Fields? ==> Strip(d)["metadata"].fields.Keys !! SERVER_MANAGED;
    hide SERVER_MANAGED;
    StrippedStays(Strip(d));
  }

  ghost function Definitions(payloads: map<Path, Payload>): map<Path, Definition> {
    map q | q in payloads && IsLeaf(q) && payloads[q].definition.Some? :: payloads[q].definition.value
  }

  // ---- What a restore asks of the cluster

  ghost function Writes(events: seq<Event>, q: Path): nat
    decreases |events|
  {
    if events == [] then 0
    else
      var e := events[|events| - 1];
      Writes(events[..|events| - 1], q) + if e.ObjectWritten? && e.path == q then 1 else 0
  }

  ghost function Applies(events: seq<Event>, at: Path): nat
    decreases |events|
  {
    if events == [] then 0
    else
      var e := events[|events| - 1];
      Applies(events[..|events| - 1], at) + if e.NamespaceApplied? && e.at == at then 1 else 0
  }

  lemma {:induction false} CountsConcat(a: seq<Event>, b: seq<Event>, q: Path)
    ensures Writes(a + b, q) == Writes(a, q) + Writes(b, q)
    ensures Applies(a + b, q) == Applies(a, q) + Applies(b, q)
    decreases |b|
  {
    if b == [] {
      assert a + b == a;
    } else {
      assert (a + b)[..|a + b| - 1] == a + b[..|b| - 1];
      CountsConcat(a, b[..|b| - 1], q);
    }
  }

  lemma {:induction false} CountsMembers(events: seq<Event>, q: Path)
    ensures Writes(events, q) > 0 <==> exists e :: e in events && e.ObjectWritten? && e.path == q
    ensures Applies(events, q) > 0 <==> exists e :: e in events && e.NamespaceApplied? && e.at == q
    decreases |events|
  {
    if events != [] {
      var before := events[..|events| - 1];
      CountsMembers(before, q);
      assert events == before + [events[|events| - 1]];
    }
  }

  /** Each due object is written once, unless its namespace could not be made; each due
      namespace is asked for once; nothing else happens. */
  ghost predicate Reported(leaves: set<Path>, spaces: set<Path>, events: seq<Event>) {
    && (forall q {:trigger Writes(events, q)} ::
         Writes(events, q) ==
           if q in leaves && IsLeaf(q) && NamespaceApplied(q[..4], false) !in events then 1 else 0)
    && (forall at {:trigger Applies(events, at)} :: Applies(events, at) == if at in spaces then 1 else 0)
  }

  lemma ReportedUnion(
    leaves1: set<Path>, spaces1: set<Path>, events1: seq<Event>,
    leaves2: set<Path>, spaces2: set<Path>, events2: seq<Event>)
    requires Reported(leaves1, spaces1, events1) && Reported(leaves2, spaces2, events2)
    requires leaves1 !! leaves2 && spaces1 !! spaces2
    requires forall q :: q in leaves1 && IsLeaf(q) ==> q[..4] !in spaces2
    requires forall q :: q in leaves2 && IsLeaf(q) ==> q[..4] !in spaces1
    ensures Reported(leaves1 + leaves2, spaces1 + spaces2, events1 + events2)
  {
    var events := events1 + events2;
    forall q
      ensures Writes(events, q) ==
        if q in leaves1 + leaves2 && IsLeaf(q) && NamespaceApplied(q[..4], false) !in events then 1 else 0
    {
      CountsConcat(events1, events2, q);
      if IsLeaf(q) {
        CountsMembers(events1, q[..4]);
        CountsMembers(events2, q[..4]);
        assert Applies(events1, q[..4]) == if q[..4] in spaces1 then 1 else 0;
        assert Applies(events2, q[..4]) == if q[..4] in spaces2 then 1 else 0;
      }
    }
    forall at
      ensures Applies(events, at) == if at in spaces1 + spaces2 then 1 else 0
    {
      CountsConcat(events1, events2, at);
    }
  }

  /** What holds of each object that is sent: the definition is the stripped one, the
      scope is right, and a namespaced object meets its namespace. */
  ghost predicate EventFine(t: map<Path, Node>, defs: map<Path, Definition>, e: Event) {
    e.ObjectWritten? ==>
      && IsLeaf(e.path) && e.path in defs && e.definition == Strip(defs[e.path])
      && e.path[..3] in t && e.clusterScoped == t[e.path[..3]].isCluster
      && (!e.clusterScoped && e.path[3] != CLUSTER_LEVEL_NAMESPACE ==> e.namespaceThere)
  }

  ghost function FailedKeys(events: seq<Event>): set<string> {
    set e | e in events && e.ObjectWritten? && e.outcome == Rejected :: DirPath(e.path)
  }

  ghost function RejectedAt(keys: set<string>): map<string, Outcome> {
    map key | key in keys :: Rejected
  }

  // ---- What a restore leaves of the backup tree

  /** The backup has an object at or below `q` that the cluster lacks. */
  ghost predicate MissingBelow(backup: set<Path>, current: set<Path>, q: Path) {
    exists r :: r in backup && IsLeaf(r) && r !in current && Under(r, q)
  }

  /** The backup tree after the walk below `p`. */
  ghost function Carved(t: map<Path, Node>, current: set<Path>, p: Path): map<Path, Node> {
    map q | q in t && (Under(q, p) && q != p ==> MissingBelow(t.Keys, current, q)) :: t[q]
  }

  /** The same for the children of `p` with the names in `done`. */
  ghost function CarvedIn(t: map<Path, Node>, current: set<Path>, p: Path, done: set<string>): map<Path, Node> {
    map q | q in t && (BelowAny(q, p, done) ==> MissingBelow(t.Keys, current, q)) :: t[q]
  }

  ghost function DueLeaves(backup: set<Path>, current: set<Path>, defined: set<Path>, p: Path): set<Path> {
    set q | q in backup && IsLeaf(q) && q !in current && q in defined && Under(q, p)
  }

  ghost function DueSpaces(backup: set<Path>, current: set<Path>, p: Path): set<Path> {
    set at | at in backup && |at| == 4 && at !in current && at[3] != CLUSTER_LEVEL_NAMESPACE && Under(at, p)
  }

  ghost function DueLeavesIn(backup: set<Path>, current: set<Path>, defined: set<Path>, p: Path, done: set<string>)
    : set<Path>
  {
    set q | q in backup && IsLeaf(q) && q !in current && q in defined && BelowAny(q, p, done)
  }

  ghost function DueSpacesIn(backup: set<Path>, current: set<Path>, p: Path, done: set<string>): set<Path> {
    set at | at in backup && |at| == 4 && at !in current && at[3] != CLUSTER_LEVEL_NAMESPACE && BelowAny(at, p, done)
  }

  /** Two sets of paths have the same namespaces and objects below `p`. */
  ghost predicate AgreeDeep(a: set<Path>, b: set<Path>, p: Path, depth: nat) {
    forall q :: Under(q, p) && |q| >= depth ==> (q in a <==> q in b)
  }

  lemma MissingAgrees(backup: set<Path>, current: set<Path>, backup': set<Path>, current': set<Path>, p: Path, q: Path)
    requires AgreeDeep(backup, backup', p, 5) && AgreeDeep(current, current', p, 5) && Under(q, p)
    ensures MissingBelow(backup, current, q) <==> MissingBelow(backup', current', q)
  {
    forall r | Under(r, q) && IsLeaf(r)
      ensures Under(r, p) && (r in backup <==> r in backup') && (r in current <==> r in current')
    {
      assert p == q[..|p|] == r[..|p|];
    }
  }

  lemma BelowOneMore(q: Path, p: Path, done: set<string>, k: string)
    ensures BelowAny(q, p, done + {k}) <==> BelowAny(q, p, done) || Under(q, Kid(p, k))
  {
    BelowKid(q, p, k);
  }

  /** What is done below other children does not show below `Kid(p, k)`. */
  lemma CarvedElsewhere(t: map<Path, Node>, current: set<Path>, p: Path, done: set<string>, k: string)
    requires k !in done
    ensures forall q :: Under(q, Kid(p, k)) ==> (q in CarvedIn(t, current, p, done) <==> q in t)
  {
    forall q | Under(q, Kid(p, k))
      ensures q in CarvedIn(t, current, p, done) <==> q in t
    {
      BelowKid(q, p, k);
    }
  }

  lemma {:induction false} MissingHangs(backup: set<Path>, current: set<Path>, p: Path)
    requires Closed(backup) && |p| < OBJECT_DEPTH
    ensures MissingBelow(backup, current, p)
       <==> exists k :: Kid(p, k) in backup && MissingBelow(backup, current, Kid(p, k))
  {
    if MissingBelow(backup, current, p) {
      var r :| r in backup && IsLeaf(r) && r !in current && Under(r, p);
      var k := r[|p|];
      assert r[..|p| + 1] == Kid(p, k);
      PrefixIn(backup, Kid(p, k), r);
      assert Kid(p, k) in backup && MissingBelow(backup, current, Kid(p, k));
    }
    if k :| Kid(p, k) in backup && MissingBelow(backup, current, Kid(p, k)) {
      var r :| r in backup && IsLeaf(r) && r !in current && Under(r, Kid(p, k));
      BelowKid(r, p, k);
    }
  }

  /** After one more child has been carved below and, when emptied, dropped. */
  lemma CarveStep(t: map<Path, Node>, current: set<Path>, p: Path, done: set<string>, k: string, current': set<Path>)
    requires Closed(t.Keys) && k !in done && Kid(p, k) in t && |p| < 4
    requires AgreeDeep(current, current', Kid(p, k), 5)
    ensures var mid := Carved(CarvedIn(t, current, p, done), current', Kid(p, k));
            && (MissingBelow(t.Keys, current, Kid(p, k)) <==> HasKid(mid.Keys, Kid(p, k)))
            && CarvedIn(t, current, p, done + {k})
               == if HasKid(mid.Keys, Kid(p, k)) then mid else Without(mid, Kid(p, k))
  {
    var kid := Kid(p, k);
    var before := CarvedIn(t, current, p, done);
    var mid := Carved(before, current', kid);
    CarvedElsewhere(t, current, p, done, k);
    forall q | Under(q, kid) && q in t
      ensures MissingBelow(t.Keys, current, q) <==> MissingBelow(before.Keys, current', q)
      ensures MissingBelow(t.Keys, current, q) ==> MissingBelow(t.Keys, current, kid)
    {
      MissingAgrees(t.Keys, current, before.Keys, current', kid, q);
      if r :| r in t.Keys && IsLeaf(r) && r !in current && Under(r, q) {
        assert kid == q[..|kid|] == r[..|kid|];
      }
    }
    forall j
      ensures Kid(kid, j) in mid <==> Kid(kid, j) in t && MissingBelow(t.Keys, current, Kid(kid, j))
    {
      assert Under(Kid(kid, j), kid) && Kid(kid, j) != kid;
    }
    MissingHangs(t.Keys, current, kid);
    forall q | q in t
      ensures q in CarvedIn(t, current, p, done + {k})
         <==> q in mid && (!MissingBelow(t.Keys, current, kid) ==> !Under(q, kid))
    {
      BelowOneMore(q, p, done, k);
    }
  }

  lemma DueStep(
    backup: set<Path>, current: set<Path>, defined: set<Path>, p: Path, done: set<string>, k: string,
    backup': set<Path>, current': set<Path>, defined': set<Path>)
    requires k !in done
    requires AgreeDeep(backup, backup', Kid(p, k), 4) && AgreeDeep(current, current', Kid(p, k), 4)
    requires AgreeDeep(defined, defined', Kid(p, k), 4)
    ensures DueLeavesIn(backup, current, defined, p, done + {k})
         == DueLeavesIn(backup, current, defined, p, done) + DueLeaves(backup', current', defined', Kid(p, k))
    ensures DueSpacesIn(backup, current, p, done + {k})
         == DueSpacesIn(backup, current, p, done) + DueSpaces(backup', current', Kid(p, k))
  {
    forall q
      ensures BelowAny(q, p, done + {k}) <==> BelowAny(q, p, done) || Under(q, Kid(p, k))
    {
      BelowOneMore(q, p, done, k);
    }
  }

  /** The reports on the children add up to the report on their parent. */
  lemma ReportStep(
    backup: set<Path>, current: set<Path>, defined: set<Path>, p: Path, done: set<string>, k: string,
    events: seq<Event>, leaves: set<Path>, spaces: set<Path>, more: seq<Event>)
    requires k !in done && |p| < 4
    requires Reported(DueLeavesIn(backup, current, defined, p, done), DueSpacesIn(backup, current, p, done), events)
    requires Reported(leaves, spaces, more)
    requires forall q :: q in leaves || q in spaces ==> Under(q, Kid(p, k))
    ensures Reported(DueLeavesIn(backup, current, defined, p, done) + leaves,
                     DueSpacesIn(backup, current, p, done) + spaces, events + more)
  {
    forall q | Under(q, Kid(p, k))
      ensures !BelowAny(q, p, done)
    {
      BelowKid(q, p, k);
    }
    forall q | IsLeaf(q)
      ensures Under(q[..4], Kid(p, k)) ==> Under(q, Kid(p, k))
      ensures BelowAny(q[..4], p, done) ==> BelowAny(q, p, done)
    {
      assert |p| < |q[..4]| ==> q[..4][|p|] == q[|p|];
      if Under(q[..4], Kid(p, k)) {
        assert Kid(p, k) == q[..4][..|p| + 1] == q[..|p| + 1];
      }
    }
    ReportedUnion(DueLeavesIn(backup, current, defined, p, done), DueSpacesIn(backup, current, p, done), events,
                  leaves, spaces, more);
  }

  // ---- The walk

  /** The state outside the trees. */
  datatype World = World(
    objects: map<Path, Definition>, log: seq<Event>, status: string, failed: map<string, Outcome>)

  ghost function WorldOf(server: ApiServer, status: MissionStatus): World
    reads server, status
  {
    World(server.objects, server.log, status.status, status.failedObjects)
  }

  /** The events lead from one world to the other, and each failed write is accounted for. */
  ghost predicate Ran(before: World, after: World, events: seq<Event>, reliable: bool) {
    && AllLawful(before.objects, events, reliable)
    && after.objects == Replay(before.objects, events) && after.log == before.log + events
    && after.failed == before.failed + RejectedAt(FailedKeys(events))
    && after.status == if FailedKeys(events) == {} then before.status else STATUS_PARTIAL_FAILED
  }

  lemma FailedConcat(a: seq<Event>, b: seq<Event>, failed: map<string, Outcome>)
    ensures FailedKeys(a + b) == FailedKeys(a) + FailedKeys(b)
    ensures failed + RejectedAt(FailedKeys(a + b)) == failed + RejectedAt(FailedKeys(a)) + RejectedAt(FailedKeys(b))
  {
    FailedKeysConcat(a, b);
    hide FailedKeys;
    assert RejectedAt(FailedKeys(a + b)) == RejectedAt(FailedKeys(a)) + RejectedAt(FailedKeys(b));
  }

  lemma FailedKeysConcat(a: seq<Event>, b: seq<Event>)
    ensures FailedKeys(a + b) == FailedKeys(a) + FailedKeys(b)
  {
    hide DirPath;
    assert forall e :: e in a + b <==> e in a || e in b;
  }

  lemma RanOn(a: World, b: World, c: World, events: seq<Event>, more: seq<Event>, reliable: bool)
    requires Ran(a, b, events, reliable) && Ran(b, c, more, reliable)
    ensures Ran(a, c, events + more, reliable)
  {
    hide AllLawful, Replay, FailedKeys, RejectedAt;
    FailedConcat(events, more, a.failed);
    ReplayConcat(a.objects, events, more);
    Assoc(a.log, events, more);
    AllLawfulConcat(a.objects, events, more, reliable);
  }

  lemma RanOne(a: World, b: World, e: Event, reliable: bool)
    requires Lawful(a.objects, e, reliable) && b.objects == Step(a.objects, e) && b.log == a.log + [e]
    requires var failed := if e.ObjectWritten? && e.outcome == Rejected then {DirPath(e.path)} else {};
             && b.failed == a.failed + RejectedAt(failed)
             && b.status == if failed == {} then a.status else STATUS_PARTIAL_FAILED
    ensures Ran(a, b, [e], reliable)
  {
    assert [e][..0] == [] && [e][0] == e;
    assert Replay(a.objects, []) == a.objects;
    var failed := if e.ObjectWritten? && e.outcome == Rejected then {DirPath(e.path)} else {};
    assert e in [e];
    assert FailedKeys([e]) == failed;
  }

  function Stripped(p: Payload): Payload {
    if p.definition.Some? then p.(definition := Some(Strip(p.definition.value))) else p
  }

  /** The state that a walk over the backup tree `t` changes, beside the shape of the trees. */
  datatype State = State(world: World, payloads: map<Path, Payload>)

  ghost function StateOf(server: ApiServer, status: MissionStatus, t: map<Path, Node>): State
    reads server, status, t.Values`payload
  {
    State(WorldOf(server, status), Payloads(t))
  }

  /** A stretch of the walk: exactly the due objects are sent and due namespaces asked for,
      the right definitions go out, and those that go out are stripped in the tree. */
  ghost predicate Stretch(
    t: map<Path, Node>, before: State, after: State, leaves: set<Path>, spaces: set<Path>,
    events: seq<Event>, reliable: bool)
  {
    && Ran(before.world, after.world, events, reliable)
    && Reported(leaves, spaces, events)
    && before.payloads.Keys == after.payloads.Keys
    && (forall q :: q in before.payloads ==>
         after.payloads[q] == if Writes(events, q) > 0 then Stripped(before.payloads[q]) else before.payloads[q])
    && (forall e :: e in events ==> EventFine(t, Definitions(before.payloads), e))
  }

  lemma StretchNothing(t: map<Path, Node>, s: State, reliable: bool)
    ensures Stretch(t, s, s, {}, {}, [], reliable)
  {
    assert FailedKeys([]) == {};
  }

  lemma StretchOn(
    t: map<Path, Node>, a: State, b: State, c: State, leaves: set<Path>, spaces: set<Path>, events: seq<Event>,
    leaves2: set<Path>, spaces2: set<Path>, more: seq<Event>, reliable: bool)
    requires Stretch(t, a, b, leaves, spaces, events, reliable)
    requires Stretch(t, b, c, leaves2, spaces2, more, reliable)
    requires leaves !! leaves2 && Reported(leaves + leaves2, spaces + spaces2, events + more)
    ensures Stretch(t, a, c, leaves + leaves2, spaces + spaces2, events + more, reliable)
  {
    RanOn(a.world, b.world, c.world, events, more, reliable);
    forall q
      ensures Writes(events + more, q) == Writes(events, q) + Writes(more, q)
      ensures Writes(events, q) == 0 || Writes(more, q) == 0
    {
      CountsConcat(events, more, q);
    }
    forall e | e in more
      ensures EventFine(t, Definitions(a.payloads), e)
    {
      if e.ObjectWritten? {
        CountsMembers(more, e.path);
        assert Writes(events, e.path) == 0;
        assert e.path in Definitions(b.payloads);
      }
    }
  }

  lemma StretchKeepsTags(
    t: map<Path, Node>, before: State, after: State, leaves: set<Path>, spaces: set<Path>,
    events: seq<Event>, reliable: bool)
    requires Tagged(t, before.payloads) && Stretch(t, before, after, leaves, spaces, events, reliable)
    ensures Tagged(t, after.payloads)
  {
    forall q | q in t && IsLeaf(q)
      ensures LeafTagged(t, after.payloads, q)
    {
      assert LeafTagged(t, before.payloads, q);
    }
  }

  ghost predicate Placed(t: map<Path, Node>) {
    forall q :: q in t ==> t[q].path == q
  }

  /** What the live tree says about namespaces is true of the cluster. */
  ghost predicate Truthful(t: map<Path, Node>, objects: map<Path, Definition>) {
    forall at :: at in t && |at| == 4 && at[3] != CLUSTER_LEVEL_NAMESPACE ==> NamespacePath(at[3]) in objects
  }

  lemma {:induction false} ReplayKeeps(objects: map<Path, Definition>, events: seq<Event>)
    ensures objects.Keys <= Replay(objects, events).Keys
    decreases |events|
  {
    if events != [] {
      ReplayKeeps(objects, events[..|events| - 1]);
    }
  }

  method Send(o: Node, definition: Definition, server: ApiServer, ghost q: Path)
    returns (outcome: Outcome, ghost e: Event)
    requires IsLeaf(q) && o.name == q[4]
    requires o.payload.gvr == Some(Gvr(q[0], q[1], q[2]))
    requires o.payload.metadata.Some? && o.payload.metadata.value == MetadataAt(q, o.payload.metadata.value.isCluster)
    requires o.payload.metadata.value.isCluster ==> q[3] == CLUSTER_LEVEL_NAMESPACE
    modifies server
    ensures e == ObjectWritten(
      q, definition, o.payload.metadata.value.isCluster, NamespacePath(q[3]) in old(server.objects), outcome)
    ensures server.log == old(server.log) + [e]
    ensures server.objects == Step(old(server.objects), e) && Lawful(old(server.objects), e, server.reliable)
  {
    var metadata := o.payload.metadata.value;
    if metadata.isCluster {
      outcome, e := server.Apply(o.payload.gvr.value, o.name, definition);
      assert [q[0], q[1], q[2], CLUSTER_LEVEL_NAMESPACE, q[4]] == q;
    } else {
      outcome, e := server.Create(o.payload.gvr.value, metadata.namespace, metadata.name, definition);
      assert [q[0], q[1], q[2], q[3], q[4]] == q;
    }
  }

  lemma TaggedAt(t: map<Path, Node>, o: Node)
    requires o.path in t && t[o.path] == o && |o.path| == 5 && LeafTagged(t, Payloads(t), o.path)
    ensures o.payload.metadata.Some? && o.payload.gvr.Some? && o.path in Payloads(t)
    ensures o.path[..3] in t && o.payload.metadata.value.isCluster == t[o.path[..3]].isCluster
    ensures |o.path| == OBJECT_DEPTH
    ensures o.payload.metadata.value == MetadataAt(o.path, o.payload.metadata.value.isCluster)
    ensures o.payload.gvr == Some(Gvr(o.path[0], o.path[1], o.path[2]))
    ensures o.payload.metadata.value.isCluster ==> o.path[3] == CLUSTER_LEVEL_NAMESPACE
    ensures var m := o.payload.metadata.value; [m.group, m.version, m.resource, m.namespace, m.name] == o.path
  {
  }

  lemma CountOne(e: Event)
    requires e.ObjectWritten?
    ensures forall q :: Writes([e], q) == (if q == e.path then 1 else 0) && Applies([e], q) == 0
  {
    var one := [e];
    assert one[..|one| - 1] == [] && one[|one| - 1] == e && one != [];
    forall q
      ensures Writes(one, q) == (if q == e.path then 1 else 0) && Applies(one, q) == 0
    {
      assert Writes([], q) == 0 && Applies([], q) == 0;
    }
  }

  lemma ReportOne(e: Event)
    requires e.ObjectWritten? && IsLeaf(e.path)
    ensures Reported({e.path}, {}, [e])
  {
    CountOne(e);
  }

  lemma SentOne(t: map<Path, Node>, a: State, b: State, e: Event, reliable: bool)
    requires e.ObjectWritten? && |e.path| == 5 && e.path in a.payloads && e.path[..3] in t
    requires Lawful(a.world.objects, e, reliable) && b.world.objects == Step(a.world.objects, e)
    requires b.world.log == a.world.log + [e]
    requires b.world.failed
          == if e.outcome == Rejected then a.world.failed[DirPath(e.path) := Rejected] else a.world.failed
    requires b.world.status == if e.outcome == Rejected then STATUS_PARTIAL_FAILED else a.world.status
    requires a.payloads[e.path].definition.Some? && e.definition == Strip(a.payloads[e.path].definition.value)
    requires e.clusterScoped == t[e.path[..3]].isCluster
    requires !e.clusterScoped && e.path[3] != CLUSTER_LEVEL_NAMESPACE ==> e.namespaceThere
    requires b.payloads == a.payloads[e.path := Stripped(a.payloads[e.path])]
    ensures Stretch(t, a, b, {e.path}, {}, [e], reliable)
  {
    hide DirPath, Strip, Replay, Step, AllLawful, Writes, Applies, Reported;
    assert b.world.failed ==
      a.world.failed + RejectedAt(if e.outcome == Rejected then {DirPath(e.path)} else {});
    RanOne(a.world, b.world, e, reliable);
    ReportOne(e);
    CountOne(e);
  }

  method Account(status: MissionStatus, key: string, outcome: Outcome)
    modifies status
    ensures status.failedObjects == if outcome == Rejected then old(status.failedObjects)[key := Rejected]
                                    else old(status.failedObjects)
    ensures status.status == if outcome == Rejected then STATUS_PARTIAL_FAILED else old(status.status)
  {
    if outcome == Rejected {
      status.SetStatus(STATUS_PARTIAL_FAILED);
      status.AddFailedObjects(key, outcome);
    }
  }

  method ApplyObject(o: Node, server: ApiServer, status: MissionStatus, ghost t: map<Path, Node>)
    returns (ok: bool, ghost events: seq<Event>)
    requires Placed(t) && o.path in t && t[o.path] == o && |o.path| == 5 && o.name == o.path[4]
    requires LeafTagged(t, Payloads(t), o.path)
    requires o.path[3] != CLUSTER_LEVEL_NAMESPACE ==> NamespacePath(o.path[3]) in server.objects
    modifies o`payload, server, status
    ensures Stretch(t, old(StateOf(server, status, t)), StateOf(server, status, t),
                    if old(o.payload.definition).Some? then {o.path} else {}, {}, events, server.reliable)
    ensures old(o.payload.definition).None? ==> !ok && events == []
    ensures old(o.payload.definition).Some? ==>
      |events| == 1 && events[0].ObjectWritten? && (ok <==> events[0].outcome != Rejected)
  {
    hide Ran, Stretch, Reported, AllLawful, Lawful, Step, Replay, Strip, DirPath, FailedKeys, RejectedAt;
    hide Writes, Applies, LeafTagged, EventFine, StateOf;
    ghost var q := o.path;
    ghost var before := StateOf(server, status, t);
    TaggedAt(t, o);
    PayloadsOf(server, status, t);
    var metadata := o.payload.metadata.value;
    var key := GenerateDirPath(
      [metadata.group, metadata.version, metadata.resource, metadata.namespace, metadata.name]);
    if o.payload.definition.None? {
      StretchNothing(t, before, server.reliable);
      return false, [];
    }
    var definition := Strip(o.payload.definition.value);
    o.payload := o.payload.(definition := Some(definition));
    assert Payloads(t) == before.payloads[q := Stripped(before.payloads[q])];
    var outcome;
    ghost var e;
    outcome, e := Send(o, definition, server, q);
    Account(status, key, outcome);
    ok, events := outcome != Rejected, [e];
    PayloadsOf(server, status, t);
    SentOne(t, before, StateOf(server, status, t), e, server.reliable);
  }

  /** An object is carved by itself when the cluster has it. */
  lemma CarveLeaf(t: map<Path, Node>, current: set<Path>, p: Path, done: set<string>, k: string)
    requires Closed(t.Keys) && k !in done && |p| == 4
    ensures var before := CarvedIn(t, current, p, done);
            CarvedIn(t, current, p, done + {k}) == if Kid(p, k) in current then Without(before, Kid(p, k)) else before
  {
    var kid := Kid(p, k);
    CarvedElsewhere(t, current, p, done, k);
    forall q | q in t
      ensures Under(q, kid) <==> q == kid
      ensures BelowAny(q, p, done + {k}) <==> BelowAny(q, p, done) || q == kid
      ensures q == kid ==> (MissingBelow(t.Keys, current, q) <==> q !in current)
    {
      assert Hangs(t.Keys, q);
      BelowOneMore(q, p, done, k);
      if q == kid {
        assert forall r :: IsLeaf(r) && Under(r, q) <==> r == q;
      }
    }
  }

  lemma DueLeaf(backup: set<Path>, current: set<Path>, defined: set<Path>, p: Path, done: set<string>, k: string)
    requires |p| == 4 && k !in done && Closed(backup)
    ensures DueLeavesIn(backup, current, defined, p, done + {k})
         == DueLeavesIn(backup, current, defined, p, done)
            + if Kid(p, k) in backup && Kid(p, k) !in current && Kid(p, k) in defined then {Kid(p, k)} else {}
    ensures Kid(p, k) !in DueLeavesIn(backup, current, defined, p, done)
  {
    BelowKid(Kid(p, k), p, k);
    forall q | q in backup && IsLeaf(q)
      ensures BelowAny(q, p, done + {k}) <==> BelowAny(q, p, done) || q == Kid(p, k)
    {
      BelowOneMore(q, p, done, k);
    }
  }

  lemma ReportLeaves(
    t: map<Path, Node>, a: State, b: State, server: ApiServer, status: MissionStatus,
    leaves: set<Path>, events: seq<Event>, due: set<Path>, more: seq<Event>)
    requires Stretch(t, a, b, leaves, {}, events, server.reliable)
    requires Stretch(t, b, StateOf(server, status, t), due, {}, more, server.reliable) && leaves !! due
    ensures Stretch(t, a, StateOf(server, status, t), leaves + due, {}, events + more, server.reliable)
    ensures b.world.objects.Keys <= server.objects.Keys
  {
    ReportedUnion(leaves, {}, events, due, {}, more);
    var none: set<Path> := {};
    assert none + none == none;
    StretchOn(t, a, b, StateOf(server, status, t), leaves, {}, events, due, {}, more, server.reliable);
    ReplayKeeps(b.world.objects, more);
  }

  lemma NotYetSent(
    t: map<Path, Node>, a: State, server: ApiServer, status: MissionStatus,
    leaves: set<Path>, events: seq<Event>, q: Path)
    requires Stretch(t, a, StateOf(server, status, t), leaves, {}, events, server.reliable) && Tagged(t, a.payloads)
    requires q in t && |q| == 5 && q !in leaves
    ensures LeafTagged(t, Payloads(t), q)
    ensures t[q].payload.definition.Some? <==> q in Definitions(a.payloads).Keys
    ensures StateOf(server, status, t).world.objects == server.objects
  {
    var b := StateOf(server, status, t);
    StretchKeepsTags(t, a, b, leaves, {}, events, server.reliable);
    assert LeafTagged(t, b.payloads, q);
    assert Writes(events, q) == 0;
  }

  lemma CarvedPart(cur: map<Path, Node>, current: set<Path>, p: Path, done: set<string>, k: string)
    requires k !in done
    ensures var part := CarvedIn(cur, current, p, done);
            && Part(part, cur) && (Kid(p, k) in part <==> Kid(p, k) in cur)
  {
    CarvedElsewhere(cur, current, p, done, k);
    BelowKid(Kid(p, k), p, k);
  }

  lemma HasKidAt(t: map<Path, Node>, n: Node, k: string)
    requires Ok(t) && In(n, t)
    ensures k in n.children <==> Kid(n.path, k) in t
  {
    assert Linked(t, n.path);
  }

  lemma PartKid(t: map<Path, Node>, cur: map<Path, Node>, part: map<Path, Node>, n: Node, k: string)
    requires Part(cur, t) && Part(part, cur)
    requires Ok(part) && In(n, part) && Kid(n.path, k) in part
    ensures Kid(n.path, k) in t && k in n.children && n.children[k] == t[Kid(n.path, k)] && In(n.children[k], part)
    ensures n.children[k].path == Kid(n.path, k) && n.children[k].name == k && n.path in t && n == t[n.path]
    ensures n.children[k] in t.Values && n in t.Values && n in part.Values
    ensures Kid(n.path, k)[..|n.path|] == n.path && |Kid(n.path, k)| == |n.path| + 1 && Kid(n.path, k)[|n.path|] == k
  {
    assert Linked(part, n.path) && Linked(part, Kid(n.path, k));
    assert part[n.path] == t[n.path];
  }

  lemma PayloadsOf(server: ApiServer, status: MissionStatus, t: map<Path, Node>)
    ensures StateOf(server, status, t).payloads == Payloads(t)
    ensures StateOf(server, status, t).world == World(server.objects, server.log, status.status, status.failedObjects)
  {
  }

  lemma KidsOf(cur: map<Path, Node>, n: Node)
    requires Ok(cur) && In(n, cur)
    ensures Closed(cur.Keys) && forall k :: k in n.children <==> Kid(n.path, k) in cur
  {
    assert Linked(cur, n.path);
    OkIsClosed(cur);
  }

  lemma NothingDone(cur: map<Path, Node>, current: set<Path>, defined: set<Path>, p: Path)
    ensures CarvedIn(cur, current, p, {}) == cur
    ensures DueLeavesIn(cur.Keys, current, defined, p, {}) == {}
    ensures DueSpacesIn(cur.Keys, current, p, {}) == {}
  {
  }

  lemma AllDone(cur: map<Path, Node>, current: set<Path>, defined: set<Path>, p: Path, names: set<string>)
    requires Closed(cur.Keys) && forall k :: k in names <==> Kid(p, k) in cur
    ensures CarvedIn(cur, current, p, names) == Carved(cur, current, p)
    ensures |p| < 5 ==>
              DueLeavesIn(cur.Keys, current, defined, p, names) == DueLeaves(cur.Keys, current, defined, p)
    ensures |p| < 4 ==> DueSpacesIn(cur.Keys, current, p, names) == DueSpaces(cur.Keys, current, p)
  {
    forall q | q in cur
      ensures BelowAny(q, p, names) <==> Under(q, p) && q != p
    {
      StrictlyBelow(cur.Keys, p, names, q);
    }
  }

  method RestoreObjectTree(
    bn: Node, cn: Node, server: ApiServer, status: MissionStatus,
    ghost tb: map<Path, Node>, ghost cur: map<Path, Node>, ghost tc: map<Path, Node>)
    returns (ghost cur': map<Path, Node>, ghost events: seq<Event>)
    requires Placed(tb) && Tagged(tb, Payloads(tb)) && Part(cur, tb)
    requires Ok(cur) && In(bn, cur) && |bn.path| == 4
    requires Ok(tc) && In(cn, tc) && cn.path == bn.path && tb.Values !! tc.Values
    requires bn.path[3] != CLUSTER_LEVEL_NAMESPACE ==> NamespacePath(bn.path[3]) in server.objects
    modifies tb.Values`children, tb.Values`payload, server, status
    ensures Ok(cur') && cur' == Carved(cur, tc.Keys, bn.path)
    ensures Stretch(tb, old(StateOf(server, status, tb)), StateOf(server, status, tb),
                    DueLeaves(cur.Keys, tc.Keys, old(Definitions(Payloads(tb))).Keys, bn.path), {},
                    events, server.reliable)
  {
    hide *;
    ghost var p := bn.path;
    ghost var start := StateOf(server, status, tb);
    ghost var defined := Definitions(start.payloads).Keys;
    var todo := bn.children.Keys;
    ghost var names := todo;
    ghost var done: set<string> := {};
    assert start.payloads == Payloads(tb) by { PayloadsOf(server, status, tb); }
    KidsOf(cur, bn);
    NothingDone(cur, tc.Keys, defined, p);
    StretchNothing(tb, start, server.reliable);
    cur', events := cur, [];
    while todo != {}
      invariant names == done + todo && done !! todo && Ok(cur') && In(bn, cur')
      invariant cur' == CarvedIn(cur, tc.Keys, p, done)
      invariant p[3] != CLUSTER_LEVEL_NAMESPACE ==> NamespacePath(p[3]) in server.objects
      invariant Stretch(tb, start, StateOf(server, status, tb),
                        DueLeavesIn(cur.Keys, tc.Keys, defined, p, done), {}, events, server.reliable)
    {
      var k :| k in todo;
      ghost var more;
      cur', more := RestoreChild(bn, cn, k, server, status, tb, cur, cur', tc, start, done, events);
      events := events + more;
      todo, done := todo - {k}, done + {k};
    }
    assert done == names;
    AllDone(cur, tc.Keys, defined, p, names);
  }

  method RestoreChild(
    bn: Node, cn: Node, k: string, server: ApiServer, status: MissionStatus,
    ghost tb: map<Path, Node>, ghost cur: map<Path, Node>, ghost part: map<Path, Node>, ghost tc: map<Path, Node>,
    ghost start: State, ghost done: set<string>, ghost events: seq<Event>)
    returns (ghost part': map<Path, Node>, ghost more: seq<Event>)
    requires Placed(tb) && Tagged(tb, start.payloads) && Part(cur, tb)
    requires Closed(cur.Keys) && |bn.path| == 4 && k !in done && Kid(bn.path, k) in cur
    requires part == CarvedIn(cur, tc.Keys, bn.path, done) && Ok(part) && In(bn, part)
    requires Ok(tc) && In(cn, tc) && cn.path == bn.path && tb.Values !! tc.Values
    requires bn.path[3] != CLUSTER_LEVEL_NAMESPACE ==> NamespacePath(bn.path[3]) in server.objects
    requires Stretch(tb, start, StateOf(server, status, tb),
                     DueLeavesIn(cur.Keys, tc.Keys, Definitions(start.payloads).Keys, bn.path, done), {},
                     events, server.reliable)
    modifies tb.Values`children, tb.Values`payload, server, status
    ensures Ok(part') && In(bn, part') && part' == CarvedIn(cur, tc.Keys, bn.path, done + {k})
    ensures bn.path[3] != CLUSTER_LEVEL_NAMESPACE ==> NamespacePath(bn.path[3]) in server.objects
    ensures Stretch(tb, start, StateOf(server, status, tb),
                    DueLeavesIn(cur.Keys, tc.Keys, Definitions(start.payloads).Keys, bn.path, done + {k}), {},
                    events + more, server.reliable)
  {
    hide *;
    ghost var p := bn.path;
    ghost var q := Kid(p, k);
    ghost var defined := Definitions(start.payloads).Keys;
    ghost var middle := StateOf(server, status, tb);
    ghost var sofar := DueLeavesIn(cur.Keys, tc.Keys, defined, p, done);
    CarveLeaf(cur, tc.Keys, p, done, k);
    DueLeaf(cur.Keys, tc.Keys, defined, p, done, k);
    CarvedPart(cur, tc.Keys, p, done, k);
    PartKid(tb, cur, part, bn, k);
    HasKidAt(tc, cn, k);
    if k !in cn.children {
      NotYetSent(tb, start, server, status, sofar, events, q);
      var ok;
      ok, more := ApplyObject(bn.children[k], server, status, tb);
      part' := part;
      ghost var due := if q in defined then {q} else {};
      ReportLeaves(tb, start, middle, server, status, sofar, events, due, more);
    } else {
      var found;
      found, part' := bn.DeleteChildren(bn.children[k], part);
      more := [];
      assert events + more == events;
      assert DueLeavesIn(cur.Keys, tc.Keys, defined, p, done + {k}) == sofar;
    }
  }

  /** The live tree after the walk below `p`: it has gained inner nodes of the backup only. */
  ghost predicate Grown(tc: map<Path, Node>, tc': map<Path, Node>, backup: set<Path>, p: Path) {
    && tc.Keys <= tc'.Keys && (forall q :: q in tc ==> tc'[q] == tc[q])
    && (forall q :: q in tc' && q !in tc ==> q in backup && Under(q, p) && q != p && |q| < OBJECT_DEPTH)
  }

  ghost predicate GrownIn(tc: map<Path, Node>, tc': map<Path, Node>, backup: set<Path>, p: Path, done: set<string>) {
    && tc.Keys <= tc'.Keys && (forall q :: q in tc ==> tc'[q] == tc[q])
    && (forall q :: q in tc' && q !in tc ==> q in backup && BelowAny(q, p, done) && |q| < OBJECT_DEPTH)
  }

  ghost predicate FullBelow(keys: set<Path>, p: Path) {
    forall q {:trigger HasKid(keys, q)} :: q in keys && Under(q, p) && |q| < OBJECT_DEPTH ==> HasKid(keys, q)
  }

  // ---- Lemmas about one step of the walk

  lemma {:induction false} LeafBelowFull(keys: set<Path>, p: Path) returns (q: Path)
    requires Closed(keys) && p in keys && FullBelow(keys, p)
    ensures q in keys && IsLeaf(q) && Under(q, p)
    decreases OBJECT_DEPTH - |p|
  {
    q := p;
    assert Hangs(keys, p);
    if |p| < OBJECT_DEPTH {
      assert HasKid(keys, p);
      var k :| Kid(p, k) in keys;
      forall r | Under(r, Kid(p, k))
        ensures Under(r, p)
      {
        BelowKid(r, p, k);
      }
      q := LeafBelowFull(keys, Kid(p, k));
      BelowKid(q, p, k);
    }
  }

  /** Nothing is carved below a node that the live tree does not have at all. */
  lemma CarveNone(t: map<Path, Node>, current: set<Path>, p: Path, done: set<string>, k: string)
    requires Closed(t.Keys) && Closed(current) && FullBelow(t.Keys, Kid(p, k)) && Kid(p, k) !in current
    ensures CarvedIn(t, current, p, done + {k}) == CarvedIn(t, current, p, done)
  {
    var kid := Kid(p, k);
    forall q | q in t && Under(q, kid)
      ensures MissingBelow(t.Keys, current, q)
    {
      forall r | Under(r, q)
        ensures Under(r, kid)
      {
        assert kid == q[..|kid|] == r[..|kid|];
      }
      var r := LeafBelowFull(t.Keys, q);
      if r in current {
        PrefixIn(current, kid, r);
      }
    }
    forall q | q in t
      ensures BelowAny(q, p, done + {k}) <==> BelowAny(q, p, done) || Under(q, kid)
    {
      BelowOneMore(q, p, done, k);
    }
  }

  lemma GrowKid(
    tc: map<Path, Node>, tc1: map<Path, Node>, tc2: map<Path, Node>, tc3: map<Path, Node>, backup: set<Path>, p: Path,
    done: set<string>, k: string)
    requires GrownIn(tc, tc1, backup, p, done) && Kid(p, k) in backup && |p| < 4
    requires Joined(tc1, tc2, Kid(p, k))
    requires Grown(tc2, tc3, backup, Kid(p, k))
    ensures GrownIn(tc, tc3, backup, p, done + {k})
  {
    forall q | q in tc3 && q !in tc
      ensures q in backup && BelowAny(q, p, done + {k}) && |q| < OBJECT_DEPTH
    {
      BelowOneMore(q, p, done, k);
    }
  }

  lemma GrownAgrees(
    tc: map<Path, Node>, tc1: map<Path, Node>, tc2: map<Path, Node>, backup: set<Path>, p: Path, done: set<string>,
    k: string)
    requires GrownIn(tc, tc1, backup, p, done) && k !in done && |p| < 4
    requires Joined(tc1, tc2, Kid(p, k))
    ensures AgreeDeep(tc.Keys, tc2.Keys, Kid(p, k), 5)
    ensures |p| < 3 ==> AgreeDeep(tc.Keys, tc2.Keys, Kid(p, k), 4)
    ensures Kid(p, k) in tc <==> Kid(p, k) in tc1
  {
    forall q | Under(q, Kid(p, k))
      ensures !BelowAny(q, p, done)
    {
      BelowKid(q, p, k);
    }
    BelowKid(Kid(p, k), p, k);
  }

  lemma StretchDefines(
    t: map<Path, Node>, a: State, b: State, leaves: set<Path>, spaces: set<Path>, events: seq<Event>, reliable: bool)
    requires Stretch(t, a, b, leaves, spaces, events, reliable)
    ensures Definitions(a.payloads).Keys == Definitions(b.payloads).Keys
  {
  }

  lemma CountNamespace(e: Event)
    requires e.NamespaceApplied?
    ensures forall q :: Writes([e], q) == 0 && Applies([e], q) == if q == e.at then 1 else 0
  {
    var one := [e];
    assert one[..|one| - 1] == [] && one[|one| - 1] == e && one != [];
    forall q
      ensures Writes(one, q) == 0 && Applies(one, q) == if q == e.at then 1 else 0
    {
      assert Writes([], q) == 0 && Applies([], q) == 0;
    }
  }

  lemma NamespaceReport(leaves: set<Path>, at: Path, accepted: bool, events: seq<Event>)
    requires |at| == 4 && forall q :: q in leaves ==> IsLeaf(q) && Under(q, at)
    requires if accepted then Reported(leaves, {}, events) else events == []
    ensures Reported(leaves, {at}, [NamespaceApplied(at, accepted)] + events)
  {
    var e := NamespaceApplied(at, accepted);
    CountNamespace(e);
    var all := [e] + events;
    forall q
      ensures Writes(all, q) == if q in leaves && IsLeaf(q) && NamespaceApplied(q[..4], false) !in all then 1 else 0
    {
      CountsConcat([e], events, q);
      if q in leaves {
        assert q[..4] == at;
        CountsMembers(events, at);
        assert e in all;
      }
    }
    forall q
      ensures Applies(all, q) == if q in {at} then 1 else 0
    {
      CountsConcat([e], events, q);
    }
  }

  /** What a visit to some children of `p` has done so far. */
  ghost predicate Visited(
    tb: map<Path, Node>, cur: map<Path, Node>, tc: map<Path, Node>, p: Path, done: set<string>,
    part: map<Path, Node>, tc': map<Path, Node>, start: State, now: State, events: seq<Event>, reliable: bool)
  {
    && part == CarvedIn(cur, tc.Keys, p, done) && GrownIn(tc, tc', cur.Keys, p, done)
    && Truthful(tc', now.world.objects)
    && Stretch(tb, start, now, DueLeavesIn(cur.Keys, tc.Keys, Definitions(start.payloads).Keys, p, done),
               DueSpacesIn(cur.Keys, tc.Keys, p, done), events, reliable)
  }

  /** What a visit to everything below `p` has done. */
  ghost predicate Walked(
    tb: map<Path, Node>, cur: map<Path, Node>, tc: map<Path, Node>, p: Path,
    cur': map<Path, Node>, tc': map<Path, Node>, start: State, now: State, events: seq<Event>, reliable: bool)
  {
    && cur' == Carved(cur, tc.Keys, p) && Grown(tc, tc', cur.Keys, p)
    && Truthful(tc', now.world.objects)
    && Stretch(tb, start, now, DueLeaves(cur.Keys, tc.Keys, Definitions(start.payloads).Keys, p),
               DueSpaces(cur.Keys, tc.Keys, p), events, reliable)
  }

  lemma VisitedNone(
    tb: map<Path, Node>, cur: map<Path, Node>, tc: map<Path, Node>, p: Path, start: State, reliable: bool)
    requires Truthful(tc, start.world.objects)
    ensures Visited(tb, cur, tc, p, {}, cur, tc, start, start, [], reliable)
  {
    NothingDone(cur, tc.Keys, Definitions(start.payloads).Keys, p);
    StretchNothing(tb, start, reliable);
  }

  lemma VisitedAll(
    tb: map<Path, Node>, cur: map<Path, Node>, tc: map<Path, Node>, p: Path, names: set<string>,
    cur': map<Path, Node>, tc': map<Path, Node>, start: State, now: State, events: seq<Event>, reliable: bool)
    requires Visited(tb, cur, tc, p, names, cur', tc', start, now, events, reliable)
    requires Closed(cur.Keys) && |p| < 4 && forall k :: k in names <==> Kid(p, k) in cur
    ensures Walked(tb, cur, tc, p, cur', tc', start, now, events, reliable)
  {
    AllDone(cur, tc.Keys, Definitions(start.payloads).Keys, p, names);
  }

  /** Visiting one more child, when the child lies above the namespaces. */
  lemma VisitOneMore(
    tb: map<Path, Node>, cur: map<Path, Node>, tc: map<Path, Node>, p: Path, done: set<string>, k: string,
    part: map<Path, Node>, tc1: map<Path, Node>, tc2: map<Path, Node>, mid: map<Path, Node>, tc3: map<Path, Node>,
    start: State, middle: State, now: State, events: seq<Event>, more: seq<Event>, reliable: bool)
    requires |p| < 3 && k !in done && Kid(p, k) in cur && Closed(cur.Keys)
    requires Visited(tb, cur, tc, p, done, part, tc1, start, middle, events, reliable)
    requires Joined(tc1, tc2, Kid(p, k))
    requires Walked(tb, part, tc2, Kid(p, k), mid, tc3, middle, now, more, reliable)
    ensures Visited(tb, cur, tc, p, done + {k}, if HasKid(mid.Keys, Kid(p, k)) then mid else Without(mid, Kid(p, k)),
                    tc3, start, now, events + more, reliable)
  {
    hide Stretch, Reported, MissingBelow, Carved, CarvedIn, Truthful;
    var defined := Definitions(start.payloads).Keys;
    GrownAgrees(tc, tc1, tc2, cur.Keys, p, done, k);
    CarvedElsewhere(cur, tc.Keys, p, done, k);
    CarveStep(cur, tc.Keys, p, done, k, tc2.Keys);
    GrowPart(cur, part, tc2, tc3, tc.Keys, p, done, k);
    GrowKid(tc, tc1, tc2, tc3, cur.Keys, p, done, k);
    StretchDefines(tb, start, middle, DueLeavesIn(cur.Keys, tc.Keys, defined, p, done),
                   DueSpacesIn(cur.Keys, tc.Keys, p, done), events, reliable);
    DueStep(cur.Keys, tc.Keys, defined, p, done, k, part.Keys, tc2.Keys, defined);
    AddStretch(tb, cur.Keys, tc.Keys, defined, p, done, k, start, middle, now, events,
               DueLeaves(part.Keys, tc2.Keys, defined, Kid(p, k)), DueSpaces(part.Keys, tc2.Keys, Kid(p, k)),
               more, reliable);
  }

  lemma GrowPart(
    cur: map<Path, Node>, part: map<Path, Node>, tc2: map<Path, Node>, tc3: map<Path, Node>, current: set<Path>,
    p: Path, done: set<string>, k: string)
    requires part == CarvedIn(cur, current, p, done) && Grown(tc2, tc3, part.Keys, Kid(p, k))
    ensures Grown(tc2, tc3, cur.Keys, Kid(p, k))
  {
  }

  lemma AddStretch(
    tb: map<Path, Node>, backup: set<Path>, current: set<Path>, defined: set<Path>, p: Path, done: set<string>,
    k: string,
    start: State, middle: State, now: State, events: seq<Event>,
    leaves: set<Path>, spaces: set<Path>, more: seq<Event>, reliable: bool)
    requires k !in done && |p| < 4
    requires Stretch(tb, start, middle, DueLeavesIn(backup, current, defined, p, done),
                     DueSpacesIn(backup, current, p, done), events, reliable)
    requires Stretch(tb, middle, now, leaves, spaces, more, reliable)
    requires forall q :: q in leaves || q in spaces ==> Under(q, Kid(p, k))
    ensures Stretch(tb, start, now, DueLeavesIn(backup, current, defined, p, done) + leaves,
                    DueSpacesIn(backup, current, p, done) + spaces, events + more, reliable)
  {
    ReportStep(backup, current, defined, p, done, k, events, leaves, spaces, more);
    forall q | q in leaves
      ensures !BelowAny(q, p, done)
    {
      BelowKid(q, p, k);
    }
    StretchOn(tb, start, middle, now, DueLeavesIn(backup, current, defined, p, done),
              DueSpacesIn(backup, current, p, done), events, leaves, spaces, more, reliable);
  }

  /** Visiting one namespace whose objects were walked. */
  lemma VisitNamespace(
    tb: map<Path, Node>, cur: map<Path, Node>, tc: map<Path, Node>, p: Path, done: set<string>, k: string,
    part: map<Path, Node>, tc1: map<Path, Node>, tc2: map<Path, Node>, mid: map<Path, Node>,
    start: State, middle: State, asked: State, now: State, events: seq<Event>, ask: seq<Event>, more: seq<Event>,
    reliable: bool)
    requires |p| == 3 && k !in done && Kid(p, k) in cur && Closed(cur.Keys)
    requires Visited(tb, cur, tc, p, done, part, tc1, start, middle, events, reliable)
    requires Joined(tc1, tc2, Kid(p, k))
    requires ask == if Kid(p, k) in tc1 || k == CLUSTER_LEVEL_NAMESPACE then [] else [NamespaceApplied(Kid(p, k), true)]
    requires asked.payloads == middle.payloads && Ran(middle.world, asked.world, ask, reliable)
    requires k != CLUSTER_LEVEL_NAMESPACE ==> NamespacePath(k) in asked.world.objects
    requires mid == Carved(part, tc2.Keys, Kid(p, k))
    requires Stretch(tb, asked, now,
                     DueLeaves(part.Keys, tc2.Keys, Definitions(asked.payloads).Keys, Kid(p, k)), {}, more, reliable)
    ensures Visited(tb, cur, tc, p, done + {k}, if HasKid(mid.Keys, Kid(p, k)) then mid else Without(mid, Kid(p, k)),
                    tc2, start, now, events + (ask + more), reliable)
  {
    hide Stretch, Reported, MissingBelow, Carved, CarvedIn, DueLeavesIn, DueSpacesIn, Ran;
    var at := Kid(p, k);
    var defined := Definitions(start.payloads).Keys;
    GrownAgrees(tc, tc1, tc2, cur.Keys, p, done, k);
    CarvedElsewhere(cur, tc.Keys, p, done, k);
    CarveStep(cur, tc.Keys, p, done, k, tc2.Keys);
    GrowKid(tc, tc1, tc2, tc2, cur.Keys, p, done, k);
    StretchDefines(tb, start, middle, DueLeavesIn(cur.Keys, tc.Keys, defined, p, done),
                   DueSpacesIn(cur.Keys, tc.Keys, p, done), events, reliable);
    DueStep(cur.Keys, tc.Keys, defined, p, done, k, cur.Keys, tc.Keys, defined);
    SameDue(cur.Keys, tc.Keys, part.Keys, tc2.Keys, defined, at);
    OneSpace(cur.Keys, tc.Keys, p, k);
    AskThenWalk(tb, middle, asked, now, DueLeaves(cur.Keys, tc.Keys, defined, at), at, ask, more, reliable);
    AddStretch(tb, cur.Keys, tc.Keys, defined, p, done, k, start, middle, now, events,
               DueLeaves(cur.Keys, tc.Keys, defined, at), DueSpaces(cur.Keys, tc.Keys, at), ask + more, reliable);
    TruthGrows(tc1, tc2, middle, asked, now, ask, more, at, tb,
               DueLeaves(part.Keys, tc2.Keys, Definitions(asked.payloads).Keys, at), reliable);
  }

  lemma TruthGrows(
    tc1: map<Path, Node>, tc2: map<Path, Node>, middle: State, asked: State, now: State,
    ask: seq<Event>, more: seq<Event>, at: Path, tb: map<Path, Node>, leaves: set<Path>, reliable: bool)
    requires Truthful(tc1, middle.world.objects) && |at| == 4
    requires Joined(tc1, tc2, at)
    requires Ran(middle.world, asked.world, ask, reliable) && Stretch(tb, asked, now, leaves, {}, more, reliable)
    requires at[3] != CLUSTER_LEVEL_NAMESPACE ==> NamespacePath(at[3]) in asked.world.objects
    ensures Truthful(tc2, now.world.objects)
  {
    ReplayKeeps(middle.world.objects, ask);
    ReplayKeeps(asked.world.objects, more);
  }

  lemma SameDue(
    backup: set<Path>, current: set<Path>, backup': set<Path>, current': set<Path>, defined: set<Path>, p: Path)
    requires AgreeDeep(backup, backup', p, 5) && AgreeDeep(current, current', p, 5)
    ensures DueLeaves(backup, current, defined, p) == DueLeaves(backup', current', defined, p)
  {
  }

  lemma OneSpace(backup: set<Path>, current: set<Path>, p: Path, k: string)
    requires |p| == 3 && Kid(p, k) in backup
    ensures DueSpaces(backup, current, Kid(p, k))
         == if Kid(p, k) in current || k == CLUSTER_LEVEL_NAMESPACE then {} else {Kid(p, k)}
  {
    assert Kid(p, k)[3] == k;
    assert forall q :: |q| == 4 && Under(q, Kid(p, k)) <==> q == Kid(p, k);
  }

  /** A namespace is asked for, or need not be, and then its objects are walked. */
  lemma AskThenWalk(
    tb: map<Path, Node>, middle: State, asked: State, now: State, leaves: set<Path>, at: Path,
    ask: seq<Event>, more: seq<Event>, reliable: bool)
    requires |at| == 4 && (ask == [] || ask == [NamespaceApplied(at, true)])
    requires forall q :: q in leaves ==> IsLeaf(q) && Under(q, at)
    requires asked.payloads == middle.payloads && Ran(middle.world, asked.world, ask, reliable)
    requires Stretch(tb, asked, now, leaves, {}, more, reliable)
    ensures Stretch(tb, middle, now, leaves, if ask == [] then {} else {at}, ask + more, reliable)
  {
    RanOn(middle.world, asked.world, now.world, ask, more, reliable);
    hide Ran, EventFine, Writes, Applies, Reported;
    if ask == [] {
      assert ask + more == more;
    } else {
      NamespaceReport(leaves, at, true, more);
      forall q
        ensures Writes(ask + more, q) == Writes(more, q)
      {
        CountNamespace(ask[0]);
        CountsConcat(ask, more, q);
      }
    }
  }

  lemma DueAreBelow(backup: set<Path>, current: set<Path>, defined: set<Path>, p: Path)
    ensures forall q :: q in DueLeaves(backup, current, defined, p) ==> IsLeaf(q) && Under(q, p)
  {
  }

  lemma RejectedStretch(
    tb: map<Path, Node>, middle: State, now: State, leaves: set<Path>, at: Path, reliable: bool)
    requires |at| == 4 && forall q :: q in leaves ==> IsLeaf(q) && Under(q, at)
    requires now.payloads == middle.payloads
    requires Ran(middle.world, now.world, [NamespaceApplied(at, false)], reliable)
    ensures Stretch(tb, middle, now, leaves, {at}, [NamespaceApplied(at, false)], reliable)
  {
    hide Ran, Reported;
    var e := NamespaceApplied(at, false);
    NamespaceReport(leaves, at, false, []);
    assert [e] + [] == [e];
    CountNamespace(e);
  }

  /** Visiting one namespace that could not be made. */
  lemma VisitRejected(
    tb: map<Path, Node>, cur: map<Path, Node>, tc: map<Path, Node>, p: Path, done: set<string>, k: string,
    part: map<Path, Node>, tc1: map<Path, Node>, start: State, middle: State, now: State, events: seq<Event>,
    reliable: bool)
    requires |p| == 3 && k !in done && Kid(p, k) in cur && Closed(cur.Keys) && FullBelow(cur.Keys, p) && Closed(tc.Keys)
    requires Visited(tb, cur, tc, p, done, part, tc1, start, middle, events, reliable)
    requires Kid(p, k) !in tc1 && k != CLUSTER_LEVEL_NAMESPACE
    requires now.payloads == middle.payloads
    requires Ran(middle.world, now.world, [NamespaceApplied(Kid(p, k), false)], reliable)
    ensures Visited(tb, cur, tc, p, done + {k}, part, tc1, start, now, events + [NamespaceApplied(Kid(p, k), false)],
                    reliable)
  {
    hide Stretch, Reported, MissingBelow, Carved, CarvedIn, Ran, Truthful, HasKid, Grown, DueLeaves, DueSpaces;
    hide DueLeavesIn, DueSpacesIn, Closed, FullBelow, Definitions;
    var at := Kid(p, k);
    var e := NamespaceApplied(at, false);
    var defined := Definitions(start.payloads).Keys;
    var leaves := DueLeaves(cur.Keys, tc.Keys, defined, at);
    DueAreBelow(cur.Keys, tc.Keys, defined, at);
    RejectedStretch(tb, middle, now, leaves, at, reliable);
    GrownAgrees(tc, tc1, tc1, cur.Keys, p, done, k);
    GrowKid(tc, tc1, tc1, tc1, cur.Keys, p, done, k);
    FullAt(cur.Keys, p, k);
    CarveNone(cur, tc.Keys, p, done, k);
    DueStep(cur.Keys, tc.Keys, defined, p, done, k, cur.Keys, tc.Keys, defined);
    OneSpace(cur.Keys, tc.Keys, p, k);
    AddStretch(tb, cur.Keys, tc.Keys, defined, p, done, k, start, middle, now, events, leaves, {at}, [e], reliable);
    TruthStays(tc1, middle, now, [e], reliable);
  }

  lemma TruthStays(tc: map<Path, Node>, a: State, b: State, events: seq<Event>, reliable: bool)
    requires Truthful(tc, a.world.objects) && Ran(a.world, b.world, events, reliable)
    ensures Truthful(tc, b.world.objects)
  {
    ReplayKeeps(a.world.objects, events);
  }

  lemma FullAt(keys: set<Path>, p: Path, k: string)
    requires FullBelow(keys, p)
    ensures FullBelow(keys, Kid(p, k))
  {
    forall q | q in keys && Under(q, Kid(p, k)) && |q| < OBJECT_DEPTH
      ensures HasKid(keys, q)
    {
      BelowKid(q, p, k);
    }
  }

  // ---- The walk itself

  ghost predicate Walkable(tb: map<Path, Node>, cur: map<Path, Node>, tc: map<Path, Node>, b: Node, c: Node)
    reads tb.Values`children, tb.Values`payload, tc.Values`children
  {
    && Placed(tb) && Tagged(tb, Payloads(tb)) && Part(cur, tb)
    && b.path == c.path && tb.Values !! tc.Values
    && cur.Values <= tb.Values && FullBelow(cur.Keys, b.path)
  }

  method RestoreNamespaceTree(
    b: Node, c: Node, server: ApiServer, status: MissionStatus,
    ghost tb: map<Path, Node>, ghost cur: map<Path, Node>, ghost tc: map<Path, Node>)
    returns (ghost cur': map<Path, Node>, ghost tc': map<Path, Node>, ghost events: seq<Event>)
    requires Walkable(tb, cur, tc, b, c) && Ok(cur) && In(b, cur) && Ok(tc) && In(c, tc) && |b.path| == 3
    requires Truthful(tc, server.objects)
    modifies tb.Values`children, tb.Values`payload, tc.Values`children, server, status
    ensures Ok(cur') && Ok(tc') && fresh(tc'.Values - tc.Values) && tb.Values !! tc'.Values
    ensures Walked(tb, cur, tc, b.path, cur', tc', old(StateOf(server, status, tb)), StateOf(server, status, tb),
                   events, server.reliable)
  {
    hide *;
    ghost var start := StateOf(server, status, tb);
    var names := b.children.Keys;
    Start(b, c, server, status, tb, cur, tc);
    cur', tc', events := RestoreNamespaces(b, c, names, server, status, tb, cur, tc, start);
    Finish(b, c, server, status, tb, cur, cur', tc, tc', start, names, events);
  }

  method RestoreNamespaces(
    b: Node, c: Node, names: set<string>, server: ApiServer, status: MissionStatus,
    ghost tb: map<Path, Node>, ghost cur: map<Path, Node>, ghost tc: map<Path, Node>, ghost start: State)
    returns (ghost cur': map<Path, Node>, ghost tc': map<Path, Node>, ghost events: seq<Event>)
    requires Underway(b, c, server, status, tb, cur, cur, tc, tc, start, {}, []) && |b.path| == 3
    requires forall k :: k in names <==> Kid(b.path, k) in cur
    modifies tb.Values`children, tb.Values`payload, tc.Values`children, server, status
    ensures fresh(tc'.Values - tc.Values)
    ensures Underway(b, c, server, status, tb, cur, cur', tc, tc', start, names, events)
  {
    hide *;
    var todo := names;
    ghost var done: set<string> := {};
    cur', tc', events := cur, tc, [];
    while todo != {}
      invariant names == done + todo && done !! todo && fresh(tc'.Values - tc.Values)
      invariant Underway(b, c, server, status, tb, cur, cur', tc, tc', start, done, events)
    {
      var k :| k in todo;
      ghost var more;
      cur', tc', more := RestoreOneNamespace(b, c, k, server, status, tb, cur, cur', tc, tc', start, done, events);
      events := events + more;
      todo, done := todo - {k}, done + {k};
    }
    assert done == names;
  }

  /** What holds of the trees all the while a walk below `p` goes on. */
  ghost predicate Setting(
    tb: map<Path, Node>, cur: map<Path, Node>, tc: map<Path, Node>, payloads: map<Path, Payload>, p: Path)
  {
    && Placed(tb) && Tagged(tb, payloads) && Part(cur, tb) && cur.Values <= tb.Values
    && Closed(cur.Keys) && FullBelow(cur.Keys, p) && Closed(tc.Keys)
  }

  /** The children of `b` in `done` have been walked; what is left of the backup tree is `part`,
      and the live tree has become `tc1`. */
  ghost predicate Underway(
    b: Node, c: Node, server: ApiServer, status: MissionStatus, tb: map<Path, Node>, cur: map<Path, Node>,
    part: map<Path, Node>, tc: map<Path, Node>, tc1: map<Path, Node>, start: State, done: set<string>,
    events: seq<Event>)
    reads server, status, tb.Values, tc1.Values, part.Values
  {
    && Setting(tb, cur, tc, start.payloads, b.path) && c.path == b.path
    && Ok(part) && In(b, part) && Ok(tc1) && In(c, tc1) && tb.Values !! tc1.Values
    && Visited(tb, cur, tc, b.path, done, part, tc1, start, StateOf(server, status, tb), events, server.reliable)
  }

  lemma UnderwayIs(
    b: Node, c: Node, server: ApiServer, status: MissionStatus, tb: map<Path, Node>, cur: map<Path, Node>,
    part: map<Path, Node>, tc: map<Path, Node>, tc1: map<Path, Node>, start: State, done: set<string>,
    events: seq<Event>)
    ensures Underway(b, c, server, status, tb, cur, part, tc, tc1, start, done, events)
       <==> Setting(tb, cur, tc, start.payloads, b.path) && c.path == b.path
            && Ok(part) && In(b, part) && Ok(tc1) && In(c, tc1) && tb.Values !! tc1.Values
            && Visited(tb, cur, tc, b.path, done, part, tc1, start, StateOf(server, status, tb), events,
                       server.reliable)
    ensures Setting(tb, cur, tc, start.payloads, b.path) ==>
              Closed(cur.Keys) && FullBelow(cur.Keys, b.path) && Closed(tc.Keys)
  {
    hide Visited, Ok, Closed, FullBelow, Tagged;
  }

  lemma WalkStarts(
    server: ApiServer, status: MissionStatus, tb: map<Path, Node>, cur: map<Path, Node>, tc: map<Path, Node>,
    b: Node, c: Node)
    requires Walkable(tb, cur, tc, b, c) && Ok(cur) && Ok(tc) && Truthful(tc, server.objects)
    ensures Truthful(tc, StateOf(server, status, tb).world.objects)
    ensures Setting(tb, cur, tc, StateOf(server, status, tb).payloads, b.path)
    ensures b.path == c.path && tb.Values !! tc.Values
  {
    OkIsClosed(cur);
    OkIsClosed(tc);
  }

  lemma Start(
    b: Node, c: Node, server: ApiServer, status: MissionStatus, tb: map<Path, Node>, cur: map<Path, Node>,
    tc: map<Path, Node>)
    requires Walkable(tb, cur, tc, b, c) && Ok(cur) && In(b, cur) && Ok(tc) && In(c, tc)
    requires Truthful(tc, server.objects)
    ensures Underway(b, c, server, status, tb, cur, cur, tc, tc, StateOf(server, status, tb), {}, [])
    ensures forall k :: k in b.children <==> Kid(b.path, k) in cur
  {
    hide *;
    KidsOf(cur, b);
    WalkStarts(server, status, tb, cur, tc, b, c);
    VisitedNone(tb, cur, tc, b.path, StateOf(server, status, tb), server.reliable);
    UnderwayIs(b, c, server, status, tb, cur, cur, tc, tc, StateOf(server, status, tb), {}, []);
  }

  lemma Finish(
    b: Node, c: Node, server: ApiServer, status: MissionStatus, tb: map<Path, Node>, cur: map<Path, Node>,
    cur': map<Path, Node>, tc: map<Path, Node>, tc': map<Path, Node>, start: State, names: set<string>,
    events: seq<Event>)
    requires Underway(b, c, server, status, tb, cur, cur', tc, tc', start, names, events)
    requires |b.path| < 4 && forall k :: k in names <==> Kid(b.path, k) in cur
    ensures Ok(cur') && Ok(tc') && tb.Values !! tc'.Values
    ensures Walked(tb, cur, tc, b.path, cur', tc', start, StateOf(server, status, tb), events, server.reliable)
  {
    hide *;
    UnderwayIs(b, c, server, status, tb, cur, cur', tc, tc', start, names, events);
    VisitedAll(tb, cur, tc, b.path, names, cur', tc', start, StateOf(server, status, tb), events, server.reliable);
  }

  lemma VisitedFacts(
    tb: map<Path, Node>, cur: map<Path, Node>, tc: map<Path, Node>, p: Path, done: set<string>,
    part: map<Path, Node>, tc1: map<Path, Node>, start: State, now: State, events: seq<Event>, reliable: bool,
    k: string)
    requires Visited(tb, cur, tc, p, done, part, tc1, start, now, events, reliable)
    requires k !in done && Kid(p, k) in cur && Setting(tb, cur, tc, start.payloads, p)
    ensures Placed(tb) && Part(cur, tb) && Closed(cur.Keys) && FullBelow(cur.Keys, p) && Closed(tc.Keys)
    ensures part == CarvedIn(cur, tc.Keys, p, done)
    ensures Part(part, cur) && Part(part, tb) && Kid(p, k) in part && part.Values <= tb.Values
    ensures Tagged(tb, now.payloads) && Truthful(tc1, now.world.objects)
  {
    CarvedPart(cur, tc.Keys, p, done, k);
    StretchKeepsTags(tb, start, now, DueLeavesIn(cur.Keys, tc.Keys, Definitions(start.payloads).Keys, p, done),
                     DueSpacesIn(cur.Keys, tc.Keys, p, done), events, reliable);
  }

  lemma Asked(a: State, server: ApiServer, status: MissionStatus, tb: map<Path, Node>, at: Path, accepted: bool)
    requires |at| == 4 && server.objects == Step(a.world.objects, NamespaceApplied(at, accepted))
    requires server.log == a.world.log + [NamespaceApplied(at, accepted)]
    requires status.status == a.world.status && status.failedObjects == a.world.failed && Payloads(tb) == a.payloads
    requires server.reliable ==> accepted
    ensures StateOf(server, status, tb).payloads == a.payloads
    ensures Ran(a.world, StateOf(server, status, tb).world, [NamespaceApplied(at, accepted)], server.reliable)
    ensures accepted ==> NamespacePath(at[3]) in server.objects
  {
    RanOne(a.world, WorldOf(server, status), NamespaceApplied(at, accepted), server.reliable);
  }

  lemma NotAsked(server: ApiServer, status: MissionStatus, tb: map<Path, Node>, tc: map<Path, Node>, at: Path)
    requires Truthful(tc, server.objects) && |at| == 4 && (at in tc || at[3] == CLUSTER_LEVEL_NAMESPACE)
    ensures Ran(StateOf(server, status, tb).world, StateOf(server, status, tb).world, [], server.reliable)
    ensures at[3] != CLUSTER_LEVEL_NAMESPACE ==> NamespacePath(at[3]) in server.objects
  {
    StretchNothing(tb, StateOf(server, status, tb), server.reliable);
  }

  lemma CarvedKeeps(b: Node, child: Node, t: map<Path, Node>, current: set<Path>, mid: map<Path, Node>)
    requires In(b, t) && In(child, t) && child.path == Kid(b.path, child.name)
    requires mid == Carved(t, current, child.path)
    ensures In(b, mid) && In(child, mid)
  {
    assert |b.path| < |child.path|;
  }

  /** Drops a child that was emptied, which ends the visit to it. */
  method DropEmpty(
    b: Node, child: Node, server: ApiServer, status: MissionStatus,
    ghost tb: map<Path, Node>, ghost cur: map<Path, Node>, ghost tc: map<Path, Node>, ghost done: set<string>,
    ghost mid: map<Path, Node>, ghost tc': map<Path, Node>, ghost start: State, ghost events: seq<Event>)
    returns (ghost part': map<Path, Node>)
    requires Ok(mid) && In(b, mid) && In(child, mid) && child.path == Kid(b.path, child.name)
    requires Ok(tc') && b !in tc'.Values
    requires Visited(tb, cur, tc, b.path, done,
                     if HasKid(mid.Keys, child.path) then mid else Without(mid, child.path), tc',
                     start, StateOf(server, status, tb), events, server.reliable)
    modifies b`children
    ensures Ok(part') && In(b, part') && Ok(tc')
    ensures Visited(tb, cur, tc, b.path, done, part', tc', start, StateOf(server, status, tb), events, server.reliable)
  {
    hide *;
    HasKidIff(mid, child);
    ghost var now := StateOf(server, status, tb);
    part' := mid;
    if child.children == map[] {
      var found;
      found, part' := b.DeleteChildren(child, mid);
    }
    assert StateOf(server, status, tb) == now;
  }

  /** Asks for the namespace unless the live tree shows it or it is the pseudo namespace. */
  method AskNamespace(
    c: Node, k: string, server: ApiServer, status: MissionStatus, ghost tb: map<Path, Node>, ghost tc: map<Path, Node>)
    returns (accepted: bool, ghost ask: seq<Event>)
    requires Ok(tc) && In(c, tc) && |c.path| == 3 && Truthful(tc, server.objects)
    modifies server
    ensures ask == if Kid(c.path, k) in tc || k == CLUSTER_LEVEL_NAMESPACE then []
                   else [NamespaceApplied(Kid(c.path, k), accepted)]
    ensures ask == [] ==> accepted
    ensures StateOf(server, status, tb).payloads == old(StateOf(server, status, tb)).payloads
    ensures Ran(old(StateOf(server, status, tb)).world, StateOf(server, status, tb).world, ask, server.reliable)
    ensures accepted && k != CLUSTER_LEVEL_NAMESPACE ==> NamespacePath(k) in server.objects
  {
    hide *;
    ghost var at := Kid(c.path, k);
    ghost var before := StateOf(server, status, tb);
    PayloadsOf(server, status, tb);
    HasKidAt(tc, c, k);
    KidShape(at, c.path, k);
    if k !in c.children && k != CLUSTER_LEVEL_NAMESPACE {
      accepted := server.ApplyNamespace(k, at);
      ask := [NamespaceApplied(at, accepted)];
      Asked(before, server, status, tb, at, accepted);
    } else {
      NotAsked(server, status, tb, tc, at);
      accepted, ask := true, [];
    }
  }

  method RestoreOneNamespace(
    b: Node, c: Node, k: string, server: ApiServer, status: MissionStatus,
    ghost tb: map<Path, Node>, ghost cur: map<Path, Node>, ghost part: map<Path, Node>,
    ghost tc: map<Path, Node>, ghost tc1: map<Path, Node>, ghost start: State, ghost done: set<string>,
    ghost events: seq<Event>)
    returns (ghost part': map<Path, Node>, ghost tc': map<Path, Node>, ghost more: seq<Event>)
    requires Underway(b, c, server, status, tb, cur, part, tc, tc1, start, done, events)
    requires |b.path| == 3 && k !in done && Kid(b.path, k) in cur
    modifies tb.Values`children, tb.Values`payload, tc1.Values`children, server, status
    ensures fresh(tc'.Values - tc1.Values)
    ensures Underway(b, c, server, status, tb, cur, part', tc, tc', start, done + {k}, events + more)
  {
    hide *;
    ghost var middle := StateOf(server, status, tb);
    var child;
    ghost var ask, walk;
    child := KidToVisit(b, c, k, server, status, tb, cur, part, tc, tc1, start, done, events);
    var accepted;
    accepted, ask := AskNamespace(c, k, server, status, tb, tc1);
    if accepted {
      assert Asking(child, tc1, middle, StateOf(server, status, tb), ask, server.reliable) by {
        PayloadsOf(server, status, tb);
        AskingIs(child, tc1, middle, StateOf(server, status, tb), ask, server.reliable);
      }
      part', tc', walk := WalkNamespace(b, c, child, server, status, tb, cur, part, tc, tc1, start, middle, done,
                                        events, ask);
      more := ask + walk;
    } else {
      part', tc', more := part, tc1, ask;
      Refused(b, c, child, server, status, tb, cur, part, tc, tc1, start, middle, done, events);
    }
  }

  lemma Refused(
    b: Node, c: Node, child: Node, server: ApiServer, status: MissionStatus, tb: map<Path, Node>,
    cur: map<Path, Node>, part: map<Path, Node>, tc: map<Path, Node>, tc1: map<Path, Node>, start: State,
    middle: State, done: set<string>, events: seq<Event>)
    requires Visiting(b, c, child.name, child, tb, cur, part, tc, tc1, tc1, start, middle, done, events,
                      server.reliable)
    requires |b.path| == 3 && Ok(part) && Ok(tc1) && tb.Values !! tc1.Values
    requires child.path !in tc1 && child.name != CLUSTER_LEVEL_NAMESPACE
    requires StateOf(server, status, tb).payloads == middle.payloads
    requires Ran(middle.world, StateOf(server, status, tb).world, [NamespaceApplied(child.path, false)],
                 server.reliable)
    ensures Underway(b, c, server, status, tb, cur, part, tc, tc1, start, done + {child.name},
                     events + [NamespaceApplied(child.path, false)])
  {
    hide *;
    VisitingIs(b, c, child.name, child, tb, cur, part, tc, tc1, tc1, start, middle, done, events, server.reliable);
    VisitRejected(tb, cur, tc, b.path, done, child.name, part, tc1, start, middle, StateOf(server, status, tb), events,
                  server.reliable);
    UnderwayIs(b, c, server, status, tb, cur, part, tc, tc1, start, done + {child.name},
               events + [NamespaceApplied(child.path, false)]);
  }

  /** The child of the backup tree to look at. */
  method KidToVisit(
    b: Node, c: Node, k: string, server: ApiServer, status: MissionStatus,
    ghost tb: map<Path, Node>, ghost cur: map<Path, Node>, ghost part: map<Path, Node>,
    ghost tc: map<Path, Node>, ghost tc1: map<Path, Node>, ghost start: State, ghost done: set<string>,
    ghost events: seq<Event>)
    returns (child: Node)
    requires Underway(b, c, server, status, tb, cur, part, tc, tc1, start, done, events)
    requires k !in done && Kid(b.path, k) in cur
    ensures child.name == k && child.path == Kid(b.path, k) && Ok(part) && Ok(tc1) && In(c, tc1)
    ensures tb.Values !! tc1.Values && c.path == b.path && Truthful(tc1, server.objects)
    ensures Visiting(b, c, k, child, tb, cur, part, tc, tc1, tc1, start, StateOf(server, status, tb), done, events,
                     server.reliable)
  {
    hide *;
    UnderwayIs(b, c, server, status, tb, cur, part, tc, tc1, start, done, events);
    PayloadsOf(server, status, tb);
    VisitedFacts(tb, cur, tc, b.path, done, part, tc1, start, StateOf(server, status, tb), events, server.reliable, k);
    PartKid(tb, cur, part, b, k);
    child := b.children[k];
    JoinedSelf(tc1, child.path);
    VisitingIs(b, c, k, child, tb, cur, part, tc, tc1, tc1, start, StateOf(server, status, tb), done, events,
               server.reliable);
  }

  lemma JoinedSelf(t: map<Path, Node>, q: Path)
    ensures Joined(t, t, q)
  {
  }

  method WalkNamespace(
    b: Node, c: Node, child: Node, server: ApiServer, status: MissionStatus,
    ghost tb: map<Path, Node>, ghost cur: map<Path, Node>, ghost part: map<Path, Node>,
    ghost tc: map<Path, Node>, ghost tc1: map<Path, Node>, ghost start: State, ghost middle: State,
    ghost done: set<string>, ghost events: seq<Event>, ghost ask: seq<Event>)
    returns (ghost part': map<Path, Node>, ghost tc': map<Path, Node>, ghost walk: seq<Event>)
    requires Visiting(b, c, child.name, child, tb, cur, part, tc, tc1, tc1, start, middle, done, events,
                      server.reliable)
    requires |b.path| == 3 && Ok(part) && Ok(tc1) && In(c, tc1) && tb.Values !! tc1.Values
    requires Asking(child, tc1, middle, StateOf(server, status, tb), ask, server.reliable)
    modifies tb.Values`children, tb.Values`payload, tc1.Values`children, server, status
    ensures fresh(tc'.Values - tc1.Values)
    ensures Underway(b, c, server, status, tb, cur, part', tc, tc', start, done + {child.name}, events + (ask + walk))
  {
    hide *;
    ghost var asked := StateOf(server, status, tb);
    var cc;
    ghost var mid;
    InNodes(c, tc1);
    cc, tc' := EnterNamespace(b, c, child, server, status, tb, cur, part, tc, tc1, start, middle, done, events, ask);
    PayloadsOf(server, status, tb);
    mid, walk := RestoreObjectTree(child, cc, server, status, tb, part, tc');
    part' := LeaveNamespace(b, c, child, server, status, tb, cur, part, tc, tc1, tc', mid, start, middle, asked, done,
                            events, ask, walk);
  }

  /** What asking for the namespace has come to. */
  ghost predicate Asking(
    child: Node, tc1: map<Path, Node>, middle: State, asked: State, ask: seq<Event>, reliable: bool)
  {
    && ask == (if child.path in tc1 || child.name == CLUSTER_LEVEL_NAMESPACE then []
               else [NamespaceApplied(child.path, true)])
    && asked.payloads == middle.payloads && Ran(middle.world, asked.world, ask, reliable)
    && (child.name != CLUSTER_LEVEL_NAMESPACE ==> NamespacePath(child.name) in asked.world.objects)
  }

  lemma AskingIs(child: Node, tc1: map<Path, Node>, middle: State, asked: State, ask: seq<Event>, reliable: bool)
    ensures Asking(child, tc1, middle, asked, ask, reliable)
       <==> ask == (if child.path in tc1 || child.name == CLUSTER_LEVEL_NAMESPACE then []
                    else [NamespaceApplied(child.path, true)])
            && asked.payloads == middle.payloads && Ran(middle.world, asked.world, ask, reliable)
            && (child.name != CLUSTER_LEVEL_NAMESPACE ==> NamespacePath(child.name) in asked.world.objects)
  {
    hide Ran;
  }

  /** Makes the namespace in the live tree when it has none. */
  method EnterNamespace(
    b: Node, c: Node, child: Node, server: ApiServer, status: MissionStatus,
    ghost tb: map<Path, Node>, ghost cur: map<Path, Node>, ghost part: map<Path, Node>,
    ghost tc: map<Path, Node>, ghost tc1: map<Path, Node>, ghost start: State, ghost middle: State,
    ghost done: set<string>, ghost events: seq<Event>, ghost ask: seq<Event>)
    returns (cc: Node, ghost tc2: map<Path, Node>)
    requires Visiting(b, c, child.name, child, tb, cur, part, tc, tc1, tc1, start, middle, done, events,
                      server.reliable)
    requires |b.path| == 3 && Ok(part) && Ok(tc1) && In(c, tc1) && tb.Values !! tc1.Values
    requires Asking(child, tc1, middle, StateOf(server, status, tb), ask, server.reliable)
    modifies c`children
    ensures StateOf(server, status, tb) == old(StateOf(server, status, tb))
    ensures Visiting(b, c, child.name, child, tb, cur, part, tc, tc1, tc2, start, middle, done, events, server.reliable)
    ensures Placed(tb) && Tagged(tb, Payloads(tb)) && Part(part, tb) && Ok(part) && In(child, part)
    ensures Ok(tc2) && In(cc, tc2) && cc.path == child.path && |child.path| == 4 && tb.Values !! tc2.Values
    ensures child.path[3] != CLUSTER_LEVEL_NAMESPACE ==> NamespacePath(child.path[3]) in server.objects
    ensures fresh(tc2.Values - tc1.Values) && b in tb.Values && c in tc1.Values
  {
    hide *;
    ghost var asked := StateOf(server, status, tb);
    VisitingIs(b, c, child.name, child, tb, cur, part, tc, tc1, tc1, start, middle, done, events, server.reliable);
    AskingIs(child, tc1, middle, asked, ask, server.reliable);
    PayloadsOf(server, status, tb);
    VisitedFacts(tb, cur, tc, b.path, done, part, tc1, start, middle, events, server.reliable, child.name);
    InNodes(c, tc1);
    InNodes(b, part);
    KidShape(child.path, b.path, child.name);
    cc, tc2 := c.AddChildren(child.name, false, tc1);
    assert StateOf(server, status, tb) == asked;
    PayloadsOf(server, status, tb);
    VisitingIs(b, c, child.name, child, tb, cur, part, tc, tc1, tc2, start, middle, done, events, server.reliable);
  }

  /** Drops the namespace if it was emptied. */
  method LeaveNamespace(
    b: Node, c: Node, child: Node, server: ApiServer, status: MissionStatus,
    ghost tb: map<Path, Node>, ghost cur: map<Path, Node>, ghost part: map<Path, Node>, ghost tc: map<Path, Node>,
    ghost tc1: map<Path, Node>, ghost tc2: map<Path, Node>, ghost mid: map<Path, Node>, ghost start: State,
    ghost middle: State, ghost asked: State, ghost done: set<string>, ghost events: seq<Event>, ghost ask: seq<Event>,
    ghost walk: seq<Event>)
    returns (ghost part': map<Path, Node>)
    requires Visiting(b, c, child.name, child, tb, cur, part, tc, tc1, tc2, start, middle, done, events,
                      server.reliable)
    requires |b.path| == 3 && b in tb.Values && Ok(mid) && Ok(tc2) && tb.Values !! tc2.Values
    requires Asking(child, tc1, middle, asked, ask, server.reliable) && mid == Carved(part, tc2.Keys, child.path)
    requires Stretch(tb, asked, StateOf(server, status, tb),
                     DueLeaves(part.Keys, tc2.Keys, Definitions(asked.payloads).Keys, child.path), {}, walk,
                     server.reliable)
    modifies b`children
    ensures Underway(b, c, server, status, tb, cur, part', tc, tc2, start, done + {child.name}, events + (ask + walk))
  {
    hide *;
    VisitingIs(b, c, child.name, child, tb, cur, part, tc, tc1, tc2, start, middle, done, events, server.reliable);
    AskingIs(child, tc1, middle, asked, ask, server.reliable);
    VisitNamespace(tb, cur, tc, b.path, done, child.name, part, tc1, tc2, mid, start, middle, asked,
                   StateOf(server, status, tb), events, ask, walk, server.reliable);
    CarvedKeeps(b, child, part, tc2.Keys, mid);
    part' := DropEmpty(b, child, server, status, tb, cur, tc, done + {child.name}, mid, tc2, start,
                       events + (ask + walk));
    UnderwayIs(b, c, server, status, tb, cur, part', tc, tc2, start, done + {child.name}, events + (ask + walk));
  }

  lemma KidShape(q: Path, p: Path, k: string)
    requires q == Kid(p, k)
    ensures |q| == |p| + 1 && q[|p|] == k
  {
  }

  /** The loops over groups, versions and resources differ in nothing but the type of
      their nodes, and that resources hand down their scope. */
  method CompareTree(
    b: Node, c: Node, server: ApiServer, status: MissionStatus,
    ghost tb: map<Path, Node>, ghost cur: map<Path, Node>, ghost tc: map<Path, Node>)
    returns (ghost cur': map<Path, Node>, ghost tc': map<Path, Node>, ghost events: seq<Event>)
    requires Walkable(tb, cur, tc, b, c) && Ok(cur) && In(b, cur) && Ok(tc) && In(c, tc) && |b.path| <= 2
    requires Truthful(tc, server.objects)
    modifies tb.Values`children, tb.Values`payload, tc.Values`children, server, status
    ensures Ok(cur') && Ok(tc') && fresh(tc'.Values - tc.Values) && tb.Values !! tc'.Values
    ensures Walked(tb, cur, tc, b.path, cur', tc', old(StateOf(server, status, tb)), StateOf(server, status, tb),
                   events, server.reliable)
    decreases 3 - |b.path|, 2
  {
    hide *;
    ghost var start := StateOf(server, status, tb);
    var names := b.children.Keys;
    Start(b, c, server, status, tb, cur, tc);
    cur', tc', events := CompareKids(b, c, names, server, status, tb, cur, tc, start);
    Finish(b, c, server, status, tb, cur, cur', tc, tc', start, names, events);
  }

  method CompareKids(
    b: Node, c: Node, names: set<string>, server: ApiServer, status: MissionStatus,
    ghost tb: map<Path, Node>, ghost cur: map<Path, Node>, ghost tc: map<Path, Node>, ghost start: State)
    returns (ghost cur': map<Path, Node>, ghost tc': map<Path, Node>, ghost events: seq<Event>)
    requires Underway(b, c, server, status, tb, cur, cur, tc, tc, start, {}, []) && |b.path| <= 2
    requires forall k :: k in names <==> Kid(b.path, k) in cur
    modifies tb.Values`children, tb.Values`payload, tc.Values`children, server, status
    ensures fresh(tc'.Values - tc.Values)
    ensures Underway(b, c, server, status, tb, cur, cur', tc, tc', start, names, events)
    decreases 3 - |b.path|, 1
  {
    hide *;
    var todo := names;
    ghost var done: set<string> := {};
    cur', tc', events := cur, tc, [];
    while todo != {}
      invariant names == done + todo && done !! todo && fresh(tc'.Values - tc.Values)
      invariant Underway(b, c, server, status, tb, cur, cur', tc, tc', start, done, events)
    {
      var k :| k in todo;
      ghost var more;
      cur', tc', more := CompareOne(b, c, k, server, status, tb, cur, cur', tc, tc', start, done, events);
      events := events + more;
      todo, done := todo - {k}, done + {k};
    }
    assert done == names;
  }

  method CompareOne(
    b: Node, c: Node, k: string, server: ApiServer, status: MissionStatus,
    ghost tb: map<Path, Node>, ghost cur: map<Path, Node>, ghost part: map<Path, Node>,
    ghost tc: map<Path, Node>, ghost tc1: map<Path, Node>, ghost start: State, ghost done: set<string>,
    ghost events: seq<Event>)
    returns (ghost part': map<Path, Node>, ghost tc': map<Path, Node>, ghost more: seq<Event>)
    requires Underway(b, c, server, status, tb, cur, part, tc, tc1, start, done, events)
    requires |b.path| <= 2 && k !in done && Kid(b.path, k) in cur
    modifies tb.Values`children, tb.Values`payload, tc1.Values`children, server, status
    ensures fresh(tc'.Values - tc1.Values)
    ensures Underway(b, c, server, status, tb, cur, part', tc, tc', start, done + {k}, events + more)
    decreases 3 - |b.path|, 0
  {
    hide *;
    ghost var middle := StateOf(server, status, tb);
    ghost var tc2, mid;
    var child, cc;
    UnderwayIs(b, c, server, status, tb, cur, part, tc, tc1, start, done, events);
    InNodes(c, tc1);
    child, cc, tc2 := EnterKid(b, c, k, server, status, tb, cur, part, tc, tc1, start, done, events);
    if b.kind == VersionKind {
      mid, tc', more := RestoreNamespaceTree(child, cc, server, status, tb, part, tc2);
    } else {
      mid, tc', more := CompareTree(child, cc, server, status, tb, part, tc2);
    }
    part' := LeaveKid(b, c, child, server, status, tb, cur, part, tc, tc1, tc2, mid, tc', start, middle, done, events,
                      more);
  }

  /** Makes the child in the live tree when it has none. */
  method EnterKid(
    b: Node, c: Node, k: string, server: ApiServer, status: MissionStatus,
    ghost tb: map<Path, Node>, ghost cur: map<Path, Node>, ghost part: map<Path, Node>,
    ghost tc: map<Path, Node>, ghost tc1: map<Path, Node>, ghost start: State, ghost done: set<string>,
    ghost events: seq<Event>)
    returns (child: Node, cc: Node, ghost tc2: map<Path, Node>)
    requires Underway(b, c, server, status, tb, cur, part, tc, tc1, start, done, events)
    requires |b.path| <= 2 && k !in done && Kid(b.path, k) in cur
    modifies c`children
    ensures StateOf(server, status, tb) == old(StateOf(server, status, tb))
    ensures Visiting(b, c, k, child, tb, cur, part, tc, tc1, tc2, start, StateOf(server, status, tb), done, events,
                     server.reliable)
    ensures Walkable(tb, part, tc2, child, cc) && Ok(part) && In(child, part) && Ok(tc2) && In(cc, tc2)
    ensures Truthful(tc2, server.objects) && fresh(tc2.Values - tc1.Values)
    ensures child.name == k && |child.path| == |b.path| + 1
    ensures b in tb.Values && c in tc1.Values && (b.kind == VersionKind <==> |b.path| == 2)
    ensures fresh(cc) ==> cc.isCluster == (|b.path| == 2 && child.isCluster)
  {
    hide *;
    UnderwayIs(b, c, server, status, tb, cur, part, tc, tc1, start, done, events);
    ghost var middle := StateOf(server, status, tb);
    PayloadsOf(server, status, tb);
    VisitedFacts(tb, cur, tc, b.path, done, part, tc1, start, middle, events, server.reliable, k);
    PartKid(tb, cur, part, b, k);
    InNodes(c, tc1);
    child := b.children[k];
    cc, tc2 := c.AddChildren(k, b.kind == VersionKind && child.isCluster, tc1);
    InNodes(cc, tc2);
    assert StateOf(server, status, tb) == middle;
    KindOf(part, b);
    WalkOn(tb, cur, part, tc, tc1, tc2, b.path, done, k, child, cc, server);
    VisitingIs(b, c, k, child, tb, cur, part, tc, tc1, tc2, start, middle, done, events, server.reliable);
  }

  /** Where the walk stands when it goes into a child. */
  ghost predicate Visiting(
    b: Node, c: Node, k: string, child: Node, tb: map<Path, Node>, cur: map<Path, Node>, part: map<Path, Node>,
    tc: map<Path, Node>, tc1: map<Path, Node>, tc2: map<Path, Node>, start: State, middle: State, done: set<string>,
    events: seq<Event>, reliable: bool)
  {
    && Setting(tb, cur, tc, start.payloads, b.path) && c.path == b.path && Closed(cur.Keys)
    && In(b, part) && In(c, tc2) && Joined(tc1, tc2, Kid(b.path, k)) && In(child, part)
    && child.name == k && child.path == Kid(b.path, k) && k !in done && Kid(b.path, k) in cur
    && Visited(tb, cur, tc, b.path, done, part, tc1, start, middle, events, reliable)
  }

  lemma VisitingIs(
    b: Node, c: Node, k: string, child: Node, tb: map<Path, Node>, cur: map<Path, Node>, part: map<Path, Node>,
    tc: map<Path, Node>, tc1: map<Path, Node>, tc2: map<Path, Node>, start: State, middle: State, done: set<string>,
    events: seq<Event>, reliable: bool)
    ensures Visiting(b, c, k, child, tb, cur, part, tc, tc1, tc2, start, middle, done, events, reliable)
       <==> Setting(tb, cur, tc, start.payloads, b.path) && c.path == b.path && Closed(cur.Keys)
            && In(b, part) && In(c, tc2) && Joined(tc1, tc2, Kid(b.path, k)) && In(child, part)
            && child.name == k && child.path == Kid(b.path, k) && k !in done && Kid(b.path, k) in cur
            && Visited(tb, cur, tc, b.path, done, part, tc1, start, middle, events, reliable)
    ensures Setting(tb, cur, tc, start.payloads, b.path) ==>
              Closed(cur.Keys) && FullBelow(cur.Keys, b.path) && Closed(tc.Keys)
  {
    hide Visited, Closed, FullBelow, Tagged, Joined;
  }

  /** Drops the child if it was emptied. */
  method LeaveKid(
    b: Node, c: Node, child: Node, server: ApiServer, status: MissionStatus,
    ghost tb: map<Path, Node>, ghost cur: map<Path, Node>, ghost part: map<Path, Node>, ghost tc: map<Path, Node>,
    ghost tc1: map<Path, Node>, ghost tc2: map<Path, Node>, ghost mid: map<Path, Node>, ghost tc3: map<Path, Node>,
    ghost start: State, ghost middle: State, ghost done: set<string>, ghost events: seq<Event>, ghost more: seq<Event>)
    returns (ghost part': map<Path, Node>)
    requires Visiting(b, c, child.name, child, tb, cur, part, tc, tc1, tc2, start, middle, done, events,
                      server.reliable)
    requires |b.path| <= 2 && b in tb.Values && Ok(mid) && Ok(tc3) && tb.Values !! tc3.Values
    requires Walked(tb, part, tc2, child.path, mid, tc3, middle, StateOf(server, status, tb), more, server.reliable)
    modifies b`children
    ensures Underway(b, c, server, status, tb, cur, part', tc, tc3, start, done + {child.name}, events + more)
  {
    hide *;
    VisitingIs(b, c, child.name, child, tb, cur, part, tc, tc1, tc2, start, middle, done, events, server.reliable);
    ghost var now := StateOf(server, status, tb);
    VisitOneMore(tb, cur, tc, b.path, done, child.name, part, tc1, tc2, mid, tc3, start, middle, now, events, more,
                 server.reliable);
    StillIn(c, tb, part, tc2, child.path, mid, tc3, middle, now, more, server.reliable);
    CarvedKeeps(b, child, part, tc2.Keys, mid);
    part' := DropEmpty(b, child, server, status, tb, cur, tc, done + {child.name}, mid, tc3, start, events + more);
    UnderwayIs(b, c, server, status, tb, cur, part', tc, tc3, start, done + {child.name}, events + more);
  }

  lemma KindOf(t: map<Path, Node>, n: Node)
    requires Ok(t) && In(n, t)
    ensures n.kind == VersionKind <==> |n.path| == 2
  {
    assert Linked(t, n.path);
  }

  lemma StillIn(
    n: Node, tb: map<Path, Node>, cur: map<Path, Node>, tc: map<Path, Node>, p: Path,
    cur': map<Path, Node>, tc': map<Path, Node>, start: State, now: State, events: seq<Event>, reliable: bool)
    requires In(n, tc) && Walked(tb, cur, tc, p, cur', tc', start, now, events, reliable)
    ensures In(n, tc')
    ensures cur' == Carved(cur, tc.Keys, p)
  {
  }

  lemma WalkOn(
    tb: map<Path, Node>, cur: map<Path, Node>, part: map<Path, Node>, tc: map<Path, Node>, tc1: map<Path, Node>,
    tc2: map<Path, Node>, p: Path, done: set<string>, k: string, child: Node, cc: Node, server: ApiServer)
    requires Placed(tb) && Tagged(tb, Payloads(tb)) && Part(part, tb) && part.Values <= tb.Values
    requires k !in done && FullBelow(cur.Keys, p) && part == CarvedIn(cur, tc.Keys, p, done)
    requires child.path == cc.path == Kid(p, k) && tb.Values !! tc2.Values && |p| <= 2
    requires Truthful(tc1, server.objects) && Joined(tc1, tc2, Kid(p, k))
    ensures Walkable(tb, part, tc2, child, cc) && Truthful(tc2, server.objects)
  {
    var kid := Kid(p, k);
    CarvedElsewhere(cur, tc.Keys, p, done, k);
    FullAt(cur.Keys, p, k);
    forall q | q in part.Keys && Under(q, kid) && |q| < OBJECT_DEPTH
      ensures HasKid(part.Keys, q)
    {
      assert HasKid(cur.Keys, q);
      var j :| Kid(q, j) in cur.Keys;
      assert Under(Kid(q, j), kid);
      assert Kid(q, j) in part.Keys;
    }
  }
}
