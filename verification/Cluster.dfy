/** The cluster that objects are restored into, and the log of what was asked of it. */
module Cluster {
  import opened ResourceTree

  datatype Outcome =
    | Done
    | AlreadyExists
    | Rejected

  datatype Event =
    | NamespaceApplied(at: Path, accepted: bool)
    | ObjectWritten(path: Path, definition: Definition, clusterScoped: bool, namespaceThere: bool, outcome: Outcome)

  /** Where the cluster keeps the namespace of that name: it is an object itself. */
  function NamespacePath(name: string): Path {
    ["", "v1", "namespaces", CLUSTER_LEVEL_NAMESPACE, name]
  }

  function BareNamespace(name: string): Definition {
    map["metadata" := Fields(map["name" := Scalar(name)])]
  }

  /** The objects after one event. */
  function Step(objects: map<Path, Definition>, e: Event): map<Path, Definition> {
    match e
    case NamespaceApplied(at, accepted) =>
      if accepted && |at| == 4 && NamespacePath(at[3]) !in objects
      then objects[NamespacePath(at[3]) := BareNamespace(at[3])]
      else objects
    case ObjectWritten(path, definition, _, _, outcome) =>
      if outcome == Done then objects[path := definition] else objects
  }

  function Replay(objects: map<Path, Definition>, events: seq<Event>): map<Path, Definition>
    decreases |events|
  {
    if events == [] then objects
    else Step(Replay(objects, events[..|events| - 1]), events[|events| - 1])
  }

  lemma {:induction false} ReplayConcat(objects: map<Path, Definition>, a: seq<Event>, b: seq<Event>)
    ensures Replay(objects, a + b) == Replay(Replay(objects, a), b)
    decreases |b|
  {
    if b == [] {
      assert a + b == a;
    } else {
      assert (a + b)[..|a + b| - 1] == a + b[..|b| - 1];
      ReplayConcat(objects, a, b[..|b| - 1]);
    }
  }

  /** The event is one the server can produce when it holds these objects. A reliable
      server fails only for a reason. */
  predicate Lawful(objects: map<Path, Definition>, e: Event, reliable: bool) {
    match e
    case NamespaceApplied(at, accepted) => |at| == 4 && (reliable ==> accepted)
    case ObjectWritten(path, _, clusterScoped, namespaceThere, outcome) =>
      && |path| == OBJECT_DEPTH
      && (namespaceThere <==> NamespacePath(path[3]) in objects)
      && (clusterScoped ==> outcome != AlreadyExists && (reliable ==> outcome == Done))
      && (!clusterScoped ==>
           && (outcome == Done ==> path !in objects && namespaceThere)
           && (outcome == AlreadyExists ==> path in objects)
           && (reliable && outcome == Rejected ==> !namespaceThere))
  }

  predicate AllLawful(objects: map<Path, Definition>, events: seq<Event>, reliable: bool)
    decreases |events|
  {
    events == [] ||
    (var before := events[..|events| - 1];
     AllLawful(objects, before, reliable) && Lawful(Replay(objects, before), events[|events| - 1], reliable))
  }

  lemma {:induction false} AllLawfulConcat(objects: map<Path, Definition>, a: seq<Event>, b: seq<Event>, reliable: bool)
    requires AllLawful(objects, a, reliable) && AllLawful(Replay(objects, a), b, reliable)
    ensures AllLawful(objects, a + b, reliable)
    decreases |b|
  {
    if b == [] {
      assert a + b == a;
    } else {
      assert (a + b)[..|a + b| - 1] == a + b[..|b| - 1];
      ReplayConcat(objects, a, b[..|b| - 1]);
      AllLawfulConcat(objects, a, b[..|b| - 1], reliable);
    }
  }

  class ApiServer {
    var objects: map<Path, Definition>
    const reliable: bool // whether calls can fail without a reason
    ghost var log: seq<Event>

    constructor (objects: map<Path, Definition>, reliable: bool)
      ensures this.objects == objects && this.reliable == reliable && log == []
    {
      this.objects, this.reliable := objects, reliable;
      log := [];
    }

    /** Makes sure that the namespace exists. */
    method ApplyNamespace(name: string, ghost at: Path) returns (accepted: bool)
      requires |at| == 4 && at[3] == name
      modifies this
      ensures log == old(log) + [NamespaceApplied(at, accepted)]
      ensures objects == Step(old(objects), NamespaceApplied(at, accepted))
      ensures accepted && NamespacePath(name) !in old(objects) ==>
        objects == old(objects)[NamespacePath(name) := map["metadata" := Fields(map["name" := Scalar(name)])]]
      ensures !accepted || NamespacePath(name) in old(objects) ==> objects == old(objects)
      ensures reliable ==> accepted
    {
      accepted := reliable;
      if * {
        accepted := true;
      }
      if accepted && NamespacePath(name) !in objects {
        objects := objects[NamespacePath(name) := BareNamespace(name)];
      }
      log := log + [NamespaceApplied(at, accepted)];
    }

    /** Writes a cluster-scoped object, whether it exists or not. */
    method Apply(gvr: Gvr, name: string, definition: Definition) returns (outcome: Outcome, ghost e: Event)
      modifies this
      ensures var path := [gvr.group, gvr.version, gvr.resource, CLUSTER_LEVEL_NAMESPACE, name];
              e == ObjectWritten(path, definition, true, NamespacePath(path[3]) in old(objects), outcome)
      ensures log == old(log) + [e]
      ensures objects == Step(old(objects), e) && Lawful(old(objects), e, reliable)
    {
      var path := [gvr.group, gvr.version, gvr.resource, CLUSTER_LEVEL_NAMESPACE, name];
      outcome := if reliable then Done else Rejected;
      if * {
        outcome := Done;
      }
      e := ObjectWritten(path, definition, true, NamespacePath(path[3]) in objects, outcome);
      if outcome == Done {
        objects := objects[path := definition];
      }
      log := log + [e];
    }

    /** Creates a namespaced object, unless it exists or its namespace does not. */
    method Create(gvr: Gvr, namespace: string, name: string, definition: Definition)
      returns (outcome: Outcome, ghost e: Event)
      modifies this
      ensures var path := [gvr.group, gvr.version, gvr.resource, namespace, name];
              e == ObjectWritten(path, definition, false, NamespacePath(namespace) in old(objects), outcome)
      ensures log == old(log) + [e]
      ensures objects == Step(old(objects), e) && Lawful(old(objects), e, reliable)
    {
      var path := [gvr.group, gvr.version, gvr.resource, namespace, name];
      outcome :=
        if NamespacePath(namespace) !in objects then Rejected
        else if path in objects then AlreadyExists
        else Done;
      if !reliable {
        if * {
          outcome := Rejected;
        }
      }
      e := ObjectWritten(path, definition, false, NamespacePath(namespace) in objects, outcome);
      if outcome == Done {
        objects := objects[path := definition];
      }
      log := log + [e];
    }
  }

  const STATUS_SUCCESS := "Success"
  const STATUS_PARTIAL_FAILED := "PartialFailed"

  lemma StatusTexts()
    ensures STATUS_SUCCESS == "Success" && STATUS_PARTIAL_FAILED == "PartialFailed"
  {
  }

  /** What a run reports about itself. */
  class MissionStatus {
    var status: string
    var failedObjects: map<string, Outcome>

    constructor ()
      ensures status == STATUS_SUCCESS && failedObjects == map[]
    {
      status, failedObjects := STATUS_SUCCESS, map[];
    }

    method SetStatus(status: string)
      modifies this`status
      ensures this.status == status
    {
      this.status := status;
    }

    method AddFailedObjects(name: string, err: Outcome)
      modifies this`failedObjects
      ensures failedObjects == old(failedObjects)[name := err]
    {
      failedObjects := failedObjects[name := err];
    }
  }
}
