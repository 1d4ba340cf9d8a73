/**
 * The pods of one namespace: everything that has happened to them, and an API server whose list
 * shows how things stood some time ago.
 */
module PodCluster {
  import opened PodSort
  import opened Wrappers

  /** The storage location that owns a pod. */
  datatype Owner = Owner(name: string, uid: string)

  datatype Happening =
    | Created(pod: Pod)
    | Killed(name: string)
    | Removed(name: string)
    | Gone(name: string)
    | Changed(name: string, running: bool, ip: string)

  /** The pods that there are after `h`. */
  function View(h: seq<Happening>): map<string, Pod> {
    if h == [] then map[]
    else
      var v := View(h[..|h| - 1]);
      match h[|h| - 1]
      case Created(pod) => v[pod.name := pod]
      case Killed(name) => if name in v then v[name := v[name].(deleting := true)] else v
      case Removed(name) => if name in v then v[name := v[name].(deleting := true)] else v
      case Gone(name) => v - {name}
      case Changed(name, running, ip) => if name in v then v[name := v[name].(running := running, ip := ip)] else v
  }

  function Names(h: seq<Happening>): set<string> {
    if h == [] then {}
    else
      Names(h[..|h| - 1]) +
      match h[|h| - 1]
      case Created(pod) => {pod.name}
      case _ => {}
  }

  /** The pods whose deletion the controller asked for. */
  function KilledNames(h: seq<Happening>): set<string> {
    if h == [] then {}
    else
      KilledNames(h[..|h| - 1]) +
      match h[|h| - 1]
      case Killed(name) => {name}
      case _ => {}
  }

  /**
   * No name is used twice, a pod goes only after its deletion was asked for, and for pods with the
   * workload label nobody but the controller asks.
   */
  predicate LawfulNext(h: seq<Happening>, e: Happening) {
    match e
    case Created(pod) => pod.name !in Names(h) && !pod.deleting
    case Killed(name) => name in View(h) && View(h)[name].labelled
    case Removed(name) => name in View(h) && !View(h)[name].labelled
    case Gone(name) => name in View(h) && View(h)[name].deleting
    case Changed(name, _, _) => name in View(h)
  }

  ghost predicate Lawful(h: seq<Happening>) {
    h == [] || (Lawful(h[..|h| - 1]) && LawfulNext(h[..|h| - 1], h[|h| - 1]))
  }

  predicate IsChild(p: Pod, owner: Owner) {
    p.labelled && p.ownerName == owner.name && p.ownerUid == owner.uid && !p.deleting
  }

  /** The children that are really there. */
  function Live(h: seq<Happening>, owner: Owner): set<string> {
    set name | name in View(h) && IsChild(View(h)[name], owner)
  }

  // ---- What never changes along a history

  lemma {:induction false} OneMore(h: seq<Happening>, e: Happening)
    ensures (h + [e])[..|h + [e]| - 1] == h
    ensures Lawful(h + [e]) <==> Lawful(h) && LawfulNext(h, e)
    ensures Names(h + [e]) == Names(h) + if e.Created? then {e.pod.name} else {}
    ensures KilledNames(h + [e]) == KilledNames(h) + if e.Killed? then {e.name} else {}
  {
    assert (h + [e])[..|h|] == h;
  }

  ghost predicate Placed(h: seq<Happening>, name: string) {
    name in View(h) ==>
      var p := View(h)[name];
      p.name == name && name in Names(h) && (p.labelled ==> (p.deleting <==> name in KilledNames(h)))
  }

  lemma {:induction false} AllPlaced(h: seq<Happening>)
    requires Lawful(h)
    ensures forall name :: Placed(h, name)
    ensures KilledNames(h) <= Names(h)
  {
    if h != [] {
      AllPlaced(h[..|h| - 1]);
      forall name
        ensures Placed(h, name)
      {
        assert Placed(h[..|h| - 1], name);
      }
      var e := h[|h| - 1];
      if e.Killed? {
        assert Placed(h[..|h| - 1], e.name);
      }
    }
  }

  ghost predicate SameIdentity(p: Pod, q: Pod) {
    p.name == q.name && p.created == q.created && p.labelled == q.labelled
    && p.ownerName == q.ownerName && p.ownerUid == q.ownerUid
  }

  lemma SameStart(early: seq<Happening>, late: seq<Happening>)
    requires early <= late && early != late
    ensures early <= late[..|late| - 1]
  {
  }

  lemma {:induction false} Grows(early: seq<Happening>, late: seq<Happening>)
    requires early <= late && Lawful(late)
    ensures Names(early) <= Names(late) && KilledNames(early) <= KilledNames(late) && Lawful(early)
    decreases |late|
  {
    if early != late {
      SameStart(early, late);
      Grows(early, late[..|late| - 1]);
    }
  }

  /** Once gone, a pod does not come back; and a child whose deletion nobody asked for stays. */
  lemma {:induction false} Later(early: seq<Happening>, late: seq<Happening>, name: string)
    requires early <= late && Lawful(late) && name in Names(early)
    ensures name in View(late) ==> name in View(early) && SameIdentity(View(early)[name], View(late)[name])
    ensures name in View(early) && View(early)[name].labelled && name !in KilledNames(late) ==> name in View(late)
    decreases |late|
  {
    if early != late {
      SameStart(early, late);
      var before := late[..|late| - 1];
      Later(early, before, name);
      Grows(early, before);
      AllPlaced(before);
      assert Placed(before, name);
    }
  }

  /** A child seen at some time is alive later, unless the controller has deleted it. */
  lemma SeenIsAlive(early: seq<Happening>, late: seq<Happening>, name: string, owner: Owner)
    requires early <= late && Lawful(late)
    requires name in Live(early, owner) && name !in KilledNames(late)
    ensures name in Live(late, owner)
  {
    Grows(early, late);
    AllPlaced(early);
    AllPlaced(late);
    assert Placed(early, name) && Placed(late, name);
    Later(early, late, name);
  }

  // ---- The API server

  /** The writes that the API server has carried out for the controller. */
  datatype Call = CreatePod(name: string, owner: Owner) | DeletePod(name: string)

  ghost predicate DistinctNames(pods: seq<Pod>) {
    forall i, j :: 0 <= i < j < |pods| ==> pods[i].name != pods[j].name
  }

  ghost function NamesOf(pods: seq<Pod>): set<string> {
    set p | p in pods :: p.name
  }

  /** `pods` are the pods of `v` called `names`, in some order. */
  ghost predicate Lists(pods: seq<Pod>, v: map<string, Pod>, names: set<string>) {
    DistinctNames(pods)
    && NamesOf(pods) == names
    && forall p :: p in pods ==> p.name in v && v[p.name] == p
  }

  function FreshFor(h: seq<Happening>, base: string): (name: string)
    ensures |name| >= |base| && forall n :: n in Names(h) ==> |n| < |name|
  {
    if h == [] then base
    else
      var name := FreshFor(h[..|h| - 1], base);
      match h[|h| - 1]
      case Created(pod) => if |pod.name| < |name| then name else pod.name + "x"
      case _ => name
  }

  /**
   * A calm server does as it is told, shows what is there, and nobody else uses it. Otherwise calls
   * fail, though only finitely often and without effect, others act, and the list lags.
   */
  class PodApi {
    const calm: bool
    var history: seq<Happening>
    var cursor: nat
    var faults: nat
    ghost var calls: seq<Call>

    ghost predicate Sound()
      reads this
    {
      Lawful(history) && cursor <= |history| && (calm ==> faults == 0)
    }

    /** Others act. */
    method Tick()
      requires Sound()
      modifies this`history
      ensures Sound() && old(history) <= history && KilledNames(history) == KilledNames(old(history))
      ensures calm ==> history == old(history)
    {
      hide Lawful, Names, KilledNames, View, LawfulNext;
      var steps: nat := *;
      while steps > 0
        invariant Sound() && old(history) <= history && KilledNames(history) == KilledNames(old(history))
        invariant calm ==> history == old(history)
      {
        var e: Happening := *;
        if !calm && LawfulNext(history, e) && !e.Killed? {
          OneMore(history, e);
          history := history + [e];
        }
        steps := steps - 1;
      }
    }

    /** Lists the pods of the namespace, as they stood at some time not before the last list. */
    method List() returns (ok: bool, pods: seq<Pod>)
      requires Sound()
      modifies this`cursor, this`faults
      ensures Sound() && old(cursor) <= cursor
      ensures ok ==> Lists(pods, View(history[..cursor]), View(history[..cursor]).Keys) && faults == old(faults)
      ensures !ok ==> cursor == old(cursor) && faults < old(faults)
      ensures calm ==> ok && cursor == |history|
    {
      hide View, Lawful, Lists, Names, KilledNames;
      pods := [];
      ok := true;
      if faults > 0 {
        ok := *;
      }
      if !ok {
        faults := faults - 1;
        return;
      }
      var now: nat := *;
      cursor := if calm || now < cursor || |history| < now then |history| else now;
      Grows(history[..cursor], history);
      pods := Arranged(history[..cursor]);
    }

    method Create(owner: Owner) returns (ok: bool, ghost name: string)
      requires Sound()
      modifies this`history, this`faults, this`calls
      ensures Sound() && old(history) <= history && KilledNames(history) == KilledNames(old(history))
      ensures !ok ==> history == old(history) && calls == old(calls) && faults < old(faults)
      ensures ok ==> name in Live(history, owner) && name !in Names(old(history)) && faults == old(faults)
      ensures ok ==> calls == old(calls) + [CreatePod(name, owner)]
      ensures ok ==> Live(history, owner) == Live(old(history), owner) + {name}
      ensures calm ==> ok
    {
      hide Lawful, Names, KilledNames, View, Live;
      ok := true;
      if faults > 0 {
        ok := *;
      }
      name := "";
      if !ok {
        faults := faults - 1;
        return;
      }
      var given: string := *;
      if given in Names(history) {
        given := FreshFor(history, owner.name + "-");
      }
      name := given;
      var created: int := *;
      var p := Pod(given, created, true, owner.name, owner.uid, false, false, "");
      OneMore(history, Created(p));
      ChildBorn(history, p, owner);
      history := history + [Created(p)];
      calls := calls + [CreatePod(name, owner)];
    }

    method Delete(name: string) returns (ok: bool)
      requires Sound() && (name in View(history) ==> View(history)[name].labelled)
      modifies this`history, this`faults, this`calls
      ensures Sound() && old(history) <= history
      ensures ok ==> name in old(View(history)) && KilledNames(history) == KilledNames(old(history)) + {name}
      ensures ok ==> faults == old(faults) && calls == old(calls) + [DeletePod(name)]
      ensures ok ==> forall owner :: Live(history, owner) == Live(old(history), owner) - {name}
      ensures !ok ==> history == old(history) && calls == old(calls)
      ensures !ok && name in old(View(history)) ==> faults < old(faults)
      ensures calm && name in old(View(history)) ==> ok
    {
      hide Lawful, Names, KilledNames, View, Live;
      ok := name in View(history);
      if !ok {
        return;
      }
      if faults > 0 {
        ok := *;
      }
      if !ok {
        faults := faults - 1;
        return;
      }
      OneMore(history, Killed(name));
      ChildDies(history, name);
      history := history + [Killed(name)];
      calls := calls + [DeletePod(name)];
    }
  }

  lemma ChildBorn(h: seq<Happening>, p: Pod, owner: Owner)
    requires Lawful(h + [Created(p)]) && IsChild(p, owner)
    ensures p.name in Live(h + [Created(p)], owner)
    ensures Live(h + [Created(p)], owner) == Live(h, owner) + {p.name}
  {
    var late := h + [Created(p)];
    OneMore(h, Created(p));
    assert View(late) == View(h)[p.name := p];
  }

  lemma ChildDies(h: seq<Happening>, name: string)
    requires name in View(h)
    ensures forall owner :: Live(h + [Killed(name)], owner) == Live(h, owner) - {name}
  {
    var late := h + [Killed(name)];
    OneMore(h, Killed(name));
    assert View(late) == View(h)[name := View(h)[name].(deleting := true)];
  }

  lemma NamesOfMore(pods: seq<Pod>, p: Pod)
    ensures NamesOf(pods + [p]) == NamesOf(pods) + {p.name}
  {
  }

  lemma ListsMore(pods: seq<Pod>, v: map<string, Pod>, names: set<string>, name: string)
    requires Lists(pods, v, names) && name !in names && name in v && v[name].name == name
    ensures Lists(pods + [v[name]], v, names + {name})
  {
    NamesOfMore(pods, v[name]);
    forall i | 0 <= i < |pods|
      ensures pods[i].name != name
    {
      assert pods[i] in pods;
      assert pods[i].name in NamesOf(pods);
    }
  }

  lemma PlacedAt(h: seq<Happening>, name: string)
    requires Lawful(h) && name in View(h)
    ensures View(h)[name].name == name
  {
    AllPlaced(h);
    assert Placed(h, name);
  }

  lemma ListsNone(v: map<string, Pod>)
    ensures Lists([], v, {})
  {
  }

  /** The pods of a view, in an order that is nobody's business. */
  method Arranged(h: seq<Happening>) returns (pods: seq<Pod>)
    requires Lawful(h)
    ensures Lists(pods, View(h), View(h).Keys)
  {
    hide *;
    var v := View(h);
    pods := [];
    var todo := v.Keys;
    ListsNone(v);
    assert v.Keys - todo == {};
    while todo != {}
      invariant todo <= v.Keys && Lists(pods, v, v.Keys - todo)
      decreases |todo|
    {
      var name :| name in todo;
      PlacedAt(h, name);
      ListsMore(pods, v, v.Keys - todo, name);
      OneMoreDone(v.Keys, todo, name);
      pods := pods + [v[name]];
      todo := todo - {name};
    }
    assert v.Keys - todo == v.Keys;
  }
}
