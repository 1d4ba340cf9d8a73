/** One reconciliation of a storage location: its pods, its service, and the status stored for it. */
module StorageLocations {
  import Wrappers
  import PodSort
  import opened PodCluster
  import opened ChildPods
  import opened Endpoints
  import opened Reconciler
  import opened Services

  class StorageLocation {
    const owner: Owner
    const replicas: int
    const generation: int
    var status: Status

    constructor (owner: Owner, replicas: int, generation: int, status: Status)
      ensures this.owner == owner && this.replicas == replicas && this.generation == generation
      ensures this.status == status
    {
      this.owner := owner;
      this.replicas := replicas;
      this.generation := generation;
      this.status := status;
    }
  }

  /** As many pods as there are to be, one service, and a stored status that says so. */
  ghost predicate Settled(
      h: seq<Happening>, services: map<string, Service>, stored: Status, owner: Owner, replicas: int)
  {
    |Live(h, owner)| == replicas
    && Reports(stored.pods, View(h), Live(h, owner))
    && Services.Names(stored, services, owner)
  }

  lemma SettledIs(
      h: seq<Happening>, services: map<string, Service>, stored: Status, owner: Owner, replicas: int)
    ensures Settled(h, services, stored, owner, replicas)
       <==> |Live(h, owner)| == replicas && Reports(stored.pods, View(h), Live(h, owner))
            && Services.Names(stored, services, owner)
    ensures replicas >= 0 ==> Wanted(replicas) == replicas
  {
  }

  /** There is one status to report. */
  lemma ReportsOnce(s: PodStatus, t: PodStatus, v: map<string, PodSort.Pod>, names: set<string>)
    requires Reports(s, v, names) && Reports(t, v, names)
    ensures s == t
  {
    var a :| Lists(a, v, names) && s == PodStatus(RunningIn(a), SortStrings(AddressesOf(a)));
    var b :| Lists(b, v, names) && t == PodStatus(RunningIn(b), SortStrings(AddressesOf(b)));
    ListsOnce(a, b, v, names);
    SameStatus(a, b);
    SameWhenShuffled(AddressesOf(a), AddressesOf(b));
  }

  /** The addresses reported are those of the children, each once, in order. */
  lemma ReportedAddresses(s: PodStatus, v: map<string, PodSort.Pod>, names: set<string>, pods: seq<PodSort.Pod>)
    requires Reports(s, v, names) && Lists(pods, v, names)
    ensures s.replicas == |set i | 0 <= i < |pods| && pods[i].running|
    ensures multiset(s.pods) == multiset(seq(|pods|, i requires 0 <= i < |pods| => pods[i].ip))
    ensures forall i, j :: 0 <= i < j < |s.pods| ==>
              var a, b := s.pods[i], s.pods[j];
              a <= b || exists k :: 0 <= k < |a| && k < |b| && a[..k] == b[..k] && a[k] < b[k]
  {
    var a :| Lists(a, v, names) && s == PodStatus(RunningIn(a), SortStrings(AddressesOf(a)));
    ListsOnce(a, pods, v, names);
    SameStatus(a, pods);
    StatusSays(pods);
    SortedIs(AddressesOf(a));
    hide Before;
    forall i, j | 0 <= i < j < |s.pods|
      ensures var a, b := s.pods[i], s.pods[j];
              a <= b || exists k :: 0 <= k < |a| && k < |b| && a[..k] == b[..k] && a[k] < b[k]
    {
      BeforeIs(s.pods[i], s.pods[j]);
    }
  }

  lemma NamesOnce(s: Status, t: Status, services: map<string, Service>, owner: Owner)
    requires Services.Names(s, services, owner) && Services.Names(t, services, owner) && s.pods == t.pods
    ensures s == t
  {
    assert s.service in {t.service};
  }

  lemma OneService(stored: Status, services: map<string, Service>, owner: Owner)
    requires Services.Names(stored, services, owner)
    ensures |ChildServices(services, owner)| == 1
  {
  }

  /** Stores the status, unless it is stored already or the location has been changed in the meantime. */
  method UpdateStorageLocation(api: ServiceApi, location: StorageLocation) returns (ok: bool)
    requires api.Sound()
    modifies api`faults, api`stored, api`generation, api`writes
    ensures api.Sound() && (api.calm ==> ok) && (!ok ==> api.faults < old(api.faults))
    ensures old(api.stored) == location.status ==>
      ok && api.writes == old(api.writes) && api.stored == old(api.stored) && api.generation == old(api.generation)
    ensures ok && old(api.generation) <= location.generation ==> api.stored == location.status
    ensures old(api.generation) > location.generation || !ok ==>
      api.stored == old(api.stored) && api.generation == old(api.generation)
  {
    if api.stored == location.status {
      return true;
    }
    if api.generation > location.generation {
      return true;
    }
    ok := api.Update(location.status);
  }

  /** The status of the pods reports the children that the list shows. */
  ghost predicate ReportsShown(r: StorageLocationsReconciler, pods: PodStatus, owner: Owner)
    reads r.server
  {
    var h, c := r.server.history, r.server.cursor;
    c <= |h| && Reports(pods, View(h[..c]), Chosen(h, c, owner))
  }

  lemma ReportsShownIs(r: StorageLocationsReconciler, pods: PodStatus, owner: Owner)
    ensures var h, c := r.server.history, r.server.cursor;
            ReportsShown(r, pods, owner) <==> c <= |h| && Reports(pods, View(h[..c]), Chosen(h, c, owner))
  {
  }

  /** The half of a run after the pods: the service, and then the status. */
  method FinishRun(api: ServiceApi, location: StorageLocation) returns (ok: bool)
    requires api.Sound() && NameIsFree(api.services, location.owner)
    modifies api, location
    ensures api.Sound() && (api.calm ==> ok) && location.status.pods == old(location.status.pods)
    ensures ok ==>
      && Services.Names(location.status, api.services, location.owner)
      && api.stored == if old(api.generation) > location.generation then old(api.stored) else location.status
    ensures !ok ==>
      api.stored == old(api.stored) && api.generation == old(api.generation) && api.faults < old(api.faults)
    ensures |old(ChildServices(api.services, location.owner))| == 1 ==>
      && api.services == old(api.services)
      && (location.status == old(api.stored) ==> api.writes == old(api.writes) && api.stored == old(api.stored))
    ensures Others(api.services, location.owner) == old(Others(api.services, location.owner))
  {
    hide *;
    var status;
    ok, status := SyncChildService(api, location.owner, location.status);
    location.status := status;
    if !ok {
      return;
    }
    ok := UpdateStorageLocation(api, location);
  }

  /**
   * One run. A run that is done has left one service, and a status that names it and reports what the list
   * shows, and has stored that status unless the location has been changed in the meantime. Any other run has
   * met a failing call, or a negative number, and has stored nothing; and when it failed with the pods, it has
   * not come to the service. When every call succeeds and the list is up to date, a run settles the
   * location, and a run on a settled location writes nothing.
   */
  method SyncBehaviour(r: StorageLocationsReconciler, api: ServiceApi, location: StorageLocation)
    returns (outcome: Outcome, ghost pods: Outcome)
    requires r.Valid() && HasRoomFor(r.server.history, r.server.cursor, location.owner, location.replicas)
    requires api.Sound() && NameIsFree(api.services, location.owner)
    modifies r.server, r.deletedPodCache, api, location
    ensures r.Valid() && api.Sound() && old(r.server.history) <= r.server.history
    ensures outcome.Done? ==>
      && Services.Names(location.status, api.services, location.owner)
      && ReportsShown(r, location.status.pods, location.owner)
      && api.stored == if old(api.generation) > location.generation then old(api.stored) else location.status
    ensures !outcome.Done? ==> api.stored == old(api.stored) && api.generation == old(api.generation)
    // `pods` is what came of the pods
    ensures pods.Panicked? ==> location.replicas < 0
    ensures pods.Failed? ==> r.server.faults < old(r.server.faults)
    ensures pods.Done? ==> location.replicas >= 0 && ReportsShown(r, location.status.pods, location.owner)
    ensures !pods.Done? ==>
      && outcome == pods && location.status == old(location.status)
      && api.services == old(api.services) && api.writes == old(api.writes) && api.faults == old(api.faults)
    ensures pods.Done? && !outcome.Done? ==> outcome.Failed? && api.faults < old(api.faults)
    ensures r.server.calm && api.calm && location.replicas >= 0 && old(api.generation) <= location.generation ==>
      outcome.Done? && Settled(r.server.history, api.services, api.stored, location.owner, location.replicas)
    ensures
      r.server.calm && api.calm
      && old(Settled(r.server.history, api.services, api.stored, location.owner, location.replicas)) ==>
        r.server.history == old(r.server.history) && api.services == old(api.services)
        && api.writes == old(api.writes) && api.stored == old(api.stored)
    ensures Others(api.services, location.owner) == old(Others(api.services, location.owner))
  {
    hide *;
    r.ValidIs();
    ghost var h, services, stored := r.server.history, api.services, api.stored;
    ghost var owner, replicas := location.owner, location.replicas;
    ghost var settled := r.server.calm && api.calm && Settled(h, services, stored, owner, replicas);
    var podStatus;
    ghost var c, first;
    outcome, podStatus, c, first := r.SyncChildPodList(location.owner, location.replicas, location.status.pods);
    if settled {
      Unchanged(h, c, first, owner, replicas, stored, services);
    }
    pods := outcome;
    r.ValidIs();
    if outcome != Done {
      return;
    }
    location.status := location.status.(pods := podStatus);
    ghost var now := r.server.history;
    ReportsShownIs(r, podStatus, owner);
    if r.server.calm {
      UpToDate(now, r.server.cursor, owner, podStatus);
    }
    var ok := FinishRun(api, location);
    outcome := if ok then Done else Failed;
    if settled {
      SameAgain(h, services, stored, location.status, owner, replicas);
    }
    SettledIs(now, api.services, api.stored, owner, replicas);
  }

  /** An up-to-date list shows what there is. */
  lemma UpToDate(h: seq<Happening>, c: nat, owner: Owner, pods: PodStatus)
    requires Lawful(h) && c == |h| && Reports(pods, View(h[..c]), Chosen(h, c, owner))
    ensures Reports(pods, View(h), Live(h, owner))
  {
    ChosenAreAlive(h, c, owner);
    assert h[..c] == h;
  }

  lemma SameAgain(
      h: seq<Happening>, services: map<string, Service>, stored: Status, status: Status, owner: Owner, replicas: int)
    requires Settled(h, services, stored, owner, replicas)
    requires Services.Names(status, services, owner) && Reports(status.pods, View(h), Live(h, owner))
    ensures status == stored
  {
    ReportsOnce(status.pods, stored.pods, View(h), Live(h, owner));
    NamesOnce(status, stored, services, owner);
  }

  lemma Unchanged(
      h: seq<Happening>, c: nat, first: Wrappers.Option<seq<PodSort.Pod>>, owner: Owner, replicas: int, stored: Status,
      services: map<string, Service>)
    requires Settled(h, services, stored, owner, replicas) && Lawful(h) && c == |h|
    requires first.Some? && Lists(first.value, View(h[..c]), Chosen(h, c, owner))
    ensures |first.value| == replicas >= 0 && |ChildServices(services, owner)| == 1
  {
    ChosenAreAlive(h, c, owner);
    ListsCount(first.value, View(h[..c]), Chosen(h, c, owner));
    OneService(stored, services, owner);
  }
}
