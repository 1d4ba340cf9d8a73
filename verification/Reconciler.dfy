/** The controller of storage locations: keeps the number of their pods, from a list that lags. */
module Reconciler {
  import opened Wrappers
  import opened PodSort
  import opened PodCluster
  import opened Lru
  import opened Endpoints
  import opened ChildPods

  datatype Outcome = Done | Failed | Panicked

  /** What a status says of the pods. */
  datatype PodStatus = PodStatus(replicas: int, pods: seq<string>)

  function Wanted(replicas: int): nat {
    if replicas < 0 then 0 else replicas
  }

  function Fewer(a: nat, b: nat): nat {
    if a <= b then a else b
  }

  ghost function Deletes(pods: seq<Pod>): seq<Call> {
    seq(|pods|, i requires 0 <= i < |pods| => DeletePod(pods[i].name))
  }

  /** `calls` are `before` and then `count` creations for the owner. */
  ghost predicate Creates(before: seq<Call>, calls: seq<Call>, owner: Owner, count: int) {
    before <= calls && |calls| == |before| + count
    && forall k :: |before| <= k < |calls| ==> calls[k].CreatePod? && calls[k].owner == owner
  }

  /** What a status has to say when the pods called `names` are the children. */
  ghost predicate Reports(s: PodStatus, v: map<string, Pod>, names: set<string>) {
    exists pods ::
      Lists(pods, v, names) && s == PodStatus(RunningIn(pods), SortStrings(AddressesOf(pods)))
  }

  lemma StatusReports(pods: seq<Pod>, v: map<string, Pod>, names: set<string>)
    requires Lists(pods, v, names)
    ensures Reports(PodStatus(RunningIn(pods), SortStrings(AddressesOf(pods))), v, names)
  {
  }

  lemma RoomAt(h: seq<Happening>, cursor: nat, c: nat, owner: Owner, replicas: int)
    requires HasRoomFor(h, cursor, owner, replicas) && cursor <= c <= |h|
    ensures Fits(h, c, owner, replicas)
  {
  }

  // ---- Facts about histories that grow

  lemma MasksGrow(h: seq<Happening>, late: seq<Happening>, c: nat, entries: seq<string>, owner: Owner)
    requires Masks(h, c, entries) && h <= late && KilledNames(late) == KilledNames(h)
    ensures Masks(late, c, entries) && Outstanding(late, c) == Outstanding(h, c)
    ensures Chosen(late, c, owner) == Chosen(h, c, owner)
    ensures View(late[..c]) == View(h[..c])
  {
    assert late[..c] == h[..c];
  }

  lemma SameChosen(h: seq<Happening>, late: seq<Happening>, c: nat, owner: Owner)
    requires c <= |h| && h <= late && KilledNames(late) == KilledNames(h)
    ensures Chosen(late, c, owner) == Chosen(h, c, owner)
  {
    assert late[..c] == h[..c];
  }

  lemma LiveIsNamed(h: seq<Happening>, owner: Owner)
    requires Lawful(h)
    ensures Live(h, owner) <= Names(h) && Live(h, owner) !! KilledNames(h)
  {
    AllPlaced(h);
    forall name | name in Live(h, owner)
      ensures name in Names(h) && name !in KilledNames(h)
    {
      assert Placed(h, name);
    }
  }

  lemma AliveStays(h: seq<Happening>, late: seq<Happening>, owner: Owner, names: set<string>)
    requires Lawful(late) && h <= late && names <= Live(h, owner) && names !! KilledNames(late)
    ensures names <= Live(late, owner)
  {
    forall name | name in names
      ensures name in Live(late, owner)
    {
      SeenIsAlive(h, late, name, owner);
    }
  }

  lemma ListedNames(list: seq<Pod>, v: map<string, Pod>, names: set<string>)
    requires Lists(list, v, names)
    ensures NamesOf(list) == names
  {
  }

  lemma NoDeletes()
    ensures Deletes([]) == [] && NamesOf([]) == {}
  {
  }

  lemma CountAtMost<T>(a: set<T>, b: set<T>)
    requires a <= b
    ensures |a| <= |b|
  {
    assert b == a + (b - a);
  }

  /** There are `count` children at least, at every moment from `from` on. */
  ghost predicate NeverBelow(h: seq<Happening>, from: nat, owner: Owner, count: nat) {
    forall k :: from <= k <= |h| ==> |Live(h[..k], owner)| >= count
  }

  /** The pods that the controller spares are alive all the time. */
  lemma SparedThroughout(h: seq<Happening>, late: seq<Happening>, c: nat, owner: Owner)
    requires Lawful(late) && h <= late && c <= |h|
    ensures NeverBelow(late, |h|, owner, |Chosen(late, c, owner)|)
  {
    var spared := Chosen(late, c, owner);
    forall k | |h| <= k <= |late|
      ensures |Live(late[..k], owner)| >= |spared|
    {
      Grows(late[..k], late);
      assert late[..k][..c] == late[..c];
      forall name | name in spared
        ensures name in Live(late[..k], owner)
      {
        SeenIsAlive(late[..c], late[..k], name, owner);
      }
      CountAtMost(spared, Live(late[..k], owner));
    }
  }

  /** What the first half of a run has done: `h` and `calls` were before, `now` and `after` are then. */
  ghost predicate Adjusted(
      h: seq<Happening>, calls: seq<Call>, now: seq<Happening>, after: seq<Call>, list: seq<Pod>, owner: Owner,
      replicas: int)
  {
    h <= now
    && NeverBelow(now, |h|, owner, Fewer(|list|, Wanted(replicas)))
    && |Live(now, owner)| >= Wanted(replicas)
    && (|list| < replicas ==> Creates(calls, after, owner, replicas - |list|))
    && (|list| >= replicas ==> after == calls + Deletes(list[..Surplus(|list|, replicas)]))
    && KilledNames(now) == KilledNames(h) + NamesOf(list[..Surplus(|list|, replicas)])
  }

  lemma HistoryGrows(
      h: seq<Happening>, calls: seq<Call>, now: seq<Happening>, after: seq<Call>, list: seq<Pod>, owner: Owner,
      replicas: int)
    requires Adjusted(h, calls, now, after, list, owner, replicas)
    ensures h <= now
  {
  }

  /** At every moment there are as many children as the list had, or as many as there are to be. */
  lemma NeverFewer(
      h: seq<Happening>, calls: seq<Call>, now: seq<Happening>, after: seq<Call>, list: seq<Pod>, owner: Owner,
      replicas: int)
    requires Adjusted(h, calls, now, after, list, owner, replicas)
    ensures forall k :: |h| <= k <= |now| ==>
              var alive := |Live(now[..k], owner)|; alive >= |list| || alive >= replicas
  {
    hide Live, KilledNames, Creates, Deletes;
  }

  lemma SortedSays(list: seq<Pod>)
    requires Sorted(list)
    ensures forall i, j :: 0 <= i < j < |list| ==> list[i].created <= list[j].created
  {
  }

  lemma AdjustedStays(
      h: seq<Happening>, calls: seq<Call>, middle: seq<Happening>, now: seq<Happening>, after: seq<Call>,
      list: seq<Pod>, owner: Owner, replicas: int)
    requires Adjusted(h, calls, middle, after, list, owner, replicas)
    requires Lawful(now) && middle <= now && KilledNames(now) == KilledNames(middle)
    ensures Adjusted(h, calls, now, after, list, owner, replicas)
  {
    hide Lawful, View, KilledNames, Names, Live;
    forall k | |h| <= k <= |now|
      ensures |Live(now[..k], owner)| >= Fewer(|list|, Wanted(replicas))
    {
      if k <= |middle| {
        assert now[..k] == middle[..k];
      } else {
        LiveGrows(middle, now, k, owner);
      }
    }
    LiveGrows(middle, now, |now|, owner);
    assert now[..|now|] == now;
  }

  lemma LiveGrows(h: seq<Happening>, late: seq<Happening>, k: nat, owner: Owner)
    requires Lawful(late) && h <= late && KilledNames(late) == KilledNames(h) && |h| <= k <= |late|
    ensures |Live(h, owner)| <= |Live(late[..k], owner)|
  {
    Grows(late[..k], late);
    Grows(h, late[..k]);
    LiveIsNamed(h, owner);
    AliveStays(h, late[..k], owner, Live(h, owner));
    CountAtMost(Live(h, owner), Live(late[..k], owner));
  }

  class StorageLocationsReconciler {
    const server: PodApi
    const deletedPodCache: LruCache

    constructor (server: PodApi)
      requires server.Sound() && KilledNames(server.history) == {}
      ensures this.server == server && fresh(deletedPodCache) && Valid()
    {
      this.server := server;
      deletedPodCache := new LruCache(ROOM);
    }

    ghost predicate Valid()
      reads server, deletedPodCache
    {
      server.Sound() && deletedPodCache.capacity == ROOM
      && Masks(server.history, server.cursor, deletedPodCache.entries)
    }

    lemma ValidIs()
      ensures Valid()
         <==> server.Sound() && deletedPodCache.capacity == ROOM
              && Masks(server.history, server.cursor, deletedPodCache.entries)
      ensures server.Sound() ==> Lawful(server.history) && server.cursor <= |server.history|
    {
    }

    lemma ChoseIs(list: seq<Pod>, owner: Owner)
      ensures Chose(list, owner)
         <==> server.cursor <= |server.history|
              && Lists(list, View(server.history[..server.cursor]), Chosen(server.history, server.cursor, owner))
    {
    }

    /** The list that the controller works with. */
    ghost predicate Chose(list: seq<Pod>, owner: Owner)
      reads server
    {
      server.cursor <= |server.history|
      && Lists(list, View(server.history[..server.cursor]), Chosen(server.history, server.cursor, owner))
    }

    /** The children shown by the list and not remembered as deleted, oldest first. */
    method GetStorageLocationChildPodList(owner: Owner) returns (ok: bool, list: seq<Pod>)
      requires Valid()
      modifies server`cursor, server`faults, deletedPodCache
      ensures Valid() && old(server.cursor) <= server.cursor
      ensures ok ==> Sorted(list) && Chose(list, owner) && server.faults == old(server.faults)
      ensures ok ==> forall i, j :: 0 <= i < j < |list| ==> list[i].created <= list[j].created
      ensures ok ==> server.cursor <= |server.history|
      ensures ok ==> forall p :: p in list <==>
        && p.name in View(server.history[..server.cursor]) && View(server.history[..server.cursor])[p.name] == p
        && p.labelled && p.ownerName == owner.name && p.ownerUid == owner.uid && !p.deleting
        && p.name !in KilledNames(server.history)
      ensures !ok ==> server.faults < old(server.faults) && server.cursor == old(server.cursor)
      ensures server.calm ==> ok && server.cursor == |server.history|
    {
      hide *;
      ValidIs();
      ghost var h, c, entries := server.history, server.cursor, deletedPodCache.entries;
      var pods;
      ok, pods := server.List();
      if !ok {
        list := [];
        ValidIs();
        return;
      }
      var kept := Keep(pods, owner);
      ghost var hidden := deletedPodCache.entries;
      ValidIs();
      ListingIsChosen(h, c, server.cursor, entries, pods, owner);
      var podList := new Pod[|kept|](i requires 0 <= i < |kept| => kept[i]);
      assert podList[..] == kept;
      SortPodList(podList);
      list := podList[..];
      ListsSorted(kept, list, View(h[..server.cursor]), Chosen(h, server.cursor, owner));
      ValidIs();
      ChoseIs(list, owner);
      SortedSays(list);
      ListedSays(h, server.cursor, owner, list);
    }

    method Keep(pods: seq<Pod>, owner: Owner) returns (kept: seq<Pod>)
      modifies deletedPodCache
      ensures deletedPodCache.entries == AllTouched(old(deletedPodCache.entries), NameSeq(pods))
      ensures kept == Kept(pods, old(deletedPodCache.entries), owner)
    {
      hide Touched, IsChild;
      kept := [];
      ghost var entries := deletedPodCache.entries;
      for i := 0 to |pods|
        invariant deletedPodCache.entries == AllTouched(entries, NameSeq(pods[..i]))
        invariant kept == Kept(pods[..i], entries, owner)
      {
        var p := pods[i];
        TouchedSame(entries, NameSeq(pods[..i]));
        var deleted := deletedPodCache.Get(p.name);
        if !deleted && IsChild(p, owner) {
          kept := kept + [p];
        }
        assert pods[..i + 1][..i] == pods[..i];
        assert NameSeq(pods[..i + 1])[..i] == NameSeq(pods[..i]);
      }
      assert pods[..|pods|] == pods;
    }

    /** One attempt to create a pod; `alive` are children known to be there. */
    method CreateOne(owner: Owner, ghost alive: set<string>) returns (ok: bool, ghost name: string)
      requires Valid() && alive <= Live(server.history, owner)
      modifies server`history, server`faults, server`calls
      ensures Valid() && old(server.history) <= server.history
      ensures KilledNames(server.history) == KilledNames(old(server.history))
      ensures alive <= Live(server.history, owner)
      ensures ok ==> name in Live(server.history, owner) && name !in alive && server.faults == old(server.faults)
      ensures ok ==> server.calls == old(server.calls) + [CreatePod(name, owner)]
      ensures !ok ==> server.calls == old(server.calls) && server.faults < old(server.faults)
      ensures server.calm ==> ok && |Live(server.history, owner)| == |Live(old(server.history), owner)| + 1
    {
      hide Lawful, View, KilledNames, Names, Masks, Live;
      ghost var h, c, entries := server.history, server.cursor, deletedPodCache.entries;
      server.Tick();
      MasksGrow(h, server.history, c, entries, owner);
      ghost var middle := server.history;
      LiveIsNamed(h, owner);
      AliveStays(h, middle, owner, alive);
      LiveIsNamed(middle, owner);
      ok, name := server.Create(owner);
      MasksGrow(middle, server.history, c, entries, owner);
      AliveStays(middle, server.history, owner, alive);
    }

    /** One attempt to delete the oldest pod of the list. */
    method DeleteOne(rest: seq<Pod>, owner: Owner) returns (ok: bool)
      requires Valid() && rest != [] && Chose(rest, owner)
      requires |Outstanding(server.history, server.cursor)| < ROOM
      modifies server`history, server`faults, server`calls, deletedPodCache
      ensures Valid() && old(server.history) <= server.history
      ensures ok ==> server.calls == old(server.calls) + [DeletePod(rest[0].name)]
      ensures ok ==> Chose(rest[1..], owner) && server.faults == old(server.faults)
      ensures KilledNames(server.history)
           == KilledNames(old(server.history)) + if ok then {rest[0].name} else {}
      ensures ok ==>
        |Outstanding(server.history, server.cursor)| == old(|Outstanding(server.history, server.cursor)|) + 1
      ensures !ok ==> Chose(rest, owner) && server.calls == old(server.calls) && server.faults < old(server.faults)
      ensures !ok ==> Outstanding(server.history, server.cursor) == old(Outstanding(server.history, server.cursor))
      ensures server.calm ==> ok && |Live(server.history, owner)| == |Live(old(server.history), owner)| - 1
    {
      hide *;
      ValidIs();
      ChoseIs(rest, owner);
      ghost var h, c, entries := server.history, server.cursor, deletedPodCache.entries;
      server.Tick();
      ghost var middle := server.history;
      ValidIs();
      MasksGrow(h, middle, c, entries, owner);
      OldestIsAlive(middle, c, owner, rest);
      ok := server.Delete(rest[0].name);
      if ok {
        ValidIs();
        MasksDelete(middle, server.history, c, entries, owner, rest);
        deletedPodCache.Add(rest[0].name);
      }
      ValidIs();
      ChoseIs(rest, owner);
      ChoseIs(rest[1..], owner);
    }

    /** So far `count` pods have been created, and with those of the list `alive` are there. */
    ghost predicate Created(
        h: seq<Happening>, calls: seq<Call>, list: seq<Pod>, owner: Owner, count: int, alive: set<string>)
      reads server, deletedPodCache
    {
      Valid() && h <= server.history && KilledNames(server.history) == KilledNames(h)
      && alive <= Live(server.history, owner) && |alive| == |list| + count
      && Creates(calls, server.calls, owner, count)
      && (server.calm ==> |Live(server.history, owner)| == |Live(h, owner)| + count)
      && (server.calm && count <= 0 ==> server.history == h)
    }

    /** So far the `count` oldest pods of the list have been deleted. */
    ghost predicate Deleted(h: seq<Happening>, calls: seq<Call>, list: seq<Pod>, owner: Owner, count: int)
      reads server, deletedPodCache
    {
      Valid() && server.cursor <= |h| && h <= server.history && 0 <= count <= |list|
      && Chose(list[count..], owner)
      && |Outstanding(server.history, server.cursor)| == |Outstanding(h, server.cursor)| + count
      && server.calls == calls + Deletes(list[..count])
      && KilledNames(server.history) == KilledNames(h) + NamesOf(list[..count])
      && (server.calm ==> |Live(server.history, owner)| == |Live(h, owner)| - count)
      && (server.calm && count == 0 ==> server.history == h)
    }

    method GrowOnce(
        ghost h: seq<Happening>, ghost calls: seq<Call>, ghost list: seq<Pod>, owner: Owner, ghost count: int,
        ghost alive: set<string>) returns (ok: bool, ghost name: string)
      requires count >= 0 && Created(h, calls, list, owner, count, alive)
      modifies server`history, server`faults, server`calls
      ensures ok ==> Created(h, calls, list, owner, count + 1, alive + {name})
      ensures server.faults <= old(server.faults)
      ensures !ok ==> Created(h, calls, list, owner, count, alive) && server.faults < old(server.faults)
    {
      hide Lawful, View, KilledNames, Names, Masks, Live;
      hide Valid();
      ok, name := CreateOne(owner, alive);
    }

    lemma Onward(list: seq<Pod>, count: nat)
      requires count < |list|
      ensures list[count..] != [] && list[count..][0] == list[count] && list[count..][1..] == list[count + 1..]
      ensures NamesOf(list[..count + 1]) == NamesOf(list[..count]) + {list[count].name}
      ensures Deletes(list[..count + 1]) == Deletes(list[..count]) + [DeletePod(list[count].name)]
    {
      assert list[..count + 1] == list[..count] + [list[count]];
      NamesOfMore(list[..count], list[count]);
    }

    method ShrinkOnce(
        ghost h: seq<Happening>, ghost calls: seq<Call>, ghost list: seq<Pod>, rest: seq<Pod>, owner: Owner,
        ghost count: nat)
      returns (ok: bool)
      requires Deleted(h, calls, list, owner, count)
      requires count < |list| && rest == list[count..] && |Outstanding(server.history, server.cursor)| < ROOM
      modifies server`history, server`faults, server`calls, deletedPodCache
      ensures ok ==> Deleted(h, calls, list, owner, count + 1)
      ensures server.faults <= old(server.faults)
      ensures !ok ==> Deleted(h, calls, list, owner, count) && server.faults < old(server.faults)
      ensures !ok ==> Outstanding(server.history, server.cursor) == old(Outstanding(server.history, server.cursor))
    {
      hide Lawful, View, KilledNames, Names, Masks, Live, Lists, NamesOf, Chosen, Outstanding, Deletes;
      hide Valid(), Chose(), server.Sound();
      Onward(list, count);
      ghost var before := Deletes(list[..count]);
      ghost var dead := KilledNames(h);
      ok := DeleteOne(rest, owner);
      if ok {
        Assoc(calls, before, [DeletePod(rest[0].name)]);
        assert dead + NamesOf(list[..count]) + {rest[0].name} == dead + NamesOf(list[..count + 1]);
      }
    }

    lemma DeletedSoFar(h: seq<Happening>, calls: seq<Call>, list: seq<Pod>, owner: Owner, count: int)
      requires Deleted(h, calls, list, owner, count)
      ensures server.cursor <= |h| && server.cursor <= |server.history|
      ensures |Outstanding(server.history, server.cursor)| == |Outstanding(h, server.cursor)| + count
      ensures Valid()
    {
    }

    /** Where the loop stands: `n` pods are to be created, or `-n` to be deleted, and `count` have been. */
    ghost predicate Going(
        h: seq<Happening>, calls: seq<Call>, list: seq<Pod>, rest: seq<Pod>, owner: Owner, n: int, count: int,
        alive: set<string>)
      reads server, deletedPodCache
    {
      (0 <= count <= n || n <= count <= 0) && server.cursor <= |h|
      && (n >= 0 ==> Created(h, calls, list, owner, count, alive))
      && (n <= 0 ==>
          -count <= |list| && rest == list[-count..] && Deleted(h, calls, list, owner, -count)
          && |Outstanding(h, server.cursor)| + Fewer(|list|, -n) <= ROOM)
    }

    method CreateChildPod(
        ghost h: seq<Happening>, ghost calls: seq<Call>, ghost list: seq<Pod>, ghost rest: seq<Pod>, owner: Owner,
        n: int, count: int, ghost alive: set<string>) returns (ok: bool, ghost name: string)
      requires Going(h, calls, list, rest, owner, n, count, alive) && 0 <= count < n
      modifies server`history, server`faults, server`calls
      ensures ok ==> Going(h, calls, list, rest, owner, n, count + 1, alive + {name})
      ensures server.faults <= old(server.faults)
      ensures !ok ==> Going(h, calls, list, rest, owner, n, count, alive) && server.faults < old(server.faults)
    {
      hide Created(), Deleted(), Outstanding, Valid();
      ok, name := GrowOnce(h, calls, list, owner, count, alive);
    }

    method DeleteChildPod(
        ghost h: seq<Happening>, ghost calls: seq<Call>, ghost list: seq<Pod>, rest: seq<Pod>, owner: Owner,
        n: int, count: int, ghost alive: set<string>) returns (ok: bool)
      requires Going(h, calls, list, rest, owner, n, count, alive) && n < count <= 0 && rest != []
      modifies server`history, server`faults, server`calls, deletedPodCache
      ensures ok ==> Going(h, calls, list, rest[1..], owner, n, count - 1, alive)
      ensures server.faults <= old(server.faults)
      ensures !ok ==> Going(h, calls, list, rest, owner, n, count, alive) && server.faults < old(server.faults)
    {
      hide Created(), Outstanding, Valid(), Chose(), Lists, NamesOf, KilledNames, Live, View, Deletes;
      DeletedSoFar(h, calls, list, owner, -count);
      hide Deleted();
      ok := ShrinkOnce(h, calls, list, rest, owner, -count);
    }

    /** Creates or deletes pods until there are as many as there are to be. */
    method Adjust(list: seq<Pod>, owner: Owner, replicas: int) returns (panicked: bool, ghost alive: set<string>)
      requires Valid() && Chose(list, owner) && Fits(server.history, server.cursor, owner, replicas)
      modifies server`history, server`faults, server`calls, deletedPodCache
      ensures Valid() && (panicked <==> replicas < 0) && server.faults <= old(server.faults)
      ensures |list| <= replicas ==>
        Created(old(server.history), old(server.calls), list, owner, replicas - |list|, alive)
      ensures |list| > replicas ==>
        Deleted(old(server.history), old(server.calls), list, owner, Surplus(|list|, replicas))
    {
      hide *;
      ghost var h, calls := server.history, server.calls;
      var n := replicas - |list|;
      var count := 0;
      var rest := list;
      panicked := false;
      alive := NamesOf(list);
      Begin(list, owner, replicas);
      while count != n
        invariant (0 <= count <= n || n <= count <= 0) && Going(h, calls, list, rest, owner, n, count, alive)
        invariant n < 0 ==> |rest| == |list| + count
        invariant server.faults <= old(server.faults)
        decreases if n < count then count - n else n - count, server.faults
      {
        if n > 0 {
          ghost var name;
          var ok;
          ok, name := CreateChildPod(h, calls, list, rest, owner, n, count, alive);
          if ok {
            count := count + 1;
            alive := alive + {name};
          }
        }
        if n < 0 {
          if rest == [] {
            panicked := true;
            AtTheEnd(h, calls, list, rest, owner, replicas, count, alive);
            return;
          }
          var ok := DeleteChildPod(h, calls, list, rest, owner, n, count, alive);
          if ok {
            rest := rest[1..];
            count := count - 1;
          }
        }
      }
      AtTheEnd(h, calls, list, rest, owner, replicas, count, alive);
    }

    lemma AtTheEnd(
        h: seq<Happening>, calls: seq<Call>, list: seq<Pod>, rest: seq<Pod>, owner: Owner, replicas: int, count: int,
        alive: set<string>)
      requires Going(h, calls, list, rest, owner, replicas - |list|, count, alive)
      requires count == replicas - |list| || (count > replicas - |list| && |rest| == 0)
      ensures Valid()
      ensures |list| <= replicas ==> Created(h, calls, list, owner, replicas - |list|, alive)
      ensures |list| > replicas ==> Deleted(h, calls, list, owner, Surplus(|list|, replicas))
      ensures count != replicas - |list| ==> replicas < 0
      ensures count == replicas - |list| ==> replicas >= 0
    {
      hide Outstanding, Valid(), Chose(), Creates, Live, KilledNames, NamesOf, Deletes, Lists;
      if |list| > replicas {
        DeletedSoFar(h, calls, list, owner, -count);
      }
    }

    method OthersAct()
      requires Valid()
      modifies server`history
      ensures Valid() && old(server.history) <= server.history
      ensures KilledNames(server.history) == KilledNames(old(server.history))
      ensures server.calm ==> server.history == old(server.history)
    {
      hide Lawful, View, KilledNames, Names, Masks;
      ghost var h := server.history;
      server.Tick();
      MasksGrow(h, server.history, server.cursor, deletedPodCache.entries, Owner("", ""));
    }

    method Summarise(list: seq<Pod>) returns (running: nat, endPoints: seq<string>)
      ensures running == RunningIn(list) && endPoints == AddressesOf(list)
    {
      running, endPoints := 0, [];
      for i := 0 to |list|
        invariant running == RunningIn(list[..i]) && endPoints == AddressesOf(list[..i])
      {
        assert list[..i + 1][..i] == list[..i];
        if list[i].running {
          running := running + 1;
        }
        endPoints := endPoints + [list[i].ip];
      }
      assert list[..|list|] == list;
    }

    /**
     * One run for one storage location. `c` is how far the list had come, and `list` what the
     * controller saw in it; there is none when the list could not be read.
     */
    method SyncChildPodList(owner: Owner, replicas: int, status: PodStatus)
      returns (r: Outcome, after: PodStatus, ghost c: nat, ghost first: Option<seq<Pod>>)
      requires Valid() && HasRoomFor(server.history, server.cursor, owner, replicas)
      modifies server, deletedPodCache
      ensures Valid() && old(server.history) <= server.history
      ensures old(server.cursor) <= c <= |old(server.history)| && c <= server.cursor
      ensures first.None? ==>
        r.Failed? && server.history == old(server.history) && server.calls == old(server.calls)
      ensures server.faults <= old(server.faults) && (r.Failed? ==> server.faults < old(server.faults))
      ensures first.Some? ==> Sorted(first.value)
      ensures first.Some? ==>
        Lists(first.value, View(old(server.history)[..c]), Chosen(old(server.history), c, owner))
      ensures first.Some? ==>
        Adjusted(old(server.history), old(server.calls), server.history, server.calls, first.value, owner, replicas)
      ensures first.Some? ==> forall k :: |old(server.history)| <= k <= |server.history| ==>
        var alive := |Live(server.history[..k], owner)|; alive >= |first.value| || alive >= replicas
      ensures r.Panicked? <==> first.Some? && replicas < 0
      ensures r.Done? ==>
        Reports(after, View(server.history[..server.cursor]), Chosen(server.history, server.cursor, owner))
      ensures !r.Done? ==> after == status
      ensures server.calm ==> first.Some? && c == |old(server.history)| && !r.Failed?
      ensures server.calm && r.Done? ==> server.cursor == |server.history|
      ensures server.calm ==> |Live(server.history, owner)| == Wanted(replicas)
      ensures server.calm && |first.value| == replicas ==> server.history == old(server.history)
    {
      hide *;
      after := status;
      first := None;
      c := server.cursor;
      ghost var h, calls, c0 := server.history, server.calls, c;
      ValidIs();
      var ok, list := GetStorageLocationChildPodList(owner);
      if !ok {
        r := Failed;
        return;
      }
      c := server.cursor;
      first := Some(list);
      ChoseIs(list, owner);
      RoomAt(h, c0, c, owner, replicas);
      var panicked;
      ghost var alive;
      panicked, alive := Adjust(list, owner, replicas);
      AdjustedWell(h, calls, c, list, owner, replicas, alive);
      HistoryGrows(h, calls, server.history, server.calls, list, owner, replicas);
      NeverFewer(h, calls, server.history, server.calls, list, owner, replicas);
      if panicked {
        r := Panicked;
        return;
      }
      ghost var middle := server.history;
      OthersAct();
      ValidIs();
      AdjustedStays(h, calls, middle, server.history, server.calls, list, owner, replicas);
      NeverFewer(h, calls, server.history, server.calls, list, owner, replicas);
      ok, list := GetStorageLocationChildPodList(owner);
      if !ok {
        r := Failed;
        return;
      }
      var running, endPoints := Summarise(list);
      after := PodStatus(running, SortStrings(endPoints));
      r := Done;
      ChoseIs(list, owner);
      StatusReports(list, View(server.history[..server.cursor]), Chosen(server.history, server.cursor, owner));
    }

    lemma AdjustedWell(
        h: seq<Happening>, calls: seq<Call>, c: nat, list: seq<Pod>, owner: Owner, replicas: int, alive: set<string>)
      requires Valid() && server.cursor == c <= |h| && Lawful(h) && Lists(list, View(h[..c]), Chosen(h, c, owner))
      requires |list| <= replicas ==> Created(h, calls, list, owner, replicas - |list|, alive)
      requires |list| > replicas ==> Deleted(h, calls, list, owner, Surplus(|list|, replicas))
      ensures Adjusted(h, calls, server.history, server.calls, list, owner, replicas)
      ensures server.calm && c == |h| ==> |Live(server.history, owner)| == Wanted(replicas)
      ensures server.calm && |list| == replicas ==> server.history == h
    {
      hide Lawful, View, KilledNames, Names, Masks, Live, Lists, Outstanding, NeverBelow, Chosen;
      var now := server.history;
      SparedThroughout(h, now, c, owner);
      ChosenAreAlive(now, c, owner);
      ChosenAreAlive(h, c, owner);
      CountAtMost(Chosen(now, c, owner), Live(now, owner));
      ListsCount(list, View(h[..c]), Chosen(h, c, owner));
      if |list| <= replicas {
        CountAtMost(alive, Live(now, owner));
        assert Chosen(now, c, owner) == Chosen(h, c, owner) by { SameChosen(h, now, c, owner); }
        assert NeverBelow(now, |h|, owner, |list|);
        assert list[..0] == [] && NamesOf([]) == {};
      } else {
        var rest := list[Surplus(|list|, replicas)..];
        ListsCount(rest, View(now[..c]), Chosen(now, c, owner));
        assert |rest| == Fewer(|list|, Wanted(replicas));
      }
    }

    lemma Begin(list: seq<Pod>, owner: Owner, replicas: int)
      requires Valid() && Chose(list, owner) && Fits(server.history, server.cursor, owner, replicas)
      ensures Going(server.history, server.calls, list, list, owner, replicas - |list|, 0, NamesOf(list))
    {
      hide Lawful, View, KilledNames, Names, Masks, Live, Lists, NamesOf, Chosen, Outstanding, Deletes;
      var h, c := server.history, server.cursor;
      ListsCount(list, View(h[..c]), Chosen(h, c, owner));
      ChosenAreAlive(h, c, owner);
      ListedNames(list, View(h[..c]), Chosen(h, c, owner));
      assert list[0..] == list && list[..0] == [];
      NoDeletes();
      assert server.calls + [] == server.calls;
    }
  }

  // ---- Whole runs

  /** From one moment to the next the controller deletes live children only, and leaves enough of them. */
  ghost predicate SparesAt(h: seq<Happening>, k: nat, owner: Owner, replicas: int)
    requires k < |h|
  {
    KilledNames(h[..k + 1]) - KilledNames(h[..k]) <= Live(h[..k], owner)
    && |Live(h[..k + 1], owner)| >= Wanted(replicas)
  }

  lemma QuietSpares(h: seq<Happening>, now: seq<Happening>, k: nat)
    requires Lawful(now) && h <= now && KilledNames(now) == KilledNames(h) && |h| <= k < |now|
    ensures KilledNames(now[..k + 1]) == KilledNames(now[..k])
  {
    Grows(now[..k], now);
    Grows(now[..k + 1], now);
    assert h <= now[..k] && h <= now[..k + 1];
    Grows(h, now[..k]);
    Grows(h, now[..k + 1]);
  }

  /** The victims are alive until they are deleted. */
  lemma VictimsAreAlive(
      h: seq<Happening>, c: nat, now: seq<Happening>, victims: set<string>, owner: Owner, k: nat)
    requires Lawful(now) && h <= now && c <= |h| <= k < |now| && victims <= Chosen(h, c, owner)
    requires KilledNames(now) == KilledNames(h) + victims
    ensures KilledNames(now[..k + 1]) - KilledNames(now[..k]) <= Live(now[..k], owner)
  {
    hide Lawful, View, KilledNames, Live, Chosen;
    Grows(now[..k + 1], now);
    Grows(now[..k], now);
    assert h <= now[..k];
    Grows(h, now[..k]);
    ChosenAreAlive(h, c, owner);
    forall name | name in KilledNames(now[..k + 1]) - KilledNames(now[..k])
      ensures name in Live(now[..k], owner)
    {
      SeenIsAlive(h, now[..k], name, owner);
    }
  }

  lemma VictimsAreChosen(list: seq<Pod>, v: map<string, Pod>, names: set<string>, count: nat)
    requires Lists(list, v, names) && count <= |list|
    ensures NamesOf(list[..count]) <= names
  {
    assert forall p :: p in list[..count] ==> p in list;
  }

  lemma AdjustedSpares(
      h: seq<Happening>, calls: seq<Call>, c: nat, now: seq<Happening>, after: seq<Call>, list: seq<Pod>,
      owner: Owner, replicas: int, k: nat)
    requires Adjusted(h, calls, now, after, list, owner, replicas) && Lawful(now)
    requires c <= |h| && Lists(list, View(h[..c]), Chosen(h, c, owner)) && |h| <= k < |now|
    ensures KilledNames(now[..k + 1]) == KilledNames(now[..k]) || SparesAt(now, k, owner, replicas)
  {
    hide Lawful, View, KilledNames, Live, Lists, NamesOf, Chosen, Outstanding, Creates;
    var count := Surplus(|list|, replicas);
    if |list| <= replicas {
      NoDeletes();
      assert list[..0] == [];
      QuietSpares(h, now, k);
    } else {
      VictimsAreChosen(list, View(h[..c]), Chosen(h, c, owner), count);
      VictimsAreAlive(h, c, now, NamesOf(list[..count]), owner, k);
    }
  }

  datatype Request = Request(owner: Owner, replicas: int)

  /** The part of the history in which a request was served, and whether the list could be read. */
  datatype Stretch = Stretch(from: nat, to: nat, acted: bool)

  ghost predicate NothingDeleted(h: seq<Happening>, k: nat)
    requires k < |h|
  {
    KilledNames(h[..k + 1]) == KilledNames(h[..k])
  }

  /** The controller deletes nothing between the two moments. */
  ghost predicate Quiet(h: seq<Happening>, from: nat, to: nat) {
    from <= to <= |h| && forall k :: from <= k < to ==> NothingDeleted(h, k)
  }

  /** Whatever is deleted in the stretch is a live child of the location that is served, which keeps as many as
      it is to have; and if the list could be read it has at least as many in the end. */
  ghost predicate ServedWell(h: seq<Happening>, s: Stretch, request: Request) {
    && s.from <= s.to <= |h|
    && (forall k :: s.from <= k < s.to ==> NothingDeleted(h, k) || SparesAt(h, k, request.owner, request.replicas))
    && (s.acted ==> |Live(h[..s.to], request.owner)| >= Wanted(request.replicas))
  }

  lemma PrefixKeeps(h: seq<Happening>, now: seq<Happening>, k: nat, owner: Owner, replicas: int)
    requires h <= now && k < |h|
    ensures NothingDeleted(h, k) <==> NothingDeleted(now, k)
    ensures SparesAt(h, k, owner, replicas) <==> SparesAt(now, k, owner, replicas)
  {
    assert now[..k] == h[..k] && now[..k + 1] == h[..k + 1];
  }

  lemma ServedStays(h: seq<Happening>, now: seq<Happening>, s: Stretch, request: Request)
    requires h <= now && ServedWell(h, s, request)
    ensures ServedWell(now, s, request)
  {
    hide NothingDeleted, SparesAt, Live;
    forall k | s.from <= k < s.to
      ensures NothingDeleted(now, k) || SparesAt(now, k, request.owner, request.replicas)
    {
      PrefixKeeps(h, now, k, request.owner, request.replicas);
    }
    assert now[..s.to] == h[..s.to];
  }

  lemma QuietStays(h: seq<Happening>, now: seq<Happening>, from: nat, to: nat)
    requires h <= now && Quiet(h, from, to)
    ensures Quiet(now, from, to)
  {
    hide NothingDeleted;
    forall k | from <= k < to
      ensures NothingDeleted(now, k)
    {
      PrefixKeeps(h, now, k, Owner("", ""), 0);
    }
  }

  lemma OthersAreQuiet(h: seq<Happening>, now: seq<Happening>)
    requires Lawful(now) && h <= now && KilledNames(now) == KilledNames(h)
    ensures Quiet(now, |h|, |now|)
  {
    forall k | |h| <= k < |now|
      ensures NothingDeleted(now, k)
    {
      QuietSpares(h, now, k);
    }
  }

  /** One run serves its request well. */
  lemma RunServes(
      h: seq<Happening>, calls: seq<Call>, c: nat, now: seq<Happening>, after: seq<Call>, first: Option<seq<Pod>>,
      request: Request)
    requires Lawful(now) && c <= |h|
    requires first.None? ==> now == h
    requires first.Some? ==>
      Lists(first.value, View(h[..c]), Chosen(h, c, request.owner))
      && Adjusted(h, calls, now, after, first.value, request.owner, request.replicas)
    ensures ServedWell(now, Stretch(|h|, |now|, first.Some?), request)
  {
    hide Lawful, View, KilledNames, Live, Lists, Chosen, SparesAt, NothingDeleted, NeverBelow, Creates, Deletes;
    if first.Some? {
      forall k | |h| <= k < |now|
        ensures NothingDeleted(now, k) || SparesAt(now, k, request.owner, request.replicas)
      {
        AdjustedSpares(h, calls, c, now, after, first.value, request.owner, request.replicas, k);
        NothingDeletedIs(now, k);
      }
      assert now[..|now|] == now;
    }
  }

  lemma NothingDeletedIs(h: seq<Happening>, k: nat)
    requires k < |h|
    ensures NothingDeleted(h, k) <==> KilledNames(h[..k + 1]) == KilledNames(h[..k])
  {
  }

  /** Others act, and then the request is served, if the cache has room for it. */
  method Serve(r: StorageLocationsReconciler, request: Request) returns (served: bool, ghost s: Stretch)
    requires r.Valid()
    modifies r.server, r.deletedPodCache
    ensures r.Valid() && old(r.server.history) <= r.server.history
    ensures Quiet(r.server.history, |old(r.server.history)|, s.from) && s.to == |r.server.history|
    ensures served ==> ServedWell(r.server.history, s, request)
    ensures r.server.faults <= old(r.server.faults) && (served && !s.acted ==> r.server.faults < old(r.server.faults))
    ensures !served ==>
      s.from == s.to && !HasRoomFor(r.server.history, r.server.cursor, request.owner, request.replicas)
    ensures served && r.server.calm ==>
      s.acted && |Live(r.server.history, request.owner)| == Wanted(request.replicas)
  {
    hide *;
    ghost var h := r.server.history;
    r.OthersAct();
    ghost var middle := r.server.history;
    r.ValidIs();
    OthersAreQuiet(h, middle);
    s := Stretch(|middle|, |middle|, false);
    served := HasRoomFor(r.server.history, r.server.cursor, request.owner, request.replicas);
    if served {
      ghost var calls := r.server.calls;
      var outcome, status;
      ghost var c, first;
      outcome, status, c, first := r.SyncChildPodList(request.owner, request.replicas, PodStatus(0, []));
      ghost var now := r.server.history;
      r.ValidIs();
      RunServes(middle, calls, c, now, r.server.calls, first, request);
      QuietStays(middle, now, |h|, |middle|);
      s := Stretch(|middle|, |now|, first.Some?);
    }
  }

  /** Where the stretch before the `i`-th one ends. */
  ghost function EndBefore(log: seq<Stretch>, from: nat, i: nat): nat
    requires i <= |log|
  {
    if i == 0 then from else log[i - 1].to
  }

  /** The first requests have been served one after the other, and between them nothing was deleted. */
  ghost predicate AllServed(h: seq<Happening>, from: nat, requests: seq<Request>, log: seq<Stretch>) {
    && |log| <= |requests| && EndBefore(log, from, |log|) == |h|
    && forall i :: 0 <= i < |log| ==>
         Quiet(h, EndBefore(log, from, i), log[i].from) && ServedWell(h, log[i], requests[i])
  }

  lemma OneMoreServed(
      h: seq<Happening>, now: seq<Happening>, from: nat, requests: seq<Request>, log: seq<Stretch>, s: Stretch)
    requires AllServed(h, from, requests, log) && h <= now && |log| < |requests|
    requires Quiet(now, |h|, s.from) && s.to == |now| && ServedWell(now, s, requests[|log|])
    ensures AllServed(now, from, requests, log + [s])
  {
    hide Quiet, ServedWell;
    var more := log + [s];
    forall i | 0 <= i < |more|
      ensures Quiet(now, EndBefore(more, from, i), more[i].from) && ServedWell(now, more[i], requests[i])
    {
      if i < |log| {
        assert EndBefore(more, from, i) == EndBefore(log, from, i);
        QuietStays(h, now, EndBefore(log, from, i), log[i].from);
        ServedStays(h, now, log[i], requests[i]);
      }
    }
  }

  lemma NoneServed(h: seq<Happening>, requests: seq<Request>)
    ensures AllServed(h, |h|, requests, [])
  {
  }

  /** How many runs could not read the list. */
  ghost function Idle(log: seq<Stretch>): nat {
    if log == [] then 0 else Idle(log[..|log| - 1]) + if log[|log| - 1].acted then 0 else 1
  }

  lemma IdleMore(log: seq<Stretch>, s: Stretch)
    ensures Idle(log + [s]) == Idle(log) + if s.acted then 0 else 1
    ensures Idle([]) == 0
  {
    assert (log + [s])[..|log|] == log;
  }

  /**
   * Any sequence of requests for storage locations of the namespace, with anything happening in
   * between. They are served in turn, up to the first one that the cache has no room for; and all
   * that is deleted while one is served is deleted by its rule.
   */
  method Run(r: StorageLocationsReconciler, requests: seq<Request>) returns (served: nat, ghost log: seq<Stretch>)
    requires r.Valid()
    modifies r.server, r.deletedPodCache
    ensures r.Valid() && served == |log| && old(r.server.history) <= r.server.history
    ensures served == |requests| ==>
      AllServed(r.server.history, |old(r.server.history)|, requests, log)
    ensures served < |requests| ==>
      && !HasRoomFor(r.server.history, r.server.cursor, requests[served].owner, requests[served].replicas)
      && exists before :: before <= r.server.history
                          && AllServed(before, |old(r.server.history)|, requests, log)
                          && Quiet(r.server.history, |before|, |r.server.history|)
    ensures Idle(log) <= old(r.server.faults)
  {
    hide *;
    ghost var from := |r.server.history|;
    NoneServed(r.server.history, requests);
    served, log := 0, [];
    IdleMore([], Stretch(0, 0, true));
    while served < |requests|
      invariant served == |log| <= |requests| && r.Valid() && old(r.server.history) <= r.server.history
      invariant AllServed(r.server.history, from, requests, log)
      invariant Idle(log) + r.server.faults <= old(r.server.faults)
    {
      ghost var before := r.server.history;
      ghost var s;
      var ok;
      ok, s := Serve(r, requests[served]);
      if !ok {
        return;
      }
      OneMoreServed(before, r.server.history, from, requests, log, s);
      IdleMore(log, s);
      log := log + [s];
      served := served + 1;
    }
  }

  /** The pod to delete is a child that is there. */
  lemma OldestIsAlive(h: seq<Happening>, c: nat, owner: Owner, rest: seq<Pod>)
    requires Lawful(h) && c <= |h| && rest != [] && Lists(rest, View(h[..c]), Chosen(h, c, owner))
    ensures rest[0].name in Live(h, owner)
    ensures rest[0].name in View(h) && View(h)[rest[0].name].labelled
  {
    assert rest[0].name in NamesOf(rest);
    ChosenAreAlive(h, c, owner);
  }

  lemma {:induction false} TouchedSame(s: seq<string>, names: seq<string>)
    ensures forall n :: n in AllTouched(s, names) <==> n in s
  {
    if names != [] {
      var front := names[..|names| - 1];
      TouchedSame(s, front);
      MemberOfWithout(AllTouched(s, front), names[|names| - 1]);
    }
  }

  lemma {:induction false} MemberOfWithout(s: seq<string>, name: string)
    ensures forall n :: n in Without(s, name) <==> n in s && n != name
  {
    if s != [] {
      MemberOfWithout(s[1..], name);
      assert s == [s[0]] + s[1..];
    }
  }

  lemma ListingIsChosen(
      h: seq<Happening>, c: nat, late: nat, entries: seq<string>, pods: seq<Pod>, owner: Owner)
    requires Lawful(h) && Masks(h, c, entries) && c <= late <= |h|
    requires Lists(pods, View(h[..late]), View(h[..late]).Keys)
    ensures Masks(h, late, AllTouched(entries, NameSeq(pods)))
    ensures Lists(Kept(pods, entries, owner), View(h[..late]), Chosen(h, late, owner))
  {
    hide Lawful, View, KilledNames, Names, Masks, AllTouched, Kept, IsChild;
    var v := View(h[..late]);
    PassMasks(h, c, late, entries, pods);
    KeptLists(pods, v, v.Keys, entries, owner);
    forall name | name in v
      ensures name in entries <==> name in KilledNames(h)
    {
      assert name in NamesOf(pods);
    }
    assert KeptNames(v, v.Keys, entries, owner) == Chosen(h, late, owner);
  }

  lemma ListsRest(rest: seq<Pod>, v: map<string, Pod>, names: set<string>)
    requires Lists(rest, v, names) && rest != []
    ensures Lists(rest[1..], v, names - {rest[0].name})
  {
    assert rest == [rest[0]] + rest[1..];
    assert NamesOf(rest) == {rest[0].name} + NamesOf(rest[1..]);
  }

  /** What the deletion of the oldest pod of the list does to the mask. */
  lemma MasksDelete(
      h: seq<Happening>, late: seq<Happening>, c: nat, entries: seq<string>, owner: Owner, rest: seq<Pod>)
    requires Masks(h, c, entries) && h <= late && Lawful(late)
    requires rest != [] && Lists(rest, View(h[..c]), Chosen(h, c, owner))
    requires KilledNames(late) == KilledNames(h) + {rest[0].name} && |Outstanding(h, c)| < ROOM
    ensures Masks(late, c, Put(entries, rest[0].name, ROOM))
    ensures |Outstanding(late, c)| == |Outstanding(h, c)| + 1
    ensures Lists(rest[1..], View(late[..c]), Chosen(late, c, owner))
  {
    hide Lawful, View, Names, KilledNames, Lists, Put, Leads;
    var name := rest[0].name;
    assert late[..c] == h[..c];
    ListedNames(rest, View(h[..c]), Chosen(h, c, owner));
    assert rest[0] in rest;
    assert name in Chosen(h, c, owner);
    Grows(h, late);
    Grows(h[..c], h);
    LiveIsNamed(h[..c], owner);
    assert name in View(h[..c]);
    var d := Outstanding(h, c);
    assert Outstanding(late, c) == d + {name} && name !in d;
    PutLeads(d, entries, name, ROOM);
    ListsRest(rest, View(h[..c]), Chosen(h, c, owner));
    assert Chosen(late, c, owner) == Chosen(h, c, owner) - {name};
  }
}
