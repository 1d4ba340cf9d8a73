/** The service of a storage location, and the status that is stored for it. */
module Services {
  import opened PodCluster
  import opened Reconciler

  datatype Service = Service(
    name: string, labelled: bool, ownerName: string, ownerUid: string, deleting: bool, ip: string, port: string)

  datatype Status = Status(pods: PodStatus, service: string, serviceIp: string, servicePort: string)

  predicate IsChildService(s: Service, owner: Owner) {
    s.labelled && s.ownerName == owner.name && s.ownerUid == owner.uid && !s.deleting
  }

  function ServiceName(owner: Owner): string {
    owner.name + "-service"
  }

  /** The service that the controller creates. */
  ghost predicate IsMade(s: Service, owner: Owner) {
    s.name == owner.name + "-service" && s.port == "8081" && IsChildService(s, owner)
  }

  /** It is there. */
  ghost predicate IsThere(services: map<string, Service>, owner: Owner) {
    owner.name + "-service" in services && IsMade(services[owner.name + "-service"], owner)
  }

  ghost function ChildServices(services: map<string, Service>, owner: Owner): set<string> {
    set name | name in services && IsChildService(services[name], owner)
  }

  /** No two elements of `list` have one name, and their names are `names`. */
  ghost predicate Shows(list: seq<Service>, services: map<string, Service>, names: set<string>) {
    |list| == |names|
    && (forall i, j :: 0 <= i < j < |list| ==> list[i].name != list[j].name)
    && forall i :: 0 <= i < |list| ==> list[i].name in names && list[i].name in services
                                       && services[list[i].name] == list[i]
  }

  /**
   * The services of one namespace, and the stored storage location. Nobody else acts on them, and
   * the list is up to date. Calls fail only finitely often.
   */
  class ServiceApi {
    const calm: bool
    var services: map<string, Service>
    var faults: nat
    var stored: Status
    var generation: int
    ghost var writes: nat
    ghost var asked: seq<bool> // for each creation that was asked for, whether it was carried out

    ghost predicate Sound()
      reads this
    {
      (forall name :: name in services ==> services[name].name == name) && (calm ==> faults == 0)
    }

    method Refuse() returns (refused: bool)
      modifies this`faults
      ensures refused ==> faults < old(faults)
      ensures !refused ==> faults == old(faults)
    {
      refused := false;
      if faults > 0 {
        refused := *;
        if refused {
          faults := faults - 1;
        }
      }
    }

    /** The children of the owner, in some order. */
    method List(owner: Owner) returns (ok: bool, list: seq<Service>)
      requires Sound()
      modifies this`faults
      ensures Sound() && faults <= old(faults) && (calm ==> ok) && (!ok ==> faults < old(faults))
      ensures ok ==> Shows(list, services, ChildServices(services, owner))
    {
      hide IsChildService, Shows;
      list := [];
      var refused := Refuse();
      ok := !refused;
      if ok {
        list := ChildrenIn(services, owner);
      }
    }

    method Create(owner: Owner) returns (ok: bool, ghost made: Service)
      requires Sound()
      modifies this`faults, this`services, this`writes, this`asked
      ensures Sound() && faults <= old(faults) && asked == old(asked) + [ok]
      ensures ok ==> ServiceName(owner) !in old(services) && writes == old(writes) + 1
      ensures ok ==> IsMade(made, owner) && services == old(services)[made.name := made]
      ensures !ok ==> services == old(services) && writes == old(writes)
      ensures !ok ==> ServiceName(owner) in services || faults < old(faults)
    {
      ok := false;
      made := Service("", true, owner.name, owner.uid, false, "", "");
      if ServiceName(owner) in services {
        asked := asked + [false];
        return;
      }
      var refused := Refuse();
      asked := asked + [!refused];
      if !refused {
        var ip: string := *;
        var s := Service(ServiceName(owner), true, owner.name, owner.uid, false, ip, "8081");
        services := services[s.name := s];
        made := s;
        writes := writes + 1;
        ok := true;
      }
    }

    method Delete(name: string) returns (ok: bool)
      requires Sound() && name in services
      modifies this`faults, this`services, this`writes
      ensures Sound() && faults <= old(faults)
      ensures ok ==> services == old(services) - {name} && writes == old(writes) + 1
      ensures !ok ==> services == old(services) && faults < old(faults) && writes == old(writes)
    {
      var refused := Refuse();
      ok := !refused;
      if ok {
        services := services - {name};
        writes := writes + 1;
      }
    }

    method Update(status: Status) returns (ok: bool)
      requires Sound()
      modifies this`faults, this`stored, this`generation, this`writes
      ensures Sound() && (calm ==> ok)
      ensures ok ==> stored == status && writes == old(writes) + 1 && generation == old(generation) + 1
      ensures !ok ==> stored == old(stored) && writes == old(writes) && generation == old(generation)
      ensures faults <= old(faults) && (!ok ==> faults < old(faults))
    {
      var refused := Refuse();
      ok := !refused;
      if ok {
        stored := status;
        generation := generation + 1;
        writes := writes + 1;
      }
    }
  }

  method ChildrenIn(services: map<string, Service>, owner: Owner) returns (list: seq<Service>)
    requires forall name :: name in services ==> services[name].name == name
    ensures Shows(list, services, ChildServices(services, owner))
  {
    hide Shows, IsChildService, ChildServices;
    list := [];
    var todo := services.Keys;
    ShowsNone(services);
    assert ChildServices(services, owner) * (services.Keys - todo) == {};
    while todo != {}
      invariant todo <= services.Keys
      invariant Shows(list, services, ChildServices(services, owner) * (services.Keys - todo))
      decreases |todo|
    {
      var name :| name in todo;
      OneMoreChild(services, owner, todo, name);
      if IsChildService(services[name], owner) {
        ShowsMore(list, services, ChildServices(services, owner) * (services.Keys - todo), name);
        list := list + [services[name]];
      }
      todo := todo - {name};
    }
    ChildrenAreServices(services, owner);
    assert ChildServices(services, owner) * (services.Keys - todo) == ChildServices(services, owner);
  }

  lemma ChildrenAreServices(services: map<string, Service>, owner: Owner)
    ensures ChildServices(services, owner) <= services.Keys
  {
  }

  lemma OneMoreChild(services: map<string, Service>, owner: Owner, todo: set<string>, name: string)
    requires todo <= services.Keys && name in todo
    ensures ChildServices(services, owner) * (services.Keys - (todo - {name}))
         == ChildServices(services, owner) * (services.Keys - todo)
            + if IsChildService(services[name], owner) then {name} else {}
  {
  }

  lemma ShowsNone(services: map<string, Service>)
    ensures Shows([], services, {})
  {
  }

  lemma ShowsMore(list: seq<Service>, services: map<string, Service>, names: set<string>, name: string)
    requires Shows(list, services, names) && name !in names && name in services && services[name].name == name
    ensures Shows(list + [services[name]], services, names + {name})
  {
  }

  lemma ShowsRest(list: seq<Service>, services: map<string, Service>, names: set<string>)
    requires Shows(list, services, names) && list != []
    ensures Shows(list[1..], services - {list[0].name}, names - {list[0].name})
  {
  }

  lemma ShownCount(list: seq<Service>, services: map<string, Service>, names: set<string>)
    requires Shows(list, services, names)
    ensures |names| == |list|
  {
  }

  lemma OneShown(list: seq<Service>, services: map<string, Service>, names: set<string>)
    requires Shows(list, services, names) && |list| == 1
    ensures names == {list[0].name}
  {
    var rest := names - {list[0].name};
    assert |rest| == 0;
  }

  /** Where there is no service of the location, its name is not taken by a service of somebody else. */
  ghost predicate NameIsFree(services: map<string, Service>, owner: Owner) {
    ChildServices(services, owner) == {} ==> ServiceName(owner) !in services
  }

  /** The services other than the owner's children. */
  ghost function Others(services: map<string, Service>, owner: Owner): map<string, Service> {
    services - ChildServices(services, owner)
  }

  /** The status names the one service that there is. */
  ghost predicate Names(stored: Status, services: map<string, Service>, owner: Owner) {
    stored.service in services
    && ChildServices(services, owner) == {stored.service}
    && stored.serviceIp == services[stored.service].ip
    && stored.servicePort == services[stored.service].port
  }

  /** Creates the service when there is none, and deletes those that are too many. */
  method SyncChildService(api: ServiceApi, owner: Owner, status: Status) returns (ok: bool, after: Status)
    requires api.Sound() && NameIsFree(api.services, owner)
    modifies api`faults, api`services, api`writes, api`asked
    ensures api.Sound() && (api.calm ==> ok)
    ensures ok ==> Names(after, api.services, owner) && after.pods == status.pods
    ensures ok ==> forall name :: name == after.service <==>
      && name in api.services
      && var s := api.services[name]; s.labelled && s.ownerName == owner.name && s.ownerUid == owner.uid && !s.deleting
    ensures api.faults <= old(api.faults) && (!ok ==> api.faults < old(api.faults))
    ensures ok && old(ChildServices(api.services, owner)) != {} ==>
      after.service in old(ChildServices(api.services, owner))
    ensures ok && old(ChildServices(api.services, owner)) == {} ==>
      after.service == owner.name + "-service" && after.servicePort == "8081"
    ensures !ok ==> after == status
    ensures Others(api.services, owner) == old(Others(api.services, owner))
    ensures |old(ChildServices(api.services, owner))| == 1 ==>
      api.services == old(api.services) && api.writes == old(api.writes)
  {
    after := status;
    var list;
    ok, list := api.List(owner);
    if !ok {
      return;
    }
    Adjust(api, owner, list);
    var again;
    ok, again := api.List(owner);
    if !ok {
      return;
    }
    OneShown(again, api.services, ChildServices(api.services, owner));
    var s := again[0];
    after := status.(service := s.name, serviceIp := s.ip, servicePort := s.port);
    ChildServicesSay(api.services, owner);
    if list == [] {
      assert owner.name + "-service" in ChildServices(api.services, owner);
    } else {
      assert list[0].name in old(ChildServices(api.services, owner));
    }
  }

  /** Which services are taken for those of the location. */
  lemma ChildServicesSay(services: map<string, Service>, owner: Owner)
    ensures forall name :: name in ChildServices(services, owner) <==>
              && name in services
              && var s := services[name];
                 s.labelled && s.ownerName == owner.name && s.ownerUid == owner.uid && !s.deleting
  {
  }

  lemma ChildAdded(services: map<string, Service>, s: Service, owner: Owner)
    requires s.name !in services && IsChildService(s, owner)
    ensures ChildServices(services[s.name := s], owner) == ChildServices(services, owner) + {s.name}
    ensures s.name !in ChildServices(services, owner)
    ensures Others(services[s.name := s], owner) == Others(services, owner)
  {
  }

  lemma ChildRemoved(services: map<string, Service>, name: string, owner: Owner)
    requires name in ChildServices(services, owner)
    ensures ChildServices(services - {name}, owner) == ChildServices(services, owner) - {name}
    ensures Others(services - {name}, owner) == Others(services, owner)
  {
  }

  /** What holds when the loop has gone `count` of `n` steps up or down. */
  ghost predicate Underway(api: ServiceApi, owner: Owner, list: seq<Service>, rest: seq<Service>, n: int, count: int)
    reads api
  {
    && api.Sound() && n == 1 - |list| && (0 <= count <= n || n <= count <= 0)
    && |ChildServices(api.services, owner)| == |list| + count
    && (n <= 0 ==> -count <= |list| && rest == list[-count..]
                   && Shows(rest, api.services, ChildServices(api.services, owner)))
  }

  /** One attempt of the loop. */
  method AdjustOnce(
    api: ServiceApi, owner: Owner, n: int, count: int, rest: seq<Service>, ghost list: seq<Service>)
    returns (count': int, rest': seq<Service>)
    requires Underway(api, owner, list, rest, n, count) && count != n
    modifies api`faults, api`services, api`writes, api`asked
    ensures Underway(api, owner, list, rest', n, count')
    ensures Others(api.services, owner) == old(Others(api.services, owner)) && api.faults <= old(api.faults)
    ensures n > 0 ==> (count' == 1 || count' == 0) && api.asked == old(api.asked) + [count' == 1]
    ensures n > 0 && ServiceName(owner) in old(api.services) ==> count' == 0
    ensures n > 0 && ServiceName(owner) !in old(api.services) ==> count' == 1 || api.faults < old(api.faults)
    ensures n > 0 && count' == 0 ==> api.services == old(api.services) && api.writes == old(api.writes)
    ensures n > 0 && count' == 1 ==> IsThere(api.services, owner)
    ensures n < 0 ==> count' == count - 1 || (count' == count && api.faults < old(api.faults))
    ensures n < 0 ==> ChildServices(api.services, owner) <= old(ChildServices(api.services, owner))
  {
    hide ChildServices, Others, Shows, IsChildService, ServiceName, IsThere;
    count', rest' := count, rest;
    if n > 0 {
      var ok := CreateChild(api, owner);
      if ok {
        count' := count + 1;
      }
    }
    if n < 0 {
      var ok := DeleteChild(api, owner, rest);
      if ok {
        rest' := rest[1..];
        count' := count - 1;
      }
    }
  }

  lemma StartOfLoop(api: ServiceApi, owner: Owner, list: seq<Service>)
    requires api.Sound() && Shows(list, api.services, ChildServices(api.services, owner))
    ensures Underway(api, owner, list, list, 1 - |list|, 0)
    ensures 1 - |list| > 0 ==> (NameIsFree(api.services, owner) <==> ServiceName(owner) !in api.services)
    ensures 1 - |list| <= 0 ==> NameIsFree(api.services, owner)
  {
    hide IsChildService, ServiceName;
    ShownCount(list, api.services, ChildServices(api.services, owner));
    assert list[0..] == list;
    assert list == [] ==> ChildServices(api.services, owner) == {};
  }

  method Adjust(api: ServiceApi, owner: Owner, list: seq<Service>)
    requires api.Sound() && NameIsFree(api.services, owner)
    requires Shows(list, api.services, ChildServices(api.services, owner))
    modifies api`faults, api`services, api`writes, api`asked
    ensures api.Sound() && |ChildServices(api.services, owner)| == 1 && api.faults <= old(api.faults)
    ensures list != [] ==> ChildServices(api.services, owner) <= old(ChildServices(api.services, owner))
    ensures list == [] ==> IsThere(api.services, owner)
    ensures Others(api.services, owner) == old(Others(api.services, owner))
    ensures |list| == 1 ==> api.services == old(api.services) && api.writes == old(api.writes)
  {
    hide ChildServices, Others, Shows, IsChildService, ServiceName, NameIsFree, IsThere;
    var n := 1 - |list|;
    var count := 0;
    var rest := list;
    ghost var all := ChildServices(api.services, owner);
    ghost var others := Others(api.services, owner);
    StartOfLoop(api, owner, list);
    while count != n
      invariant Underway(api, owner, list, rest, n, count) && Others(api.services, owner) == others
      invariant n > 0 && count == 0 ==> ServiceName(owner) !in api.services
      invariant n <= 0 ==> ChildServices(api.services, owner) <= all
      invariant n == 0 ==> api.services == old(api.services) && api.writes == old(api.writes)
      invariant n > 0 && count == 1 ==> IsThere(api.services, owner)
      invariant api.faults <= old(api.faults)
      decreases if n < count then count - n else n - count, api.faults
    {
      count, rest := AdjustOnce(api, owner, n, count, rest, list);
    }
  }

  function Distance(n: int, count: int): nat {
    if n < count then count - n else n - count
  }

  ghost function Refusals(attempts: nat): seq<bool> {
    seq(attempts, _ => false)
  }

  /**
   * The same loop, cut off after a number of attempts. It comes to its end, if there are attempts
   * enough, exactly when there is a service or its name is free. Otherwise each attempt asks for a
   * creation and is refused, and the loop stands where it stood.
   */
  method AdjustWithin(api: ServiceApi, owner: Owner, list: seq<Service>, attempts: nat) returns (ended: bool)
    requires api.Sound() && Shows(list, api.services, ChildServices(api.services, owner))
    modifies api`faults, api`services, api`writes, api`asked
    ensures api.Sound() && Others(api.services, owner) == old(Others(api.services, owner))
    ensures ended <==> |ChildServices(api.services, owner)| == 1
    ensures old(NameIsFree(api.services, owner)) && attempts >= Distance(1 - |list|, 0) + old(api.faults) ==> ended
    ensures !old(NameIsFree(api.services, owner)) ==>
      && !ended && ChildServices(api.services, owner) == {}
      && api.services == old(api.services) && api.writes == old(api.writes)
      && api.asked == old(api.asked) + Refusals(attempts)
  {
    hide ChildServices, Others, Shows, IsChildService, ServiceName, NameIsFree;
    var n := 1 - |list|;
    var count := 0;
    var rest := list;
    ghost var others, free := Others(api.services, owner), NameIsFree(api.services, owner);
    StartOfLoop(api, owner, list);
    var i := 0;
    while count != n && i < attempts
      invariant i <= attempts
      invariant Underway(api, owner, list, rest, n, count) && Others(api.services, owner) == others
      invariant n > 0 && count == 0 && free ==> ServiceName(owner) !in api.services
      invariant free ==> Distance(n, count) + api.faults + i <= Distance(n, 0) + old(api.faults)
      invariant !free ==>
        n == 1 && count == 0 && api.services == old(api.services) && api.writes == old(api.writes)
        && api.asked == old(api.asked) + Refusals(i)
    {
      ghost var asked := api.asked;
      count, rest := AdjustOnce(api, owner, n, count, rest, list);
      assert Refusals(i + 1) == Refusals(i) + [false];
      i := i + 1;
    }
    ended := count == n;
    if !free {
      NoneLeft(ChildServices(api.services, owner));
    }
  }

  lemma NoneLeft(names: set<string>)
    requires |names| == 0
    ensures names == {}
  {
  }

  method CreateChild(api: ServiceApi, owner: Owner) returns (ok: bool)
    requires api.Sound()
    modifies api`faults, api`services, api`writes, api`asked
    ensures api.Sound() && Others(api.services, owner) == old(Others(api.services, owner))
    ensures api.asked == old(api.asked) + [ok] && api.faults <= old(api.faults)
    ensures ok ==> |ChildServices(api.services, owner)| == |old(ChildServices(api.services, owner))| + 1
    ensures ok ==> ServiceName(owner) !in old(api.services)
    ensures !ok ==> api.services == old(api.services) && api.writes == old(api.writes)
    ensures !ok ==> ServiceName(owner) in api.services || api.faults < old(api.faults)
    ensures ok ==> IsThere(api.services, owner)
  {
    hide ChildServices, Others;
    ghost var services := api.services;
    ghost var made;
    ok, made := api.Create(owner);
    if ok {
      ChildAdded(services, made, owner);
    }
  }

  method DeleteChild(api: ServiceApi, owner: Owner, rest: seq<Service>) returns (ok: bool)
    requires api.Sound() && rest != [] && Shows(rest, api.services, ChildServices(api.services, owner))
    modifies api`faults, api`services, api`writes
    ensures api.Sound() && Others(api.services, owner) == old(Others(api.services, owner))
    ensures ok ==> Shows(rest[1..], api.services, ChildServices(api.services, owner))
    ensures ok ==> |ChildServices(api.services, owner)| == |old(ChildServices(api.services, owner))| - 1
    ensures ok ==> ChildServices(api.services, owner) <= old(ChildServices(api.services, owner))
    ensures !ok ==> api.services == old(api.services) && api.faults < old(api.faults)
    ensures ok ==> api.faults <= old(api.faults)
  {
    hide ChildServices, Others;
    ghost var services := api.services;
    ok := api.Delete(rest[0].name);
    if ok {
      ChildRemoved(services, rest[0].name, owner);
      ShowsRest(rest, services, ChildServices(services, owner));
    }
  }
}
