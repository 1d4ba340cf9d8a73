/**
 * Which pods the controller takes for the children of a storage location: those that the list
 * shows and that it does not remember to have deleted.
 */
module ChildPods {
  import opened PodSort
  import opened PodCluster
  import opened Lru

  /** The size of the cache of deleted pods. */
  const ROOM: nat := 1000

  /** The deleted pods that the list still shows. */
  function Outstanding(h: seq<Happening>, c: nat): set<string>
    requires c <= |h|
  {
    View(h[..c]).Keys * KilledNames(h)
  }

  /** What the cache and the list owe each other. */
  ghost predicate Masks(h: seq<Happening>, c: nat, entries: seq<string>) {
    c <= |h|
    && KilledNames(h) <= Names(h[..c])
    && Leads(Outstanding(h, c), entries)
    && Set(entries) <= KilledNames(h)
    && |entries| <= ROOM
  }

  function Chosen(h: seq<Happening>, c: nat, owner: Owner): set<string>
    requires c <= |h|
  {
    Live(h[..c], owner) - KilledNames(h)
  }

  /** Who is taken for a child: the list shows the pod as a pod of the owner, and no deletion was asked for. */
  lemma ChosenSays(h: seq<Happening>, c: nat, owner: Owner, name: string)
    requires c <= |h|
    ensures name in Chosen(h, c, owner) <==>
              && name in View(h[..c]) && name !in KilledNames(h)
              && var p := View(h[..c])[name];
                 p.labelled && p.ownerName == owner.name && p.ownerUid == owner.uid && !p.deleting
  {
  }

  /** Whatever the list shows, what it shows of deleted pods and of pods to delete fits in the cache. */
  predicate HasRoomFor(h: seq<Happening>, cursor: nat, owner: Owner, replicas: int) {
    forall c :: cursor <= c <= |h| ==> Fits(h, c, owner, replicas)
  }

  predicate Fits(h: seq<Happening>, c: nat, owner: Owner, replicas: int)
    requires c <= |h|
  {
    |Outstanding(h, c)| + Surplus(|Chosen(h, c, owner)|, replicas) <= ROOM
  }

  function Surplus(count: nat, replicas: int): nat {
    if replicas <= 0 then count else if count <= replicas then 0 else count - replicas
  }

  /** It is enough that the list never shows more pods than the cache has room for. */
  lemma RoomWhenFewAreVisible(h: seq<Happening>, cursor: nat, owner: Owner, replicas: int)
    requires forall c :: cursor <= c <= |h| ==> |View(h[..c]).Keys| <= 1000
    ensures HasRoomFor(h, cursor, owner, replicas)
  {
    forall c | cursor <= c <= |h|
      ensures Fits(h, c, owner, replicas)
    {
      var shown, dead, chosen := View(h[..c]).Keys, Outstanding(h, c), Chosen(h, c, owner);
      assert dead !! chosen && dead + chosen <= shown;
      assert shown == dead + chosen + (shown - dead - chosen);
    }
  }

  // ---- Lists that lag

  /** However far the list lags, the pods chosen from it are alive. */
  lemma ChosenAreAlive(h: seq<Happening>, c: nat, owner: Owner)
    requires Lawful(h) && c <= |h|
    ensures Chosen(h, c, owner) <= Live(h, owner)
    ensures c == |h| ==> Chosen(h, c, owner) == Live(h, owner)
  {
    forall name | name in Chosen(h, c, owner)
      ensures name in Live(h, owner)
    {
      SeenIsAlive(h[..c], h, name, owner);
    }
    if c == |h| {
      assert h[..c] == h;
      AllPlaced(h);
      forall name | name in Live(h, owner)
        ensures name in Chosen(h, c, owner)
      {
        assert Placed(h, name);
      }
    }
  }

  /** A later list shows no more deleted pods. */
  lemma OutstandingShrinks(h: seq<Happening>, c: nat, late: nat)
    requires Lawful(h) && c <= late <= |h| && KilledNames(h) <= Names(h[..c])
    ensures Outstanding(h, late) <= Outstanding(h, c)
    ensures KilledNames(h) <= Names(h[..late])
  {
    Grows(h[..late], h);
    assert h[..c] <= h[..late];
    Grows(h[..c], h[..late]);
    forall name | name in Outstanding(h, late)
      ensures name in Outstanding(h, c)
    {
      Later(h[..c], h[..late], name);
    }
  }

  function NameSeq(pods: seq<Pod>): seq<string> {
    seq(|pods|, i requires 0 <= i < |pods| => pods[i].name)
  }

  lemma NameSeqIs(pods: seq<Pod>)
    ensures Set(NameSeq(pods)) == NamesOf(pods)
  {
    forall p | p in pods
      ensures p.name in NameSeq(pods)
    {
      var i :| 0 <= i < |pods| && pods[i] == p;
      assert NameSeq(pods)[i] == p.name;
    }
  }

  /** The pass over a list finds every deleted pod in the cache, and prepares the cache for the next. */
  lemma PassMasks(h: seq<Happening>, c: nat, late: nat, entries: seq<string>, pods: seq<Pod>)
    requires Lawful(h) && Masks(h, c, entries) && c <= late <= |h|
    requires NamesOf(pods) == View(h[..late]).Keys
    ensures Masks(h, late, AllTouched(entries, NameSeq(pods)))
    ensures forall p :: p in pods ==> (p.name in entries <==> p.name in KilledNames(h))
  {
    hide View, Names, KilledNames, AllTouched, Leads;
    OutstandingShrinks(h, c, late);
    NameSeqIs(pods);
    PassLeads(Outstanding(h, c), entries, NameSeq(pods));
    LeadersAreThere(Outstanding(h, c), entries);
    forall p | p in pods
      ensures p.name in entries <==> p.name in KilledNames(h)
    {
      assert p.name in NamesOf(pods);
    }
    assert Set(NameSeq(pods)) * Set(entries) == Outstanding(h, late);
  }

  /** The pods of a list that pass. */
  function Kept(pods: seq<Pod>, hidden: seq<string>, owner: Owner): seq<Pod> {
    if pods == [] then []
    else
      var p := pods[|pods| - 1];
      Kept(pods[..|pods| - 1], hidden, owner) + if p.name !in hidden && IsChild(p, owner) then [p] else []
  }

  ghost function KeptNames(v: map<string, Pod>, names: set<string>, hidden: seq<string>, owner: Owner): set<string>
    requires names <= v.Keys
  {
    set name | name in names && name !in hidden && IsChild(v[name], owner)
  }

  lemma ListsLess(pods: seq<Pod>, v: map<string, Pod>, names: set<string>)
    requires Lists(pods, v, names) && pods != []
    ensures var last := pods[|pods| - 1].name;
            last in names && last in v && v[last] == pods[|pods| - 1]
            && Lists(pods[..|pods| - 1], v, names - {last})
  {
    var front, p := pods[..|pods| - 1], pods[|pods| - 1];
    assert pods == front + [p];
    NamesOfMore(front, p);
    assert p in pods;
    assert p.name !in NamesOf(front);
  }

  lemma NothingListed(v: map<string, Pod>, names: set<string>)
    requires Lists([], v, names)
    ensures names == {}
  {
  }

  lemma {:induction false} KeptLists(
      pods: seq<Pod>, v: map<string, Pod>, names: set<string>, hidden: seq<string>, owner: Owner)
    requires Lists(pods, v, names) && names <= v.Keys
    ensures Lists(Kept(pods, hidden, owner), v, KeptNames(v, names, hidden, owner))
    decreases |pods|
  {
    hide Lists;
    if pods == [] {
      NothingListed(v, names);
      ListsNone(v);
      assert KeptNames(v, names, hidden, owner) == {};
    } else {
      var front, p := pods[..|pods| - 1], pods[|pods| - 1];
      ListsLess(pods, v, names);
      KeptLists(front, v, names - {p.name}, hidden, owner);
      var kept := KeptNames(v, names - {p.name}, hidden, owner);
      if p.name !in hidden && IsChild(p, owner) {
        ListsMore(Kept(front, hidden, owner), v, kept, p.name);
        assert KeptNames(v, names, hidden, owner) == kept + {p.name};
      } else {
        assert KeptNames(v, names, hidden, owner) == kept;
        assert Kept(pods, hidden, owner) == Kept(front, hidden, owner);
      }
    }
  }

  /** What is in a list of the chosen pods. */
  lemma ListedSays(h: seq<Happening>, c: nat, owner: Owner, list: seq<Pod>)
    requires Lawful(h) && c <= |h| && Lists(list, View(h[..c]), Chosen(h, c, owner))
    ensures forall p :: p in list <==>
              && p.name in View(h[..c]) && View(h[..c])[p.name] == p
              && p.labelled && p.ownerName == owner.name && p.ownerUid == owner.uid && !p.deleting
              && p.name !in KilledNames(h)
  {
    hide Lawful, View, KilledNames;
    var v := View(h[..c]);
    forall p: Pod
      ensures p in list <==>
        && p.name in v && v[p.name] == p
        && p.labelled && p.ownerName == owner.name && p.ownerUid == owner.uid && !p.deleting
        && p.name !in KilledNames(h)
    {
      ChosenSays(h, c, owner, p.name);
      if p.name in Chosen(h, c, owner) {
        assert p.name in NamesOf(list);
      }
      if p in list {
        assert p.name in NamesOf(list);
      }
    }
  }

  // ---- Lists of the same pods

  lemma {:induction false} DistinctOnce(pods: seq<Pod>)
    requires DistinctNames(pods)
    ensures |NamesOf(pods)| == |pods|
    ensures forall p :: multiset(pods)[p] == if p in pods then 1 else 0
  {
    if pods != [] {
      var front, p := pods[..|pods| - 1], pods[|pods| - 1];
      assert pods == front + [p];
      DistinctOnce(front);
      NamesOfMore(front, p);
      assert p.name !in NamesOf(front);
      assert p !in front;
    }
  }

  lemma {:induction false} OnceDistinct(pods: seq<Pod>)
    requires |NamesOf(pods)| == |pods|
    ensures DistinctNames(pods)
  {
    if pods != [] {
      var front, p := pods[..|pods| - 1], pods[|pods| - 1];
      assert pods == front + [p];
      NamesOfMore(front, p);
      NamesAtMost(front);
      OnceDistinct(front);
      forall i | 0 <= i < |front|
        ensures pods[i].name != p.name
      {
        assert front[i] in front;
        assert front[i].name in NamesOf(front);
      }
    }
  }

  lemma {:induction false} NamesAtMost(pods: seq<Pod>)
    ensures |NamesOf(pods)| <= |pods|
  {
    if pods != [] {
      NamesAtMost(pods[..|pods| - 1]);
      NamesOfMore(pods[..|pods| - 1], pods[|pods| - 1]);
      assert pods == pods[..|pods| - 1] + [pods[|pods| - 1]];
    }
  }

  /** Sorting a list leaves a list of the same pods. */
  lemma ListsSorted(pods: seq<Pod>, sorted: seq<Pod>, v: map<string, Pod>, names: set<string>)
    requires Lists(pods, v, names) && SameOrder(pods, sorted)
    ensures Lists(sorted, v, names)
  {
    SameOrderIsPermutation(pods, sorted);
    forall p
      ensures p in pods <==> p in sorted
    {
      assert p in multiset(pods) <==> p in multiset(sorted);
    }
    assert NamesOf(pods) == NamesOf(sorted);
    DistinctOnce(pods);
    OnceDistinct(sorted);
  }

  lemma ListsOnce(a: seq<Pod>, b: seq<Pod>, v: map<string, Pod>, names: set<string>)
    requires Lists(a, v, names) && Lists(b, v, names)
    ensures multiset(a) == multiset(b)
  {
    DistinctOnce(a);
    DistinctOnce(b);
    forall p
      ensures p in a <==> p in b
    {
      if p in a {
        assert p.name in NamesOf(b);
      }
      if p in b {
        assert p.name in NamesOf(a);
      }
    }
  }

  lemma ListsCount(pods: seq<Pod>, v: map<string, Pod>, names: set<string>)
    requires Lists(pods, v, names)
    ensures |pods| == |names|
  {
    DistinctOnce(pods);
  }

  // ---- What a status says of a list

  function RunningIn(pods: seq<Pod>): nat {
    if pods == [] then 0
    else RunningIn(pods[..|pods| - 1]) + if pods[|pods| - 1].running then 1 else 0
  }

  function AddressesOf(pods: seq<Pod>): seq<string> {
    if pods == [] then [] else AddressesOf(pods[..|pods| - 1]) + [pods[|pods| - 1].ip]
  }

  lemma OneMoreRuns(pods: seq<Pod>)
    requires pods != []
    ensures var last := |pods| - 1; var front := pods[..last];
            |set i | 0 <= i < |pods| && pods[i].running|
            == |set i | 0 <= i < |front| && front[i].running| + if pods[last].running then 1 else 0
  {
    var last := |pods| - 1;
    var front := pods[..last];
    var before, all := set i | 0 <= i < |front| && front[i].running, set i | 0 <= i < |pods| && pods[i].running;
    assert all == before + if pods[last].running then {last} else {};
    assert last !in before;
  }

  /** The running ones are counted, and the addresses are one for each pod. */
  lemma {:induction false} StatusSays(pods: seq<Pod>)
    ensures RunningIn(pods) == |set i | 0 <= i < |pods| && pods[i].running|
    ensures AddressesOf(pods) == seq(|pods|, i requires 0 <= i < |pods| => pods[i].ip)
  {
    if pods != [] {
      var last := |pods| - 1;
      StatusSays(pods[..last]);
      OneMoreRuns(pods);
    }
  }

  lemma {:induction false} StatusConcat(a: seq<Pod>, b: seq<Pod>)
    ensures RunningIn(a + b) == RunningIn(a) + RunningIn(b)
    ensures AddressesOf(a + b) == AddressesOf(a) + AddressesOf(b)
    decreases |b|
  {
    if b == [] {
      assert a + b == a;
    } else {
      var front, last := b[..|b| - 1], b[|b| - 1];
      assert (a + b)[..|a + b| - 1] == a + front;
      StatusConcat(a, front);
    }
  }

  /** Moving a pod to the end changes nothing. */
  lemma MoveToEnd(pods: seq<Pod>, k: nat)
    requires k < |pods|
    ensures var moved := pods[..k] + pods[k + 1..] + [pods[k]];
            multiset(pods) == multiset(moved)
            && RunningIn(pods) == RunningIn(moved)
            && multiset(AddressesOf(pods)) == multiset(AddressesOf(moved))
  {
    hide RunningIn, AddressesOf;
    var a, p, b := pods[..k], pods[k], pods[k + 1..];
    assert pods == a + ([p] + b);
    StatusConcat(a, [p] + b);
    StatusConcat([p], b);
    StatusConcat(a + b, [p]);
    StatusConcat(a, b);
  }

  lemma StatusOfMore(pods: seq<Pod>, p: Pod)
    ensures RunningIn(pods + [p]) == RunningIn(pods) + (if p.running then 1 else 0)
    ensures AddressesOf(pods + [p]) == AddressesOf(pods) + [p.ip]
  {
    assert (pods + [p])[..|pods|] == pods;
  }

  /** A status does not depend on the order of the list. */
  lemma {:induction false} SameStatus(a: seq<Pod>, b: seq<Pod>)
    requires multiset(a) == multiset(b)
    ensures RunningIn(a) == RunningIn(b) && multiset(AddressesOf(a)) == multiset(AddressesOf(b))
    decreases |a|
  {
    hide RunningIn, AddressesOf;
    assert |multiset(a)| == |a| && |multiset(b)| == |b|;
    if a != [] {
      var front, last := a[..|a| - 1], a[|a| - 1];
      assert a == front + [last];
      assert last in multiset(b);
      var k :| 0 <= k < |b| && b[k] == last;
      MoveToEnd(b, k);
      var rest := b[..k] + b[k + 1..];
      assert multiset(front) == multiset(a) - multiset{last};
      assert multiset(rest) == multiset(rest + [last]) - multiset{last};
      SameStatus(front, rest);
      StatusOfMore(front, last);
      StatusOfMore(rest, last);
    }
  }
}
