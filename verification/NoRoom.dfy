/**
 * What the room in the cache is needed for: runs in which it is exceeded by one, and a location that
 * then loses its only pod.
 *
 * The list shows the same pods all the time: two of one location, of the same age, and as many of
 * another as the cache has room for. First one of the two is deleted, because one is wanted; then all
 * pods of the other location, because none is; and that pushes the first deletion out of the cache.
 * To the next run the deleted pod looks alive, and so the other one is deleted as well.
 */
module NoRoom {
  import opened PodSort
  import opened PodCluster
  import opened Lru
  import opened ChildPods
  import opened Reconciler

  /** The pods that there are: `dead` goes first, `last` is the one that should stay. */
  datatype Setting = Setting(dead: Pod, last: Pod, one: Owner, fillers: seq<Pod>, other: Owner)

  /** What the list shows, all the time, in the order that it happens to have first. */
  function Shown(w: Setting): seq<Pod> {
    [w.dead, w.last] + w.fillers
  }

  /** And in the order that it happens to have in the end. */
  function ShownLater(w: Setting): seq<Pod> {
    [w.last, w.dead] + w.fillers
  }

  ghost predicate Sets(w: Setting) {
    && DistinctNames(Shown(w))
    && |w.fillers| == 1000
    && (forall p :: p in w.fillers ==> IsChild(p, w.other))
    && IsChild(w.dead, w.one) && IsChild(w.last, w.one) && w.dead.created == w.last.created
    && w.one != w.other
  }

  // ---- Histories made of creations and deletions

  function Creations(pods: seq<Pod>): seq<Happening> {
    seq(|pods|, i requires 0 <= i < |pods| => Created(pods[i]))
  }

  function Killings(names: seq<string>): seq<Happening> {
    seq(|names|, i requires 0 <= i < |names| => Killed(names[i]))
  }

  lemma {:induction false} CreatedAre(pods: seq<Pod>)
    requires DistinctNames(pods) && forall p :: p in pods ==> !p.deleting
    ensures Lawful(Creations(pods)) && Names(Creations(pods)) == NamesOf(pods)
    ensures KilledNames(Creations(pods)) == {}
    ensures Lists(pods, View(Creations(pods)), View(Creations(pods)).Keys)
  {
    if pods == [] {
    } else {
      var front, p := pods[..|pods| - 1], pods[|pods| - 1];
      assert pods == front + [p];
      CreatedAre(front);
      assert Creations(pods) == Creations(front) + [Created(p)];
      OneMore(Creations(front), Created(p));
      NamesOfMore(front, p);
      assert p.name !in NamesOf(front);
      CreatedOneMore(front, p);
    }
  }

  lemma CreatedOneMore(front: seq<Pod>, p: Pod)
    requires DistinctNames(front + [p]) && p.name !in NamesOf(front)
    requires Lists(front, View(Creations(front)), View(Creations(front)).Keys)
    ensures var v := View(Creations(front) + [Created(p)]);
            Lists(front + [p], v, v.Keys)
  {
    var h := Creations(front);
    assert (h + [Created(p)])[..|h|] == h;
    var v := View(h + [Created(p)]);
    assert v == View(h)[p.name := p];
    NamesOfMore(front, p);
    forall x | x in front + [p]
      ensures x.name in v && v[x.name] == x
    {
      if x in front {
        assert x.name in NamesOf(front);
      }
    }
  }

  /** Deleting pods that are there, and that carry the label, takes them from the live children. */
  lemma {:induction false} KilledAre(h: seq<Happening>, names: seq<string>, owner: Owner)
    requires Lawful(h) && forall n :: n in names ==> n in View(h) && View(h)[n].labelled
    ensures var late := h + Killings(names);
            && Lawful(late) && KilledNames(late) == KilledNames(h) + Set(names)
            && View(late).Keys == View(h).Keys
            && (forall n :: n in View(h) ==> View(late)[n].labelled == View(h)[n].labelled)
            && Live(late, owner) == Live(h, owner) - Set(names)
  {
    if names == [] {
      assert h + Killings(names) == h;
    } else {
      var front, n := names[..|names| - 1], names[|names| - 1];
      assert names == front + [n];
      KilledAre(h, front, owner);
      SetIs(names);
      SetIs(front);
      hide Lawful, KilledNames, View, Live, Set;
      assert Set(names) == Set(front) + {n};
      var middle := h + Killings(front);
      KillingsMore(h, front, n);
      KilledOneMore(middle, n, owner);
    }
  }

  lemma KillingsMore(h: seq<Happening>, front: seq<string>, n: string)
    ensures h + Killings(front + [n]) == h + Killings(front) + [Killed(n)]
  {
  }

  lemma KilledOneMore(h: seq<Happening>, n: string, owner: Owner)
    requires Lawful(h) && n in View(h) && View(h)[n].labelled
    ensures var late := h + [Killed(n)];
            && Lawful(late) && KilledNames(late) == KilledNames(h) + {n}
            && View(late).Keys == View(h).Keys
            && (forall m :: m in View(h) ==> View(late)[m].labelled == View(h)[m].labelled)
            && Live(late, owner) == Live(h, owner) - {n}
  {
    OneMore(h, Killed(n));
    ChildDies(h, n);
    assert (h + [Killed(n)])[..|h|] == h;
  }

  // ---- The names

  lemma NamesOfParts(a: seq<Pod>, b: seq<Pod>)
    ensures NamesOf(a + b) == NamesOf(a) + NamesOf(b)
  {
  }

  lemma NamesApart(w: Setting)
    requires Sets(w)
    ensures var names := NameSeq(w.fillers);
            && Distinct(names) && |names| == ROOM && Set(names) == NamesOf(w.fillers)
            && w.dead.name !in names && w.last.name !in names && w.dead.name != w.last.name
  {
    var names, shown := NameSeq(w.fillers), Shown(w);
    NameSeqIs(w.fillers);
    assert shown[0] == w.dead && shown[1] == w.last;
    assert forall i :: 0 <= i < |names| ==> names[i] == shown[i + 2].name;
  }

  lemma OwnersApart(w: Setting)
    requires Sets(w)
    ensures w.one.name != w.other.name || w.one.uid != w.other.uid
  {
    assert w.one == Owner(w.one.name, w.one.uid) && w.other == Owner(w.other.name, w.other.uid);
  }

  /** Of the pods shown, two belong to the one location and the others to the other. */
  lemma WhoIsShown(w: Setting, p: Pod)
    requires Sets(w) && p in Shown(w)
    ensures IsChild(p, w.one) <==> p.name in {w.last.name, w.dead.name}
    ensures IsChild(p, w.other) <==> p.name in NamesOf(w.fillers)
    ensures !p.deleting && p.labelled
  {
    NamesApart(w);
    OwnersApart(w);
    assert p in [w.dead, w.last] || p in w.fillers;
    assert forall n :: n in NamesOf(w.fillers) <==> n in Set(NameSeq(w.fillers));
    assert p in w.fillers ==> p.name in NamesOf(w.fillers);
  }

  lemma ListsSwapped(x: Pod, y: Pod, rest: seq<Pod>, v: map<string, Pod>, names: set<string>)
    requires Lists([x, y] + rest, v, names)
    ensures Lists([y, x] + rest, v, names)
  {
    var a, b := [x, y] + rest, [y, x] + rest;
    assert forall p :: p in a <==> p in b;
    assert NamesOf(a) == NamesOf(b);
    forall i, j | 0 <= i < j < |b|
      ensures b[i].name != b[j].name
    {
      var k, l := if i < 2 then 1 - i else i, if j < 2 then 1 - j else j;
      assert b[i] == a[k] && b[j] == a[l];
    }
  }

  // ---- The cache

  /** A list is looked through, names are deleted one by one, and the list is looked through again. */
  function AfterRun(s: seq<string>, shown: seq<string>, deleted: seq<string>): seq<string> {
    AllTouched(AllAdded(AllTouched(s, shown), deleted), shown)
  }

  function AllAdded(s: seq<string>, names: seq<string>): seq<string> {
    if names == [] then s else Put(AllAdded(s, names[..|names| - 1]), names[|names| - 1], ROOM)
  }

  lemma {:induction false} AddedLead(s: seq<string>, names: seq<string>)
    requires Distinct(s) && |s| <= ROOM && Distinct(names) && |names| <= ROOM
    ensures Leads(Set(names), AllAdded(s, names)) && |AllAdded(s, names)| <= ROOM
  {
    if names == [] {
      assert Set(names) == {};
    } else {
      var front, n := names[..|names| - 1], names[|names| - 1];
      AddedLead(s, front);
      assert names == front + [n];
      assert Set(names) == Set(front) + {n};
      SetCount(names);
      PutLeads(Set(front), AllAdded(s, front), n, ROOM);
    }
  }

  lemma {:induction false} SetCount(names: seq<string>)
    ensures |Set(names)| <= |names|
  {
    if names != [] {
      var front, n := names[..|names| - 1], names[|names| - 1];
      SetCount(front);
      assert names == front + [n];
      assert Set(names) == Set(front) + {n};
    }
  }

  lemma {:induction false} DistinctSet(names: seq<string>)
    requires Distinct(names)
    ensures |Set(names)| == |names|
  {
    if names != [] {
      var front, n := names[..|names| - 1], names[|names| - 1];
      DistinctSet(front);
      assert names == front + [n];
      assert Set(names) == Set(front) + {n} && n !in Set(front);
    }
  }

  /** As many names as there is room for push out all others. */
  lemma FullOf(s: seq<string>, names: seq<string>, other: string)
    requires Distinct(s) && |s| <= ROOM && Distinct(names) && |names| == ROOM && other !in names
    ensures other !in AllAdded(s, names) && Set(AllAdded(s, names)) == Set(names)
  {
    AddedLead(s, names);
    var t := AllAdded(s, names);
    LeadersAreThere(Set(names), t);
    assert Distinct(t);
    hide *;
    SetIs(t);
    SetIs(names);
    DistinctSet(names);
    DistinctSet(t);
    SubsetOfSameSize(Set(names), Set(t));
  }

  lemma SubsetOfSameSize(a: set<string>, b: set<string>)
    requires a <= b && |b| <= |a|
    ensures a == b
  {
    var rest := b - a;
    assert b == a + rest;
    assert |rest| == 0;
  }

  lemma RunKeeps(s: seq<string>, shown: seq<string>, deleted: seq<string>)
    requires Distinct(s) && |s| <= ROOM && Distinct(deleted) && |deleted| <= ROOM
    ensures var t := AfterRun(s, shown, deleted); Distinct(t) && |t| <= ROOM
    ensures Set(AfterRun(s, shown, deleted)) == Set(AllAdded(AllTouched(s, shown), deleted))
    ensures Distinct(AllTouched(s, shown)) && |AllTouched(s, shown)| <= ROOM
  {
    assert Leads({}, s);
    PassLeads({}, s, shown);
    var t := AllTouched(s, shown);
    AddedLead(t, deleted);
    assert Leads({}, AllAdded(t, deleted));
    PassLeads({}, AllAdded(t, deleted), shown);
  }

  // ---- What the controller takes for children

  lemma {:induction false} KeptOfFillers(
      front: seq<Pod>, fillers: seq<Pod>, hidden: seq<string>, owner: Owner, yes: bool)
    requires forall p :: p in fillers ==> (yes <==> p.name !in hidden && IsChild(p, owner))
    ensures Kept(front + fillers, hidden, owner) == Kept(front, hidden, owner) + if yes then fillers else []
  {
    if fillers == [] {
      assert front + fillers == front;
    } else {
      var less, p := fillers[..|fillers| - 1], fillers[|fillers| - 1];
      assert fillers == less + [p];
      KeptOfFillers(front, less, hidden, owner, yes);
      assert (front + fillers)[..|front + fillers| - 1] == front + less;
    }
  }

  lemma KeptOfTwo(x: Pod, y: Pod, hidden: seq<string>, owner: Owner)
    ensures Kept([x, y], hidden, owner) ==
            (if x.name !in hidden && IsChild(x, owner) then [x] else [])
            + (if y.name !in hidden && IsChild(y, owner) then [y] else [])
  {
    assert [x, y][..1] == [x] && [x][..0] == [];
    assert Kept([x], hidden, owner) == if x.name !in hidden && IsChild(x, owner) then [x] else [];
  }

  lemma LiveAtFirst(w: Setting)
    requires Sets(w)
    ensures var h := Creations(Shown(w));
            && Lawful(h) && KilledNames(h) == {}
            && Lists(Shown(w), View(h), View(h).Keys) && Lists(ShownLater(w), View(h), View(h).Keys)
            && View(h).Keys == NamesOf(Shown(w))
            && (forall n :: n in View(h) ==> View(h)[n].labelled)
            && Live(h, w.one) == {w.last.name, w.dead.name} && Live(h, w.other) == NamesOf(w.fillers)
  {
    hide *;
    var pods, h := Shown(w), Creations(Shown(w));
    ShownIs(w);
    NamesOfParts([w.dead, w.last], w.fillers);
    NamesOfTwo(w.dead, w.last);
    forall p | p in pods
      ensures !p.deleting && p.labelled
      ensures IsChild(p, w.one) <==> p.name in {w.last.name, w.dead.name}
      ensures IsChild(p, w.other) <==> p.name in NamesOf(w.fillers)
    {
      WhoIsShown(w, p);
    }
    CreatedAre(pods);
    ListsSwapped(w.dead, w.last, w.fillers, View(h), View(h).Keys);
    LiveOfShown(pods, h, w.one, {w.last.name, w.dead.name});
    LiveOfShown(pods, h, w.other, NamesOf(w.fillers));
  }

  lemma ShownIs(w: Setting)
    requires Sets(w)
    ensures DistinctNames(Shown(w))
    ensures Shown(w) == [w.dead, w.last] + w.fillers && ShownLater(w) == [w.last, w.dead] + w.fillers
  {
  }

  lemma NamesOfTwo(x: Pod, y: Pod)
    ensures NamesOf([x, y]) == {y.name, x.name}
  {
    assert x in [x, y] && y in [x, y];
  }

  lemma LiveOfShown(pods: seq<Pod>, h: seq<Happening>, owner: Owner, names: set<string>)
    requires Lists(pods, View(h), View(h).Keys) && names <= NamesOf(pods)
    requires forall p :: p in pods ==> p.labelled && (IsChild(p, owner) <==> p.name in names)
    ensures Live(h, owner) == names && View(h).Keys == NamesOf(pods)
    ensures forall n :: n in View(h) ==> View(h)[n].labelled
  {
    hide View;
    forall n | n in View(h)
      ensures View(h)[n] in pods && View(h)[n].name == n
    {
      assert n in NamesOf(pods);
    }
  }

  // ---- The three runs

  /** The cache after the first run, which deletes one pod. */
  function CacheThen(w: Setting): seq<string> {
    AfterRun([], NameSeq(Shown(w)), [w.dead.name])
  }

  /** The cache after the second run, which deletes the fillers. */
  function CacheAtLast(w: Setting): seq<string> {
    AfterRun(CacheThen(w), NameSeq(Shown(w)), NameSeq(w.fillers))
  }

  lemma CacheIs(w: Setting)
    requires Sets(w)
    ensures Set(CacheThen(w)) == {w.dead.name}
    ensures Set(CacheAtLast(w)) == NamesOf(w.fillers)
  {
    NamesApart(w);
    var names := NameSeq(Shown(w));
    hide NameSeq, AllTouched;
    RunKeeps([], names, [w.dead.name]);
    NothingTouched(names);
    AddedToNone(w.dead.name);
    RunKeeps(CacheThen(w), names, NameSeq(w.fillers));
    FullOf(AllTouched(CacheThen(w), names), NameSeq(w.fillers), w.dead.name);
  }

  lemma AddedToNone(name: string)
    ensures AllAdded([], [name]) == [name]
  {
    assert [name][..0] == [];
  }

  /** Two live pods, one of them wanted, with nothing in the cache: there is room. */
  lemma RoomForOne(h: seq<Happening>, one: Owner, x: string, y: string)
    requires KilledNames(h) == {} && Live(h, one) == {x, y}
    ensures Fits(h, |h|, one, 1)
  {
    hide View, Live, KilledNames;
    assert h[..|h|] == h;
    assert Outstanding(h, |h|) == {} && Chosen(h, |h|, one) == {x, y};
    assert {x, y} == {x} + {y};
  }

  /** A deleted pod in the list, and as many to delete as there is room for: there is none. */
  lemma NoRoomForAll(h: seq<Happening>, dead: string, other: Owner, names: set<string>)
    requires KilledNames(h) == {} && dead in View(h) && Live(h, other) == names && dead !in names
    requires |names| == ROOM
    ensures !Fits(h + [Killed(dead)], |h|, other, 0)
  {
    hide View, Live;
    var late := h + [Killed(dead)];
    OneMore(h, Killed(dead));
    hide KilledNames;
    assert late[..|h|] == h;
    assert Outstanding(late, |h|) == {dead} && Chosen(late, |h|, other) == names;
  }

  /** The second run finds no room: the cache would have to hold one name more than it can. */
  lemma NoRoomInSecondRun(w: Setting)
    requires Sets(w)
    ensures var h := Creations(Shown(w));
            && Fits(h, |h|, w.one, 1)
            && !Fits(h + [Killed(w.dead.name)], |h|, w.other, 0)
  {
    LiveAtFirst(w);
    NamesApart(w);
    var names := NameSeq(w.fillers);
    DistinctSet(names);
    assert Set(names) == NamesOf(w.fillers) && w.dead.name !in Set(names);
    hide *;
    var h := Creations(Shown(w));
    assert w.dead.name in Live(h, w.one);
    LiveIsThere(h, w.one);
    RoomForOne(h, w.one, w.last.name, w.dead.name);
    NoRoomForAll(h, w.dead.name, w.other, NamesOf(w.fillers));
  }

  lemma LiveIsThere(h: seq<Happening>, owner: Owner)
    ensures forall n :: n in Live(h, owner) ==> n in View(h)
  {
  }

  lemma ListsOfRuns(w: Setting)
    requires Sets(w)
    ensures Kept(Shown(w), [], w.one) == [w.dead, w.last]
    ensures Kept(Shown(w), CacheThen(w), w.other) == w.fillers
    ensures Kept(ShownLater(w), CacheAtLast(w), w.one) == [w.last, w.dead]
  {
    NamesApart(w);
    CacheIs(w);
    hide CacheThen, CacheAtLast, Kept;
    KeptOfOne(w, w.dead, w.last, []);
    KeptOfOther(w, CacheThen(w));
    KeptOfOne(w, w.last, w.dead, CacheAtLast(w));
  }

  lemma KeptOfOne(w: Setting, x: Pod, y: Pod, hidden: seq<string>)
    requires Sets(w) && IsChild(x, w.one) && IsChild(y, w.one) && x.name !in Set(hidden) && y.name !in Set(hidden)
    ensures Kept([x, y] + w.fillers, hidden, w.one) == [x, y]
  {
    OwnersApart(w);
    hide Kept;
    KeptOfFillers([x, y], w.fillers, hidden, w.one, false);
    KeptOfTwo(x, y, hidden, w.one);
  }

  lemma KeptOfOther(w: Setting, hidden: seq<string>)
    requires Sets(w) && Set(hidden) == {w.dead.name}
    ensures Kept(Shown(w), hidden, w.other) == w.fillers
  {
    NamesApart(w);
    OwnersApart(w);
    hide Kept;
    forall p | p in w.fillers
      ensures p.name !in hidden
    {
      assert p.name in NamesOf(w.fillers);
      assert p.name !in Set(hidden);
    }
    KeptOfFillers([w.dead, w.last], w.fillers, hidden, w.other, true);
    KeptOfTwo(w.dead, w.last, hidden, w.other);
  }

  /**
   * Three runs by the rule of the controller. The last one takes a pod that it has deleted for a child,
   * deletes the only one that there is, and leaves none where one is wanted.
   */
  lemma RunsGoBelow(w: Setting)
    requires Sets(w)
    // the first run: two children, one is wanted
    ensures Kept(Shown(w), [], w.one) == [w.dead, w.last] && Surplus(2, 1) == 1
    // the second run: all children of the other location, none is wanted
    ensures Kept(Shown(w), CacheThen(w), w.other) == w.fillers && Surplus(ROOM, 0) == ROOM
    // the third run: both look alive, one is wanted, and the one listed first is deleted
    ensures Kept(ShownLater(w), CacheAtLast(w), w.one) == [w.last, w.dead] && Sorted([w.last, w.dead])
    ensures var h := Creations(Shown(w));
            var before := h + [Killed(w.dead.name)] + Killings(NameSeq(w.fillers));
            var after := before + [Killed(w.last.name)];
            && Lists(Shown(w), View(h), View(h).Keys) && Lists(ShownLater(w), View(h), View(h).Keys)
            && Lawful(after) && KilledNames(before) == {w.dead.name} + NamesOf(w.fillers)
            && Live(before, w.one) == {w.last.name} && Live(after, w.one) == {} && Wanted(1) == 1
  {
    hide *;
    ListsOfRuns(w);
    LiveAtFirst(w);
    NamesApart(w);
    RuleSays(w);
    SetIs(NameSeq(w.fillers));
    var h := Creations(Shown(w));
    assert View(h).Keys == NamesOf(Shown(w));
    DeletionsEmpty(h, NameSeq(w.fillers), w.one, w.dead.name, w.last.name);
  }

  lemma RuleSays(w: Setting)
    requires Sets(w)
    ensures Surplus(2, 1) == 1 && Surplus(ROOM, 0) == ROOM && Wanted(1) == 1 && Sorted([w.last, w.dead])
    ensures NamesOf(w.fillers) <= NamesOf(Shown(w))
  {
  }

  lemma DeletionsEmpty(h: seq<Happening>, names: seq<string>, one: Owner, x: string, y: string)
    requires Lawful(h) && KilledNames(h) == {} && Live(h, one) == {y, x} && x != y && x !in names && y !in names
    requires (forall n :: n in names ==> n in View(h)) && forall n :: n in View(h) ==> View(h)[n].labelled
    ensures var before := h + [Killed(x)] + Killings(names);
            var after := before + [Killed(y)];
            && Lawful(after) && KilledNames(before) == {x} + Set(names)
            && Live(before, one) == {y} && Live(after, one) == {}
  {
    LiveIsThere(h, one);
    SetIs(names);
    hide *;
    assert x in Live(h, one) && y in Live(h, one);
    KilledOneMore(h, x, one);
    KilledAre(h + [Killed(x)], names, one);
    KilledOneMore(h + [Killed(x)] + Killings(names), y, one);
  }

  lemma SetIs(names: seq<string>)
    ensures forall n :: n in Set(names) <==> n in names
  {
  }

  // ---- There are such pods

  /** No two fillers have names of one length, and each name is longer than those of the other two. */
  function Fillers(count: nat): seq<Pod> {
    seq(count, i requires 0 <= i < count => ChildOf(Owner("other", "2"), seq(i + 5, _ => 'f')))
  }

  function ChildOf(owner: Owner, name: string): Pod {
    Pod(name, 0, true, owner.name, owner.uid, false, true, "")
  }

  function Example(): Setting {
    var one := Owner("one", "1");
    Setting(ChildOf(one, "dead"), ChildOf(one, "last"), one, Fillers(ROOM), Owner("other", "2"))
  }

  lemma ExampleSets()
    ensures Sets(Example())
  {
    var w := Example();
    var pods := Shown(w);
    assert "last"[0] != "dead"[0] && |w.one.name| != |w.other.name|;
    FillersAre(ROOM);
    hide Fillers;
    forall i, j | 0 <= i < j < |pods|
      ensures pods[i].name != pods[j].name
    {
      assert j >= 2 ==> pods[j] == w.fillers[j - 2] && |pods[j].name| == j + 3;
      assert i >= 2 ==> pods[i] == w.fillers[i - 2] && |pods[i].name| == i + 3;
    }
  }

  lemma FillersAre(count: nat)
    ensures |Fillers(count)| == count && forall p :: p in Fillers(count) ==> IsChild(p, Owner("other", "2"))
    ensures forall i :: 0 <= i < count ==> |Fillers(count)[i].name| == i + 5
  {
  }
}
