/** Sorting pods by age, in place. */
module PodSort {

  /** A pod as far as the controller looks at it. */
  datatype Pod = Pod(
    name: string, created: int, labelled: bool, ownerName: string, ownerUid: string,
    deleting: bool, running: bool, ip: string)

  ghost predicate Sorted(s: seq<Pod>) {
    forall i, j :: 0 <= i < j < |s| ==> s[i].created <= s[j].created
  }

  /** The pods of one creation time, in their order. */
  ghost function OfTime(s: seq<Pod>, time: int): seq<Pod> {
    if s == [] then []
    else OfTime(s[..|s| - 1], time) + if s[|s| - 1].created == time then [s[|s| - 1]] else []
  }

  /** Pods of the same creation time keep their order; in particular none is lost or added. */
  ghost predicate SameOrder(a: seq<Pod>, b: seq<Pod>) {
    forall time :: OfTime(a, time) == OfTime(b, time)
  }

  lemma {:induction false} OfTimeConcat(a: seq<Pod>, b: seq<Pod>, time: int)
    ensures OfTime(a + b, time) == OfTime(a, time) + OfTime(b, time)
    decreases |b|
  {
    if b == [] {
      assert a + b == a;
    } else {
      assert (a + b)[..|a + b| - 1] == a + b[..|b| - 1];
      OfTimeConcat(a, b[..|b| - 1], time);
    }
  }

  function Swapped(s: seq<Pod>, j: nat): seq<Pod>
    requires j + 1 < |s|
  {
    s[..j] + [s[j + 1], s[j]] + s[j + 2..]
  }

  /** Swapping neighbours of different age keeps the order among pods of the same age. */
  lemma SwapKeepsOrder(s: seq<Pod>, j: nat)
    requires j + 1 < |s| && s[j].created != s[j + 1].created
    ensures SameOrder(s, Swapped(s, j))
  {
    var x, y := s[j], s[j + 1];
    assert s == s[..j] + [x, y] + s[j + 2..];
    forall time
      ensures OfTime(s, time) == OfTime(Swapped(s, j), time)
    {
      OfTimeConcat(s[..j] + [x, y], s[j + 2..], time);
      OfTimeConcat(s[..j] + [y, x], s[j + 2..], time);
      OfTimeConcat(s[..j], [x, y], time);
      OfTimeConcat(s[..j], [y, x], time);
      OfTimePair(x, y, time);
      OfTimePair(y, x, time);
    }
  }

  lemma OfTimePair(x: Pod, y: Pod, time: int)
    ensures OfTime([x, y], time) == (if x.created == time then [x] else []) + if y.created == time then [y] else []
  {
    assert [x, y][..1] == [x] && [x][..0] == [];
    assert OfTime([x], time) == OfTime([], time) + if x.created == time then [x] else [];
  }

  /** The largest have gone to the end: what is left of `m` is not younger than what is right. */
  ghost predicate SettledFrom(s: seq<Pod>, m: int) {
    forall i, j :: 0 <= i < j < |s| && m <= j ==> s[i].created <= s[j].created
  }

  /** The pass has carried the youngest of the first pods to place `j`. */
  ghost predicate Carried(s: seq<Pod>, j: int, m: int) {
    SettledFrom(s, m) && forall i :: 0 <= i <= j < |s| ==> s[i].created <= s[j].created
  }

  lemma CarryOn(s: seq<Pod>, j: nat, m: nat)
    requires j + 1 < m <= |s| && Carried(s, j, m)
    ensures s[j].created <= s[j + 1].created ==> Carried(s, j + 1, m)
    ensures s[j].created > s[j + 1].created ==> Carried(Swapped(s, j), j + 1, m)
  {
    if s[j].created > s[j + 1].created {
      var t := Swapped(s, j);
      forall a, b | 0 <= a < b < |t| && m <= b
        ensures t[a].created <= t[b].created
      {
        assert t[b] == s[b];
        var c := if a == j then j + 1 else if a == j + 1 then j else a;
        assert t[a] == s[c];
      }
    }
  }

  /** Compares two neighbours, and swaps them when the first is the younger one. */
  method CompareAndSwap(podList: array<Pod>, j: nat, ghost m: nat)
    requires j + 1 < m <= podList.Length && Carried(podList[..], j, m)
    modifies podList
    ensures Carried(podList[..], j + 1, m) && SameOrder(old(podList[..]), podList[..])
  {
    hide Carried, SameOrder;
    ghost var before := podList[..];
    CarryOn(before, j, m);
    assert SameOrder(before, before) by { SameOrderSelf(before); }
    if podList[j].created > podList[j + 1].created {
      SwapKeepsOrder(before, j);
      podList[j], podList[j + 1] := podList[j + 1], podList[j];
      assert podList[..] == Swapped(before, j);
    }
  }

  lemma SameOrderSelf(s: seq<Pod>)
    ensures SameOrder(s, s)
  {
  }

  lemma SameOrderOn(a: seq<Pod>, b: seq<Pod>, c: seq<Pod>)
    requires SameOrder(a, b) && SameOrder(b, c)
    ensures SameOrder(a, c)
  {
  }

  /** One pass: the youngest of the first `m` goes to place `m - 1`. */
  method BubblePass(podList: array<Pod>, m: nat)
    requires 0 < m <= podList.Length && SettledFrom(podList[..], m)
    modifies podList
    ensures SettledFrom(podList[..], m - 1) && SameOrder(old(podList[..]), podList[..])
  {
    hide SameOrder;
    SameOrderSelf(podList[..]);
    var j := 0;
    while j < m - 1
      invariant 0 <= j <= m - 1 && Carried(podList[..], j, m)
      invariant SameOrder(old(podList[..]), podList[..])
    {
      ghost var before := podList[..];
      CompareAndSwap(podList, j, m);
      SameOrderOn(old(podList[..]), before, podList[..]);
      j := j + 1;
    }
  }

  method SortPodList(podList: array<Pod>)
    modifies podList
    ensures Sorted(podList[..]) && SameOrder(old(podList[..]), podList[..])
  {
    var l := podList.Length;
    var i := 0;
    while i < l - 1
      invariant 0 <= i && (i <= l - 1 || l == 0)
      invariant SettledFrom(podList[..], l - i)
      invariant SameOrder(old(podList[..]), podList[..])
    {
      BubblePass(podList, l - i);
      i := i + 1;
    }
  }

  // ---- The result is the only one, and a permutation

  lemma {:induction false} OfTimeCounts(s: seq<Pod>, p: Pod)
    ensures multiset(OfTime(s, p.created))[p] == multiset(s)[p]
  {
    if s != [] {
      OfTimeCounts(s[..|s| - 1], p);
      assert s == s[..|s| - 1] + [s[|s| - 1]];
    }
  }

  lemma SameOrderIsPermutation(a: seq<Pod>, b: seq<Pod>)
    requires SameOrder(a, b)
    ensures multiset(a) == multiset(b) && |a| == |b|
  {
    forall p
      ensures multiset(a)[p] == multiset(b)[p]
    {
      OfTimeCounts(a, p);
      OfTimeCounts(b, p);
      assert OfTime(a, p.created) == OfTime(b, p.created);
    }
    assert |multiset(a)| == |a| && |multiset(b)| == |b|;
  }

  lemma OfTimeLast(s: seq<Pod>, time: int)
    requires s != []
    ensures var last := s[|s| - 1];
            OfTime(s, time) == OfTime(s[..|s| - 1], time) + if last.created == time then [last] else []
  {
  }

  lemma LastIsLast(s: seq<Pod>, p: Pod)
    requires Sorted(s) && s != [] && p in s
    ensures p.created <= s[|s| - 1].created
  {
  }

  lemma SameLast(a: seq<Pod>, b: seq<Pod>)
    requires Sorted(a) && Sorted(b) && SameOrder(a, b) && a != []
    ensures b != [] && a[|a| - 1] == b[|b| - 1]
  {
    SameOrderIsPermutation(a, b);
    var x, y := a[|a| - 1], b[|b| - 1];
    assert x in multiset(a) && y in multiset(b);
    assert x in b && y in a;
    LastIsLast(a, y);
    LastIsLast(b, x);
    hide OfTime;
    var time := x.created;
    OfTimeLast(a, time);
    OfTimeLast(b, time);
    assert OfTime(a, time)[|OfTime(a, time)| - 1] == x;
    assert OfTime(b, time)[|OfTime(b, time)| - 1] == y;
  }

  /** Sorted by age and stable: there is one such list. */
  lemma {:induction false} StableSortIsUnique(a: seq<Pod>, b: seq<Pod>)
    requires Sorted(a) && Sorted(b) && SameOrder(a, b)
    ensures a == b
    decreases |a|
  {
    SameOrderIsPermutation(a, b);
    if a != [] {
      SameLast(a, b);
      var front, back := a[..|a| - 1], b[..|b| - 1];
      FrontsInOrder(a, b);
      StableSortIsUnique(front, back);
      assert a == front + [a[|a| - 1]] && b == back + [b[|b| - 1]];
    }
  }

  lemma FrontsInOrder(a: seq<Pod>, b: seq<Pod>)
    requires SameOrder(a, b) && a != [] && b != [] && a[|a| - 1] == b[|b| - 1]
    ensures SameOrder(a[..|a| - 1], b[..|b| - 1])
  {
    var front, back := a[..|a| - 1], b[..|b| - 1];
    forall time: int
      ensures OfTime(front, time) == OfTime(back, time)
    {
      FrontsOfTime(a, b, time);
    }
  }

  lemma FrontsOfTime(a: seq<Pod>, b: seq<Pod>, time: int)
    requires OfTime(a, time) == OfTime(b, time) && a != [] && b != [] && a[|a| - 1] == b[|b| - 1]
    ensures OfTime(a[..|a| - 1], time) == OfTime(b[..|b| - 1], time)
  {
    hide OfTime;
    var x := a[|a| - 1];
    OfTimeLast(a, time);
    OfTimeLast(b, time);
    var u, v := OfTime(a[..|a| - 1], time), OfTime(b[..|b| - 1], time);
    var more := if x.created == time then [x] else [];
    assert u + more == v + more;
    assert u == (u + more)[..|u|] && v == (v + more)[..|v|];
  }
}
