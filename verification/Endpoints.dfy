/** Sorted lists of addresses, as a status reports them. */
module Endpoints {

  /** The order of strings by their characters. */
  predicate Before(a: string, b: string) {
    a == [] || (b != [] && (a[0] < b[0] || (a[0] == b[0] && Before(a[1..], b[1..]))))
  }

  lemma {:induction false} Total(a: string, b: string)
    ensures Before(a, b) || Before(b, a)
    ensures Before(a, b) && Before(b, a) ==> a == b
  {
    if a != [] && b != [] {
      Total(a[1..], b[1..]);
      assert a == [a[0]] + a[1..] && b == [b[0]] + b[1..];
    }
  }

  lemma {:induction false} Transitive(a: string, b: string, c: string)
    requires Before(a, b) && Before(b, c)
    ensures Before(a, c)
  {
    if a != [] && a[0] == b[0] == c[0] {
      Transitive(a[1..], b[1..], c[1..]);
    }
  }

  /** A prefix comes first; otherwise the first place where the two differ decides. */
  lemma {:induction false} BeforeIs(a: string, b: string)
    ensures Before(a, b) <==> a <= b || exists k :: 0 <= k < |a| && k < |b| && a[..k] == b[..k] && a[k] < b[k]
  {
    if a != [] && b != [] {
      BeforeIs(a[1..], b[1..]);
      assert a == [a[0]] + a[1..] && b == [b[0]] + b[1..];
      if a[0] == b[0] {
        FirstDifference(a, b);
      } else if a[0] < b[0] {
        assert a[..0] == b[..0];
      }
    }
  }

  /** An equal first character puts the first difference one place further on. */
  lemma FirstDifference(a: string, b: string)
    requires a != [] && b != [] && a[0] == b[0]
    ensures a <= b <==> a[1..] <= b[1..]
    ensures (exists k :: 0 <= k < |a| && k < |b| && a[..k] == b[..k] && a[k] < b[k])
       <==> exists k :: 0 <= k < |a[1..]| && k < |b[1..]| && a[1..][..k] == b[1..][..k] && a[1..][k] < b[1..][k]
  {
    var x, y := a[1..], b[1..];
    assert a == [a[0]] + x && b == [b[0]] + y;
    if k :| 0 <= k < |a| && k < |b| && a[..k] == b[..k] && a[k] < b[k] {
      assert k > 0;
      assert x[..k - 1] == a[..k][1..] == b[..k][1..] == y[..k - 1];
      assert x[k - 1] < y[k - 1];
    }
    if k :| 0 <= k < |x| && k < |y| && x[..k] == y[..k] && x[k] < y[k] {
      assert a[..k + 1] == [a[0]] + x[..k] && b[..k + 1] == [b[0]] + y[..k];
      assert a[k + 1] < b[k + 1];
    }
  }

  ghost predicate Ordered(s: seq<string>) {
    forall i, j :: 0 <= i < j < |s| ==> Before(s[i], s[j])
  }

  function Inserted(x: string, s: seq<string>): seq<string> {
    if s == [] || Before(x, s[0]) then [x] + s else [s[0]] + Inserted(x, s[1..])
  }

  function SortStrings(s: seq<string>): seq<string> {
    if s == [] then [] else Inserted(s[0], SortStrings(s[1..]))
  }

  lemma BeforeAll(x: string, s: seq<string>)
    requires Ordered(s) && s != [] && Before(x, s[0])
    ensures Ordered([x] + s)
  {
    hide Before;
    forall j | 0 < j < |s|
      ensures Before(x, s[j])
    {
      Transitive(x, s[0], s[j]);
    }
  }

  lemma {:induction false} InsertedIs(x: string, s: seq<string>)
    requires Ordered(s)
    ensures Ordered(Inserted(x, s)) && multiset(Inserted(x, s)) == multiset(s) + multiset{x}
  {
    hide Before;
    if s == [] {
    } else if Before(x, s[0]) {
      BeforeAll(x, s);
    } else {
      var rest := s[1..];
      InsertedIs(x, rest);
      assert s == [s[0]] + rest;
      Total(x, s[0]);
      forall y | y in Inserted(x, rest)
        ensures Before(s[0], y)
      {
        assert y in multiset(rest) + multiset{x};
        assert y == x || y in rest;
      }
    }
  }

  lemma {:induction false} SortedIs(s: seq<string>)
    ensures Ordered(SortStrings(s)) && multiset(SortStrings(s)) == multiset(s)
  {
    if s != [] {
      SortedIs(s[1..]);
      InsertedIs(s[0], SortStrings(s[1..]));
      assert s == [s[0]] + s[1..];
    }
  }

  lemma SameFirst(a: seq<string>, b: seq<string>)
    requires Ordered(a) && Ordered(b) && multiset(a) == multiset(b) && a != [] && b != []
    ensures a[0] == b[0]
  {
    hide Before;
    assert a[0] in multiset(b) && b[0] in multiset(a);
    var i :| 0 <= i < |b| && b[i] == a[0];
    var j :| 0 <= j < |a| && a[j] == b[0];
    Total(a[0], b[0]);
  }

  lemma RestIsOrdered(s: seq<string>)
    requires Ordered(s) && s != []
    ensures Ordered(s[1..])
  {
    hide Before;
  }

  /** There is one way to order a list: the order it came in does not matter. */
  lemma {:induction false} OneOrder(a: seq<string>, b: seq<string>)
    requires Ordered(a) && Ordered(b) && multiset(a) == multiset(b)
    ensures a == b
  {
    assert |multiset(a)| == |a| && |multiset(b)| == |b|;
    if a != [] {
      SameFirst(a, b);
      hide Ordered;
      var x, y := a[1..], b[1..];
      assert a == [a[0]] + x && b == [a[0]] + y;
      assert multiset(x) == multiset(a) - multiset{a[0]} && multiset(y) == multiset(b) - multiset{a[0]};
      RestIsOrdered(a);
      RestIsOrdered(b);
      OneOrder(x, y);
    }
  }

  lemma SameWhenShuffled(a: seq<string>, b: seq<string>)
    requires multiset(a) == multiset(b)
    ensures SortStrings(a) == SortStrings(b)
  {
    SortedIs(a);
    SortedIs(b);
    OneOrder(SortStrings(a), SortStrings(b));
  }
}
