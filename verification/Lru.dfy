/**
 * The least-recently-used cache that hides deleted pods from a lagging list, and what it keeps:
 * as long as the latest list shows no more deleted names than the cache has room for, the cache
 * holds every deleted name that the list shows.
 */
module Lru {

  ghost predicate Distinct(s: seq<string>) {
    forall i, j :: 0 <= i < j < |s| ==> s[i] != s[j]
  }

  function Without(s: seq<string>, name: string): seq<string> {
    if s == [] then []
    else (if s[0] == name then [] else [s[0]]) + Without(s[1..], name)
  }

  /** The entries, last used first, after a lookup of `name`. */
  function Touched(s: seq<string>, name: string): seq<string> {
    if name in s then [name] + Without(s, name) else s
  }

  /** The entries after adding `name`: the entry unused for longest goes when there is no room. */
  function Put(s: seq<string>, name: string, capacity: nat): seq<string> {
    var t := [name] + Without(s, name);
    if |t| > capacity then t[..|t| - 1] else t
  }

  class LruCache {
    const capacity: nat
    var entries: seq<string>

    constructor (capacity: nat)
      ensures this.capacity == capacity && entries == []
    {
      this.capacity := capacity;
      entries := [];
    }

    method Get(name: string) returns (hit: bool)
      modifies this
      ensures hit == (name in old(entries)) && entries == Touched(old(entries), name)
    {
      hit := name in entries;
      if hit {
        entries := [name] + Without(entries, name);
      }
    }

    method Add(name: string)
      modifies this
      ensures entries == Put(old(entries), name, capacity)
    {
      entries := [name] + Without(entries, name);
      if |entries| > capacity {
        entries := entries[..|entries| - 1];
      }
    }
  }

  // ---- What one operation keeps

  /** The names of `d` are all there, and were all used after the names that are not of `d`. */
  ghost predicate Leads(d: set<string>, s: seq<string>) {
    Distinct(s)
    && (forall name :: name in d ==> name in s)
    && forall i, j :: 0 <= i < j < |s| && s[j] in d ==> s[i] in d
  }

  lemma {:induction false} WithoutIs(s: seq<string>, name: string)
    requires Distinct(s)
    ensures forall n :: n in Without(s, name) <==> n in s && n != name
    ensures Distinct(Without(s, name))
    ensures |Without(s, name)| == |s| - if name in s then 1 else 0
  {
    if s != [] {
      WithoutIs(s[1..], name);
      assert s == [s[0]] + s[1..];
      var rest := Without(s[1..], name);
      assert forall n :: n in rest ==> n in s[1..];
      assert s[0] !in s[1..];
    }
  }

  lemma {:induction false} WithoutLeads(d: set<string>, s: seq<string>, name: string)
    requires Distinct(s) && forall i, j :: 0 <= i < j < |s| && s[j] in d ==> s[i] in d
    ensures var t := Without(s, name);
            forall i, j :: 0 <= i < j < |t| && t[j] in d ==> t[i] in d
  {
    if s != [] {
      WithoutLeads(d, s[1..], name);
      WithoutIs(s[1..], name);
      var t, rest := Without(s, name), Without(s[1..], name);
      forall i, j | 0 <= i < j < |t| && t[j] in d
        ensures t[i] in d
      {
        if s[0] != name {
          assert t == [s[0]] + rest;
          assert t[j] == rest[j - 1] && t[j] in s[1..];
          var k :| 1 <= k < |s| && s[k] == t[j];
          assert s[0] in d;
          if i > 0 {
            assert t[i] == rest[i - 1];
          }
        }
      }
    }
  }

  /** With `name` in front, `d` with `name` still leads. */
  lemma FrontLeads(d: set<string>, s: seq<string>, name: string)
    requires Leads(d, s)
    ensures Leads(d + {name}, [name] + Without(s, name))
  {
    var t := [name] + Without(s, name);
    WithoutIs(s, name);
    WithoutLeads(d, s, name);
    forall i, j | 0 <= i < j < |t| && t[j] in d + {name}
      ensures t[i] in d + {name}
    {
      assert t[j] == Without(s, name)[j - 1] && t[j] in Without(s, name);
    }
  }

  lemma TouchedLeads(d: set<string>, s: seq<string>, name: string)
    requires Leads(d, s)
    ensures Leads(if name in s then d + {name} else d, Touched(s, name))
    ensures forall n :: n in Touched(s, name) <==> n in s
    ensures |Touched(s, name)| == |s|
  {
    if name in s {
      FrontLeads(d, s, name);
      WithoutIs(s, name);
    }
  }

  lemma {:induction false} DistinctCount(s: seq<string>, d: set<string>)
    requires Distinct(s) && forall i :: 0 <= i < |s| ==> s[i] in d
    ensures |s| <= |d|
  {
    if s != [] {
      DistinctCount(s[1..], d - {s[0]});
    }
  }

  lemma LastGoes(d: set<string>, s: seq<string>)
    requires Leads(d, s) && s != [] && s[|s| - 1] !in d
    ensures Leads(d, s[..|s| - 1])
  {
    var t := s[..|s| - 1];
    assert s == t + [s[|s| - 1]];
  }

  /** Where more is used than there is room for, the last one used is not of `d`. */
  lemma LastIsNotOf(d: set<string>, s: seq<string>)
    requires Leads(d, s) && |d| < |s|
    ensures s[|s| - 1] !in d
  {
    if s[|s| - 1] in d {
      DistinctCount(s, d);
    }
  }

  /** Adding evicts no name of `d` while `d` has room. */
  lemma PutLeads(d: set<string>, s: seq<string>, name: string, capacity: nat)
    requires Leads(d, s) && |s| <= capacity && |d + {name}| <= capacity
    ensures Leads(d + {name}, Put(s, name, capacity)) && |Put(s, name, capacity)| <= capacity
    ensures forall n :: n in Put(s, name, capacity) ==> n == name || n in s
  {
    assert Distinct(s);
    hide Leads;
    var t := [name] + Without(s, name);
    FrontLeads(d, s, name);
    WithoutIs(s, name);
    if |t| > capacity {
      LastIsNotOf(d + {name}, t);
      LastGoes(d + {name}, t);
    }
  }

  // ---- A pass of lookups over a list

  function AllTouched(s: seq<string>, names: seq<string>): seq<string> {
    if names == [] then s else Touched(AllTouched(s, names[..|names| - 1]), names[|names| - 1])
  }

  ghost function Set(names: seq<string>): set<string> {
    set name | name in names
  }

  /** A pass over a list puts what it finds in front, and changes nothing else. */
  lemma {:induction false} PassLeads(d: set<string>, s: seq<string>, names: seq<string>)
    requires Leads(d, s)
    ensures Leads(Set(names) * Set(s), AllTouched(s, names))
    ensures forall n :: n in AllTouched(s, names) <==> n in s
    ensures |AllTouched(s, names)| == |s|
  {
    if names == [] {
      assert Set(names) * Set(s) == {};
    } else {
      var front, name := names[..|names| - 1], names[|names| - 1];
      PassLeads(d, s, front);
      TouchedLeads(Set(front) * Set(s), AllTouched(s, front), name);
      assert names == front + [name];
      assert Set(names) * Set(s) == if name in s then Set(front) * Set(s) + {name} else Set(front) * Set(s);
    }
  }

  // ---- Whole runs: lists and deletions

  datatype Use = Listing(names: seq<string>) | Deletion(name: string)

  function After(uses: seq<Use>, capacity: nat): seq<string> {
    if uses == [] then []
    else
      var before := After(uses[..|uses| - 1], capacity);
      match uses[|uses| - 1]
      case Listing(names) => AllTouched(before, names)
      case Deletion(name) => Put(before, name, capacity)
  }

  ghost function Deleted(uses: seq<Use>): set<string> {
    set k | 0 <= k < |uses| && uses[k].Deletion? :: uses[k].name
  }

  /** The names of the latest list. */
  ghost function Latest(uses: seq<Use>): set<string> {
    if uses == [] then {}
    else match uses[|uses| - 1]
      case Listing(names) => Set(names)
      case Deletion(_) => Latest(uses[..|uses| - 1])
  }

  /** Only listed names are deleted, and a deleted name that has left the list does not come back. */
  ghost predicate LawfulUses(uses: seq<Use>) {
    uses == [] ||
    var before := uses[..|uses| - 1];
    LawfulUses(before) &&
    match uses[|uses| - 1]
    case Listing(names) => Set(names) * Deleted(before) <= Latest(before)
    case Deletion(name) => name in Latest(before)
  }

  ghost predicate HasRoom(uses: seq<Use>, capacity: nat) {
    forall k :: 0 <= k <= |uses| ==> |Latest(uses[..k]) * Deleted(uses[..k])| <= capacity
  }

  lemma {:induction false} DeletedLead(uses: seq<Use>, capacity: nat)
    requires LawfulUses(uses) && HasRoom(uses, capacity)
    ensures var s := After(uses, capacity);
            Leads(Latest(uses) * Deleted(uses), s) && |s| <= capacity && Set(s) <= Deleted(uses)
  {
    if uses != [] {
      hide Leads, Put, AllTouched;
      var before, last := uses[..|uses| - 1], uses[|uses| - 1];
      forall k | 0 <= k <= |before|
        ensures |Latest(before[..k]) * Deleted(before[..k])| <= capacity
      {
        assert before[..k] == uses[..k];
      }
      DeletedLead(before, capacity);
      var s := After(before, capacity);
      DeletedOneMore(uses);
      match last
      case Listing(names) =>
        PassLeads(Latest(before) * Deleted(before), s, names);
        LeadersAreThere(Latest(before) * Deleted(before), s);
        assert Set(names) * Set(s) == Latest(uses) * Deleted(uses);
      case Deletion(name) =>
        assert uses[..|uses|] == uses;
        assert Latest(uses) * Deleted(uses) == Latest(before) * Deleted(before) + {name};
        PutLeads(Latest(before) * Deleted(before), s, name, capacity);
    }
  }

  lemma LeadersAreThere(d: set<string>, s: seq<string>)
    requires Leads(d, s)
    ensures d <= Set(s)
  {
  }

  lemma DeletedOneMore(uses: seq<Use>)
    requires uses != []
    ensures var before, last := uses[..|uses| - 1], uses[|uses| - 1];
            Deleted(uses) == Deleted(before) + if last.Deletion? then {last.name} else {}
  {
    var before, last := uses[..|uses| - 1], uses[|uses| - 1];
    forall name | name in Deleted(uses)
      ensures name in Deleted(before) + if last.Deletion? then {last.name} else {}
    {
      var k :| 0 <= k < |uses| && uses[k].Deletion? && uses[k].name == name;
      if k < |before| {
        assert before[k] == uses[k];
      }
    }
    forall name | name in Deleted(before) + if last.Deletion? then {last.name} else {}
      ensures name in Deleted(uses)
    {
      if name in Deleted(before) {
        var k :| 0 <= k < |before| && before[k].Deletion? && before[k].name == name;
        assert uses[k] == before[k];
      }
    }
  }

  /** While there is room, a lookup of a listed name hits exactly when that name was deleted. */
  lemma HitIffDeleted(uses: seq<Use>, names: seq<string>, i: nat, capacity: nat)
    requires LawfulUses(uses + [Listing(names)]) && HasRoom(uses, capacity) && i < |names|
    ensures names[i] in AllTouched(After(uses, capacity), names[..i]) <==> names[i] in Deleted(uses)
  {
    assert (uses + [Listing(names)])[..|uses|] == uses;
    DeletedLead(uses, capacity);
    PassLeads(Latest(uses) * Deleted(uses), After(uses, capacity), names[..i]);
    assert names[i] in Set(names);
  }

  // ---- The room is needed

  /** One list, and then all that it shows is deleted. */
  function Sweep(all: seq<string>, names: seq<string>): seq<Use> {
    [Listing(all)] + seq(|names|, k requires 0 <= k < |names| => Deletion(names[k]))
  }

  lemma SweepOneMore(all: seq<string>, names: seq<string>)
    requires names != []
    ensures Sweep(all, names) == Sweep(all, names[..|names| - 1]) + [Deletion(names[|names| - 1])]
    ensures Set(names) == Set(names[..|names| - 1]) + {names[|names| - 1]}
  {
    assert names == names[..|names| - 1] + [names[|names| - 1]];
  }

  lemma {:induction false} SweepIsLawful(all: seq<string>, names: seq<string>)
    requires Set(names) <= Set(all)
    ensures LawfulUses(Sweep(all, names)) && Latest(Sweep(all, names)) == Set(all)
    ensures Deleted(Sweep(all, names)) == Set(names)
  {
    var uses := Sweep(all, names);
    if names == [] {
      assert uses == [Listing(all)] && uses[..0] == [];
    } else {
      SweepOneMore(all, names);
      SweepIsLawful(all, names[..|names| - 1]);
      assert uses[..|uses| - 1] == Sweep(all, names[..|names| - 1]);
      DeletedOneMore(uses);
    }
  }

  /** What the cache then holds: the last deleted names, the latest of them first. */
  function LastOf(names: seq<string>, capacity: nat): (s: seq<string>)
    ensures |s| == if |names| <= capacity then |names| else capacity
    ensures forall i :: 0 <= i < |s| ==> s[i] == names[|names| - 1 - i]
  {
    var kept := if |names| <= capacity then |names| else capacity;
    seq(kept, i requires 0 <= i < kept => names[|names| - 1 - i])
  }

  lemma {:induction false} SweepLeaves(all: seq<string>, names: seq<string>, capacity: nat)
    requires Distinct(names)
    ensures After(Sweep(all, names), capacity) == LastOf(names, capacity)
  {
    hide Put, Touched, AllTouched, Sweep;
    var uses := Sweep(all, names);
    if names == [] {
      SweepOfNone(all, capacity);
    } else {
      var front, name := names[..|names| - 1], names[|names| - 1];
      SweepLeaves(all, front, capacity);
      SweepOneMore(all, names);
      assert uses[..|uses| - 1] == Sweep(all, front);
      PutLast(names, capacity);
    }
  }

  lemma SweepOfNone(all: seq<string>, capacity: nat)
    ensures After(Sweep(all, []), capacity) == []
  {
    var uses := Sweep(all, []);
    assert uses == [Listing(all)] && uses[..0] == [];
    NothingTouched(all);
  }

  lemma PutLast(names: seq<string>, capacity: nat)
    requires Distinct(names) && names != []
    ensures var front, name := names[..|names| - 1], names[|names| - 1];
            Put(LastOf(front, capacity), name, capacity) == LastOf(names, capacity)
  {
    hide LastOf;
    var front, name := names[..|names| - 1], names[|names| - 1];
    var s := LastOf(front, capacity);
    assert name !in s;
    WithoutAbsent(s, name);
    var t := [name] + s;
    assert forall i :: 0 <= i < |t| ==> t[i] == names[|names| - 1 - i];
  }

  lemma {:induction false} NothingTouched(names: seq<string>)
    ensures AllTouched([], names) == []
  {
    if names != [] {
      NothingTouched(names[..|names| - 1]);
    }
  }

  lemma {:induction false} WithoutAbsent(s: seq<string>, name: string)
    requires name !in s
    ensures Without(s, name) == s
  {
    if s != [] {
      WithoutAbsent(s[1..], name);
    }
  }

  /**
   * A list that shows only deleted names is masked in full if and only if there are no more of them
   * than the cache has room for: with one too many, the name deleted first looks alive again.
   */
  lemma SweepMaskedIff(names: seq<string>, capacity: nat)
    requires Distinct(names)
    ensures LawfulUses(Sweep(names, names) + [Listing(names)])
    ensures Deleted(Sweep(names, names)) == Set(names)
    ensures (forall i :: 0 <= i < |names| ==> names[i] in After(Sweep(names, names), capacity)) <==> |names| <= capacity
  {
    var uses := Sweep(names, names);
    SweepIsLawful(names, names);
    SweepLeaves(names, names, capacity);
    assert (uses + [Listing(names)])[..|uses|] == uses;
    var s := After(uses, capacity);
    if |names| <= capacity {
      forall i | 0 <= i < |names|
        ensures names[i] in s
      {
        assert s[|names| - 1 - i] == names[i];
      }
    } else {
      assert names[0] !in s;
    }
  }
}
