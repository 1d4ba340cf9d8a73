/** What the cluster offers for a backup, and how the filters thin it out in place. */
module Discovery {
  import opened Wrappers
  import opened ResourceTree
  import opened Filtering

  datatype ApiResource = ApiResource(name: string, namespaced: bool)

  /** The value of one discovery list. */
  datatype Offer = Offer(groupVersion: string, apis: seq<ApiResource>)

  /** One discovery list. The program holds pointers to these. */
  class ApiResourceList {
    const groupVersion: string
    var apiResources: seq<ApiResource>

    constructor (groupVersion: string, apiResources: seq<ApiResource>)
      ensures this.groupVersion == groupVersion && this.apiResources == apiResources
    {
      this.groupVersion, this.apiResources := groupVersion, apiResources;
    }

    function Value(): Offer
      reads this
    {
      Offer(groupVersion, apiResources)
    }
  }

  class NamespaceList {
    var items: seq<string>

    constructor (items: seq<string>)
      ensures this.items == items
    {
      this.items := items;
    }
  }

  /** A filter whose set of names changes. */
  class ResourceFilter {
    const kind: Kind
    const including: bool
    var names: set<string>

    constructor (kind: Kind, including: bool, names: set<string>)
      ensures this.kind == kind && this.including == including && this.names == names
    {
      this.kind, this.including, this.names := kind, including, names;
    }

    function Value(): Filter
      reads this
    {
      Filter(kind, including, names)
    }
  }

  // ---- The built-in exclusions

  const DEFAULT_NAMESPACES := {"kube-system", "kube-public", "kube-node-lease"}
  const DEFAULT_RESOURCES := {"events", "pods", "endpointslices"}

  /** A name stays iff the user's filter, if there is one, lets it and it is not built out. */
  predicate Admits(user: Option<Filter>, builtOut: set<string>, name: string) {
    (user.Some? ==> Passes(user.value, name)) && name !in builtOut
  }

  /** Adds the built-in exclusions to the filter stored under the key, or makes one. */
  method PreHandleFilter(filters: map<string, ResourceFilter>, key: string, kind: Kind, builtOut: set<string>)
    returns (filters': map<string, ResourceFilter>)
    modifies if key in filters then {filters[key]} else {}
    ensures filters'.Keys == filters.Keys + {key}
    ensures forall other :: other in filters && other != key ==> filters'[other] == filters[other]
    ensures key in filters ==> filters' == filters
    ensures key !in filters ==> fresh(filters'[key])
    ensures key in filters ==>
      filters'[key].names == if filters[key].including then old(filters[key].names) - builtOut
                             else old(filters[key].names) + builtOut
    ensures key !in filters ==>
      filters'[key].kind == kind && !filters'[key].including && filters'[key].names == builtOut
    ensures var user := if key in filters then Some(old(filters[key].Value())) else None;
            forall name :: Passes(filters'[key].Value(), name) <==> Admits(user, builtOut, name)
  {
    filters' := filters;
    if key in filters {
      var f := filters[key];
      ghost var before := f.names;
      var todo := builtOut;
      while todo != {}
        invariant todo <= builtOut
        invariant f.names == if f.including then before - (builtOut - todo) else before + (builtOut - todo)
      {
        var name :| name in todo;
        if !f.including {
          f.names := f.names + {name};
        } else {
          f.names := f.names - {name};
        }
        todo := todo - {name};
      }
    } else {
      var f := new ResourceFilter(kind, false, builtOut);
      filters' := filters[key := f];
    }
  }

  // ---- Thinning out

  function KeptNames(items: seq<string>, f: Filter): seq<string> {
    if items == [] then []
    else KeptNames(items[..|items| - 1], f) + if Passes(f, items[|items| - 1]) then [items[|items| - 1]] else []
  }

  function KeptApis(apis: seq<ApiResource>, f: Filter): seq<ApiResource> {
    if apis == [] then []
    else KeptApis(apis[..|apis| - 1], f) + if Passes(f, apis[|apis| - 1].name) then [apis[|apis| - 1]] else []
  }

  lemma {:induction false} KeptNamesAre(items: seq<string>, f: Filter, name: string)
    ensures name in KeptNames(items, f) <==> name in items && Passes(f, name)
  {
    if items != [] {
      KeptNamesAre(items[..|items| - 1], f, name);
      assert items == items[..|items| - 1] + [items[|items| - 1]];
    }
  }

  lemma {:induction false} KeptApisAre(apis: seq<ApiResource>, f: Filter, api: ApiResource)
    ensures api in KeptApis(apis, f) <==> api in apis && Passes(f, api.name)
  {
    if apis != [] {
      KeptApisAre(apis[..|apis| - 1], f, api);
      assert apis == apis[..|apis| - 1] + [apis[|apis| - 1]];
    }
  }

  /** Cutting out the element after `a`, and stepping over it. */
  lemma CutOrStep<T>(a: seq<T>, all: seq<T>, t: nat)
    requires t < |all|
    ensures var s := a + all[t..];
            && s[|a|] == all[t]
            && s[..|a|] + s[|a| + 1..] == a + all[t + 1..]
            && s == a + [all[t]] + all[t + 1..]
    ensures all[..t + 1][..t] == all[..t] && all[..t + 1] != [] && all[..t + 1][|all[..t + 1]| - 1] == all[t]
  {
  }

  lemma NextName(all: seq<string>, t: nat, f: Filter)
    requires t < |all|
    ensures KeptNames(all[..t + 1], f) == KeptNames(all[..t], f) + if Passes(f, all[t]) then [all[t]] else []
  {
    CutOrStep([], all, t);
  }

  lemma NextApi(all: seq<ApiResource>, t: nat, f: Filter)
    requires t < |all|
    ensures KeptApis(all[..t + 1], f) == KeptApis(all[..t], f) + if Passes(f, all[t].name) then [all[t]] else []
  {
    CutOrStep([], all, t);
  }

  lemma Whole<T>(s: seq<T>)
    ensures s[..0] == [] && s[0..] == s && s[..|s|] == s && s[|s|..] == [] && s + [] == s && [] + s == s
  {
  }

  method FiltrateNamespace(namespaces: NamespaceList, f: ResourceFilter)
    modifies namespaces
    ensures namespaces.items == KeptNames(old(namespaces.items), old(f.Value()))
    ensures forall name :: name in namespaces.items <==>
      name in old(namespaces.items) && (if f.including then name in old(f.names) else name !in old(f.names))
  {
    hide KeptNames;
    ghost var all := namespaces.items;
    ghost var v := f.Value();
    var i := 0;
    ghost var t, kept := 0, KeptNames([], v);
    NoneKept(v);
    Whole(all);
    while i < |namespaces.items|
      invariant t <= |all| && i == |kept| && kept == KeptNames(all[..t], v)
      invariant namespaces.items == kept + all[t..]
      decreases |all| - t
    {
      CutOrStep(kept, all, t);
      NextName(all, t, v);
      if !((f.including && namespaces.items[i] in f.names) || (!f.including && namespaces.items[i] !in f.names)) {
        namespaces.items := namespaces.items[..i] + namespaces.items[i + 1..];
      } else {
        i := i + 1;
        kept := kept + [all[t]];
      }
      t := t + 1;
    }
    Whole(all);
    forall name
      ensures name in namespaces.items <==> name in all && Passes(v, name)
    {
      KeptNamesAre(all, v, name);
    }
  }

  method FiltrateApis(version: ApiResourceList, f: ResourceFilter)
    modifies version
    ensures version.apiResources == KeptApis(old(version.apiResources), old(f.Value()))
    ensures forall api :: api in version.apiResources <==>
      api in old(version.apiResources) && (if f.including then api.name in old(f.names) else api.name !in old(f.names))
  {
    hide KeptApis;
    ghost var all := version.apiResources;
    ghost var v := f.Value();
    var i := 0;
    ghost var t, kept := 0, KeptApis([], v);
    NoneKept(v);
    Whole(all);
    while i < |version.apiResources|
      invariant t <= |all| && i == |kept| && kept == KeptApis(all[..t], v)
      invariant version.apiResources == kept + all[t..]
      decreases |all| - t
    {
      CutOrStep(kept, all, t);
      NextApi(all, t, v);
      var name := version.apiResources[i].name;
      if !((f.including && name in f.names) || (!f.including && name !in f.names)) {
        version.apiResources := version.apiResources[..i] + version.apiResources[i + 1..];
      } else {
        i := i + 1;
        kept := kept + [all[t]];
      }
      t := t + 1;
    }
    Whole(all);
    forall api
      ensures api in version.apiResources <==> api in all && Passes(v, api.name)
    {
      KeptApisAre(all, v, api);
    }
  }

  lemma NoneKept(f: Filter)
    ensures KeptNames([], f) == [] && KeptApis([], f) == []
  {
  }

  /** The lists that still offer something. */
  ghost function NonEmpty(lists: seq<ApiResourceList>): (left: seq<ApiResourceList>)
    reads lists
    ensures |left| <= |lists|
  {
    if lists == [] then []
    else
      var last := lists[|lists| - 1];
      NonEmpty(lists[..|lists| - 1]) + if last.apiResources != [] then [last] else []
  }

  function Copies<T>(x: T, n: nat): (copies: seq<T>)
    ensures |copies| == n && forall y :: y in copies ==> y == x
  {
    if n == 0 then [] else [x] + Copies(x, n - 1)
  }

  /** What the caller of the compaction still sees: its own slice is not shortened, so
      behind the lists that are left come copies of what was the last one. */
  ghost function Stale(lists: seq<ApiResourceList>): seq<ApiResourceList>
    reads lists
  {
    if lists == [] then [] else NonEmpty(lists) + Copies(lists[|lists| - 1], |lists| - |NonEmpty(lists)|)
  }

  /** Place by place. */
  lemma StaleSays(lists: seq<ApiResourceList>, i: nat)
    requires i < |lists|
    ensures |Stale(lists)| == |lists|
    ensures Stale(lists)[i] == if i < |NonEmpty(lists)| then NonEmpty(lists)[i] else lists[|lists| - 1]
    ensures forall e :: e in NonEmpty(lists) <==> e in lists && e.apiResources != []
  {
    NonEmptyFacts(lists);
    var left := NonEmpty(lists);
    var copies := Copies(lists[|lists| - 1], |lists| - |left|);
    if i >= |left| {
      assert copies[i - |left|] in copies;
    }
  }

  lemma {:induction false} NonEmptyFacts(lists: seq<ApiResourceList>)
    ensures |NonEmpty(lists)| <= |lists|
    ensures forall e :: e in NonEmpty(lists) <==> e in lists && e.apiResources != []
  {
    if lists != [] {
      NonEmptyFacts(lists[..|lists| - 1]);
      assert lists == lists[..|lists| - 1] + [lists[|lists| - 1]];
    }
  }

  lemma NonEmptyMember(lists: seq<ApiResourceList>, e: ApiResourceList)
    requires e in NonEmpty(lists)
    ensures e in lists && e.apiResources != []
  {
    NonEmptyFacts(lists);
  }

  /** The lists whose new content is not empty. */
  ghost function LeftOver(lists: seq<ApiResourceList>, contents: seq<seq<ApiResource>>): seq<ApiResourceList>
    requires |lists| == |contents|
  {
    if lists == [] then []
    else
      var last := |lists| - 1;
      LeftOver(lists[..last], contents[..last]) + if contents[last] != [] then [lists[last]] else []
  }

  lemma {:induction false} LeftOverIsNonEmpty(lists: seq<ApiResourceList>, contents: seq<seq<ApiResource>>)
    requires |lists| == |contents| && forall x :: 0 <= x < |lists| ==> lists[x].apiResources == contents[x]
    ensures NonEmpty(lists) == LeftOver(lists, contents)
  {
    if lists != [] {
      LeftOverIsNonEmpty(lists[..|lists| - 1], contents[..|lists| - 1]);
    }
  }

  lemma NextLeftOver(lists: seq<ApiResourceList>, contents: seq<seq<ApiResource>>, t: nat)
    requires t < |lists| == |contents|
    ensures LeftOver(lists[..t + 1], contents[..t + 1])
         == LeftOver(lists[..t], contents[..t]) + if contents[t] != [] then [lists[t]] else []
  {
    CutOrStep([], lists, t);
    assert contents[..t + 1][..t] == contents[..t];
  }

  /** Go's append(vs[:j], vs[j+1:m]...): what follows moves up, the last place keeps its content. */
  method CutAt<T>(vs: array<T>, j: nat, m: nat)
    requires j < m <= vs.Length
    modifies vs
    ensures var s := old(vs[..]); vs[..] == s[..j] + s[j + 1..m] + [s[m - 1]] + s[m..]
  {
    forall x | j <= x < m - 1 {
      vs[x] := vs[x + 1];
    }
  }

  /** Half way through: the lists that are left, those still to come, copies of the last. */
  ghost predicate HalfWay<T>(seen: seq<T>, kept: seq<T>, all: seq<T>, t: nat, m: nat) {
    && t <= |all| == |seen| && |kept| <= m <= |all| && m - |kept| == |all| - t
    && (all != [] ==> seen == kept + all[t..] + Copies(all[|all| - 1], |all| - m))
  }

  lemma HalfWayAt<T>(seen: seq<T>, kept: seq<T>, all: seq<T>, t: nat, m: nat)
    requires HalfWay(seen, kept, all, t, m) && |kept| < m
    ensures t < |all| && seen[|kept|] == all[t]
    ensures HalfWay(seen, kept + [all[t]], all, t + 1, m)
    ensures HalfWay(seen[..|kept|] + seen[|kept| + 1..m] + [seen[m - 1]] + seen[m..], kept, all, t + 1, m - 1)
  {
    var last := all[|all| - 1];
    var n := |all| - m;
    assert all[t..] == [all[t]] + all[t + 1..];
    assert seen[m - 1] == last && seen[m..] == Copies(last, n);
    assert seen[|kept| + 1..m] == all[t + 1..];
    assert seen[..|kept|] == kept;
    assert [last] + Copies(last, n) == Copies(last, n + 1);
  }

  ghost predicate Distinct<T>(s: seq<T>) {
    forall i, j :: 0 <= i < j < |s| ==> s[i] != s[j]
  }

  /** The first `t` lists have their new content, the others not yet. */
  ghost predicate ThinnedUpTo(
    lists: seq<ApiResourceList>, first: seq<seq<ApiResource>>, contents: seq<seq<ApiResource>>, t: nat)
    reads lists
  {
    && |lists| == |first| == |contents|
    && forall x :: 0 <= x < |lists| ==> lists[x].apiResources == if x < t then contents[x] else first[x]
  }

  method ThinOne(
    version: ApiResourceList, f: ResourceFilter, ghost all: seq<ApiResourceList>,
    ghost first: seq<seq<ApiResource>>, ghost contents: seq<seq<ApiResource>>, ghost t: nat)
    requires ThinnedUpTo(all, first, contents, t) && contents == AllKept(first, f.Value())
    requires t < |all| && all[t] == version && Distinct(all)
    modifies version
    ensures ThinnedUpTo(all, first, contents, t + 1) && version.apiResources == contents[t]
  {
    hide KeptApis, AllKept;
    AllKeptAt(first, f.Value());
    assert forall x :: 0 <= x < |all| && x != t ==> all[x] != version;
    FiltrateApis(version, f);
  }

  /** Every list that was there has been thinned out. */
  ghost predicate AllThinned(lists: seq<ApiResourceList>, first: seq<seq<ApiResource>>, f: Filter)
    reads lists
  {
    |lists| == |first| && forall x :: 0 <= x < |lists| ==> lists[x].apiResources == KeptApis(first[x], f)
  }

  /** The state of the slice when `t` lists have been seen. */
  ghost predicate Going(
    seen: seq<ApiResourceList>, kept: seq<ApiResourceList>, all: seq<ApiResourceList>,
    first: seq<seq<ApiResource>>, contents: seq<seq<ApiResource>>, t: nat, m: nat)
  {
    && HalfWay(seen, kept, all, t, m) && |all| == |first| == |contents| && Distinct(all)
    && kept == LeftOver(all[..t], contents[..t])
  }

  method CompactOne(
    vs: array<ApiResourceList>, f: ResourceFilter, j: nat, m: nat, ghost kept: seq<ApiResourceList>,
    ghost all: seq<ApiResourceList>, ghost first: seq<seq<ApiResource>>, ghost contents: seq<seq<ApiResource>>,
    ghost t: nat)
    returns (j': nat, m': nat, ghost kept': seq<ApiResourceList>)
    requires j == |kept| && j < m && Going(vs[..], kept, all, first, contents, t, m)
    requires ThinnedUpTo(all, first, contents, t) && contents == AllKept(first, f.Value())
    modifies vs, all
    ensures j' == |kept'| && j' <= m' && m' - j' == m - j - 1 && Going(vs[..], kept', all, first, contents, t + 1, m')
    ensures ThinnedUpTo(all, first, contents, t + 1) && f.Value() == old(f.Value())
  {
    hide KeptApis, AllKept, LeftOver, ThinnedUpTo, HalfWay;
    HalfWayAt(vs[..], kept, all, t, m);
    NextLeftOver(all, contents, t);
    var version := vs[j];
    ghost var before := vs[..];
    assert version == before[j];
    ThinOne(version, f, all, first, contents, t);
    assert vs[..] == before;
    if |version.apiResources| == 0 {
      CutAt(vs, j, m);
      j', m', kept' := j, m - 1, kept;
    } else {
      j', m', kept' := j + 1, m, kept + [version];
    }
  }

  method FiltrateResource(vs: array<ApiResourceList>, f: ResourceFilter)
    requires Distinct(vs[..])
    modifies vs, vs[..]
    ensures AllThinned(old(vs[..]), old(Contents(vs[..])), old(f.Value()))
    ensures vs[..] == Stale(old(vs[..]))
  {
    hide *;
    ghost var all := vs[..];
    ghost var v := f.Value();
    ghost var first := Contents(all);
    ghost var contents := AllKept(first, v);
    var m, j := vs.Length, 0;
    ghost var t, kept := 0, [];
    Start(all, first, contents, v);
    while j < m
      invariant j == |kept| && 0 <= j <= m && Going(vs[..], kept, all, first, contents, t, m)
      invariant ThinnedUpTo(all, first, contents, t) && f.Value() == v
      decreases m - j
    {
      j, m, kept := CompactOne(vs, f, j, m, kept, all, first, contents, t);
      t := t + 1;
    }
    Finish(all, first, contents, t, kept, vs[..], m, v);
  }

  ghost function Contents(lists: seq<ApiResourceList>): seq<seq<ApiResource>>
    reads lists
  {
    if lists == [] then [] else Contents(lists[..|lists| - 1]) + [lists[|lists| - 1].apiResources]
  }

  ghost function AllKept(contents: seq<seq<ApiResource>>, f: Filter): seq<seq<ApiResource>> {
    if contents == [] then []
    else AllKept(contents[..|contents| - 1], f) + [KeptApis(contents[|contents| - 1], f)]
  }

  lemma {:induction false} ContentsAt(lists: seq<ApiResourceList>)
    ensures |Contents(lists)| == |lists| && forall x :: 0 <= x < |lists| ==> Contents(lists)[x] == lists[x].apiResources
  {
    if lists != [] {
      ContentsAt(lists[..|lists| - 1]);
    }
  }

  lemma {:induction false} AllKeptAt(contents: seq<seq<ApiResource>>, f: Filter)
    ensures |AllKept(contents, f)| == |contents|
    ensures forall x :: 0 <= x < |contents| ==> AllKept(contents, f)[x] == KeptApis(contents[x], f)
  {
    if contents != [] {
      AllKeptAt(contents[..|contents| - 1], f);
    }
  }

  lemma Start(
    all: seq<ApiResourceList>, first: seq<seq<ApiResource>>, contents: seq<seq<ApiResource>>, f: Filter)
    requires first == Contents(all) && contents == AllKept(first, f)
    ensures |contents| == |first| == |all|
    ensures ThinnedUpTo(all, first, contents, 0)
    ensures Distinct(all) ==> Going(all, [], all, first, contents, 0, |all|)
  {
    ContentsAt(all);
    AllKeptAt(first, f);
  }

  lemma Finish(
    all: seq<ApiResourceList>, first: seq<seq<ApiResource>>, contents: seq<seq<ApiResource>>, t: nat,
    kept: seq<ApiResourceList>, seen: seq<ApiResourceList>, m: nat, f: Filter)
    requires |kept| == m && Going(seen, kept, all, first, contents, t, m)
    requires ThinnedUpTo(all, first, contents, t) && contents == AllKept(first, f)
    ensures seen == Stale(all) && AllThinned(all, first, f)
  {
    hide KeptApis, AllKept, LeftOver, NonEmpty;
    Whole(all);
    Whole(contents);
    AllKeptAt(first, f);
    LeftOverIsNonEmpty(all, contents);
    HalfWayEnd(seen, kept, all, t, m);
  }

  lemma HalfWayEnd<T>(seen: seq<T>, kept: seq<T>, all: seq<T>, t: nat, m: nat)
    requires HalfWay(seen, kept, all, t, m) && |kept| == m
    ensures t == |all| && if all == [] then seen == [] else seen == kept + Copies(all[|all| - 1], |all| - |kept|)
  {
    assert all[t..] == [];
    assert kept + [] == kept;
  }
}
