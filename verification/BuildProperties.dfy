/** What a built tree holds, said without reference to how it is built. */
module BuildProperties {
  import opened Wrappers
  import opened ResourceTree
  import opened Filtering
  import opened Discovery
  import opened Build

  function GvrOf(q: Path): Gvr
    requires |q| >= 3
  {
    Gvr(q[0], q[1], q[2])
  }

  lemma {:induction false} SelectedAre(gvr: Gvr, items: seq<Item>, cluster: bool, namespaces: set<string>, q: Path)
    ensures q in Selected(gvr, items, cluster, namespaces) <==>
              exists item :: item in items && Wanted(gvr, item, cluster, namespaces)
                             && q == LeafPath(gvr, PlaceOf(item, cluster), item.name)
    ensures q in Selected(gvr, items, cluster, namespaces) ==>
              exists item :: item in items && Wanted(gvr, item, cluster, namespaces)
                             && q == LeafPath(gvr, PlaceOf(item, cluster), item.name)
                             && Selected(gvr, items, cluster, namespaces)[q] == PayloadOf(gvr, item, cluster)
  {
    if items != [] {
      SelectedAre(gvr, items[..|items| - 1], cluster, namespaces, q);
      var last := items[|items| - 1];
      assert items == items[..|items| - 1] + [last];
      assert last in items;
    }
  }

  /** The leaves of a resource are the wanted objects of its listing. */
  lemma LeavesAre(s: Supply, gvr: Gvr, q: Path)
    ensures q in LeavesOf(s, gvr) <==>
              gvr in s.items &&
              exists item :: item in s.items[gvr] && Wanted(gvr, item, gvr in s.clusterScoped, s.namespaces)
                             && q == LeafPath(gvr, PlaceOf(item, gvr in s.clusterScoped), item.name)
    ensures q in LeavesOf(s, gvr) ==>
              && IsLeaf(q) && GvrOf(q) == gvr
              && exists item :: item in s.items[gvr] && q[4] == item.name
                                && LeavesOf(s, gvr)[q] == PayloadOf(gvr, item, gvr in s.clusterScoped)
                                && q[3] == PlaceOf(item, gvr in s.clusterScoped)
  {
    if gvr in s.items {
      SelectedAre(gvr, s.items[gvr], gvr in s.clusterScoped, s.namespaces, q);
    }
  }

  /** Some list offers the resource, and the cluster-scope rule admits it. */
  ghost predicate Offered(s: Supply, offers: seq<Offer>, gvr: Gvr) {
    exists offer, api :: offer in offers && api in offer.apis && Offering(s, offer, api, gvr)
  }

  predicate Offering(s: Supply, offer: Offer, api: ApiResource, gvr: Gvr) {
    && ParseGroupVersion(offer.groupVersion) == Some((gvr.group, gvr.version))
    && api.name == gvr.resource && Admitted(api, s.clusterInclude)
  }

  /** The list of the group and version names the resource, and it is namespaced, or one of the two that are always
      taken, or all cluster-scoped ones are wanted. */
  predicate Names(offer: Offer, api: ApiResource, gvr: Gvr, clusterInclude: bool) {
    && (offer.groupVersion == gvr.group + "/" + gvr.version || (gvr.group == "" && offer.groupVersion == gvr.version))
    && api.name == gvr.resource
    && (clusterInclude || api.namespaced || api.name == "namespaces" || api.name == "persistentvolumes")
  }

  lemma OfferedIff(s: Supply, offers: seq<Offer>, gvr: Gvr)
    ensures Offered(s, offers, gvr) <==>
              && '/' !in gvr.group && '/' !in gvr.version
              && exists offer, api :: offer in offers && api in offer.apis && Names(offer, api, gvr, s.clusterInclude)
  {
    hide ParseGroupVersion;
    forall offer, api
      ensures Offering(s, offer, api, gvr) <==>
        '/' !in gvr.group && '/' !in gvr.version && Names(offer, api, gvr, s.clusterInclude)
    {
      ParsesIff(offer.groupVersion, gvr.group, gvr.version);
    }
  }

  lemma {:induction false} ApisLeavesAre(s: Supply, group: string, version: string, apis: seq<ApiResource>, q: Path)
    ensures q in ApisLeaves(s, group, version, apis) <==>
              && IsLeaf(q) && q[0] == group && q[1] == version && q in LeavesOf(s, GvrOf(q))
              && exists api :: api in apis && api.name == q[2] && Admitted(api, s.clusterInclude)
    ensures q in ApisLeaves(s, group, version, apis) ==>
              ApisLeaves(s, group, version, apis)[q] == LeavesOf(s, GvrOf(q))[q]
  {
    if apis != [] {
      var last := apis[|apis| - 1];
      ApisLeavesAre(s, group, version, apis[..|apis| - 1], q);
      LeavesAre(s, Gvr(group, version, last.name), q);
      assert apis == apis[..|apis| - 1] + [last];
    }
  }

  /** An object is a leaf of the built tree iff its resource is offered and admitted and
      the object is a wanted one of the resource's listing; it carries what was listed. */
  lemma {:induction false} BuiltExactly(s: Supply, offers: seq<Offer>, q: Path)
    ensures q in OffersLeaves(s, offers) <==>
              IsLeaf(q) && Offered(s, offers, GvrOf(q)) && q in LeavesOf(s, GvrOf(q))
    ensures q in OffersLeaves(s, offers) ==> OffersLeaves(s, offers)[q] == LeavesOf(s, GvrOf(q))[q]
  {
    if offers != [] {
      var last := offers[|offers| - 1];
      var front := offers[..|offers| - 1];
      BuiltExactly(s, front, q);
      assert offers == front + [last];
      match ParseGroupVersion(last.groupVersion)
      case None =>
      case Some((group, version)) =>
        ApisLeavesAre(s, group, version, last.apis, q);
        if q in ApisLeaves(s, group, version, last.apis) {
          var api :| api in last.apis && api.name == q[2] && Admitted(api, s.clusterInclude);
          assert Offering(s, last, api, GvrOf(q));
        }
    }
  }

  // ---- The shortened slice that the caller does not see shortened

  /** The discovery lists with what a filter rejects left out, and emptied lists with it. */
  function PureFilter(offers: seq<Offer>, f: Filter): seq<Offer> {
    if offers == [] then []
    else
      var last := offers[|offers| - 1];
      var kept := KeptApis(last.apis, f);
      PureFilter(offers[..|offers| - 1], f) + if kept != [] then [Offer(last.groupVersion, kept)] else []
  }

  lemma {:induction false} PureFilterOffers(s: Supply, offers: seq<Offer>, f: Filter, gvr: Gvr)
    ensures Offered(s, PureFilter(offers, f), gvr) <==> Offered(s, offers, gvr) && Passes(f, gvr.resource)
  {
    if offers != [] {
      var last := offers[|offers| - 1];
      var front := offers[..|offers| - 1];
      var kept := KeptApis(last.apis, f);
      PureFilterOffers(s, front, f, gvr);
      assert offers == front + [last];
      forall api
        ensures api in kept <==> api in last.apis && Passes(f, api.name)
      {
        KeptApisAre(last.apis, f, api);
      }
      if api :| api in last.apis && Offering(s, last, api, gvr) && Passes(f, gvr.resource) {
        assert api in kept && Offering(s, Offer(last.groupVersion, kept), api, gvr);
      }
      if api :| api in kept && Offering(s, Offer(last.groupVersion, kept), api, gvr) {
        assert Offering(s, last, api, gvr);
      }
    }
  }

  /** Emptied lists and repeated lists offer nothing new. */
  lemma StaleOffers(s: Supply, lists: seq<ApiResourceList>, gvr: Gvr)
    ensures Offered(s, Values(Stale(lists)), gvr) <==> Offered(s, Values(lists), gvr)
  {
    var stale := Stale(lists);
    ValuesAt(lists);
    ValuesAt(stale);
    NonEmptyFacts(lists);
    forall e | e in stale
      ensures e in lists
    {
      var copies := Copies(lists[|lists| - 1], |lists| - |NonEmpty(lists)|);
      assert stale == NonEmpty(lists) + copies;
      if e !in NonEmpty(lists) {
        assert e in copies;
        assert e == lists[|lists| - 1];
      } else {
        NonEmptyMember(lists, e);
      }
    }
    if offer, api :| offer in Values(stale) && api in offer.apis && Offering(s, offer, api, gvr) {
      var i :| 0 <= i < |stale| && Values(stale)[i] == offer;
      assert stale[i] in lists;
      var j :| 0 <= j < |lists| && lists[j] == stale[i];
      assert Values(lists)[j] == offer;
    }
    if offer, api :| offer in Values(lists) && api in offer.apis && Offering(s, offer, api, gvr) {
      var j :| 0 <= j < |lists| && Values(lists)[j] == offer;
      assert lists[j] in NonEmpty(lists);
      var i :| 0 <= i < |NonEmpty(lists)| && NonEmpty(lists)[i] == lists[j];
      assert stale[i] == lists[j] && Values(stale)[i] == offer;
    }
  }

  lemma ThinnedOffers(
    s: Supply, lists: seq<ApiResourceList>, first: seq<seq<ApiResource>>, offers: seq<Offer>, f: Filter, gvr: Gvr)
    requires AllThinned(lists, first, f) && |offers| == |lists|
    requires forall i :: 0 <= i < |lists| ==> offers[i] == Offer(lists[i].groupVersion, first[i])
    ensures Offered(s, Values(lists), gvr) <==> Offered(s, offers, gvr) && Passes(f, gvr.resource)
  {
    ValuesAt(lists);
    hide KeptApis, ParseGroupVersion, Admitted;
    forall i, api | 0 <= i < |lists|
      ensures api in lists[i].apiResources <==> api in offers[i].apis && Passes(f, api.name)
    {
      KeptApisAre(first[i], f, api);
    }
    if offer, api :| offer in Values(lists) && api in offer.apis && Offering(s, offer, api, gvr) {
      var i :| 0 <= i < |lists| && Values(lists)[i] == offer;
      assert offers[i] in offers && api in offers[i].apis && Offering(s, offers[i], api, gvr);
    }
    if offer, api :| offer in offers && api in offer.apis && Offering(s, offer, api, gvr) && Passes(f, gvr.resource) {
      var i :| 0 <= i < |offers| && offers[i] == offer;
      var here := Values(lists)[i];
      assert here in Values(lists) && api in here.apis && Offering(s, here, api, gvr);
    }
  }

  /** Although the caller of the compaction builds from its own longer slice, it builds the
      tree of the purely filtered lists. */
  lemma StaleSliceIsHarmless(
    s: Supply, lists: seq<ApiResourceList>, first: seq<seq<ApiResource>>, offers: seq<Offer>, f: Filter)
    requires AllThinned(lists, first, f) && |offers| == |lists|
    requires forall i :: 0 <= i < |lists| ==> offers[i] == Offer(lists[i].groupVersion, first[i])
    ensures OffersLeaves(s, Values(Stale(lists))) == OffersLeaves(s, PureFilter(offers, f))
  {
    var a, b := OffersLeaves(s, Values(Stale(lists))), OffersLeaves(s, PureFilter(offers, f));
    forall q
      ensures q in a <==> q in b
      ensures q in a ==> a[q] == b[q]
    {
      BuiltExactly(s, Values(Stale(lists)), q);
      BuiltExactly(s, PureFilter(offers, f), q);
      if IsLeaf(q) {
        StaleOffers(s, lists, GvrOf(q));
        ThinnedOffers(s, lists, first, offers, f, GvrOf(q));
        PureFilterOffers(s, offers, f, GvrOf(q));
      }
    }
  }

  // ---- What the built tree carries, and what it never has

  /** The metadata of each leaf agrees with its path and with the scope of its resource. */
  lemma BuiltTagged(t: map<Path, Node>, s: Supply, offers: seq<Offer>)
    requires Ok(t) && Fits(t, s) && LeafPayloads(t) == OffersLeaves(s, offers)
    ensures Tagged(t, Payloads(t))
    ensures forall q :: q in t && IsLeaf(q) ==> t[q].payload.definition.Some?
  {
    OkIsClosed(t);
    forall q | q in t && IsLeaf(q)
      ensures LeafTagged(t, Payloads(t), q) && t[q].payload.definition.Some?
    {
      assert q in LeafPayloads(t);
      BuiltExactly(s, offers, q);
      LeavesAre(s, GvrOf(q), q);
      PrefixIn(t.Keys, q[..3], q);
      var cluster := GvrOf(q) in s.clusterScoped;
      var item :| item in s.items[GvrOf(q)] && q[4] == item.name
                  && LeavesOf(s, GvrOf(q))[q] == PayloadOf(GvrOf(q), item, cluster) && q[3] == PlaceOf(item, cluster);
      assert LeafPath(GvrOf(q), q[3], q[4]) == q;
    }
  }

  /** Whatever the user's filter says, no namespaced resource has a built-out namespace. */
  lemma NoBuiltOutNamespace(
    t: map<Path, Node>, s: Supply, namespaces: seq<string>, names: Filter, user: Option<Filter>, at: Path)
    requires Closed(t.Keys) && Fits(t, s)
    requires forall name :: Passes(names, name) <==> Admits(user, DEFAULT_NAMESPACES, name)
    requires s.namespaces == NameSet(KeptNames(namespaces, names))
    requires at in t && |at| == 4
    ensures at[..3] in t
    ensures !t[at[..3]].isCluster ==> at[3] in namespaces && Admits(user, DEFAULT_NAMESPACES, at[3])
  {
    PrefixIn(t.Keys, at[..3], at);
    assert Lodged(at, s);
    KeptNamesAre(namespaces, names, at[3]);
  }

  /** Whatever the user's filter says, the tree has no built-out resource. */
  lemma NoBuiltOutResource(
    t: map<Path, Node>, s: Supply, offers: seq<Offer>, resources: Filter, user: Option<Filter>, p: Path)
    requires Closed(t.Keys) && NoEmptyInner(t.Keys, 1)
    requires forall name :: Passes(resources, name) <==> Admits(user, DEFAULT_RESOURCES, name)
    requires LeafPayloads(t) == OffersLeaves(s, PureFilter(offers, resources))
    requires p in t && |p| == 3
    ensures Offered(s, offers, GvrOf(p)) && Admits(user, DEFAULT_RESOURCES, p[2])
  {
    var q := LeafBelow(t.Keys, p);
    assert q in LeafPayloads(t);
    assert p == q[..3];
    BuiltExactly(s, PureFilter(offers, resources), q);
    PureFilterOffers(s, offers, resources, GvrOf(q));
  }
}
