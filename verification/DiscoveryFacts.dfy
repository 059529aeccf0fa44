/** Both ways of discovery agree, and what they find. */
module DiscoveryFacts {
  import opened Prelude
  import opened Lists
  import opened Sorting
  import opened Discovery

  // ----- What aggregated discovery answers for a cluster -----

  function Aggregate(r: Resource): AggResource {
    AggResource(r.name, if r.namespaced then "Namespaced" else "Cluster", Some(r.kind),
                if r.shortNames.Some? then r.shortNames.value else [], r.verbs)
  }

  function AggregateAll(rs: seq<Resource>): (a: seq<AggResource>)
    ensures |a| == |rs| && forall i :: 0 <= i < |rs| ==> a[i] == Aggregate(rs[i])
  {
    seq(|rs|, i requires 0 <= i < |rs| => Aggregate(rs[i]))
  }

  /** The versions that answer, in their order. */
  function Answering(vs: seq<Version>): seq<AggVersion> {
    if vs == [] then [] else
    Answering(vs[..|vs| - 1]) + (if vs[|vs| - 1].resources.None? then [] else
      [AggVersion(vs[|vs| - 1].version, AggregateAll(vs[|vs| - 1].resources.value))])
  }

  function AnsweringGroups(gs: seq<Group>): (a: seq<AggGroup>)
    ensures |a| == |gs| && forall i :: 0 <= i < |gs| ==> a[i] == AggGroup(gs[i].name, Answering(Preferred(gs[i])))
  {
    seq(|gs|, i requires 0 <= i < |gs| => AggGroup(gs[i].name, Answering(Preferred(gs[i]))))
  }

  function ApiDocument(core: seq<Version>): Document { Document("APIGroupDiscoveryList", [AggGroup("", Answering(core))]) }

  function ApisDocument(groups: seq<Group>): Document { Document("APIGroupDiscoveryList", AnsweringGroups(groups)) }

  lemma {:induction false} SameKinds(group: string, version: string, rs: seq<Resource>)
    ensures AggKinds(group, version, AggregateAll(rs)) == ListedKinds(group, version, rs)
  {
    if rs != [] {
      var n := |rs| - 1;
      SameKinds(group, version, rs[..n]);
      assert AggregateAll(rs)[..n] == AggregateAll(rs[..n]);
    }
  }

  lemma {:induction false} SameVersions(group: string, vs: seq<Version>)
    ensures AggVersions(group, Answering(vs)) == VersionsKinds(group, vs)
  {
    if vs != [] {
      var n := |vs| - 1;
      SameVersions(group, vs[..n]);
      var before, all := Answering(vs[..n]), Answering(vs);
      if vs[n].resources.Some? {
        SameKinds(group, vs[n].version, vs[n].resources.value);
        assert all[..|all| - 1] == before;
      } else {
        assert all == before;
      }
    }
  }

  lemma {:induction false} SameGroups(gs: seq<Group>)
    ensures AggGroups(AnsweringGroups(gs)) == GroupsKinds(gs)
  {
    if gs != [] {
      var n := |gs| - 1;
      SameGroups(gs[..n]);
      assert AnsweringGroups(gs)[..n] == AnsweringGroups(gs[..n]);
      SameVersions(gs[n].name, Preferred(gs[n]));
    }
  }

  lemma KindOrder()
    ensures Order(ByGroupAndKind())
  {
    forall a, b, c: Kind
      ensures !Less(a, a)
      ensures Less(a, b) && Less(b, c) ==> Less(a, c)
      ensures !Less(b, a) && !Less(c, b) ==> !Less(c, a)
    {
      LexTransitive(a.group, b.group, c.group);
      LexTransitive(a.kind, b.kind, c.kind);
      LexTransitive(b.group, a.group, b.group);
      NotLess(a, b, c);
    }
  }

  lemma NotLess(a: Kind, b: Kind, c: Kind)
    ensures !Less(b, a) && !Less(c, b) ==> !Less(c, a)
  {
    LexTotal(a.group, b.group);
    LexTotal(b.group, c.group);
    LexTotal(a.kind, b.kind);
    LexTotal(b.kind, c.kind);
    LexTransitive(c.group, a.group, b.group);
    LexTransitive(b.group, c.group, a.group);
    LexTransitive(c.kind, a.kind, b.kind);
    LexTransitive(b.kind, c.kind, a.kind);
    LexTransitive(c.group, a.group, c.group);
  }

  /**
   * Legacy discovery of a cluster with any group versions failing gives the same
   * list, in the same order, as aggregated discovery of the cluster without them.
   */
  lemma LegacyIsAggregated(core: seq<Version>, groups: seq<Group>, otherwise: seq<Kind>)
    ensures LegacyFn(core, groups) == DiscoverFn(Some(ApiDocument(core)), Some(ApisDocument(groups)), otherwise)
  {
    SameVersions("", core);
    SameGroups(groups);
    var items := ApiDocument(core).items;
    assert items[..0] == [];
    assert [] + FirstOnes(VersionsKinds("", core)) == FirstOnes(VersionsKinds("", core));
    assert AggGroups(items) == FirstOnes(VersionsKinds("", core));
    KindOrder();
    SortInParts(ByGroupAndKind(), FirstOnes(VersionsKinds("", core)), GroupsKinds(groups));
  }

  // ----- What is found -----

  /** No kind before `i` has its plural. */
  predicate IsFirst(kinds: seq<Kind>, i: nat) {
    i < |kinds| && forall k :: 0 <= k < i ==> kinds[k].plural != kinds[i].plural
  }

  predicate OncePerPlural(kinds: seq<Kind>) { forall i, j :: 0 <= i < j < |kinds| ==> kinds[i].plural != kinds[j].plural }

  lemma {:induction false} FirstOnesWithin(kinds: seq<Kind>, k: Kind) returns (i: nat)
    requires k in FirstOnes(kinds)
    ensures IsFirst(kinds, i) && kinds[i] == k
    decreases |kinds|
  {
    var n := |kinds| - 1;
    if k in FirstOnes(kinds[..n]) {
      i := FirstOnesWithin(kinds[..n], k);
    } else {
      i := n;
      forall a | 0 <= a < n
        ensures kinds[a].plural != kinds[n].plural
      {
        assert kinds[a] == kinds[..n][a];
      }
    }
  }

  lemma {:induction false} FirstOnesHold(kinds: seq<Kind>, i: nat)
    requires IsFirst(kinds, i)
    ensures kinds[i] in FirstOnes(kinds)
    decreases |kinds|
  {
    var n := |kinds| - 1;
    if i < n {
      FirstOnesHold(kinds[..n], i);
    }
  }

  /** Each plural once. */
  lemma {:induction false} FirstOnesOnce(kinds: seq<Kind>)
    ensures OncePerPlural(FirstOnes(kinds))
  {
    if kinds != [] {
      var n := |kinds| - 1;
      FirstOnesOnce(kinds[..n]);
      if !HasPlural(kinds[..n], kinds[n].plural) {
        var before := FirstOnes(kinds[..n]);
        forall i | 0 <= i < |before|
          ensures before[i].plural != kinds[n].plural
        {
          var j := FirstOnesWithin(kinds[..n], before[i]);
        }
      }
    }
  }

  // ----- The order of preference -----

  /** The versions that are the preferred one, or those that are not, as the server lists them. */
  function Chosen(vs: seq<Version>, preferred: Option<string>, wanted: bool): seq<Version> {
    if vs == [] then [] else
    var v := vs[|vs| - 1];
    Chosen(vs[..|vs| - 1], preferred, wanted) + if (Some(v.version) == preferred) == wanted then [v] else []
  }

  lemma {:induction false} ChosenAre(vs: seq<Version>, preferred: Option<string>, wanted: bool)
    ensures forall v :: v in Chosen(vs, preferred, wanted) <==> v in vs && (Some(v.version) == preferred) == wanted
  {
    if vs != [] {
      ChosenAre(vs[..|vs| - 1], preferred, wanted);
      assert vs == vs[..|vs| - 1] + [vs[|vs| - 1]];
    }
  }

  /** An element goes behind what it is not less than, and before what it is less than. */
  lemma {:induction false} InsertBehind<T>(less: (T, T) -> bool, a: seq<T>, b: seq<T>, x: T)
    requires forall i :: 0 <= i < |a| ==> !less(x, a[i])
    requires b != [] ==> less(x, b[0])
    ensures Insert(less, a + b, x) == a + [x] + b
  {
    if a == [] {
      assert a + b == b;
    } else {
      InsertBehind(less, a[1..], b, x);
      assert (a + b)[1..] == a[1..] + b;
    }
  }

  /** One more version keeps the preferred ones before the others. */
  lemma {:induction false} OneMoreVersion(yes: seq<Version>, no: seq<Version>, v: Version, preferred: Option<string>)
    requires forall u :: u in yes ==> Some(u.version) == preferred
    requires forall u :: u in no ==> Some(u.version) != preferred
    ensures Insert(ByPreference(preferred), yes + no, v) == if Some(v.version) == preferred then yes + [v] + no else yes + no + [v]
  {
    if Some(v.version) == preferred {
      InsertBehind(ByPreference(preferred), yes, no, v);
    } else {
      InsertBehind(ByPreference(preferred), yes + no, [], v);
      assert yes + no + [] == yes + no;
      assert yes + no + [v] + [] == yes + no + [v];
    }
  }

  /** The preferred version comes first, then the others in the server's order. */
  lemma {:induction false} PreferredComesFirst(vs: seq<Version>, preferred: Option<string>)
    ensures Order(ByPreference(preferred))
    ensures Sort(ByPreference(preferred), vs) == Chosen(vs, preferred, true) + Chosen(vs, preferred, false)
  {
    if vs != [] {
      var before, v := vs[..|vs| - 1], vs[|vs| - 1];
      PreferredComesFirst(before, preferred);
      var yes, no := Chosen(before, preferred, true), Chosen(before, preferred, false);
      ChosenAre(before, preferred, true);
      ChosenAre(before, preferred, false);
      OneMoreVersion(yes, no, v, preferred);
      assert yes + no + [v] == yes + (no + [v]);
    }
  }

  // ----- What the versions serve -----

  /** Version `v` lists a kind with this plural. */
  predicate ServesPlural(group: string, v: Version, plural: string) { HasPlural(VersionKinds(group, v), plural) }

  /** `k` is what the most preferred answering version with its plural serves first. */
  ghost predicate MostPreferred(group: string, vs: seq<Version>, k: Kind) {
    exists v, i: nat :: 0 <= v < |vs| && IsFirst(VersionKinds(group, vs[v]), i) && VersionKinds(group, vs[v])[i] == k
      && forall w :: 0 <= w < v ==> !ServesPlural(group, vs[w], k.plural)
  }

  lemma PluralJoins(a: seq<Kind>, b: seq<Kind>, plural: string)
    ensures HasPlural(a + b, plural) <==> HasPlural(a, plural) || HasPlural(b, plural)
  {
    if HasPlural(a, plural) {
      var i :| 0 <= i < |a| && a[i].plural == plural;
      assert (a + b)[i].plural == plural;
    }
    if HasPlural(b, plural) {
      var i :| 0 <= i < |b| && b[i].plural == plural;
      assert (a + b)[|a| + i].plural == plural;
    }
    if HasPlural(a + b, plural) {
      var i :| 0 <= i < |a + b| && (a + b)[i].plural == plural;
      assert if i < |a| then a[i].plural == plural else b[i - |a|].plural == plural;
    }
  }

  lemma {:induction false} ListedThenServed(group: string, vs: seq<Version>, plural: string) returns (v: nat)
    requires HasPlural(VersionsKinds(group, vs), plural)
    ensures v < |vs| && ServesPlural(group, vs[v], plural)
    decreases |vs|
  {
    var n := |vs| - 1;
    PluralJoins(VersionsKinds(group, vs[..n]), VersionKinds(group, vs[n]), plural);
    if HasPlural(VersionsKinds(group, vs[..n]), plural) {
      v := ListedThenServed(group, vs[..n], plural);
    } else {
      v := n;
    }
  }

  /** The first kinds of a list in two parts: those of the first, and of the second what the first has not. */
  lemma FirstInParts(a: seq<Kind>, b: seq<Kind>, i: nat)
    requires i < |a| + |b|
    ensures IsFirst(a + b, i) <==> if i < |a| then IsFirst(a, i) else IsFirst(b, i - |a|) && !HasPlural(a, b[i - |a|].plural)
  {
    var s := a + b;
    if i < |a| {
      assert forall k :: 0 <= k <= i ==> s[k] == a[k];
    } else {
      assert forall k :: 0 <= k < |a| ==> s[k] == a[k];
      assert forall k :: 0 <= k < |b| ==> s[|a| + k] == b[k];
      if IsFirst(s, i) {
        forall k | 0 <= k < i - |a|
          ensures b[k].plural != b[i - |a|].plural
        {
          assert s[|a| + k].plural != s[i].plural;
        }
      }
    }
  }

  lemma {:induction false} ServedThenListed(group: string, vs: seq<Version>, v: nat, plural: string)
    requires v < |vs| && ServesPlural(group, vs[v], plural)
    ensures HasPlural(VersionsKinds(group, vs), plural)
    decreases |vs|
  {
    var n := |vs| - 1;
    PluralJoins(VersionsKinds(group, vs[..n]), VersionKinds(group, vs[n]), plural);
    if v < n {
      ServedThenListed(group, vs[..n], v, plural);
    }
  }

  lemma {:induction false} FirstIsPreferred(group: string, vs: seq<Version>, i: nat)
    requires IsFirst(VersionsKinds(group, vs), i)
    ensures MostPreferred(group, vs, VersionsKinds(group, vs)[i])
    decreases |vs|
  {
    var n := |vs| - 1;
    var a, b := VersionsKinds(group, vs[..n]), VersionKinds(group, vs[n]);
    var k := VersionsKinds(group, vs)[i];
    FirstInParts(a, b, i);
    if i < |a| {
      FirstIsPreferred(group, vs[..n], i);
      var v, j: nat :| 0 <= v < n && IsFirst(VersionKinds(group, vs[..n][v]), j) && VersionKinds(group, vs[..n][v])[j] == k
        && forall w :: 0 <= w < v ==> !ServesPlural(group, vs[..n][w], k.plural);
      assert forall w :: 0 <= w < v ==> vs[..n][w] == vs[w];
      assert IsFirst(VersionKinds(group, vs[v]), j) && VersionKinds(group, vs[v])[j] == k;
    } else {
      forall w | 0 <= w < n
        ensures !ServesPlural(group, vs[w], k.plural)
      {
        if ServesPlural(group, vs[w], k.plural) {
          ServedThenListed(group, vs[..n], w, k.plural);
        }
      }
      assert IsFirst(VersionKinds(group, vs[n]), i - |a|) && VersionKinds(group, vs[n])[i - |a|] == k;
    }
  }

  lemma {:induction false} NoneServes(group: string, vs: seq<Version>, plural: string)
    requires forall w :: 0 <= w < |vs| ==> !ServesPlural(group, vs[w], plural)
    ensures !HasPlural(VersionsKinds(group, vs), plural)
  {
    if HasPlural(VersionsKinds(group, vs), plural) {
      var v := ListedThenServed(group, vs, plural);
    }
  }

  lemma {:induction false} PreferredIsFirst(group: string, vs: seq<Version>, v: nat, j: nat) returns (i: nat)
    requires v < |vs| && IsFirst(VersionKinds(group, vs[v]), j)
    requires forall w :: 0 <= w < v ==> !ServesPlural(group, vs[w], VersionKinds(group, vs[v])[j].plural)
    ensures IsFirst(VersionsKinds(group, vs), i) && VersionsKinds(group, vs)[i] == VersionKinds(group, vs[v])[j]
    decreases |vs|
  {
    var n := |vs| - 1;
    var a, b := VersionsKinds(group, vs[..n]), VersionKinds(group, vs[n]);
    assert forall w :: 0 <= w < n ==> vs[..n][w] == vs[w];
    if v < n {
      i := PreferredIsFirst(group, vs[..n], v, j);
    } else {
      NoneServes(group, vs[..n], b[j].plural);
      i := |a| + j;
    }
    FirstInParts(a, b, i);
  }

  /** What a group gives: each plural once, at its most preferred answering version. */
  lemma {:induction false} GroupGives(group: string, vs: seq<Version>, k: Kind)
    ensures OncePerPlural(FirstOnes(VersionsKinds(group, vs)))
    ensures k in FirstOnes(VersionsKinds(group, vs)) <==> MostPreferred(group, vs, k)
  {
    FirstOnesOnce(VersionsKinds(group, vs));
    if k in FirstOnes(VersionsKinds(group, vs)) {
      var i := FirstOnesWithin(VersionsKinds(group, vs), k);
      FirstIsPreferred(group, vs, i);
    }
    if MostPreferred(group, vs, k) {
      var v, j: nat :| 0 <= v < |vs| && IsFirst(VersionKinds(group, vs[v]), j) && VersionKinds(group, vs[v])[j] == k
        && forall w :: 0 <= w < v ==> !ServesPlural(group, vs[w], k.plural);
      var i := PreferredIsFirst(group, vs, v, j);
      FirstOnesHold(VersionsKinds(group, vs), i);
    }
  }

  // ----- The whole list -----

  /** What the group of `k` serves at best; the core group is the one without a name. */
  ghost predicate Found(core: seq<Version>, groups: seq<Group>, k: Kind) {
    MostPreferred("", core, k) || exists g :: 0 <= g < |groups| && GroupFound(groups[g], k)
  }

  ghost predicate GroupFound(g: Group, k: Kind) { MostPreferred(g.name, Preferred(g), k) }

  lemma {:induction false} OfAGroup(gs: seq<Group>, k: Kind) returns (g: nat)
    requires k in GroupsKinds(gs)
    ensures g < |gs| && k in GroupKinds(gs[g])
    decreases |gs|
  {
    var n := |gs| - 1;
    if k in GroupsKinds(gs[..n]) {
      g := OfAGroup(gs[..n], k);
    } else {
      g := n;
    }
  }

  lemma {:induction false} AmongGroups(gs: seq<Group>, g: nat, k: Kind)
    requires g < |gs| && k in GroupKinds(gs[g])
    ensures k in GroupsKinds(gs)
    decreases |gs|
  {
    var n := |gs| - 1;
    var before, own := GroupsKinds(gs[..n]), GroupKinds(gs[n]);
    if g < n {
      assert gs[..n][g] == gs[g];
      AmongGroups(gs[..n], g, k);
    }
    assert k in before || k in own;
    assert GroupsKinds(gs) == before + own;
  }

  lemma {:induction false} InGroups(gs: seq<Group>, k: Kind)
    ensures k in GroupsKinds(gs) <==> exists g :: 0 <= g < |gs| && GroupFound(gs[g], k)
  {
    if k in GroupsKinds(gs) {
      var g := OfAGroup(gs, k);
      GroupGives(gs[g].name, Preferred(gs[g]), k);
      assert GroupFound(gs[g], k);
    }
    if exists g :: 0 <= g < |gs| && GroupFound(gs[g], k) {
      var g :| 0 <= g < |gs| && GroupFound(gs[g], k);
      GroupGives(gs[g].name, Preferred(gs[g]), k);
      AmongGroups(gs, g, k);
    }
  }

  /** Discovery lists exactly what the groups serve at best, sorted by group and kind. */
  lemma DiscoveryFinds(core: seq<Version>, groups: seq<Group>, k: Kind)
    ensures k in LegacyFn(core, groups) <==> Found(core, groups, k)
    ensures Sorted(ByGroupAndKind(), LegacyFn(core, groups))
  {
    var all := FirstOnes(VersionsKinds("", core)) + GroupsKinds(groups);
    KindOrder();
    SortSorts(ByGroupAndKind(), all);
    SortHolds(ByGroupAndKind(), all);
    assert k in LegacyFn(core, groups) <==> k in multiset(LegacyFn(core, groups));
    assert k in all <==> k in multiset(all);
    GroupGives("", core, k);
    InGroups(groups, k);
  }

  // ----- Nothing twice -----

  function GroupAndPlural(k: Kind): (string, string) { (k.group, k.plural) }

  lemma {:induction false} ListedGroup(group: string, version: string, rs: seq<Resource>)
    ensures forall i :: 0 <= i < |ListedKinds(group, version, rs)| ==> ListedKinds(group, version, rs)[i].group == group
  {
    if rs != [] {
      ListedGroup(group, version, rs[..|rs| - 1]);
    }
  }

  lemma {:induction false} VersionsGroup(group: string, vs: seq<Version>)
    ensures forall i :: 0 <= i < |VersionsKinds(group, vs)| ==> VersionsKinds(group, vs)[i].group == group
  {
    if vs != [] {
      var v := vs[|vs| - 1];
      VersionsGroup(group, vs[..|vs| - 1]);
      if v.resources.Some? {
        ListedGroup(group, v.version, v.resources.value);
      }
    }
  }

  lemma GroupOnce(group: string, vs: seq<Version>)
    ensures var own := FirstOnes(VersionsKinds(group, vs));
            DistinctBy(own, GroupAndPlural) && forall k :: k in own ==> k.group == group
  {
    var own := FirstOnes(VersionsKinds(group, vs));
    FirstOnesOnce(VersionsKinds(group, vs));
    VersionsGroup(group, vs);
    forall k | k in own
      ensures k.group == group
    {
      var i := FirstOnesWithin(VersionsKinds(group, vs), k);
    }
  }

  predicate NamedApart(gs: seq<Group>) { forall i, j :: 0 <= i < j < |gs| ==> gs[i].name != gs[j].name }

  /** Lists whose kinds are of different groups. */
  lemma {:induction false} JoinOnce(a: seq<Kind>, b: seq<Kind>)
    requires DistinctBy(a, GroupAndPlural) && DistinctBy(b, GroupAndPlural)
    requires forall x, y :: x in a && y in b ==> x.group != y.group
    ensures DistinctBy(a + b, GroupAndPlural)
  {
    forall i, j | 0 <= i < j < |a + b|
      ensures GroupAndPlural((a + b)[i]) != GroupAndPlural((a + b)[j])
    {
      if i < |a| <= j {
        assert a[i] in a && b[j - |a|] in b;
      }
    }
  }

  lemma {:induction false} GroupsOnce(gs: seq<Group>)
    requires NamedApart(gs)
    ensures DistinctBy(GroupsKinds(gs), GroupAndPlural)
    ensures forall k :: k in GroupsKinds(gs) ==> exists g :: 0 <= g < |gs| && gs[g].name == k.group
    decreases |gs|
  {
    if gs != [] {
      var n := |gs| - 1;
      var before, own := GroupsKinds(gs[..n]), GroupKinds(gs[n]);
      GroupsOnce(gs[..n]);
      GroupOnce(gs[n].name, Preferred(gs[n]));
      forall k | k in before
        ensures k.group != gs[n].name && exists g :: 0 <= g < |gs| && gs[g].name == k.group
      {
        var g :| 0 <= g < n && gs[..n][g].name == k.group;
        assert gs[g].name == k.group;
      }
      JoinOnce(before, own);
    }
  }

  /** No group and plural is listed twice. */
  lemma DiscoveryListsOnce(core: seq<Version>, groups: seq<Group>)
    requires NamedApart(groups) && forall g :: 0 <= g < |groups| ==> groups[g].name != ""
    ensures DistinctBy(LegacyFn(core, groups), GroupAndPlural)
  {
    var first, more := FirstOnes(VersionsKinds("", core)), GroupsKinds(groups);
    GroupOnce("", core);
    GroupsOnce(groups);
    JoinOnce(first, more);
    SortHolds(ByGroupAndKind(), first + more);
    SameBagDistinct(LegacyFn(core, groups), first + more, GroupAndPlural);
  }
}
