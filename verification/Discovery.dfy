/** The listable kinds of a cluster, found in one document or version by version. */
module Discovery {
  import opened Prelude
  import opened Sorting

  datatype Kind = Kind(group: string, version: string, kind: string, plural: string, namespaced: bool, shortNames: seq<string>)

  predicate Less(a: Kind, b: Kind) {
    if a.group != b.group then LexLess(a.group, b.group) else LexLess(a.kind, b.kind)
  }

  function ByGroupAndKind(): (Kind, Kind) -> bool { (a, b) => Less(a, b) }

  predicate HasPlural(kinds: seq<Kind>, plural: string) { exists i :: 0 <= i < |kinds| && kinds[i].plural == plural }

  /** Each kind whose plural did not come before. */
  function FirstOnes(kinds: seq<Kind>): seq<Kind> {
    if kinds == [] then [] else
    var n := |kinds| - 1;
    var before := FirstOnes(kinds[..n]);
    if HasPlural(kinds[..n], kinds[n].plural) then before else before + [kinds[n]]
  }

  // ----- Aggregated discovery -----

  datatype AggResource = AggResource(resource: string, scope: string, responseKind: Option<string>, shortNames: seq<string>, verbs: seq<string>)

  datatype AggVersion = AggVersion(version: string, resources: seq<AggResource>)

  datatype AggGroup = AggGroup(name: string, versions: seq<AggVersion>)

  /** An answer to an aggregated discovery request. */
  datatype Document = Document(kind: string, items: seq<AggGroup>)

  function AggKind(group: string, version: string, r: AggResource): seq<Kind> {
    if '/' in r.resource || "list" !in r.verbs || r.responseKind.None? then [] else
    [Kind(group, version, r.responseKind.value, r.resource, r.scope == "Namespaced", r.shortNames)]
  }

  function AggKinds(group: string, version: string, rs: seq<AggResource>): seq<Kind> {
    if rs == [] then [] else AggKinds(group, version, rs[..|rs| - 1]) + AggKind(group, version, rs[|rs| - 1])
  }

  function AggVersions(group: string, vs: seq<AggVersion>): seq<Kind> {
    if vs == [] then [] else AggVersions(group, vs[..|vs| - 1]) + AggKinds(group, vs[|vs| - 1].version, vs[|vs| - 1].resources)
  }

  function AggGroups(gs: seq<AggGroup>): seq<Kind> {
    if gs == [] then [] else AggGroups(gs[..|gs| - 1]) + FirstOnes(AggVersions(gs[|gs| - 1].name, gs[|gs| - 1].versions))
  }

  function ParseFn(doc: Document): Option<seq<Kind>> {
    if doc.kind != "APIGroupDiscoveryList" then None else Some(Sort(ByGroupAndKind(), AggGroups(doc.items)))
  }

  /** `seen` holds the plurals of `kinds`. */
  ghost predicate Seen(seen: set<string>, kinds: seq<Kind>) { forall p :: p in seen <==> HasPlural(kinds, p) }

  lemma AddSeen(seen: set<string>, kinds: seq<Kind>, k: Kind)
    requires Seen(seen, kinds)
    ensures Seen(seen + {k.plural}, kinds + [k])
    ensures FirstOnes(kinds + [k]) == if k.plural in seen then FirstOnes(kinds) else FirstOnes(kinds) + [k]
  {
    var all := kinds + [k];
    assert all[..|kinds|] == kinds;
    forall p
      ensures p in seen + {k.plural} <==> HasPlural(all, p)
    {
      if p in seen {
        var i :| 0 <= i < |kinds| && kinds[i].plural == p;
        assert all[i].plural == p;
      }
      if p == k.plural {
        assert all[|kinds|].plural == p;
      }
      if HasPlural(all, p) && p != k.plural {
        var i :| 0 <= i < |all| && all[i].plural == p;
        assert kinds[i].plural == p;
      }
    }
  }

  /** Adds a kind whose plural was not seen. `all` is what was listed so far, `before` what earlier groups gave. */
  method Push(kinds: seq<Kind>, seen: set<string>, kind: Kind, ghost before: seq<Kind>, ghost all: seq<Kind>)
    returns (kinds': seq<Kind>, seen': set<string>)
    requires Seen(seen, all) && kinds == before + FirstOnes(all)
    ensures Seen(seen', all + [kind]) && kinds' == before + FirstOnes(all + [kind])
  {
    AddSeen(seen, all, kind);
    kinds', seen' := kinds, seen + {kind.plural};
    if kind.plural !in seen {
      kinds' := kinds' + [kind];
    }
  }

  lemma AggKindsStep(group: string, version: string, rs: seq<AggResource>, i: nat)
    requires i < |rs|
    ensures AggKinds(group, version, rs[..i + 1]) == AggKinds(group, version, rs[..i]) + AggKind(group, version, rs[i])
  {
    assert rs[..i + 1][..i] == rs[..i];
  }

  method ParseVersion(kinds: seq<Kind>, seen: set<string>, group: string, version: AggVersion, ghost before: seq<Kind>, ghost all: seq<Kind>)
    returns (kinds': seq<Kind>, seen': set<string>)
    requires Seen(seen, all) && kinds == before + FirstOnes(all)
    ensures var all' := all + AggKinds(group, version.version, version.resources);
            Seen(seen', all') && kinds' == before + FirstOnes(all')
  {
    kinds', seen' := kinds, seen;
    ghost var listed: seq<Kind> := [];
    assert all + listed == all;
    for i := 0 to |version.resources|
      invariant listed == AggKinds(group, version.version, version.resources[..i])
      invariant Seen(seen', all + listed) && kinds' == before + FirstOnes(all + listed)
    {
      var r := version.resources[i];
      AggKindsStep(group, version.version, version.resources, i);
      if '/' in r.resource || "list" !in r.verbs || r.responseKind.None? {
        continue;
      }
      var kind := Kind(group, version.version, r.responseKind.value, r.resource, r.scope == "Namespaced", r.shortNames);
      kinds', seen' := Push(kinds', seen', kind, before, all + listed);
      assert all + (listed + [kind]) == (all + listed) + [kind];
      listed := listed + [kind];
    }
    assert version.resources[..|version.resources|] == version.resources;
  }

  method ParseGroup(kinds: seq<Kind>, group: AggGroup) returns (kinds': seq<Kind>)
    ensures kinds' == kinds + FirstOnes(AggVersions(group.name, group.versions))
  {
    kinds' := kinds;
    var seen: set<string> := {};
    ghost var all: seq<Kind> := [];
    for v := 0 to |group.versions|
      invariant all == AggVersions(group.name, group.versions[..v])
      invariant Seen(seen, all) && kinds' == kinds + FirstOnes(all)
    {
      assert group.versions[..v + 1][..v] == group.versions[..v];
      kinds', seen := ParseVersion(kinds', seen, group.name, group.versions[v], kinds, all);
      all := all + AggKinds(group.name, group.versions[v].version, group.versions[v].resources);
    }
    assert group.versions[..|group.versions|] == group.versions;
  }

  method ParseAggregated(doc: Document) returns (r: Option<seq<Kind>>)
    ensures r == ParseFn(doc)
  {
    if doc.kind != "APIGroupDiscoveryList" {
      return None;
    }
    var kinds: seq<Kind> := [];
    for g := 0 to |doc.items|
      invariant kinds == AggGroups(doc.items[..g])
    {
      assert doc.items[..g + 1][..g] == doc.items[..g];
      kinds := ParseGroup(kinds, doc.items[g]);
    }
    assert doc.items[..|doc.items|] == doc.items;
    r := Some(Sort(ByGroupAndKind(), kinds));
  }

  /** The answers for `/api` and `/apis`; none when the server does not do it (406, 404). */
  function DiscoverFn(api: Option<Document>, apis: Option<Document>, legacy: seq<Kind>): seq<Kind> {
    if api.None? || ParseFn(api.value).None? || apis.None? || ParseFn(apis.value).None? then legacy else
    Sort(ByGroupAndKind(), ParseFn(api.value).value + ParseFn(apis.value).value)
  }

  // ----- Legacy discovery -----

  datatype Resource = Resource(name: string, kind: string, namespaced: bool, shortNames: Option<seq<string>>, verbs: seq<string>)

  /** A version and what its list request gives; none when it fails. */
  datatype Version = Version(version: string, resources: Option<seq<Resource>>)

  datatype Group = Group(name: string, preferred: Option<string>, versions: seq<Version>)

  function LegacyKind(group: string, version: string, r: Resource): seq<Kind> {
    if '/' in r.name || "list" !in r.verbs then [] else
    [Kind(group, version, r.kind, r.name, r.namespaced, if r.shortNames.Some? then r.shortNames.value else [])]
  }

  function ListedKinds(group: string, version: string, rs: seq<Resource>): seq<Kind> {
    if rs == [] then [] else ListedKinds(group, version, rs[..|rs| - 1]) + LegacyKind(group, version, rs[|rs| - 1])
  }

  function VersionKinds(group: string, v: Version): seq<Kind> {
    if v.resources.None? then [] else ListedKinds(group, v.version, v.resources.value)
  }

  function VersionsKinds(group: string, vs: seq<Version>): seq<Kind> {
    if vs == [] then [] else VersionsKinds(group, vs[..|vs| - 1]) + VersionKinds(group, vs[|vs| - 1])
  }

  /** The preferred version first, then the order the server lists. */
  function ByPreference(preferred: Option<string>): (Version, Version) -> bool {
    (a: Version, b: Version) => Some(a.version) == preferred && Some(b.version) != preferred
  }

  function Preferred(g: Group): seq<Version> { Sort(ByPreference(g.preferred), g.versions) }

  function GroupKinds(g: Group): seq<Kind> { FirstOnes(VersionsKinds(g.name, Preferred(g))) }

  function GroupsKinds(gs: seq<Group>): seq<Kind> {
    if gs == [] then [] else GroupsKinds(gs[..|gs| - 1]) + GroupKinds(gs[|gs| - 1])
  }

  function LegacyFn(core: seq<Version>, groups: seq<Group>): seq<Kind> {
    Sort(ByGroupAndKind(), FirstOnes(VersionsKinds("", core)) + GroupsKinds(groups))
  }

  lemma ListedStep(group: string, version: string, rs: seq<Resource>, i: nat)
    requires i < |rs|
    ensures ListedKinds(group, version, rs[..i + 1]) == ListedKinds(group, version, rs[..i]) + LegacyKind(group, version, rs[i])
  {
    assert rs[..i + 1][..i] == rs[..i];
  }

  /** Adds the listable resources of one list whose plural was not seen. */
  method PushLegacy(kinds: seq<Kind>, seen: set<string>, group: string, version: string, list: seq<Resource>,
                    ghost before: seq<Kind>, ghost all: seq<Kind>)
    returns (kinds': seq<Kind>, seen': set<string>)
    requires Seen(seen, all) && kinds == before + FirstOnes(all)
    ensures var all' := all + ListedKinds(group, version, list);
            Seen(seen', all') && kinds' == before + FirstOnes(all')
  {
    kinds', seen' := kinds, seen;
    ghost var listed: seq<Kind> := [];
    assert all + listed == all;
    for i := 0 to |list|
      invariant listed == ListedKinds(group, version, list[..i])
      invariant Seen(seen', all + listed) && kinds' == before + FirstOnes(all + listed)
    {
      var r := list[i];
      ListedStep(group, version, list, i);
      if '/' in r.name || "list" !in r.verbs {
        continue;
      }
      var kind := Kind(group, version, r.kind, r.name, r.namespaced, if r.shortNames.Some? then r.shortNames.value else []);
      kinds', seen' := Push(kinds', seen', kind, before, all + listed);
      assert all + (listed + [kind]) == (all + listed) + [kind];
      listed := listed + [kind];
    }
    assert list[..|list|] == list;
  }

  /** The versions of one group, in this order; one that fails is skipped. */
  method PushVersions(kinds: seq<Kind>, group: string, versions: seq<Version>) returns (kinds': seq<Kind>)
    ensures kinds' == kinds + FirstOnes(VersionsKinds(group, versions))
  {
    kinds' := kinds;
    var seen: set<string> := {};
    ghost var all: seq<Kind> := [];
    for v := 0 to |versions|
      invariant all == VersionsKinds(group, versions[..v])
      invariant Seen(seen, all) && kinds' == kinds + FirstOnes(all)
    {
      assert versions[..v + 1][..v] == versions[..v];
      if versions[v].resources.Some? {
        kinds', seen := PushLegacy(kinds', seen, group, versions[v].version, versions[v].resources.value, kinds, all);
      } else {
        assert all + VersionKinds(group, versions[v]) == all;
      }
      all := all + VersionKinds(group, versions[v]);
    }
    assert versions[..|versions|] == versions;
  }

  lemma GroupsStep(kinds: seq<Kind>, gs: seq<Group>, g: nat)
    requires g < |gs|
    ensures kinds + GroupsKinds(gs[..g + 1]) == (kinds + GroupsKinds(gs[..g])) + GroupKinds(gs[g])
  {
    assert gs[..g + 1][..g] == gs[..g];
  }

  method PushGroup(kinds: seq<Kind>, group: Group) returns (kinds': seq<Kind>)
    ensures kinds' == kinds + GroupKinds(group)
  {
    var versions := Sort(ByPreference(group.preferred), group.versions);
    kinds' := PushVersions(kinds, group.name, versions);
  }

  method PushGroups(kinds: seq<Kind>, groups: seq<Group>) returns (kinds': seq<Kind>)
    ensures kinds' == kinds + GroupsKinds(groups)
  {
    kinds' := kinds;
    for g := 0 to |groups|
      invariant kinds' == kinds + GroupsKinds(groups[..g])
    {
      kinds' := PushGroup(kinds', groups[g]);
      GroupsStep(kinds, groups, g);
    }
    assert groups[..|groups|] == groups;
  }

  method LegacyKinds(core: seq<Version>, groups: seq<Group>) returns (kinds: seq<Kind>)
    ensures kinds == LegacyFn(core, groups)
  {
    kinds := PushVersions([], "", core);
    assert [] + FirstOnes(VersionsKinds("", core)) == FirstOnes(VersionsKinds("", core));
    kinds := PushGroups(kinds, groups);
    kinds := Sort(ByGroupAndKind(), kinds);
  }
}
