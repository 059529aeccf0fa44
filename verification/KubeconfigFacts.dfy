/** What the merged kubeconfig means, file by file, and what survives a save. */
module KubeconfigFacts {
  import opened Prelude
  import opened Kubeconfig

  predicate OnDisk(disk: Disk, ps: seq<Path>) { forall p :: p in ps ==> p in disk }

  predicate Distinct(ps: seq<Path>) { forall i, j :: 0 <= i < j < |ps| ==> ps[i] != ps[j] }

  // ----- Where a context comes from -----

  /** The first file that lists context `name`. */
  function OwnPath(disk: Disk, ps: seq<Path>, name: string): (r: Option<Path>)
    requires OnDisk(disk, ps)
    ensures r.Some? ==> r.value in ps && HasName(disk[r.value].contexts, name)
  {
    if ps == [] then None else
    var p := ps[|ps| - 1];
    OrElse(OwnPath(disk, ps[..|ps| - 1], name), if HasName(disk[p].contexts, name) then Some(p) else None)
  }

  lemma {:induction false} AddedContexts(c: Contexts, path: Path, xs: seq<Named<Option<Details>>>, name: string)
    requires name in c.sources <==> HasName(c.merged, name)
    ensures var after := AddContexts(c, path, xs);
            && Find(after.merged, name) == OrElse(Find(c.merged, name), Find(xs, name))
            && (name in after.sources <==> HasName(after.merged, name))
            && (name in after.sources ==> after.sources[name] == if name in c.sources then c.sources[name] else path)
  {
    if xs != [] {
      var before, x := xs[..|xs| - 1], xs[|xs| - 1];
      AddedContexts(c, path, before, name);
      AddedContext(AddContexts(c, path, before), path, x, name);
      assert xs == before + [x];
      FindInSum(before, [x], name);
    }
  }

  lemma {:induction false} AddedContext(c: Contexts, path: Path, x: Named<Option<Details>>, name: string)
    requires name in c.sources <==> HasName(c.merged, name)
    ensures var after := AddContext(c, path, x);
            && Find(after.merged, name) == OrElse(Find(c.merged, name), Find([x], name))
            && (name in after.sources <==> HasName(after.merged, name))
            && (name in after.sources ==> after.sources[name] == if name in c.sources then c.sources[name] else path)
  {
    FindInSum(c.merged, [x], name);
  }

  /** The merged entry of a context, its source and that file's clusters. */
  lemma {:induction false} ContextComesFrom(disk: Disk, ps: seq<Path>, name: string)
    requires OnDisk(disk, ps)
    ensures var c := Fold(disk, ps).merge.contexts;
            var own := OwnPath(disk, ps, name);
            && (own.Some? <==> name in c.sources) && (own.Some? <==> HasName(c.merged, name))
            && (own.Some? ==> c.sources[name] == own.value && Find(c.merged, name) == Find(disk[own.value].contexts, name))
  {
    if ps != [] {
      var before, p := ps[..|ps| - 1], ps[|ps| - 1];
      ContextComesFrom(disk, before, name);
      AddedContexts(Fold(disk, before).merge.contexts, p, disk[p].contexts, name);
    }
  }

  lemma {:induction false} FileClustersKept(disk: Disk, ps: seq<Path>, p: Path)
    requires OnDisk(disk, ps) && p in ps
    ensures p in Fold(disk, ps).merge.fileClusters && Fold(disk, ps).merge.fileClusters[p] == disk[p].clusters
  {
    var before, last := ps[..|ps| - 1], ps[|ps| - 1];
    assert ps == before + [last];
    if p != last {
      FileClustersKept(disk, before, p);
    }
  }

  // ----- What each file contributes and hides -----

  function Names<T>(xs: seq<Named<T>>): seq<string> {
    seq(|xs|, i requires 0 <= i < |xs| => xs[i].name)
  }

  /** The merged contexts are distinct, and `sources` has exactly their names. */
  ghost predicate Consistent(c: Contexts) {
    && (forall name :: name in c.sources.Keys <==> HasName(c.merged, name))
    && |c.sources.Keys| == |c.merged|
  }

  lemma HasNamePushed<T>(xs: seq<Named<T>>, x: Named<T>, name: string)
    ensures HasName(xs + [x], name) <==> HasName(xs, name) || x.name == name
  {
    if HasName(xs, name) {
      var i :| 0 <= i < |xs| && xs[i].name == name;
      assert (xs + [x])[i].name == name;
    }
    assert (xs + [x])[|xs|] == x;
  }

  lemma SourceAdded(sources: map<string, Path>, path: Path, name: string)
    requires name !in sources
    ensures sources[name := path].Keys == sources.Keys + {name}
    ensures From(sources[name := path], path) == From(sources, path) + {name}
    ensures forall p :: p != path ==> From(sources[name := path], p) == From(sources, p)
  {
  }

  lemma AddedOne(b: Contexts, path: Path, x: Named<Option<Details>>)
    requires Consistent(b) && !HasName(b.merged, x.name)
    ensures x.name !in b.sources
    ensures Consistent(Contexts(b.merged + [x], b.sources[x.name := path], b.shadowed))
  {
    assert x.name !in b.sources.Keys;
    SourceAdded(b.sources, path, x.name);
    forall name
      ensures HasName(b.merged + [x], name) <==> HasName(b.merged, name) || name == x.name
    {
      HasNamePushed(b.merged, x, name);
    }
  }

  lemma MultisetPlus(s: set<string>, x: string)
    requires x !in s
    ensures multiset(s + {x}) == multiset(s) + multiset{x} && |s + {x}| == |s| + 1
  {
  }

  /** `after` has one context more than `b` to account for, named `name`, listed by `path`. */
  ghost predicate Accounts(b: Contexts, after: Contexts, path: Path, name: string) {
    && Consistent(after)
    && |after.merged| - |b.merged| == |From(after.sources, path)| - |From(b.sources, path)|
    && multiset(From(after.sources, path)) + multiset(ShadowedBy(after, path))
       == multiset(From(b.sources, path)) + multiset(ShadowedBy(b, path)) + multiset{name}
    && (forall p :: p != path ==> From(after.sources, p) == From(b.sources, p) && ShadowedBy(after, p) == ShadowedBy(b, p))
  }

  lemma HiddenStep(b: Contexts, path: Path, x: Named<Option<Details>>)
    requires Consistent(b)
    ensures Accounts(b, b.(shadowed := b.shadowed[path := ShadowedBy(b, path) + [x.name]]), path, x.name)
  {
  }

  lemma ContributedStep(b: Contexts, path: Path, x: Named<Option<Details>>)
    requires Consistent(b) && !HasName(b.merged, x.name)
    ensures Accounts(b, Contexts(b.merged + [x], b.sources[x.name := path], b.shadowed), path, x.name)
  {
    var after := Contexts(b.merged + [x], b.sources[x.name := path], b.shadowed);
    assert x.name !in b.sources && Consistent(after) by {
      AddedOne(b, path, x);
    }
    SourceAdded(b.sources, path, x.name);
    OneMoreFrom(b, after, path, x.name);
  }

  lemma {:induction false} OneMoreFrom(b: Contexts, after: Contexts, path: Path, name: string)
    requires Consistent(after) && |after.merged| == |b.merged| + 1 && after.shadowed == b.shadowed
    requires From(after.sources, path) == From(b.sources, path) + {name} && name !in From(b.sources, path)
    requires forall p :: p != path ==> From(after.sources, p) == From(b.sources, p)
    ensures Accounts(b, after, path, name)
  {
    MultisetPlus(From(b.sources, path), name);
  }

  lemma {:induction false} AddedAccount(c: Contexts, path: Path, xs: seq<Named<Option<Details>>>)
    requires Consistent(c) && From(c.sources, path) == {} && ShadowedBy(c, path) == []
    ensures var after := AddContexts(c, path, xs);
            && Consistent(after)
            && |after.merged| == |c.merged| + |From(after.sources, path)|
            && multiset(Names(xs)) == multiset(From(after.sources, path)) + multiset(ShadowedBy(after, path))
            && (forall p :: p != path ==> From(after.sources, p) == From(c.sources, p) && ShadowedBy(after, p) == ShadowedBy(c, p))
  {
    if xs != [] {
      var n := |xs| - 1;
      AddedAccount(c, path, xs[..n]);
      AddAccounts(AddContexts(c, path, xs[..n]), path, xs[n]);
      NamesStep(xs);
    }
  }

  lemma NamesStep(xs: seq<Named<Option<Details>>>)
    requires xs != []
    ensures multiset(Names(xs)) == multiset(Names(xs[..|xs| - 1])) + multiset{xs[|xs| - 1].name}
  {
    assert Names(xs) == Names(xs[..|xs| - 1]) + [xs[|xs| - 1].name];
  }

  /** One listed context is contributed or hidden. */
  lemma AddAccounts(b: Contexts, path: Path, x: Named<Option<Details>>)
    requires Consistent(b)
    ensures Accounts(b, AddContext(b, path, x), path, x.name)
  {
    if HasName(b.merged, x.name) {
      HiddenStep(b, path, x);
    } else {
      ContributedStep(b, path, x);
    }
  }

  function Contributed(sources: map<string, Path>, ps: seq<Path>): nat {
    if ps == [] then 0 else Contributed(sources, ps[..|ps| - 1]) + |From(sources, ps[|ps| - 1])|
  }

  lemma {:induction false} ContributedSame(a: map<string, Path>, b: map<string, Path>, ps: seq<Path>)
    requires forall p :: p in ps ==> From(a, p) == From(b, p)
    ensures Contributed(a, ps) == Contributed(b, ps)
  {
    if ps != [] {
      ContributedSame(a, b, ps[..|ps| - 1]);
    }
  }

  /** The files that are there account for the merged contexts. */
  lemma {:induction false} FoldAccounts(disk: Disk, ps: seq<Path>)
    requires OnDisk(disk, ps) && Distinct(ps)
    ensures var c := Fold(disk, ps).merge.contexts;
            && Consistent(c)
            && |c.merged| == Contributed(c.sources, ps)
            && (forall p :: p in ps ==>
                  multiset(Names(disk[p].contexts)) == multiset(From(c.sources, p)) + multiset(ShadowedBy(c, p)))
            && (forall p :: p !in ps ==> From(c.sources, p) == {} && ShadowedBy(c, p) == [])
  {
    if ps != [] {
      var before, last := ps[..|ps| - 1], ps[|ps| - 1];
      assert ps == before + [last];
      FoldAccounts(disk, before);
      var b, c := Fold(disk, before).merge.contexts, Fold(disk, ps).merge.contexts;
      AddedAccount(b, last, disk[last].contexts);
      ContributedSame(b.sources, c.sources, before);
    }
  }

  lemma {:induction false} ExistingIs(disk: Disk, paths: seq<Path>)
    ensures forall p :: p in Existing(disk, paths) <==> p in paths && p in disk
    ensures Distinct(paths) ==> Distinct(Existing(disk, paths))
  {
    if paths != [] {
      var before, last := paths[..|paths| - 1], paths[|paths| - 1];
      ExistingIs(disk, before);
      assert paths == before + [last];
      if Distinct(paths) {
        assert forall i :: 0 <= i < |before| ==> before[i] == paths[i] && before[i] != last;
        assert last !in before;
      }
    }
  }

  /** Files that are not there contribute nothing. */
  lemma {:induction false} ContributedByExisting(disk: Disk, sources: map<string, Path>, paths: seq<Path>)
    requires forall p :: p in paths && p !in disk ==> From(sources, p) == {}
    ensures Contributed(sources, paths) == Contributed(sources, Existing(disk, paths))
  {
    if paths != [] {
      var before, last := paths[..|paths| - 1], paths[|paths| - 1];
      assert paths == before + [last];
      assert last in paths && forall p :: p in before ==> p in paths;
      ContributedByExisting(disk, sources, before);
      var ps := Existing(disk, paths);
      if last in disk {
        assert ps[..|ps| - 1] == Existing(disk, before);
      } else {
        assert From(sources, last) == {} && ps == Existing(disk, before);
      }
    }
  }

  /** How many contexts the listed files contribute. */
  function Total(sources: seq<Source>): nat {
    if sources == [] then 0 else Total(sources[..|sources| - 1]) + sources[|sources| - 1].contexts
  }

  lemma {:induction false} TotalIsContributed(c: Config, paths: seq<Path>, sources: seq<Source>)
    requires |sources| == |paths| && forall i :: 0 <= i < |paths| ==> sources[i] == SourceOf(c, paths[i])
    ensures Total(sources) == Contributed(c.merge.contexts.sources, paths)
  {
    if paths != [] {
      TotalIsContributed(c, paths[..|paths| - 1], sources[..|paths| - 1]);
    }
  }

  /** What a file's contexts are: those it contributes and those it has hidden. */
  ghost predicate Accounted(disk: Disk, c: Config, source: Source) {
    && (source.exists_ <==> source.path in disk)
    && (if source.path in disk then
          var names := Names(disk[source.path].contexts);
          && |names| == source.contexts + |source.shadowed|
          && multiset(names) == multiset(From(c.merge.contexts.sources, source.path)) + multiset(source.shadowed)
        else source.contexts == 0 && source.shadowed == [])
  }

  lemma SourceAccounted(disk: Disk, c: Config, path: Path)
    requires LoadFn(disk, c.requested) == Ok(c) && Distinct(c.requested) && path in c.requested
    ensures Accounted(disk, c, SourceOf(c, path))
  {
    var ps := Existing(disk, c.requested);
    ExistingIs(disk, c.requested);
    FoldAccounts(disk, ps);
    if path in disk {
      var names, hidden := Names(disk[path].contexts), ShadowedBy(c.merge.contexts, path);
      assert |multiset(names)| == |names| && |multiset(hidden)| == |hidden|;
    }
  }

  /**
   * The list of files the interface shows, for distinct paths: each file there
   * is accounted for, context by context, and the contributions sum to the
   * merged list.
   */
  lemma {:induction false} SourcesAccount(disk: Disk, c: Config)
    requires LoadFn(disk, c.requested) == Ok(c) && Distinct(c.requested)
    ensures forall i :: 0 <= i < |c.requested| ==> SourcesFn(c)[i].path == c.requested[i] && Accounted(disk, c, SourcesFn(c)[i])
    ensures Total(SourcesFn(c)) == |c.merge.contexts.merged|
  {
    var ps := Existing(disk, c.requested);
    ExistingIs(disk, c.requested);
    FoldAccounts(disk, ps);
    ContributedByExisting(disk, c.merge.contexts.sources, c.requested);
    TotalIsContributed(c, c.requested, SourcesFn(c));
    forall i | 0 <= i < |c.requested|
      ensures Accounted(disk, c, SourcesFn(c)[i])
    {
      SourceAccounted(disk, c, c.requested[i]);
    }
  }

  // ----- Redefinitions -----

  /** What was seen after the files `ps`, whose reduced entries are `entries`. */
  function NoteAll<T(==)>(ps: seq<Path>, entries: seq<seq<Named<T>>>): Seen<T>
    requires |ps| == |entries|
  {
    if ps == [] then map[] else
    NoteFn(NoteAll(ps[..|ps| - 1], entries[..|ps| - 1]), ps[|ps| - 1], entries[|ps| - 1]).0
  }

  /** Entry list `i` defines `name` differently from an earlier one. */
  ghost predicate Redefines<T(!new)>(entries: seq<seq<Named<T>>>, i: nat, name: string)
    requires i < |entries|
  {
    exists j, body, other :: 0 <= j < i && Named(name, body) in entries[i] && Named(name, other) in entries[j] && body != other
  }

  lemma {:induction false} SeenMeaning<T>(ps: seq<Path>, entries: seq<seq<Named<T>>>, name: string, e: (Path, T))
    requires |ps| == |entries|
    ensures e in Earlier(NoteAll(ps, entries), name) <==> exists j :: 0 <= j < |ps| && ps[j] == e.0 && Named(name, e.1) in entries[j]
  {
    if ps != [] {
      var n := |ps| - 1;
      SeenMeaning(ps[..n], entries[..n], name, e);
      NoteMeaning(NoteAll(ps[..n], entries[..n]), ps[n], entries[n]);
    }
  }

  lemma NotedExactly<T(!new)>(ps: seq<Path>, entries: seq<seq<Named<T>>>, name: string)
    requires |ps| == |entries| && Distinct(ps) && ps != []
    ensures var n := |ps| - 1;
            name in NoteFn(NoteAll(ps[..n], entries[..n]), ps[n], entries[n]).1 <==> Redefines(entries, n, name)
  {
    var n := |ps| - 1;
    var seen := NoteAll(ps[..n], entries[..n]);
    NoteMeaning(seen, ps[n], entries[n]);
    forall body | Named(name, body) in entries[n] && Differs(Earlier(seen, name), ps[n], body)
      ensures Redefines(entries, n, name)
    {
      var e :| e in Earlier(seen, name) && e.0 != ps[n] && e.1 != body;
      SeenMeaning(ps[..n], entries[..n], name, e);
    }
    if Redefines(entries, n, name) {
      var j, body, other :| 0 <= j < n && Named(name, body) in entries[n] && Named(name, other) in entries[j] && body != other;
      SeenMeaning(ps[..n], entries[..n], name, (ps[j], other));
      assert ps[..n][j] == ps[j] && entries[..n][j] == entries[j];
      assert Differs(Earlier(seen, name), ps[n], body);
    }
  }

  lemma {:induction false} RedefinesEarlier<T(!new)>(entries: seq<seq<Named<T>>>, n: nat, i: nat, name: string)
    requires i < n <= |entries|
    ensures Redefines(entries[..n], i, name) <==> Redefines(entries, i, name)
  {
    assert forall j :: 0 <= j < n ==> entries[..n][j] == entries[j];
  }

  function AllClusters(disk: Disk, ps: seq<Path>): seq<seq<Named<Option<Cluster>>>>
    requires OnDisk(disk, ps)
  {
    seq(|ps|, i requires 0 <= i < |ps| => ClusterEntries(ps[i], disk[ps[i]]))
  }

  function AllUsers(disk: Disk, ps: seq<Path>): seq<seq<Named<Option<User>>>>
    requires OnDisk(disk, ps)
  {
    seq(|ps|, i requires 0 <= i < |ps| => UserEntries(ps[i], disk[ps[i]]))
  }

  lemma {:induction false} FoldSeen(disk: Disk, ps: seq<Path>)
    requires OnDisk(disk, ps)
    ensures Fold(disk, ps).seenClusters == NoteAll(ps, AllClusters(disk, ps))
    ensures Fold(disk, ps).seenUsers == NoteAll(ps, AllUsers(disk, ps))
  {
    if ps != [] {
      var n := |ps| - 1;
      FoldSeen(disk, ps[..n]);
      assert AllClusters(disk, ps)[..n] == AllClusters(disk, ps[..n]);
      assert AllUsers(disk, ps)[..n] == AllUsers(disk, ps[..n]);
    }
  }

  /**
   * For distinct paths: a file is reported to redefine a cluster or user
   * exactly when an earlier file defines that name with a different body.
   */
  lemma {:induction false} RedefinedExactly(disk: Disk, ps: seq<Path>, i: nat, name: string)
    requires OnDisk(disk, ps) && Distinct(ps) && i < |ps|
    ensures var m := Fold(disk, ps).merge;
            && ps[i] in m.redefined
            && (name in m.redefined[ps[i]].clusters <==> Redefines(AllClusters(disk, ps), i, name))
            && (name in m.redefined[ps[i]].users <==> Redefines(AllUsers(disk, ps), i, name))
    decreases |ps|
  {
    var n := |ps| - 1;
    var before := ps[..n];
    var clusters, users := AllClusters(disk, ps), AllUsers(disk, ps);
    assert clusters[..n] == AllClusters(disk, before);
    assert users[..n] == AllUsers(disk, before);
    if i == n {
      FoldSeen(disk, before);
      NotedExactly(ps, clusters, name);
      NotedExactly(ps, users, name);
    } else {
      RedefinedExactly(disk, before, i, name);
      RedefinesEarlier(clusters, n, i, name);
      RedefinesEarlier(users, n, i, name);
      assert before[i] == ps[i] && ps[i] != ps[n];
    }
  }

  // ----- Switching the context on disk -----

  /** The first current context set after the first file. */
  function LaterCurrent(disk: Disk, ps: seq<Path>): Option<string>
    requires OnDisk(disk, ps)
  {
    if |ps| <= 1 then None else
    var p := ps[|ps| - 1];
    OrElse(LaterCurrent(disk, ps[..|ps| - 1]), if p == ps[0] then None else NonEmpty(disk[p].currentContext))
  }

  lemma {:induction false} ExistingSame(disk: Disk, disk': Disk, paths: seq<Path>)
    requires disk.Keys == disk'.Keys
    ensures Existing(disk, paths) == Existing(disk', paths)
  {
    if paths != [] {
      ExistingSame(disk, disk', paths[..|paths| - 1]);
    }
  }

  /** Patching the current context of the first file changes only the merged current context. */
  lemma {:induction false} FoldPatched(disk: Disk, ps: seq<Path>, written: string)
    requires OnDisk(disk, ps) && ps != []
    ensures var disk' := disk[ps[0] := disk[ps[0]].(currentContext := Some(written))];
            && OnDisk(disk', ps)
            && var l, l' := Fold(disk, ps), Fold(disk', ps);
               && l'.seenClusters == l.seenClusters && l'.seenUsers == l.seenUsers
               && l'.merge == l.merge.(current := if written != "" then Some(written) else LaterCurrent(disk, ps))
  {
    var disk' := disk[ps[0] := disk[ps[0]].(currentContext := Some(written))];
    var before, last := ps[..|ps| - 1], ps[|ps| - 1];
    assert ClusterEntries(last, disk[last]) == ClusterEntries(last, disk'[last]);
    assert UserEntries(last, disk[last]) == UserEntries(last, disk'[last]);
    if before == [] {
      assert Fold(disk, before) == Fold(disk', before) == Empty;
    } else {
      FoldPatched(disk, before, written);
    }
  }

  /** The merged current context is the first file's, else a later one. */
  lemma {:induction false} CurrentOfFold(disk: Disk, ps: seq<Path>)
    requires OnDisk(disk, ps) && ps != []
    ensures Fold(disk, ps).merge.current == OrElse(NonEmpty(disk[ps[0]].currentContext), LaterCurrent(disk, ps))
    ensures Fold(disk, ps).merge.current != Some("")
  {
    if |ps| > 1 {
      CurrentOfFold(disk, ps[..|ps| - 1]);
    } else {
      assert Fold(disk, ps[..|ps| - 1]) == Empty;
    }
  }

  lemma LaterNeverEmpty(disk: Disk, ps: seq<Path>)
    requires OnDisk(disk, ps)
    ensures LaterCurrent(disk, ps) != Some("")
  {
  }

  /**
   * Switching to context `name`, saving and loading again gives the same
   * configuration with that current context, if and only if the name is not
   * empty (an empty `current-context` reads as unset).
   */
  lemma SwitchSurvivesReload(disk: Disk, paths: seq<Path>, name: string)
    requires LoadFn(disk, paths).Ok?
    ensures var loaded := LoadFn(disk, paths).value;
            var switched := loaded.(merge := loaded.merge.(current := Some(name)));
            LoadFn(SaveFn(disk, switched), paths) == Ok(switched) <==> name != ""
  {
    var loaded := LoadFn(disk, paths).value;
    var switched := loaded.(merge := loaded.merge.(current := Some(name)));
    var disk' := SaveFn(disk, switched);
    ExistingSame(disk, disk', paths);
    FoldPatched(disk, loaded.paths, name);
    LaterNeverEmpty(disk, loaded.paths);
  }

  /** Saving without a switch loses nothing: the same configuration is loaded again. */
  lemma SaveIsNeutral(disk: Disk, paths: seq<Path>)
    requires LoadFn(disk, paths).Ok?
    ensures LoadFn(SaveFn(disk, LoadFn(disk, paths).value), paths) == LoadFn(disk, paths)
  {
    var loaded := LoadFn(disk, paths).value;
    var disk' := SaveFn(disk, loaded);
    ExistingSame(disk, disk', paths);
    CurrentOfFold(disk, loaded.paths);
    FoldPatched(disk, loaded.paths, if loaded.merge.current.Some? then loaded.merge.current.value else "");
  }
}
