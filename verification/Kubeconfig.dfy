module Kubeconfig {
  // Loading and merging kubeconfig files for the UI: first-wins merge by name, the
  // file each context comes from, what each file contributes, hides and
  // redefines, and switching the current context on disk.

  import opened Prelude

  // ----- Documents -----

  type Path = string

  datatype Named<+T> = Named(name: string, body: T)

  datatype Details = Details(cluster: string, user: Option<string>, namespace: Option<string>)

  /** `identity` stands for the other keys that make a cluster, `cosmetic` for the rest. */
  datatype Cluster = Cluster(server: Option<string>, authority: Option<string>, identity: string, cosmetic: string)

  datatype User = User(certificate: Option<string>, key: Option<string>, rest: string)

  datatype File = File(
    contexts: seq<Named<Option<Details>>>,
    clusters: seq<Named<Option<Cluster>>>,
    users: seq<Named<Option<User>>>,
    currentContext: Option<string>)

  type Disk = map<Path, File>

  // ----- Named lists -----

  function Find<T>(xs: seq<Named<T>>, name: string): (r: Option<Named<T>>)
    ensures r.Some? <==> HasName(xs, name)
    ensures r.Some? ==> r.value.name == name && exists i :: 0 <= i < |xs| && xs[i] == r.value
  {
    if xs == [] then None else if xs[0].name == name then Some(xs[0]) else Find(xs[1..], name)
  }

  predicate HasName<T>(xs: seq<Named<T>>, name: string) { exists i :: 0 <= i < |xs| && xs[i].name == name }

  function OrElse<T>(a: Option<T>, b: Option<T>): Option<T> { if a.Some? then a else b }

  /** Pushes each entry whose name the list does not have yet. */
  function PushNew<T>(acc: seq<Named<T>>, xs: seq<Named<T>>): seq<Named<T>> {
    if xs == [] then acc else
    var before := PushNew(acc, xs[..|xs| - 1]);
    var x := xs[|xs| - 1];
    if HasName(before, x.name) then before else before + [x]
  }

  lemma {:induction false} FindInSum<T>(a: seq<Named<T>>, b: seq<Named<T>>, name: string)
    ensures Find(a + b, name) == OrElse(Find(a, name), Find(b, name))
  {
    if a == [] {
      assert a + b == b;
    } else {
      assert (a + b)[1..] == a[1..] + b;
      FindInSum(a[1..], b, name);
    }
  }

  /** First wins: an entry already there, else the first new one of that name. */
  lemma {:induction false} FindPushed<T>(acc: seq<Named<T>>, xs: seq<Named<T>>, name: string)
    ensures Find(PushNew(acc, xs), name) == OrElse(Find(acc, name), Find(xs, name))
  {
    if xs != [] {
      var before := xs[..|xs| - 1];
      var x := xs[|xs| - 1];
      FindPushed(acc, before, name);
      FindInSum(PushNew(acc, before), [x], name);
      assert xs == before + [x];
      FindInSum(before, [x], name);
    }
  }

  // ----- Redefinitions -----

  /** A relative file path is resolved against the directory of its kubeconfig. */
  function Resolve(dir: string, file: Option<string>): Option<string> {
    if file.None? || (file.value != "" && file.value[0] == '/') then file else Some(dir + file.value)
  }

  function ClusterIdentity(dir: string, body: Option<Cluster>): Option<Cluster> {
    if body.None? then None else Some(body.value.(authority := Resolve(dir, body.value.authority), cosmetic := ""))
  }

  function UserIdentity(dir: string, body: Option<User>): Option<User> {
    if body.None? then None else
    Some(body.value.(certificate := Resolve(dir, body.value.certificate), key := Resolve(dir, body.value.key)))
  }

  /** The directory of a path, with its last `/` (empty when there is none). */
  function Dir(path: Path): string {
    if path == "" || path[|path| - 1] == '/' then path else Dir(path[..|path| - 1])
  }

  function ClusterEntries(path: Path, file: File): seq<Named<Option<Cluster>>> {
    seq(|file.clusters|, i requires 0 <= i < |file.clusters| =>
      Named(file.clusters[i].name, ClusterIdentity(Dir(path), file.clusters[i].body)))
  }

  function UserEntries(path: Path, file: File): seq<Named<Option<User>>> {
    seq(|file.users|, i requires 0 <= i < |file.users| =>
      Named(file.users[i].name, UserIdentity(Dir(path), file.users[i].body)))
  }

  /** Earlier definitions per name, with the file that made each one. */
  type Seen<T> = map<string, seq<(Path, T)>>

  function Earlier<T>(seen: Seen<T>, name: string): seq<(Path, T)> {
    if name in seen then seen[name] else []
  }

  predicate Differs<T(==)>(earlier: seq<(Path, T)>, path: Path, body: T) {
    exists e :: e in earlier && e.0 != path && e.1 != body
  }

  function NoteFn<T(==)>(seen: Seen<T>, path: Path, entries: seq<Named<T>>): (Seen<T>, seq<string>) {
    if entries == [] then (seen, []) else
    var (before, redefined) := NoteFn(seen, path, entries[..|entries| - 1]);
    var Named(name, body) := entries[|entries| - 1];
    var earlier := Earlier(before, name);
    (before[name := earlier + [(path, body)]],
     if Differs(earlier, path, body) && name !in redefined then redefined + [name] else redefined)
  }

  /** What a file's entries add to what was seen, and what they redefine. */
  lemma {:induction false} NoteMeaning<T>(seen: Seen<T>, path: Path, entries: seq<Named<T>>)
    ensures var (after, redefined) := NoteFn(seen, path, entries);
            && (forall name, e :: e in Earlier(after, name) <==>
                  e in Earlier(seen, name) || (e.0 == path && Named(name, e.1) in entries))
            && (forall name :: name in redefined <==>
                  exists body :: Named(name, body) in entries && Differs(Earlier(seen, name), path, body))
            && (forall i, j :: 0 <= i < j < |redefined| ==> redefined[i] != redefined[j])
  {
    if entries != [] {
      var n := |entries| - 1;
      NoteMeaning(seen, path, entries[..n]);
      var x := entries[n];
      assert forall y :: y in entries <==> y in entries[..n] || y == x;
      var (before, redefined) := NoteFn(seen, path, entries[..n]);
      assert Differs(Earlier(before, x.name), path, x.body) <==> Differs(Earlier(seen, x.name), path, x.body);
      var (after, redefined') := NoteFn(seen, path, entries);
      forall name
        ensures name in redefined' <==> exists body :: Named(name, body) in entries && Differs(Earlier(seen, name), path, body)
      {
        if name == x.name && Differs(Earlier(seen, name), path, x.body) {
          assert Named(name, x.body) in entries;
        }
      }
    }
  }

  // ----- Merging -----

  /** Merged contexts, the file each comes from, and the names each file hides. */
  datatype Contexts = Contexts(
    merged: seq<Named<Option<Details>>>,
    sources: map<string, Path>,
    shadowed: map<Path, seq<string>>)

  datatype Redefined = Redefined(clusters: seq<string>, users: seq<string>)

  datatype Merge = Merge(
    contexts: Contexts,
    clusters: seq<Named<Option<Cluster>>>,
    users: seq<Named<Option<User>>>,
    current: Option<string>,
    fileClusters: map<Path, seq<Named<Option<Cluster>>>>,
    redefined: map<Path, Redefined>)

  datatype Loading = Loading(merge: Merge, seenClusters: Seen<Option<Cluster>>, seenUsers: Seen<Option<User>>)

  datatype Config = Config(merge: Merge, paths: seq<Path>, requested: seq<Path>)

  datatype LoadError = FileNotFound | ContextNotFound

  function ShadowedBy(c: Contexts, path: Path): seq<string> {
    if path in c.shadowed then c.shadowed[path] else []
  }

  function AddContexts(c: Contexts, path: Path, xs: seq<Named<Option<Details>>>): Contexts {
    if xs == [] then c else AddContext(AddContexts(c, path, xs[..|xs| - 1]), path, xs[|xs| - 1])
  }

  function AddContext(c: Contexts, path: Path, x: Named<Option<Details>>): Contexts {
    if HasName(c.merged, x.name)
    then c.(shadowed := c.shadowed[path := ShadowedBy(c, path) + [x.name]])
    else Contexts(c.merged + [x], c.sources[x.name := path], c.shadowed)
  }

  /** kubectl treats an empty `current-context` as unset. */
  function NonEmpty(current: Option<string>): Option<string> {
    if current == Some("") then None else current
  }

  function AddFile(l: Loading, path: Path, file: File): Loading {
    var (seenClusters, redefinedClusters) := NoteFn(l.seenClusters, path, ClusterEntries(path, file));
    var (seenUsers, redefinedUsers) := NoteFn(l.seenUsers, path, UserEntries(path, file));
    var m := l.merge;
    Loading(
      Merge(
        AddContexts(m.contexts, path, file.contexts),
        PushNew(m.clusters, file.clusters),
        PushNew(m.users, file.users),
        OrElse(m.current, NonEmpty(file.currentContext)),
        m.fileClusters[path := file.clusters],
        m.redefined[path := Redefined(redefinedClusters, redefinedUsers)]),
      seenClusters, seenUsers)
  }

  const Empty := Loading(Merge(Contexts([], map[], map[]), [], [], None, map[], map[]), map[], map[])

  function Existing(disk: Disk, paths: seq<Path>): (ps: seq<Path>)
    ensures forall p :: p in ps ==> p in disk
  {
    if paths == [] then [] else
    Existing(disk, paths[..|paths| - 1]) + if paths[|paths| - 1] in disk then [paths[|paths| - 1]] else []
  }

  function Fold(disk: Disk, ps: seq<Path>): Loading
    requires forall p :: p in ps ==> p in disk
  {
    if ps == [] then Empty else AddFile(Fold(disk, ps[..|ps| - 1]), ps[|ps| - 1], disk[ps[|ps| - 1]])
  }

  function LoadFn(disk: Disk, paths: seq<Path>): Result<Config, LoadError> {
    var ps := Existing(disk, paths);
    if ps == [] then Err(FileNotFound) else Ok(Config(Fold(disk, ps).merge, ps, paths))
  }

  // ----- Queries -----

  datatype Info = Info(name: string, server: Option<string>, namespace: string, active: bool, source: Option<Path>)

  /** The server an entry shows: none without details, empty when not set. */
  function ServerOf(entry: Option<Named<Option<Cluster>>>): Option<string> {
    if entry.None? || entry.value.body.None? then None else
    if entry.value.body.value.server.Some? then entry.value.body.value.server else Some("")
  }

  /** The context's own file first, the merged entry only when that file lacks the name. */
  function ResolveInfo(m: Merge, named: Named<Option<Details>>): Info {
    var cluster := if named.body.Some? then named.body.value.cluster else "";
    var namespace := if named.body.Some? && named.body.value.namespace.Some? then named.body.value.namespace.value else "default";
    var source := if named.name in m.contexts.sources then Some(m.contexts.sources[named.name]) else None;
    var own := if source.Some? && source.value in m.fileClusters then Find(m.fileClusters[source.value], cluster) else None;
    Info(named.name, ServerOf(OrElse(own, Find(m.clusters, cluster))), namespace, m.current == Some(named.name), source)
  }

  function GetContext(m: Merge, name: string): Option<Info> {
    var found := Find(m.contexts.merged, name);
    if found.Some? then Some(ResolveInfo(m, found.value)) else None
  }

  datatype Source = Source(path: Path, exists_: bool, contexts: nat, shadowed: seq<string>, redefined: Redefined)

  function From(sources: map<string, Path>, path: Path): set<string> {
    set name | name in sources && sources[name] == path
  }

  function SourceOf(c: Config, path: Path): Source {
    Source(path, path in c.paths, |From(c.merge.contexts.sources, path)|, ShadowedBy(c.merge.contexts, path),
           if path in c.merge.redefined then c.merge.redefined[path] else Redefined([], []))
  }

  /** Every requested file, in merge order. */
  function SourcesFn(c: Config): (r: seq<Source>)
    ensures |r| == |c.requested| && forall i :: 0 <= i < |r| ==> r[i] == SourceOf(c, c.requested[i])
  {
    seq(|c.requested|, i requires 0 <= i < |c.requested| => SourceOf(c, c.requested[i]))
  }

  /** The disk after saving `current` to the first loaded file. */
  function SaveFn(disk: Disk, c: Config): Disk
    requires c.paths != [] && c.paths[0] in disk
  {
    var written := if c.merge.current.Some? then c.merge.current.value else "";
    disk[c.paths[0] := disk[c.paths[0]].(currentContext := Some(written))]
  }

  // ----- The object -----

  method NoteRedefinitions<T(==)>(seen: Seen<T>, path: Path, entries: seq<Named<T>>) returns (after: Seen<T>, redefined: seq<string>)
    ensures (after, redefined) == NoteFn(seen, path, entries)
  {
    after, redefined := seen, [];
    for i := 0 to |entries|
      invariant (after, redefined) == NoteFn(seen, path, entries[..i])
    {
      assert entries[..i + 1][..i] == entries[..i];
      var Named(name, body) := entries[i];
      var earlier := Earlier(after, name);
      var differs := Differs(earlier, path, body);
      if differs && name !in redefined {
        redefined := redefined + [name];
      }
      after := after[name := earlier + [(path, body)]];
    }
    assert entries[..|entries|] == entries;
  }

  class KubeConfig {
    var contexts: seq<Named<Option<Details>>>
    var clusters: seq<Named<Option<Cluster>>>
    var users: seq<Named<Option<User>>>
    var current: Option<string>
    var paths: seq<Path>
    var requested: seq<Path>
    var contextSources: map<string, Path>
    var shadowed: map<Path, seq<string>>
    var fileClusters: map<Path, seq<Named<Option<Cluster>>>>
    var redefined: map<Path, Redefined>

    function View(): Config
      reads this
    {
      Config(Merge(Contexts(contexts, contextSources, shadowed), clusters, users, current, fileClusters, redefined), paths, requested)
    }

    constructor (c: Config)
      ensures View() == c
    {
      contexts, contextSources, shadowed := c.merge.contexts.merged, c.merge.contexts.sources, c.merge.contexts.shadowed;
      clusters, users, current := c.merge.clusters, c.merge.users, c.merge.current;
      fileClusters, redefined, paths, requested := c.merge.fileClusters, c.merge.redefined, c.paths, c.requested;
    }

    static method LoadFromPaths(disk: Disk, paths: seq<Path>) returns (result: Result<KubeConfig, LoadError>)
      ensures match LoadFn(disk, paths)
              case Err(e) => result == Err(e)
              case Ok(c) => result.Ok? && fresh(result.value) && result.value.View() == c
    {
      var existing := ExistingPaths(disk, paths);
      if existing == [] {
        return Err(FileNotFound);
      }
      var l := Empty;
      for i := 0 to |existing|
        invariant l == Fold(disk, existing[..i])
      {
        assert existing[..i + 1][..i] == existing[..i];
        l := LoadFile(l, existing[i], disk[existing[i]]);
      }
      assert existing[..|existing|] == existing;
      var config := new KubeConfig(Config(l.merge, existing, paths));
      return Ok(config);
    }

    static method ExistingPaths(disk: Disk, paths: seq<Path>) returns (existing: seq<Path>)
      ensures existing == Existing(disk, paths)
    {
      existing := [];
      for i := 0 to |paths|
        invariant existing == Existing(disk, paths[..i])
      {
        assert paths[..i + 1][..i] == paths[..i];
        if paths[i] in disk {
          existing := existing + [paths[i]];
        }
      }
      assert paths[..|paths|] == paths;
    }

    /** One round of the merge loop. */
    static method LoadFile(l: Loading, path: Path, file: File) returns (after: Loading)
      ensures after == AddFile(l, path, file)
    {
      var seenClusters, redefinedClusters := NoteRedefinitions(l.seenClusters, path, ClusterEntries(path, file));
      var seenUsers, redefinedUsers := NoteRedefinitions(l.seenUsers, path, UserEntries(path, file));
      var current := l.merge.current;
      if current.None? {
        current := NonEmpty(file.currentContext);
      }
      var cs := l.merge.contexts;
      for j := 0 to |file.contexts|
        invariant cs == AddContexts(l.merge.contexts, path, file.contexts[..j])
      {
        assert file.contexts[..j + 1][..j] == file.contexts[..j];
        var x := file.contexts[j];
        if HasName(cs.merged, x.name) {
          cs := cs.(shadowed := cs.shadowed[path := ShadowedBy(cs, path) + [x.name]]);
        } else {
          cs := Contexts(cs.merged + [x], cs.sources[x.name := path], cs.shadowed);
        }
      }
      assert file.contexts[..|file.contexts|] == file.contexts;
      var clusters := PushAll(l.merge.clusters, file.clusters);
      var users := PushAll(l.merge.users, file.users);
      after := Loading(
        Merge(cs, clusters, users, current, l.merge.fileClusters[path := file.clusters],
              l.merge.redefined[path := Redefined(redefinedClusters, redefinedUsers)]),
        seenClusters, seenUsers);
    }

    static method PushAll<T>(acc: seq<Named<T>>, xs: seq<Named<T>>) returns (after: seq<Named<T>>)
      ensures after == PushNew(acc, xs)
    {
      after := acc;
      for j := 0 to |xs|
        invariant after == PushNew(acc, xs[..j])
      {
        assert xs[..j + 1][..j] == xs[..j];
        if !HasName(after, xs[j].name) {
          after := after + [xs[j]];
        }
      }
      assert xs[..|xs|] == xs;
    }

    method SetActiveContext(name: string) returns (result: Result<(), LoadError>)
      modifies this`current
      ensures result.Ok? <==> HasName(contexts, name)
      ensures current == if result.Ok? then Some(name) else old(current)
    {
      if HasName(contexts, name) {
        current := Some(name);
        return Ok(());
      }
      return Err(ContextNotFound);
    }

    /** Patches `current-context` of the first loaded file; nothing else is written. */
    method Save(disk: Disk) returns (result: Result<Disk, LoadError>)
      ensures match result
              case Ok(after) => paths != [] && paths[0] in disk && after == SaveFn(disk, View())
              case Err(_) => paths == [] || paths[0] !in disk
    {
      if paths == [] || paths[0] !in disk {
        return Err(FileNotFound);
      }
      var file := disk[paths[0]];
      var written := if current.Some? then current.value else "";
      return Ok(disk[paths[0] := file.(currentContext := Some(written))]);
    }
  }
}
