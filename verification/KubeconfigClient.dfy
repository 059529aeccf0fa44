module KubeconfigClient {
  // The client's kubeconfig document: first-wins merge of the files, then the
  // target context's cluster and user taken from the file that defines the
  // context. It agrees with what the UI shows.
  //
  // The library merge is taken to append the entries of the next file whose name
  // the accumulated list does not have.

  import opened Prelude
  import opened Kubeconfig
  import opened KubeconfigFacts

  function WithoutNames<T>(acc: seq<Named<T>>, next: seq<Named<T>>): seq<Named<T>> {
    if next == [] then [] else
    (if HasName(acc, next[0].name) then [] else [next[0]]) + WithoutNames(acc, next[1..])
  }

  function AppendNew<T>(acc: seq<Named<T>>, next: seq<Named<T>>): seq<Named<T>> { acc + WithoutNames(acc, next) }

  function MergeFiles(acc: File, next: File): File {
    File(AppendNew(acc.contexts, next.contexts), AppendNew(acc.clusters, next.clusters),
         AppendNew(acc.users, next.users), OrElse(acc.currentContext, next.currentContext))
  }

  /** A file as read for the client: an empty current context is unset. */
  function ReadFile(file: File): File { file.(currentContext := NonEmpty(file.currentContext)) }

  const NoFile := File([], [], [], None)

  /** The plain first-wins merge. */
  function PlainMerge(disk: Disk, ps: seq<Path>): File
    requires OnDisk(disk, ps)
  {
    if ps == [] then NoFile else MergeFiles(PlainMerge(disk, ps[..|ps| - 1]), ReadFile(disk[ps[|ps| - 1]]))
  }

  /** Overwrites the first entry called `entry.name`. */
  function ReplaceFirst<T>(xs: seq<Named<T>>, entry: Named<T>): seq<Named<T>> {
    if xs == [] then [] else
    if xs[0].name == entry.name then [entry] + xs[1..] else [xs[0]] + ReplaceFirst(xs[1..], entry)
  }

  function ReplaceNamed<T>(merged: seq<Named<T>>, own: seq<Named<T>>, name: string): seq<Named<T>> {
    var entry := Find(own, name);
    if entry.Some? then ReplaceFirst(merged, entry.value) else merged
  }

  /** `context`'s cluster and user as its own file has them. */
  function PreferOwnEntries(merged: File, disk: Disk, ps: seq<Path>, context: string): File
    requires OnDisk(disk, ps)
  {
    var own := OwnPath(disk, ps, context);
    if own.None? then merged else
    var file := disk[own.value];
    var details := Find(file.contexts, context).value.body;
    if details.None? then merged else
    merged.(clusters := ReplaceNamed(merged.clusters, file.clusters, details.value.cluster),
            users := if details.value.user.Some? then ReplaceNamed(merged.users, file.users, details.value.user.value) else merged.users)
  }

  function MergedFn(disk: Disk, paths: seq<Path>, context: Option<string>): Result<File, LoadError> {
    var ps := Existing(disk, paths);
    if ps == [] then Err(FileNotFound) else
    var merged := PlainMerge(disk, ps);
    var target := OrElse(context, merged.currentContext);
    Ok(if target.Some? then PreferOwnEntries(merged, disk, ps, target.value) else merged)
  }

  // ----- As loops -----

  method ReplaceNamedInPlace<T>(merged: array<Named<T>>, own: seq<Named<T>>, name: string)
    modifies merged
    ensures merged[..] == ReplaceNamed(old(merged[..]), own, name)
  {
    var entry := Find(own, name);
    if entry.None? {
      return;
    }
    ghost var was := merged[..];
    var i := 0;
    while i < merged.Length
      invariant 0 <= i <= merged.Length
      invariant merged[..] == was
      invariant ReplaceFirst(was, entry.value) == was[..i] + ReplaceFirst(was[i..], entry.value)
    {
      ReplaceStep(was, entry.value, i);
      if merged[i].name == name {
        merged[i] := entry.value;
        assert merged[..] == was[i := entry.value];
        return;
      }
      i := i + 1;
    }
    assert was[..i] == was && was[i..] == [];
  }

  lemma {:induction false} ReplaceStep<T>(was: seq<Named<T>>, entry: Named<T>, i: nat)
    requires i < |was| && ReplaceFirst(was, entry) == was[..i] + ReplaceFirst(was[i..], entry)
    ensures was[i].name == entry.name ==> ReplaceFirst(was, entry) == was[i := entry]
    ensures was[i].name != entry.name ==> ReplaceFirst(was, entry) == was[..i + 1] + ReplaceFirst(was[i + 1..], entry)
  {
    assert was[i..] == [was[i]] + was[i + 1..];
    ReplaceCons(was[i], was[i + 1..], entry);
    if was[i].name == entry.name {
      UpdatedAt(was, entry, i);
    } else {
      ShiftedBy(was, i, ReplaceFirst(was[i + 1..], entry));
    }
  }

  lemma {:induction false} ReplaceCons<T>(x: Named<T>, rest: seq<Named<T>>, entry: Named<T>)
    ensures ReplaceFirst([x] + rest, entry) == if x.name == entry.name then [entry] + rest else [x] + ReplaceFirst(rest, entry)
  {
    assert ([x] + rest)[1..] == rest;
  }

  lemma UpdatedAt<T>(was: seq<T>, entry: T, i: nat)
    requires i < |was|
    ensures was[i := entry] == was[..i] + ([entry] + was[i + 1..])
  {
  }

  lemma ShiftedBy<T>(was: seq<T>, i: nat, more: seq<T>)
    requires i < |was|
    ensures was[..i] + ([was[i]] + more) == was[..i + 1] + more
  {
  }

  method MergeAll(disk: Disk, ps: seq<Path>) returns (merged: File)
    requires OnDisk(disk, ps)
    ensures merged == PlainMerge(disk, ps)
  {
    merged := NoFile;
    for i := 0 to |ps|
      invariant merged == PlainMerge(disk, ps[..i])
    {
      assert ps[..i + 1][..i] == ps[..i];
      merged := MergeFiles(merged, ReadFile(disk[ps[i]]));
    }
    assert ps[..|ps|] == ps;
  }

  method MergedKubeconfig(disk: Disk, paths: seq<Path>, context: Option<string>) returns (result: Result<File, LoadError>)
    ensures result == MergedFn(disk, paths, context)
  {
    var ps := Existing(disk, paths);
    if ps == [] {
      return Err(FileNotFound);
    }
    var merged := MergeAll(disk, ps);
    var target := OrElse(context, merged.currentContext);
    if target.Some? {
      merged := PreferContextFileEntries(merged, disk, ps, target.value);
    }
    return Ok(merged);
  }

  /** Puts the entries of the context's own file in place of those merged under their names. */
  method PreferContextFileEntries(merged: File, disk: Disk, ps: seq<Path>, target: string) returns (preferred: File)
    requires OnDisk(disk, ps)
    ensures preferred == PreferOwnEntries(merged, disk, ps, target)
  {
    preferred := merged;
    var own := OwnPath(disk, ps, target);
    if own.None? {
      return;
    }
    var file := disk[own.value];
    var details := Find(file.contexts, target).value.body;
    if details.None? {
      return;
    }
    var clusters := new Named<Option<Cluster>>[|merged.clusters|](i requires 0 <= i < |merged.clusters| => merged.clusters[i]);
    assert clusters[..] == merged.clusters;
    ReplaceNamedInPlace(clusters, file.clusters, details.value.cluster);
    preferred := preferred.(clusters := clusters[..]);
    if details.value.user.Some? {
      var users := new Named<Option<User>>[|merged.users|](i requires 0 <= i < |merged.users| => merged.users[i]);
      assert users[..] == merged.users;
      ReplaceNamedInPlace(users, file.users, details.value.user.value);
      preferred := preferred.(users := users[..]);
    }
  }

  // ----- The two merges agree -----

  lemma {:induction false} FindWithout<T>(acc: seq<Named<T>>, next: seq<Named<T>>, name: string)
    requires !HasName(acc, name)
    ensures Find(WithoutNames(acc, next), name) == Find(next, name)
  {
    if next != [] {
      FindWithout(acc, next[1..], name);
      var tail := WithoutNames(acc, next[1..]);
      if HasName(acc, next[0].name) {
        assert next[0].name != name;
        assert WithoutNames(acc, next) == [] + tail == tail;
      } else {
        assert WithoutNames(acc, next) == [next[0]] + tail;
        FindInSum([next[0]], tail, name);
        assert [next[0]][1..] == [];
      }
    }
  }

  lemma {:induction false} FindAppended<T>(acc: seq<Named<T>>, next: seq<Named<T>>, name: string)
    ensures Find(AppendNew(acc, next), name) == OrElse(Find(acc, name), Find(next, name))
  {
    FindInSum(acc, WithoutNames(acc, next), name);
    if !HasName(acc, name) {
      FindWithout(acc, next, name);
    }
  }

  /** Looked up by name, both merges are the same; and so is the current context. */
  lemma {:induction false} MergesAgree(disk: Disk, ps: seq<Path>, name: string)
    requires OnDisk(disk, ps)
    ensures var ui, client := Fold(disk, ps).merge, PlainMerge(disk, ps);
            && Find(client.contexts, name) == Find(ui.contexts.merged, name)
            && Find(client.clusters, name) == Find(ui.clusters, name)
            && Find(client.users, name) == Find(ui.users, name)
            && client.currentContext == ui.current
  {
    if ps != [] {
      var before, last := ps[..|ps| - 1], disk[ps[|ps| - 1]];
      MergesAgree(disk, before, name);
      var ui, client := Fold(disk, before).merge, PlainMerge(disk, before);
      FindAppended(client.contexts, last.contexts, name);
      FindAppended(client.clusters, last.clusters, name);
      FindAppended(client.users, last.users, name);
      FindPushed(ui.clusters, last.clusters, name);
      FindPushed(ui.users, last.users, name);
      ContextComesFrom(disk, before, name);
      AddedContexts(ui.contexts, ps[|ps| - 1], last.contexts, name);
    }
  }

  lemma {:induction false} FindReplaced<T>(xs: seq<Named<T>>, entry: Named<T>, name: string)
    ensures Find(ReplaceFirst(xs, entry), name) == if name == entry.name && HasName(xs, name) then Some(entry) else Find(xs, name)
  {
    if xs != [] {
      FindReplaced(xs[1..], entry, name);
      if xs[0].name == entry.name {
        FindInSum([entry], xs[1..], name);
        assert HasName(xs, entry.name);
      } else {
        FindInSum([xs[0]], ReplaceFirst(xs[1..], entry), name);
        HasNameTail(xs, name);
      }
    }
  }

  lemma {:induction false} HasNameTail<T>(xs: seq<Named<T>>, name: string)
    requires xs != []
    ensures HasName(xs, name) <==> xs[0].name == name || HasName(xs[1..], name)
  {
    assert forall i :: 1 <= i < |xs| ==> xs[i] == xs[1..][i - 1];
  }

  /** What the client finds under the name its context refers to. */
  lemma {:induction false} FindPreferred<T>(merged: seq<Named<T>>, own: seq<Named<T>>, name: string)
    requires HasName(own, name) ==> HasName(merged, name)
    ensures Find(ReplaceNamed(merged, own, name), name) == OrElse(Find(own, name), Find(merged, name))
  {
    var entry := Find(own, name);
    if entry.Some? {
      FindReplaced(merged, entry.value, name);
    }
  }

  lemma {:induction false} OwnFileMerged(disk: Disk, ps: seq<Path>, p: Path, name: string)
    requires OnDisk(disk, ps) && p in ps
    ensures HasName(disk[p].clusters, name) ==> HasName(PlainMerge(disk, ps).clusters, name)
    ensures HasName(disk[p].users, name) ==> HasName(PlainMerge(disk, ps).users, name)
  {
    var before, last := ps[..|ps| - 1], ps[|ps| - 1];
    assert ps == before + [last];
    FindAppended(PlainMerge(disk, before).clusters, disk[last].clusters, name);
    FindAppended(PlainMerge(disk, before).users, disk[last].users, name);
    if p != last {
      OwnFileMerged(disk, before, p, name);
    }
  }

  /** The entry of the context's own file, else the merged one. */
  function Preferred<T>(own: seq<Named<T>>, merged: seq<Named<T>>, name: string): Option<Named<T>> {
    OrElse(Find(own, name), Find(merged, name))
  }

  /** What the client finds for the context's cluster and user. */
  lemma {:induction false} ClientCluster(disk: Disk, ps: seq<Path>, own: Path, details: Details, name: string)
    requires OnDisk(disk, ps) && OwnPath(disk, ps, name) == Some(own) && Find(disk[own].contexts, name).value.body == Some(details)
    ensures Find(PreferOwnEntries(PlainMerge(disk, ps), disk, ps, name).clusters, details.cluster)
         == Preferred(disk[own].clusters, Fold(disk, ps).merge.clusters, details.cluster)
  {
    MergesAgree(disk, ps, details.cluster);
    OwnFileMerged(disk, ps, own, details.cluster);
    FindPreferred(PlainMerge(disk, ps).clusters, disk[own].clusters, details.cluster);
  }

  lemma ClientUser(disk: Disk, ps: seq<Path>, own: Path, details: Details, name: string)
    requires OnDisk(disk, ps) && OwnPath(disk, ps, name) == Some(own) && Find(disk[own].contexts, name).value.body == Some(details)
    requires details.user.Some?
    ensures Find(PreferOwnEntries(PlainMerge(disk, ps), disk, ps, name).users, details.user.value)
         == Preferred(disk[own].users, Fold(disk, ps).merge.users, details.user.value)
  {
    MergesAgree(disk, ps, details.user.value);
    OwnFileMerged(disk, ps, own, details.user.value);
    FindPreferred(PlainMerge(disk, ps).users, disk[own].users, details.user.value);
  }

  lemma {:induction false} ClientEntries(disk: Disk, ps: seq<Path>, own: Path, details: Details, name: string)
    requires OnDisk(disk, ps) && OwnPath(disk, ps, name) == Some(own) && Find(disk[own].contexts, name).value.body == Some(details)
    ensures var client := PreferOwnEntries(PlainMerge(disk, ps), disk, ps, name);
            var ui := Fold(disk, ps).merge;
            && Find(client.clusters, details.cluster) == Preferred(disk[own].clusters, ui.clusters, details.cluster)
            && (details.user.Some? ==>
                  Find(client.users, details.user.value) == Preferred(disk[own].users, ui.users, details.user.value))
  {
    ClientCluster(disk, ps, own, details, name);
    if details.user.Some? {
      ClientUser(disk, ps, own, details, name);
    }
  }

  /**
   * For every list of files and every context with details: the UI and the
   * client have the same context entry and current context, the server the UI
   * shows is the server of the cluster entry the client gets, and the client's
   * user is the own file's when it has that name, else the merged one.
   */
  lemma UiAndClientAgree(disk: Disk, paths: seq<Path>, name: string)
    requires LoadFn(disk, paths).Ok?
    requires var found := Find(LoadFn(disk, paths).value.merge.contexts.merged, name); found.Some? && found.value.body.Some?
    ensures MergedFn(disk, paths, Some(name)).Ok? && OwnPath(disk, Existing(disk, paths), name).Some?
    ensures var ui := LoadFn(disk, paths).value.merge;
            var client := MergedFn(disk, paths, Some(name)).value;
            var details := Find(ui.contexts.merged, name).value.body.value;
            var own := OwnPath(disk, Existing(disk, paths), name).value;
            && Find(client.contexts, name) == Find(ui.contexts.merged, name)
            && client.currentContext == ui.current
            && GetContext(ui, name).value.server == ServerOf(Find(client.clusters, details.cluster))
            && GetContext(ui, name).value.source == Some(own)
            && (details.user.Some? ==>
                  Find(client.users, details.user.value) == Preferred(disk[own].users, ui.users, details.user.value))
  {
    var ps := Existing(disk, paths);
    MergesAgree(disk, ps, name);
    ContextComesFrom(disk, ps, name);
    var own := OwnPath(disk, ps, name).value;
    FileClustersKept(disk, ps, own);
    var details := Find(disk[own].contexts, name).value.body.value;
    ClientEntries(disk, ps, own, details, name);
  }

  /** `after` differs from `before` at most in the body of the first entry called `name`. */
  ghost predicate OnlyEntry<T(!new)>(before: seq<Named<T>>, after: seq<Named<T>>, name: string) {
    && |after| == |before|
    && (forall i :: 0 <= i < |before| ==> after[i].name == before[i].name)
    && (forall i :: 0 <= i < |before| && after[i] != before[i] ==>
          before[i].name == name && forall j :: 0 <= j < i ==> before[j].name != name)
  }

  lemma {:induction false} ReplacedOnly<T(!new)>(xs: seq<Named<T>>, entry: Named<T>)
    ensures OnlyEntry(xs, ReplaceFirst(xs, entry), entry.name)
  {
    if xs != [] && xs[0].name != entry.name {
      ReplacedOnly(xs[1..], entry);
      var tail := ReplaceFirst(xs[1..], entry);
      assert forall i :: 1 <= i < |xs| ==> xs[i] == xs[1..][i - 1] && ReplaceFirst(xs, entry)[i] == tail[i - 1];
    }
  }

  /**
   * Only the content of the target's cluster and user entries differs from the
   * plain first-wins merge; without a target context nothing does.
   */
  lemma OnlyTargetDiffers(disk: Disk, paths: seq<Path>, context: Option<string>)
    requires MergedFn(disk, paths, context).Ok?
    ensures var plain := PlainMerge(disk, Existing(disk, paths));
            var client := MergedFn(disk, paths, context).value;
            var target := OrElse(context, plain.currentContext);
            var found := if target.Some? then Find(plain.contexts, target.value) else None;
            && client.contexts == plain.contexts && client.currentContext == plain.currentContext
            && (if found.None? || found.value.body.None? then client == plain else
                  && OnlyEntry(plain.clusters, client.clusters, found.value.body.value.cluster)
                  && (if found.value.body.value.user.None? then client.users == plain.users else
                        OnlyEntry(plain.users, client.users, found.value.body.value.user.value)))
  {
    var ps := Existing(disk, paths);
    var plain := PlainMerge(disk, ps);
    var target := OrElse(context, plain.currentContext);
    if target.Some? {
      MergesAgree(disk, ps, target.value);
      ContextComesFrom(disk, ps, target.value);
      var own := OwnPath(disk, ps, target.value);
      if own.Some? && Find(plain.contexts, target.value).value.body.Some? {
        var details := Find(plain.contexts, target.value).value.body.value;
        var cluster := Find(disk[own.value].clusters, details.cluster);
        if cluster.Some? {
          ReplacedOnly(plain.clusters, cluster.value);
        }
        if details.user.Some? && Find(disk[own.value].users, details.user.value).Some? {
          ReplacedOnly(plain.users, Find(disk[own.value].users, details.user.value).value);
        }
      }
    }
  }
}
