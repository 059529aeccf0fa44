# CubeLite: verified models

CubeLite is a Kubernetes desktop client. Underneath its I/O it relies on a number of self-contained
algorithms and protocols: paging through an Elasticsearch log history, caching connections that
several commands share, merging kubeconfig files twice, describing one workload's pods in four query
languages, flattening log documents, assembling lines, ranking detected services, and two ways to
discover a cluster's kinds. This project models them in Dafny 4.11 and proves what they are for.

Check everything with `dafny verify dfyconfig.toml`. Nothing here runs the application.

| files | what is modelled |
|---|---|
| `HistoryTransport`, `HistoryCommands`, `HistorySession` | the Elasticsearch history: one connection (points in time, fallbacks), the commands with their cached connections to several servers, and the session of the log view on top of them |
| `HistoryLeaks`, `HistoryDiscipline`, `HistoryOverlap` | over whole runs with reconnects and changes of endpoint: which points in time are left open, what is never asked for on a connection, and the same, and what is shown, when requests overlap |
| `HistoryServer`, `HistoryPaging`, `HistoryWalks` | a server with moving time windows, and whole walks through its history: what is shown, in which order, and when it ends |
| `ConnCache`, `ConnCacheCalls` | the connection cache with generations, its critical sections interleaved by any number of callers |
| `Kubeconfig`, `KubeconfigFacts`, `KubeconfigClient` | the merge the interface shows, what it means file by file, and its agreement with the merge the client connects with |
| `RegexText`, `PodNames`, `PodLanguages` | regular expressions as text and as languages (RE2 and Lucene dialects); the pod-name expressions of workloads, in Rust and in TypeScript |
| `Escaping`, `HistoryQuery`, `DiscoverLink`, `PromQuery`, `GrafanaLink` | one workload as a JSON filter, a Lucene query, a KQL query and PromQL matchers, the links that carry them, and how the other side reads them |
| `Ecs`, `EcsFacts`, `EcsRebuild`, `EcsExact` | flattening log documents to dotted keys and nesting them again |
| `LineAssembly` | the lines of an exec session's byte stream |
| `Navigation`, `NavigationFacts`, `NavigationShown`, `Profiles`, `ProfilesFacts` | the sidebar and profile preferences as state machines with a repairing loader |
| `Detection`, `DetectionFacts`, `DetectionClaims`, `DetectionPicks` | detecting the observability services of a cluster |
| `Discovery`, `DiscoveryFacts` | aggregated and legacy discovery of kinds |
| `Prelude`, `Lists`, `Sorting` | shared: options, lists without repeats, stable sorting |

Code that updates state is modelled by classes and methods with loops. Each is proved equal to a
function of the old state (`Search` to `SearchFn`, `Push` to `Feed`, …), and the properties are
lemmas about those functions. The network, the disk, other callers, the server's documents and the
API server's answers are parameters: every property holds for all of them, unless a `requires` says
what an honest server does.

Where the code does not do what one would expect, the model follows the code:

- Hiding a view that is no sidebar item (the dashboard) is accepted and lost on the next load
  (`NavigationShown.HidingNoItemIsLost`); everything else the sidebar does survives, exactly
  (`NavigationFacts.SetHiddenIsNormal` for one change, `NavigationFacts.RunsStayNormal` for whole runs).
- The log view asks for a window relative to the present (`now-15m` to `now`) with every page, so a
  document of the point in time can age out of the window before the page that would reach it, and is
  never shown (`HistoryWalks.AgedOutIsSkipped`). A document is shown exactly when it was inside the
  window of a page that reached it (`HistoryPaging.ShownIfInside`); with absolute bounds nothing is
  skipped (`HistoryPaging.AbsoluteWindowIsComplete`).
- A point in time is left to its keep-alive when the view lets go of its cursor while no connection is
  cached for it, as after a search that found the server unreachable (`HistoryLeaks.UnreachableLeavesPit`),
  or moves on to another endpoint with an older page (`HistoryLeaks.OtherEndpointLeavesPit`). Those are
  all that are left (`HistoryLeaks.LeftExactly`, both directions); without these two nothing is
  (`HistoryLeaks.RunLeavesNoPit`).
- That a server has no points in time is known of a connection: a new one asks again
  (`HistoryDiscipline.NewConnectionAsksAgain`); between two connects nothing is opened after a refusal
  (`HistoryDiscipline.RunDisciplined`).
- Nesting an ECS document renames a field whose key an earlier, longer key goes through, and the new
  name may take the place of another field (`EcsRebuild.RenamingCanLoseAField`); and it fills an empty
  object that a later key goes through. The fields come back exactly when neither happens
  (`EcsExact.NestThenFlatten`, for all documents, both directions).
- The regexp of a Deployment whose name leaves no room for a hash (47 characters or more) matches all
  of its pods and other names as well (`PodLanguages.LongTextMatchesMore`); every other workload's text
  matches its pods exactly (`PodLanguages.TextIsExact`).
- A CronJob's pods are kept apart from those of the Job of its name as long as that name has at most 56
  characters; from 57 on the cut leaves nothing of the minute, and every one of them is taken for the
  Job's (`PodLanguages.CronJobPodsAreNotJobPods`, both directions).
- Two workloads of one kind can match the same pod, when the cut at 58 characters takes something from
  a name; even a real pod of a Deployment of 46 characters (`PodLanguages.RealPodIsShared`). When
  exactly is `PodLanguages.DeploymentsShare`, `PodLanguages.DaemonSetsShare` and
  `PodLanguages.StatefulSetsShare`; when neither name is cut, never.
- A service with a false claim can displace a verified pick, by taking the place of its claim among the
  three that are checked (`DetectionPicks.FalseClaimCanDisplace`); it stays exactly when its own claim
  is still checked (`DetectionPicks.VerifiedPickStays`). One-click is never turned on that way.
- Switching to the context named `""` does not survive a reload, because an empty
  `current-context` counts as unset (`KubeconfigFacts.SwitchSurvivesReload`, both directions).

## Model

| member | source | states |
|---|---|---|
| HistoryTransport.EsConnection.SendRequest | crates/cubelite-core/src/elastic/transport.rs:241-243 | one exchange: takes the next answer of the network, appends it to the log, and updates which PITs the server keeps open |
| HistoryTransport.EsConnection.Open | crates/cubelite-core/src/elastic/transport.rs:373-391 | opening a PIT; a refusing status makes plain paging sticky, any other failure falls back for this request only, and a connection without PITs sends nothing |
| HistoryTransport.EsConnection.Close | crates/cubelite-core/src/elastic/transport.rs:420-426 | a close is sent and its answer ignored |
| HistoryTransport.EsConnection.CloseCursor | crates/cubelite-core/src/elastic/transport.rs:300-304 | an abandoned cursor's PIT gets its close; a cursor of plain paging sends nothing |
| HistoryTransport.EsConnection.PlainPage | crates/cubelite-core/src/elastic/transport.rs:353-366 | a page without a PIT, sorted and resumed by timestamp alone |
| HistoryTransport.EsConnection.PitPage | crates/cubelite-core/src/elastic/transport.rs:395-417 | a page on a PIT, with the PIT id the server answered last |
| HistoryTransport.EsConnection.Settle | crates/cubelite-core/src/elastic/transport.rs:331-350 | closes the PIT of a page that is the last one, and a PIT opened by the request when the request fails |
| HistoryTransport.EsConnection.FirstPage | crates/cubelite-core/src/elastic/transport.rs:308-327 | the first page: on a new PIT, or plainly when there is none or the search on it is not understood |
| HistoryTransport.EsConnection.Search | crates/cubelite-core/src/elastic/transport.rs:256-295 | a whole request, with the new PIT and the resumed position when the old PIT expired; result, log, open PITs and the sticky flag all as in the specification |
| HistoryTransport.SearchLeavesNoPit | crates/cubelite-core/src/elastic/transport.rs:256-295 | after a request every PIT known to be opened that has had no close sent is the one the returned cursor carries, or was open before and is not the request's; for all answers in which a search on a PIT is answered with an id of that PIT (`SamePit`) |
| HistoryTransport.PitPageLeavesNoPit | crates/cubelite-core/src/elastic/transport.rs:331-350 | a settled page answered with an id of its own PIT (`SamePit`) leaves no PIT without a close sent but its cursor's |
| HistoryTransport.FirstPageLeavesNoPit | crates/cubelite-core/src/elastic/transport.rs:308-327 | the same for first pages, fallbacks included, under the same condition |
| HistoryTransport.SearchDisciplined | crates/cubelite-core/src/elastic/mod.rs:332-347 | once PITs are refused none is opened again, and every `search_after` sent has as many values as its request sorts by |
| HistorySession.HistoryKeys.Add | apps/desktop/src/lib/elastic.ts:88-95 | true exactly for a line not seen before; a line without ids always counts as new and is not remembered |
| HistoryCommands.Elastic.GetOrConnect | apps/desktop/src-tauri/src/commands/elastic.rs:161-170 | the cached connection for the key and endpoint, or a new one that is then cached, or none when connecting fails |
| HistoryCommands.Elastic.Search | apps/desktop/src-tauri/src/commands/elastic.rs:154-175 | one page on that connection; finding the server unreachable, and only that, takes it out of the cache |
| HistoryCommands.Elastic.CloseCursor | apps/desktop/src-tauri/src/commands/elastic.rs:182-200 | a close is sent on the connection cached for the cursor's own source; with none cached nothing is sent or connected |
| HistorySession.LogHistory.Release | apps/desktop/src/lib/stores/logHistory.svelte.ts:137-144 | the cursor left behind is handed to that command, with the source it came from |
| HistorySession.LogHistory.Close | apps/desktop/src/lib/stores/logHistory.svelte.ts:147-151 | closing the view releases the cursor and keeps the lines |
| HistorySession.LogHistory.Reload | apps/desktop/src/lib/stores/logHistory.svelte.ts:154-190 | a reload whose answer comes before anything else is asked: on the endpoint of the moment it replaces the lines, or keeps them on failure, and forgets what was seen; without an endpoint it clears the lines and asks nothing |
| HistorySession.LogHistory.LoadOlder | apps/desktop/src/lib/stores/logHistory.svelte.ts:193-228 | an older page, likewise: from the endpoint of the moment, which becomes the cursor's source; it adds its unseen lines up to the cap and releases the cursor at the cap; without an endpoint it changes nothing |
| HistorySession.LogHistory.Extend | apps/desktop/src/lib/stores/logHistory.svelte.ts:208-222 | the page's unseen lines are added up to the cap, where the cursor it came with is released on its own source instead of kept |
| HistoryLeaks.LeftExactly | apps/desktop/src/lib/stores/logHistory.svelte.ts:137-228 | over every run with reconnects, changes of endpoint and others dropping connections: a PIT that the session's cursor is not on is open if and only if the session let go of it with no connection cached for its source, or left it for another endpoint; for servers that answer a search with an id of its PIT (`SamePit`), open no PIT twice, answer on their own PITs only and name none in plain pages |
| HistoryLeaks.RunLeavesNoPit | apps/desktop/src/lib/stores/logHistory.svelte.ts:137-228 | with the same servers, on one endpoint, when no search finds the server unreachable and nobody else drops connections: the only open PIT is the one of the session's cursor, and none after a close |
| HistoryLeaks.UnreachableLeavesPit | apps/desktop/src-tauri/src/commands/elastic.rs:171-199 | a full page, an older page that finds the server unreachable, a close: the PIT is open and no close was sent |
| HistoryLeaks.OtherEndpointLeavesPit | apps/desktop/src/lib/stores/logHistory.svelte.ts:201-218 | a full page, an older page from another cluster, a close: the first PIT is open and no close was sent, though its connection is cached |
| HistoryDiscipline.RunDisciplined | crates/cubelite-core/src/elastic/transport.rs:373-391 | over every such run: on no connection is a PIT opened after a refusal on that connection; and with faithful hits every request on any connection has as many `search_after` values as it sorts by |
| HistoryDiscipline.NewConnectionAsksAgain | crates/cubelite-core/src/elastic/transport.rs:208-208 | a refused reload, one that finds the server unreachable, and a third: it opens a PIT, on a new connection |
| HistoryOverlap.LinesAreOfOneSearch | apps/desktop/src/lib/stores/logHistory.svelte.ts:154-228 | in every interleaving of requests, their execution and their answers: the lines are a first page and older pages, each asked for with the cursor of the page before; late answers add nothing |
| HistoryOverlap.OverlapLeavesOnlyDropped | apps/desktop/src/lib/stores/logHistory.svelte.ts:137-228 | in every interleaving an open PIT is the view's, or is brought by an answer still to come, or was dropped (no connection cached, or another endpoint); with the view closed and all answers there, only dropped ones |
| HistoryOverlap.DroppedIsOpen | apps/desktop/src/lib/stores/logHistory.svelte.ts:137-228 | what is counted as dropped is open then |
| HistoryOverlap.OverlapLeavesNoPit | apps/desktop/src/lib/stores/logHistory.svelte.ts:164-207 | without those two, however requests overlap: the cursors of late pages are released, and nothing is open when the view is closed and all answers are there |
| HistoryOverlap.OverlapDisciplined | crates/cubelite-core/src/elastic/transport.rs:373-391 | in every interleaving, as over runs: no PIT is opened on a connection after a refusal on it, and every `search_after` fits its sort clause |
| HistoryOverlap.ReloadAlone | apps/desktop/src/lib/stores/logHistory.svelte.ts:154-190 | a reload that nothing overlaps is the session's reload |
| HistoryOverlap.LoadOlderAlone | apps/desktop/src/lib/stores/logHistory.svelte.ts:193-228 | an older page that nothing overlaps is the session's |
| HistoryServer.PageInWindow | crates/cubelite-core/src/elastic/mod.rs:306-349 | a page is the slice of the whole PIT behind `search_after` and inside the window of its request; when it is not full, all that follows is older than the window |
| HistoryServer.OlderPageHonest | crates/cubelite-core/src/elastic/transport.rs:265-292 | a served page comes from the cursor's PIT behind the cursor, or, only when that PIT is gone, from one that holds all of its documents, from the boundary millisecond on |
| HistoryPaging.HistoryIsComplete | crates/cubelite-core/src/elastic/transport.rs:256-295 | with any number of PIT expiries, failures and new documents, and a window that moves on: hits of the server, newest first, none twice; under the cap a document is shown exactly when a page reached it inside its window; and when no cursor is left, every document of the first PIT was reached |
| HistoryPaging.ShownIfInside | apps/desktop/src/lib/stores/logHistory.svelte.ts:119-126 | at the end, a document of the first PIT is shown exactly when it was inside the window of a page that reached it |
| HistoryPaging.StillInsideIsShown | apps/desktop/src/lib/stores/logHistory.svelte.ts:119-126 | at the end, a document of the first PIT that was not too new when the walk began and is still inside the window is shown |
| HistoryPaging.AbsoluteWindowIsComplete | crates/cubelite-core/src/elastic/mod.rs:309-309 | with absolute bounds every document of the first PIT inside them is shown, over any number of expiries |
| HistoryWalks.HistoryIsExact | crates/cubelite-core/src/elastic/mod.rs:498-511 | without expiry, walking until there is no cursor shows the PIT's documents from the newest of the first window on, in the PIT's order and without a gap; the rest is older than the window of some request, or the cap is met (every snapshot and page sizes, a last page that is exactly full included) |
| HistoryWalks.AbsoluteWindowIsExact | crates/cubelite-core/src/elastic/mod.rs:498-511 | with absolute bounds these are exactly the documents inside them, up to the cap |
| HistoryWalks.AgedOutIsSkipped | apps/desktop/src/lib/stores/logHistory.svelte.ts:119-126 | with the default page size of 500: a walk whose first page is full of newer documents skips a document which ages out of the window before the second |
| HistoryWalks.NewDocsAreNew | apps/desktop/src/lib/stores/logHistory.svelte.ts:119-126 | such first pages exist |
| HistoryWalks.WalkEnds | crates/cubelite-core/src/elastic/mod.rs:498-511 | a walk of served pages stays within a budget of expiries and documents, so it ends |
| HistoryWalks.BudgetIsProduct | crates/cubelite-core/src/elastic/mod.rs:498-511 | that budget is (expiries + 1) times (documents + 1) |
| HistoryWalks.OlderPageProgress | crates/cubelite-core/src/elastic/transport.rs:395-417 | a page that leaves a cursor leaves fewer documents behind it, by the page size at least |
| HistoryPaging.LoadOlderShows | crates/cubelite-core/src/elastic/transport.rs:38-43 | an older page keeps a session ordered, without repeats, showing what was reached inside its window and skipping nothing, also when it had to resume on a new PIT |
| HistoryPaging.StillPending | crates/cubelite-core/src/elastic/transport.rs:38-43 | resuming at the boundary millisecond with the largest tiebreaker skips nothing: what was still to come is reached by the page or comes behind it |
| HistoryPaging.KeyIdentifies | apps/desktop/src/lib/elastic.ts:84-86 | the key of index and id tells documents apart |
| ConnCache.ConnCache.LookUp | apps/desktop/src-tauri/src/commands/cache.rs:51-57 | a hit only for the same key and endpoint |
| ConnCache.ConnCache.Insert | apps/desktop/src-tauri/src/commands/cache.rs:58-71 | refuses after a generation change, keeps a connection another call cached for the endpoint, else replaces the slot |
| ConnCache.ConnCache.Invalidate | apps/desktop/src-tauri/src/commands/cache.rs:78-83 | removes the slot only while it holds this very connection |
| ConnCache.ConnCache.Forget | apps/desktop/src-tauri/src/commands/cache.rs:86-90 | removes exactly the context's slots, in any kubeconfig, and starts a new generation |
| ConnCache.ConnCache.Clear | apps/desktop/src-tauri/src/commands/cache.rs:94-98 | removes all slots and starts a new generation |
| ConnCache.ConnCache.GetOrConnect | apps/desktop/src-tauri/src/commands/cache.rs:40-74 | the two-attempt loop, whatever other callers do between its critical sections, is the specified call |
| ConnCache.RunInv | apps/desktop/src-tauri/src/commands/cache.rs:40-98 | the invariant of every interleaving of any number of callers |
| ConnCache.ReturnedIsFresh | apps/desktop/src-tauri/src/commands/cache.rs:58-71 | in every interleaving, a returned connection was opened for the same key and endpoint, and no `forget` of its context or `clear` happened since that connect started |
| ConnCache.CachedIsFresh | apps/desktop/src-tauri/src/commands/cache.rs:58-71 | the same for every cached connection at any time |
| ConnCache.CallIsBounded | apps/desktop/src-tauri/src/commands/cache.rs:50-73 | a call connects at most twice, and the "settings changed" error means at least two `forget` or `clear` steps inside that call |
| ConnCacheCalls.CallIsSequential | apps/desktop/src-tauri/src/commands/cache.rs:40-74 | in every interleaving, a finished call gave the result, and left the cache when it returned, of one specified call: from the cache it began with, its attempts meeting exactly what the other callers did between the call's own steps, in that order |
| ConnCache.SlotStays | apps/desktop/src-tauri/src/commands/cache.rs:50-71 | a slot stays until a forget, clear, invalidation or insert for another endpoint touches it |
| ConnCache.CallsShare | apps/desktop/src-tauri/src/commands/cache.rs:50-71 | two calls with none of those between them get the same connection |
| ConnCache.InvalidateKeepsReplacement | apps/desktop/src-tauri/src/commands/cache.rs:78-83 | invalidating a connection never removes its replacement |
| Kubeconfig.NoteRedefinitions | crates/cubelite-core/src/kubeconfig.rs:129-144 | the names an earlier file defined with another body, and the definitions seen so far |
| Kubeconfig.NoteMeaning | crates/cubelite-core/src/kubeconfig.rs:129-144 | a name is noted exactly when the file defines it, a file before defined it, and the bodies differ |
| Kubeconfig.KubeConfig.LoadFromPaths | crates/cubelite-core/src/kubeconfig.rs:193-278 | existing files only, merged in order, first definition wins; no file is an error |
| Kubeconfig.KubeConfig.LoadFile | crates/cubelite-core/src/kubeconfig.rs:219-267 | one round of the merge loop |
| Kubeconfig.KubeConfig.SetActiveContext | crates/cubelite-core/src/kubeconfig.rs:370-379 | an unknown name is refused and changes nothing; a known one becomes current |
| Kubeconfig.KubeConfig.Save | crates/cubelite-core/src/kubeconfig.rs:398-421 | only the current context of the first existing file is written |
| KubeconfigFacts.ContextComesFrom | crates/cubelite-core/src/kubeconfig.rs:219-267 | a merged context is the one of the first file that lists it, which is its recorded source |
| KubeconfigFacts.SourcesAccount | crates/cubelite-core/src/kubeconfig.rs:284-299 | for distinct paths: each listed file that exists has as many contexts as it contributes plus those shadowed, name by name, a missing one none, and the contributions add up to the merged contexts |
| KubeconfigFacts.RedefinedExactly | crates/cubelite-core/src/kubeconfig.rs:129-144 | over all files: a cluster or user is reported redefined by a file exactly when an earlier file defines it with a different body |
| KubeconfigFacts.SwitchSurvivesReload | crates/cubelite-core/src/kubeconfig.rs:370-421 | switching to a context, saving and reloading gives that current context exactly when its name is not empty |
| KubeconfigFacts.SaveIsNeutral | crates/cubelite-core/src/kubeconfig.rs:398-421 | saving changes no context, cluster, user or source on reload |
| KubeconfigClient.ReplaceNamedInPlace | crates/cubelite-core/src/client.rs:1009-1016 | the first merged entry of that name is overwritten in place by the file's own, nothing else |
| KubeconfigClient.MergedKubeconfig | crates/cubelite-core/src/client.rs:939-980 | the client's merge: files in order, then the own entries of the chosen context |
| KubeconfigClient.PreferContextFileEntries | crates/cubelite-core/src/client.rs:987-1005 | the cluster and user of the context's own file take the place of those merged under their names |
| KubeconfigClient.MergesAgree | crates/cubelite-core/src/client.rs:955-980 | both merges find the same entry under every name |
| KubeconfigClient.UiAndClientAgree | crates/cubelite-core/src/kubeconfig.rs:437-466 | for all files and every context with details: the server shown is the server of the cluster entry the client connects with, and both have the same current context |
| KubeconfigClient.OnlyTargetDiffers | crates/cubelite-core/src/client.rs:987-1005 | the client's kubeconfig differs from the plain first-wins merge at most in the content of the target's cluster and user entries |
| RegexText.PrintReads | crates/cubelite-core/src/elastic/mod.rs:583-590 | in both dialects, the text of an expression, names escaped, is read back as that expression |
| PodNames.JobGroups | crates/cubelite-core/src/prometheus/mod.rs:351-362 | the grouping loop covers each digit count once, in runs that cut the name at the same place |
| PodNames.JobPodsRegex | crates/cubelite-core/src/prometheus/mod.rs:337-365 | the text for a Job's pods, short and long names |
| PodNames.JobGroupsSource | apps/desktop/src/lib/log-scope.ts:84-92 | the TypeScript loop builds the same alternatives |
| PodNames.WorkloadPodsSource | apps/desktop/src/lib/log-scope.ts:80-114 | for ASCII names the TypeScript source is the text the core sends |
| PodNames.PodsTextReads | crates/cubelite-core/src/prometheus/mod.rs:370-381 | each builder's text is read as the expression meant, in both dialects, for all ASCII names |
| PodLanguages.TextMatchesPods | crates/cubelite-core/src/prometheus/mod.rs:307-381 | the text sent matches every name Kubernetes gives the workload's pods (58-character cuts, generated hashes and suffixes, completion indexes), for every kind, both dialects and all ASCII names; and no other name, unless it is a Deployment whose name leaves no room for a hash |
| PodLanguages.TextIsExact | crates/cubelite-core/src/prometheus/mod.rs:307-381 | the text matches exactly the workload's pods if and only if it is no such Deployment |
| PodLanguages.LongTextMatchesMore | crates/cubelite-core/src/prometheus/mod.rs:307-313 | for every such Deployment, a name that is matched and no pod's |
| PodLanguages.ShortJobMatches | crates/cubelite-core/src/prometheus/mod.rs:337-343 | the short form of a Job's expression is the same language as the alternatives |
| PodLanguages.LongJobMatches | crates/cubelite-core/src/prometheus/mod.rs:344-365 | the grouped alternatives denote, for each of 1 to 7 digits, the name cut to 56 minus the digits, the digits and a suffix, or the plain cut name and a suffix |
| PodLanguages.DifferentWorkloadsShareNoPod | crates/cubelite-core/src/prometheus/mod.rs:307-324 | two workloads of one kind whose names are not cut never match the same pod |
| PodLanguages.StatefulSetsShare | crates/cubelite-core/src/prometheus/mod.rs:377-377 | two StatefulSets match a common pod name exactly when they are one |
| PodLanguages.DaemonSetsShare | crates/cubelite-core/src/prometheus/mod.rs:317-324 | two DaemonSets do exactly when their prefixes are the same after the cut |
| PodLanguages.DeploymentsShare | crates/cubelite-core/src/prometheus/mod.rs:307-313 | two Deployments do exactly when the longer name, cut, is the shorter one with (part of) a hash behind it; for short and long names and one of each |
| PodLanguages.RealPodIsShared | crates/cubelite-core/src/prometheus/mod.rs:307-313 | a real pod of a 46-character Deployment is matched by the Deployment named like its ReplicaSet |
| PodLanguages.CronJobPodsAreNotJobPods | crates/cubelite-core/src/prometheus/mod.rs:326-343 | a CronJob's pod (eight-digit minute, the generated name cut at 58) is a pod of the Job of the same name if and only if that name has more than 56 characters |
| PodLanguages.CronJobPodsAreNotMatched | crates/cubelite-core/src/prometheus/mod.rs:326-343 | and so says the text for the Job's pods, in both dialects |
| Escaping.EscapeReads | crates/cubelite-core/src/elastic/mod.rs:543-550 | whatever was escaped is read back up to its delimiter |
| Escaping.ReplaceTwice | crates/cubelite-core/src/elastic/mod.rs:543-550 | two replacements in this order are one escaping pass |
| Escaping.KqlReads | crates/cubelite-core/src/elastic/mod.rs:548-550 | every text is read back from its KQL literal |
| Escaping.RisonReads | crates/cubelite-core/src/elastic/mod.rs:543-545 | every text is read back from its Rison literal |
| HistoryQuery.HistoryFilter | crates/cubelite-core/src/elastic/cluster_filter.rs:74-84 | the filter list: namespace, pods, window, container, then the cluster term when there is one |
| HistoryQuery.WorkloadLuceneQuery | crates/cubelite-core/src/elastic/mod.rs:612-635 | the Lucene text of a workload or of the whole namespace |
| HistoryQuery.LuceneReads | crates/cubelite-core/src/elastic/mod.rs:612-635 | the Lucene query with its cluster clause is read as the terms meant, for all names |
| HistoryQuery.HistoryIsLucene | crates/cubelite-core/src/elastic/mod.rs:306-374 | the JSON filter and the Lucene query accept exactly the same documents of the window, for every workload kind and for the whole namespace |
| HistoryQuery.HistoryMeansWorkload | crates/cubelite-core/src/elastic/mod.rs:356-374 | both accept every document of the workload's own pods in its namespace and cluster; and no other when its text is exact |
| HistoryQuery.HistoryIsExactlyWorkload | crates/cubelite-core/src/elastic/mod.rs:356-374 | they accept exactly those if and only if the text is exact |
| DiscoverLink.PercentReads | crates/cubelite-core/src/elastic/mod.rs:679-688 | percent-decoding (section 2.1 of RFC 3986) gives the bytes back, and no separator survives the encoding |
| DiscoverLink.LinkReads | crates/cubelite-core/src/elastic/mod.rs:667-676 | any link shows the language, query and window it was built for |
| DiscoverLink.BuildPodQuery | crates/cubelite-core/src/elastic/mod.rs:566-577 | the KQL text of one pod, clause by clause |
| DiscoverLink.PodQueryReads | crates/cubelite-core/src/elastic/mod.rs:555-579 | the KQL of a pod is read back as its namespace, pod, container and cluster, whatever they are |
| DiscoverLink.PodLinkReads | crates/cubelite-core/src/elastic/mod.rs:555-579 | the pod link read back (percent, then Rison, then KQL) gives the original namespace, pod, container, cluster and window |
| DiscoverLink.WorkloadLinkShowsHistory | crates/cubelite-core/src/elastic/mod.rs:639-652 | the workload link shows exactly the documents of the history search in its window |
| PromQuery.EscapeString | crates/cubelite-core/src/prometheus/mod.rs:270-284 | the loop builds the escaped literal |
| PromQuery.PromStringReads | crates/cubelite-core/src/prometheus/mod.rs:270-284 | every text is read back from its PromQL literal |
| PromQuery.BuildSelector | crates/cubelite-core/src/prometheus/mod.rs:385-395 | the matcher text, with the cluster label only when it is not blank |
| PromQuery.SelectorReads | crates/cubelite-core/src/prometheus/mod.rs:385-395 | Prometheus reads back exactly the matchers meant, for all texts |
| PromQuery.SelectorSelectsPods | crates/cubelite-core/src/prometheus/mod.rs:385-395 | they select every series of the workload's own pods in its namespace and cluster; and no other when its text is exact |
| PromQuery.SelectorIsExact | crates/cubelite-core/src/prometheus/mod.rs:385-395 | they select exactly those if and only if the text is exact |
| PromQuery.MetricsAndLogsAgree | crates/cubelite-core/src/elastic/mod.rs:621-624 | a pod's metrics are the workload's exactly when its logs are |
| GrafanaLink.NumberedRefId | crates/cubelite-core/src/prometheus/mod.rs:638-649 | the loop names a query by its number |
| GrafanaLink.RefIdReads | crates/cubelite-core/src/prometheus/mod.rs:638-649 | the names are capital letters and the number is read back, so no two queries share one |
| GrafanaLink.RefIdsAreAll | crates/cubelite-core/src/prometheus/mod.rs:638-649 | every word of capital letters names some query |
| LineAssembly.LineAssembler.Push | crates/cubelite-core/src/exec.rs:161-176 | the lines and the pending bytes that the bytes give one by one; what is pending stays below 64 KiB |
| LineAssembly.LineAssembler.Finish | crates/cubelite-core/src/exec.rs:180-182 | the partial line, if any, once |
| LineAssembly.LineAssembler.Take | crates/cubelite-core/src/exec.rs:184-187 | hands the pending bytes over |
| LineAssembly.Pump | crates/cubelite-core/src/exec.rs:122-143 | what is sent is the lines of the whole stream, however it was cut into chunks, up to where the receiver went away |
| LineAssembly.FeedJoins | crates/cubelite-core/src/exec.rs:150-152 | feeding two chunks is feeding their concatenation |
| LineAssembly.WholeIsInPieces | crates/cubelite-core/src/exec.rs:150-176 | for every stream: cut at the newlines, one `\r` dropped before each, each line in pieces of the cap |
| LineAssembly.LinesAreBounded | crates/cubelite-core/src/exec.rs:145-148 | no piece is longer than the cap |
| LineAssembly.LinesAreTheStreams | crates/cubelite-core/src/exec.rs:145-176 | the output is the stream's own lines exactly when no ended line reaches the cap and the last does not exceed it |
| Ecs.Flattener.Add | apps/desktop/src/lib/log-ecs.ts:91-102 | a nested value wins over a literal dotted key, which moves aside |
| Ecs.Flattener.Walk | apps/desktop/src/lib/log-ecs.ts:103-109 | all leaves are put, depth first |
| Ecs.Flatten | apps/desktop/src/lib/log-ecs.ts:88-112 | the map of the whole object |
| Ecs.EcsNested | apps/desktop/src/lib/log-ecs.ts:179-212 | the fields are inserted in their order |
| EcsFacts.InsertOutcome | apps/desktop/src/lib/log-ecs.ts:184-210 | a field that disturbs no other is added under its key and nothing else changes; one whose slot holds an object is added under another key, any other takes a field's place |
| EcsExact.NestThenFlatten | apps/desktop/src/lib/log-ecs.ts:88-212 | for all documents: nesting then flattening gives back exactly the document's fields if and only if the keys are new, no key without dots comes after one through it, and no key goes through an empty object (unless a scalar stops it before) |
| EcsExact.PrefixFreeComesBack | apps/desktop/src/lib/log-ecs.ts:88-212 | prefix-free documents of leaves always come back |
| EcsExact.NestedHolds | apps/desktop/src/lib/log-ecs.ts:179-212 | such a document's object holds its fields and nothing else, each where its key leads |
| EcsRebuild.FlattenThenNest | apps/desktop/src/lib/log-ecs.ts:88-212 | flattening then nesting gives back the object, in its order, for keys that are non-empty and dot-free at every level |
| EcsFacts.SplitJoin | apps/desktop/src/lib/log-ecs.ts:185-189 | a path of plain parts is read back from its key |
| EcsRebuild.RenamingCanLoseAField | apps/desktop/src/lib/log-ecs.ts:203-208 | a concrete document that loses a field |
| Navigation.Merge | apps/desktop/src/lib/navigation.ts:62-72 | both loops of the merge |
| Navigation.Normalize | apps/desktop/src/lib/navigation.ts:75-94 | the repairing loader, section by section |
| NavigationFacts.MergeRepairs | apps/desktop/src/lib/navigation.ts:58-72 | a merge is a permutation of the defaults that keeps the stored order of the known ids and puts every other id right after its default predecessor |
| NavigationFacts.NormalizeIsNormal | apps/desktop/src/lib/navigation.ts:74-94 | whatever was stored, the result is in normal form: permutations of the defaults, pinned entries first, sections grouped, something besides Overview visible |
| NavigationFacts.NormalIsFixed | apps/desktop/src/lib/navigation.ts:75-94 | loading changes nothing exactly when the preferences are in normal form |
| NavigationFacts.MoveSectionIsNormal | apps/desktop/src/lib/navigation.ts:121-126 | moving a section keeps the normal form |
| NavigationFacts.MoveSectionBack | apps/desktop/src/lib/navigation.ts:121-126 | moving a section back undoes the move |
| NavigationFacts.MoveItemIsNormal | apps/desktop/src/lib/navigation.ts:129-138 | moving an item keeps the normal form |
| NavigationFacts.SetHiddenIsNormal | apps/desktop/src/lib/navigation.ts:141-149 | hiding and showing keep the normal form, exactly unless a view that is no item is hidden |
| NavigationFacts.HideThenShow | apps/desktop/src/lib/navigation.ts:146-149 | showing what was just hidden gives what there was |
| NavigationFacts.RunsStayNormal | apps/desktop/src/lib/navigation.ts:121-149 | after any run of moves, hides and shows the preferences are in normal form, and reloading changes nothing, exactly when the run leaves no view hidden that is no item |
| NavigationShown.MoveItemSwapsNeighbours | apps/desktop/src/lib/navigation.ts:129-138 | a move swaps the item with its neighbour among its own section's items |
| NavigationShown.MoveItemKeepsOthers | apps/desktop/src/lib/navigation.ts:129-138 | and changes no other section |
| NavigationShown.MoveItemBack | apps/desktop/src/lib/navigation.ts:129-138 | moving an item back undoes the move |
| NavigationShown.SidebarShowsTheRest | apps/desktop/src/lib/navigation.ts:97-111 | the sidebar shows exactly the items that are not hidden |
| NavigationShown.ShownIsRight | apps/desktop/src/lib/navigation.ts:97-111 | each in the section that lists it |
| NavigationShown.NoEmptySection | apps/desktop/src/lib/navigation.ts:108-112 | and no section is empty |
| NavigationShown.OverviewLeads | apps/desktop/src/lib/navigation.ts:39-42 | Overview comes first, in the first section |
| NavigationShown.DefaultIsValid | apps/desktop/src/lib/navigation.ts:16-24 | the default layout lists every item once |
| NavigationShown.HidingNoItemIsLost | apps/desktop/src/lib/navigation.ts:88-90 | a hidden view that is no item is dropped by the loader |
| NavigationShown.DashboardIsNoItem | apps/desktop/src/lib/navigation.ts:16-24 | the dashboard is such a view |
| Profiles.Clean | apps/desktop/src/lib/profiles.ts:62-67 | the loop over the stored pins |
| Profiles.NormalizeProfiles | apps/desktop/src/lib/profiles.ts:70-99 | the repairing loader, its set of names included |
| ProfilesFacts.NormalizeIsNormal | apps/desktop/src/lib/profiles.ts:69-99 | whatever was stored: at most twelve profiles and nine distinct pins each, ids and names distinct however written, all built-ins present, a valid one active |
| ProfilesFacts.NormalIsFixed | apps/desktop/src/lib/profiles.ts:70-99 | loading changes nothing exactly for profiles in that form |
| ProfilesFacts.CreateIsNormal | apps/desktop/src/lib/profiles.ts:152-159 | a created profile keeps the form exactly when its id is not in use |
| ProfilesFacts.RenameIsNormal | apps/desktop/src/lib/profiles.ts:161-168 | a rename that is accepted keeps the form |
| ProfilesFacts.DeleteIsNormal | apps/desktop/src/lib/profiles.ts:171-178 | deleting keeps the form, the active id included |
| ProfilesFacts.PinIsNormal | apps/desktop/src/lib/profiles.ts:115-121 | pinning keeps the form |
| ProfilesFacts.MovePinIsNormal | apps/desktop/src/lib/profiles.ts:137-141 | moving a pin keeps the form |
| ProfilesFacts.ResetPinsIsNormal | apps/desktop/src/lib/profiles.ts:185-187 | resetting a built-in keeps the form |
| ProfilesFacts.UnpinAfterPin | apps/desktop/src/lib/profiles.ts:115-127 | unpinning what was just pinned gives what there was |
| ProfilesFacts.DeleteAfterCreate | apps/desktop/src/lib/profiles.ts:152-178 | deleting the profile just created restores the list, with On-call active |
| ProfilesFacts.RunsStayNormal | apps/desktop/src/lib/profiles.ts:105-187 | after any run of changes the profiles are in normal form, and reloading changes nothing |
| ProfilesFacts.ShippedIsValid | apps/desktop/src/lib/profiles.ts:34-51 | the built-in profiles meet what the other results ask of them |
| Detection.Ranked | crates/cubelite-core/src/integration.rs:555-584 | classified services, best first |
| Detection.CheckClaims | crates/cubelite-core/src/integration.rs:694-711 | the services whose claimed owner exists |
| DetectionFacts.OrderDoesNotMatter | crates/cubelite-core/src/integration.rs:586-635 | picks, claims and the whole detection are the same for the same services in any order |
| DetectionFacts.UnverifiedChangesLittle | crates/cubelite-core/src/integration.rs:387-395 | for a given verified set, one more service that is not verified, anywhere in the list, never turns one-click on and never displaces a verified pick |
| DetectionFacts.OneClickIsAlone | crates/cubelite-core/src/integration.rs:619-628 | with one-click on, every service of the main kind is in the picked one's namespace |
| DetectionClaims.MoreClaimsKeepOneClick | crates/cubelite-core/src/integration.rs:586-596 | checking more claims never turns one-click off |
| DetectionClaims.FalseClaimNeverTurnsOneClickOn | crates/cubelite-core/src/integration.rs:719-729 | through the whole detection, a service whose owner does not exist never turns one-click on, even when its claim takes the place of a true one among the three checked |
| DetectionPicks.VerifiedPickStays | crates/cubelite-core/src/integration.rs:584-606 | through the whole detection, a verified pick stays when a service with a false claim joins, if and only if the pick's own claim is still among the three checked |
| DetectionPicks.FalseClaimCanDisplace | crates/cubelite-core/src/integration.rs:584-592 | a concrete list of services where it does not stay |
| Discovery.ParseAggregated | crates/cubelite-core/src/dynamic.rs:82-116 | nested loops over groups, versions and resources, each plural of a group once |
| Discovery.PushLegacy | crates/cubelite-core/src/dynamic.rs:250-272 | one version's resources, without the plurals of more preferred ones |
| Discovery.LegacyKinds | crates/cubelite-core/src/dynamic.rs:423-451 | all groups, preferred version first, failing versions skipped |
| DiscoveryFacts.LegacyIsAggregated | crates/cubelite-core/src/dynamic.rs:300-323 | legacy discovery with any versions failing gives the same list, in the same order, as aggregated discovery of the cluster without them |
| DiscoveryFacts.DiscoveryFinds | crates/cubelite-core/src/dynamic.rs:300-303 | a kind is listed exactly when it is what its group's most preferred answering version with that plural serves; the list is sorted by group and kind |
| DiscoveryFacts.PreferredComesFirst | crates/cubelite-core/src/dynamic.rs:437-440 | the versions of a group are tried with the preferred one first, then in the server's order |
| DiscoveryFacts.DiscoveryListsOnce | crates/cubelite-core/src/dynamic.rs:90-111 | no group and plural is listed twice |
| Sorting.SortInParts | crates/cubelite-core/src/dynamic.rs:313-323 | sorting the parts and then the whole is sorting the whole, equal keys in their order |

## Left out

- HTTP, TLS, port-forwarding, authentication, and reading or writing YAML and JSON text: only outcomes (statuses, documents, trees) enter the model.
- HistoryPaging.HistoryIsComplete: completeness is proved for histories that start on a PIT; plain paging by timestamp alone may skip documents of one millisecond and promises nothing.
- HistoryWalks.HistoryIsExact: the server is taken to order by timestamp and tiebreaker, and to delete no document while it is paged; documents carry an index and an id, and the bounds of the windows never go back.
- HistoryPaging.ShownIfInside: a document has one timestamp in all PITs.
- HistoryTransport.SearchLeavesNoPit: a PIT counts as closed once a close was sent, even when the server could not be reached; a PIT whose opening answer was lost is not counted. Both end with their keep-alive.
- HistorySession.LogHistory.Reload: here and in LoadOlder nothing happens between a request and its answer; `HistoryOverlap` lifts that on values, not on the object. Lines are kept newest first, not reversed for display.
- HistorySession.LogHistory.LoadOlder: as in Reload; in `HistoryOverlap`, too, a released cursor's command runs at once.
- HistoryCommands.Elastic.Search: a command is one step; other callers of the cache come between commands, not while one connects (that is `ConnCache`). Others' requests to the same servers are not modelled, only that they may be refused a PIT on a shared connection.
- HistoryLeaks.LeftExactly: that a server answers a search with an id of its PIT, opens no PIT twice and answers on its own PITs only is assumed.
- HistoryOverlap.OverlapLeavesOnlyDropped: one direction; a late request made with a dropped cursor may still close its PIT.
- HistoryTransport.EsConnection.Search: mapping a hit to the fields of a line is not modelled; the count of hits is compared without the cast to 32 bits.
- ConnCache: connections are identified by the step that opened them; reference counts and dropping are not modelled.
- The one-tunnel-per-key map of service forwards (`cache.rs`).
- KubeconfigClient.MergedKubeconfig: the library's own merge is taken as appending the entries whose names are not there yet; differing `kind` and `apiVersion` values are not compared, and preferences and extensions are not modelled.
- PodLanguages.TextMatchesPods: hashes have 6 to 10 characters, as ReplicaSets have; names are ASCII, as Kubernetes names are; byte, character and UTF-16 lengths then agree.
- PodNames.WorkloadPodsSource: for ASCII names only, for the same reason.
- HistoryQuery.HistoryIsLucene: with the ECS field names; the Fluent Bit preset's namespace clause differs by design. No container and no free-text clause, which the Lucene query does not have.
- HistoryQuery.LuceneReads: the regular expression between slashes is read as the token that ends at the next unescaped slash; Lucene's own lexer pairs a backslash with the slash behind it whatever is before them, so a name with a backslash there (no Kubernetes name has one) is read differently.
- DiscoverLink.LinkReads: texts are sequences of bytes; relative date arithmetic of the window is opaque; trimming knows space, tab, carriage return and line feed only.
- PromQuery: the chart expressions around the matchers, their windows, and the parsing of answers.
- LineAssembly.LineAssembler.Take: lines are bytes; lossy UTF-8 decoding is left out. End of stream and a read error are the same outcome.
- Ecs.EcsNested: nested objects are values, not shared objects that are extended in place; so that an empty object of the document itself is extended by a later key is not visible. Integer-like keys, which JavaScript lists first, keep their place here.
- Level and alias conversion of `toEcs`, its summary rows and tables: they rename single fields.
- Profiles.NormalizeProfiles: trimming and lower case are parameters, with trimming idempotent; name lengths are taken in characters.
- Navigation.Normalize: labels and colours of sections and items.
- Detection.Ranked: how a service is classified from labels, names and ports is a parameter; so is whether a claimed owner exists.
- Discovery.LegacyKinds: failures of the list requests themselves, which end the discovery with an error; the aggregated documents are assumed to list versions in the order of preference, and every resource with a kind.
- Table listing, node charts, list grouping and sorting, JSON printing and the kubeconfig watcher: smaller algorithms that would add easier members.
