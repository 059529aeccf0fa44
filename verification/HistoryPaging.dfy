module HistoryPaging {
  // What a history session shows on a server that answers searches on a PIT from
  // the PIT's documents inside the window of each request: hits of the server,
  // newest first, once each, over any number of PIT expiries; and at the end
  // exactly the documents that were inside the window of a page that reached them.

  import opened Prelude
  import opened HistoryTransport
  import opened HistoryCommands
  import opened HistorySession
  import opened HistoryServer

  // ----- Keys -----

  function DocKey(d: Doc): string { d.index + "/" + d.id }

  function Keys(es: seq<Entry>): set<string> { set e | e in es :: DocKey(e.doc) }

  /** Two documents have the same key only when they are the same document. */
  lemma KeyIdentifies(a: Doc, b: Doc)
    requires Identified(a) && Identified(b) && DocKey(a) == DocKey(b)
    ensures a.index == b.index && a.id == b.id
  {
    var k := DocKey(a);
    assert k[|a.index|] == '/' && k[|b.index|] == '/';
    assert forall i :: 0 <= i < |a.index| ==> k[i] == a.index[i];
    assert forall i :: 0 <= i < |b.index| ==> k[i] == b.index[i];
    assert a.index == k[..|a.index|] && b.index == k[..|b.index|];
    assert a.id == k[|a.index| + 1..] && b.id == k[|b.index| + 1..];
  }

  /** Newest first, each document once. */
  ghost predicate Ordered(es: seq<Entry>) {
    forall i, j :: 0 <= i < j < |es| ==> es[i].doc.ts >= es[j].doc.ts && DocKey(es[i].doc) != DocKey(es[j].doc)
  }

  lemma SnapshotOrdered(s: Snapshot)
    requires ValidSnapshot(s)
    ensures Ordered(s)
  {
    forall i, j | 0 <= i < j < |s| && DocKey(s[i].doc) == DocKey(s[j].doc)
      ensures false
    {
      KeyIdentifies(s[i].doc, s[j].doc);
    }
  }

  function New(es: seq<Entry>, keys: set<string>): seq<Entry> {
    if es == [] then [] else (if DocKey(es[0].doc) in keys then [] else [es[0]]) + New(es[1..], keys)
  }

  lemma {:induction false} UnseenHits(es: seq<Entry>, keys: set<string>)
    requires forall e :: e in es ==> Identified(e.doc)
    ensures Unseen(Hits(es), keys) == Hits(New(es, keys))
  {
    if es != [] {
      UnseenHits(es[1..], keys);
      assert Hits(es)[1..] == Hits(es[1..]);
      assert Key(HitOf(es[0])) == Some(DocKey(es[0].doc));
    }
  }

  lemma {:induction false} NewHolds(es: seq<Entry>, keys: set<string>, e: Entry)
    ensures e in New(es, keys) <==> e in es && DocKey(e.doc) !in keys
  {
    if es != [] {
      NewHolds(es[1..], keys, e);
      assert es == [es[0]] + es[1..];
    }
  }

  lemma {:induction false} NewOrdered(es: seq<Entry>, keys: set<string>)
    requires Ordered(es)
    ensures Ordered(New(es, keys))
  {
    if es != [] {
      NewOrdered(es[1..], keys);
      var tail := New(es[1..], keys);
      forall j | 0 <= j < |tail|
        ensures es[0].doc.ts >= tail[j].doc.ts && DocKey(es[0].doc) != DocKey(tail[j].doc)
      {
        NewHolds(es[1..], keys, tail[j]);
        assert tail[j] in es[1..];
      }
    }
  }

  lemma {:induction false} NewKeeps(es: seq<Entry>, keys: set<string>)
    requires Ordered(es)
    ensures Ordered(New(es, keys))
    ensures forall e :: e in New(es, keys) <==> e in es && DocKey(e.doc) !in keys
  {
    NewOrdered(es, keys);
    forall e
      ensures e in New(es, keys) <==> e in es && DocKey(e.doc) !in keys
    {
      NewHolds(es, keys, e);
    }
  }

  lemma {:induction false} RememberHits(es: seq<Entry>, keys: set<string>)
    requires forall e :: e in es ==> Identified(e.doc)
    ensures RememberAll(Hits(es), keys) == keys + Keys(es)
  {
    if es != [] {
      var n := |es| - 1;
      RememberHits(es[..n], keys);
      assert Hits(es)[..n] == Hits(es[..n]);
      assert Key(HitOf(es[n])) == Some(DocKey(es[n].doc));
      assert es == es[..n] + [es[n]];
    }
  }

  // ----- The session on an honest server -----

  ghost predicate FromServer(e: Entry, server: Server) {
    Identified(e.doc) && exists p :: p in server.pits && e in server.pits[p]
  }

  predicate PitCursor(c: Cursor, server: Server) {
    c.pitId.Some? && c.pitId.value.pit in server.pits && IsSort(c.sort)
  }

  /** `d` will still come: its PIT holds it after the sort values. */
  ghost predicate Pending(d: Doc, s: Snapshot, sort: seq<Value>)
    requires IsSort(sort)
  {
    exists e :: e in s && e.doc == d && IsAfter(e, Some(sort))
  }

  /** The lines shown are `es`: documents of the server, newest first, each once, not older than the cursor. */
  ghost predicate ShowsLines(s: Session, es: seq<Entry>, server: Server) {
    && s.lines == Hits(es) && s.seen == Keys(es)
    && Ordered(es) && (forall e :: e in es ==> FromServer(e, server))
    && |es| <= HISTORY_CAP
    && (s.next.Some? ==> PitCursor(s.next.value, server) && forall e :: e in es ==> e.doc.ts >= s.next.value.sort[0].n)
  }

  /** What is shown was reached inside a window. */
  ghost predicate ShownInside(log: seq<Exchange>, start: nat, es: seq<Entry>, server: Server) {
    forall e :: e in es ==> ReachedInside(log, start, e.doc, server)
  }

  /** What was reached inside a window is shown. */
  ghost predicate InsideShown(log: seq<Exchange>, start: nat, keys: set<string>, server: Server) {
    forall d :: ReachedInside(log, start, d, server) ==> DocKey(d) in keys
  }

  /** Every document of PIT `first` was reached, or is still to come. */
  ghost predicate Covers(s: Session, src: Source, first: nat, start: nat, server: Server)
    requires first in server.pits && (s.next.Some? ==> PitCursor(s.next.value, server))
  {
    forall d :: Holds(server.pits[first], d) ==>
      || Reached(Log(s.backend, src), start, d, server)
      || (s.next.Some? && Pending(d, server.pits[s.next.value.pitId.value.pit], s.next.value.sort))
  }

  /**
   * A history that began on PIT `first` with exchange `start`: its lines, each
   * reached inside a window; and (under the cap) all that were, and no document
   * of the first PIT skipped.
   */
  ghost predicate Shows(s: Session, src: Source, es: seq<Entry>, first: nat, start: nat, server: Server) {
    && first in server.pits && start <= |Log(s.backend, src)|
    && ShowsLines(s, es, server)
    && ShownInside(Log(s.backend, src), start, es, server)
    && (|es| < HISTORY_CAP ==> InsideShown(Log(s.backend, src), start, s.seen, server) && Covers(s, src, first, start, server))
  }

  // ----- What one more page reaches -----

  /** With one more page, what it reaches is reached; what it shows, inside its window. */
  lemma ReachGrows(log: seq<Exchange>, longer: seq<Exchange>, start: nat, n: nat, pit: nat, after: Option<seq<Value>>, size: nat, server: Server, d: Doc)
    requires log <= longer && start <= |log| && OnlyPage(longer, |log|, n, pit, after, size) && size >= 1
    requires ValidServer(server) && pit in server.pits && (after.Some? ==> IsSort(after.value))
    ensures var page := PageAt(server, n, pit, after, size);
            && (Reached(longer, start, d, server) <==>
                  Reached(log, start, d, server) || ReachedBy(d, server.pits[pit], page, after, size))
            && (ReachedInside(longer, start, d, server) <==> ReachedInside(log, start, d, server) || Holds(page, d))
  {
    var page := PageAt(server, n, pit, after, size);
    assert Reaches(longer[n], n, d, server) <==> ReachedBy(d, server.pits[pit], page, after, size);
    PageHolds(server, n, pit, after, size, d);
    LogGrows(log, longer, start, n, server, d);
  }

  lemma PageHolds(server: Server, n: nat, pit: nat, after: Option<seq<Value>>, size: nat, d: Doc)
    requires size >= 1 && ValidServer(server) && pit in server.pits && (after.Some? ==> IsSort(after.value))
    ensures var page := PageAt(server, n, pit, after, size);
            Holds(page, d) <==> ReachedBy(d, server.pits[pit], page, after, size) && Inside(d, server.clock(n))
  {
    var page := PageAt(server, n, pit, after, size);
    forall e
      ensures e in page <==> e in server.pits[pit] && Inside(e.doc, server.clock(n)) && Passes(server.pits[pit], page, after, size, e)
    {
      PageShows(server.pits[pit], server.clock(n), after, size, e);
    }
  }

  lemma LogGrows(log: seq<Exchange>, longer: seq<Exchange>, start: nat, n: nat, server: Server, d: Doc)
    requires log <= longer && start <= |log| <= n < |longer| && forall i :: |log| <= i < |longer| && i != n ==> !Answered(longer[i])
    ensures Reached(longer, start, d, server) <==> Reached(log, start, d, server) || Reaches(longer[n], n, d, server)
    ensures ReachedInside(longer, start, d, server) <==>
              ReachedInside(log, start, d, server) || (Reaches(longer[n], n, d, server) && Inside(d, server.clock(n)))
  {
    assert forall i :: 0 <= i < |log| ==> longer[i] == log[i];
  }

  lemma ReachStays(log: seq<Exchange>, longer: seq<Exchange>, start: nat, server: Server, d: Doc)
    requires log <= longer && start <= |log| && NoPage(longer, |log|)
    ensures Reached(longer, start, d, server) <==> Reached(log, start, d, server)
    ensures ReachedInside(longer, start, d, server) <==> ReachedInside(log, start, d, server)
  {
    assert forall i :: 0 <= i < |log| ==> longer[i] == log[i];
  }

  // ----- One older page -----

  /** The part of a page that is shown: what is new, up to the cap. */
  function Kept(es: seq<Entry>, page: seq<Entry>): seq<Entry>
    requires |es| <= HISTORY_CAP
  {
    var fresh' := New(page, Keys(es));
    fresh'[..Min(|fresh'|, HISTORY_CAP - |es|)]
  }

  /** Showing a page that follows `ts` after lines not older than `ts` keeps the lines ordered. */
  lemma KeptOrdered(es: seq<Entry>, page: seq<Entry>, ts: int)
    requires |es| <= HISTORY_CAP && Ordered(es) && Ordered(page)
    requires (forall e :: e in es ==> e.doc.ts >= ts) && (forall e :: e in page ==> e.doc.ts <= ts)
    ensures Ordered(es + Kept(es, page))
    ensures forall e :: e in Kept(es, page) ==> e in page && DocKey(e.doc) !in Keys(es)
    ensures Keys(es + Kept(es, page)) == Keys(es) + Keys(Kept(es, page))
    ensures |Kept(es, page)| == |New(page, Keys(es))| ==> forall e :: e in page ==> DocKey(e.doc) in Keys(es + Kept(es, page))
  {
    NewKeeps(page, Keys(es));
    var fresh', kept := New(page, Keys(es)), Kept(es, page);
    assert forall e :: e in kept ==> e in fresh';
    assert forall e :: e in es + kept <==> e in es || e in kept;
    var all := es + kept;
    forall i, j | 0 <= i < j < |all|
      ensures all[i].doc.ts >= all[j].doc.ts && DocKey(all[i].doc) != DocKey(all[j].doc)
    {
      if i < |es| <= j {
        assert all[i] in es && all[j] in kept;
        assert DocKey(all[i].doc) in Keys(es);
      } else if |es| <= i {
        assert all[i] == fresh'[i - |es|] && all[j] == fresh'[j - |es|];
      }
    }
  }

  lemma KeptHits(es: seq<Entry>, page: seq<Entry>)
    requires |es| <= HISTORY_CAP && forall e :: e in page ==> Identified(e.doc)
    ensures var unseen := Unseen(Hits(page), Keys(es));
            && |unseen| == |New(page, Keys(es))|
            && unseen[..Min(|unseen|, HISTORY_CAP - |es|)] == Hits(Kept(es, page))
            && RememberAll(Hits(Kept(es, page)), Keys(es)) == Keys(es) + Keys(Kept(es, page))
  {
    var fresh', kept := New(page, Keys(es)), Kept(es, page);
    UnseenHits(page, Keys(es));
    assert Hits(fresh')[..|kept|] == Hits(kept);
    forall e | e in kept
      ensures Identified(e.doc)
    {
      assert e in fresh';
      NewHolds(page, Keys(es), e);
    }
    RememberHits(kept, Keys(es));
  }

  lemma HitsJoin(a: seq<Entry>, b: seq<Entry>)
    ensures Hits(a) + Hits(b) == Hits(a + b)
  {
  }

  /** The session after an older page, in terms of the page's entries. */
  lemma LoadOlderEntries(s: Session, es: seq<Entry>, page: seq<Entry>, src: Source, next: Option<Cursor>)
    requires s.lines == Hits(es) && s.seen == Keys(es) && |es| <= HISTORY_CAP
    requires forall e :: e in page ==> Identified(e.doc)
    ensures var t := ShowOlder(s, src, Page(Hits(page), next));
            var kept := Kept(es, page);
            && t.lines == Hits(es + kept) && t.seen == Keys(es) + Keys(kept)
            && t.next == (if |kept| < |New(page, Keys(es))| then None else next)
  {
    KeptHits(es, page);
    HitsJoin(es, Kept(es, page));
  }

  lemma EntryBehind(d: Doc, from: Snapshot, sort: seq<Value>, s: Snapshot, after: seq<Value>) returns (e: Entry)
    requires ValidSnapshot(s) && IsSort(sort) && IsSort(after) && Pending(d, from, sort)
    requires (s == from && after == sort) || (after == ResumeSort(sort) && HoldsAll(s, from))
    ensures e in s && e.doc == d && IsAfter(e, Some(after))
  {
    e :| e in from && e.doc == d && IsAfter(e, Some(sort));
    if !(s == from && after == sort) {
      assert Holds(from, d);
      e :| e in s && e.doc == d;
    }
  }

  /** What was to come after the cursor is reached by the page, or to come after it. */
  lemma StillPending(d: Doc, from: Snapshot, sort: seq<Value>, s: Snapshot, after: seq<Value>, w: Window, size: nat)
    requires ValidSnapshot(s) && size >= 1 && IsSort(sort) && IsSort(after)
    requires (s == from && after == sort) || (after == ResumeSort(sort) && HoldsAll(s, from))
    requires Pending(d, from, sort)
    ensures var page := PageOf(Matching(s, w), Some(after), size);
            ReachedBy(d, s, page, Some(after), size) || (|page| == size && Pending(d, s, SortOf(page[|page| - 1])))
  {
    var e := EntryBehind(d, from, sort, s, after);
    var page := PageOf(Matching(s, w), Some(after), size);
    assert Passes(s, page, Some(after), size, e) || IsAfter(e, Some(SortOf(page[|page| - 1])));
  }

  // ----- One older page -----

  /** The exchanges of an older page are those of its search, and perhaps a close. */
  lemma LoadOlderLog(s: Session, src: Source, up: bool, size: nat)
    requires size >= 1 && CanLoadOlder(s)
    ensures var fetched := Log(FetchFn(s.backend, src, up, s.next, size).0, src);
            var log := Log(LoadOlderFn(s, Some(src), up, size).backend, src);
            fetched <= log && NoPage(log, |fetched|)
  {
    var (after, result) := FetchFn(s.backend, src, up, s.next, size);
    if result.Ok? {
      ReleaseIs(after, Some(src), result.value.next);
    }
  }

  lemma OnlyPageGrows(log: seq<Exchange>, longer: seq<Exchange>, start: nat, n: nat, pit: nat, after: Option<seq<Value>>, size: nat)
    requires log <= longer && NoPage(longer, |log|) && OnlyPage(log, start, n, pit, after, size)
    ensures OnlyPage(longer, start, n, pit, after, size)
  {
    assert forall i :: 0 <= i < |log| ==> longer[i] == log[i];
  }

  /** What an older page is: the search behind it and what it does to the lines. */
  lemma OlderPage(s: Session, src: Source, es: seq<Entry>, up: bool, size: nat, server: Server) returns (n: nat, pit: nat, after: seq<Value>)
    requires size >= 1 && ShowsLines(s, es, server) && CanLoadOlder(s)
    requires FetchFn(s.backend, src, up, s.next, size).1.Ok? && Honest(Log(LoadOlderFn(s, Some(src), up, size).backend, src), server)
    ensures Continues(Talking(s.backend, src), s.next.value, pit, after, server)
    ensures Log(s.backend, src) <= Log(LoadOlderFn(s, Some(src), up, size).backend, src)
    ensures OnlyPage(Log(LoadOlderFn(s, Some(src), up, size).backend, src), |Log(s.backend, src)|, n, pit, Some(after), size)
    ensures var page, t := PageAt(server, n, pit, Some(after), size), LoadOlderFn(s, Some(src), up, size);
            var kept := Kept(es, page);
            && t.lines == Hits(es + kept) && t.seen == Keys(es) + Keys(kept)
            && (|kept| < |New(page, Keys(es))| ==> t.next.None?)
            && (|kept| == |New(page, Keys(es))| ==> CursorAfter(t.next, pit, page, size))
  {
    var t, c := LoadOlderFn(s, Some(src), up, size), Talking(s.backend, src);
    var older := SearchFn(c, s.next, size);
    FetchIs(s.backend, src, up, s.next, size);
    LoadOlderLog(s, src, up, size);
    HonestPrefix(older.client.log, Log(t.backend, src), server);
    n, pit, after := OlderPageHonest(c, s.next.value, size, server);
    OnlyPageGrows(older.client.log, Log(t.backend, src), |Log(s.backend, src)|, n, pit, Some(after), size);
    var page := PageAt(server, n, pit, Some(after), size);
    PageIsOrdered(server.pits[pit], server.clock(n), Some(after), size);
    assert older.result.value.lines == Hits(page);
    LoadOlderEntries(s.(backend := FetchFn(s.backend, src, up, s.next, size).0), es, page, src, older.result.value.next);
  }

  lemma PageFromServer(server: Server, n: nat, pit: nat, after: Option<seq<Value>>, size: nat)
    requires size >= 1 && ValidServer(server) && pit in server.pits && (after.Some? ==> IsSort(after.value))
    ensures var page := PageAt(server, n, pit, after, size);
            && Ordered(page)
            && (forall e :: e in page ==> FromServer(e, server) && IsAfter(e, after) && e.doc.ts >= page[|page| - 1].doc.ts)
  {
    var page := PageAt(server, n, pit, after, size);
    PageIsOrdered(server.pits[pit], server.clock(n), after, size);
    SnapshotOrdered(page);
    forall e | e in page
      ensures FromServer(e, server) && IsAfter(e, after)
    {
      PageShows(server.pits[pit], server.clock(n), after, size, e);
    }
  }

  /** An older page keeps the lines in order and without repeats. */
  lemma OlderLines(s: Session, es: seq<Entry>, t: Session, n: nat, pit: nat, after: seq<Value>, size: nat, server: Server)
    requires size >= 1 && ValidServer(server) && ShowsLines(s, es, server) && CanLoadOlder(s)
    requires pit in server.pits && IsSort(after) && after[0] == s.next.value.sort[0]
    requires var page := PageAt(server, n, pit, Some(after), size);
             var kept := Kept(es, page);
             && t.lines == Hits(es + kept) && t.seen == Keys(es) + Keys(kept)
             && (t.next.Some? ==> CursorAfter(t.next, pit, page, size))
    ensures ShowsLines(t, es + Kept(es, PageAt(server, n, pit, Some(after), size)), server)
  {
    var page := PageAt(server, n, pit, Some(after), size);
    PageFromServer(server, n, pit, Some(after), size);
    KeptOrdered(es, page, after[0].n);
  }

  /** What an older page reaches inside its window is shown, and nothing else. */
  lemma OlderInside(log: seq<Exchange>, longer: seq<Exchange>, start: nat, es: seq<Entry>, n: nat, pit: nat, after: seq<Value>, size: nat, server: Server)
    requires size >= 1 && ValidServer(server) && log <= longer && start <= |log| && |es| <= HISTORY_CAP
    requires pit in server.pits && IsSort(after) && OnlyPage(longer, |log|, n, pit, Some(after), size)
    requires ShownInside(log, start, es, server) && (|es| < HISTORY_CAP ==> InsideShown(log, start, Keys(es), server))
    ensures var kept := Kept(es, PageAt(server, n, pit, Some(after), size));
            && ShownInside(longer, start, es + kept, server)
            && (|es + kept| < HISTORY_CAP ==> InsideShown(longer, start, Keys(es) + Keys(kept), server))
  {
    var page := PageAt(server, n, pit, Some(after), size);
    var kept := Kept(es, page);
    forall d
      ensures ReachedInside(longer, start, d, server) <==> ReachedInside(log, start, d, server) || Holds(page, d)
    {
      ReachGrows(log, longer, start, n, pit, Some(after), size, server, d);
    }
    forall e
      ensures e in New(page, Keys(es)) <==> e in page && DocKey(e.doc) !in Keys(es)
    {
      NewHolds(page, Keys(es), e);
    }
    assert forall e :: e in kept ==> e in page;
    if |es + kept| < HISTORY_CAP {
      assert kept == New(page, Keys(es));
    }
  }

  lemma OlderCovers(s: Session, src: Source, first: nat, start: nat, t: Session, n: nat, pit: nat, after: seq<Value>, size: nat, server: Server)
    requires size >= 1 && ValidServer(server) && s.next.Some? && PitCursor(s.next.value, server) && first in server.pits
    requires Log(s.backend, src) <= Log(t.backend, src) && start <= |Log(s.backend, src)|
    requires Continues(Talking(s.backend, src), s.next.value, pit, after, server)
    requires OnlyPage(Log(t.backend, src), |Log(s.backend, src)|, n, pit, Some(after), size)
    requires CursorAfter(t.next, pit, PageAt(server, n, pit, Some(after), size), size)
    requires Covers(s, src, first, start, server)
    ensures Covers(t, src, first, start, server)
  {
    var page := PageAt(server, n, pit, Some(after), size);
    forall d | Holds(server.pits[first], d)
      ensures Reached(Log(t.backend, src), start, d, server)
              || (t.next.Some? && Pending(d, server.pits[t.next.value.pitId.value.pit], t.next.value.sort))
    {
      ReachGrows(Log(s.backend, src), Log(t.backend, src), start, n, pit, Some(after), size, server, d);
      if !Reached(Log(s.backend, src), start, d, server) {
        StillPending(d, server.pits[s.next.value.pitId.value.pit], s.next.value.sort, server.pits[pit], after, server.clock(n), size);
      }
    }
  }

  lemma OlderPageShows(s: Session, src: Source, es: seq<Entry>, up: bool, size: nat, first: nat, start: nat, server: Server) returns (es': seq<Entry>)
    requires size >= 1 && Shows(s, src, es, first, start, server) && CanLoadOlder(s)
    requires FetchFn(s.backend, src, up, s.next, size).1.Ok? && Honest(Log(LoadOlderFn(s, Some(src), up, size).backend, src), server)
    ensures Shows(LoadOlderFn(s, Some(src), up, size), src, es', first, start, server) && es <= es'
  {
    var t := LoadOlderFn(s, Some(src), up, size);
    var n, pit, after := OlderPage(s, src, es, up, size, server);
    var page := PageAt(server, n, pit, Some(after), size);
    es' := es + Kept(es, page);
    OlderLines(s, es, t, n, pit, after, size, server);
    OlderInside(Log(s.backend, src), Log(t.backend, src), start, es, n, pit, after, size, server);
    if |es'| < HISTORY_CAP {
      OlderCovers(s, src, first, start, t, n, pit, after, size, server);
    }
  }

  lemma FailedSearch(s: Session, src: Source, up: bool, size: nat, server: Server)
    requires size >= 1 && s.next.Some? && PitCursor(s.next.value, server)
    requires FetchFn(s.backend, src, up, s.next, size).1.Err? && Honest(Log(FetchFn(s.backend, src, up, s.next, size).0, src), server)
    ensures var log := Log(FetchFn(s.backend, src, up, s.next, size).0, src);
            Log(s.backend, src) <= log && NoPage(log, |Log(s.backend, src)|)
  {
    FetchIs(s.backend, src, up, s.next, size);
    if Reachable(s.backend, src, up) {
      FailedPage(Talking(s.backend, src), s.next.value, size, server);
    }
  }

  /** A failed page changes nothing that is shown or reached. */
  lemma {:induction false} FailedPageShows(s: Session, src: Source, es: seq<Entry>, up: bool, size: nat, first: nat, start: nat, server: Server)
    requires size >= 1 && Shows(s, src, es, first, start, server) && CanLoadOlder(s)
    requires FetchFn(s.backend, src, up, s.next, size).1.Err? && Honest(Log(LoadOlderFn(s, Some(src), up, size).backend, src), server)
    ensures Shows(LoadOlderFn(s, Some(src), up, size), src, es, first, start, server)
  {
    var t := LoadOlderFn(s, Some(src), up, size);
    FailedSearch(s, src, up, size, server);
    forall d
      ensures Reached(Log(t.backend, src), start, d, server) <==> Reached(Log(s.backend, src), start, d, server)
      ensures ReachedInside(Log(t.backend, src), start, d, server) <==> ReachedInside(Log(s.backend, src), start, d, server)
    {
      ReachStays(Log(s.backend, src), Log(t.backend, src), start, server, d);
    }
  }

  /** An older page keeps the session complete, ordered and without repeats, also when it had to resume on a new PIT. */
  lemma LoadOlderShows(s: Session, src: Source, es: seq<Entry>, up: bool, size: nat, first: nat, start: nat, server: Server) returns (es': seq<Entry>)
    requires size >= 1 && Shows(s, src, es, first, start, server)
    requires Honest(Log(LoadOlderFn(s, Some(src), up, size).backend, src), server)
    ensures Shows(LoadOlderFn(s, Some(src), up, size), src, es', first, start, server) && es <= es'
  {
    es' := es;
    if CanLoadOlder(s) {
      if FetchFn(s.backend, src, up, s.next, size).1.Ok? {
        es' := OlderPageShows(s, src, es, up, size, first, start, server);
      } else {
        FailedPageShows(s, src, es, up, size, first, start, server);
      }
    }
  }

  // ----- The first page -----

  /** The PIT the first page of a reload is served on, if it is. */
  function FirstPit(s: Session, src: Source, up: bool, size: nat): Option<nat>
    requires size >= 1
  {
    var b := LetGoFn(s).backend;
    if !Reachable(b, src, up) then None else
    var o := OpenPitFn(Talking(b, src));
    if o.result.Ok? && o.result.value.Some? && SearchPitFn(o.client, None, o.result.value.value, size).result.Ok?
    then Some(o.result.value.value.pit) else None
  }

  /** The exchange of that page. */
  function FirstSearch(s: Session, src: Source): nat { |Log(LetGoFn(s).backend, src)| + 1 }

  /** A reload on a PIT: what comes before its page, and that it shows that page. */
  lemma {:induction false} ReloadOnPit(s: Session, src: Source, up: bool, size: nat) returns (o: Client, pit: PitId)
    requires size >= 1 && FirstPit(s, src, up, size).Some?
    ensures FirstPit(s, src, up, size) == Some(pit.pit) && |o.log| == FirstSearch(s, src)
    ensures Log(s.backend, src) <= o.log && NoPage(o.log, |Log(s.backend, src)|)
    ensures var page := SearchPitFn(o, None, pit, size);
            var t := ReloadFn(s, Some(src), up, size);
            && page.result.Ok? && Log(t.backend, src) == SettleFn(page, Some(pit)).client.log
            && t.lines == page.result.value.0.lines && t.next == page.result.value.0.next
            && t.seen == RememberAll(page.result.value.0.lines, {})
  {
    var b := LetGoFn(s).backend;
    ReleaseIs(s.backend, s.source, s.next);
    FetchIs(b, src, up, None, size);
    OpenPitEffect(Talking(b, src));
    o, pit := OpenPitFn(Talking(b, src)).client, OpenPitFn(Talking(b, src)).result.value.value;
    SettleEffect(SearchPitFn(o, None, pit, size), Some(pit));
  }

  lemma FirstLog(log: seq<Exchange>, first: seq<Exchange>, start: nat, pit: PitId, size: nat)
    requires start <= |first| < |log| && log[..|first|] == first && NoPage(first, start) && NoPage(log, |first| + 1)
    requires Answered(log[|first|]) && log[|first|].request == SearchPit(pit, None, size)
    ensures OnlyPage(log, start, |first|, pit.pit, None, size)
  {
    assert forall i :: 0 <= i < |first| ==> log[i] == log[..|first|][i];
  }

  lemma FirstKeys(page: seq<Entry>)
    requires ValidSnapshot(page)
    ensures RememberAll(Hits(page), {}) == Keys(page)
  {
    RememberHits(page, {});
  }

  lemma {:induction false} FirstPageHonest(s: Session, src: Source, up: bool, size: nat, server: Server)
    requires size >= 1 && FirstPit(s, src, up, size).Some? && Honest(Log(ReloadFn(s, Some(src), up, size).backend, src), server)
    ensures var pit, n, t := FirstPit(s, src, up, size).value, FirstSearch(s, src), ReloadFn(s, Some(src), up, size);
            && pit in server.pits
            && Log(s.backend, src) <= Log(t.backend, src)
            && OnlyPage(Log(t.backend, src), |Log(s.backend, src)|, n, pit, None, size)
            && var page := PageAt(server, n, pit, None, size);
               t.lines == Hits(page) && CursorAfter(t.next, pit, page, size) && t.seen == Keys(page)
  {
    var o, pit := ReloadOnPit(s, src, up, size);
    var t := ReloadFn(s, Some(src), up, size);
    SettledPage(o, None, pit, size, Some(pit));
    assert HonestExchange(Log(t.backend, src)[|o.log|], |o.log|, server);
    PitPageHonest(o, None, pit, size, server);
    PageIsOrdered(server.pits[pit.pit], server.clock(|o.log|), None, size);
    FirstKeys(PageAt(server, |o.log|, pit.pit, None, size));
    FirstLog(Log(t.backend, src), o.log, |Log(s.backend, src)|, pit, size);
  }

  lemma ReloadShows(s: Session, src: Source, up: bool, size: nat, server: Server)
    requires 1 <= size <= MAX_PAGE && FirstPit(s, src, up, size).Some? && Honest(Log(ReloadFn(s, Some(src), up, size).backend, src), server)
    ensures FirstPit(s, src, up, size).value in server.pits
    ensures var first := FirstPit(s, src, up, size).value;
            Shows(ReloadFn(s, Some(src), up, size), src, PageAt(server, FirstSearch(s, src), first, None, size), first, |Log(s.backend, src)|, server)
  {
    FirstPageHonest(s, src, up, size, server);
    var first, n, start, t := FirstPit(s, src, up, size).value, FirstSearch(s, src), |Log(s.backend, src)|, ReloadFn(s, Some(src), up, size);
    var page := PageAt(server, n, first, None, size);
    PageFromServer(server, n, first, None, size);
    forall d
      ensures Reached(Log(t.backend, src), start, d, server) <==> ReachedBy(d, server.pits[first], page, None, size)
      ensures ReachedInside(Log(t.backend, src), start, d, server) <==> Holds(page, d)
    {
      ReachGrows(Log(s.backend, src), Log(t.backend, src), start, n, first, None, size, server, d);
    }
    FirstCovers(t, src, first, start, n, size, server);
  }

  lemma FirstCovers(t: Session, src: Source, first: nat, start: nat, n: nat, size: nat, server: Server)
    requires size >= 1 && first in server.pits && CursorAfter(t.next, first, PageAt(server, n, first, None, size), size)
    requires forall d :: ReachedBy(d, server.pits[first], PageAt(server, n, first, None, size), None, size) ==> Reached(Log(t.backend, src), start, d, server)
    ensures Covers(t, src, first, start, server)
  {
    var snap, page := server.pits[first], PageAt(server, n, first, None, size);
    forall d | Holds(snap, d) && !Reached(Log(t.backend, src), start, d, server)
      ensures t.next.Some? && Pending(d, server.pits[t.next.value.pitId.value.pit], t.next.value.sort)
    {
      var e :| e in snap && e.doc == d;
      assert IsAfter(e, None);
      assert !Passes(snap, page, None, size, e);
    }
  }

  // ----- Whole walks -----

  /** The timestamp a hit is sorted by. */
  function TimeOf(h: Hit): int {
    if h.sort.Some? && |h.sort.value| > 0 && h.sort.value[0].Num? then h.sort.value[0].n else 0
  }

  /** Older pages from `src`, or none for want of an endpoint; and what others do in between. */
  predicate AllOlder(ops: seq<Op>, src: Source) { forall op :: op in ops ==> IsOlder(op, src) }

  predicate IsOlder(op: Op, src: Source) {
    op.Outside? || op.OutsideRefusal? || (op.LoadOlder? && (op.source.None? || op.source == Some(src)))
  }

  lemma {:induction false} RunAppends(s: Session, ops: seq<Op>)
    ensures LogsGrow(s.backend, Run(s, ops).backend)
  {
    if ops != [] {
      RunAppends(s, ops[..|ops| - 1]);
      ApplyAppends(Run(s, ops[..|ops| - 1]), ops[|ops| - 1]);
    }
  }

  lemma StepShows(s: Session, src: Source, es: seq<Entry>, op: Op, first: nat, start: nat, server: Server) returns (es': seq<Entry>)
    requires IsOlder(op, src) && Shows(s, src, es, first, start, server) && Honest(Log(Apply(s, op).backend, src), server)
    ensures Shows(Apply(s, op), src, es', first, start, server)
  {
    es' := es;
    if op.LoadOlder? && op.source.Some? {
      es' := LoadOlderShows(s, src, es, op.up, ClampSize(op.size), first, start, server);
    }
  }

  lemma {:induction false} WalkShows(s: Session, src: Source, es: seq<Entry>, ops: seq<Op>, first: nat, start: nat, server: Server)
    returns (es': seq<Entry>)
    requires AllOlder(ops, src) && Shows(s, src, es, first, start, server) && Honest(Log(Run(s, ops).backend, src), server)
    ensures Shows(Run(s, ops), src, es', first, start, server)
  {
    es' := es;
    if ops != [] {
      var before, op := ops[..|ops| - 1], ops[|ops| - 1];
      assert op in ops;
      ApplyAppends(Run(s, before), op);
      HonestPrefix(Log(Run(s, before).backend, src), Log(Run(s, ops).backend, src), server);
      es' := WalkShows(s, src, es, before, first, start, server);
      es' := StepShows(Run(s, before), src, es', op, first, start, server);
    }
  }

  /** A line of the document `index`, `id` is shown. */
  predicate IsShown(lines: seq<Hit>, index: string, id: string) {
    exists h :: h in lines && h.docIndex == Some(index) && h.docId == Some(id)
  }

  /** A document of that identity was reached inside the window of a page. */
  ghost predicate WasInside(log: seq<Exchange>, start: nat, index: string, id: string, server: Server) {
    exists ts :: ReachedInside(log, start, Doc(index, id, ts), server)
  }

  /** Hits of the server, newest first, none twice. */
  ghost predicate HonestLines(lines: seq<Hit>, server: Server) {
    && (forall h :: h in lines ==> exists p, e :: p in server.pits && e in server.pits[p] && h == HitOf(e))
    && (forall i, j :: 0 <= i < j < |lines| ==>
          && TimeOf(lines[i]) >= TimeOf(lines[j])
          && (lines[i].docIndex, lines[i].docId) != (lines[j].docIndex, lines[j].docId))
  }

  /** The history that a reload begins. */
  ghost predicate Began(s: Session, src: Source, up: bool, size: nat, ops: seq<Op>, server: Server)
    requires size >= 1
  {
    AllOlder(ops, src) && FirstPit(s, src, up, size).Some? && Honest(Log(Run(ReloadFn(s, Some(src), up, size), ops).backend, src), server)
  }

  lemma {:induction false} HistoryShows(s: Session, src: Source, up: bool, size: nat, ops: seq<Op>, server: Server) returns (es: seq<Entry>)
    requires 1 <= size <= MAX_PAGE && Began(s, src, up, size, ops, server)
    ensures Shows(Run(ReloadFn(s, Some(src), up, size), ops), src, es, FirstPit(s, src, up, size).value, |Log(s.backend, src)|, server)
  {
    var first, start := FirstPit(s, src, up, size).value, ReloadFn(s, Some(src), up, size);
    RunAppends(start, ops);
    HonestPrefix(Log(start.backend, src), Log(Run(start, ops).backend, src), server);
    ReloadShows(s, src, up, size, server);
    es := WalkShows(start, src, PageAt(server, FirstSearch(s, src), first, None, size), ops, first, |Log(s.backend, src)|, server);
  }

  /**
   * A reload served on a PIT, followed by any number of older pages, over any
   * number of expiries, failures and new documents: the lines are hits of the
   * server, newest first and none twice; under the cap, a document is shown
   * exactly when a page reached it inside its window; and once there is no
   * cursor left, every document of the first PIT was reached.
   */
  lemma {:induction false} HistoryIsComplete(s: Session, src: Source, up: bool, size: Option<nat>, ops: seq<Op>, server: Server)
    requires Began(s, src, up, ClampSize(size), ops, server)
    ensures var first, start := FirstPit(s, src, up, ClampSize(size)).value, |Log(s.backend, src)|;
            var t := Run(ReloadFn(s, Some(src), up, ClampSize(size)), ops);
            && first in server.pits
            && HonestLines(t.lines, server)
            && (|t.lines| < HISTORY_CAP ==>
                  && (forall index, id :: IsShown(t.lines, index, id) <==> WasInside(Log(t.backend, src), start, index, id, server))
                  && (t.next.None? ==> forall d :: Holds(server.pits[first], d) ==> Reached(Log(t.backend, src), start, d, server)))
  {
    var es := HistoryShows(s, src, up, ClampSize(size), ops, server);
    var t := Run(ReloadFn(s, Some(src), up, ClampSize(size)), ops);
    ShownAreHits(t, es, server);
    if |t.lines| < HISTORY_CAP {
      forall index, id
        ensures IsShown(t.lines, index, id) <==> WasInside(Log(t.backend, src), |Log(s.backend, src)|, index, id, server)
      {
        ShownIsInside(t, src, es, FirstPit(s, src, up, ClampSize(size)).value, |Log(s.backend, src)|, server, index, id);
      }
    }
  }

  lemma {:induction false} ShownAreHits(t: Session, es: seq<Entry>, server: Server)
    requires ShowsLines(t, es, server)
    ensures HonestLines(t.lines, server)
  {
    forall h | h in t.lines
      ensures exists p, e :: p in server.pits && e in server.pits[p] && h == HitOf(e)
    {
      var i :| 0 <= i < |es| && h == HitOf(es[i]);
      assert es[i] in es;
    }
    forall i, j | 0 <= i < j < |t.lines|
      ensures (t.lines[i].docIndex, t.lines[i].docId) != (t.lines[j].docIndex, t.lines[j].docId)
    {
      assert DocKey(es[i].doc) != DocKey(es[j].doc);
    }
  }

  /** What is reached is a document of the server. */
  lemma ReachedIsHeld(log: seq<Exchange>, start: nat, d: Doc, server: Server) returns (p: nat)
    requires Reached(log, start, d, server)
    ensures p in server.pits && Holds(server.pits[p], d)
  {
    var n :| start <= n < |log| && Reaches(log[n], n, d, server);
    p := log[n].request.id.pit;
  }

  lemma {:induction false} LineIsShown(lines: seq<Hit>, es: seq<Entry>, d: Doc)
    requires lines == Hits(es) && Identified(d) && DocKey(d) in Keys(es) && forall e :: e in es ==> Identified(e.doc)
    ensures IsShown(lines, d.index, d.id)
  {
    var e :| e in es && DocKey(e.doc) == DocKey(d);
    KeyIdentifies(e.doc, d);
    var i :| 0 <= i < |es| && es[i] == e;
    assert lines[i] in lines && lines[i] == HitOf(e);
  }

  lemma {:induction false} ShownLine(lines: seq<Hit>, es: seq<Entry>, index: string, id: string) returns (e: Entry)
    requires lines == Hits(es) && IsShown(lines, index, id)
    ensures e in es && e.doc.index == index && e.doc.id == id
  {
    var h :| h in lines && h.docIndex == Some(index) && h.docId == Some(id);
    var i :| 0 <= i < |es| && h == HitOf(es[i]);
    e := es[i];
  }

  lemma {:induction false} ShownIsInside(t: Session, src: Source, es: seq<Entry>, first: nat, start: nat, server: Server, index: string, id: string)
    requires ValidServer(server) && Shows(t, src, es, first, start, server) && |es| < HISTORY_CAP
    ensures IsShown(t.lines, index, id) <==> WasInside(Log(t.backend, src), start, index, id, server)
  {
    if IsShown(t.lines, index, id) {
      var e := ShownLine(t.lines, es, index, id);
      assert e.doc == Doc(index, id, e.doc.ts);
    }
    if ts :| ReachedInside(Log(t.backend, src), start, Doc(index, id, ts), server) {
      InsideIsShown(t, src, es, start, server, Doc(index, id, ts));
    }
  }

  lemma {:induction false} InsideIsShown(t: Session, src: Source, es: seq<Entry>, start: nat, server: Server, d: Doc)
    requires ValidServer(server) && ShowsLines(t, es, server) && InsideShown(Log(t.backend, src), start, t.seen, server)
    requires ReachedInside(Log(t.backend, src), start, d, server)
    ensures IsShown(t.lines, d.index, d.id)
  {
    var p := ReachedIsHeld(Log(t.backend, src), start, d, server);
    LineIsShown(t.lines, es, d);
  }

  // ----- At the end of a walk -----

  ghost predicate SameDates(a: Snapshot, b: Snapshot) {
    forall d, d' :: Holds(a, d) && Holds(b, d') && d.index == d'.index && d.id == d'.id ==> d == d'
  }

  /** A document has the same timestamp in every PIT. */
  ghost predicate OneDate(server: Server) {
    forall p, q :: p in server.pits && q in server.pits ==> SameDates(server.pits[p], server.pits[q])
  }

  /** A walk that is over, under the cap, and a document of its first PIT. */
  ghost predicate Over(s: Session, src: Source, up: bool, size: nat, ops: seq<Op>, server: Server, d: Doc)
    requires size >= 1
  {
    && Began(s, src, up, size, ops, server)
    && Run(ReloadFn(s, Some(src), up, size), ops).next.None? && |Run(ReloadFn(s, Some(src), up, size), ops).lines| < HISTORY_CAP
    && FirstPit(s, src, up, size).value in server.pits && Holds(server.pits[FirstPit(s, src, up, size).value], d)
  }

  lemma WasInsideIs(log: seq<Exchange>, start: nat, p: nat, server: Server, d: Doc)
    requires OneDate(server) && p in server.pits && Holds(server.pits[p], d)
    ensures WasInside(log, start, d.index, d.id, server) <==> ReachedInside(log, start, d, server)
  {
    assert d == Doc(d.index, d.id, d.ts);
    if ts :| ReachedInside(log, start, Doc(d.index, d.id, ts), server) {
      var q := ReachedIsHeld(log, start, Doc(d.index, d.id, ts), server);
      assert SameDates(server.pits[q], server.pits[p]);
    }
  }

  /**
   * When the walk is over, under the cap: a document of the first PIT is shown
   * exactly when it was inside the window of a page that reached it; and every
   * one was reached.
   */
  lemma {:induction false} ShownIfInside(s: Session, src: Source, up: bool, size: Option<nat>, ops: seq<Op>, server: Server, d: Doc)
    requires Over(s, src, up, ClampSize(size), ops, server, d) && OneDate(server)
    ensures var t := Run(ReloadFn(s, Some(src), up, ClampSize(size)), ops);
            && Reached(Log(t.backend, src), |Log(s.backend, src)|, d, server)
            && (IsShown(t.lines, d.index, d.id) <==> ReachedInside(Log(t.backend, src), |Log(s.backend, src)|, d, server))
  {
    var log := Log(Run(ReloadFn(s, Some(src), up, ClampSize(size)), ops).backend, src);
    HistoryIsComplete(s, src, up, size, ops, server);
    WasInsideIs(log, |Log(s.backend, src)|, FirstPit(s, src, up, ClampSize(size)).value, server, d);
  }

  /**
   * So a document of the first PIT can only be missed by ageing out: one that was
   * not newer than the window when the walk began, and not older when it ended,
   * is shown.
   */
  lemma {:induction false} StillInsideIsShown(s: Session, src: Source, up: bool, size: Option<nat>, ops: seq<Op>, server: Server, d: Doc)
    requires Over(s, src, up, ClampSize(size), ops, server, d)
    requires server.clock(|Log(Run(ReloadFn(s, Some(src), up, ClampSize(size)), ops).backend, src)|).from <= d.ts <= server.clock(|Log(s.backend, src)|).to
    ensures IsShown(Run(ReloadFn(s, Some(src), up, ClampSize(size)), ops).lines, d.index, d.id)
  {
    var log := Log(Run(ReloadFn(s, Some(src), up, ClampSize(size)), ops).backend, src);
    HistoryIsComplete(s, src, up, size, ops, server);
    ReachedWhileInside(log, |Log(s.backend, src)|, server, d);
  }

  lemma ReachedWhileInside(log: seq<Exchange>, start: nat, server: Server, d: Doc)
    requires Forward(server.clock) && Reached(log, start, d, server)
    requires server.clock(|log|).from <= d.ts <= server.clock(start).to
    ensures WasInside(log, start, d.index, d.id, server)
  {
    var n :| start <= n < |log| && Reaches(log[n], n, d, server);
    assert Inside(d, server.clock(n));
    assert d == Doc(d.index, d.id, d.ts);
  }

  /** With absolute bounds, every document of the first PIT inside them is shown. */
  lemma {:induction false} AbsoluteWindowIsComplete(s: Session, src: Source, up: bool, size: Option<nat>, ops: seq<Op>, server: Server, w: Window, d: Doc)
    requires Over(s, src, up, ClampSize(size), ops, server, d) && (forall n :: server.clock(n) == w) && Inside(d, w)
    ensures IsShown(Run(ReloadFn(s, Some(src), up, ClampSize(size)), ops).lines, d.index, d.id)
  {
    StillInsideIsShown(s, src, up, size, ops, server, d);
  }
}
