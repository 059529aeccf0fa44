module HistoryServer {
  // A server that answers searches on a point in time (PIT): from the documents
  // of the PIT, which stay, as far as they are in the time window of the request,
  // which moves: its bounds are relative to the time the request arrives.

  import opened Prelude
  import opened HistoryTransport

  // ----- Documents -----

  /** A stored document: its identity and timestamp never change. */
  datatype Doc = Doc(index: string, id: string, ts: int)

  /** A document in a PIT, with the tiebreaker the PIT gives it. */
  datatype Entry = Entry(doc: Doc, shardDoc: int)

  /** The documents of a PIT that match the search whatever their time, in sort order. */
  type Snapshot = seq<Entry>

  predicate Newer(a: Entry, b: Entry) {
    a.doc.ts > b.doc.ts || (a.doc.ts == b.doc.ts && a.shardDoc > b.shardDoc)
  }

  /** `e` comes strictly after the sort values `(ts, shardDoc)`. */
  predicate Below(e: Entry, ts: int, shardDoc: int) {
    e.doc.ts < ts || (e.doc.ts == ts && e.shardDoc < shardDoc)
  }

  /** Index names hold no `/` and neither name is empty. */
  predicate Identified(d: Doc) { d.index != "" && '/' !in d.index && d.id != "" }

  ghost predicate ValidSnapshot(s: Snapshot) {
    && (forall i, j :: 0 <= i < j < |s| ==>
          Newer(s[i], s[j]) && !(s[i].doc.index == s[j].doc.index && s[i].doc.id == s[j].doc.id))
    && (forall e :: e in s ==> Identified(e.doc) && e.shardDoc < I64_MAX)
  }

  ghost predicate Holds(s: Snapshot, d: Doc) { exists e :: e in s && e.doc == d }

  /** `s` holds every document of `earlier`. */
  ghost predicate HoldsAll(s: Snapshot, earlier: Snapshot) { forall d :: Holds(earlier, d) ==> Holds(s, d) }

  function SortOf(e: Entry): seq<Value> { [Num(e.doc.ts), Num(e.shardDoc)] }

  function HitOf(e: Entry): Hit { Hit(Some(e.doc.index), Some(e.doc.id), Some(SortOf(e))) }

  function Hits(es: seq<Entry>): (hits: seq<Hit>)
    ensures |hits| == |es| && forall i :: 0 <= i < |es| ==> hits[i] == HitOf(es[i])
  {
    seq(|es|, i requires 0 <= i < |es| => HitOf(es[i]))
  }

  predicate IsSort(v: seq<Value>) { |v| == 2 && v[0].Num? && v[1].Num? }

  predicate IsAfter(e: Entry, after: Option<seq<Value>>)
    requires after.Some? ==> IsSort(after.value)
  {
    after.Some? ==> Below(e, after.value[0].n, after.value[1].n)
  }

  // ----- Windows -----

  /** The bounds of a search, as the server resolves them when the request arrives. */
  datatype Window = Window(from: int, to: int)

  predicate Inside(d: Doc, w: Window) { w.from <= d.ts <= w.to }

  function Matching(s: Snapshot, w: Window): Snapshot {
    if s == [] then [] else
    Matching(s[..|s| - 1], w) + if Inside(s[|s| - 1].doc, w) then [s[|s| - 1]] else []
  }

  ghost predicate Descending(s: Snapshot) { forall i, j :: 0 <= i < j < |s| ==> s[i].doc.ts >= s[j].doc.ts }

  /** `s[a..b]` is what is inside the window: before it are newer documents, behind it older ones. */
  ghost predicate WindowSlice(s: Snapshot, w: Window, a: nat, b: nat) {
    && a <= b <= |s|
    && (forall i :: 0 <= i < a ==> s[i].doc.ts > w.to)
    && (forall i :: a <= i < b ==> Inside(s[i].doc, w))
    && (forall i :: b <= i < |s| ==> s[i].doc.ts < w.from)
  }

  /** The slice of a snapshot with one more, older document. */
  lemma SliceStep(s: Snapshot, w: Window, a: nat, b: nat) returns (a': nat, b': nat)
    requires s != [] && Descending(s) && WindowSlice(s[..|s| - 1], w, a, b)
    ensures WindowSlice(s, w, a', b')
    ensures s[a'..b'] == s[a..b] + if Inside(s[|s| - 1].doc, w) then [s[|s| - 1]] else []
  {
    var n := |s| - 1;
    a', b' := a, b;
    var t := s[..n];
    assert forall i :: 0 <= i < n ==> t[i] == s[i];
    assert b < n ==> s[n].doc.ts <= t[b].doc.ts < w.from;
    assert a < n ==> s[n].doc.ts <= t[a].doc.ts && (Inside(t[a].doc, w) || t[a].doc.ts < w.from);
    if Inside(s[n].doc, w) {
      b' := n + 1;
    } else if s[n].doc.ts >= w.from {
      a', b' := n + 1, n + 1;
    }
  }

  /** What matches is one slice of the snapshot. */
  lemma {:induction false} MatchingIsSlice(s: Snapshot, w: Window) returns (a: nat, b: nat)
    requires Descending(s)
    ensures WindowSlice(s, w, a, b) && Matching(s, w) == s[a..b]
  {
    a, b := 0, 0;
    if s != [] {
      var n := |s| - 1;
      a, b := MatchingIsSlice(s[..n], w);
      assert s[..n][a..b] == s[a..b];
      a, b := SliceStep(s, w, a, b);
    }
  }

  lemma SnapshotDescends(s: Snapshot)
    requires ValidSnapshot(s)
    ensures Descending(s)
  {
  }

  lemma MatchingIsValid(s: Snapshot, w: Window)
    requires ValidSnapshot(s)
    ensures ValidSnapshot(Matching(s, w))
  {
    SnapshotDescends(s);
    var a, b := MatchingIsSlice(s, w);
    SliceIsValid(s, a, b);
  }

  lemma SliceIsValid(s: Snapshot, a: nat, b: nat)
    requires ValidSnapshot(s) && a <= b <= |s|
    ensures ValidSnapshot(s[a..b])
  {
    assert forall i :: 0 <= i < b - a ==> s[a..b][i] == s[a + i];
  }

  // ----- Pages -----

  /** How many entries of `s` are not after `(ts, shardDoc)`. */
  function Skip(s: Snapshot, ts: int, shardDoc: int): (k: nat)
    ensures k <= |s|
    ensures forall i :: 0 <= i < k ==> !Below(s[i], ts, shardDoc)
    ensures k < |s| ==> Below(s[k], ts, shardDoc)
  {
    if s == [] || Below(s[0], ts, shardDoc) then 0 else 1 + Skip(s[1..], ts, shardDoc)
  }

  function Rest(s: Snapshot, after: Option<seq<Value>>): Snapshot
    requires after.Some? ==> IsSort(after.value)
  {
    if after.None? then s else s[Skip(s, after.value[0].n, after.value[1].n)..]
  }

  function PageOf(s: Snapshot, after: Option<seq<Value>>, size: nat): Snapshot
    requires after.Some? ==> IsSort(after.value)
  {
    Rest(s, after)[..Min(size, |Rest(s, after)|)]
  }

  /** `page` is the slice of `s` from `k` on: what precedes it is not after `after`, the rest is. */
  ghost predicate IsSlice(s: Snapshot, after: Option<seq<Value>>, k: nat, page: seq<Entry>) {
    && k + |page| <= |s| && page == s[k..k + |page|] && (after.Some? ==> IsSort(after.value))
    && (forall i :: 0 <= i < |s| ==> (IsAfter(s[i], after) <==> k <= i))
  }

  lemma PageIsSlice(s: Snapshot, after: Option<seq<Value>>, size: nat) returns (k: nat)
    requires ValidSnapshot(s) && (after.Some? ==> IsSort(after.value))
    ensures var page := PageOf(s, after, size);
            IsSlice(s, after, k, page) && (|page| == size || k + |page| == |s|)
    ensures |Rest(s, after)| == |s| - k
  {
    k := if after.None? then 0 else Skip(s, after.value[0].n, after.value[1].n);
    forall i | k < i < |s|
      ensures IsAfter(s[i], after)
    {
      assert Newer(s[k], s[i]);
    }
  }

  /**
   * `page` is the slice of `s` from `k` on: before it is what is not behind
   * `after` or newer than the window; a page that is not full ends the window.
   */
  ghost predicate PageSlice(s: Snapshot, w: Window, after: Option<seq<Value>>, size: nat, k: nat, page: seq<Entry>)
    requires after.Some? ==> IsSort(after.value)
  {
    && |page| <= size && k + |page| <= |s| && page == s[k..k + |page|]
    && (forall i :: 0 <= i < k ==> !IsAfter(s[i], after) || s[i].doc.ts > w.to)
    && (forall i :: k <= i < k + |page| ==> IsAfter(s[i], after) && Inside(s[i].doc, w))
    && (|page| < size ==> forall i :: k + |page| <= i < |s| ==> s[i].doc.ts < w.from)
  }

  lemma PageOfWindow(s: Snapshot, w: Window, after: Option<seq<Value>>, size: nat) returns (a: nat, b: nat, j: nat)
    requires ValidSnapshot(s) && (after.Some? ==> IsSort(after.value))
    ensures WindowSlice(s, w, a, b)
    ensures var page := PageOf(Matching(s, w), after, size);
            |page| <= size && IsSlice(s[a..b], after, j, page) && (|page| == size || j + |page| == b - a)
  {
    SnapshotDescends(s);
    a, b := MatchingIsSlice(s, w);
    MatchingIsValid(s, w);
    j := PageIsSlice(Matching(s, w), after, size);
  }

  /** A page in a window is a slice of the whole PIT. */
  lemma PageInWindow(s: Snapshot, w: Window, after: Option<seq<Value>>, size: nat) returns (k: nat)
    requires ValidSnapshot(s) && (after.Some? ==> IsSort(after.value))
    ensures PageSlice(s, w, after, size, k, PageOf(Matching(s, w), after, size))
  {
    var a, b, j := PageOfWindow(s, w, after, size);
    k := a + j;
    SliceOfSlice(s, w, a, b, after, j, PageOf(Matching(s, w), after, size), size);
  }

  /** A slice of the window is a slice of the whole. */
  lemma SliceOfSlice(s: Snapshot, w: Window, a: nat, b: nat, after: Option<seq<Value>>, j: nat, page: seq<Entry>, size: nat)
    requires WindowSlice(s, w, a, b) && (after.Some? ==> IsSort(after.value))
    requires IsSlice(s[a..b], after, j, page) && (|page| == size || j + |page| == b - a) && |page| <= size
    ensures PageSlice(s, w, after, size, a + j, page)
  {
    var m := s[a..b];
    assert forall i :: a <= i < b ==> m[i - a] == s[i];
    assert page == m[j..j + |page|] == s[a + j..a + j + |page|];
  }

  /** A page ends at its last entry: what follows it there is behind it. */
  lemma BehindPage(s: Snapshot, k: nat, page: seq<Entry>)
    requires ValidSnapshot(s) && page != [] && k + |page| <= |s| && page == s[k..k + |page|]
    ensures forall i :: 0 <= i < |s| ==> (IsAfter(s[i], Some(SortOf(page[|page| - 1]))) <==> k + |page| <= i)
  {
    var last := k + |page| - 1;
    assert page[|page| - 1] == s[last];
    forall i | 0 <= i < |s|
      ensures IsAfter(s[i], Some(SortOf(s[last]))) <==> last < i
    {
      assert i < last ==> Newer(s[i], s[last]);
      assert last < i ==> Newer(s[last], s[i]);
    }
  }

  // ----- What a page reaches -----

  /** The next page starts behind `d`, or there is none. */
  ghost predicate Passes(s: Snapshot, page: seq<Entry>, after: Option<seq<Value>>, size: nat, e: Entry)
    requires after.Some? ==> IsSort(after.value)
  {
    IsAfter(e, after) && !(|page| == size > 0 && IsAfter(e, Some(SortOf(page[|page| - 1]))))
  }

  /** The page reaches `d`: it starts before `d`, and the next one behind it. */
  ghost predicate ReachedBy(d: Doc, s: Snapshot, page: seq<Entry>, after: Option<seq<Value>>, size: nat)
    requires after.Some? ==> IsSort(after.value)
  {
    exists e :: e in s && e.doc == d && Passes(s, page, after, size, e)
  }

  /** A page shows what it reaches inside its window, in order. */
  lemma PageShows(s: Snapshot, w: Window, after: Option<seq<Value>>, size: nat, e: Entry)
    requires ValidSnapshot(s) && size >= 1 && (after.Some? ==> IsSort(after.value))
    ensures var page := PageOf(Matching(s, w), after, size);
            e in page <==> e in s && Inside(e.doc, w) && Passes(s, page, after, size, e)
  {
    var page := PageOf(Matching(s, w), after, size);
    var k := PageInWindow(s, w, after, size);
    if page != [] {
      BehindPage(s, k, page);
    }
    if e in page {
      var i :| 0 <= i < |page| && page[i] == e;
      assert s[k + i] == e;
    }
    if e in s && Inside(e.doc, w) && Passes(s, page, after, size, e) {
      var i :| 0 <= i < |s| && s[i] == e;
      assert k <= i < k + |page|;
      assert page[i - k] == e;
    }
  }

  lemma PageIsOrdered(s: Snapshot, w: Window, after: Option<seq<Value>>, size: nat)
    requires ValidSnapshot(s) && (after.Some? ==> IsSort(after.value))
    ensures ValidSnapshot(PageOf(Matching(s, w), after, size))
  {
    var k := PageInWindow(s, w, after, size);
    SliceIsValid(s, k, k + |PageOf(Matching(s, w), after, size)|);
  }

  // ----- The server -----

  /** The PITs, and the window of the `n`-th request. */
  datatype Server = Server(pits: map<nat, Snapshot>, clock: nat -> Window)

  /** Time goes on: the bounds never go back. */
  ghost predicate Forward(clock: nat -> Window) {
    forall m: nat, n: nat :: m <= n ==> clock(m).from <= clock(n).from && clock(m).to <= clock(n).to
  }

  ghost predicate ValidServer(server: Server) {
    Forward(server.clock) && forall p :: p in server.pits ==> ValidSnapshot(server.pits[p])
  }

  /** The page that request `n` on PIT `pit` is answered with. */
  function PageAt(server: Server, n: nat, pit: nat, after: Option<seq<Value>>, size: nat): seq<Entry>
    requires pit in server.pits && (after.Some? ==> IsSort(after.value))
  {
    PageOf(Matching(server.pits[pit], server.clock(n)), after, size)
  }

  /** A search on a PIT is answered from its documents inside the window of the request. */
  ghost predicate HonestExchange(x: Exchange, n: nat, server: Server) {
    && SamePit(x)
    && (x.request.OpenPit? && x.answer.Body? && x.answer.id.Some? ==> x.answer.id.value.pit in server.pits)
    && (Answered(x) ==>
          && x.request.id.pit in server.pits
          && (x.request.after.Some? ==> IsSort(x.request.after.value))
          && x.answer.hits == Some(Hits(PageAt(server, n, x.request.id.pit, x.request.after, x.request.size))))
  }

  /** A PIT opened after a search on another one holds all its documents. */
  ghost predicate NothingDeleted(log: seq<Exchange>, server: Server) {
    forall i, j :: 0 <= i < j < |log| ==> Keeps(log[i], log[j], server)
  }

  ghost predicate Keeps(x: Exchange, later: Exchange, server: Server) {
    (x.request.SearchPit? && x.request.id.pit in server.pits && later.request.OpenPit? && later.answer.Body?
     && later.answer.id.Some? && later.answer.id.value.pit in server.pits)
    ==> HoldsAll(server.pits[later.answer.id.value.pit], server.pits[x.request.id.pit])
  }

  ghost predicate Honest(log: seq<Exchange>, server: Server) {
    && ValidServer(server)
    && (forall n :: 0 <= n < |log| ==> HonestExchange(log[n], n, server))
    && NothingDeleted(log, server)
  }

  lemma {:induction false} HonestPrefix(log: seq<Exchange>, longer: seq<Exchange>, server: Server)
    requires log <= longer && Honest(longer, server)
    ensures Honest(log, server)
  {
    assert forall i :: 0 <= i < |log| ==> log[i] == longer[i];
  }

  /** The `n`-th exchange is a page that reaches `d`. */
  ghost predicate Reaches(x: Exchange, n: nat, d: Doc, server: Server) {
    && Answered(x) && x.request.id.pit in server.pits && (x.request.after.Some? ==> IsSort(x.request.after.value))
    && ReachedBy(d, server.pits[x.request.id.pit],
                 PageAt(server, n, x.request.id.pit, x.request.after, x.request.size), x.request.after, x.request.size)
  }

  /** Some page from exchange `start` on reaches `d`. */
  ghost predicate Reached(log: seq<Exchange>, start: nat, d: Doc, server: Server) {
    exists n :: start <= n < |log| && Reaches(log[n], n, d, server)
  }

  /** Some page from exchange `start` on reaches `d` while `d` is inside its window. */
  ghost predicate ReachedInside(log: seq<Exchange>, start: nat, d: Doc, server: Server) {
    exists n :: start <= n < |log| && Reaches(log[n], n, d, server) && Inside(d, server.clock(n))
  }

  // ----- One search -----

  /** The cursor a page leaves on PIT `pit`. */
  predicate CursorAfter(next: Option<Cursor>, pit: nat, page: seq<Entry>, size: nat) {
    if |page| < size || page == [] then next.None? else
    next.Some? && next.value.pitId.Some? && next.value.pitId.value.pit == pit && next.value.sort == SortOf(page[|page| - 1])
  }

  /** Exchange `n` of the log is the search on `pit`, and no other from `start` on is an answered search. */
  ghost predicate OnlyPage(log: seq<Exchange>, start: nat, n: nat, pit: nat, after: Option<seq<Value>>, size: nat) {
    && start <= n < |log| && Answered(log[n])
    && log[n].request.id.pit == pit && log[n].request.after == after && log[n].request.size == size
    && (forall i :: start <= i < |log| && i != n ==> !Answered(log[i]))
  }

  ghost predicate NoPage(log: seq<Exchange>, start: nat) { forall i :: start <= i < |log| ==> !Answered(log[i]) }

  lemma PitPageHonest(c: Client, after: Option<seq<Value>>, pit: PitId, size: nat, server: Server)
    requires size >= 1 && HonestExchange(Exchange(SearchPit(pit, after, size), NextAnswer(c)), |c.log|, server)
    ensures SearchPitFn(c, after, pit, size).result.Ok? <==> NextAnswer(c).Body?
    ensures SearchPitFn(c, after, pit, size).result.Ok? ==>
              && pit.pit in server.pits && (after.Some? ==> IsSort(after.value))
              && var page := PageAt(server, |c.log|, pit.pit, after, size);
                 var result := SearchPitFn(c, after, pit, size).result.value.0;
                 result.lines == Hits(page) && CursorAfter(result.next, pit.pit, page, size)
  {
  }

  /** A settled page is the only answered search from its request on, if it was answered. */
  lemma SettledPage(c: Client, after: Option<seq<Value>>, pit: PitId, size: nat, mine: Option<PitId>)
    requires size >= 1
    ensures var s := SearchPitFn(c, after, pit, size);
            var t := SettleFn(s, mine);
            && |t.client.log| > |c.log|
            && t.client.log[|c.log|] == Exchange(SearchPit(pit, after, size), NextAnswer(c))
            && NoPage(t.client.log, |c.log| + 1)
            && t.client.log[..|c.log|] == c.log
            && (t.result.Ok? <==> s.result.Ok?) && (t.result.Ok? ==> t.result.value == s.result.value.0)
  {
    SearchPitEffect(c, after, pit, size);
    SettleEffect(SearchPitFn(c, after, pit, size), mine);
    var s, t := SearchPitFn(c, after, pit, size), SettleFn(SearchPitFn(c, after, pit, size), mine);
    forall i | |c.log| + 1 <= i < |t.client.log|
      ensures !Answered(t.client.log[i])
    {
      assert t.client.log[i] in t.client.log[|s.client.log|..];
    }
  }

  /** The page after a live PIT's cursor. */
  lemma {:induction false} AlivePage(c: Client, cursor: Cursor, size: nat, server: Server)
    requires size >= 1 && cursor.pitId.Some? && NextAnswer(c) != Status(404)
    requires Honest(SearchFn(c, Some(cursor), size).client.log, server)
    ensures var t := SearchFn(c, Some(cursor), size);
            && c.log <= t.client.log
            && (if t.result.Err? then NoPage(t.client.log, |c.log|) else
                  var pit := cursor.pitId.value.pit;
                  && OnlyPage(t.client.log, |c.log|, |c.log|, pit, Some(cursor.sort), size)
                  && pit in server.pits && IsSort(cursor.sort)
                  && var page := PageAt(server, |c.log|, pit, Some(cursor.sort), size);
                     t.result.value.lines == Hits(page) && CursorAfter(t.result.value.next, pit, page, size))
  {
    SettledPage(c, Some(cursor.sort), cursor.pitId.value, size, None);
    var t := SearchFn(c, Some(cursor), size);
    assert t == SettleFn(SearchPitFn(c, Some(cursor.sort), cursor.pitId.value, size), None);
    assert HonestExchange(t.client.log[|c.log|], |c.log|, server);
    PitPageHonest(c, Some(cursor.sort), cursor.pitId.value, size, server);
  }

  /** Without a new PIT an expired one ends the search. */
  lemma {:induction false} NoNewPit(c: Client, cursor: Cursor, size: nat)
    requires size >= 1 && cursor.pitId.Some? && NextAnswer(c) == Status(404)
    requires var o := OpenPitFn(SearchPitFn(c, Some(cursor.sort), cursor.pitId.value, size).client); o.result.Err? || o.result.value.None?
    ensures var t := SearchFn(c, Some(cursor), size);
            t.result.Err? && c.log <= t.client.log && NoPage(t.client.log, |c.log|)
  {
    var s := SearchPitFn(c, Some(cursor.sort), cursor.pitId.value, size);
    SearchPitEffect(c, Some(cursor.sort), cursor.pitId.value, size);
    OpenPitEffect(s.client);
  }

  /** What an expired PIT's search is when a new PIT is opened. */
  lemma {:induction false} ResumedLog(c: Client, cursor: Cursor, size: nat) returns (o: Client, renewed: PitId)
    requires size >= 1 && cursor.pitId.Some? && NextAnswer(c) == Status(404)
    requires var o := OpenPitFn(SearchPitFn(c, Some(cursor.sort), cursor.pitId.value, size).client); o.result.Ok? && o.result.value.Some?
    ensures var after := Some(ResumeSort(cursor.sort));
            var t := SearchFn(c, Some(cursor), size);
            && t == SettleFn(SearchPitFn(o, after, renewed, size), Some(renewed))
            && |o.log| == |c.log| + 2 && c.log <= o.log
            && o.log[|c.log|].request == SearchPit(cursor.pitId.value, Some(cursor.sort), size) && !o.log[|c.log|].answer.Body?
            && o.log[|c.log| + 1].request.OpenPit? && o.log[|c.log| + 1].answer.Body? && o.log[|c.log| + 1].answer.id == Some(renewed)
  {
    var s := SearchPitFn(c, Some(cursor.sort), cursor.pitId.value, size);
    SearchPitEffect(c, Some(cursor.sort), cursor.pitId.value, size);
    OpenPitEffect(s.client);
    o, renewed := OpenPitFn(s.client).client, OpenPitFn(s.client).result.value.value;
  }

  /** What the log of a resumed search says of an honest server. */
  lemma {:induction false} ResumedIsHonest(log: seq<Exchange>, c: Client, o: Client, gone: PitId, sort: seq<Value>, size: nat, renewed: PitId, server: Server)
    requires Honest(log, server) && |o.log| == |c.log| + 2 && |log| > |o.log| && log[..|o.log|] == o.log && gone.pit in server.pits
    requires o.log[|c.log|].request == SearchPit(gone, Some(sort), size)
    requires o.log[|c.log| + 1].request.OpenPit? && o.log[|c.log| + 1].answer.Body? && o.log[|c.log| + 1].answer.id == Some(renewed)
    ensures renewed.pit in server.pits && HoldsAll(server.pits[renewed.pit], server.pits[gone.pit])
    ensures HonestExchange(log[|o.log|], |o.log|, server)
  {
    var n := |c.log|;
    assert log[n] == log[..|o.log|][n] && log[n + 1] == log[..|o.log|][n + 1];
    assert HonestExchange(log[n + 1], n + 1, server);
    assert Keeps(log[n], log[n + 1], server);
  }

  /** The page after an expired PIT's cursor: on a new PIT that holds all of the old one. */
  lemma {:induction false} ResumedPage(c: Client, cursor: Cursor, size: nat, server: Server) returns (pit: nat)
    requires size >= 1 && cursor.pitId.Some? && NextAnswer(c) == Status(404) && cursor.pitId.value.pit in server.pits
    requires var o := OpenPitFn(SearchPitFn(c, Some(cursor.sort), cursor.pitId.value, size).client); o.result.Ok? && o.result.value.Some?
    requires Honest(SearchFn(c, Some(cursor), size).client.log, server)
    ensures var t, after := SearchFn(c, Some(cursor), size), ResumeSort(cursor.sort);
            && c.log <= t.client.log
            && (if t.result.Err? then NoPage(t.client.log, |c.log|) else
                  && OnlyPage(t.client.log, |c.log|, |c.log| + 2, pit, Some(after), size)
                  && pit in server.pits && IsSort(after) && HoldsAll(server.pits[pit], server.pits[cursor.pitId.value.pit])
                  && var page := PageAt(server, |c.log| + 2, pit, Some(after), size);
                     t.result.value.lines == Hits(page) && CursorAfter(t.result.value.next, pit, page, size))
  {
    var after := Some(ResumeSort(cursor.sort));
    var o, renewed := ResumedLog(c, cursor, size);
    pit := renewed.pit;
    SettledPage(o, after, renewed, size, Some(renewed));
    var t := SearchFn(c, Some(cursor), size);
    ResumedIsHonest(t.client.log, c, o, cursor.pitId.value, cursor.sort, size, renewed, server);
    PitPageHonest(o, after, renewed, size, server);
    ResumedPages(t.client.log, c.log, o.log);
  }

  /** The searches before the page on the new PIT were not answered. */
  lemma ResumedPages(log: seq<Exchange>, earlier: seq<Exchange>, start: seq<Exchange>)
    requires |start| == |earlier| + 2 && earlier <= start && |log| > |start| && log[..|start|] == start
    requires !Answered(start[|earlier|]) && !Answered(start[|earlier| + 1]) && NoPage(log, |start| + 1)
    ensures earlier <= log && forall i :: |earlier| <= i < |log| && i != |start| ==> !Answered(log[i])
  {
    assert forall i :: 0 <= i < |start| ==> log[i] == log[..|start|][i];
  }

  /** The PIT of a search after a cursor, and where it starts: resumed at the boundary when the old PIT is gone. */
  ghost predicate Continues(c: Client, cursor: Cursor, pit: nat, after: seq<Value>, server: Server)
    requires cursor.pitId.Some? && cursor.pitId.value.pit in server.pits
  {
    && pit in server.pits && IsSort(after)
    && (if NextAnswer(c) == Status(404) then after == ResumeSort(cursor.sort) && HoldsAll(server.pits[pit], server.pits[cursor.pitId.value.pit])
        else pit == cursor.pitId.value.pit && after == cursor.sort)
  }

  /**
   * A served page after a PIT cursor comes from the cursor's PIT after the
   * cursor, or (only when the PIT is gone) from a PIT that holds every document
   * of the cursor's, from the boundary timestamp on.
   */
  lemma {:induction false} OlderPageHonest(c: Client, cursor: Cursor, size: nat, server: Server) returns (n: nat, pit: nat, after: seq<Value>)
    requires size >= 1 && cursor.pitId.Some? && cursor.pitId.value.pit in server.pits && IsSort(cursor.sort)
    requires Honest(SearchFn(c, Some(cursor), size).client.log, server)
    requires SearchFn(c, Some(cursor), size).result.Ok?
    ensures c.log <= SearchFn(c, Some(cursor), size).client.log
    ensures Continues(c, cursor, pit, after, server)
    ensures OnlyPage(SearchFn(c, Some(cursor), size).client.log, |c.log|, n, pit, Some(after), size)
    ensures var page := PageAt(server, n, pit, Some(after), size);
            var result := SearchFn(c, Some(cursor), size).result.value;
            result.lines == Hits(page) && CursorAfter(result.next, pit, page, size)
  {
    if NextAnswer(c) != Status(404) {
      AlivePage(c, cursor, size, server);
      n, pit, after := |c.log|, cursor.pitId.value.pit, cursor.sort;
    } else {
      var o := OpenPitFn(SearchPitFn(c, Some(cursor.sort), cursor.pitId.value, size).client);
      if o.result.Err? || o.result.value.None? {
        NoNewPit(c, cursor, size);
      }
      pit := ResumedPage(c, cursor, size, server);
      n, after := |c.log| + 2, ResumeSort(cursor.sort);
    }
  }

  /** A failed search after a PIT cursor shows nothing. */
  lemma {:induction false} FailedPage(c: Client, cursor: Cursor, size: nat, server: Server)
    requires size >= 1 && cursor.pitId.Some? && cursor.pitId.value.pit in server.pits
    requires Honest(SearchFn(c, Some(cursor), size).client.log, server)
    requires SearchFn(c, Some(cursor), size).result.Err?
    ensures c.log <= SearchFn(c, Some(cursor), size).client.log
    ensures NoPage(SearchFn(c, Some(cursor), size).client.log, |c.log|)
  {
    if NextAnswer(c) != Status(404) {
      AlivePage(c, cursor, size, server);
    } else {
      var o := OpenPitFn(SearchPitFn(c, Some(cursor.sort), cursor.pitId.value, size).client);
      if o.result.Err? || o.result.value.None? {
        NoNewPit(c, cursor, size);
      } else {
        var pit := ResumedPage(c, cursor, size, server);
      }
    }
  }
}
