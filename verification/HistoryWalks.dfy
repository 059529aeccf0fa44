module HistoryWalks {
  // Walks through the history on one PIT: exactly its documents, in its order, as
  // far as the moving window lets them through; how long a walk is; and a document
  // that ages out of the window before its page.

  import opened Prelude
  import opened HistoryTransport
  import opened HistoryCommands
  import opened HistorySession
  import opened HistoryServer
  import opened HistoryPaging

  // ----- Slices of a snapshot -----

  lemma {:induction false} NewAll(es: seq<Entry>, keys: set<string>)
    requires forall e :: e in es ==> DocKey(e.doc) !in keys
    ensures New(es, keys) == es
  {
    if es != [] {
      NewAll(es[1..], keys);
      assert es == [es[0]] + es[1..];
    }
  }

  /** Nothing of a later slice is among the keys of an earlier one. */
  lemma SliceIsNew(s: Snapshot, k: nat, m: nat)
    requires Ordered(s) && k <= m <= |s|
    ensures New(s[k..m], Keys(s[..k])) == s[k..m]
  {
    var page := s[k..m];
    forall e | e in page
      ensures DocKey(e.doc) !in Keys(s[..k])
    {
      var i :| 0 <= i < |page| && page[i] == e;
      assert s[k + i] == e;
      forall x | x in s[..k]
        ensures DocKey(x.doc) != DocKey(e.doc)
      {
        var j :| 0 <= j < k && s[j] == x;
      }
    }
    NewAll(page, Keys(s[..k]));
  }

  lemma KeysJoin(a: seq<Entry>, b: seq<Entry>)
    ensures Keys(a) + Keys(b) == Keys(a + b)
  {
  }

  lemma SlicesJoin(s: Snapshot, k: nat, m: nat, room: nat)
    requires k <= m <= |s|
    ensures s[k..m][..Min(m - k, room)] == s[k..Min(m, k + room)]
    ensures s[..k] + s[k..Min(m, k + room)] == s[..Min(m, k + room)]
  {
  }

  /** What is shown of the slice from `k` to `m` after the entries before `k`. */
  lemma {:induction false} KeptSlice(s: Snapshot, k: nat, m: nat)
    requires Ordered(s) && k <= m <= |s| && k <= HISTORY_CAP
    ensures Kept(s[..k], s[k..m]) == s[k..Min(m, HISTORY_CAP)]
    ensures |New(s[k..m], Keys(s[..k]))| == m - k
    ensures s[..k] + s[k..Min(m, HISTORY_CAP)] == s[..Min(m, HISTORY_CAP)]
  {
    SliceIsNew(s, k, m);
    SlicesJoin(s, k, m, HISTORY_CAP - k);
  }

  // ----- Without expiry: the documents in order -----

  /** The entries not newer than `to`: what a walk that began then is about. */
  function Until(s: Snapshot, to: int): Snapshot {
    if s == [] || s[0].doc.ts <= to then s else Until(s[1..], to)
  }

  lemma {:induction false} UntilIs(s: Snapshot, to: int) returns (top: nat)
    requires Descending(s)
    ensures top <= |s| && Until(s, to) == s[top..]
    ensures forall i :: 0 <= i < top ==> s[i].doc.ts > to
    ensures forall i :: top <= i < |s| ==> s[i].doc.ts <= to
  {
    top := 0;
    if s != [] && s[0].doc.ts > to {
      var t := UntilIs(s[1..], to);
      top := t + 1;
      assert s[1..][t..] == s[top..];
      assert forall i :: 0 < i < |s| ==> s[i] == s[1..][i - 1];
    }
  }

  /** From entry `k` on all are older than the window. */
  predicate Past(base: Snapshot, k: nat, w: Window) { forall i :: k <= i < |base| ==> base[i].doc.ts < w.from }

  ghost predicate IsEnd(base: Snapshot, s: Snapshot) { |base| <= |s| && base == s[|s| - |base|..] }

  /**
   * The lines are the first `k` entries of `base`, the cursor stands behind them;
   * without a cursor the rest is past the window of some request, or the cap is met.
   */
  ghost predicate ShowsPrefix(s: Session, src: Source, p: nat, base: Snapshot, k: nat, server: Server) {
    && p in server.pits && IsEnd(base, server.pits[p]) && k <= |base| && k <= HISTORY_CAP
    && s.lines == Hits(base[..k]) && s.seen == Keys(base[..k])
    && (forall i :: 0 <= i < |base| ==> base[i].doc.ts <= server.clock(|Log(s.backend, src)|).to)
    && (forall i :: 0 <= i < k ==> base[i].doc.ts >= server.clock(0).from)
    && (if s.next.None? then k == HISTORY_CAP || Ended(base, k, Log(s.backend, src), server) else
          k >= 1 && PitCursor(s.next.value, server) && s.next.value.pitId.value.pit == p && s.next.value.sort == SortOf(base[k - 1]))
  }

  ghost predicate Ended(base: Snapshot, k: nat, log: seq<Exchange>, server: Server) {
    exists n :: 0 <= n < |log| && Past(base, k, server.clock(n))
  }

  lemma EndIsValid(base: Snapshot, s: Snapshot)
    requires ValidSnapshot(s) && IsEnd(base, s)
    ensures ValidSnapshot(base)
  {
    SliceIsValid(s, |s| - |base|, |s|);
    assert s[|s| - |base|..|s|] == base;
  }

  /** The page on the whole PIT starts where the entries behind `after` and inside the window begin. */
  lemma PageStartsAt(s: Snapshot, base: Snapshot, k: nat, w: Window, after: Option<seq<Value>>, size: nat, j: nat, page: seq<Entry>) returns (m: nat)
    requires IsEnd(base, s) && k <= |base| && size >= 1 && (after.Some? ==> IsSort(after.value))
    requires PageSlice(s, w, after, size, j, page)
    requires forall i :: 0 <= i < |base| ==> base[i].doc.ts <= w.to
    requires forall i :: 0 <= i < |s| ==> (i >= |s| - |base| + k <==> IsAfter(s[i], after) && s[i].doc.ts <= w.to)
    ensures k <= m <= |base| && m - k == |page| && page == base[k..m]
    ensures forall i :: k <= i < m ==> Inside(base[i].doc, w)
    ensures |page| < size ==> Past(base, m, w)
  {
    var q := |s| - |base| + k;
    assert q < |s| ==> IsAfter(s[q], after) && s[q].doc.ts <= w.to;
    assert page != [] ==> IsAfter(s[j], after) && s[j].doc.ts <= w.to;
    m := k + |page|;
    assert forall i :: 0 <= i < |base| ==> base[i] == s[|s| - |base| + i];
    if page != [] {
      assert page == s[q..q + |page|] == base[k..m];
    }
  }

  lemma FirstSlice(s: Snapshot, w: Window, size: nat) returns (m: nat)
    requires ValidSnapshot(s) && size >= 1
    ensures var base, page := Until(s, w.to), PageOf(Matching(s, w), None, size);
            && IsEnd(base, s) && m <= |base| && page == base[..m] && |page| == m
            && (forall i :: 0 <= i < |base| ==> base[i].doc.ts <= w.to)
            && (forall i :: 0 <= i < m ==> Inside(base[i].doc, w))
            && (m < size ==> Past(base, m, w))
  {
    SnapshotDescends(s);
    var top := UntilIs(s, w.to);
    var j := PageInWindow(s, w, None, size);
    m := PageStartsAt(s, s[top..], 0, w, None, size, j, PageOf(Matching(s, w), None, size));
  }

  lemma NextSlice(s: Snapshot, base: Snapshot, k: nat, w: Window, size: nat) returns (m: nat)
    requires ValidSnapshot(s) && IsEnd(base, s) && 1 <= k <= |base| && size >= 1
    requires forall i :: 0 <= i < |base| ==> base[i].doc.ts <= w.to
    ensures var page := PageOf(Matching(s, w), Some(SortOf(base[k - 1])), size);
            && k <= m <= |base| && m - k == |page| && page == base[k..m]
            && (forall i :: k <= i < m ==> Inside(base[i].doc, w))
            && (|page| < size ==> Past(base, m, w))
  {
    var after := Some(SortOf(base[k - 1]));
    var q := |s| - |base| + k;
    BehindPage(s, q - 1, [s[q - 1]]);
    assert base[k - 1] == s[q - 1];
    assert forall i :: q <= i < |s| ==> s[i] == base[i - (|s| - |base|)];
    var j := PageInWindow(s, w, after, size);
    m := PageStartsAt(s, base, k, w, after, size, j, PageOf(Matching(s, w), after, size));
  }

  lemma PrefixShowsLines(s: Session, src: Source, p: nat, base: Snapshot, k: nat, server: Server)
    requires ValidServer(server) && ShowsPrefix(s, src, p, base, k, server)
    ensures ShowsLines(s, base[..k], server)
  {
    EndIsValid(base, server.pits[p]);
    SnapshotOrdered(base);
    forall e | e in base[..k]
      ensures FromServer(e, server)
    {
      assert e in base && e in server.pits[p];
    }
  }

  /** An older page while the PIT lives: the next entries inside the window, up to the cap. */
  lemma LoadOlderExact(s: Session, src: Source, p: nat, base: Snapshot, k: nat, up: bool, size: nat, server: Server) returns (k': nat)
    requires size >= 1 && ShowsPrefix(s, src, p, base, k, server) && CanLoadOlder(s)
    requires NextAnswer(Talking(s.backend, src)) != Status(404) && Honest(Log(LoadOlderFn(s, Some(src), up, size).backend, src), server)
    requires FetchFn(s.backend, src, up, s.next, size).1.Ok?
    ensures k <= k' && ShowsPrefix(LoadOlderFn(s, Some(src), up, size), src, p, base, k', server)
    ensures k' > k || LoadOlderFn(s, Some(src), up, size).next.None?
  {
    var t := LoadOlderFn(s, Some(src), up, size);
    PrefixShowsLines(s, src, p, base, k, server);
    var n, pit, after := OlderPage(s, src, base[..k], up, size, server);
    var w := server.clock(n);
    assert forall i :: 0 <= i < |base| ==> base[i].doc.ts <= w.to;
    var m := NextSlice(server.pits[p], base, k, w, size);
    k' := Min(m, HISTORY_CAP);
    EndIsValid(base, server.pits[p]);
    SnapshotOrdered(base);
    KeptSlice(base, k, m);
    KeysJoin(base[..k], base[k..k']);
    PrefixStep(t, src, p, base, k, m, n, size, server);
  }

  lemma PrefixStep(t: Session, src: Source, p: nat, base: Snapshot, k: nat, m: nat, n: nat, size: nat, server: Server)
    requires p in server.pits && IsEnd(base, server.pits[p]) && size >= 1 && 1 <= k < HISTORY_CAP && k <= m <= |base|
    requires Forward(server.clock) && n < |Log(t.backend, src)|
    requires t.lines == Hits(base[..Min(m, HISTORY_CAP)]) && t.seen == Keys(base[..Min(m, HISTORY_CAP)])
    requires forall i :: 0 <= i < |base| ==> base[i].doc.ts <= server.clock(n).to
    requires forall i :: 0 <= i < k ==> base[i].doc.ts >= server.clock(0).from
    requires forall i :: k <= i < m ==> Inside(base[i].doc, server.clock(n))
    requires |base[k..m]| < size ==> Past(base, m, server.clock(n))
    requires if m > HISTORY_CAP then t.next.None? else CursorAfter(t.next, p, base[k..m], size)
    ensures ShowsPrefix(t, src, p, base, Min(m, HISTORY_CAP), server)
    ensures Min(m, HISTORY_CAP) > k || t.next.None?
  {
    if t.next.None? && m <= HISTORY_CAP {
      assert Ended(base, m, Log(t.backend, src), server);
    }
  }

  lemma {:induction false} FirstPrefix(s: Session, src: Source, up: bool, size: nat, server: Server) returns (k: nat)
    requires 1 <= size <= MAX_PAGE && FirstPit(s, src, up, size).Some? && Honest(Log(ReloadFn(s, Some(src), up, size).backend, src), server)
    ensures var first := FirstPit(s, src, up, size).value;
            first in server.pits
            && ShowsPrefix(ReloadFn(s, Some(src), up, size), src, first, Until(server.pits[first], server.clock(FirstSearch(s, src)).to), k, server)
  {
    FirstPageHonest(s, src, up, size, server);
    k := FirstPrefixOf(ReloadFn(s, Some(src), up, size), src, FirstPit(s, src, up, size).value, FirstSearch(s, src), size, server);
  }

  /** The session that shows a first page. */
  lemma FirstPrefixOf(t: Session, src: Source, p: nat, n: nat, size: nat, server: Server) returns (k: nat)
    requires 1 <= size <= MAX_PAGE && ValidServer(server) && p in server.pits && n < |Log(t.backend, src)|
    requires var page := PageAt(server, n, p, None, size);
             t.lines == Hits(page) && CursorAfter(t.next, p, page, size) && t.seen == Keys(page)
    ensures ShowsPrefix(t, src, p, Until(server.pits[p], server.clock(n).to), k, server)
  {
    var base, w := Until(server.pits[p], server.clock(n).to), server.clock(n);
    k := FirstSlice(server.pits[p], w, size);
    FirstBounds(t, src, base, k, n, size, server);
    assert base[..k] == PageAt(server, n, p, None, size);
  }

  lemma FirstBounds(t: Session, src: Source, base: Snapshot, k: nat, n: nat, size: nat, server: Server)
    requires Forward(server.clock) && n < |Log(t.backend, src)| && k <= |base|
    requires forall i :: 0 <= i < |base| ==> base[i].doc.ts <= server.clock(n).to
    requires forall i :: 0 <= i < k ==> Inside(base[i].doc, server.clock(n))
    requires k < size ==> Past(base, k, server.clock(n))
    ensures forall i :: 0 <= i < |base| ==> base[i].doc.ts <= server.clock(|Log(t.backend, src)|).to
    ensures forall i :: 0 <= i < k ==> base[i].doc.ts >= server.clock(0).from
    ensures k < size ==> Ended(base, k, Log(t.backend, src), server)
  {
  }

  // ----- Walks -----

  /** Whenever there is something to load, the page is served. */
  ghost predicate AllServed(s: Session, src: Source, ops: seq<Op>) {
    ops != [] ==>
      var before, op := ops[..|ops| - 1], ops[|ops| - 1];
      AllServed(s, src, before) && (Loads(Run(s, before), op) ==> Served(Run(s, before), src, op))
  }

  predicate Loads(s: Session, op: Op) { op.LoadOlder? && CanLoadOlder(s) }

  predicate Served(s: Session, src: Source, op: Op)
    requires op.LoadOlder?
  {
    op.source == Some(src) && FetchFn(s.backend, src, op.up, s.next, ClampSize(op.size)).1.Ok?
  }

  /** The page asked for is answered with a 404. */
  predicate Expires(s: Session, src: Source, op: Op) { Loads(s, op) && NextAnswer(Talking(s.backend, src)) == Status(404) }

  function Expiries(s: Session, src: Source, ops: seq<Op>): nat {
    if ops == [] then 0 else
    var before, op := ops[..|ops| - 1], ops[|ops| - 1];
    Expiries(s, src, before) + if Expires(Run(s, before), src, op) then 1 else 0
  }

  /** How many older pages are asked for. */
  function Pages(ops: seq<Op>): nat {
    if ops == [] then 0 else Pages(ops[..|ops| - 1]) + if ops[|ops| - 1].LoadOlder? then 1 else 0
  }

  /** What others do, and asking with nothing to load, changes nothing that is shown. */
  lemma OthersShowNothing(s: Session, src: Source, op: Op)
    requires IsOlder(op, src) && !Loads(s, op)
    ensures var t := Apply(s, op);
            && t.lines == s.lines && t.next == s.next && t.seen == s.seen
            && WireOf(t.backend, src) == WireOf(s.backend, src)
  {
  }

  /** The last step of a walk. */
  lemma {:induction false} LastPage(s: Session, src: Source, ops: seq<Op>, server: Server)
    requires ops != [] && AllOlder(ops, src) && AllServed(s, src, ops) && Honest(Log(Run(s, ops).backend, src), server)
    ensures var before, op := ops[..|ops| - 1], ops[|ops| - 1];
            var t := Run(s, before);
            && AllOlder(before, src) && AllServed(s, src, before) && Honest(Log(t.backend, src), server)
            && IsOlder(op, src) && Run(s, ops) == Apply(t, op)
            && (Loads(t, op) ==> Served(t, src, op))
  {
    var before, op := ops[..|ops| - 1], ops[|ops| - 1];
    assert op in ops;
    ApplyAppends(Run(s, before), op);
    HonestPrefix(Log(Run(s, before).backend, src), Log(Run(s, ops).backend, src), server);
  }

  /** One step of a walk without expiry. */
  lemma StepExact(s: Session, src: Source, p: nat, base: Snapshot, k: nat, op: Op, server: Server) returns (k': nat)
    requires IsOlder(op, src) && ShowsPrefix(s, src, p, base, k, server) && Honest(Log(Apply(s, op).backend, src), server)
    requires (Loads(s, op) ==> Served(s, src, op)) && !Expires(s, src, op)
    ensures k <= k' && ShowsPrefix(Apply(s, op), src, p, base, k', server)
    ensures op.LoadOlder? ==> k' > k || !CanLoadOlder(Apply(s, op))
    ensures CanLoadOlder(Apply(s, op)) ==> CanLoadOlder(s)
  {
    k' := k;
    if Loads(s, op) {
      k' := LoadOlderExact(s, src, p, base, k, op.up, ClampSize(op.size), server);
    } else {
      OthersShowNothing(s, src, op);
    }
  }

  lemma {:induction false} WalkExact(s: Session, src: Source, p: nat, base: Snapshot, k: nat, ops: seq<Op>, server: Server)
    returns (k': nat)
    requires AllOlder(ops, src) && ShowsPrefix(s, src, p, base, k, server) && Honest(Log(Run(s, ops).backend, src), server)
    requires AllServed(s, src, ops) && Expiries(s, src, ops) == 0
    ensures ShowsPrefix(Run(s, ops), src, p, base, k', server)
    ensures k' >= k + Pages(ops) || !CanLoadOlder(Run(s, ops))
  {
    k' := k;
    if ops != [] {
      LastPage(s, src, ops, server);
      k' := WalkExact(s, src, p, base, k, ops[..|ops| - 1], server);
      k' := StepExact(Run(s, ops[..|ops| - 1]), src, p, base, k', ops[|ops| - 1], server);
    }
  }

  /** What a walk from shown entries says at its end. */
  lemma {:induction false} WalkIsOver(s: Session, src: Source, p: nat, base: Snapshot, k: nat, ops: seq<Op>, server: Server)
    returns (k': nat)
    requires AllOlder(ops, src) && ShowsPrefix(s, src, p, base, k, server) && Honest(Log(Run(s, ops).backend, src), server)
    requires AllServed(s, src, ops) && Expiries(s, src, ops) == 0
    ensures var t := Run(s, ops);
            && ShowsPrefix(t, src, p, base, k', server)
            && (!CanLoadOlder(t) ==> k' == HISTORY_CAP || Ended(base, k', Log(t.backend, src), server))
            && (Pages(ops) > |base| ==> !CanLoadOlder(t))
  {
    k' := WalkExact(s, src, p, base, k, ops, server);
  }

  /**
   * Without expiry, passing `next` back until it is null (or the cap is reached)
   * shows the documents of the PIT that were not newer than the first request's
   * window, in the PIT's order and from the newest on, without a gap; the rest
   * had left the window of some request; and it takes at most one page per
   * document and one more.
   */
  lemma {:induction false} HistoryIsExact(s: Session, src: Source, up: bool, size: Option<nat>, ops: seq<Op>, server: Server) returns (k: nat)
    requires Began(s, src, up, ClampSize(size), ops, server)
    requires AllServed(ReloadFn(s, Some(src), up, ClampSize(size)), src, ops) && Expiries(ReloadFn(s, Some(src), up, ClampSize(size)), src, ops) == 0
    ensures var first, t := FirstPit(s, src, up, ClampSize(size)).value, Run(ReloadFn(s, Some(src), up, ClampSize(size)), ops);
            && first in server.pits
            && var base := Until(server.pits[first], server.clock(FirstSearch(s, src)).to);
            && ShowsPrefix(t, src, first, base, k, server)
            && (!CanLoadOlder(t) ==> k == HISTORY_CAP || Ended(base, k, Log(t.backend, src), server))
            && (Pages(ops) > |base| ==> !CanLoadOlder(t))
  {
    var first, start := FirstPit(s, src, up, ClampSize(size)).value, ReloadFn(s, Some(src), up, ClampSize(size));
    RunAppends(start, ops);
    HonestPrefix(Log(start.backend, src), Log(Run(start, ops).backend, src), server);
    k := FirstPrefix(s, src, up, ClampSize(size), server);
    k := WalkIsOver(start, src, first, Until(server.pits[first], server.clock(FirstSearch(s, src)).to), k, ops, server);
  }

  /** With absolute bounds the walk shows exactly what is inside them, in the PIT's order, up to the cap. */
  lemma {:induction false} AbsoluteWindowIsExact(s: Session, src: Source, up: bool, size: Option<nat>, ops: seq<Op>, server: Server, w: Window)
    requires Began(s, src, up, ClampSize(size), ops, server) && forall n :: server.clock(n) == w
    requires AllServed(ReloadFn(s, Some(src), up, ClampSize(size)), src, ops) && Expiries(ReloadFn(s, Some(src), up, ClampSize(size)), src, ops) == 0
    requires !CanLoadOlder(Run(ReloadFn(s, Some(src), up, ClampSize(size)), ops))
    ensures var first, t := FirstPit(s, src, up, ClampSize(size)).value, Run(ReloadFn(s, Some(src), up, ClampSize(size)), ops);
            && first in server.pits
            && var inside := Matching(server.pits[first], w);
               t.lines == Hits(inside)[..Min(|inside|, HISTORY_CAP)]
  {
    var k := HistoryIsExact(s, src, up, size, ops, server);
    AbsolutePrefix(Run(ReloadFn(s, Some(src), up, ClampSize(size)), ops), server.pits[FirstPit(s, src, up, ClampSize(size)).value], w, k);
  }

  /** The first `k` entries up to the window's end are all that is inside it, or as many as the cap allows. */
  lemma AbsolutePrefix(t: Session, s: Snapshot, w: Window, k: nat)
    requires ValidSnapshot(s) && k <= |Until(s, w.to)| && k <= HISTORY_CAP && t.lines == Hits(Until(s, w.to)[..k])
    requires forall i :: 0 <= i < k ==> Until(s, w.to)[i].doc.ts >= w.from
    requires k == HISTORY_CAP || Past(Until(s, w.to), k, w)
    ensures t.lines == Hits(Matching(s, w))[..Min(|Matching(s, w)|, HISTORY_CAP)]
  {
    SnapshotDescends(s);
    InsideIsPrefix(s, w, k);
    var inside := Matching(s, w);
    assert Hits(inside)[..k] == Hits(inside[..k]);
  }

  lemma WindowStart(s: Snapshot, w: Window, a: nat, b: nat, top: nat, k: nat)
    requires WindowSlice(s, w, a, b) && top + k <= |s|
    requires forall i :: 0 <= i < top ==> s[i].doc.ts > w.to
    requires forall i :: top <= i < |s| ==> s[i].doc.ts <= w.to
    requires forall i :: top <= i < top + k ==> s[i].doc.ts >= w.from
    ensures k > 0 ==> a == top && top + k <= b
    ensures (forall i :: top + k <= i < |s| ==> s[i].doc.ts < w.from) ==> k == b - a
  {
    if k > 0 {
      assert Inside(s[top].doc, w) && Inside(s[top + k - 1].doc, w);
      assert a < top ==> s[a].doc.ts > w.to;
    }
    if a < b {
      assert Inside(s[a].doc, w) && Inside(s[b - 1].doc, w);
    }
  }

  lemma {:induction false} InsideIsPrefix(s: Snapshot, w: Window, k: nat)
    requires Descending(s) && k <= |Until(s, w.to)| && k <= HISTORY_CAP
    requires forall i :: 0 <= i < k ==> Until(s, w.to)[i].doc.ts >= w.from
    requires k == HISTORY_CAP || Past(Until(s, w.to), k, w)
    ensures k == Min(|Matching(s, w)|, HISTORY_CAP) && Until(s, w.to)[..k] == Matching(s, w)[..k]
  {
    var top := UntilIs(s, w.to);
    var a, b := MatchingIsSlice(s, w);
    forall i | top <= i < |s|
      ensures s[i] == Until(s, w.to)[i - top]
    {
    }
    WindowStart(s, w, a, b, top, k);
    SamePrefix(s, top, a, b, k);
  }

  lemma SamePrefix(s: Snapshot, top: nat, a: nat, b: nat, k: nat)
    requires top + k <= |s| && a <= b <= |s| && (k > 0 ==> a == top && top + k <= b)
    ensures k <= b - a && s[top..][..k] == s[a..b][..k]
  {
  }

  // ----- Termination -----

  /** Entries still to come on the cursor's PIT. */
  ghost function Left(s: Session, server: Server): nat
    requires s.next.Some? && PitCursor(s.next.value, server)
  {
    |Rest(server.pits[s.next.value.pitId.value.pit], Some(s.next.value.sort))|
  }

  /** Behind a full page are fewer entries than behind its start. */
  lemma {:induction false} FullPageLeaves(s: Snapshot, w: Window, after: seq<Value>, size: nat, page: Snapshot)
    requires ValidSnapshot(s) && IsSort(after) && page == PageOf(Matching(s, w), Some(after), size) && |page| == size >= 1
    ensures |Rest(s, Some(SortOf(page[size - 1])))| + size <= |Rest(s, Some(after))|
  {
    var k := PageInWindow(s, w, Some(after), size);
    BehindPage(s, k, page);
    var a := PageIsSlice(s, Some(after), size);
    var b := PageIsSlice(s, Some(SortOf(page[size - 1])), size);
    assert IsAfter(s[k], Some(after));
    assert k + size < |s| ==> IsAfter(s[k + size], Some(SortOf(page[size - 1])));
  }

  /** The pair (expiries left, entries left) shrinks with every page that is served and not the last. */
  lemma OlderPageProgress(s: Session, src: Source, es: seq<Entry>, up: bool, size: nat, server: Server)
    requires size >= 1 && ShowsLines(s, es, server) && CanLoadOlder(s)
    requires Honest(Log(LoadOlderFn(s, Some(src), up, size).backend, src), server)
    requires FetchFn(s.backend, src, up, s.next, size).1.Ok?
    ensures var t := LoadOlderFn(s, Some(src), up, size);
            t.next.Some? ==>
              && PitCursor(t.next.value, server)
              && (NextAnswer(Talking(s.backend, src)) != Status(404) ==> Left(t, server) + size <= Left(s, server))
  {
    var n, pit, after := OlderPage(s, src, es, up, size, server);
    if LoadOlderFn(s, Some(src), up, size).next.Some? {
      CursorLeaves(LoadOlderFn(s, Some(src), up, size), n, pit, after, size, server);
    }
  }

  lemma PageFits(s: Snapshot, after: Option<seq<Value>>, size: nat)
    requires after.Some? ==> IsSort(after.value)
    ensures |PageOf(s, after, size)| <= size
  {
  }

  /** A page that leaves a cursor is full. */
  lemma CursorLeaves(t: Session, n: nat, pit: nat, after: seq<Value>, size: nat, server: Server)
    requires size >= 1 && ValidServer(server) && pit in server.pits && IsSort(after) && t.next.Some?
    requires CursorAfter(t.next, pit, PageAt(server, n, pit, Some(after), size), size)
    ensures PitCursor(t.next.value, server) && Left(t, server) + size <= |Rest(server.pits[pit], Some(after))|
  {
    var page := PageAt(server, n, pit, Some(after), size);
    PageFits(Matching(server.pits[pit], server.clock(n)), Some(after), size);
    FullPageLeaves(server.pits[pit], server.clock(n), after, size, page);
  }

  /** Served pages that may leave something to load, with `e` expiries and at most `n` documents per PIT. */
  function Budget(e: nat, n: nat): nat {
    if e == 0 then n + 1 else Budget(e - 1, n) + n + 1
  }

  /** Something is left to load only within the budget of `e` expiries, after `m` pages. */
  ghost predicate InBudget(s: Session, server: Server, n: nat, m: nat, e: nat) {
    CanLoadOlder(s) ==> s.next.Some? && PitCursor(s.next.value, server) && m + Left(s, server) <= Budget(e, n)
  }

  lemma Spend(left: nat, left': nat, size: nat, expired: bool, n: nat, m: nat, e: nat)
    requires left' <= n && size >= 1 && (!expired ==> left' + size <= left) && m + left <= Budget(e, n)
    ensures m + 1 + left' <= Budget(e + if expired then 1 else 0, n)
  {
  }

  ghost predicate AtMost(server: Server, n: nat) { forall p :: p in server.pits ==> |server.pits[p]| <= n }

  lemma {:induction false} LeftIsBounded(s: Session, server: Server, n: nat)
    requires s.next.Some? && PitCursor(s.next.value, server) && ValidServer(server) && AtMost(server, n)
    ensures Left(s, server) <= n
  {
    var snap := server.pits[s.next.value.pitId.value.pit];
    var k := PageIsSlice(snap, Some(s.next.value.sort), 1);
  }

  /** One served page spends at least one of the budget. */
  lemma PageSpends(s: Session, src: Source, es: seq<Entry>, op: Op, server: Server, n: nat, m: nat, e: nat)
    requires ShowsLines(s, es, server) && Honest(Log(Apply(s, op).backend, src), server)
    requires Loads(s, op) && Served(s, src, op) && AtMost(server, n) && InBudget(s, server, n, m, e)
    ensures InBudget(Apply(s, op), server, n, m + 1, e + if Expires(s, src, op) then 1 else 0)
  {
    OlderPageProgress(s, src, es, op.up, ClampSize(op.size), server);
    var t := Apply(s, op);
    if t.next.Some? {
      LeftIsBounded(t, server, n);
      Spend(Left(s, server), Left(t, server), ClampSize(op.size), Expires(s, src, op), n, m, e);
    }
  }

  lemma StepSpends(s: Session, src: Source, es: seq<Entry>, op: Op, t: Session, server: Server, n: nat, m: nat, m': nat, e: nat, e': nat)
    requires t == Apply(s, op) && ShowsLines(s, es, server) && Honest(Log(t.backend, src), server)
    requires IsOlder(op, src) && (Loads(s, op) ==> Served(s, src, op)) && AtMost(server, n) && InBudget(s, server, n, m, e)
    requires m' == m + (if op.LoadOlder? then 1 else 0) && e' == e + (if Expires(s, src, op) then 1 else 0)
    ensures InBudget(t, server, n, m', e')
  {
    if Loads(s, op) {
      PageSpends(s, src, es, op, server, n, m, e);
    } else {
      OthersShowNothing(s, src, op);
    }
  }

  lemma {:induction false} LastSpends(s: Session, src: Source, es: seq<Entry>, ops: seq<Op>, server: Server, n: nat)
    requires ops != [] && AllOlder(ops, src) && AllServed(s, src, ops) && Honest(Log(Run(s, ops).backend, src), server) && AtMost(server, n)
    requires var t, before := Run(s, ops[..|ops| - 1]), ops[..|ops| - 1];
             ShowsLines(t, es, server) && InBudget(t, server, n, Pages(before), Expiries(s, src, before))
    ensures InBudget(Run(s, ops), server, n, Pages(ops), Expiries(s, src, ops))
  {
    var before, op := ops[..|ops| - 1], ops[|ops| - 1];
    LastPage(s, src, ops, server);
    StepSpends(Run(s, before), src, es, op, Run(s, ops), server, n,
               Pages(before), Pages(ops), Expiries(s, src, before), Expiries(s, src, ops));
  }

  /**
   * A walk ends: with at most `n` documents per PIT and `e` expiries, no more
   * than `(e + 1) * (n + 1)` served pages leave something to load.
   */
  lemma {:induction false} WalkEnds(s: Session, src: Source, es: seq<Entry>, ops: seq<Op>, first: nat, start: nat, server: Server, n: nat)
    requires AllOlder(ops, src) && Shows(s, src, es, first, start, server) && Honest(Log(Run(s, ops).backend, src), server)
    requires AllServed(s, src, ops) && AtMost(server, n)
    ensures InBudget(Run(s, ops), server, n, Pages(ops), Expiries(s, src, ops))
  {
    if ops == [] {
      if CanLoadOlder(s) {
        LeftIsBounded(s, server, n);
      }
    } else {
      LastPage(s, src, ops, server);
      WalkEnds(s, src, es, ops[..|ops| - 1], first, start, server, n);
      var mid := WalkShows(s, src, es, ops[..|ops| - 1], first, start, server);
      LastSpends(s, src, mid, ops, server, n);
    }
  }

  lemma {:induction false} BudgetIsProduct(e: nat, n: nat)
    ensures Budget(e, n) == (e + 1) * (n + 1)
  {
    if e > 0 {
      BudgetIsProduct(e - 1, n);
    }
  }

  // ----- A document that ages out -----

  const OLD_DOC := Entry(Doc("logs", "b", 5), 0)

  /** A full page of new documents, all newer than the old one. */
  ghost predicate NewPage(docs: Snapshot) {
    && |docs| == DEFAULT_PAGE && ValidSnapshot(docs + [OLD_DOC])
    && forall i :: 0 <= i < |docs| ==> docs[i].doc.ts == 10
  }

  const ID := PitId(0, 0)

  /** The window has moved past the old document when the second page is asked for. */
  function Ageing(docs: Snapshot): Server {
    Server(map[0 := docs + [OLD_DOC]], (n: nat) => if n < 2 then Window(0, 20) else Window(6, 26))
  }

  function AgeingLog(docs: Snapshot): (log: seq<Exchange>)
    requires |docs| == DEFAULT_PAGE
    ensures |log| == 4
  {
    [Exchange(OpenPit, Body(Some(ID), None, None)),
     Exchange(SearchPit(ID, None, DEFAULT_PAGE), Body(None, Some(ID), Some(Hits(docs)))),
     Exchange(SearchPit(ID, Some(SortOf(docs[DEFAULT_PAGE - 1])), DEFAULT_PAGE), Body(None, Some(ID), Some([]))),
     Exchange(ClosePit(ID), Unreachable)]
  }

  function AgeingStart(docs: Snapshot): Session
    requires |docs| == DEFAULT_PAGE
  {
    var log := AgeingLog(docs);
    Start(map[HERE := Wire([log[0].answer, log[1].answer, log[2].answer], [], [], {})])
  }

  lemma AgeingFirstPage(docs: Snapshot)
    requires NewPage(docs)
    ensures PageAt(Ageing(docs), 1, 0, None, DEFAULT_PAGE) == docs
  {
    var s, w := docs + [OLD_DOC], Window(0, 20);
    SnapshotDescends(s);
    var a, b := MatchingIsSlice(s, w);
    assert Inside(s[0].doc, w) && Inside(s[|s| - 1].doc, w);
    assert a == 0 && b == |s| && s[a..b] == s;
    assert s[..DEFAULT_PAGE] == docs;
  }

  lemma AgeingSecondPage(docs: Snapshot)
    requires NewPage(docs)
    ensures PageAt(Ageing(docs), 2, 0, Some(SortOf(docs[DEFAULT_PAGE - 1])), DEFAULT_PAGE) == []
  {
    var s, w := docs + [OLD_DOC], Window(6, 26);
    var k := PageInWindow(s, w, Some(SortOf(docs[DEFAULT_PAGE - 1])), DEFAULT_PAGE);
    BehindPage(s, DEFAULT_PAGE - 1, [docs[DEFAULT_PAGE - 1]]);
    assert s[DEFAULT_PAGE] == OLD_DOC && !Inside(OLD_DOC.doc, w);
  }

  /** The reload opens the PIT and shows the new documents. */
  lemma AgeingReload(docs: Snapshot)
    requires |docs| == DEFAULT_PAGE
    ensures var s, log := AgeingStart(docs), AgeingLog(docs);
            var t := Apply(s, Reload(Some(HERE), true, None));
            && FirstPit(s, HERE, true, DEFAULT_PAGE) == Some(0) && FirstSearch(s, HERE) == 1
            && Log(t.backend, HERE) == [log[0], log[1]] && WireOf(t.backend, HERE).answers == [log[2].answer]
            && t.lines == Hits(docs) && t.next == Some(Cursor(Some(ID), SortOf(docs[DEFAULT_PAGE - 1])))
  {
    var s, log := AgeingStart(docs), AgeingLog(docs);
    var b := LetGoFn(s).backend;
    var c := Talking(b, HERE);
    FetchIs(b, HERE, true, None, DEFAULT_PAGE);
    AgeingFirst(c, docs);
    assert ClampSize(None) == DEFAULT_PAGE;
  }

  lemma AgeingFirst(c: Client, docs: Snapshot)
    requires |docs| == DEFAULT_PAGE && !c.noPit && c.log == []
    requires c.answers == [AgeingLog(docs)[0].answer, AgeingLog(docs)[1].answer, AgeingLog(docs)[2].answer]
    ensures var o, log, s := OpenPitFn(c), AgeingLog(docs), SearchFn(c, None, DEFAULT_PAGE);
            && o.result == Ok(Some(ID)) && SearchPitFn(o.client, None, ID, DEFAULT_PAGE).result.Ok?
            && s.client.log == [log[0], log[1]] && s.client.answers == [log[2].answer]
            && s.result == Ok(Page(Hits(docs), Some(Cursor(Some(ID), SortOf(docs[DEFAULT_PAGE - 1])))))
  {
    var o := OpenPitFn(c);
    assert o.client.answers == c.answers[1..] && NextAnswer(o.client) == AgeingLog(docs)[1].answer;
    assert c.answers[1..][1..] == [AgeingLog(docs)[2].answer];
  }

  /** The older page is empty: the walk is over. */
  lemma AgeingOlder(s: Session, docs: Snapshot)
    requires |docs| == DEFAULT_PAGE && WireOf(s.backend, HERE).answers == [AgeingLog(docs)[2].answer] && |s.lines| == DEFAULT_PAGE
    requires s.next == Some(Cursor(Some(ID), SortOf(docs[DEFAULT_PAGE - 1])))
    ensures var t, log := Apply(s, LoadOlder(Some(HERE), true, None)), AgeingLog(docs);
            t.lines == s.lines && t.next.None? && Log(t.backend, HERE) == Log(s.backend, HERE) + [log[2], log[3]]
  {
    var c, after := Talking(s.backend, HERE), Some(s.next.value.sort);
    FetchIs(s.backend, HERE, true, s.next, DEFAULT_PAGE);
    var x := SearchPitFn(c, after, ID, DEFAULT_PAGE);
    assert x.client.answers == [] && x.result == Ok((Page([], None), ID));
    assert SearchFn(c, s.next, DEFAULT_PAGE) == SettleFn(x, None);
    assert ClampSize(None) == DEFAULT_PAGE;
  }

  /** The server answers both pages honestly. */
  lemma AgeingIsHonest(docs: Snapshot)
    requires NewPage(docs)
    ensures Honest(AgeingLog(docs), Ageing(docs))
  {
    var log, server := AgeingLog(docs), Ageing(docs);
    AgeingFirstPage(docs);
    AgeingSecondPage(docs);
    assert HonestExchange(log[0], 0, server) && HonestExchange(log[3], 3, server);
    assert HonestExchange(log[1], 1, server);
    assert HonestExchange(log[2], 2, server);
  }

  lemma AgeingRun(docs: Snapshot)
    requires |docs| == DEFAULT_PAGE
    ensures var t := Run(ReloadFn(AgeingStart(docs), Some(HERE), true, DEFAULT_PAGE), [LoadOlder(Some(HERE), true, None)]);
            t.next.None? && t.lines == Hits(docs) && Log(t.backend, HERE) == AgeingLog(docs)
  {
    AgeingReload(docs);
    assert ClampSize(None) == DEFAULT_PAGE;
    var start, op := ReloadFn(AgeingStart(docs), Some(HERE), true, DEFAULT_PAGE), LoadOlder(Some(HERE), true, None);
    AgeingOlder(start, docs);
    assert [op][..0] == [];
    assert Run(start, [op]) == Apply(start, op);
    var log := AgeingLog(docs);
    assert [log[0], log[1]] + [log[2], log[3]] == log;
  }

  /**
   * A document can be skipped: inside the window when the walk begins, it is out
   * of it before the walk gets there, and is not shown when the walk is over.
   */
  lemma AgedOutIsSkipped(docs: Snapshot)
    requires NewPage(docs)
    ensures var s, ops, server := AgeingStart(docs), [LoadOlder(Some(HERE), true, None)], Ageing(docs);
            var t := Run(ReloadFn(s, Some(HERE), true, DEFAULT_PAGE), ops);
            && Began(s, HERE, true, DEFAULT_PAGE, ops, server) && FirstPit(s, HERE, true, DEFAULT_PAGE) == Some(0)
            && OLD_DOC in server.pits[0] && Inside(OLD_DOC.doc, server.clock(FirstSearch(s, HERE)))
            && t.next.None? && t.lines == Hits(docs) && HitOf(OLD_DOC) !in t.lines
  {
    AgeingReload(docs);
    AgeingRun(docs);
    AgeingIsHonest(docs);
    assert (docs + [OLD_DOC])[DEFAULT_PAGE] == OLD_DOC;
  }

  /** New documents, told apart by the length of their ids. */
  const NEW_DOCS: Snapshot := seq(DEFAULT_PAGE, (i: nat) => Entry(Doc("logs", seq(i + 1, _ => 'a'), 10), DEFAULT_PAGE - i))

  /** Such pages exist. */
  lemma NewDocsAreNew()
    ensures NewPage(NEW_DOCS)
  {
    var s := NEW_DOCS + [OLD_DOC];
    forall i, j | 0 <= i < j < |s|
      ensures Newer(s[i], s[j]) && s[i].doc.id != s[j].doc.id
    {
      assert |s[i].doc.id| != |s[j].doc.id| || s[i].doc.id[0] != s[j].doc.id[0];
    }
  }
}
