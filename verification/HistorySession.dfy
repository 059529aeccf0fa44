module HistorySession {
  // The history of one log session (`LogHistory` with its `HistoryKeys`): a first
  // page on reload, older pages on demand, repeats dropped by `_index` and `_id`,
  // the cursor released when the search is replaced, capped or closed.
  //
  // `lines` is kept newest first, in the order of the pages; the store shows the
  // same list reversed.

  import opened Prelude
  import opened HistoryTransport
  import opened HistoryCommands
  import C = ConnCache

  const HISTORY_CAP: nat := 10000

  /** What a hit is remembered by; hits without ids always count as new. */
  function Key(h: Hit): Option<string> {
    if h.docIndex.Some? && h.docIndex.value != "" && h.docId.Some? && h.docId.value != ""
    then Some(h.docIndex.value + "/" + h.docId.value) else None
  }

  predicate Seen(h: Hit, keys: set<string>) { Key(h).Some? && Key(h).value in keys }

  function Remember(h: Hit, keys: set<string>): set<string> {
    if Key(h).Some? then keys + {Key(h).value} else keys
  }

  function RememberAll(hits: seq<Hit>, keys: set<string>): set<string> {
    if hits == [] then keys else Remember(hits[|hits| - 1], RememberAll(hits[..|hits| - 1], keys))
  }

  /** The hits not shown yet, in order. */
  function Unseen(hits: seq<Hit>, keys: set<string>): seq<Hit> {
    if hits == [] then [] else
    (if Seen(hits[0], keys) then [] else [hits[0]]) + Unseen(hits[1..], keys)
  }

  /** A session: the commands behind it, the lines shown, the cursor and where it came from, and the keys shown. */
  datatype Session = Session(backend: Backend, lines: seq<Hit>, next: Option<Cursor>, source: Option<Source>, seen: set<string>)

  function CanLoadOlder(s: Session): bool { s.next.Some? && |s.lines| < HISTORY_CAP }

  /** The cursor is let go of, where it came from. */
  function LetGoFn(s: Session): Session {
    s.(backend := ReleaseFn(s.backend, s.source, s.next), next := None)
  }

  /** A first page replaces what is shown. */
  function ShowFirst(s: Session, src: Source, page: Page): Session {
    Session(s.backend, page.lines, page.next, Some(src), RememberAll(page.lines, {}))
  }

  /** Adds the unseen lines of an older page, up to the cap; at the cap nothing is left to load. */
  function ShowOlder(s: Session, src: Source, page: Page): Session {
    var unseen := Unseen(page.lines, s.seen);
    var room := if |s.lines| <= HISTORY_CAP then HISTORY_CAP - |s.lines| else 0;
    var kept := unseen[..Min(|unseen|, room)];
    var capped := |kept| < |unseen|;
    Session(if capped then ReleaseFn(s.backend, Some(src), page.next) else s.backend,
            s.lines + kept,
            if capped then None else page.next,
            Some(src),
            RememberAll(kept, s.seen))
  }

  /** A reload; `source` is the endpoint of the moment, `up` whether connecting to it works. */
  function ReloadFn(s: Session, source: Option<Source>, up: bool, size: nat): Session
    requires size >= 1
  {
    var s0 := LetGoFn(s);
    if source.None? then s0.(lines := []) else
    var (after, result) := FetchFn(s0.backend, source.value, up, None, size);
    var s1 := s0.(backend := after);
    if result.Err? then s1 else ShowFirst(s1, source.value, result.value)
  }

  function LoadOlderFn(s: Session, source: Option<Source>, up: bool, size: nat): Session
    requires size >= 1
  {
    if !CanLoadOlder(s) || source.None? then s else
    var (after, result) := FetchFn(s.backend, source.value, up, s.next, size);
    var s1 := s.(backend := after);
    if result.Err? then s1 else ShowOlder(s1, source.value, result.value)
  }

  function CloseFn(s: Session): Session { LetGoFn(s) }

  // ----- The objects -----

  class HistoryKeys {
    var keys: set<string>

    constructor ()
      ensures keys == {}
    {
      keys := {};
    }

    /** Remembers `h`; false when it was already shown. */
    method Add(h: Hit) returns (isNew: bool)
      modifies this
      ensures keys == Remember(h, old(keys))
      ensures isNew == !Seen(h, old(keys))
      ensures isNew && Key(h).Some? ==> |keys| == |old(keys)| + 1
    {
      var key := Key(h);
      if key.None? {
        return true;
      }
      if key.value in keys {
        return false;
      }
      keys := keys + {key.value};
      return true;
    }
  }

  class LogHistory {
    const elastic: Elastic
    var lines: seq<Hit>
    var next: Option<Cursor>
    var source: Option<Source>
    var seen: HistoryKeys

    ghost function State(): Session
      reads this, elastic, seen
    {
      Session(elastic.State(), lines, next, source, seen.keys)
    }

    constructor (elastic: Elastic)
      ensures this.elastic == elastic && fresh(seen)
      ensures State() == Session(elastic.State(), [], None, None, {})
    {
      this.elastic := elastic;
      lines, next, source := [], None, None;
      seen := new HistoryKeys();
    }

    method Release(cursor: Option<Cursor>, source: Option<Source>)
      modifies elastic
      ensures elastic.State() == ReleaseFn(old(elastic.State()), source, cursor)
    {
      elastic.CloseCursor(source, cursor);
    }

    method RememberLines(hits: seq<Hit>)
      modifies seen
      ensures seen.keys == RememberAll(hits, old(seen.keys))
    {
      for i := 0 to |hits|
        invariant seen.keys == RememberAll(hits[..i], old(seen.keys))
      {
        var _ := seen.Add(hits[i]);
        assert hits[..i + 1][..i] == hits[..i];
      }
      assert hits[..|hits|] == hits;
    }

    method Close()
      modifies this, elastic
      ensures seen == old(seen) && State() == CloseFn(old(State()))
    {
      Release(next, source);
      next := None;
    }

    method Reload(current: Option<Source>, up: bool, size: Option<nat>)
      modifies this, elastic, seen
      ensures seen == old(seen) || fresh(seen)
      ensures State() == ReloadFn(old(State()), current, up, ClampSize(size))
    {
      Release(next, source);
      next := None;
      if current.None? {
        lines := [];
        return;
      }
      var page := elastic.Search(current.value, up, None, size);
      if page.Ok? {
        seen := new HistoryKeys();
        RememberLines(page.value.lines);
        lines := page.value.lines;
        next := page.value.next;
        source := current;
      }
    }

    /** The unseen lines of an older page, up to the cap. */
    method Extend(page: Page, from: Source)
      requires |lines| < HISTORY_CAP
      modifies this, elastic, seen
      ensures seen == old(seen) && State() == ShowOlder(old(State()), from, page)
    {
      var unseen := Unseen(page.lines, seen.keys);
      var kept := unseen[..Min(|unseen|, HISTORY_CAP - |lines|)];
      RememberLines(kept);
      lines := lines + kept;
      source := Some(from);
      if |kept| < |unseen| {
        Release(page.next, source);
        next := None;
      } else {
        next := page.next;
      }
    }

    method LoadOlder(current: Option<Source>, up: bool, size: Option<nat>)
      modifies this, elastic, seen
      ensures seen == old(seen) && State() == LoadOlderFn(old(State()), current, up, ClampSize(size))
    {
      if next.None? || |lines| >= HISTORY_CAP || current.None? {
        return;
      }
      var page := elastic.Search(current.value, up, next, size);
      if page.Ok? {
        Extend(page.value, current.value);
      }
    }
  }

  // ----- Calls one after the other -----

  /** What the view does, and what others do in between: to the cache, or by being refused a PIT on a shared connection. */
  datatype Op =
    | Reload(source: Option<Source>, up: bool, size: Option<nat>)
    | LoadOlder(source: Option<Source>, up: bool, size: Option<nat>)
    | Close
    | Outside(step: C.Op)
    | OutsideRefusal(conn: Conn)

  function Apply(s: Session, op: Op): Session {
    match op
    case Reload(source, up, size) => ReloadFn(s, source, up, ClampSize(size))
    case LoadOlder(source, up, size) => LoadOlderFn(s, source, up, ClampSize(size))
    case Close => CloseFn(s)
    case Outside(step) => s.(backend := OutsideFn(s.backend, step))
    case OutsideRefusal(conn) => s.(backend := RefusedFn(s.backend, conn))
  }

  function Run(s: Session, ops: seq<Op>): Session {
    if ops == [] then s else Apply(Run(s, ops[..|ops| - 1]), ops[|ops| - 1])
  }

  lemma RunOfThree(s: Session, a: Op, b: Op, c: Op)
    ensures Run(s, [a, b, c]) == Apply(Apply(Apply(s, a), b), c)
  {
    assert [a][..0] == [] && [a, b][..1] == [a] && [a, b, c][..2] == [a, b];
    assert Run(s, [a]) == Apply(s, a);
    assert Run(s, [a, b]) == Apply(Apply(s, a), b);
  }

  /** Servers that have not been talked to. */
  predicate Untouched(wires: map<Source, Wire>) {
    forall src :: src in wires ==> wires[src].log == [] && wires[src].on == [] && wires[src].live == {}
  }

  /** A new session in front of those servers. */
  function Start(wires: map<Source, Wire>): Session { Session(NewBackend(wires), [], None, None, {}) }

  /** A source for examples. */
  const HERE := Source(C.Key("config", "prod"), "https://logs:9200")

  /** A command appends to the logs only. */
  ghost predicate LogsGrow(b: Backend, after: Backend) { forall src :: Log(b, src) <= Log(after, src) }

  lemma {:induction false} FetchAppends(b: Backend, src: Source, up: bool, cursor: Option<Cursor>, size: nat)
    requires size >= 1
    ensures LogsGrow(b, FetchFn(b, src, up, cursor, size).0)
  {
    FetchIs(b, src, up, cursor, size);
    SearchAppends(Talking(b, src), cursor, size);
    forall other
      ensures Log(b, other) <= Log(FetchFn(b, src, up, cursor, size).0, other)
    {
    }
  }

  lemma {:induction false} ReleaseAppends(b: Backend, source: Option<Source>, cursor: Option<Cursor>)
    ensures LogsGrow(b, ReleaseFn(b, source, cursor))
  {
    ReleaseIs(b, source, cursor);
    forall src
      ensures Log(b, src) <= Log(ReleaseFn(b, source, cursor), src)
    {
    }
  }

  lemma {:induction false} ReloadAppends(s: Session, source: Option<Source>, up: bool, size: nat)
    requires size >= 1
    ensures LogsGrow(s.backend, ReloadFn(s, source, up, size).backend)
  {
    ReleaseAppends(s.backend, s.source, s.next);
    if source.Some? {
      FetchAppends(LetGoFn(s).backend, source.value, up, None, size);
    }
  }

  lemma {:induction false} LoadOlderAppends(s: Session, source: Option<Source>, up: bool, size: nat)
    requires size >= 1
    ensures LogsGrow(s.backend, LoadOlderFn(s, source, up, size).backend)
  {
    if CanLoadOlder(s) && source.Some? {
      var (after, result) := FetchFn(s.backend, source.value, up, s.next, size);
      FetchAppends(s.backend, source.value, up, s.next, size);
      if result.Ok? {
        ReleaseAppends(after, source, result.value.next);
      }
    }
  }

  lemma {:induction false} ApplyAppends(s: Session, op: Op)
    ensures LogsGrow(s.backend, Apply(s, op).backend)
  {
    match op {
      case Reload(source, up, size) => ReloadAppends(s, source, up, ClampSize(size));
      case LoadOlder(source, up, size) => LoadOlderAppends(s, source, up, ClampSize(size));
      case Close => ReleaseAppends(s.backend, s.source, s.next);
      case Outside(step) =>
      case OutsideRefusal(conn) =>
    }
  }
}
