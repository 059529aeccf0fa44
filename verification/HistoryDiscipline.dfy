module HistoryDiscipline {
  // How the log view talks to its servers: on each connection no point in time is
  // opened after the server refused one, and every `search_after` fits its sort
  // clause. A new connection tries again.

  import opened Prelude
  import opened HistoryTransport
  import opened HistoryCommands
  import opened HistorySession
  import C = ConnCache

  /** After a refusal on a connection, no PIT is opened on that connection. */
  ghost predicate OneRefusal(w: Wire) {
    |w.on| == |w.log| &&
    forall i, j :: 0 <= i < j < |w.log| && w.on[i] == w.on[j] && Refusal(w.log[i]) ==> !w.log[j].request.OpenPit?
  }

  ghost predicate WellFormedLog(log: seq<Exchange>) { forall i :: 0 <= i < |log| ==> WellFormedRequest(log[i].request) }

  ghost predicate FaithfulLog(log: seq<Exchange>) { forall i :: 0 <= i < |log| ==> FaithfulSort(log[i]) }

  ghost predicate Faithful(b: Backend) { forall src :: FaithfulLog(Log(b, src)) }

  /** The wire's connections are known, and those refused a PIT are marked. */
  ghost predicate WireDisciplined(b: Backend, w: Wire, faithful: bool) {
    && OneRefusal(w) && (faithful ==> WellFormedLog(w.log))
    && (forall i :: 0 <= i < |w.log| ==> w.on[i] < b.nextConn && (Refusal(w.log[i]) ==> w.on[i] in b.refused))
  }

  ghost predicate AllDisciplined(b: Backend, faithful: bool) {
    && (forall conn :: conn in b.refused ==> conn < b.nextConn)
    && (forall key :: key in b.cache.slots ==> b.cache.slots[key].conn < b.nextConn)
    && (forall src :: WireDisciplined(b, WireOf(b, src), faithful))
  }

  // ----- One command -----

  /** New exchanges of one call on connection `conn`. */
  lemma PutDisciplined(b: Backend, src: Source, conn: Conn, c: Client, faithful: bool)
    requires AllDisciplined(b, faithful) && conn < b.nextConn && Log(b, src) <= c.log
    requires Disciplined(c, |Log(b, src)|, conn in b.refused, faithful)
    ensures AllDisciplined(Put(b, src, conn, c), faithful)
  {
    var after, w, n := Put(b, src, conn, c), WireOf(b, src), |Log(b, src)|;
    var w' := WireOf(after, src);
    assert WireDisciplined(b, w, faithful);
    forall i | 0 <= i < |w'.log|
      ensures w'.on[i] == if i < n then w.on[i] else conn
      ensures i < n ==> w'.log[i] == w.log[i]
    {
    }
    WireGrows(b, after, w, w', conn, c, n, faithful);
    forall other | other != src
      ensures WireDisciplined(after, WireOf(after, other), faithful)
    {
      assert WireDisciplined(b, WireOf(b, other), faithful);
    }
  }

  lemma WireGrows(b: Backend, after: Backend, w: Wire, w': Wire, conn: Conn, c: Client, n: nat, faithful: bool)
    requires WireDisciplined(b, w, faithful) && n == |w.log| && w.log <= w'.log && w'.log == c.log && |w'.on| == |w'.log|
    requires forall i :: 0 <= i < |w'.log| ==> w'.on[i] == if i < n then w.on[i] else conn
    requires conn < b.nextConn == after.nextConn && b.refused <= after.refused && (c.noPit ==> conn in after.refused)
    requires Disciplined(c, n, conn in b.refused, faithful)
    ensures WireDisciplined(after, w', faithful)
  {
    assert forall i :: 0 <= i < n ==> w'.log[i] == w.log[i];
    forall i, j | 0 <= i < j < |w'.log| && w'.on[i] == w'.on[j] && Refusal(w'.log[i])
      ensures !w'.log[j].request.OpenPit?
    {
      assert i < n ==> w'.on[i] == w.on[i] && Refusal(w.log[i]);
    }
  }

  lemma AcquireDisciplined(b: Backend, src: Source, up: bool, faithful: bool)
    requires AllDisciplined(b, faithful)
    ensures var (a, conn) := AcquireFn(b, src, up);
            && AllDisciplined(a, faithful) && a.wires == b.wires && (conn.Some? ==> conn.value < a.nextConn)
  {
    var (a, conn) := AcquireFn(b, src, up);
    forall other
      ensures WireDisciplined(a, WireOf(a, other), faithful)
    {
      assert WireDisciplined(b, WireOf(b, other), faithful);
    }
  }

  lemma FetchDisciplined(b: Backend, src: Source, up: bool, cursor: Option<Cursor>, size: nat, faithful: bool)
    requires size >= 1 && AllDisciplined(b, faithful) && (faithful && cursor.Some? ==> WellFormedCursor(cursor.value))
    requires faithful ==> FaithfulLog(Log(FetchFn(b, src, up, cursor, size).0, src))
    ensures var (after, result) := FetchFn(b, src, up, cursor, size);
            && AllDisciplined(after, faithful)
            && (faithful && result.Ok? && result.value.next.Some? ==> WellFormedCursor(result.value.next.value))
  {
    var (a, conn) := AcquireFn(b, src, up);
    AcquireDisciplined(b, src, up, faithful);
    if conn.Some? {
      var c := ClientOf(a, src, conn.value);
      SearchAppends(c, cursor, size);
      SearchDisciplined(c, cursor, size, |c.log|, c.noPit, faithful);
      var s := SearchFn(c, cursor, size);
      PutDisciplined(a, src, conn.value, s.client, faithful);
      InvalidateDisciplined(Put(a, src, conn.value, s.client), src, conn.value, faithful);
    }
  }

  lemma InvalidateDisciplined(b: Backend, src: Source, conn: Conn, faithful: bool)
    requires AllDisciplined(b, faithful)
    ensures AllDisciplined(b.(cache := C.InvalidateFn(b.cache, src.key, conn)), faithful)
  {
    var after := b.(cache := C.InvalidateFn(b.cache, src.key, conn));
    forall other
      ensures WireDisciplined(after, WireOf(after, other), faithful)
    {
      assert WireDisciplined(b, WireOf(b, other), faithful);
    }
  }

  lemma ReleaseDisciplined(b: Backend, source: Option<Source>, cursor: Option<Cursor>, faithful: bool)
    requires AllDisciplined(b, faithful)
    ensures AllDisciplined(ReleaseFn(b, source, cursor), faithful)
  {
    if source.Some? && cursor.Some? && Cached(b, source.value).Some? {
      var conn := Cached(b, source.value).value;
      var c := ClientOf(b, source.value, conn);
      if cursor.value.pitId.Some? {
        ClosePitDisciplined(c, cursor.value.pitId.value, |c.log|, c.noPit, faithful);
      }
      PutDisciplined(b, source.value, conn, CloseCursorFn(c, cursor), faithful);
    }
  }

  lemma OutsideDisciplined(b: Backend, step: C.Op, faithful: bool)
    requires AllDisciplined(b, faithful)
    ensures AllDisciplined(OutsideFn(b, step), faithful)
  {
    var after := OutsideFn(b, step);
    forall src
      ensures WireDisciplined(after, WireOf(after, src), faithful)
    {
      assert WireDisciplined(b, WireOf(b, src), faithful);
    }
  }

  lemma RefusedDisciplined(b: Backend, conn: Conn, faithful: bool)
    requires AllDisciplined(b, faithful)
    ensures AllDisciplined(RefusedFn(b, conn), faithful)
  {
    var after := RefusedFn(b, conn);
    forall src
      ensures WireDisciplined(after, WireOf(after, src), faithful)
    {
      assert WireDisciplined(b, WireOf(b, src), faithful);
    }
  }

  // ----- Runs -----

  ghost predicate SessionDisciplined(s: Session, faithful: bool) {
    AllDisciplined(s.backend, faithful) && (faithful && s.next.Some? ==> WellFormedCursor(s.next.value))
  }

  lemma FaithfulBefore(b: Backend, after: Backend)
    requires LogsGrow(b, after) && Faithful(after)
    ensures Faithful(b)
  {
    forall src
      ensures FaithfulLog(Log(b, src))
    {
      assert FaithfulLog(Log(after, src));
      assert forall i :: 0 <= i < |Log(b, src)| ==> Log(b, src)[i] == Log(after, src)[i];
    }
  }

  lemma ReloadDisciplined(s: Session, source: Option<Source>, up: bool, size: nat, faithful: bool)
    requires size >= 1 && SessionDisciplined(s, faithful) && (faithful ==> Faithful(ReloadFn(s, source, up, size).backend))
    ensures SessionDisciplined(ReloadFn(s, source, up, size), faithful)
  {
    ReleaseDisciplined(s.backend, s.source, s.next, faithful);
    if source.Some? {
      FetchDisciplined(LetGoFn(s).backend, source.value, up, None, size, faithful);
    }
  }

  lemma LoadOlderDisciplined(s: Session, source: Option<Source>, up: bool, size: nat, faithful: bool)
    requires size >= 1 && SessionDisciplined(s, faithful) && (faithful ==> Faithful(LoadOlderFn(s, source, up, size).backend))
    ensures SessionDisciplined(LoadOlderFn(s, source, up, size), faithful)
  {
    if CanLoadOlder(s) && source.Some? {
      var (after, result) := FetchFn(s.backend, source.value, up, s.next, size);
      if result.Ok? {
        ReleaseAppends(after, source, result.value.next);
        if faithful {
          FaithfulBefore(after, LoadOlderFn(s, source, up, size).backend);
        }
      }
      FetchDisciplined(s.backend, source.value, up, s.next, size, faithful);
      if result.Ok? {
        ReleaseDisciplined(after, source, result.value.next, faithful);
      }
    }
  }

  lemma ApplyDisciplined(s: Session, op: Op, faithful: bool)
    requires SessionDisciplined(s, faithful) && (faithful ==> Faithful(Apply(s, op).backend))
    ensures SessionDisciplined(Apply(s, op), faithful)
  {
    match op {
      case Reload(source, up, size) => ReloadDisciplined(s, source, up, ClampSize(size), faithful);
      case LoadOlder(source, up, size) => LoadOlderDisciplined(s, source, up, ClampSize(size), faithful);
      case Close => ReleaseDisciplined(s.backend, s.source, s.next, faithful);
      case Outside(step) => OutsideDisciplined(s.backend, step, faithful);
      case OutsideRefusal(conn) => RefusedDisciplined(s.backend, conn, faithful);
    }
  }

  lemma {:induction false} RunSessionDisciplined(wires: map<Source, Wire>, ops: seq<Op>, faithful: bool)
    requires Untouched(wires) && (faithful ==> Faithful(Run(Start(wires), ops).backend))
    ensures SessionDisciplined(Run(Start(wires), ops), faithful)
  {
    if ops != [] {
      var s, op := Run(Start(wires), ops[..|ops| - 1]), ops[|ops| - 1];
      if faithful {
        ApplyAppends(s, op);
        FaithfulBefore(s.backend, Apply(s, op).backend);
      }
      RunSessionDisciplined(wires, ops[..|ops| - 1], faithful);
      ApplyDisciplined(s, op, faithful);
    }
  }

  /**
   * Over every run, with reconnects, endpoint changes, and others dropping
   * connections or being refused on them: on no connection is a PIT opened after
   * a refusal; and when the servers' hits are faithful, every request on any
   * connection has a `search_after` that fits its sort clause.
   */
  lemma RunDisciplined(wires: map<Source, Wire>, ops: seq<Op>, src: Source)
    requires Untouched(wires)
    ensures var b := Run(Start(wires), ops).backend;
            OneRefusal(WireOf(b, src)) && (Faithful(b) ==> WellFormedLog(Log(b, src)))
  {
    var b := Run(Start(wires), ops).backend;
    RunSessionDisciplined(wires, ops, false);
    assert WireDisciplined(b, WireOf(b, src), false);
    if Faithful(b) {
      RunSessionDisciplined(wires, ops, true);
      assert WireDisciplined(b, WireOf(b, src), true);
    }
  }

  // ----- A new connection tries again -----

  const REFUSES_ONCE := [Status(405), Body(None, None, Some([])), Unreachable, Body(Some(PitId(7, 0)), None, None)]

  const AGAIN := Reload(Some(HERE), true, None)

  function Refused(): Session { Start(map[HERE := Wire(REFUSES_ONCE, [], [], {})]) }

  /** The first reload is refused a PIT and pages plainly. */
  lemma FirstIsRefused()
    ensures var b := Apply(Refused(), AGAIN).backend;
            && Cached(b, HERE) == Some(0) && b.nextConn == 1 && b.refused == {0}
            && WireOf(b, HERE).answers == REFUSES_ONCE[2..] && WireOf(b, HERE).on == [0, 0]
            && |Log(b, HERE)| == 2 && Refusal(Log(b, HERE)[0]) && Apply(Refused(), AGAIN).next == None
  {
    var b := Refused().backend;
    var a := AcquireFn(b, HERE, true).0;
    var c := ClientOf(a, HERE, 0);
    var o := OpenPitFn(c);
    assert o.client.answers == REFUSES_ONCE[1..];
    assert REFUSES_ONCE[1..][1..] == REFUSES_ONCE[2..];
  }

  /** Finding the server unreachable, the connection is dropped. */
  lemma SecondIsUnreachable(s: Session)
    requires s.next == None && Cached(s.backend, HERE) == Some(0) && s.backend.nextConn == 1 && 0 in s.backend.refused
    requires var w := WireOf(s.backend, HERE); w.answers == REFUSES_ONCE[2..] && w.on == [0, 0] && |w.log| == 2
    ensures var b, log := Apply(s, AGAIN).backend, Log(s.backend, HERE);
            && Cached(b, HERE) == None && b.nextConn == 1 && (1 in b.refused <==> 1 in s.backend.refused)
            && WireOf(b, HERE).answers == REFUSES_ONCE[3..] && WireOf(b, HERE).on == [0, 0, 0]
            && |Log(b, HERE)| == 3 && log <= Log(b, HERE) && Apply(s, AGAIN).next == None
  {
    assert REFUSES_ONCE[2..][1..] == REFUSES_ONCE[3..];
  }

  /** A new connection, which was refused nothing yet. */
  lemma ThirdOpens(s: Session)
    requires s.next == None && Cached(s.backend, HERE) == None && s.backend.nextConn == 1 && 1 !in s.backend.refused
    requires var w := WireOf(s.backend, HERE); w.answers == REFUSES_ONCE[3..] && |w.on| == 3 && |w.log| == 3
    ensures var w := WireOf(Apply(s, AGAIN).backend, HERE);
            && |w.log| == |w.on| > 3 && w.log[3].request.OpenPit? && w.log[3].answer == REFUSES_ONCE[3] && w.on[3] == 1
            && w.log[..3] == Log(s.backend, HERE) && w.on[..3] == WireOf(s.backend, HERE).on
  {
    var a := AcquireFn(s.backend, HERE, true).0;
    var c := ClientOf(a, HERE, 1);
    FetchAppends(s.backend, HERE, true, None, DEFAULT_PAGE);
  }

  lemma SecondAndThird(s: Session)
    requires s.next == None && Cached(s.backend, HERE) == Some(0) && s.backend.nextConn == 1 && s.backend.refused == {0}
    requires var w := WireOf(s.backend, HERE); w.answers == REFUSES_ONCE[2..] && w.on == [0, 0] && |w.log| == 2
    ensures var w := WireOf(Apply(Apply(s, AGAIN), AGAIN).backend, HERE);
            && |w.log| == |w.on| > 3 && w.log[0] == Log(s.backend, HERE)[0] && w.log[3] == Exchange(OpenPit, REFUSES_ONCE[3])
            && w.on[0] == 0 && w.on[3] == 1
  {
    SecondIsUnreachable(s);
    var two := Apply(s, AGAIN);
    ThirdOpens(two);
    var w := WireOf(Apply(two, AGAIN).backend, HERE);
    assert w.log[0] == w.log[..3][0] && w.on[0] == w.on[..3][0];
  }

  /**
   * The first reload is refused a PIT, the second one finds the server unreachable,
   * the third one opens a PIT: on a new connection.
   */
  lemma NewConnectionAsksAgain()
    ensures var w := WireOf(Run(Refused(), [AGAIN, AGAIN, AGAIN]).backend, HERE);
            && |w.log| == |w.on| > 3 && Refusal(w.log[0]) && w.log[3] == Exchange(OpenPit, REFUSES_ONCE[3])
            && w.on[0] != w.on[3]
  {
    RunOfThree(Refused(), AGAIN, AGAIN, AGAIN);
    FirstIsRefused();
    SecondAndThird(Apply(Refused(), AGAIN));
  }
}
