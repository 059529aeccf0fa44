module HistoryLeaks {
  // Which points in time a session leaves open: none that it still holds the cursor
  // of, and of the others exactly those it let go of while no connection was cached
  // for them, or left behind on another endpoint. And: what it never asks for.

  import opened Prelude
  import opened HistoryTransport
  import opened HistoryCommands
  import opened HistorySession
  import C = ConnCache

  // ----- PITs of servers -----

  /** A PIT and the source whose server holds it. */
  type Pit = (Source, nat)

  /** The PIT was opened and has had no close sent, nor was it reported gone. */
  predicate IsLive(b: Backend, x: Pit) { x.1 in WireOf(b, x.0).live }

  ghost predicate Opened(b: Backend, x: Pit) { exists i :: 0 <= i < |Log(b, x.0)| && Opens(Log(b, x.0)[i], x.1) }

  function HeldBy(source: Option<Source>, cursor: Option<Cursor>): set<Pit> {
    if source.None? then {} else set p | p in Carried(cursor) :: (source.value, p)
  }

  /** No PIT is opened twice, on any server. */
  ghost predicate OneOpening(b: Backend) {
    forall src, i, src', j :: 0 <= i < |Log(b, src)| && 0 <= j < |Log(b, src')| && Log(b, src)[i].request.OpenPit?
      ==> SameOpening(b, src, i, src', j)
  }

  ghost predicate SameOpening(b: Backend, src: Source, i: nat, src': Source, j: nat)
    requires i < |Log(b, src)| && j < |Log(b, src')|
  {
    forall p :: Opens(Log(b, src)[i], p) && Opens(Log(b, src')[j], p) ==> src == src' && i == j
  }

  /** A server answers searches on its own PITs only. */
  ghost predicate OwnPits(log: seq<Exchange>) {
    forall i :: 0 <= i < |log| && Answered(log[i]) ==> exists j :: 0 <= j < i && Opens(log[j], log[i].request.id.pit)
  }

  /** What the servers answer makes sense: one id for one PIT, told apart. */
  ghost predicate Sane(b: Backend) {
    OneOpening(b) && forall src :: SaneAnswers(Log(b, src)) && OwnPits(Log(b, src))
  }

  lemma SaneBefore(b: Backend, after: Backend)
    requires Sane(after) && LogsGrow(b, after)
    ensures Sane(b)
  {
    forall src
      ensures SaneAnswers(Log(b, src)) && OwnPits(Log(b, src))
    {
      LogIsSane(Log(b, src), Log(after, src));
    }
    forall src, i, src', j | 0 <= i < |Log(b, src)| && 0 <= j < |Log(b, src')| && Log(b, src)[i].request.OpenPit?
      ensures SameOpening(b, src, i, src', j)
    {
      assert Log(b, src)[i] == Log(after, src)[i] && Log(b, src')[j] == Log(after, src')[j];
      assert SameOpening(after, src, i, src', j);
    }
  }

  lemma LogIsSane(log: seq<Exchange>, longer: seq<Exchange>)
    requires log <= longer && SaneAnswers(longer) && OwnPits(longer)
    ensures SaneAnswers(log) && OwnPits(log)
  {
    assert forall i :: 0 <= i < |log| ==> log[i] == longer[i];
    assert forall x :: x in log ==> x in longer;
  }

  /** Opened twice is opened once. */
  lemma OpenedOnce(b: Backend, x: Pit, y: Pit)
    requires OneOpening(b) && Opened(b, x) && Opened(b, y) && x.1 == y.1
    ensures x == y
  {
    var i :| 0 <= i < |Log(b, x.0)| && Opens(Log(b, x.0)[i], x.1);
    var j :| 0 <= j < |Log(b, y.0)| && Opens(Log(b, y.0)[j], y.1);
    assert SameOpening(b, x.0, i, y.0, j);
  }

  lemma OpenedStays(b: Backend, after: Backend, x: Pit)
    requires LogsGrow(b, after) && Opened(b, x)
    ensures Opened(after, x)
  {
    var i :| 0 <= i < |Log(b, x.0)| && Opens(Log(b, x.0)[i], x.1);
    assert Log(after, x.0)[i] == Log(b, x.0)[i];
  }

  /** Only opened PITs are live. */
  ghost predicate LiveOpened(b: Backend) { forall x: Pit :: IsLive(b, x) ==> Opened(b, x) }

  ghost predicate AllOpened(b: Backend, held: set<Pit>) { forall x :: x in held ==> Opened(b, x) }

  // ----- What one command does to them -----

  /** An opened PIT that a command opens again does not exist. */
  lemma NotReopened(b: Backend, after: Backend, src: Source, p: nat)
    requires LogsGrow(b, after) && OneOpening(after) && Opened(b, (src, p))
    ensures !OpenedSince(Log(after, src), |Log(b, src)|, p)
  {
    var i :| 0 <= i < |Log(b, src)| && Opens(Log(b, src)[i], p);
    forall j | |Log(b, src)| <= j < |Log(after, src)|
      ensures !Opens(Log(after, src)[j], p)
    {
      assert Log(after, src)[i] == Log(b, src)[i];
      assert SameOpening(after, src, i, src, j);
    }
  }

  /** A PIT that a server answers for is its own. */
  lemma AnsweredIsOpened(after: Backend, src: Source, start: nat, p: nat)
    requires OwnPits(Log(after, src)) && AnsweredSince(Log(after, src), start, p)
    ensures Opened(after, (src, p))
  {
    var i :| start <= i < |Log(after, src)| && Answered(Log(after, src)[i]) && Log(after, src)[i].request.id.pit == p;
    var j :| 0 <= j < i && Opens(Log(after, src)[j], p);
  }

  /** The PITs of a page: those of its cursor. */
  function PageHolds(src: Source, result: Result<Page, Error>): set<Pit> {
    if result.Ok? then HeldBy(Some(src), result.value.next) else {}
  }

  /**
   * A search leaves all other PITs as they are; it adds the one its page holds, if
   * any; a page leaves its own cursor's PIT only if it holds it.
   */
  ghost predicate Accounts(b: Backend, after: Backend, used: set<Pit>, held: set<Pit>, ok: bool) {
    && LiveOpened(after) && AllOpened(after, held)
    && (forall x: Pit :: IsLive(b, x) && x !in used ==> IsLive(after, x))
    && (forall x: Pit :: IsLive(after, x) ==> IsLive(b, x) || x in held)
    && (ok ==> forall x :: x in used && IsLive(after, x) ==> x in held)
    && (forall x :: x in held ==> x in used || !Opened(b, x))
  }

  lemma FetchAccounts(b: Backend, src: Source, up: bool, home: Option<Source>, cursor: Option<Cursor>, size: nat)
    requires size >= 1 && LiveOpened(b) && AllOpened(b, HeldBy(home, cursor)) && (Carried(cursor) != {} ==> home.Some?)
    requires Sane(FetchFn(b, src, up, cursor, size).0)
    ensures var (after, result) := FetchFn(b, src, up, cursor, size);
            Accounts(b, after, HeldBy(home, cursor), PageHolds(src, result), result.Ok? && home == Some(src))
            && (result.Ok? ==> forall x :: x in HeldBy(home, cursor) && x.0 != src ==> x !in PageHolds(src, result))
  {
    var (after, result) := FetchFn(b, src, up, cursor, size);
    FetchAppends(b, src, up, cursor, size);
    FetchIs(b, src, up, cursor, size);
    if Reachable(b, src, up) {
      var c := Talking(b, src);
      SearchIsAbout(c, cursor, size);
      assert forall x :: x in SearchFn(c, cursor, size).client.log ==> SamePit(x);
      SearchLeavesNoPit(c, cursor, size);
      WireAccounts(b, after, src, home, cursor, c, SearchFn(c, cursor, size));
    } else {
      assert after == b;
    }
  }

  /** The same for what is known of one call on the source's connection. */
  lemma WireAccounts(b: Backend, after: Backend, src: Source, home: Option<Source>, cursor: Option<Cursor>, c: Client, s: Step<Page>)
    requires LiveOpened(b) && AllOpened(b, HeldBy(home, cursor)) && (Carried(cursor) != {} ==> home.Some?)
    requires Sane(after) && LogsGrow(b, after) && (forall other :: other != src ==> WireOf(after, other) == WireOf(b, other))
    requires c.log == Log(b, src) && c.live == WireOf(b, src).live && s.client.log == Log(after, src) && s.client.live == WireOf(after, src).live
    requires About(c, s, Carried(cursor))
    requires match s.result
             case Ok(page) => s.client.live <= c.live - Carried(cursor) + Carried(page.next)
             case Err(_) => s.client.live <= c.live
    ensures Accounts(b, after, HeldBy(home, cursor), PageHolds(src, s.result), s.result.Ok? && home == Some(src))
    ensures s.result.Ok? ==> forall x :: x in HeldBy(home, cursor) && x.0 != src ==> x !in PageHolds(src, s.result)
  {
    forall x | x in PageHolds(src, s.result)
      ensures Opened(after, x) && (x in HeldBy(home, cursor) || !Opened(b, x))
    {
      PageHoldsOwn(b, after, src, home, cursor, c, s, x.1);
    }
    forall x: Pit | IsLive(b, x) && x !in HeldBy(home, cursor)
      ensures IsLive(after, x)
    {
      OthersStay(b, after, src, home, cursor, c, s, x);
    }
    forall x: Pit | IsLive(after, x)
      ensures Opened(after, x)
    {
      if IsLive(b, x) {
        OpenedStays(b, after, x);
      }
    }
  }

  lemma PageHoldsOwn(b: Backend, after: Backend, src: Source, home: Option<Source>, cursor: Option<Cursor>, c: Client, s: Step<Page>, p: nat)
    requires AllOpened(b, HeldBy(home, cursor)) && (Carried(cursor) != {} ==> home.Some?)
    requires Sane(after) && LogsGrow(b, after) && c.log == Log(b, src) && s.client.log == Log(after, src)
    requires About(c, s, Carried(cursor)) && s.result.Ok? && p in Carried(s.result.value.next)
    ensures Opened(after, (src, p)) && ((src, p) in HeldBy(home, cursor) || !Opened(b, (src, p)))
  {
    AnsweredIsOpened(after, src, |c.log|, p);
    if p in Carried(cursor) {
      OpenedStays(b, after, (home.value, p));
      OpenedOnce(after, (home.value, p), (src, p));
    } else if Opened(b, (src, p)) {
      NotReopened(b, after, src, p);
    }
  }

  lemma OthersStay(b: Backend, after: Backend, src: Source, home: Option<Source>, cursor: Option<Cursor>, c: Client, s: Step<Page>, x: Pit)
    requires LiveOpened(b) && AllOpened(b, HeldBy(home, cursor)) && (Carried(cursor) != {} ==> home.Some?)
    requires Sane(after) && LogsGrow(b, after) && (forall other :: other != src ==> WireOf(after, other) == WireOf(b, other))
    requires c.log == Log(b, src) && c.live == WireOf(b, src).live && s.client.log == Log(after, src) && s.client.live == WireOf(after, src).live
    requires About(c, s, Carried(cursor)) && IsLive(b, x) && x !in HeldBy(home, cursor)
    ensures IsLive(after, x)
  {
    if x.0 == src {
      NotReopened(b, after, src, x.1);
      if x.1 in Carried(cursor) {
        OpenedStays(b, after, (home.value, x.1));
        OpenedStays(b, after, x);
        OpenedOnce(after, (home.value, x.1), x);
      }
    }
  }

  /** A release closes what it releases if a connection is cached, and touches nothing else. */
  lemma ReleaseAccounts(b: Backend, source: Option<Source>, cursor: Option<Cursor>)
    requires LiveOpened(b)
    ensures var after := ReleaseFn(b, source, cursor);
            && LogsGrow(b, after) && LiveOpened(after)
            && (forall x: Pit :: IsLive(after, x) <==>
                  IsLive(b, x) && !(x in HeldBy(source, cursor) && Cached(b, source.value).Some?))
  {
    var after := ReleaseFn(b, source, cursor);
    ReleaseIs(b, source, cursor);
    ReleaseAppends(b, source, cursor);
    forall x: Pit | IsLive(after, x)
      ensures Opened(after, x)
    {
      OpenedStays(b, after, x);
    }
  }

  // ----- Runs -----

  function Held(s: Session): set<Pit> { HeldBy(s.source, s.next) }

  /** What the session would leave open if it let go without a close. */
  function LiveHeld(s: Session): set<Pit> { set x | x in Held(s) && IsLive(s.backend, x) }

  /** A release now would find no connection. */
  predicate Unreleasable(s: Session) { s.source.Some? && Cached(s.backend, s.source.value).None? }

  /** The older page comes from another source than the cursor. */
  predicate MovesOn(s: Session, source: Option<Source>, up: bool, size: nat)
    requires size >= 1
  {
    && CanLoadOlder(s) && source.Some? && source != s.source
    && FetchFn(s.backend, source.value, up, s.next, size).1.Ok?
  }

  /** What one step lets go of without a close: released with no connection cached, or left on another endpoint. */
  function LostBy(s: Session, op: Op): set<Pit> {
    match op
    case Reload(_, _, _) => if Unreleasable(s) then LiveHeld(s) else {}
    case Close => if Unreleasable(s) then LiveHeld(s) else {}
    case LoadOlder(source, up, size) => if MovesOn(s, source, up, ClampSize(size)) then LiveHeld(s) else {}
    case _ => {}
  }

  function Lost(s: Session, ops: seq<Op>): set<Pit> {
    if ops == [] then {} else Lost(s, ops[..|ops| - 1]) + LostBy(Run(s, ops[..|ops| - 1]), ops[|ops| - 1])
  }

  /** Live PITs are the cursor's or lost, not both, and what is lost is live. */
  ghost predicate Accounted(s: Session, lost: set<Pit>) {
    && LiveOpened(s.backend) && AllOpened(s.backend, Held(s)) && (s.next.Some? ==> s.source.Some?)
    && (forall x :: x in lost ==> IsLive(s.backend, x) && x !in Held(s))
    && (forall x: Pit :: IsLive(s.backend, x) ==> x in Held(s) || x in lost)
  }

  lemma LetGoAccounted(s: Session, lost: set<Pit>)
    requires Accounted(s, lost)
    ensures Accounted(LetGoFn(s), lost + LostBy(s, Close)) && Held(LetGoFn(s)) == {}
  {
    ReleaseAccounts(s.backend, s.source, s.next);
  }

  lemma FirstFetchAccounted(s: Session, lost: set<Pit>, src: Source, up: bool, size: nat)
    requires size >= 1 && Accounted(s, lost) && s.next.None? && Sane(FetchFn(s.backend, src, up, None, size).0)
    ensures var (after, result) := FetchFn(s.backend, src, up, None, size);
            var s1 := s.(backend := after);
            if result.Ok? then Accounted(ShowFirst(s1, src, result.value), lost) else Accounted(s1, lost)
  {
    FetchAccounts(s.backend, src, up, None, None, size);
    var (after, result) := FetchFn(s.backend, src, up, None, size);
    assert HeldBy(None, None) == {};
    if result.Ok? {
      assert Held(ShowFirst(s.(backend := after), src, result.value)) == PageHolds(src, result);
    }
  }

  lemma ReloadAccounted(s: Session, lost: set<Pit>, source: Option<Source>, up: bool, size: nat)
    requires size >= 1 && Accounted(s, lost) && Sane(ReloadFn(s, source, up, size).backend)
    ensures Accounted(ReloadFn(s, source, up, size), lost + LostBy(s, Close))
  {
    LetGoAccounted(s, lost);
    if source.Some? {
      FirstFetchAccounted(LetGoFn(s), lost + LostBy(s, Close), source.value, up, size);
    }
  }

  lemma AllOpenedStay(b: Backend, after: Backend, held: set<Pit>)
    requires LogsGrow(b, after) && AllOpened(b, held)
    ensures AllOpened(after, held)
  {
    forall x | x in held
      ensures Opened(after, x)
    {
      OpenedStays(b, after, x);
    }
  }

  function LeftBehind(s: Session, source: Option<Source>, up: bool, size: nat): set<Pit>
    requires size >= 1
  {
    if MovesOn(s, source, up, size) then LiveHeld(s) else {}
  }

  /** After an older page, before the cap is looked at. */
  lemma OlderFetchAccounted(s: Session, lost: set<Pit>, src: Source, up: bool, size: nat)
    requires size >= 1 && Accounted(s, lost) && CanLoadOlder(s) && Sane(FetchFn(s.backend, src, up, s.next, size).0)
    ensures var (after, result) := FetchFn(s.backend, src, up, s.next, size);
            var s1 := s.(backend := after);
            if result.Ok? then Accounted(s1.(next := result.value.next, source := Some(src)), lost + LeftBehind(s, Some(src), up, size))
            else Accounted(s1, lost)
  {
    FetchAccounts(s.backend, src, up, s.source, s.next, size);
    FetchAppends(s.backend, src, up, s.next, size);
    var (after, result) := FetchFn(s.backend, src, up, s.next, size);
    AllOpenedStay(s.backend, after, Held(s));
    if result.Ok? {
      assert Held(s.(backend := after, next := result.value.next, source := Some(src))) == PageHolds(src, result);
    }
  }

  lemma LoadOlderAccounted(s: Session, lost: set<Pit>, source: Option<Source>, up: bool, size: nat)
    requires size >= 1 && Accounted(s, lost) && Sane(LoadOlderFn(s, source, up, size).backend)
    ensures Accounted(LoadOlderFn(s, source, up, size), lost + LeftBehind(s, source, up, size))
  {
    if CanLoadOlder(s) && source.Some? {
      var src := source.value;
      var (after, result) := FetchFn(s.backend, src, up, s.next, size);
      var s1 := s.(backend := after);
      if result.Ok? {
        ReleaseAppends(after, source, result.value.next);
        ReleaseAppends(after, source, None);
        SaneBefore(after, LoadOlderFn(s, source, up, size).backend);
        OlderFetchAccounted(s, lost, src, up, size);
        FetchCaches(s.backend, src, up, s.next, size);
        ShownAccounted(s1, lost + LeftBehind(s, source, up, size), src, result.value);
      } else {
        OlderFetchAccounted(s, lost, src, up, size);
      }
    }
  }

  /** At the cap the page's cursor is released; a connection is cached, it was just used. */
  lemma ShownAccounted(s: Session, lost: set<Pit>, src: Source, page: Page)
    requires Accounted(s.(next := page.next, source := Some(src)), lost) && Cached(s.backend, src).Some?
    ensures Accounted(ShowOlder(s, src, page), lost)
  {
    LetGoAccounted(s.(next := page.next, source := Some(src)), lost);
  }

  lemma ApplyAccounted(s: Session, lost: set<Pit>, op: Op)
    requires Accounted(s, lost) && Sane(Apply(s, op).backend)
    ensures Accounted(Apply(s, op), lost + LostBy(s, op))
  {
    match op {
      case Reload(source, up, size) => ReloadAccounted(s, lost, source, up, ClampSize(size));
      case LoadOlder(source, up, size) => LoadOlderAccounted(s, lost, source, up, ClampSize(size));
      case Close => LetGoAccounted(s, lost);
      case Outside(step) => OutsideAccounted(s, lost, Apply(s, op).backend);
      case OutsideRefusal(conn) => OutsideAccounted(s, lost, Apply(s, op).backend);
    }
  }

  /** Others change no server of ours. */
  lemma OutsideAccounted(s: Session, lost: set<Pit>, after: Backend)
    requires Accounted(s, lost) && after.wires == s.backend.wires
    ensures Accounted(s.(backend := after), lost)
  {
    assert forall src :: WireOf(after, src) == WireOf(s.backend, src);
    AllOpenedStay(s.backend, after, Held(s));
    forall x: Pit | IsLive(after, x)
      ensures Opened(after, x)
    {
      OpenedStays(s.backend, after, x);
    }
  }

  lemma {:induction false} RunAccounted(wires: map<Source, Wire>, ops: seq<Op>)
    requires Untouched(wires) && Sane(Run(Start(wires), ops).backend)
    ensures Accounted(Run(Start(wires), ops), Lost(Start(wires), ops))
  {
    if ops != [] {
      var before := ops[..|ops| - 1];
      ApplyAppends(Run(Start(wires), before), ops[|ops| - 1]);
      SaneBefore(Run(Start(wires), before).backend, Run(Start(wires), ops).backend);
      RunAccounted(wires, before);
      ApplyAccounted(Run(Start(wires), before), Lost(Start(wires), before), ops[|ops| - 1]);
    }
  }

  /**
   * Over every run, with reconnects, endpoint changes, and others dropping the
   * connection: a PIT that the session's cursor is not on is open if and only if
   * the session let go of it while no connection was cached for its source, or
   * left it for another endpoint. After a close that is every PIT.
   */
  lemma LeftExactly(wires: map<Source, Wire>, ops: seq<Op>, x: Pit)
    requires Untouched(wires) && Sane(Run(Start(wires), ops).backend)
    ensures var s := Run(Start(wires), ops);
            && (x !in Held(s) ==> (IsLive(s.backend, x) <==> x in Lost(Start(wires), ops)))
            && (IsLive(CloseFn(s).backend, x) <==> x in Lost(Start(wires), ops + [Close]))
  {
    RunAccounted(wires, ops);
    var s, lost := Run(Start(wires), ops), Lost(Start(wires), ops);
    LetGoAccounted(s, lost);
    assert (ops + [Close])[..|ops|] == ops;
    assert Lost(Start(wires), ops + [Close]) == lost + LostBy(s, Close);
  }

  // ----- Runs on one endpoint whose server stays reachable -----

  /** The session stays on `src`, no search finds its server unreachable, and nobody else drops connections. */
  ghost predicate Steady(s: Session, ops: seq<Op>, src: Source) {
    ops != [] ==>
      var before, op := ops[..|ops| - 1], ops[|ops| - 1];
      Steady(s, before, src) && SteadyStep(Run(s, before), op, src)
  }

  predicate SteadyStep(s: Session, op: Op, src: Source) {
    match op
    case Reload(source, up, size) =>
      source.Some? ==> source.value == src && FetchFn(LetGoFn(s).backend, src, up, None, ClampSize(size)).1 != Err(Connect)
    case LoadOlder(source, up, size) =>
      source.Some? && CanLoadOlder(s) ==> source.value == src && FetchFn(s.backend, src, up, s.next, ClampSize(size)).1 != Err(Connect)
    case Close => true
    case _ => false
  }

  /** A cursor is from `src`, and a connection to it is cached. */
  predicate OnSource(s: Session, src: Source) { s.next.Some? ==> s.source == Some(src) && Cached(s.backend, src).Some? }

  lemma SteadyOlder(s: Session, source: Option<Source>, up: bool, size: nat, src: Source)
    requires size >= 1 && OnSource(s, src)
    requires source.Some? && CanLoadOlder(s) ==> source.value == src && FetchFn(s.backend, src, up, s.next, size).1 != Err(Connect)
    ensures OnSource(LoadOlderFn(s, source, up, size), src) && LeftBehind(s, source, up, size) == {}
  {
    if source.Some? && CanLoadOlder(s) {
      var (after, result) := FetchFn(s.backend, src, up, s.next, size);
      FetchCaches(s.backend, src, up, s.next, size);
      if result.Ok? {
        ReleaseIs(after, source, result.value.next);
      }
    }
  }

  lemma SteadyApply(s: Session, op: Op, src: Source)
    requires OnSource(s, src) && SteadyStep(s, op, src)
    ensures OnSource(Apply(s, op), src) && LostBy(s, op) == {}
  {
    match op {
      case Reload(source, up, size) =>
        if source.Some? {
          FetchCaches(LetGoFn(s).backend, src, up, None, ClampSize(size));
        }
      case LoadOlder(source, up, size) => SteadyOlder(s, source, up, ClampSize(size), src);
      case Close =>
    }
  }

  lemma {:induction false} SteadyRun(wires: map<Source, Wire>, ops: seq<Op>, src: Source)
    requires Steady(Start(wires), ops, src)
    ensures OnSource(Run(Start(wires), ops), src) && Lost(Start(wires), ops) == {}
  {
    if ops != [] {
      SteadyRun(wires, ops[..|ops| - 1], src);
      SteadyApply(Run(Start(wires), ops[..|ops| - 1]), ops[|ops| - 1], src);
    }
  }

  /**
   * Without a search that finds the server unreachable, a change of endpoint or
   * others dropping the connection, nothing is left: the only PIT open is the one
   * of the session's cursor, and none after a close.
   */
  lemma RunLeavesNoPit(wires: map<Source, Wire>, ops: seq<Op>, src: Source, x: Pit)
    requires Untouched(wires) && Sane(Run(Start(wires), ops).backend) && Steady(Start(wires), ops, src)
    ensures var s := Run(Start(wires), ops);
            (IsLive(s.backend, x) ==> x in Held(s)) && !IsLive(CloseFn(s).backend, x)
  {
    var s := Run(Start(wires), ops);
    LeftExactly(wires, ops, x);
    SteadyRun(wires, ops, src);
    SteadyApply(s, Close, src);
    assert (ops + [Close])[..|ops|] == ops;
  }

  // ----- Two PITs that are left -----

  const THERE := Source(C.Key("config", "dev"), "https://logs:9200")

  const ID := PitId(7, 0)
  const NEXT_ID := PitId(8, 0)

  predicate FullPage(hits: seq<Hit>) { |hits| == DEFAULT_PAGE && hits[DEFAULT_PAGE - 1].sort.Some? }

  /** A full page on a PIT; then the server is unreachable. */
  function ServesOne(hits: seq<Hit>): Wire { Wire([Body(Some(ID), None, None), Body(None, None, Some(hits))], [], [], {}) }

  /** Another server, which does not know that PIT; it opens one of its own for an empty page. */
  const SERVES_ANOTHER := Wire([Status(404), Body(Some(NEXT_ID), None, None), Body(None, None, Some([]))], [], [], {})

  function FirstLog(hits: seq<Hit>): seq<Exchange> {
    [Exchange(OpenPit, Body(Some(ID), None, None)), Exchange(SearchPit(ID, None, DEFAULT_PAGE), Body(None, None, Some(hits)))]
  }

  /** After the first page: the cursor is on the PIT, a connection is cached. */
  ghost predicate OnFirstPage(s: Session, hits: seq<Hit>) {
    && s.source == Some(HERE) && s.next.Some? && s.next.value.pitId == Some(ID) && |s.lines| == DEFAULT_PAGE
    && Cached(s.backend, HERE).Some? && s.backend.refused == {} && WireOf(s.backend, HERE).answers == [] && WireOf(s.backend, HERE).live == {ID.pit}
    && Log(s.backend, HERE) == FirstLog(hits)
  }

  lemma FirstPageIsFull(wires: map<Source, Wire>, hits: seq<Hit>)
    requires FullPage(hits) && HERE in wires && wires[HERE] == ServesOne(hits)
    ensures var s := Apply(Start(wires), Reload(Some(HERE), true, None));
            OnFirstPage(s, hits) && forall src :: src != HERE ==> WireOf(s.backend, src) == WireOf(Start(wires).backend, src)
  {
    var b := LetGoFn(Start(wires)).backend;
    var a := AcquireFn(b, HERE, true).0;
    var c := ClientOf(a, HERE, 0);
    var o := OpenPitFn(c);
    assert o.client.answers == [ServesOne(hits).answers[1]];
    var page := SearchPitFn(o.client, None, ID, DEFAULT_PAGE);
    assert page.result.Ok? && page.result.value.0.next.Some?;
  }

  lemma UnreachableDropsConnection(s: Session, hits: seq<Hit>)
    requires OnFirstPage(s, hits)
    ensures var t := Apply(s, LoadOlder(Some(HERE), true, None));
            && t.source == s.source && t.next == s.next && Cached(t.backend, HERE).None?
            && WireOf(t.backend, HERE).live == {ID.pit}
            && Log(t.backend, HERE) == FirstLog(hits) + [Exchange(SearchPit(ID, Some(s.next.value.sort), DEFAULT_PAGE), Unreachable)]
            && forall src :: src != HERE ==> WireOf(t.backend, src) == WireOf(s.backend, src)
  {
    FetchIs(s.backend, HERE, true, s.next, DEFAULT_PAGE);
    var c := Talking(s.backend, HERE);
    assert NextAnswer(c) == Unreachable;
    assert SearchFn(c, s.next, DEFAULT_PAGE) == Step(SearchPitFn(c, Some(s.next.value.sort), ID, DEFAULT_PAGE).client, Err(Connect));
  }

  lemma OneServerIsSane(b: Backend, hits: seq<Hit>, sort: seq<Value>)
    requires Log(b, HERE) == FirstLog(hits) + [Exchange(SearchPit(ID, Some(sort), DEFAULT_PAGE), Unreachable)]
    requires forall src :: src != HERE ==> Log(b, src) == []
    ensures Sane(b)
  {
    assert Opens(Log(b, HERE)[0], ID.pit);
    assert OwnPits(Log(b, HERE)) && SaneAnswers(Log(b, HERE));
  }

  /** A full page, an older page that finds the server unreachable, a close: the PIT is open, and no close was ever sent. */
  lemma UnreachableLeavesPit(hits: seq<Hit>)
    requires FullPage(hits)
    ensures var ops := [Reload(Some(HERE), true, None), LoadOlder(Some(HERE), true, None), Close];
            var s := Run(Start(map[HERE := ServesOne(hits)]), ops);
            && Sane(s.backend) && IsLive(s.backend, (HERE, ID.pit)) && Held(s) == {}
            && forall x :: x in Log(s.backend, HERE) ==> !x.request.ClosePit?
  {
    var s := Start(map[HERE := ServesOne(hits)]);
    var first, older := Reload(Some(HERE), true, None), LoadOlder(Some(HERE), true, None);
    FirstPageIsFull(map[HERE := ServesOne(hits)], hits);
    UnreachableDropsConnection(Apply(s, first), hits);
    RunOfThree(s, first, older, Close);
    var t := Apply(Apply(s, first), older);
    assert Apply(t, Close).backend == t.backend;
    OneServerIsSane(t.backend, hits, Apply(s, first).next.value.sort);
  }

  /** The older page comes from another cluster; the first one's PIT stays open, with its connection still cached. */
  lemma OtherEndpointLeavesPit(hits: seq<Hit>)
    requires FullPage(hits)
    ensures var ops := [Reload(Some(HERE), true, None), LoadOlder(Some(THERE), true, None), Close];
            var s := Run(Start(map[HERE := ServesOne(hits), THERE := SERVES_ANOTHER]), ops);
            && IsLive(s.backend, (HERE, ID.pit)) && Held(s) == {} && Cached(s.backend, HERE).Some?
            && forall x :: x in Log(s.backend, HERE) ==> !x.request.ClosePit?
  {
    var wires := map[HERE := ServesOne(hits), THERE := SERVES_ANOTHER];
    var first, older := Reload(Some(HERE), true, None), LoadOlder(Some(THERE), true, None);
    FirstPageIsFull(wires, hits);
    OtherServerIsAsked(Apply(Start(wires), first), hits);
    RunOfThree(Start(wires), first, older, Close);
  }

  lemma RenewedPageIsEmpty(c: Client, cursor: Cursor)
    requires c.answers == SERVES_ANOTHER.answers && !c.noPit && cursor.pitId == Some(ID)
    ensures SearchFn(c, Some(cursor), DEFAULT_PAGE).result == Ok(Page([], None))
  {
    var s := SearchPitFn(c, Some(cursor.sort), ID, DEFAULT_PAGE);
    assert s.client.answers == c.answers[1..];
    var o := OpenPitFn(s.client);
    assert o.result == Ok(Some(NEXT_ID)) && o.client.answers == c.answers[1..][1..];
    assert NextAnswer(o.client) == c.answers[2];
    assert SearchPitFn(o.client, Some(ResumeSort(cursor.sort)), NEXT_ID, DEFAULT_PAGE).result == Ok((Page([], None), NEXT_ID));
  }

  lemma OtherServerIsAsked(s: Session, hits: seq<Hit>)
    requires OnFirstPage(s, hits) && WireOf(s.backend, THERE) == SERVES_ANOTHER
    ensures var t := Apply(Apply(s, LoadOlder(Some(THERE), true, None)), Close);
            && Held(t) == {} && WireOf(t.backend, HERE) == WireOf(s.backend, HERE) && Cached(t.backend, HERE).Some?
  {
    FetchIs(s.backend, THERE, true, s.next, DEFAULT_PAGE);
    RenewedPageIsEmpty(Talking(s.backend, THERE), s.next.value);
    assert FetchFn(s.backend, THERE, true, s.next, DEFAULT_PAGE).1 == Ok(Page([], None));
  }
}
