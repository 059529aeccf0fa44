module HistoryOverlap {
  // Requests of one log view that overlap: a reload or a close while other answers
  // are still to come. A counter tells which answers are late; what they bring is
  // released and never shown.

  import opened Prelude
  import opened HistoryTransport
  import opened HistoryCommands
  import opened HistorySession
  import opened HistoryLeaks
  import opened HistoryDiscipline

  /**
   * A request: for an older page or a reload, the generation it was made in, its
   * cursor (and where that came from), its source, and its answer once it is there.
   */
  datatype Flight = Flight(
    older: bool, generation: nat, home: Option<Source>, cursor: Option<Cursor>,
    source: Option<Source>, size: Option<nat>, answer: Option<Result<Page, Error>>)

  datatype View = View(session: Session, generation: nat, loading: bool, flights: map<nat, Flight>)

  datatype Event =
    | StartReload(id: nat, source: Option<Source>, size: Option<nat>)
    | StartOlder(id: nat, source: Option<Source>, size: Option<nat>)
    | Execute(id: nat, up: bool)
    | Deliver(id: nat)
    | CloseView
    | Others(op: Op)

  function Fetched(f: Flight): Option<Page> {
    if f.source.Some? && f.answer.Some? && f.answer.value.Ok? then Some(f.answer.value.value) else None
  }

  predicate Current(v: View, f: Flight) { f.generation == v.generation }

  /** The answer is there; without an endpoint nothing is asked for. */
  predicate Arrived(f: Flight) { f.source.None? || f.answer.Some? }

  function Started(v: View, id: nat, older: bool, source: Option<Source>, size: Option<nat>): View {
    v.(loading := true,
       flights := v.flights[id := Flight(older, v.generation, v.session.source, v.session.next, source, size, None)])
  }

  function ExecuteFn(v: View, id: nat, up: bool): View {
    if id !in v.flights || Arrived(v.flights[id]) then v else
    var f := v.flights[id];
    var (after, result) := FetchFn(v.session.backend, f.source.value, up, f.cursor, ClampSize(f.size));
    v.(session := v.session.(backend := after), flights := v.flights[id := f.(answer := Some(result))])
  }

  /** What an answer does to the session: a late page's cursor is released, at the source it came from. */
  function Delivered(v: View, f: Flight): Session {
    if Fetched(f).None? then
      (if f.source.None? && !f.older && Current(v, f) then v.session.(lines := [], next := None) else v.session)
    else if !Current(v, f) then v.session.(backend := ReleaseFn(v.session.backend, f.source, Fetched(f).value.next))
    else if f.older then ShowOlder(v.session, f.source.value, Fetched(f).value)
    else ShowFirst(v.session, f.source.value, Fetched(f).value)
  }

  function DeliverFn(v: View, id: nat): View {
    if id !in v.flights || !Arrived(v.flights[id]) then v else
    var f := v.flights[id];
    View(Delivered(v, f), v.generation, v.loading && !Current(v, f), v.flights - {id})
  }

  function Step(v: View, e: Event): View {
    match e
    case StartReload(id, source, size) =>
      if id in v.flights then v else
      Started(v.(session := LetGoFn(v.session), generation := v.generation + 1), id, false, source, size)
    case StartOlder(id, source, size) =>
      if id in v.flights || v.loading || !CanLoadOlder(v.session) then v else Started(v, id, true, source, size)
    case Execute(id, up) => ExecuteFn(v, id, up)
    case Deliver(id) => DeliverFn(v, id)
    case CloseView => v.(session := CloseFn(v.session), generation := v.generation + 1)
    case Others(op) => if op.Outside? || op.OutsideRefusal? then v.(session := Apply(v.session, op)) else v
  }

  function RunView(v: View, es: seq<Event>): View {
    if es == [] then v else Step(RunView(v, es[..|es| - 1]), es[|es| - 1])
  }

  function StartView(wires: map<Source, Wire>): View { View(Start(wires), 0, false, map[]) }

  // ----- One request at a time is the session of `HistorySession` -----

  lemma ReloadAlone(v: View, id: nat, source: Option<Source>, up: bool, size: Option<nat>)
    requires id !in v.flights
    ensures Step(Step(Step(v, StartReload(id, source, size)), Execute(id, up)), Deliver(id)) ==
              View(ReloadFn(v.session, source, up, ClampSize(size)), v.generation + 1, false, v.flights)
  {
    var one := Step(v, StartReload(id, source, size));
    var two := ExecuteFn(one, id, up);
    assert two.flights - {id} == v.flights;
    assert Current(two, two.flights[id]) && Arrived(two.flights[id]);
  }

  lemma LoadOlderAlone(v: View, id: nat, source: Option<Source>, up: bool, size: Option<nat>)
    requires id !in v.flights && !v.loading
    ensures Step(Step(Step(v, StartOlder(id, source, size)), Execute(id, up)), Deliver(id)) ==
              v.(session := LoadOlderFn(v.session, source, up, ClampSize(size)))
  {
  }

  // ----- Every interleaving: at most one request counts -----

  predicate FlightOk(v: View, f: Flight) {
    && f.generation <= v.generation && (f.cursor.Some? ==> f.home.Some?) && (!f.older ==> f.cursor.None?)
    && (Current(v, f) ==> v.loading && f.cursor == v.session.next && (f.older ==> f.cursor.Some? && f.home == v.session.source))
  }

  ghost predicate Consistent(v: View) {
    && (v.session.next.Some? ==> v.session.source.Some?)
    && (forall id :: id in v.flights ==> FlightOk(v, v.flights[id]))
    && (forall id, id' :: id in v.flights && id' in v.flights && Current(v, v.flights[id]) && Current(v, v.flights[id']) ==> id == id')
  }

  lemma StepConsistent(v: View, e: Event)
    requires Consistent(v)
    ensures Consistent(Step(v, e))
  {
  }

  // ----- What is shown: the pages of one search -----

  /** A page and the cursor it was asked for with. */
  type Asked = (Option<Cursor>, Page)

  /** The pages shown since the last reload, in the order they came. */
  function Pages(v: View, es: seq<Event>): seq<Asked> {
    if es == [] then [] else Turned(RunView(v, es[..|es| - 1]), Pages(v, es[..|es| - 1]), es[|es| - 1])
  }

  function Turned(v: View, pages: seq<Asked>, e: Event): seq<Asked> {
    if !(e.Deliver? && e.id in v.flights && Arrived(v.flights[e.id]) && Current(v, v.flights[e.id])) then pages else
    var f := v.flights[e.id];
    if Fetched(f).None? then (if f.source.None? && !f.older then [] else pages)
    else if f.older then pages + [(f.cursor, Fetched(f).value)]
    else [(f.cursor, Fetched(f).value)]
  }

  /** The first page of a search, and each next one asked for with the cursor of the one before. */
  ghost predicate Linked(pages: seq<Asked>) {
    && (pages != [] ==> pages[0].0.None?)
    && forall k :: 0 < k < |pages| ==> pages[k].0.Some? && pages[k].0 == pages[k - 1].1.next
  }

  /** What pages shown one after the other come to: the lines, and the keys seen. */
  function Lines(pages: seq<Asked>): (seq<Hit>, set<string>) {
    if pages == [] then ([], {}) else
    var page := pages[|pages| - 1].1;
    if |pages| == 1 then (page.lines, RememberAll(page.lines, {})) else
    var (lines, seen) := Lines(pages[..|pages| - 1]);
    var unseen := Unseen(page.lines, seen);
    var kept := unseen[..Min(|unseen|, if |lines| <= HISTORY_CAP then HISTORY_CAP - |lines| else 0)];
    (lines + kept, RememberAll(kept, seen))
  }

  /** The lines are those of the pages, and the cursor is the last page's. */
  ghost predicate ShowsPages(v: View, pages: seq<Asked>) {
    && Linked(pages) && v.session.lines == Lines(pages).0 && (pages != [] ==> v.session.seen == Lines(pages).1)
    && (v.session.next.Some? ==> pages != [] && v.session.next == pages[|pages| - 1].1.next)
  }

  lemma PageTurns(s: Session, src: Source, pages: seq<Asked>, cursor: Option<Cursor>, page: Page)
    requires pages != [] && Linked(pages) && cursor.Some? && cursor == pages[|pages| - 1].1.next
    requires s.lines == Lines(pages).0 && s.seen == Lines(pages).1
    ensures var t, more := ShowOlder(s, src, page), pages + [(cursor, page)];
            && Linked(more) && t.lines == Lines(more).0 && t.seen == Lines(more).1 && (t.next.Some? ==> t.next == page.next)
  {
    var more := pages + [(cursor, page)];
    assert more[..|pages|] == pages;
  }

  lemma StepShowsPages(v: View, pages: seq<Asked>, e: Event)
    requires Consistent(v) && ShowsPages(v, pages)
    ensures ShowsPages(Step(v, e), Turned(v, pages, e))
  {
    if e.Deliver? && e.id in v.flights && Arrived(v.flights[e.id]) {
      var f := v.flights[e.id];
      if Current(v, f) && Fetched(f).Some? && f.older {
        PageTurns(v.session, f.source.value, pages, f.cursor, Fetched(f).value);
      }
    }
  }

  lemma {:induction false} RunConsistent(wires: map<Source, Wire>, es: seq<Event>)
    ensures Consistent(RunView(StartView(wires), es))
  {
    if es != [] {
      RunConsistent(wires, es[..|es| - 1]);
      StepConsistent(RunView(StartView(wires), es[..|es| - 1]), es[|es| - 1]);
    }
  }

  /**
   * In every interleaving of requests and their answers the lines are those of
   * one search: its first page, and older pages each asked for with the cursor of
   * the page before. Late answers add nothing, and no page of a search follows
   * one of another.
   */
  lemma {:induction false} LinesAreOfOneSearch(wires: map<Source, Wire>, es: seq<Event>)
    ensures ShowsPages(RunView(StartView(wires), es), Pages(StartView(wires), es))
  {
    if es != [] {
      var before := es[..|es| - 1];
      LinesAreOfOneSearch(wires, before);
      RunConsistent(wires, before);
      StepShowsPages(RunView(StartView(wires), before), Pages(StartView(wires), before), es[|es| - 1]);
    }
  }

  // ----- Which PITs are left -----

  /** The PITs of an answer that is not delivered yet. */
  function Brings(f: Flight): set<Pit> { if Fetched(f).Some? then HeldBy(f.source, Fetched(f).value.next) else {} }

  /** The older page that was asked for is there, from where its cursor came: it has what the cursor held. */
  predicate Supersedes(v: View, f: Flight) { Current(v, f) && f.older && Fetched(f).Some? && f.source == v.session.source }

  /** What the cursor of the view holds, or an answer brings. */
  ghost predicate Tracked(v: View, x: Pit) {
    || (x in Held(v.session) && forall id :: id in v.flights ==> !Supersedes(v, v.flights[id]))
    || exists id :: id in v.flights && x in Brings(v.flights[id])
  }

  /** The page that came is not the view's: it is late, or the cap is met. */
  predicate Releases(v: View, f: Flight)
    requires Fetched(f).Some?
  {
    !Current(v, f) || Delivered(v, f).next != Fetched(f).value.next
  }

  function LiveOf(b: Backend, pits: set<Pit>): set<Pit> { set x | x in pits && IsLive(b, x) }

  /** What is let go of with no connection cached for it, or left on another endpoint. */
  function DroppedBy(v: View, e: Event): set<Pit> {
    match e
    case StartReload(id, _, _) => if id !in v.flights && Unreleasable(v.session) then LiveHeld(v.session) else {}
    case CloseView => if Unreleasable(v.session) then LiveHeld(v.session) else {}
    case Deliver(id) =>
      if !(id in v.flights && Fetched(v.flights[id]).Some?) then {} else
      var f := v.flights[id];
      (if Current(v, f) && f.older && f.source != v.session.source then LiveHeld(v.session) else {})
      + (if Releases(v, f) && Cached(v.session.backend, f.source.value).None? then LiveOf(v.session.backend, Brings(f)) else {})
    case _ => {}
  }

  /** What is dropped is open then. */
  lemma DroppedIsOpen(v: View, e: Event, x: Pit)
    requires Consistent(v) && LiveOpened(v.session.backend) && x in DroppedBy(v, e)
    ensures IsLive(Step(v, e).session.backend, x)
  {
    match e {
      case StartReload(_, _, _) => ReleaseAccounts(v.session.backend, v.session.source, v.session.next);
      case CloseView => ReleaseAccounts(v.session.backend, v.session.source, v.session.next);
      case Deliver(id) => ReleaseAccounts(v.session.backend, v.flights[id].source, Fetched(v.flights[id]).value.next);
      case _ =>
    }
  }

  function Dropped(v: View, es: seq<Event>): set<Pit> {
    if es == [] then {} else Dropped(v, es[..|es| - 1]) + DroppedBy(RunView(v, es[..|es| - 1]), es[|es| - 1])
  }

  ghost predicate KnownPits(v: View) {
    && LiveOpened(v.session.backend) && AllOpened(v.session.backend, Held(v.session))
    && forall id :: id in v.flights ==> FlightKnown(v.session.backend, v.flights[id])
  }

  ghost predicate FlightKnown(b: Backend, f: Flight) { AllOpened(b, HeldBy(f.home, f.cursor)) && AllOpened(b, Brings(f)) }

  ghost predicate AllTracked(v: View, dropped: set<Pit>) {
    forall x: Pit :: IsLive(v.session.backend, x) ==> Tracked(v, x) || x in dropped
  }

  lemma FlightStaysKnown(b: Backend, after: Backend, f: Flight)
    requires LogsGrow(b, after) && FlightKnown(b, f)
    ensures FlightKnown(after, f)
  {
    AllOpenedStay(b, after, HeldBy(f.home, f.cursor));
    AllOpenedStay(b, after, Brings(f));
  }

  lemma FlightsStayKnown(v: View, after: Backend)
    requires KnownPits(v) && LogsGrow(v.session.backend, after)
    ensures forall id :: id in v.flights ==> FlightKnown(after, v.flights[id])
    ensures AllOpened(after, Held(v.session))
  {
    AllOpenedStay(v.session.backend, after, Held(v.session));
    forall id | id in v.flights
      ensures FlightKnown(after, v.flights[id])
    {
      FlightStaysKnown(v.session.backend, after, v.flights[id]);
    }
  }

  /** A request is executed. */
  lemma ExecuteTracked(v: View, dropped: set<Pit>, id: nat, up: bool)
    requires Consistent(v) && KnownPits(v) && AllTracked(v, dropped) && Sane(ExecuteFn(v, id, up).session.backend)
    ensures KnownPits(ExecuteFn(v, id, up)) && AllTracked(ExecuteFn(v, id, up), dropped)
  {
    if id in v.flights && !Arrived(v.flights[id]) {
      var f, b := v.flights[id], v.session.backend;
      FetchAccounts(b, f.source.value, up, f.home, f.cursor, ClampSize(f.size));
      FetchAppends(b, f.source.value, up, f.cursor, ClampSize(f.size));
      var w := ExecuteFn(v, id, up);
      FlightsStayKnown(v, w.session.backend);
      assert Brings(w.flights[id]) == PageHolds(f.source.value, w.flights[id].answer.value);
      forall x: Pit | IsLive(w.session.backend, x)
        ensures Tracked(w, x) || x in dropped
      {
        ExecutedPit(v, dropped, id, w, x);
      }
    }
  }

  lemma ExecutedPit(v: View, dropped: set<Pit>, id: nat, w: View, x: Pit)
    requires Consistent(v) && AllTracked(v, dropped) && id in v.flights && !Arrived(v.flights[id]) && w == v.(session := w.session, flights := w.flights)
    requires w.session == v.session.(backend := w.session.backend)
    requires w.flights.Keys == v.flights.Keys && w.flights[id] == v.flights[id].(answer := w.flights[id].answer)
    requires forall other :: other in v.flights && other != id ==> w.flights[other] == v.flights[other]
    requires var f := w.flights[id];
             Accounts(v.session.backend, w.session.backend, HeldBy(f.home, f.cursor), Brings(f), Fetched(f).Some? && f.home == f.source)
    requires IsLive(w.session.backend, x)
    ensures Tracked(w, x) || x in dropped
  {
    if x !in Brings(w.flights[id]) && x !in dropped {
      assert IsLive(v.session.backend, x) && Tracked(v, x);
      if other :| other in v.flights && x in Brings(v.flights[other]) {
        assert x in Brings(w.flights[other]);
      } else {
        forall other | other in w.flights
          ensures !Supersedes(w, w.flights[other])
        {
          assert other != id ==> !Supersedes(v, v.flights[other]);
        }
      }
    }
  }

  /** The cursor is let go of, and what is still to come is late from now on. */
  lemma LetGoTracked(v: View, dropped: set<Pit>, w: View)
    requires KnownPits(v) && AllTracked(v, dropped)
    requires w.session == LetGoFn(v.session) && (forall id :: id in v.flights ==> id in w.flights && w.flights[id] == v.flights[id])
    requires forall id :: id in w.flights && id !in v.flights ==> w.flights[id].cursor.None? && w.flights[id].answer.None?
    ensures KnownPits(w) && AllTracked(w, dropped + if Unreleasable(v.session) then LiveHeld(v.session) else {})
  {
    ReleaseAccounts(v.session.backend, v.session.source, v.session.next);
    FlightsStayKnown(v, w.session.backend);
    forall x: Pit | IsLive(w.session.backend, x)
      ensures Tracked(w, x) || x in dropped || (Unreleasable(v.session) && x in LiveHeld(v.session))
    {
      assert IsLive(v.session.backend, x);
      if id :| id in v.flights && x in Brings(v.flights[id]) {
        assert x in Brings(w.flights[id]);
      }
    }
  }

  /** A late page, or one beyond the cap, is released. */
  lemma BroughtIsReleased(b: Backend, f: Flight, x: Pit)
    requires LiveOpened(b) && Fetched(f).Some? && IsLive(ReleaseFn(b, f.source, Fetched(f).value.next), x)
    ensures IsLive(b, x)
    ensures x in Brings(f) ==> Cached(b, f.source.value).None?
  {
    ReleaseAccounts(b, f.source, Fetched(f).value.next);
  }

  lemma DeliverLogs(v: View, f: Flight)
    ensures LogsGrow(v.session.backend, Delivered(v, f).backend)
  {
    if Fetched(f).Some? {
      ReleaseAppends(v.session.backend, f.source, Fetched(f).value.next);
    }
  }

  /** What is open after an answer was open before; and no longer if the answer brought it and it is released. */
  lemma DeliveredLive(v: View, f: Flight, x: Pit)
    requires LiveOpened(v.session.backend) && IsLive(Delivered(v, f).backend, x)
    ensures IsLive(v.session.backend, x)
    ensures x in Brings(f) && !(Current(v, f) && x in Held(Delivered(v, f))) ==> Cached(v.session.backend, f.source.value).None?
  {
    if Fetched(f).Some? && IsLive(ReleaseFn(v.session.backend, f.source, Fetched(f).value.next), x) {
      BroughtIsReleased(v.session.backend, f, x);
    }
  }

  /** What the view held is still held, or the answer has it, or it is left on another endpoint. */
  lemma DeliveredHeld(v: View, f: Flight, x: Pit)
    requires Consistent(v) && FlightOk(v, f) && Arrived(f) && x in Held(v.session) && x !in Held(Delivered(v, f))
    ensures Current(v, f) && f.older && Fetched(f).Some?
  {
  }

  lemma DeliverKnown(v: View, id: nat)
    requires Consistent(v) && KnownPits(v) && id in v.flights && Arrived(v.flights[id])
    ensures KnownPits(DeliverFn(v, id))
  {
    var f, w := v.flights[id], DeliverFn(v, id);
    DeliverLogs(v, f);
    FlightsStayKnown(v, w.session.backend);
    forall x: Pit | IsLive(w.session.backend, x)
      ensures Opened(w.session.backend, x)
    {
      DeliveredLive(v, f, x);
      OpenedStays(v.session.backend, w.session.backend, x);
    }
    assert Held(w.session) <= Held(v.session) + Brings(f);
  }

  /** What the view or the answer had, and is not dropped, the view has. */
  lemma KeptPit(v: View, id: nat, x: Pit)
    requires Consistent(v) && LiveOpened(v.session.backend) && id in v.flights && Arrived(v.flights[id])
    requires IsLive(Delivered(v, v.flights[id]).backend, x) && x !in DroppedBy(v, Deliver(id))
    requires x in Brings(v.flights[id]) || (x in Held(v.session) && !Supersedes(v, v.flights[id]))
    ensures x in Held(Delivered(v, v.flights[id])) && (x in Brings(v.flights[id]) ==> Current(v, v.flights[id]))
  {
    var f := v.flights[id];
    DeliveredLive(v, f, x);
    if x !in Brings(f) && x !in Held(Delivered(v, f)) {
      DeliveredHeld(v, f, x);
    }
  }

  /** Then no other answer supersedes it. */
  lemma NothingSupersedes(v: View, id: nat)
    requires Consistent(v) && id in v.flights && Arrived(v.flights[id])
    requires Current(v, v.flights[id]) || forall other :: other in v.flights ==> !Supersedes(v, v.flights[other])
    ensures var w := DeliverFn(v, id); forall other :: other in w.flights ==> !Supersedes(w, w.flights[other])
  {
    assert !Current(v, v.flights[id]) ==> DeliverFn(v, id).session.source == v.session.source;
  }

  lemma DeliveredPit(v: View, dropped: set<Pit>, id: nat, x: Pit)
    requires Consistent(v) && KnownPits(v) && AllTracked(v, dropped) && id in v.flights && Arrived(v.flights[id])
    requires IsLive(DeliverFn(v, id).session.backend, x) && x !in dropped + DroppedBy(v, Deliver(id))
    ensures Tracked(DeliverFn(v, id), x)
  {
    var w := DeliverFn(v, id);
    DeliveredLive(v, v.flights[id], x);
    assert Tracked(v, x);
    assert forall other :: other in v.flights && other != id ==> other in w.flights && w.flights[other] == v.flights[other];
    if forall other :: other in w.flights ==> x !in Brings(w.flights[other]) {
      KeptPit(v, id, x);
      NothingSupersedes(v, id);
    }
  }

  lemma DeliverTracked(v: View, dropped: set<Pit>, id: nat)
    requires Consistent(v) && KnownPits(v) && AllTracked(v, dropped)
    ensures KnownPits(DeliverFn(v, id)) && AllTracked(DeliverFn(v, id), dropped + DroppedBy(v, Deliver(id)))
  {
    if id in v.flights && Arrived(v.flights[id]) {
      DeliverKnown(v, id);
      forall x: Pit | IsLive(DeliverFn(v, id).session.backend, x)
        ensures Tracked(DeliverFn(v, id), x) || x in dropped + DroppedBy(v, Deliver(id))
      {
        if x !in dropped + DroppedBy(v, Deliver(id)) {
          DeliveredPit(v, dropped, id, x);
        }
      }
    }
  }

  lemma StartOlderTracked(v: View, dropped: set<Pit>, id: nat, source: Option<Source>, size: Option<nat>)
    requires Consistent(v) && KnownPits(v) && AllTracked(v, dropped)
    ensures KnownPits(Step(v, StartOlder(id, source, size))) && AllTracked(Step(v, StartOlder(id, source, size)), dropped)
  {
    var w := Step(v, StartOlder(id, source, size));
    forall x: Pit | IsLive(w.session.backend, x)
      ensures Tracked(w, x) || x in dropped
    {
      if other :| other in v.flights && x in Brings(v.flights[other]) {
        assert w == v || w.flights[other] == v.flights[other];
      }
    }
  }

  /** Others change no server of ours. */
  lemma OthersTracked(v: View, dropped: set<Pit>, op: Op)
    requires KnownPits(v) && AllTracked(v, dropped)
    ensures KnownPits(Step(v, Others(op))) && AllTracked(Step(v, Others(op)), dropped)
  {
    var w := Step(v, Others(op));
    assert forall src :: WireOf(w.session.backend, src) == WireOf(v.session.backend, src);
    FlightsStayKnown(v, w.session.backend);
    forall x: Pit | IsLive(w.session.backend, x)
      ensures Opened(w.session.backend, x)
    {
      OpenedStays(v.session.backend, w.session.backend, x);
    }
    assert forall x :: Tracked(v, x) ==> Tracked(w, x);
  }

  lemma StepTracked(v: View, dropped: set<Pit>, e: Event)
    requires Consistent(v) && KnownPits(v) && AllTracked(v, dropped) && Sane(Step(v, e).session.backend)
    ensures KnownPits(Step(v, e)) && AllTracked(Step(v, e), dropped + DroppedBy(v, e))
  {
    match e {
      case StartReload(id, _, _) =>
        if id !in v.flights {
          LetGoTracked(v, dropped, Step(v, e));
        }
      case StartOlder(id, source, size) => StartOlderTracked(v, dropped, id, source, size);
      case Execute(id, up) => ExecuteTracked(v, dropped, id, up);
      case Deliver(id) => DeliverTracked(v, dropped, id);
      case CloseView => LetGoTracked(v, dropped, Step(v, e));
      case Others(op) => OthersTracked(v, dropped, op);
    }
  }

  lemma StepAppends(v: View, e: Event)
    ensures LogsGrow(v.session.backend, Step(v, e).session.backend)
  {
    match e {
      case StartReload(_, _, _) => ReleaseAppends(v.session.backend, v.session.source, v.session.next);
      case StartOlder(_, _, _) =>
      case Execute(id, up) =>
        if id in v.flights && !Arrived(v.flights[id]) {
          var f := v.flights[id];
          FetchAppends(v.session.backend, f.source.value, up, f.cursor, ClampSize(f.size));
        }
      case Deliver(id) =>
        if id in v.flights && Arrived(v.flights[id]) {
          DeliverLogs(v, v.flights[id]);
        }
      case CloseView => ReleaseAppends(v.session.backend, v.session.source, v.session.next);
      case Others(op) => ApplyAppends(v.session, op);
    }
  }

  lemma {:induction false} RunTracked(wires: map<Source, Wire>, es: seq<Event>)
    requires Untouched(wires) && Sane(RunView(StartView(wires), es).session.backend)
    ensures KnownPits(RunView(StartView(wires), es)) && AllTracked(RunView(StartView(wires), es), Dropped(StartView(wires), es))
  {
    if es != [] {
      var before := es[..|es| - 1];
      var v := RunView(StartView(wires), before);
      StepAppends(v, es[|es| - 1]);
      SaneBefore(v.session.backend, RunView(StartView(wires), es).session.backend);
      RunConsistent(wires, before);
      RunTracked(wires, before);
      StepTracked(v, Dropped(StartView(wires), before), es[|es| - 1]);
    }
  }

  /**
   * In every interleaving, with connections lost and endpoints changed: an open
   * PIT is the view's own, or one that an answer still to come brings, or was let
   * go of with no connection cached for it or left on another endpoint. When the
   * view is closed and all answers are there, only those are left.
   */
  lemma {:induction false} OverlapLeavesOnlyDropped(wires: map<Source, Wire>, es: seq<Event>, x: Pit)
    requires Untouched(wires) && Sane(RunView(StartView(wires), es).session.backend)
    requires IsLive(RunView(StartView(wires), es).session.backend, x)
    ensures var v := RunView(StartView(wires), es);
            && (Tracked(v, x) || x in Dropped(StartView(wires), es))
            && (v.flights == map[] && v.session.next.None? ==> x in Dropped(StartView(wires), es))
  {
    RunTracked(wires, es);
  }

  // ----- Without lost connections and changes of endpoint -----

  ghost predicate SteadyView(v: View, es: seq<Event>, src: Source) {
    es != [] ==>
      SteadyView(v, es[..|es| - 1], src) && SteadyEvent(RunView(v, es[..|es| - 1]), es[|es| - 1], src)
  }

  predicate SteadyEvent(v: View, e: Event, src: Source) {
    match e
    case StartReload(_, source, _) => source.Some? ==> source.value == src
    case StartOlder(_, source, _) => source.Some? ==> source.value == src
    case Execute(id, up) =>
      id in v.flights && !Arrived(v.flights[id]) ==>
        var f := v.flights[id];
        FetchFn(v.session.backend, f.source.value, up, f.cursor, ClampSize(f.size)).1 != Err(Connect)
    case Deliver(_) => true
    case CloseView => true
    case Others(_) => false
  }

  /** All is from `src`, and once a page came a connection to it is cached. */
  ghost predicate AllFrom(v: View, src: Source) {
    && (v.session.next.Some? ==> v.session.source == Some(src) && Cached(v.session.backend, src).Some?)
    && forall id :: id in v.flights ==>
         var f := v.flights[id];
         (f.source.Some? ==> f.source.value == src) && (Fetched(f).Some? ==> Cached(v.session.backend, src).Some?)
  }

  lemma ReleaseKeepsCached(b: Backend, source: Option<Source>, cursor: Option<Cursor>, src: Source)
    ensures Cached(ReleaseFn(b, source, cursor), src) == Cached(b, src)
  {
    ReleaseIs(b, source, cursor);
  }

  lemma SteadyStep(v: View, e: Event, src: Source)
    requires Consistent(v) && AllFrom(v, src) && SteadyEvent(v, e, src)
    ensures AllFrom(Step(v, e), src) && DroppedBy(v, e) == {}
  {
    match e {
      case StartReload(_, _, _) => ReleaseKeepsCached(v.session.backend, v.session.source, v.session.next, src);
      case StartOlder(_, _, _) =>
      case Execute(id, up) =>
        if id in v.flights && !Arrived(v.flights[id]) {
          var f := v.flights[id];
          FetchCaches(v.session.backend, src, up, f.cursor, ClampSize(f.size));
        }
      case Deliver(id) =>
        if id in v.flights && Fetched(v.flights[id]).Some? {
          ReleaseKeepsCached(v.session.backend, v.flights[id].source, Fetched(v.flights[id]).value.next, src);
        }
      case CloseView => ReleaseKeepsCached(v.session.backend, v.session.source, v.session.next, src);
    }
  }

  lemma {:induction false} SteadyDropsNothing(wires: map<Source, Wire>, es: seq<Event>, src: Source)
    requires SteadyView(StartView(wires), es, src)
    ensures AllFrom(RunView(StartView(wires), es), src) && Dropped(StartView(wires), es) == {}
  {
    if es != [] {
      SteadyDropsNothing(wires, es[..|es| - 1], src);
      RunConsistent(wires, es[..|es| - 1]);
      SteadyStep(RunView(StartView(wires), es[..|es| - 1]), es[|es| - 1], src);
    }
  }

  /** Then, however requests overlap, nothing is left when the view is closed and all answers are there. */
  lemma {:induction false} OverlapLeavesNoPit(wires: map<Source, Wire>, es: seq<Event>, src: Source, x: Pit)
    requires Untouched(wires) && Sane(RunView(StartView(wires), es).session.backend) && SteadyView(StartView(wires), es, src)
    ensures var v := RunView(StartView(wires), es);
            && (IsLive(v.session.backend, x) ==> Tracked(v, x))
            && (v.flights == map[] && v.session.next.None? ==> !IsLive(v.session.backend, x))
  {
    RunTracked(wires, es);
    SteadyDropsNothing(wires, es, src);
  }

  // ----- What is never asked for -----

  predicate FitCursor(cursor: Option<Cursor>) { cursor.Some? ==> WellFormedCursor(cursor.value) }

  predicate FlightFits(f: Flight) { FitCursor(f.cursor) && (Fetched(f).Some? ==> FitCursor(Fetched(f).value.next)) }

  ghost predicate ViewDisciplined(v: View, faithful: bool) {
    && AllDisciplined(v.session.backend, faithful)
    && (faithful ==> FitCursor(v.session.next) && forall id :: id in v.flights ==> FlightFits(v.flights[id]))
  }

  lemma ExecuteDisciplined(v: View, id: nat, up: bool, faithful: bool)
    requires ViewDisciplined(v, faithful) && (faithful ==> Faithful(ExecuteFn(v, id, up).session.backend))
    ensures ViewDisciplined(ExecuteFn(v, id, up), faithful)
  {
    if id in v.flights && !Arrived(v.flights[id]) {
      var f := v.flights[id];
      FetchDisciplined(v.session.backend, f.source.value, up, f.cursor, ClampSize(f.size), faithful);
    }
  }

  lemma DeliverDisciplined(v: View, id: nat, faithful: bool)
    requires ViewDisciplined(v, faithful)
    ensures ViewDisciplined(DeliverFn(v, id), faithful)
  {
    if id in v.flights && Fetched(v.flights[id]).Some? {
      ReleaseDisciplined(v.session.backend, v.flights[id].source, Fetched(v.flights[id]).value.next, faithful);
    }
  }

  lemma OverlapStepDisciplined(v: View, e: Event, faithful: bool)
    requires ViewDisciplined(v, faithful) && (faithful ==> Faithful(Step(v, e).session.backend))
    ensures ViewDisciplined(Step(v, e), faithful)
  {
    match e {
      case StartReload(_, _, _) => ReleaseDisciplined(v.session.backend, v.session.source, v.session.next, faithful);
      case StartOlder(_, _, _) =>
      case Execute(id, up) => ExecuteDisciplined(v, id, up, faithful);
      case Deliver(id) => DeliverDisciplined(v, id, faithful);
      case CloseView => ReleaseDisciplined(v.session.backend, v.session.source, v.session.next, faithful);
      case Others(op) =>
        if op.Outside? || op.OutsideRefusal? {
          ApplyDisciplined(v.session, op, faithful);
        }
    }
  }

  lemma {:induction false} RunViewDisciplined(wires: map<Source, Wire>, es: seq<Event>, faithful: bool)
    requires Untouched(wires) && (faithful ==> Faithful(RunView(StartView(wires), es).session.backend))
    ensures ViewDisciplined(RunView(StartView(wires), es), faithful)
  {
    if es != [] {
      var v, e := RunView(StartView(wires), es[..|es| - 1]), es[|es| - 1];
      if faithful {
        StepAppends(v, e);
        FaithfulBefore(v.session.backend, Step(v, e).session.backend);
      }
      RunViewDisciplined(wires, es[..|es| - 1], faithful);
      OverlapStepDisciplined(v, e, faithful);
    }
  }

  /** However requests overlap: on no connection is a PIT opened after a refusal, and every `search_after` fits its sort clause. */
  lemma OverlapDisciplined(wires: map<Source, Wire>, es: seq<Event>, src: Source)
    requires Untouched(wires)
    ensures var b := RunView(StartView(wires), es).session.backend;
            OneRefusal(WireOf(b, src)) && (Faithful(b) ==> WellFormedLog(Log(b, src)))
  {
    var b := RunView(StartView(wires), es).session.backend;
    RunViewDisciplined(wires, es, false);
    assert WireDisciplined(b, WireOf(b, src), false);
    if Faithful(b) {
      RunViewDisciplined(wires, es, true);
      assert WireDisciplined(b, WireOf(b, src), true);
    }
  }
}
