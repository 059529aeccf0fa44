module HistoryTransport {
  // One page of Elasticsearch log history (`EsConnection::search`): open a point
  // in time (PIT), page on it with `search_after`, resume on a new PIT when the
  // old one expired, fall back to plain paging, close what is not needed.
  //
  // The network is an arbitrary finite list of answers: one is consumed by every
  // request, and a server whose answers ran out is unreachable. Every exchange is
  // logged, so that lifecycle properties can be stated over whole runs.

  import opened Prelude

  // ----- Data model -----

  /** A JSON sort value. */
  datatype Value = Null | Num(n: int)

  /**
   * A point-in-time id. Elasticsearch may spell the id of one PIT differently
   * in every response: `pit` names the server's PIT, `revision` the spelling.
   */
  datatype PitId = PitId(pit: nat, revision: nat)

  datatype Cursor = Cursor(pitId: Option<PitId>, sort: seq<Value>)

  datatype Hit = Hit(docIndex: Option<string>, docId: Option<string>, sort: Option<seq<Value>>)

  datatype Page = Page(lines: seq<Hit>, next: Option<Cursor>)

  datatype Error = Config | Connect | Http(status: nat) | Response

  datatype Request =
    | OpenPit
    | SearchPit(id: PitId, after: Option<seq<Value>>, size: nat)
    | SearchPlain(after: Option<seq<Value>>, size: nat)
    | ClosePit(id: PitId)

  type ErrorStatus = n: nat | !(200 <= n < 300) witness 404

  /** What a request gives: a JSON body, or one of the failures `send` tells apart. */
  datatype Answer =
    | BadCredentials
    | Unreachable
    | Status(code: ErrorStatus)
    | NotJson
    | Body(id: Option<PitId>, pitId: Option<PitId>, hits: Option<seq<Hit>>)

  datatype Exchange = Exchange(request: Request, answer: Answer)

  /**
   * A connection, what is left of the network's answers, and two history
   * variables: every exchange so far, and the PITs the server may still hold
   * after them.
   */
  datatype Client = Client(noPit: bool, answers: seq<Answer>, log: seq<Exchange>, live: set<nat>)

  datatype Step<+T> = Step(client: Client, result: Result<T, Error>)

  const I64_MAX: int := 0x7fff_ffff_ffff_ffff
  const DEFAULT_PAGE: nat := 500
  const MAX_PAGE: nat := 1000
  const NO_PIT_STATUSES: set<nat> := {400, 403, 404, 405}

  function ClampSize(size: Option<nat>): (n: nat)
    ensures 1 <= n <= MAX_PAGE
  {
    var wanted := if size.Some? then size.value else DEFAULT_PAGE;
    if wanted < 1 then 1 else if wanted > MAX_PAGE then MAX_PAGE else wanted
  }

  /** `search_after` that resumes on a new PIT at the boundary timestamp. */
  function ResumeSort(sort: seq<Value>): seq<Value> {
    [if sort == [] then Null else sort[0], Num(I64_MAX)]
  }

  // ----- What the log says -----

  /** PITs the server may still hold: opened, not closed, not reported gone. */
  function LiveStep(live: set<nat>, x: Exchange): set<nat> {
    match x.request
    case OpenPit => if x.answer.Body? && x.answer.id.Some? then live + {x.answer.id.value.pit} else live
    case ClosePit(id) => live - {id.pit}
    case SearchPit(id, _, _) => if x.answer == Status(404) then live - {id.pit} else live
    case SearchPlain(_, _) => live
  }

  function Carried(cursor: Option<Cursor>): set<nat> {
    if cursor.Some? && cursor.value.pitId.Some? then {cursor.value.pitId.value.pit} else {}
  }

  /** A search on a PIT is answered with an id of that PIT. */
  predicate SamePit(x: Exchange) {
    x.request.SearchPit? && x.answer.Body? && x.answer.pitId.Some? ==> x.answer.pitId.value.pit == x.request.id.pit
  }

  /** The server says it has no PIT for this connection. */
  predicate Refusal(x: Exchange) {
    match x.request
    case OpenPit => if x.answer.Body? then x.answer.id.None? else x.answer.Status? && x.answer.code in NO_PIT_STATUSES
    case SearchPit(_, after, _) => after.None? && x.answer == Status(400)
    case _ => false
  }

  /** Number of values in the sort clause of a search. */
  function SortArity(r: Request): nat { if r.SearchPit? then 2 else 3 }

  /** Hits carry one value per sort clause, and only PIT searches answer a PIT id. */
  predicate FaithfulSort(x: Exchange) {
    && ((x.request.SearchPit? || x.request.SearchPlain?) && x.answer.Body? && x.answer.hits.Some?
        ==> forall h :: h in x.answer.hits.value && h.sort.Some? ==> |h.sort.value| == SortArity(x.request))
    && (x.request.SearchPlain? && x.answer.Body? ==> x.answer.pitId.None?)
  }

  /** `search_after` has as many values as the sort clause it goes with. */
  predicate WellFormedRequest(r: Request) {
    (r.SearchPit? || r.SearchPlain?) && r.after.Some? ==> |r.after.value| == SortArity(r)
  }

  predicate WellFormedCursor(c: Cursor) {
    |c.sort| == if c.pitId.Some? then 2 else 3
  }

  // ----- The client, as state transformers -----

  function NextAnswer(c: Client): Answer {
    if c.answers == [] then Unreachable else c.answers[0]
  }

  function Send(c: Client, r: Request): (s: Step<Answer>)
    ensures s.result.Ok? ==> s.result.value.Body?
  {
    var a := NextAnswer(c);
    var x := Exchange(r, a);
    var after := c.(answers := if c.answers == [] then [] else c.answers[1..],
                    log := c.log + [x],
                    live := LiveStep(c.live, x));
    Step(after, match a
                case BadCredentials => Err(Config)
                case Unreachable => Err(Connect)
                case Status(code) => Err(Http(code))
                case NotJson => Err(Response)
                case Body(_, _, _) => Ok(a))
  }

  function MapResponse(body: Answer, size: nat): Result<Page, Error>
    requires body.Body? && size >= 1
  {
    if body.hits.None? then Err(Response) else
    var hits := body.hits.value;
    var next := if |hits| >= size && hits[|hits| - 1].sort.Some?
                then Some(Cursor(body.pitId, hits[|hits| - 1].sort.value)) else None;
    Ok(Page(hits, next))
  }

  function ClosePitFn(c: Client, id: PitId): Client { Send(c, ClosePit(id)).client }

  function CloseCursorFn(c: Client, cursor: Option<Cursor>): Client {
    if cursor.Some? && cursor.value.pitId.Some? then ClosePitFn(c, cursor.value.pitId.value) else c
  }

  function OpenPitFn(c: Client): Step<Option<PitId>> {
    if c.noPit then Step(c, Ok(None)) else
    var s := Send(c, OpenPit);
    match s.result
    case Ok(body) => Step(s.client.(noPit := body.id.None?), Ok(body.id))
    case Err(Http(status)) =>
      if status in NO_PIT_STATUSES then Step(s.client.(noPit := true), Ok(None)) else Step(s.client, Ok(None))
    case Err(Connect) => Step(s.client, Err(Connect))
    case Err(_) => Step(s.client, Ok(None))
  }

  function SearchPlainFn(c: Client, after: Option<seq<Value>>, size: nat): Step<Page>
    requires size >= 1
  {
    var s := Send(c, SearchPlain(after, size));
    match s.result
    case Ok(body) => Step(s.client, MapResponse(body, size))
    case Err(e) => Step(s.client, Err(e))
  }

  function SearchPitFn(c: Client, after: Option<seq<Value>>, pit: PitId, size: nat): Step<(Page, PitId)>
    requires size >= 1
  {
    var s := Send(c, SearchPit(pit, after, size));
    match s.result
    case Err(e) => Step(s.client, Err(e))
    case Ok(body) =>
      var latest := if body.pitId.Some? then body.pitId.value else pit;
      match MapResponse(body, size)
      case Err(e) => Step(s.client, Err(e))
      case Ok(page) =>
        var next := if page.next.Some? then Some(page.next.value.(pitId := Some(latest))) else None;
        Step(s.client, Ok((page.(next := next), latest)))
  }

  function SettleFn(s: Step<(Page, PitId)>, mine: Option<PitId>): Step<Page> {
    match s.result
    case Ok((page, latest)) =>
      Step(if page.next.None? then ClosePitFn(s.client, latest) else s.client, Ok(page))
    case Err(e) =>
      Step(if mine.Some? then ClosePitFn(s.client, mine.value) else s.client, Err(e))
  }

  function FirstPageFn(c: Client, size: nat): Step<Page>
    requires size >= 1
  {
    var o := OpenPitFn(c);
    match o.result
    case Err(e) => Step(o.client, Err(e))
    case Ok(None) => SearchPlainFn(o.client, None, size)
    case Ok(Some(pit)) =>
      var s := SearchPitFn(o.client, None, pit, size);
      if s.result == Err(Http(400)) then
        SearchPlainFn(ClosePitFn(s.client, pit).(noPit := true), None, size)
      else
        SettleFn(s, Some(pit))
  }

  function SearchFn(c: Client, cursor: Option<Cursor>, size: nat): Step<Page>
    requires size >= 1
  {
    if cursor.None? then FirstPageFn(c, size) else
    if cursor.value.pitId.None? then SearchPlainFn(c, Some(cursor.value.sort), size) else
    var s := SearchPitFn(c, Some(cursor.value.sort), cursor.value.pitId.value, size);
    if s.result == Err(Http(404)) then
      var o := OpenPitFn(s.client);
      if o.result.Ok? && o.result.value.Some? then
        var renewed := o.result.value.value;
        SettleFn(SearchPitFn(o.client, Some(ResumeSort(cursor.value.sort)), renewed, size), Some(renewed))
      else
        Step(o.client, Err(Http(404)))
    else
      SettleFn(s, None)
  }

  // ----- The connection object -----

  /** The `EsConnection`, one request at a time. */
  class EsConnection {
    var noPit: bool
    var answers: seq<Answer>
    ghost var log: seq<Exchange>
    ghost var live: set<nat>

    ghost function State(): Client
      reads this
    {
      Client(noPit, answers, log, live)
    }

    constructor (script: seq<Answer>)
      ensures State() == Client(false, script, [], {})
    {
      noPit, answers, log, live := false, script, [], {};
    }

    method SendRequest(r: Request) returns (result: Result<Answer, Error>)
      modifies this`answers, this`log, this`live
      ensures Step(State(), result) == Send(old(State()), r)
    {
      var a := if answers == [] then Unreachable else answers[0];
      log := log + [Exchange(r, a)];
      live := LiveStep(live, Exchange(r, a));
      if answers != [] {
        answers := answers[1..];
      }
      match a {
        case BadCredentials => result := Err(Config);
        case Unreachable => result := Err(Connect);
        case Status(code) => result := Err(Http(code));
        case NotJson => result := Err(Response);
        case Body(_, _, _) => result := Ok(a);
      }
    }

    /** Best effort: the answer is ignored. */
    method Close(id: PitId)
      modifies this`answers, this`log, this`live
      ensures State() == ClosePitFn(old(State()), id)
    {
      var _ := SendRequest(ClosePit(id));
    }

    method CloseCursor(cursor: Option<Cursor>)
      modifies this`answers, this`log, this`live
      ensures State() == CloseCursorFn(old(State()), cursor)
    {
      if cursor.Some? && cursor.value.pitId.Some? {
        Close(cursor.value.pitId.value);
      }
    }

    method Open() returns (result: Result<Option<PitId>, Error>)
      modifies this
      ensures Step(State(), result) == OpenPitFn(old(State()))
    {
      if noPit {
        return Ok(None);
      }
      var sent := SendRequest(OpenPit);
      var id: Option<PitId> := None;
      match sent {
        case Ok(body) =>
          id := body.id;
        case Err(e) =>
          if e == Connect {
            return Err(Connect);
          }
          if !(e.Http? && e.status in NO_PIT_STATUSES) {
            return Ok(None);
          }
      }
      if id.None? {
        noPit := true;
      }
      return Ok(id);
    }

    method PlainPage(after: Option<seq<Value>>, size: nat) returns (result: Result<Page, Error>)
      requires size >= 1
      modifies this`answers, this`log, this`live
      ensures Step(State(), result) == SearchPlainFn(old(State()), after, size)
    {
      var sent := SendRequest(SearchPlain(after, size));
      match sent {
        case Ok(body) => result := MapResponse(body, size);
        case Err(e) => result := Err(e);
      }
    }

    method PitPage(after: Option<seq<Value>>, pit: PitId, size: nat) returns (result: Result<(Page, PitId), Error>)
      requires size >= 1
      modifies this`answers, this`log, this`live
      ensures Step(State(), result) == SearchPitFn(old(State()), after, pit, size)
    {
      var sent := SendRequest(SearchPit(pit, after, size));
      if sent.Err? {
        return Err(sent.error);
      }
      var latest := if sent.value.pitId.Some? then sent.value.pitId.value else pit;
      var mapped := MapResponse(sent.value, size);
      if mapped.Err? {
        return Err(mapped.error);
      }
      var page := mapped.value;
      if page.next.Some? {
        page := page.(next := Some(page.next.value.(pitId := Some(latest))));
      }
      return Ok((page, latest));
    }

    method Settle(outcome: Result<(Page, PitId), Error>, mine: Option<PitId>) returns (result: Result<Page, Error>)
      modifies this`answers, this`log, this`live
      ensures Step(State(), result) == SettleFn(Step(old(State()), outcome), mine)
    {
      match outcome {
        case Ok((page, latest)) =>
          if page.next.None? {
            Close(latest);
          }
          result := Ok(page);
        case Err(e) =>
          if mine.Some? {
            Close(mine.value);
          }
          result := Err(e);
      }
    }

    method FirstPage(size: nat) returns (result: Result<Page, Error>)
      requires size >= 1
      modifies this
      ensures Step(State(), result) == FirstPageFn(old(State()), size)
    {
      var mine := Open();
      if mine.Err? {
        return Err(mine.error);
      }
      if mine.value.None? {
        result := PlainPage(None, size);
        return;
      }
      var pit := mine.value.value;
      var page := PitPage(None, pit, size);
      if page == Err(Http(400)) {
        Close(pit);
        noPit := true;
        result := PlainPage(None, size);
      } else {
        result := Settle(page, Some(pit));
      }
    }

    /** One page of history after `cursor` (the first page when there is none). */
    method Search(cursor: Option<Cursor>, wanted: Option<nat>) returns (result: Result<Page, Error>)
      modifies this
      ensures Step(State(), result) == SearchFn(old(State()), cursor, ClampSize(wanted))
    {
      var size := ClampSize(wanted);
      if cursor.None? {
        result := FirstPage(size);
        return;
      }
      var sort := cursor.value.sort;
      if cursor.value.pitId.None? {
        result := PlainPage(Some(sort), size);
        return;
      }
      var page := PitPage(Some(sort), cursor.value.pitId.value, size);
      if page != Err(Http(404)) {
        result := Settle(page, None);
        return;
      }
      var mine := Open();
      if mine.Err? || mine.value.None? {
        return Err(Http(404));
      }
      var renewed := mine.value.value;
      page := PitPage(Some(ResumeSort(sort)), renewed, size);
      result := Settle(page, Some(renewed));
    }
  }

  // ----- What each request adds to the log -----

  lemma OpenPitEffect(c: Client)
    ensures var s := OpenPitFn(c);
            var x := Exchange(OpenPit, NextAnswer(c));
            && s.client.log == (if c.noPit then c.log else c.log + [x])
            && s.client.live == c.live + (if s.result.Ok? && s.result.value.Some? then {s.result.value.value.pit} else {})
            && s.client.noPit == (c.noPit || Refusal(x))
  {
  }

  lemma SearchPitEffect(c: Client, after: Option<seq<Value>>, pit: PitId, size: nat)
    requires size >= 1
    ensures var s := SearchPitFn(c, after, pit, size);
            var x := Exchange(SearchPit(pit, after, size), NextAnswer(c));
            && s.client.log == c.log + [x]
            && s.client.noPit == c.noPit
            && s.client.live == LiveStep(c.live, x)
            && (forall code: nat | !(200 <= code < 300) :: s.result == Err(Http(code)) <==> x.answer == Status(code))
            && (s.result.Ok? ==>
                  var (page, latest) := s.result.value;
                  && (SamePit(x) ==> latest.pit == pit.pit)
                  && (page.next.Some? ==> page.next.value.pitId == Some(latest)))
  {
  }

  lemma SettleEffect(s: Step<(Page, PitId)>, mine: Option<PitId>)
    ensures var t := SettleFn(s, mine);
            && s.client.log <= t.client.log
            && t.client.noPit == s.client.noPit
            && (forall x :: x in t.client.log[|s.client.log|..] ==> x.request.ClosePit?)
            && (match s.result
                case Ok((page, latest)) =>
                  && t.result == Ok(page)
                  && t.client.live == s.client.live - (if page.next.None? then {latest.pit} else {})
                case Err(e) =>
                  && t.result == Err(e)
                  && t.client.live == s.client.live - (if mine.Some? then {mine.value.pit} else {}))
  {
  }

  // ----- One call -----

  lemma {:induction false} FirstPageAppends(c: Client, size: nat)
    requires size >= 1
    ensures c.log <= FirstPageFn(c, size).client.log
  {
    OpenPitEffect(c);
    var o := OpenPitFn(c);
    if o.result.Ok? && o.result.value.Some? {
      var s := SearchPitFn(o.client, None, o.result.value.value, size);
      SearchPitEffect(o.client, None, o.result.value.value, size);
      if s.result != Err(Http(400)) {
        SettleEffect(s, o.result.value);
      }
    }
  }

  /** A call only appends to the log. */
  lemma {:induction false} SearchAppends(c: Client, cursor: Option<Cursor>, size: nat)
    requires size >= 1
    ensures c.log <= SearchFn(c, cursor, size).client.log
  {
    if cursor.None? {
      FirstPageAppends(c, size);
    } else if cursor.value.pitId.Some? {
      var s := SearchPitFn(c, Some(cursor.value.sort), cursor.value.pitId.value, size);
      SearchPitEffect(c, Some(cursor.value.sort), cursor.value.pitId.value, size);
      if s.result != Err(Http(404)) {
        SettleEffect(s, None);
      } else {
        OpenPitEffect(s.client);
        var o := OpenPitFn(s.client);
        if o.result.Ok? && o.result.value.Some? {
          var after := Some(ResumeSort(cursor.value.sort));
          SearchPitEffect(o.client, after, o.result.value.value, size);
          SettleEffect(SearchPitFn(o.client, after, o.result.value.value, size), o.result.value);
        }
      }
    }
  }

  /** A page on PIT `pit`, settled, leaves only the PIT its cursor carries. */
  lemma {:induction false} PitPageLeavesNoPit(c: Client, after: Option<seq<Value>>, pit: PitId, size: nat, mine: Option<PitId>)
    requires size >= 1
    requires mine.Some? ==> mine.value.pit == pit.pit
    requires SamePit(Exchange(SearchPit(pit, after, size), NextAnswer(c)))
    ensures var t := SettleFn(SearchPitFn(c, after, pit, size), mine);
            match t.result
            case Ok(page) => t.client.live <= c.live - {pit.pit} + Carried(page.next)
            case Err(_) => t.client.live <= c.live - (if mine.Some? then {pit.pit} else {})
  {
    SearchPitEffect(c, after, pit, size);
    SettleEffect(SearchPitFn(c, after, pit, size), mine);
  }

  lemma FirstPageLeavesNoPit(c: Client, size: nat)
    requires size >= 1
    requires forall x :: x in FirstPageFn(c, size).client.log ==> SamePit(x)
    ensures var s := FirstPageFn(c, size);
            match s.result
            case Ok(page) => s.client.live <= c.live + Carried(page.next)
            case Err(_) => s.client.live <= c.live
  {
    OpenPitEffect(c);
    var o := OpenPitFn(c);
    if o.result.Ok? && o.result.value.Some? {
      var pit := o.result.value.value;
      var s := SearchPitFn(o.client, None, pit, size);
      SearchPitEffect(o.client, None, pit, size);
      if s.result != Err(Http(400)) {
        SettleEffect(s, Some(pit));
        assert s.client.log[|s.client.log| - 1] in FirstPageFn(c, size).client.log;
        PitPageLeavesNoPit(o.client, None, pit, size, Some(pit));
      }
    }
  }

  /**
   * No PIT is left behind: what may be live after a page is what was live
   * before, without the cursor's PIT, plus the PIT the new cursor carries. A
   * failed page adds nothing.
   */
  lemma SearchLeavesNoPit(c: Client, cursor: Option<Cursor>, size: nat)
    requires size >= 1
    requires forall x :: x in SearchFn(c, cursor, size).client.log ==> SamePit(x)
    ensures var s := SearchFn(c, cursor, size);
            match s.result
            case Ok(page) => s.client.live <= c.live - Carried(cursor) + Carried(page.next)
            case Err(_) => s.client.live <= c.live
  {
    if cursor.None? {
      FirstPageLeavesNoPit(c, size);
    } else if cursor.value.pitId.Some? {
      var pit := cursor.value.pitId.value;
      var after := Some(cursor.value.sort);
      var s := SearchPitFn(c, after, pit, size);
      SearchPitEffect(c, after, pit, size);
      if s.result != Err(Http(404)) {
        SettleEffect(s, None);
        assert s.client.log[|s.client.log| - 1] in SearchFn(c, cursor, size).client.log;
        PitPageLeavesNoPit(c, after, pit, size, None);
      } else {
        OpenPitEffect(s.client);
        var o := OpenPitFn(s.client);
        if o.result.Ok? && o.result.value.Some? {
          var renewed := o.result.value.value;
          var after' := Some(ResumeSort(cursor.value.sort));
          var t := SearchPitFn(o.client, after', renewed, size);
          SearchPitEffect(o.client, after', renewed, size);
          SettleEffect(t, Some(renewed));
          assert t.client.log[|t.client.log| - 1] in SearchFn(c, cursor, size).client.log;
          PitPageLeavesNoPit(o.client, after', renewed, size, Some(renewed));
        }
      }
    }
  }

  // ----- Which PITs a call is about -----

  /** A PIT `p` was opened by an exchange from `start` on. */
  ghost predicate OpenedSince(log: seq<Exchange>, start: nat, p: nat) {
    exists i :: start <= i < |log| && Opens(log[i], p)
  }

  predicate Opens(x: Exchange, p: nat) { x.request.OpenPit? && x.answer.Body? && x.answer.id.Some? && x.answer.id.value.pit == p }

  predicate Answered(x: Exchange) { x.request.SearchPit? && x.answer.Body? }

  /** A search on PIT `p` was answered from `start` on. */
  ghost predicate AnsweredSince(log: seq<Exchange>, start: nat, p: nat) {
    exists i :: start <= i < |log| && Answered(log[i]) && log[i].request.id.pit == p
  }

  /** Only pages on a PIT name one. */
  predicate PlainHasNoPit(x: Exchange) { x.request.SearchPlain? && x.answer.Body? ==> x.answer.pitId.None? }

  /** PITs that are neither the cursor's nor opened by the call stay as they are; the page's cursor is on one of those. */
  ghost predicate About(c: Client, s: Step<Page>, pits: set<nat>) {
    && c.log <= s.client.log
    && (forall p :: p !in pits && !OpenedSince(s.client.log, |c.log|, p) ==> (p in s.client.live <==> p in c.live))
    && (s.result.Ok? ==> forall p :: p in Carried(s.result.value.next) ==>
          (p in pits || OpenedSince(s.client.log, |c.log|, p)) && AnsweredSince(s.client.log, |c.log|, p))
  }

  lemma PitPageIsAbout(c: Client, after: Option<seq<Value>>, pit: PitId, size: nat, mine: Option<PitId>, pits: set<nat>)
    requires size >= 1 && pit.pit in pits && (mine.Some? ==> mine.value.pit == pit.pit)
    requires SamePit(Exchange(SearchPit(pit, after, size), NextAnswer(c)))
    ensures About(c, SettleFn(SearchPitFn(c, after, pit, size), mine), pits)
  {
    SearchPitEffect(c, after, pit, size);
    SettleEffect(SearchPitFn(c, after, pit, size), mine);
    var t := SettleFn(SearchPitFn(c, after, pit, size), mine);
    assert t.result.Ok? ==> Answered(t.client.log[|c.log|]) && t.client.log[|c.log|].request.id.pit == pit.pit;
  }

  lemma PlainPageIsAbout(c: Client, after: Option<seq<Value>>, size: nat, pits: set<nat>)
    requires size >= 1 && PlainHasNoPit(Exchange(SearchPlain(after, size), NextAnswer(c)))
    ensures About(c, SearchPlainFn(c, after, size), pits)
  {
  }

  /** What follows other exchanges of the same call. */
  lemma AboutLater(c: Client, m: Client, s: Step<Page>, pits: set<nat>, more: set<nat>)
    requires c.log <= m.log && About(m, s, more)
    requires forall p :: p in more ==> p in pits || OpenedSince(m.log, |c.log|, p)
    requires forall p :: p !in pits && !OpenedSince(m.log, |c.log|, p) ==> (p in m.live <==> p in c.live)
    ensures About(c, s, pits)
  {
    forall p | OpenedSince(m.log, |c.log|, p) || OpenedSince(s.client.log, |m.log|, p)
      ensures OpenedSince(s.client.log, |c.log|, p)
    {
      if i :| |c.log| <= i < |m.log| && Opens(m.log[i], p) {
        assert s.client.log[i] == m.log[i];
      }
    }
  }

  /** Opening a PIT, and closing it again, is about that PIT. */
  lemma OpenIsAbout(c: Client)
    ensures var o := OpenPitFn(c);
            && c.log <= o.client.log
            && (forall p :: !OpenedSince(o.client.log, |c.log|, p) ==> (p in o.client.live <==> p in c.live))
            && (o.result.Ok? && o.result.value.Some? ==> OpenedSince(o.client.log, |c.log|, o.result.value.value.pit))
  {
    OpenPitEffect(c);
    var o := OpenPitFn(c);
    if o.result.Ok? && o.result.value.Some? {
      assert Opens(o.client.log[|c.log|], o.result.value.value.pit);
    }
  }

  ghost predicate SaneAnswers(log: seq<Exchange>) { forall x :: x in log ==> SamePit(x) && PlainHasNoPit(x) }

  lemma {:induction false} FirstPageIsAbout(c: Client, size: nat)
    requires size >= 1 && SaneAnswers(FirstPageFn(c, size).client.log)
    ensures About(c, FirstPageFn(c, size), {})
  {
    OpenIsAbout(c);
    OpenPitEffect(c);
    var o := OpenPitFn(c);
    var all := FirstPageFn(c, size).client.log;
    if o.result.Ok? {
      if o.result.value.None? {
        assert all[|o.client.log|] in all;
        PlainPageIsAbout(o.client, None, size, {});
        AboutLater(c, o.client, FirstPageFn(c, size), {}, {});
      } else {
        OpenedFirstPageIsAbout(c, o.client, o.result.value.value, size);
      }
    }
  }

  lemma {:induction false} OpenedFirstPageIsAbout(c: Client, o: Client, pit: PitId, size: nat)
    requires size >= 1 && OpenPitFn(c) == Step(o, Ok(Some(pit))) && SaneAnswers(FirstPageFn(c, size).client.log)
    ensures About(c, FirstPageFn(c, size), {})
  {
    OpenIsAbout(c);
    var s := SearchPitFn(o, None, pit, size);
    var all := FirstPageFn(c, size).client.log;
    SearchPitEffect(o, None, pit, size);
    if s.result == Err(Http(400)) {
      var m := ClosePitFn(s.client, pit).(noPit := true);
      assert all[|m.log|] in all;
      PlainPageIsAbout(m, None, size, {});
      assert m.log[..|o.log|] == o.log;
      assert forall p :: OpenedSince(o.log, |c.log|, p) ==> OpenedSince(m.log, |c.log|, p);
      AboutLater(c, m, FirstPageFn(c, size), {}, {});
    } else {
      SettleEffect(s, Some(pit));
      assert s.client.log[|o.log|] in all;
      PitPageIsAbout(o, None, pit, size, Some(pit), {pit.pit});
      AboutLater(c, o, FirstPageFn(c, size), {}, {pit.pit});
    }
  }

  /** A call changes no PIT but its cursor's and those it opens, and its page's cursor is on one of these. */
  lemma {:induction false} SearchIsAbout(c: Client, cursor: Option<Cursor>, size: nat)
    requires size >= 1 && SaneAnswers(SearchFn(c, cursor, size).client.log)
    ensures About(c, SearchFn(c, cursor, size), Carried(cursor))
  {
    var all := SearchFn(c, cursor, size).client.log;
    if cursor.None? {
      FirstPageIsAbout(c, size);
    } else if cursor.value.pitId.None? {
      assert all[|c.log|] in all;
      PlainPageIsAbout(c, Some(cursor.value.sort), size, {});
    } else {
      var pit := cursor.value.pitId.value;
      var s := SearchPitFn(c, Some(cursor.value.sort), pit, size);
      SearchPitEffect(c, Some(cursor.value.sort), pit, size);
      if s.result != Err(Http(404)) {
        SettleEffect(s, None);
        assert s.client.log[|c.log|] in all;
        PitPageIsAbout(c, Some(cursor.value.sort), pit, size, None, {pit.pit});
      } else {
        ResumedIsAbout(c, cursor.value, s.client, size);
      }
    }
  }

  lemma {:induction false} ResumedIsAbout(c: Client, cursor: Cursor, m: Client, size: nat)
    requires size >= 1 && cursor.pitId.Some? && SaneAnswers(SearchFn(c, Some(cursor), size).client.log)
    requires SearchPitFn(c, Some(cursor.sort), cursor.pitId.value, size) == Step(m, Err(Http(404)))
    ensures About(c, SearchFn(c, Some(cursor), size), Carried(Some(cursor)))
  {
    var pit := cursor.pitId.value;
    SearchPitEffect(c, Some(cursor.sort), pit, size);
    OpenIsAbout(m);
    OpenPitEffect(m);
    var o := OpenPitFn(m);
    var all := SearchFn(c, Some(cursor), size).client.log;
    assert forall p :: OpenedSince(o.client.log, |m.log|, p) ==> OpenedSince(o.client.log, |c.log|, p);
    if o.result.Ok? && o.result.value.Some? {
      var renewed := o.result.value.value;
      var t := SearchPitFn(o.client, Some(ResumeSort(cursor.sort)), renewed, size);
      SearchPitEffect(o.client, Some(ResumeSort(cursor.sort)), renewed, size);
      SettleEffect(t, Some(renewed));
      assert t.client.log[|o.client.log|] in all;
      PitPageIsAbout(o.client, Some(ResumeSort(cursor.sort)), renewed, size, Some(renewed), {renewed.pit});
      AboutLater(c, o.client, SearchFn(c, Some(cursor), size), {pit.pit}, {renewed.pit});
    }
  }

  // ----- Discipline of the requests -----

  /**
   * From exchange `start` on, with `was` saying whether the connection had been
   * refused a PIT by then: after a refusal no PIT is opened; and, when the
   * server's hits are `faithful`, every logged request is well formed.
   */
  ghost predicate Disciplined(c: Client, start: nat, was: bool, faithful: bool) {
    && start <= |c.log| && (was ==> c.noPit)
    && (faithful ==> forall i :: start <= i < |c.log| ==> WellFormedRequest(c.log[i].request))
    && (forall i :: start <= i < |c.log| && Refusal(c.log[i]) ==> c.noPit)
    && (forall i :: start <= i < |c.log| && was ==> !c.log[i].request.OpenPit?)
    && (forall i, j :: start <= i < j < |c.log| && Refusal(c.log[i]) ==> !c.log[j].request.OpenPit?)
  }

  lemma OpenPitDisciplined(c: Client, start: nat, was: bool, faithful: bool)
    requires Disciplined(c, start, was, faithful)
    ensures Disciplined(OpenPitFn(c).client, start, was, faithful)
  {
  }

  lemma SearchPitDisciplined(c: Client, after: Option<seq<Value>>, pit: PitId, size: nat, start: nat, was: bool, faithful: bool)
    requires Disciplined(c, start, was, faithful) && size >= 1 && (faithful && after.Some? ==> |after.value| == 2)
    ensures var s := SearchPitFn(c, after, pit, size);
            var x := Exchange(SearchPit(pit, after, size), NextAnswer(c));
            && Disciplined(s.client.(noPit := c.noPit || Refusal(x)), start, was, faithful)
            && (FaithfulSort(x) && s.result.Ok? && s.result.value.0.next.Some? ==> WellFormedCursor(s.result.value.0.next.value))
  {
  }

  lemma ClosePitDisciplined(c: Client, id: PitId, start: nat, was: bool, faithful: bool)
    requires Disciplined(c, start, was, faithful)
    ensures Disciplined(ClosePitFn(c, id), start, was, faithful)
  {
  }

  lemma SearchPlainDisciplined(c: Client, after: Option<seq<Value>>, size: nat, start: nat, was: bool, faithful: bool)
    requires Disciplined(c, start, was, faithful) && size >= 1 && (faithful && after.Some? ==> |after.value| == 3)
    ensures var s := SearchPlainFn(c, after, size);
            var x := Exchange(SearchPlain(after, size), NextAnswer(c));
            && s.client.log == c.log + [x]
            && Disciplined(s.client, start, was, faithful)
            && (FaithfulSort(x) && s.result.Ok? && s.result.value.next.Some? ==> WellFormedCursor(s.result.value.next.value))
  {
  }

  /** Settling a page keeps the discipline, and the page's cursor. */
  lemma SettleDisciplined(s: Step<(Page, PitId)>, mine: Option<PitId>, start: nat, was: bool, faithful: bool)
    requires Disciplined(s.client, start, was, faithful)
    ensures Disciplined(SettleFn(s, mine).client, start, was, faithful)
  {
  }

  lemma {:induction false} FirstPageDisciplined(c: Client, size: nat, start: nat, was: bool, faithful: bool)
    requires Disciplined(c, start, was, faithful) && size >= 1
    requires faithful ==> forall i :: |c.log| <= i < |FirstPageFn(c, size).client.log| ==> FaithfulSort(FirstPageFn(c, size).client.log[i])
    ensures var s := FirstPageFn(c, size);
            && Disciplined(s.client, start, was, faithful)
            && (faithful && s.result.Ok? && s.result.value.next.Some? ==> WellFormedCursor(s.result.value.next.value))
  {
    OpenPitEffect(c);
    OpenPitDisciplined(c, start, was, faithful);
    var o := OpenPitFn(c);
    if o.result.Ok? {
      if o.result.value.None? {
        SearchPlainDisciplined(o.client, None, size, start, was, faithful);
        assert FirstPageFn(c, size).client.log[|o.client.log|] in FirstPageFn(c, size).client.log;
      } else {
        var pit := o.result.value.value;
        var s := SearchPitFn(o.client, None, pit, size);
        SearchPitEffect(o.client, None, pit, size);
        SearchPitDisciplined(o.client, None, pit, size, start, was, faithful);
        if s.result == Err(Http(400)) {
          var closed := ClosePitFn(s.client, pit).(noPit := true);
          ClosePitDisciplined(s.client.(noPit := true), pit, start, was, faithful);
          assert closed == ClosePitFn(s.client.(noPit := true), pit);
          SearchPlainDisciplined(closed, None, size, start, was, faithful);
          assert FirstPageFn(c, size).client.log[|closed.log|] in FirstPageFn(c, size).client.log;
        } else {
          SettleEffect(s, Some(pit));
          SettleDisciplined(s, Some(pit), start, was, faithful);
          assert s.client.log[|o.client.log|] in FirstPageFn(c, size).client.log;
        }
      }
    }
  }

  /**
   * A call sends well-formed requests and gives a well-formed cursor when the
   * server's hits are faithful; it opens no PIT once the server refused one.
   */
  lemma {:induction false} SearchDisciplined(c: Client, cursor: Option<Cursor>, size: nat, start: nat, was: bool, faithful: bool)
    requires Disciplined(c, start, was, faithful) && size >= 1
    requires faithful && cursor.Some? ==> WellFormedCursor(cursor.value)
    requires faithful ==> forall i :: |c.log| <= i < |SearchFn(c, cursor, size).client.log| ==> FaithfulSort(SearchFn(c, cursor, size).client.log[i])
    ensures var s := SearchFn(c, cursor, size);
            && Disciplined(s.client, start, was, faithful)
            && (faithful && s.result.Ok? && s.result.value.next.Some? ==> WellFormedCursor(s.result.value.next.value))
  {
    if cursor.None? {
      assert SearchFn(c, cursor, size) == FirstPageFn(c, size);
      FirstPageDisciplined(c, size, start, was, faithful);
    } else if cursor.value.pitId.None? {
      SearchPlainDisciplined(c, Some(cursor.value.sort), size, start, was, faithful);
      assert SearchFn(c, cursor, size).client.log[|c.log|] in SearchFn(c, cursor, size).client.log;
    } else {
      var pit := cursor.value.pitId.value;
      var after := Some(cursor.value.sort);
      var s := SearchPitFn(c, after, pit, size);
      SearchPitEffect(c, after, pit, size);
      SearchPitDisciplined(c, after, pit, size, start, was, faithful);
      if s.result != Err(Http(404)) {
        SettleEffect(s, None);
        SettleDisciplined(s, None, start, was, faithful);
        assert s.client.log[|c.log|] in SearchFn(c, cursor, size).client.log;
      } else {
        OpenPitEffect(s.client);
        OpenPitDisciplined(s.client, start, was, faithful);
        var o := OpenPitFn(s.client);
        if o.result.Ok? && o.result.value.Some? {
          var renewed := o.result.value.value;
          var after' := Some(ResumeSort(cursor.value.sort));
          var t := SearchPitFn(o.client, after', renewed, size);
          SearchPitEffect(o.client, after', renewed, size);
          SearchPitDisciplined(o.client, after', renewed, size, start, was, faithful);
          SettleEffect(t, Some(renewed));
          SettleDisciplined(t, Some(renewed), start, was, faithful);
          assert t.client.log[|o.client.log|] in SearchFn(c, cursor, size).client.log;
        }
      }
    }
  }
}
