module ConnCache {
  // Open connections per (kubeconfig, context), shared by any number of callers:
  // a lookup under the lock, a connect without it, an insert under the lock
  // again, and a generation counter bumped by `forget` and `clear`.
  //
  // A connection is identified by the position, in the history of all steps, of
  // the step that started its connect.

  import opened Prelude

  type Endpoint = string

  datatype Key = Key(kubeconfig: string, context: string)

  type Conn = nat

  datatype Slot = Slot(endpoint: Endpoint, conn: Conn)

  datatype Cache = Cache(slots: map<Key, Slot>, generation: nat)

  datatype Failure = ConnectFailed | SettingsChanged

  // ----- The sections under the lock -----

  function LookUpFn(c: Cache, key: Key, endpoint: Endpoint): Option<Conn> {
    if key in c.slots && c.slots[key].endpoint == endpoint then Some(c.slots[key].conn) else None
  }

  /** The second section: `None` starts over, else the connection to return. */
  function InsertFn(c: Cache, key: Key, endpoint: Endpoint, generation: nat, conn: Conn): (Cache, Option<Conn>) {
    if c.generation != generation then (c, None) else
    if key in c.slots && c.slots[key].endpoint == endpoint then (c, Some(c.slots[key].conn)) else
    (c.(slots := c.slots[key := Slot(endpoint, conn)]), Some(conn))
  }

  function InvalidateFn(c: Cache, key: Key, conn: Conn): Cache {
    if key in c.slots && c.slots[key].conn == conn then c.(slots := c.slots - {key}) else c
  }

  function ForgetFn(c: Cache, context: string): Cache {
    Cache(map k | k in c.slots && k.context != context :: c.slots[k], c.generation + 1)
  }

  function ClearFn(c: Cache): Cache { Cache(map[], c.generation + 1) }

  // ----- The object -----

  /** What another task may do to the cache while a connect is in flight. */
  datatype Op =
    | OpInsert(key: Key, endpoint: Endpoint, generation: nat, conn: Conn)
    | OpInvalidate(key: Key, conn: Conn)
    | OpForget(context: string)
    | OpClear

  predicate Bumps(op: Op) { op.OpForget? || op.OpClear? }

  function BumpCount(ops: seq<Op>): nat {
    if ops == [] then 0 else BumpCount(ops[..|ops| - 1]) + if Bumps(ops[|ops| - 1]) then 1 else 0
  }

  /**
   * One attempt as its environment sees it: the others' steps before its lookup
   * and during its connect, and what the connect gave.
   */
  datatype Attempt = Attempt(before: seq<Op>, others: seq<Op>, connected: Option<Conn>)

  function ApplyOp(c: Cache, op: Op): Cache {
    match op
    case OpInsert(key, endpoint, generation, conn) => InsertFn(c, key, endpoint, generation, conn).0
    case OpInvalidate(key, conn) => InvalidateFn(c, key, conn)
    case OpForget(context) => ForgetFn(c, context)
    case OpClear => ClearFn(c)
  }

  function OthersFn(c: Cache, ops: seq<Op>): (after: Cache)
    ensures after.generation == c.generation + BumpCount(ops)
  {
    if ops == [] then c else ApplyOp(OthersFn(c, ops[..|ops| - 1]), ops[|ops| - 1])
  }

  /** A call with the attempts it has left. */
  function CallFn(c: Cache, key: Key, endpoint: Endpoint, attempts: seq<Attempt>): (Cache, Result<Conn, Failure>)
    decreases |attempts|
  {
    if attempts == [] then (c, Err(SettingsChanged)) else
    var seen := OthersFn(c, attempts[0].before);
    var hit := LookUpFn(seen, key, endpoint);
    if hit.Some? then (seen, Ok(hit.value)) else
    var later := OthersFn(seen, attempts[0].others);
    if attempts[0].connected.None? then (later, Err(ConnectFailed)) else
    var (inserted, result) := InsertFn(later, key, endpoint, seen.generation, attempts[0].connected.value);
    if result.Some? then (inserted, Ok(result.value)) else CallFn(inserted, key, endpoint, attempts[1..])
  }

  class ConnCache {
    var slots: map<Key, Slot>
    var generation: nat

    function State(): Cache
      reads this
    {
      Cache(slots, generation)
    }

    constructor ()
      ensures State() == Cache(map[], 0)
    {
      slots, generation := map[], 0;
    }

    method LookUp(key: Key, endpoint: Endpoint) returns (hit: Option<Conn>, seen: nat)
      ensures hit == LookUpFn(State(), key, endpoint) && seen == generation
    {
      if key in slots && slots[key].endpoint == endpoint {
        return Some(slots[key].conn), generation;
      }
      return None, generation;
    }

    method Insert(key: Key, endpoint: Endpoint, seen: nat, conn: Conn) returns (result: Option<Conn>)
      modifies this
      ensures (State(), result) == InsertFn(old(State()), key, endpoint, seen, conn)
    {
      if generation != seen {
        return None;
      }
      if key in slots && slots[key].endpoint == endpoint {
        return Some(slots[key].conn);
      }
      slots := slots[key := Slot(endpoint, conn)];
      return Some(conn);
    }

    method Invalidate(key: Key, conn: Conn)
      modifies this
      ensures State() == InvalidateFn(old(State()), key, conn)
    {
      if key in slots && slots[key].conn == conn {
        slots := slots - {key};
      }
    }

    method Forget(context: string)
      modifies this
      ensures State() == ForgetFn(old(State()), context)
    {
      generation := generation + 1;
      slots := map k | k in slots && k.context != context :: slots[k];
    }

    method Clear()
      modifies this
      ensures State() == ClearFn(old(State()))
    {
      generation := generation + 1;
      slots := map[];
    }

    /** The steps of other tasks between two sections of a call. */
    method Others(ops: seq<Op>)
      modifies this
      ensures State() == OthersFn(old(State()), ops)
    {
      for i := 0 to |ops|
        invariant State() == OthersFn(old(State()), ops[..i])
      {
        assert ops[..i + 1][..i] == ops[..i];
        match ops[i] {
          case OpInsert(key, endpoint, seen, conn) => var _ := Insert(key, endpoint, seen, conn);
          case OpInvalidate(key, conn) => Invalidate(key, conn);
          case OpForget(context) => Forget(context);
          case OpClear => Clear();
        }
      }
      assert ops[..|ops|] == ops;
    }

    /**
     * One call, two attempts: what it returns is what the cache holds then,
     * and it gives up exactly when both connects were overtaken by a `forget`
     * or `clear`.
     */
    method GetOrConnect(key: Key, endpoint: Endpoint, attempts: seq<Attempt>) returns (result: Result<Conn, Failure>, connects: nat)
      requires |attempts| == 2
      modifies this
      ensures (State(), result) == CallFn(old(State()), key, endpoint, attempts)
      ensures connects <= 2
      ensures result.Ok? ==> key in slots && slots[key] == Slot(endpoint, result.value)
      ensures result.Ok? && connects == 0 ==>
                State() == OthersFn(old(State()), attempts[0].before) && LookUpFn(State(), key, endpoint) == Some(result.value)
      ensures result == Err(SettingsChanged) ==>
                forall i :: 0 <= i < 2 ==> attempts[i].connected.Some? && BumpCount(attempts[i].others) >= 1
      ensures result == Err(ConnectFailed) ==> connects >= 1 && attempts[connects - 1].connected.None?
    {
      connects := 0;
      for attempt := 0 to 2
        invariant connects == attempt
        invariant CallFn(old(State()), key, endpoint, attempts) == CallFn(State(), key, endpoint, attempts[attempt..])
        invariant attempt == 0 ==> State() == old(State())
        invariant forall i :: 0 <= i < attempt ==> attempts[i].connected.Some? && BumpCount(attempts[i].others) >= 1
      {
        Others(attempts[attempt].before);
        var hit, seen := LookUp(key, endpoint);
        if hit.Some? {
          return Ok(hit.value), connects;
        }
        connects := connects + 1;
        Others(attempts[attempt].others);
        if attempts[attempt].connected.None? {
          return Err(ConnectFailed), connects;
        }
        var inserted := Insert(key, endpoint, seen, attempts[attempt].connected.value);
        if inserted.Some? {
          return Ok(inserted.value), connects;
        }
      }
      return Err(SettingsChanged), connects;
    }
  }

  // ----- Any number of calls in flight -----

  datatype Phase =
    | Ready
    | Missed(generation: nat)
    | Connecting(generation: nat, conn: Conn)
    | Connected(generation: nat, conn: Conn)
    | Done(result: Result<Conn, Failure>)

  /** A call: what it asks for, when it began, its attempt and program point. */
  datatype Call = Call(key: Key, endpoint: Endpoint, began: nat, attempt: nat, connects: nat, phase: Phase)

  datatype Event =
    | Begin(id: nat, key: Key, endpoint: Endpoint)
    | LookUp(id: nat)
    | StartConnect(id: nat)
    | EndConnect(id: nat, ok: bool)
    | Insert(id: nat)
    | Invalidate(key: Key, conn: Conn)
    | Forget(context: string)
    | Clear

  datatype State = State(cache: Cache, calls: map<nat, Call>, history: seq<Event>)

  const Init := State(Cache(map[], 0), map[], [])

  function SetPhase(s: State, id: nat, phase: Phase): State
    requires id in s.calls
  {
    s.(calls := s.calls[id := s.calls[id].(phase := phase)])
  }

  /** The effect of one atomic step; a step its call is not ready for does nothing. */
  function Effect(s: State, event: Event): State {
    match event
    case Begin(id, key, endpoint) =>
      if id in s.calls then s else s.(calls := s.calls[id := Call(key, endpoint, |s.history|, 0, 0, Ready)])
    case LookUp(id) =>
      if !(id in s.calls && s.calls[id].phase.Ready?) then s else
      var call := s.calls[id];
      var hit := LookUpFn(s.cache, call.key, call.endpoint);
      SetPhase(s, id, if hit.Some? then Done(Ok(hit.value)) else Missed(s.cache.generation))
    case StartConnect(id) =>
      if !(id in s.calls && s.calls[id].phase.Missed?) then s else
      var call := s.calls[id];
      s.(calls := s.calls[id := call.(connects := call.connects + 1, phase := Connecting(call.phase.generation, |s.history|))])
    case EndConnect(id, ok) =>
      if !(id in s.calls && s.calls[id].phase.Connecting?) then s else
      var phase := s.calls[id].phase;
      SetPhase(s, id, if ok then Connected(phase.generation, phase.conn) else Done(Err(ConnectFailed)))
    case Insert(id) =>
      if !(id in s.calls && s.calls[id].phase.Connected?) then s else
      var call := s.calls[id];
      var (cache, result) := InsertFn(s.cache, call.key, call.endpoint, call.phase.generation, call.phase.conn);
      if result.Some? then SetPhase(s.(cache := cache), id, Done(Ok(result.value))) else
      if call.attempt == 0 then s.(calls := s.calls[id := call.(attempt := 1, phase := Ready)]) else
      SetPhase(s, id, Done(Err(SettingsChanged)))
    case Invalidate(key, conn) => s.(cache := InvalidateFn(s.cache, key, conn))
    case Forget(context) => s.(cache := ForgetFn(s.cache, context))
    case Clear => s.(cache := ClearFn(s.cache))
  }

  function Next(s: State, event: Event): State {
    Effect(s, event).(history := s.history + [event])
  }

  function Run(events: seq<Event>): State {
    if events == [] then Init else Next(Run(events[..|events| - 1]), events[|events| - 1])
  }

  predicate Drops(event: Event, context: string) { event.Clear? || event == Forget(context) }

  predicate DropsAny(event: Event) { event.Clear? || event.Forget? }

  function DropCount(history: seq<Event>): nat {
    if history == [] then 0 else DropCount(history[..|history| - 1]) + if DropsAny(history[|history| - 1]) then 1 else 0
  }

  /** `conn` was opened for `key` and `endpoint`, by the call that its start step names. */
  ghost predicate OpenedFor(s: State, conn: Conn, key: Key, endpoint: Endpoint) {
    && conn < |s.history| && s.history[conn].StartConnect?
    && var id := s.history[conn].id;
       id in s.calls && s.calls[id].key == key && s.calls[id].endpoint == endpoint
  }

  /** No `forget` of `context` and no `clear` since the connect of `conn` started. */
  ghost predicate Current(s: State, conn: Conn, context: string) {
    forall j :: conn <= j < |s.history| ==> !Drops(s.history[j], context)
  }

  ghost predicate CallOk(s: State, call: Call) {
    && call.began <= |s.history| && call.attempt <= 1
    && (match call.phase
        case Ready => call.connects == call.attempt && DropCount(s.history) >= DropCount(s.history[..call.began]) + call.attempt
        case Missed(generation) =>
          && call.connects == call.attempt
          && DropCount(s.history[..call.began]) + call.attempt <= generation <= s.cache.generation
        case Connecting(generation, conn) => call.connects == call.attempt + 1 && InFlight(s, call, generation, conn)
        case Connected(generation, conn) => call.connects == call.attempt + 1 && InFlight(s, call, generation, conn)
        case Done(result) =>
          && call.connects <= call.attempt + 1
          && (result.Ok? ==> OpenedFor(s, result.value, call.key, call.endpoint))
          && (result == Err(SettingsChanged) ==> DropCount(s.history) >= DropCount(s.history[..call.began]) + 2))
  }

  ghost predicate InFlight(s: State, call: Call, generation: nat, conn: Conn)
    requires call.began <= |s.history|
  {
    && DropCount(s.history[..call.began]) + call.attempt <= generation <= s.cache.generation
    && OpenedFor(s, conn, call.key, call.endpoint)
    && (generation == s.cache.generation ==> forall j :: conn <= j < |s.history| ==> !DropsAny(s.history[j]))
  }

  /** What holds in every reachable state. */
  ghost predicate Inv(s: State) {
    && s.cache.generation == DropCount(s.history)
    && (forall key :: key in s.cache.slots ==>
          var slot := s.cache.slots[key];
          OpenedFor(s, slot.conn, key, slot.endpoint) && Current(s, slot.conn, key.context))
    && (forall id :: id in s.calls ==> CallOk(s, s.calls[id]))
  }

  // ----- Every step keeps the invariant -----

  /** Facts about the longer history that every case needs. */
  lemma {:induction false} HistoryGrows(s: State, event: Event)
    ensures var h := s.history + [event];
            && DropCount(h) == DropCount(s.history) + (if DropsAny(event) then 1 else 0)
            && (forall n :: 0 <= n <= |s.history| ==> h[..n] == s.history[..n])
  {
    var h := s.history + [event];
    assert h[..|h| - 1] == s.history;
  }

  /** A call the step does not touch stays consistent. */
  lemma UntouchedCall(s: State, event: Event, id: nat)
    requires Inv(s) && id in s.calls && id in Next(s, event).calls && Next(s, event).calls[id] == s.calls[id]
    ensures CallOk(Next(s, event), s.calls[id])
  {
    HistoryGrows(s, event);
    var call := s.calls[id];
    if call.phase.Done? && call.phase.result.Ok? {
      OpenedStays(s, event, call.phase.result.value, call.key, call.endpoint);
    }
    if call.phase.Connecting? || call.phase.Connected? {
      OpenedStays(s, event, call.phase.conn, call.key, call.endpoint);
    }
  }

  lemma OpenedStays(s: State, event: Event, conn: Conn, key: Key, endpoint: Endpoint)
    requires OpenedFor(s, conn, key, endpoint)
    ensures OpenedFor(Next(s, event), conn, key, endpoint)
  {
  }

  /** The cache slots stay current. */
  lemma {:induction false} SlotsStayCurrent(s: State, event: Event, key: Key)
    requires Inv(s) && key in Next(s, event).cache.slots
    ensures var slot := Next(s, event).cache.slots[key];
            OpenedFor(Next(s, event), slot.conn, key, slot.endpoint) && Current(Next(s, event), slot.conn, key.context)
  {
    var slot := Next(s, event).cache.slots[key];
    if key in s.cache.slots && s.cache.slots[key] == slot {
      NotDropped(s, event, key);
      OpenedStays(s, event, slot.conn, key, slot.endpoint);
    } else {
      InsertedIsCurrent(s, event, key);
    }
  }

  /** A slot that is there after the step was not dropped by it. */
  lemma NotDropped(s: State, event: Event, key: Key)
    requires key in Next(s, event).cache.slots
    ensures !Drops(event, key.context)
  {
  }

  lemma {:induction false} InsertedIsCurrent(s: State, event: Event, key: Key)
    requires Inv(s) && key in Next(s, event).cache.slots
    requires !(key in s.cache.slots && s.cache.slots[key] == Next(s, event).cache.slots[key])
    ensures var slot := Next(s, event).cache.slots[key];
            OpenedFor(Next(s, event), slot.conn, key, slot.endpoint) && Current(Next(s, event), slot.conn, key.context)
  {
    var slot := Next(s, event).cache.slots[key];
    OpenedStays(s, event, slot.conn, key, slot.endpoint);
  }

  lemma TouchedCall(s: State, event: Event, id: nat)
    requires Inv(s) && id in Next(s, event).calls
    requires id in s.calls ==> Next(s, event).calls[id] != s.calls[id]
    ensures CallOk(Next(s, event), Next(s, event).calls[id])
  {
    HistoryGrows(s, event);
    var t := Next(s, event);
    var call := t.calls[id];
    match event {
      case LookUp(_) =>
        if call.phase.Done? {
          OpenedStays(s, event, call.phase.result.value, call.key, call.endpoint);
        }
      case EndConnect(_, ok) =>
        if ok {
          OpenedStays(s, event, call.phase.conn, call.key, call.endpoint);
        }
      case Insert(_) =>
        if call.phase.Done? && call.phase.result.Ok? {
          OpenedStays(s, event, call.phase.result.value, call.key, call.endpoint);
        }
      case _ =>
    }
  }

  lemma NextInv(s: State, event: Event)
    requires Inv(s)
    ensures Inv(Next(s, event))
  {
    HistoryGrows(s, event);
    var t := Next(s, event);
    forall key | key in t.cache.slots
      ensures OpenedFor(t, t.cache.slots[key].conn, key, t.cache.slots[key].endpoint) && Current(t, t.cache.slots[key].conn, key.context)
    {
      SlotsStayCurrent(s, event, key);
    }
    forall id | id in t.calls
      ensures CallOk(t, t.calls[id])
    {
      if id in s.calls && s.calls[id] == t.calls[id] {
        UntouchedCall(s, event, id);
      } else {
        TouchedCall(s, event, id);
      }
    }
  }

  /** The invariant holds after every interleaving. */
  lemma {:induction false} RunInv(events: seq<Event>)
    ensures Inv(Run(events)) && Run(events).history == events
  {
    if events != [] {
      RunInv(events[..|events| - 1]);
      NextInv(Run(events[..|events| - 1]), events[|events| - 1]);
    }
  }

  // ----- What callers get -----

  /** Step `i` of the run makes call `id` return connection `conn`. */
  ghost predicate Returns(events: seq<Event>, i: nat, id: nat, conn: Conn)
    requires i < |events|
  {
    var s, t := Run(events[..i]), Run(events[..i + 1]);
    id in t.calls && t.calls[id].phase == Done(Ok(conn)) && !(id in s.calls && s.calls[id].phase.Done?)
  }

  /** A returned connection is the cached one, before any further step. */
  lemma ReturnedIsCached(events: seq<Event>, i: nat, id: nat, conn: Conn)
    requires i < |events| && Returns(events, i, id, conn)
    ensures var t := Run(events[..i + 1]);
            t.calls[id].key in t.cache.slots && t.cache.slots[t.calls[id].key] == Slot(t.calls[id].endpoint, conn)
  {
    assert events[..i + 1][..i] == events[..i];
  }

  /**
   * Freshness, in every interleaving: the connect of a returned connection was
   * started by a call for the same key and endpoint, and since then there was
   * no `forget` of its context and no `clear`.
   */
  lemma ReturnedIsFresh(events: seq<Event>, i: nat, id: nat, conn: Conn)
    requires i < |events| && Returns(events, i, id, conn)
    ensures conn < i && events[conn].StartConnect?
    ensures var t := Run(events[..i + 1]);
            var opener := events[conn].id;
            && opener in t.calls && t.calls[opener].key == t.calls[id].key && t.calls[opener].endpoint == t.calls[id].endpoint
            && forall j :: conn <= j <= i ==> !Drops(events[j], t.calls[id].key.context)
  {
    RunInv(events[..i + 1]);
    ReturnedIsCached(events, i, id, conn);
    var t := Run(events[..i + 1]);
    assert Current(t, conn, t.calls[id].key.context);
    assert forall j :: 0 <= j <= i ==> t.history[j] == events[j];
    assert events[..i + 1][..i] == events[..i];
    if conn == i {
      assert false;
    }
  }

  /** The same holds of every cached connection, at any time. */
  lemma {:induction false} CachedIsFresh(events: seq<Event>, key: Key)
    requires key in Run(events).cache.slots
    ensures var conn := Run(events).cache.slots[key].conn;
            conn < |events| && events[conn].StartConnect? && forall j :: conn <= j < |events| ==> !Drops(events[j], key.context)
  {
    RunInv(events);
  }

  /** A call connects at most twice, and gives up only after two `forget` or `clear` steps inside it. */
  lemma {:induction false} CallIsBounded(events: seq<Event>, id: nat)
    requires id in Run(events).calls
    ensures var call := Run(events).calls[id];
            && call.connects <= 2
            && call.began <= |events|
            && (call.phase == Done(Err(SettingsChanged)) ==> DropCount(events) - DropCount(events[..call.began]) >= 2)
  {
    RunInv(events);
    OkIsBounded(Run(events), id, events);
  }

  lemma {:induction false} OkIsBounded(s: State, id: nat, events: seq<Event>)
    requires Inv(s) && s.history == events && id in s.calls
    ensures var call := s.calls[id];
            && call.connects <= 2 && call.began <= |events|
            && (call.phase == Done(Err(SettingsChanged)) ==> DropCount(events) - DropCount(events[..call.began]) >= 2)
  {
    assert CallOk(s, s.calls[id]);
  }

  // ----- Sharing -----

  /** The step does not take `slot` out of `key`. */
  ghost predicate Quiet(s: State, event: Event, key: Key, slot: Slot) {
    && !Drops(event, key.context)
    && event != Invalidate(key, slot.conn)
    && !(event.Insert? && event.id in s.calls && s.calls[event.id].key == key && s.calls[event.id].endpoint != slot.endpoint)
  }

  lemma QuietStep(s: State, event: Event, key: Key, slot: Slot)
    requires key in s.cache.slots && s.cache.slots[key] == slot && Quiet(s, event, key, slot)
    ensures key in Next(s, event).cache.slots && Next(s, event).cache.slots[key] == slot
  {
  }

  lemma {:induction false} SlotStays(events: seq<Event>, from: nat, key: Key, slot: Slot)
    requires from <= |events|
    requires key in Run(events[..from]).cache.slots && Run(events[..from]).cache.slots[key] == slot
    requires forall j :: from <= j < |events| ==> Quiet(Run(events[..j]), events[j], key, slot)
    ensures key in Run(events).cache.slots && Run(events).cache.slots[key] == slot
    decreases |events|
  {
    if from < |events| {
      var n := |events| - 1;
      var before := events[..n];
      assert before[..from] == events[..from];
      forall j | from <= j < n
        ensures Quiet(Run(before[..j]), before[j], key, slot)
      {
        assert before[..j] == events[..j];
      }
      SlotStays(before, from, key, slot);
      QuietStep(Run(before), events[n], key, slot);
    } else {
      assert events[..from] == events;
    }
  }

  /**
   * Sharing, in every interleaving: two calls for the same key and endpoint
   * get the same connection when, between their returns, the context is not
   * forgotten, nothing is cleared, that connection is not invalidated and no
   * call inserts for another endpoint of the key.
   */
  lemma {:induction false} CallsShare(events: seq<Event>, i: nat, j: nat, a: nat, b: nat, first: Conn, second: Conn)
    requires i < j < |events| && Returns(events, i, a, first) && Returns(events, j, b, second)
    requires var call, call' := Run(events[..i + 1]).calls[a], Run(events[..j + 1]).calls[b];
             call.key == call'.key && call.endpoint == call'.endpoint
    requires var call := Run(events[..i + 1]).calls[a];
             forall k :: i < k <= j ==> Quiet(Run(events[..k]), events[k], call.key, Slot(call.endpoint, first))
    ensures first == second
  {
    ReturnedIsCached(events, i, a, first);
    ReturnedIsCached(events, j, b, second);
    var call := Run(events[..i + 1]).calls[a];
    var part := events[..j + 1];
    assert part[..i + 1] == events[..i + 1];
    forall k | i < k <= j
      ensures Quiet(Run(part[..k]), part[k], call.key, Slot(call.endpoint, first))
    {
      assert part[..k] == events[..k];
    }
    SlotStays(part, i + 1, call.key, Slot(call.endpoint, first));
  }

  /** `invalidate` of a connection leaves every slot that holds another one. */
  lemma {:induction false} InvalidateKeepsReplacement(events: seq<Event>, key: Key, conn: Conn, other: Key)
    requires other in Run(events).cache.slots && (other != key || Run(events).cache.slots[other].conn != conn)
    ensures var t := Run(events + [Invalidate(key, conn)]);
            other in t.cache.slots && t.cache.slots[other] == Run(events).cache.slots[other]
  {
    assert (events + [Invalidate(key, conn)])[..|events|] == events;
  }
}
