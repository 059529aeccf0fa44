module ConnCacheCalls {
  // Every call of the interleaved machine is a call of the object: its result, and
  // the cache when it returns, are those of `CallFn` for the steps that the others
  // made between the call's own steps, in their order.

  import opened Prelude
  import opened ConnCache

  // ----- What happens between two steps -----

  /** Steps, and the state before each and after the last. */
  datatype Record = Record(events: seq<Event>, states: seq<State>)

  type Trace = r: Record | |r.states| == |r.events| + 1 witness Record([], [Init])

  ghost predicate StepAt(r: Trace, n: nat)
    requires n < |r.events|
  {
    r.states[n + 1] == Next(r.states[n], r.events[n]) && |r.states[n].history| == n
  }

  ghost predicate IsRun(r: Trace) { r.states[0] == Init && forall n :: 0 <= n < |r.events| ==> StepAt(r, n) }

  function TraceOf(events: seq<Event>): Trace {
    Record(events, seq(|events| + 1, n requires 0 <= n <= |events| => Run(events[..n])))
  }

  lemma {:induction false} TraceIsRun(events: seq<Event>)
    ensures IsRun(TraceOf(events)) && TraceOf(events).states[|events|] == Run(events)
  {
    assert events[..|events|] == events;
    forall n | 0 <= n < |events|
      ensures StepAt(TraceOf(events), n)
    {
      RunInv(events[..n]);
      assert events[..n + 1][..n] == events[..n];
    }
  }

  /** What a step does to the cache, if anything. */
  function OpOf(s: State, event: Event): Option<Op> {
    match event
    case Insert(id) =>
      if id in s.calls && s.calls[id].phase.Connected?
      then Some(OpInsert(s.calls[id].key, s.calls[id].endpoint, s.calls[id].phase.generation, s.calls[id].phase.conn)) else None
    case Invalidate(key, conn) => Some(OpInvalidate(key, conn))
    case Forget(context) => Some(OpForget(context))
    case Clear => Some(OpClear)
    case _ => None
  }

  function Listed(op: Option<Op>): seq<Op> { if op.None? then [] else [op.value] }

  /** What the steps from `from` to `to` do to the cache, in order. */
  function OpsBetween(r: Trace, from: nat, to: nat): seq<Op>
    requires to <= |r.events|
  {
    if to <= from then [] else OpsBetween(r, from, to - 1) + Listed(OpOf(r.states[to - 1], r.events[to - 1]))
  }

  lemma StepApplies(s: State, event: Event)
    ensures Next(s, event).cache == if OpOf(s, event).Some? then ApplyOp(s.cache, OpOf(s, event).value) else s.cache
  {
  }

  lemma OthersStep(c: Cache, ops: seq<Op>, r: Trace, n: nat)
    requires IsRun(r) && n < |r.events| && OthersFn(c, ops) == r.states[n].cache
    ensures OthersFn(c, ops + Listed(OpOf(r.states[n], r.events[n]))) == r.states[n + 1].cache
  {
    var op := OpOf(r.states[n], r.events[n]);
    assert StepAt(r, n);
    StepApplies(r.states[n], r.events[n]);
    if op.Some? {
      assert (ops + [op.value])[..|ops|] == ops;
    } else {
      assert ops + [] == ops;
    }
  }

  /** They make the one cache from the other. */
  lemma {:induction false} OpsReplay(r: Trace, from: nat, to: nat)
    requires IsRun(r) && from <= to <= |r.events|
    ensures OthersFn(r.states[from].cache, OpsBetween(r, from, to)) == r.states[to].cache
  {
    if from < to {
      OpsReplay(r, from, to - 1);
      OthersStep(r.states[from].cache, OpsBetween(r, from, to - 1), r, to - 1);
    }
  }

  // ----- The call's own steps -----

  /** Step `j` is a step of call `id`. */
  ghost predicate Moves(r: Trace, id: nat, j: nat)
    requires j < |r.events|
  {
    id in r.states[j].calls && id in r.states[j + 1].calls && r.states[j + 1].calls[id] != r.states[j].calls[id]
  }

  ghost predicate Waits(r: Trace, id: nat, from: nat, to: nat)
    requires to <= |r.events|
  {
    forall j :: from <= j < to ==> !Moves(r, id, j)
  }

  /** The call does nothing but connect. */
  ghost predicate Connects(r: Trace, id: nat, from: nat, to: nat)
    requires to <= |r.events|
  {
    forall j :: from <= j < to && Moves(r, id, j) ==> r.events[j] == StartConnect(id) || r.events[j] == EndConnect(id, true)
  }

  /** An attempt: from when it could begin, the step of its lookup, and the step that ended it. */
  datatype Span = Span(from: nat, look: nat, to: nat)

  ghost predicate IsSpan(r: Trace, id: nat, a: Span) {
    && a.from <= a.look <= a.to < |r.events|
    && Waits(r, id, a.from, a.look)
    && Moves(r, id, a.look) && r.events[a.look] == LookUp(id)
    && Connects(r, id, a.look + 1, a.to)
    && Moves(r, id, a.to) && (a.to == a.look || r.events[a.to] == EndConnect(id, false) || r.events[a.to] == Insert(id))
  }

  /** The call's attempts, one after the other, from step `began` on and before step `end`. */
  ghost predicate AreSpans(r: Trace, id: nat, spans: seq<Span>, began: nat, end: nat) {
    if spans == [] then end == began else
    var last := spans[|spans| - 1];
    IsSpan(r, id, last) && end == last.to + 1 && AreSpans(r, id, spans[..|spans| - 1], began, last.from)
  }

  /** The connection that the call inserts with step `to`, if that is what it does. */
  function Inserted(r: Trace, id: nat, to: nat): Option<Conn>
    requires to < |r.events|
  {
    var s := r.states[to];
    if r.events[to] == Insert(id) && id in s.calls && s.calls[id].phase.Connected? then Some(s.calls[id].phase.conn) else None
  }

  /** An attempt with what the others did: before its lookup, and from there to its end. */
  function AttemptOf(r: Trace, id: nat, a: Span): Attempt
    requires a.look <= a.to < |r.events|
  {
    Attempt(OpsBetween(r, a.from, a.look), OpsBetween(r, a.look + 1, a.to), Inserted(r, id, a.to))
  }

  function AttemptsOf(r: Trace, id: nat, spans: seq<Span>): (attempts: seq<Attempt>)
    requires forall a :: a in spans ==> a.look <= a.to < |r.events|
    ensures |attempts| == |spans|
  {
    seq(|spans|, i requires 0 <= i < |spans| => AttemptOf(r, id, spans[i]))
  }

  /**
   * The call returned before step `end`; its result, and the cache then, are those
   * of one call of the object, whatever the attempts it never made would have met.
   */
  ghost predicate IsCall(r: Trace, id: nat, call: Call, spans: seq<Span>, end: nat) {
    && call.began < end <= |r.events| && call.phase.Done? && 1 <= |spans| <= 2
    && AreSpans(r, id, spans, call.began + 1, end)
    && id in r.states[end].calls && r.states[end].calls[id] == call
    && (forall a :: a in spans ==> a.look <= a.to < |r.events|)
    && forall unused {:trigger AttemptsOf(r, id, spans) + unused} :: |spans| + |unused| == 2 ==>
         CallFn(r.states[call.began].cache, call.key, call.endpoint, AttemptsOf(r, id, spans) + unused)
           == (r.states[end].cache, call.phase.result)
  }

  // ----- A call on its way -----

  /** After the attempts `failed` the call goes on from the cache `base`. */
  ghost predicate GoesOn(start: Cache, call: Call, failed: seq<Attempt>, base: Cache) {
    forall rest {:trigger failed + rest} :: CallFn(start, call.key, call.endpoint, failed + rest) == CallFn(base, call.key, call.endpoint, rest)
  }

  /** The lookup of the attempt missed, and the call has only connected since. */
  ghost predicate Looked(r: Trace, n: nat, id: nat, call: Call, from: nat, look: nat, generation: nat)
    requires n <= |r.events|
  {
    && from <= look < n && Waits(r, id, from, look)
    && Moves(r, id, look) && r.events[look] == LookUp(id) && Connects(r, id, look + 1, n)
    && LookUpFn(r.states[look].cache, call.key, call.endpoint).None? && r.states[look].cache.generation == generation
  }

  /** Before step `n`: the failed attempts, and where the present one began. */
  ghost predicate Tracks(r: Trace, n: nat, id: nat, call: Call, spans: seq<Span>, from: nat, look: nat)
    requires n <= |r.events| && call.began < n
  {
    && |spans| == call.attempt <= 1 && call.began < from <= n
    && AreSpans(r, id, spans, call.began + 1, from)
    && (forall a :: a in spans ==> a.look <= a.to < |r.events|)
    && GoesOn(r.states[call.began].cache, call, AttemptsOf(r, id, spans), r.states[from].cache)
    && (match call.phase
        case Ready => Waits(r, id, from, n)
        case Missed(generation) => Looked(r, n, id, call, from, look, generation)
        case Connecting(generation, _) => Looked(r, n, id, call, from, look, generation)
        case Connected(generation, _) => Looked(r, n, id, call, from, look, generation)
        case Done(_) => true)
  }

  /** A call that is over returned before step `from`; any other is on its way. */
  ghost predicate Follows(r: Trace, n: nat, id: nat, spans: seq<Span>, from: nat, look: nat)
    requires n <= |r.events| && id in r.states[n].calls
  {
    var call := r.states[n].calls[id];
    && call.began < n
    && if call.phase.Done? then IsCall(r, id, call, spans, from) else Tracks(r, n, id, call, spans, from, look)
  }

  // ----- The steps of a call -----

  lemma JoinAttempts(start: Cache, call: Call, failed: seq<Attempt>, base: Cache, next: Attempt, rest: seq<Attempt>)
    requires GoesOn(start, call, failed, base)
    ensures CallFn(start, call.key, call.endpoint, failed + [next] + rest) == CallFn(base, call.key, call.endpoint, [next] + rest)
  {
    assert failed + [next] + rest == failed + ([next] + rest);
  }

  lemma AddSpan(r: Trace, id: nat, spans: seq<Span>, a: Span, began: nat)
    requires IsSpan(r, id, a) && AreSpans(r, id, spans, began, a.from)
    requires forall b :: b in spans ==> b.look <= b.to < |r.events|
    ensures AreSpans(r, id, spans + [a], began, a.to + 1)
    ensures forall b :: b in spans + [a] ==> b.look <= b.to < |r.events|
    ensures AttemptsOf(r, id, spans + [a]) == AttemptsOf(r, id, spans) + [AttemptOf(r, id, a)]
  {
    assert (spans + [a])[..|spans|] == spans;
  }

  /** An attempt more, and what that makes of the call. */
  lemma OneMore(r: Trace, id: nat, call: Call, spans: seq<Span>, a: Span)
    requires call.began <= |r.events| && IsSpan(r, id, a) && AreSpans(r, id, spans, call.began + 1, a.from)
    requires forall b :: b in spans ==> b.look <= b.to < |r.events|
    requires GoesOn(r.states[call.began].cache, call, AttemptsOf(r, id, spans), r.states[a.from].cache)
    ensures AreSpans(r, id, spans + [a], call.began + 1, a.to + 1)
    ensures forall b :: b in spans + [a] ==> b.look <= b.to < |r.events|
    ensures forall rest {:trigger AttemptsOf(r, id, spans + [a]) + rest} :: CallFn(r.states[call.began].cache, call.key, call.endpoint, AttemptsOf(r, id, spans + [a]) + rest)
                             == CallFn(r.states[a.from].cache, call.key, call.endpoint, [AttemptOf(r, id, a)] + rest)
  {
    AddSpan(r, id, spans, a, call.began + 1);
    var start, base := r.states[call.began].cache, r.states[a.from].cache;
    forall rest
      ensures CallFn(start, call.key, call.endpoint, AttemptsOf(r, id, spans + [a]) + rest)
                == CallFn(base, call.key, call.endpoint, [AttemptOf(r, id, a)] + rest)
    {
      JoinAttempts(start, call, AttemptsOf(r, id, spans), base, AttemptOf(r, id, a), rest);
    }
  }

  lemma FirstAttempt(c: Cache, key: Key, endpoint: Endpoint, a: Attempt, rest: seq<Attempt>)
    ensures var seen := OthersFn(c, a.before);
            var later := OthersFn(seen, a.others);
            CallFn(c, key, endpoint, [a] + rest) ==
              if LookUpFn(seen, key, endpoint).Some? then (seen, Ok(LookUpFn(seen, key, endpoint).value)) else
              if a.connected.None? then (later, Err(ConnectFailed)) else
              var (inserted, result) := InsertFn(later, key, endpoint, seen.generation, a.connected.value);
              if result.Some? then (inserted, Ok(result.value)) else CallFn(inserted, key, endpoint, rest)
  {
    assert ([a] + rest)[0] == a && ([a] + rest)[1..] == rest;
  }

  lemma LookUpKeeps(r: Trace, n: nat, id: nat)
    requires IsRun(r) && n < |r.events| && r.events[n] == LookUp(id)
    ensures r.states[n + 1].cache == r.states[n].cache
  {
    assert StepAt(r, n);
  }

  /** The caches that the attempt meets. */
  lemma AttemptMeets(r: Trace, id: nat, a: Span)
    requires IsRun(r) && a.from <= a.look <= a.to < |r.events| && r.events[a.look] == LookUp(id)
    ensures OthersFn(r.states[a.from].cache, AttemptOf(r, id, a).before) == r.states[a.look].cache
    ensures OthersFn(r.states[a.look].cache, AttemptOf(r, id, a).others) == r.states[a.to].cache
  {
    OpsReplay(r, a.from, a.look);
    LookUpKeeps(r, a.look, id);
    if a.look < a.to {
      OpsReplay(r, a.look + 1, a.to);
    }
  }

  /** What one attempt gives, from the cache at its beginning. */
  lemma AttemptGives(r: Trace, id: nat, key: Key, endpoint: Endpoint, a: Span, rest: seq<Attempt>)
    requires IsRun(r) && IsSpan(r, id, a)
    ensures var seen, now := r.states[a.look].cache, r.states[a.to].cache;
            CallFn(r.states[a.from].cache, key, endpoint, [AttemptOf(r, id, a)] + rest) ==
              if LookUpFn(seen, key, endpoint).Some? then (seen, Ok(LookUpFn(seen, key, endpoint).value)) else
              if Inserted(r, id, a.to).None? then (now, Err(ConnectFailed)) else
              var (inserted, result) := InsertFn(now, key, endpoint, seen.generation, Inserted(r, id, a.to).value);
              if result.Some? then (inserted, Ok(result.value)) else CallFn(inserted, key, endpoint, rest)
  {
    AttemptMeets(r, id, a);
    FirstAttempt(r.states[a.from].cache, key, endpoint, AttemptOf(r, id, a), rest);
  }

  /** The attempt `a` ends the call with the next step. */
  lemma Finishes(r: Trace, id: nat, call: Call, after: Call, spans: seq<Span>, a: Span)
    requires IsSpan(r, id, a) && call.began < a.from && |spans| == call.attempt <= 1
    requires AreSpans(r, id, spans, call.began + 1, a.from) && (forall b :: b in spans ==> b.look <= b.to < |r.events|)
    requires GoesOn(r.states[call.began].cache, call, AttemptsOf(r, id, spans), r.states[a.from].cache)
    requires after.phase.Done? && after.key == call.key && after.endpoint == call.endpoint && after.began == call.began
    requires id in r.states[a.to + 1].calls && r.states[a.to + 1].calls[id] == after
    requires forall rest {:trigger [AttemptOf(r, id, a)] + rest} :: call.attempt + 1 + |rest| == 2 ==>
               CallFn(r.states[a.from].cache, call.key, call.endpoint, [AttemptOf(r, id, a)] + rest)
                 == (r.states[a.to + 1].cache, after.phase.result)
    ensures IsCall(r, id, after, spans + [a], a.to + 1)
  {
    OneMore(r, id, call, spans, a);
  }

  lemma LookUpEffect(r: Trace, n: nat, id: nat)
    requires IsRun(r) && n < |r.events| && r.events[n] == LookUp(id) && id in r.states[n].calls && r.states[n].calls[id].phase.Ready?
    ensures var s, t, call := r.states[n], r.states[n + 1], r.states[n].calls[id];
            var hit := LookUpFn(s.cache, call.key, call.endpoint);
            && t.cache == s.cache && id in t.calls
            && t.calls[id] == call.(phase := if hit.Some? then Done(Ok(hit.value)) else Missed(s.cache.generation))
  {
    assert StepAt(r, n);
  }

  /** The lookup: it ends the call, or the call goes on to connect. */
  lemma LookUpStep(r: Trace, n: nat, id: nat, spans: seq<Span>, from: nat, look: nat)
    returns (spans': seq<Span>, from': nat)
    requires IsRun(r) && n < |r.events| && r.events[n] == LookUp(id) && id in r.states[n].calls && r.states[n].calls[id].phase.Ready?
    requires Follows(r, n, id, spans, from, look)
    ensures id in r.states[n + 1].calls && Follows(r, n + 1, id, spans', from', n)
  {
    LookUpEffect(r, n, id);
    var call, after := r.states[n].calls[id], r.states[n + 1].calls[id];
    assert Moves(r, id, n);
    spans', from' := spans, from;
    if after.phase.Done? {
      LookUpHits(r, n, id, spans, from);
      spans', from' := spans + [Span(from, n, n)], n + 1;
    }
  }

  lemma LookUpHits(r: Trace, n: nat, id: nat, spans: seq<Span>, from: nat)
    requires IsRun(r) && n < |r.events| && id in r.states[n].calls && r.states[n].calls[id].began < from && |spans| == r.states[n].calls[id].attempt <= 1
    requires var call, a := r.states[n].calls[id], Span(from, n, n);
             && IsSpan(r, id, a) && AreSpans(r, id, spans, call.began + 1, from) && (forall b :: b in spans ==> b.look <= b.to < |r.events|)
             && GoesOn(r.states[call.began].cache, call, AttemptsOf(r, id, spans), r.states[from].cache)
             && LookUpFn(r.states[n].cache, call.key, call.endpoint).Some?
             && id in r.states[n + 1].calls && r.states[n + 1].cache == r.states[n].cache
             && r.states[n + 1].calls[id] == call.(phase := Done(Ok(LookUpFn(r.states[n].cache, call.key, call.endpoint).value)))
    ensures IsCall(r, id, r.states[n + 1].calls[id], spans + [Span(from, n, n)], n + 1)
  {
    var call, a := r.states[n].calls[id], Span(from, n, n);
    forall rest | call.attempt + 1 + |rest| == 2
      ensures CallFn(r.states[from].cache, call.key, call.endpoint, [AttemptOf(r, id, a)] + rest)
                == (r.states[n + 1].cache, r.states[n + 1].calls[id].phase.result)
    {
      AttemptGives(r, id, call.key, call.endpoint, a, rest);
    }
    Finishes(r, id, call, r.states[n + 1].calls[id], spans, a);
  }

  /** Connecting begins, succeeds or fails; the generation seen stays with the call. */
  lemma ConnectEffect(r: Trace, n: nat, id: nat)
    requires IsRun(r) && n < |r.events| && id in r.states[n].calls && Moves(r, id, n)
    requires r.events[n] == StartConnect(id) || (r.events[n].EndConnect? && r.events[n].id == id)
    ensures var call, after := r.states[n].calls[id], r.states[n + 1].calls[id];
            && r.states[n + 1].cache == r.states[n].cache && (call.phase.Missed? || call.phase.Connecting?)
            && (if r.events[n] == EndConnect(id, false) then after == call.(phase := Done(Err(ConnectFailed))) else
                  && (after.phase.Connecting? || after.phase.Connected?) && after.phase.generation == call.phase.generation
                  && after == call.(connects := after.connects, phase := after.phase))
  {
    assert StepAt(r, n);
  }

  /** The call goes on connecting. */
  lemma ConnectsOn(r: Trace, n: nat, id: nat, spans: seq<Span>, from: nat, look: nat)
    requires IsRun(r) && n < |r.events| && id in r.states[n].calls && Follows(r, n, id, spans, from, look) && Moves(r, id, n)
    requires r.events[n] == StartConnect(id) || r.events[n] == EndConnect(id, true)
    ensures Follows(r, n + 1, id, spans, from, look)
  {
    ConnectEffect(r, n, id);
  }

  lemma FailGives(r: Trace, id: nat, call: Call, a: Span)
    requires IsRun(r) && IsSpan(r, id, a) && r.events[a.to].EndConnect?
    requires LookUpFn(r.states[a.look].cache, call.key, call.endpoint).None?
    ensures forall rest {:trigger [AttemptOf(r, id, a)] + rest} ::
              CallFn(r.states[a.from].cache, call.key, call.endpoint, [AttemptOf(r, id, a)] + rest) == (r.states[a.to].cache, Err(ConnectFailed))
  {
    forall rest
      ensures CallFn(r.states[a.from].cache, call.key, call.endpoint, [AttemptOf(r, id, a)] + rest) == (r.states[a.to].cache, Err(ConnectFailed))
    {
      AttemptGives(r, id, call.key, call.endpoint, a, rest);
    }
  }

  /** The connect fails, and with it the call. */
  lemma ConnectFails(r: Trace, n: nat, id: nat, spans: seq<Span>, from: nat, look: nat)
    requires IsRun(r) && n < |r.events| && id in r.states[n].calls && Follows(r, n, id, spans, from, look) && Moves(r, id, n)
    requires r.events[n] == EndConnect(id, false)
    ensures Follows(r, n + 1, id, spans + [Span(from, look, n)], n + 1, look)
  {
    ConnectEffect(r, n, id);
    var call, after, a := r.states[n].calls[id], r.states[n + 1].calls[id], Span(from, look, n);
    FailGives(r, id, call, a);
    Finishes(r, id, call, after, spans, a);
  }

  lemma InsertEffect(r: Trace, n: nat, id: nat)
    requires IsRun(r) && n < |r.events| && r.events[n] == Insert(id) && id in r.states[n].calls && r.states[n].calls[id].phase.Connected?
    ensures var s, t, call := r.states[n], r.states[n + 1], r.states[n].calls[id];
            var (cache, result) := InsertFn(s.cache, call.key, call.endpoint, call.phase.generation, call.phase.conn);
            && t.cache == cache && id in t.calls
            && t.calls[id] == if result.Some? then call.(phase := Done(Ok(result.value)))
                              else if call.attempt == 0 then call.(attempt := 1, phase := Ready) else call.(phase := Done(Err(SettingsChanged)))
  {
    assert StepAt(r, n);
  }

  /** The insert: it ends the call, or the call starts over. */
  lemma InsertStep(r: Trace, n: nat, id: nat, spans: seq<Span>, from: nat, look: nat)
    requires IsRun(r) && n < |r.events| && r.events[n] == Insert(id) && id in r.states[n].calls && r.states[n].calls[id].phase.Connected?
    requires Follows(r, n, id, spans, from, look)
    ensures id in r.states[n + 1].calls && Follows(r, n + 1, id, spans + [Span(from, look, n)], n + 1, look)
  {
    InsertEffect(r, n, id);
    var call, after, a := r.states[n].calls[id], r.states[n + 1].calls[id], Span(from, look, n);
    assert Moves(r, id, n);
    InsertGives(r, id, call, a);
    if after.phase.Done? {
      Finishes(r, id, call, after, spans, a);
    } else {
      OneMore(r, id, call, spans, a);
    }
  }

  lemma InsertGives(r: Trace, id: nat, call: Call, a: Span)
    requires IsRun(r) && IsSpan(r, id, a) && a.look < a.to && r.events[a.to] == Insert(id) && call.phase.Connected?
    requires id in r.states[a.to].calls && r.states[a.to].calls[id] == call
    requires LookUpFn(r.states[a.look].cache, call.key, call.endpoint).None? && r.states[a.look].cache.generation == call.phase.generation
    ensures var (cache, result) := InsertFn(r.states[a.to].cache, call.key, call.endpoint, call.phase.generation, call.phase.conn);
            forall rest {:trigger [AttemptOf(r, id, a)] + rest} :: CallFn(r.states[a.from].cache, call.key, call.endpoint, [AttemptOf(r, id, a)] + rest) ==
                             if result.Some? then (cache, Ok(result.value)) else CallFn(cache, call.key, call.endpoint, rest)
  {
    forall rest
      ensures var (cache, result) := InsertFn(r.states[a.to].cache, call.key, call.endpoint, call.phase.generation, call.phase.conn);
              CallFn(r.states[a.from].cache, call.key, call.endpoint, [AttemptOf(r, id, a)] + rest) ==
                if result.Some? then (cache, Ok(result.value)) else CallFn(cache, call.key, call.endpoint, rest)
    {
      AttemptGives(r, id, call.key, call.endpoint, a, rest);
    }
  }

  /** A call is changed by its own steps only. */
  lemma OwnSteps(r: Trace, n: nat, id: nat)
    requires IsRun(r) && n < |r.events| && id in r.states[n].calls
    ensures id in r.states[n + 1].calls
    ensures Moves(r, id, n) ==>
              var s, event := r.states[n], r.events[n];
              || (event == LookUp(id) && s.calls[id].phase.Ready?) || event == StartConnect(id)
              || (event.EndConnect? && event.id == id) || (event == Insert(id) && s.calls[id].phase.Connected?)
  {
    assert StepAt(r, n);
  }

  /** Steps after the lookup of an attempt. */
  lemma LaterStep(r: Trace, n: nat, id: nat, spans: seq<Span>, from: nat, look: nat)
    returns (spans': seq<Span>, from': nat)
    requires IsRun(r) && n < |r.events| && id in r.states[n].calls && Follows(r, n, id, spans, from, look) && Moves(r, id, n)
    requires r.events[n] != LookUp(id)
    ensures Follows(r, n + 1, id, spans', from', look)
  {
    OwnSteps(r, n, id);
    if r.events[n] == Insert(id) {
      spans', from' := spans + [Span(from, look, n)], n + 1;
      InsertStep(r, n, id, spans, from, look);
    } else if r.events[n] == EndConnect(id, false) {
      spans', from' := spans + [Span(from, look, n)], n + 1;
      ConnectFails(r, n, id, spans, from, look);
    } else {
      spans', from' := spans, from;
      ConnectsOn(r, n, id, spans, from, look);
    }
  }

  lemma OwnStep(r: Trace, n: nat, id: nat, spans: seq<Span>, from: nat, look: nat)
    returns (spans': seq<Span>, from': nat, look': nat)
    requires IsRun(r) && n < |r.events| && id in r.states[n].calls && Follows(r, n, id, spans, from, look) && Moves(r, id, n)
    ensures Follows(r, n + 1, id, spans', from', look')
  {
    if r.events[n] == LookUp(id) {
      OwnSteps(r, n, id);
      look' := n;
      spans', from' := LookUpStep(r, n, id, spans, from, look);
    } else {
      look' := look;
      spans', from' := LaterStep(r, n, id, spans, from, look);
    }
  }

  /** A step that is not the call's. */
  lemma OtherStep(r: Trace, n: nat, id: nat, spans: seq<Span>, from: nat, look: nat)
    requires n < |r.events| && id in r.states[n].calls && Follows(r, n, id, spans, from, look)
    requires id in r.states[n + 1].calls && r.states[n + 1].calls[id] == r.states[n].calls[id]
    ensures Follows(r, n + 1, id, spans, from, look)
  {
    assert !Moves(r, id, n);
  }

  /** A call that has just begun. */
  lemma NewCall(r: Trace, n: nat, id: nat)
    requires IsRun(r) && n < |r.events| && id !in r.states[n].calls && id in r.states[n + 1].calls
    ensures Follows(r, n + 1, id, [], n + 1, n + 1)
  {
    assert StepAt(r, n);
    assert forall rest: seq<Attempt> :: [] + rest == rest;
  }

  /** Every call follows the object's method at every time, in every interleaving. */
  lemma {:induction false} CallFollows(r: Trace, n: nat, id: nat) returns (spans: seq<Span>, from: nat, look: nat)
    requires IsRun(r) && n <= |r.events| && id in r.states[n].calls
    ensures Follows(r, n, id, spans, from, look)
  {
    var m := n - 1;
    if id !in r.states[m].calls {
      spans, from, look := [], n, n;
      NewCall(r, m, id);
    } else {
      spans, from, look := CallFollows(r, m, id);
      OwnSteps(r, m, id);
      if !Moves(r, id, m) {
        OtherStep(r, m, id, spans, from, look);
      } else {
        spans, from, look := OwnStep(r, m, id, spans, from, look);
      }
    }
  }

  /**
   * In every interleaving, a call that is over gave what one call of the object
   * gives, and left the cache as that call does when it returned: the call from
   * the cache it began with, whose attempts met what the other callers did
   * between the call's own steps, in the order in which they did it.
   */
  lemma CallIsSequential(events: seq<Event>, id: nat) returns (spans: seq<Span>, end: nat)
    requires id in Run(events).calls && Run(events).calls[id].phase.Done?
    ensures IsCall(TraceOf(events), id, Run(events).calls[id], spans, end)
  {
    TraceIsRun(events);
    var look;
    spans, end, look := CallFollows(TraceOf(events), |events|, id);
  }
}
