module HistoryCommands {
  // The commands behind the log view (`elastic_search`, `elastic_close_cursor`): a
  // connection per (kubeconfig, context) and endpoint, cached until a search finds
  // the server unreachable or someone else drops it; each endpoint with its server.
  //
  // The commands themselves are atomic here. What others do to the cache while one
  // connects is the subject of `ConnCache`.

  import opened Prelude
  import opened HistoryTransport
  import C = ConnCache

  type Conn = C.Conn

  /** The cluster and endpoint a page comes from. */
  datatype Source = Source(key: C.Key, endpoint: C.Endpoint)

  /** The server of a source: what it will answer, every exchange with it, and on which connection each was. */
  datatype Wire = Wire(answers: seq<Answer>, log: seq<Exchange>, on: seq<Conn>, live: set<nat>)

  /** Cached connections, the next connection's name, the connections that were refused a PIT, and the servers. */
  datatype Backend = Backend(cache: C.Cache, nextConn: Conn, refused: set<Conn>, wires: map<Source, Wire>)

  const SILENT := Wire([], [], [], {})

  function WireOf(b: Backend, src: Source): Wire { if src in b.wires then b.wires[src] else SILENT }

  function Log(b: Backend, src: Source): seq<Exchange> { WireOf(b, src).log }

  function Cached(b: Backend, src: Source): Option<Conn> { C.LookUpFn(b.cache, src.key, src.endpoint) }

  /** A connection to the server of `src`. */
  function ClientOf(b: Backend, src: Source, conn: Conn): Client {
    Client(conn in b.refused, WireOf(b, src).answers, Log(b, src), WireOf(b, src).live)
  }

  function Repeat(conn: Conn, n: nat): (on: seq<Conn>)
    ensures |on| == n && forall i :: 0 <= i < n ==> on[i] == conn
  {
    seq(n, _ => conn)
  }

  /** After `conn` talked to the server of `src`. */
  function Put(b: Backend, src: Source, conn: Conn, c: Client): Backend {
    var w := WireOf(b, src);
    var on := if |c.log| >= |w.on| then w.on + Repeat(conn, |c.log| - |w.on|) else w.on;
    b.(wires := b.wires[src := Wire(c.answers, c.log, on, c.live)],
       refused := if c.noPit then b.refused + {conn} else b.refused)
  }

  /** The cached connection, or a new one if connecting works. */
  function AcquireFn(b: Backend, src: Source, up: bool): (Backend, Option<Conn>) {
    if Cached(b, src).Some? then (b, Cached(b, src)) else
    if !up then (b, None) else
    var (cache, conn) := C.InsertFn(b.cache, src.key, src.endpoint, b.cache.generation, b.nextConn);
    (b.(cache := cache, nextConn := b.nextConn + 1), conn)
  }

  /** One page; a server that cannot be reached costs the connection its place. */
  function FetchFn(b: Backend, src: Source, up: bool, cursor: Option<Cursor>, size: nat): (Backend, Result<Page, Error>)
    requires size >= 1
  {
    var (a, acquired) := AcquireFn(b, src, up);
    if acquired.None? then (a, Err(Connect)) else
    var conn := acquired.value;
    var s := SearchFn(ClientOf(a, src, conn), cursor, size);
    var after := Put(a, src, conn, s.client);
    (if s.result == Err(Connect) then after.(cache := C.InvalidateFn(after.cache, src.key, conn)) else after, s.result)
  }

  /** Closes what a cursor holds, on the connection that is cached for its source, if one is. */
  function ReleaseFn(b: Backend, source: Option<Source>, cursor: Option<Cursor>): Backend {
    if source.None? || cursor.None? || Cached(b, source.value).None? then b else
    var conn := Cached(b, source.value).value;
    Put(b, source.value, conn, CloseCursorFn(ClientOf(b, source.value, conn), cursor))
  }

  /** Someone else's step on the cache; connections they bring have names of their own. */
  function OutsideFn(b: Backend, step: C.Op): Backend {
    b.(cache := C.ApplyOp(b.cache, step),
       nextConn := if step.OpInsert? && step.conn >= b.nextConn then step.conn + 1 else b.nextConn)
  }

  /** Someone else was refused a PIT on a connection. */
  function RefusedFn(b: Backend, conn: Conn): Backend {
    if conn < b.nextConn then b.(refused := b.refused + {conn}) else b
  }

  function NewBackend(wires: map<Source, Wire>): Backend { Backend(C.Cache(map[], 0), 0, {}, wires) }

  // ----- The commands -----

  class Elastic {
    var cache: C.Cache
    var nextConn: Conn
    var refused: set<Conn>
    var wires: map<Source, Wire>

    function State(): Backend
      reads this
    {
      Backend(cache, nextConn, refused, wires)
    }

    constructor (wires: map<Source, Wire>)
      ensures State() == NewBackend(wires)
    {
      cache, nextConn, refused, this.wires := C.Cache(map[], 0), 0, {}, wires;
    }

    method GetOrConnect(src: Source, up: bool) returns (conn: Option<Conn>)
      modifies this
      ensures (State(), conn) == AcquireFn(old(State()), src, up)
    {
      conn := C.LookUpFn(cache, src.key, src.endpoint);
      if conn.Some? || !up {
        return;
      }
      var generation := cache.generation;
      var made := nextConn;
      nextConn := nextConn + 1;
      var inserted := C.InsertFn(cache, src.key, src.endpoint, generation, made);
      cache := inserted.0;
      return inserted.1;
    }

    method Search(src: Source, up: bool, cursor: Option<Cursor>, wanted: Option<nat>) returns (result: Result<Page, Error>)
      modifies this
      ensures (State(), result) == FetchFn(old(State()), src, up, cursor, ClampSize(wanted))
    {
      var acquired := GetOrConnect(src, up);
      if acquired.None? {
        return Err(Connect);
      }
      var conn := acquired.value;
      var s := SearchFn(ClientOf(State(), src, conn), cursor, ClampSize(wanted));
      Talked(src, conn, s.client);
      result := s.result;
      if result == Err(Connect) {
        cache := C.InvalidateFn(cache, src.key, conn);
      }
    }

    method CloseCursor(source: Option<Source>, cursor: Option<Cursor>)
      modifies this
      ensures State() == ReleaseFn(old(State()), source, cursor)
    {
      if source.None? || cursor.None? {
        return;
      }
      var conn := C.LookUpFn(cache, source.value.key, source.value.endpoint);
      if conn.Some? {
        Talked(source.value, conn.value, CloseCursorFn(ClientOf(State(), source.value, conn.value), cursor));
      }
    }

    method Talked(src: Source, conn: Conn, c: Client)
      modifies this`refused, this`wires
      ensures State() == Put(old(State()), src, conn, c)
    {
      var w := if src in wires then wires[src] else SILENT;
      var on := if |c.log| >= |w.on| then w.on + Repeat(conn, |c.log| - |w.on|) else w.on;
      wires := wires[src := Wire(c.answers, c.log, on, c.live)];
      if c.noPit {
        refused := refused + {conn};
      }
    }
  }

  // ----- What one command does -----

  /** The connection a search of `src` would be on. */
  function Talking(b: Backend, src: Source): Client {
    ClientOf(b, src, if Cached(b, src).Some? then Cached(b, src).value else b.nextConn)
  }

  predicate Reachable(b: Backend, src: Source, up: bool) { up || Cached(b, src).Some? }

  /** A search of a source is one call on its connection, and nothing else on any server. */
  lemma FetchIs(b: Backend, src: Source, up: bool, cursor: Option<Cursor>, size: nat)
    requires size >= 1
    ensures var (after, result) := FetchFn(b, src, up, cursor, size);
            && (forall other :: other != src ==> WireOf(after, other) == WireOf(b, other))
            && (if Reachable(b, src, up) then
                  var s := SearchFn(Talking(b, src), cursor, size);
                  result == s.result && Log(after, src) == s.client.log && WireOf(after, src).live == s.client.live
                else result == Err(Connect) && after == b)
  {
  }

  /** A release sends one close, or nothing. */
  lemma ReleaseIs(b: Backend, source: Option<Source>, cursor: Option<Cursor>)
    ensures var after := ReleaseFn(b, source, cursor);
            && after.cache == b.cache
            && (forall src :: source != Some(src) ==> WireOf(after, src) == WireOf(b, src))
            && (source.Some? ==>
                  && Log(b, source.value) <= Log(after, source.value) && |Log(after, source.value)| <= |Log(b, source.value)| + 1
                  && (forall i :: |Log(b, source.value)| <= i < |Log(after, source.value)| ==> Log(after, source.value)[i].request.ClosePit?)
                  && WireOf(after, source.value).live ==
                       WireOf(b, source.value).live - (if Cached(b, source.value).Some? then Carried(cursor) else {}))
  {
  }

  /** After a page a connection is cached; so it is after any search that reached the server. */
  lemma FetchCaches(b: Backend, src: Source, up: bool, cursor: Option<Cursor>, size: nat)
    requires size >= 1 && FetchFn(b, src, up, cursor, size).1 != Err(Connect)
    ensures Cached(FetchFn(b, src, up, cursor, size).0, src).Some?
  {
  }
}
