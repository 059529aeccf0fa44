module LineAssembly {
  // The output of an exec session: a byte stream that arrives in chunks, cut into
  // lines, with a cap on how long a line may grow. Lines are byte sequences.

  import opened Prelude

  newtype byte = x: int | 0 <= x < 256

  type Line = seq<byte>

  const NEWLINE: byte := 10
  const RETURN: byte := 13
  const MAX_LINE_BYTES := 65536

  // ----- One byte at a time -----

  /** The lines given so far and the bytes of the unfinished one. */
  datatype Progress = Progress(lines: seq<Line>, pending: Line)

  const START := Progress([], [])

  function DropReturn(line: Line): Line {
    if line != [] && line[|line| - 1] == RETURN then line[..|line| - 1] else line
  }

  function Step(p: Progress, b: byte): Progress {
    if b == NEWLINE then Progress(p.lines + [DropReturn(p.pending)], []) else
    if |p.pending| + 1 >= MAX_LINE_BYTES then Progress(p.lines + [p.pending + [b]], []) else
    Progress(p.lines, p.pending + [b])
  }

  function Feed(p: Progress, bytes: seq<byte>): Progress {
    if bytes == [] then p else Step(Feed(p, bytes[..|bytes| - 1]), bytes[|bytes| - 1])
  }

  /** Everything the stream gives: its lines, then what is left when it ends. */
  function Flush(p: Progress): seq<Line> { p.lines + (if p.pending == [] then [] else [p.pending]) }

  function Whole(bytes: seq<byte>): seq<Line> { Flush(Feed(START, bytes)) }

  class LineAssembler {
    var pending: Line

    constructor ()
      ensures pending == []
    {
      pending := [];
    }

    /** Every line completed by `bytes`. */
    method Push(bytes: seq<byte>) returns (lines: seq<Line>)
      requires |pending| < MAX_LINE_BYTES
      modifies this
      ensures |pending| < MAX_LINE_BYTES
      ensures Progress(lines, pending) == Feed(Progress([], old(pending)), bytes)
    {
      lines := [];
      for i := 0 to |bytes|
        invariant |pending| < MAX_LINE_BYTES
        invariant Progress(lines, pending) == Feed(Progress([], old(pending)), bytes[..i])
      {
        assert bytes[..i + 1][..i] == bytes[..i];
        if bytes[i] == NEWLINE {
          if pending != [] && pending[|pending| - 1] == RETURN {
            pending := pending[..|pending| - 1];
          }
          var line := Take();
          lines := lines + [line];
        } else {
          pending := pending + [bytes[i]];
          if |pending| >= MAX_LINE_BYTES {
            var line := Take();
            lines := lines + [line];
          }
        }
      }
      assert bytes[..|bytes|] == bytes;
    }

    /** The trailing partial line, if any. */
    method Finish() returns (line: Option<Line>)
      modifies this
      ensures pending == []
      ensures line == if old(pending) == [] then None else Some(old(pending))
    {
      if pending == [] {
        return None;
      }
      var last := Take();
      line := Some(last);
    }

    method Take() returns (line: Line)
      modifies this
      ensures line == old(pending) && pending == []
    {
      line := pending;
      pending := [];
    }
  }

  // ----- Chunks do not matter -----

  lemma {:induction false} FeedJoins(p: Progress, a: seq<byte>, b: seq<byte>)
    ensures Feed(p, a + b) == Feed(Feed(p, a), b)
    decreases |b|
  {
    if b == [] {
      assert a + b == a;
    } else {
      var n := |b| - 1;
      FeedJoins(p, a, b[..n]);
      assert (a + b)[..|a + b| - 1] == a + b[..n];
    }
  }

  lemma {:induction false} FeedFrom(lines: seq<Line>, p: Progress, bytes: seq<byte>)
    ensures Feed(Progress(lines + p.lines, p.pending), bytes)
         == Progress(lines + Feed(p, bytes).lines, Feed(p, bytes).pending)
    decreases |bytes|
  {
    if bytes != [] {
      FeedFrom(lines, p, bytes[..|bytes| - 1]);
    }
  }

  /** What is read until the stream ends or fails; an empty read is the end. */
  function Received(chunks: seq<Option<seq<byte>>>): seq<byte> {
    if chunks == [] || chunks[0].None? || chunks[0].value == [] then [] else chunks[0].value + Received(chunks[1..])
  }

  function Accepted(lines: seq<Line>, room: nat): seq<Line> { if |lines| <= room then lines else lines[..room] }

  /** Sends lines until the receiver, which takes `room` in all, goes away. */
  method Send(sent: seq<Line>, lines: seq<Line>, room: nat) returns (now: seq<Line>, gone: bool)
    requires |sent| <= room
    ensures now == Accepted(sent + lines, room) && (gone <==> |sent + lines| > room)
  {
    now, gone := sent, false;
    for i := 0 to |lines|
      invariant |now| <= room && now == sent + lines[..i]
    {
      if |now| == room {
        assert (sent + lines)[..room] == sent + lines[..i];
        gone := true;
        return;
      }
      assert lines[..i + 1] == lines[..i] + [lines[i]];
      now := now + [lines[i]];
    }
    assert lines[..|lines|] == lines;
  }

  /**
   * Forwards the stream as lines. The receiver takes `room` of them, then goes
   * away. What is sent is the lines of the whole stream, whatever the chunks
   * were, cut only where the receiver went.
   */
  method Pump(chunks: seq<Option<seq<byte>>>, room: nat) returns (sent: seq<Line>)
    ensures sent == Accepted(Whole(Received(chunks)), room)
  {
    var assembler := new LineAssembler();
    sent := [];
    var next := 0;
    ghost var got: seq<byte> := [];
    while next < |chunks| && chunks[next].Some? && chunks[next].value != []
      invariant next <= |chunks|
      invariant |assembler.pending| < MAX_LINE_BYTES
      invariant |sent| <= room
      invariant Feed(START, got) == Progress(sent, assembler.pending)
      invariant Received(chunks) == got + Received(chunks[next..])
    {
      ghost var held := assembler.pending;
      var chunk := chunks[next].value;
      var lines := assembler.Push(chunk);
      NextChunk(got, chunk, sent, held, lines, assembler.pending);
      ReceivedStep(chunks, next, got);
      var gone: bool;
      ghost var all := sent + lines;
      sent, gone := Send(sent, lines, room);
      got := got + chunk;
      if gone {
        GoneEarly(got, Received(chunks[next + 1..]), all, assembler.pending, room);
        return;
      }
      next := next + 1;
    }
    assert got + [] == got;
    var last := assembler.Finish();
    if last.Some? && |sent| < room {
      sent := sent + [last.value];
    }
  }

  lemma {:induction false} NextChunk(got: seq<byte>, chunk: seq<byte>, sent: seq<Line>, held: Line, lines: seq<Line>, pending: Line)
    requires Feed(START, got) == Progress(sent, held) && Progress(lines, pending) == Feed(Progress([], held), chunk)
    ensures Feed(START, got + chunk) == Progress(sent + lines, pending)
  {
    FeedJoins(START, got, chunk);
    FeedFrom(sent, Progress([], held), chunk);
    assert sent + [] == sent;
  }

  lemma {:induction false} ReceivedStep(chunks: seq<Option<seq<byte>>>, next: nat, got: seq<byte>)
    requires next < |chunks| && chunks[next].Some? && chunks[next].value != []
    requires Received(chunks) == got + Received(chunks[next..])
    ensures Received(chunks) == (got + chunks[next].value) + Received(chunks[next + 1..])
  {
    assert chunks[next..][1..] == chunks[next + 1..];
    assert got + (chunks[next].value + Received(chunks[next + 1..])) == (got + chunks[next].value) + Received(chunks[next + 1..]);
  }

  /** Lines already given stay first. */
  lemma GoneEarly(a: seq<byte>, b: seq<byte>, lines: seq<Line>, pending: Line, room: nat)
    requires Feed(START, a) == Progress(lines, pending) && |lines| > room
    ensures Accepted(Whole(a + b), room) == Accepted(lines, room)
  {
    FeedJoins(START, a, b);
    FeedFrom(lines, Progress([], pending), b);
    assert lines + [] == lines;
    assert lines <= Whole(a + b);
  }

  // ----- What the lines are -----

  /** One line of the stream in pieces of at most the cap; `ended` by a newline or not. */
  function Pieces(line: seq<byte>, ended: bool): seq<Line>
    decreases |line|
  {
    if |line| >= MAX_LINE_BYTES then [line[..MAX_LINE_BYTES]] + Pieces(line[MAX_LINE_BYTES..], ended) else
    if ended then [DropReturn(line)] else if line == [] then [] else [line]
  }

  function NewlineAt(bytes: seq<byte>): (n: nat)
    ensures n <= |bytes| && NEWLINE !in bytes[..n] && (n < |bytes| ==> bytes[n] == NEWLINE)
  {
    if bytes == [] || bytes[0] == NEWLINE then 0 else
    var n := NewlineAt(bytes[1..]);
    assert bytes[..n + 1] == [bytes[0]] + bytes[1..][..n];
    n + 1
  }

  /** Cut at the newlines, each line in pieces. */
  function InPieces(bytes: seq<byte>): seq<Line>
    decreases |bytes|
  {
    var n := NewlineAt(bytes);
    if n == |bytes| then Pieces(bytes, false) else Pieces(bytes[..n], true) + InPieces(bytes[n + 1..])
  }

  /** Cut at the newlines, one `\r` dropped before each of them. */
  function SplitLines(bytes: seq<byte>): seq<Line>
    decreases |bytes|
  {
    var n := NewlineAt(bytes);
    if n == |bytes| then (if bytes == [] then [] else [bytes]) else [DropReturn(bytes[..n])] + SplitLines(bytes[n + 1..])
  }

  lemma {:induction false} FeedShort(bytes: seq<byte>)
    requires NEWLINE !in bytes && |bytes| < MAX_LINE_BYTES
    ensures Feed(START, bytes) == Progress([], bytes)
    decreases |bytes|
  {
    if bytes != [] {
      FeedShort(bytes[..|bytes| - 1]);
    }
  }

  lemma FeedPiece(bytes: seq<byte>)
    requires NEWLINE !in bytes && |bytes| == MAX_LINE_BYTES
    ensures Feed(START, bytes) == Progress([bytes], [])
  {
    var n := MAX_LINE_BYTES - 1;
    FeedShort(bytes[..n]);
    assert bytes == bytes[..n] + [bytes[n]];
  }

  /** After some bytes that leave nothing pending, the rest is read afresh. */
  lemma Afresh(a: seq<byte>, b: seq<byte>, lines: seq<Line>)
    requires Feed(START, a) == Progress(lines, [])
    ensures Whole(a + b) == lines + Whole(b)
  {
    FeedJoins(START, a, b);
    FeedFrom(lines, START, b);
    assert lines + [] == lines;
    var p := Feed(START, b);
    assert (lines + p.lines) + (if p.pending == [] then [] else [p.pending])
        == lines + (p.lines + (if p.pending == [] then [] else [p.pending]));
  }

  lemma {:induction false} LastLine(bytes: seq<byte>)
    requires NEWLINE !in bytes
    ensures Whole(bytes) == Pieces(bytes, false)
    decreases |bytes|
  {
    if |bytes| < MAX_LINE_BYTES {
      FeedShort(bytes);
    } else {
      var head, tail := bytes[..MAX_LINE_BYTES], bytes[MAX_LINE_BYTES..];
      assert bytes == head + tail;
      FeedPiece(head);
      Afresh(head, tail, [head]);
      LastLine(tail);
    }
  }

  lemma {:induction false} EndedLine(bytes: seq<byte>)
    requires NEWLINE !in bytes
    ensures Feed(START, bytes + [NEWLINE]) == Progress(Pieces(bytes, true), [])
    decreases |bytes|
  {
    if |bytes| < MAX_LINE_BYTES {
      FeedShort(bytes);
      assert (bytes + [NEWLINE])[..|bytes|] == bytes;
    } else {
      var head, tail := bytes[..MAX_LINE_BYTES], bytes[MAX_LINE_BYTES..];
      assert bytes + [NEWLINE] == head + (tail + [NEWLINE]);
      FeedPiece(head);
      EndedLine(tail);
      FeedJoins(START, head, tail + [NEWLINE]);
      FeedFrom([head], START, tail + [NEWLINE]);
      assert [head] + [] == [head];
    }
  }

  /** For every stream: cut at the newlines, each line in pieces of the cap. */
  lemma {:induction false} WholeIsInPieces(bytes: seq<byte>)
    ensures Whole(bytes) == InPieces(bytes)
    decreases |bytes|
  {
    var n := NewlineAt(bytes);
    if n == |bytes| {
      assert bytes[..n] == bytes;
      LastLine(bytes);
    } else {
      assert bytes == (bytes[..n] + [NEWLINE]) + bytes[n + 1..];
      EndedLine(bytes[..n]);
      Afresh(bytes[..n] + [NEWLINE], bytes[n + 1..], Pieces(bytes[..n], true));
      WholeIsInPieces(bytes[n + 1..]);
    }
  }

  /** Every line ended by a newline is below the cap, the last one at most at it. */
  predicate NoLongLine(bytes: seq<byte>)
    decreases |bytes|
  {
    var n := NewlineAt(bytes);
    if n == |bytes| then n <= MAX_LINE_BYTES else n < MAX_LINE_BYTES && NoLongLine(bytes[n + 1..])
  }

  lemma {:induction false} PiecesAreBounded(line: seq<byte>, ended: bool)
    ensures forall i :: 0 <= i < |Pieces(line, ended)| ==> |Pieces(line, ended)[i]| <= MAX_LINE_BYTES
    ensures ended ==> |Pieces(line, ended)| >= 1 && (|Pieces(line, ended)| == 1 <==> |line| < MAX_LINE_BYTES)
    ensures line != [] ==> |Pieces(line, ended)| >= 1
    ensures !ended && line != [] ==> (|Pieces(line, ended)| == 1 <==> |line| <= MAX_LINE_BYTES)
    decreases |line|
  {
    if |line| >= MAX_LINE_BYTES {
      PiecesAreBounded(line[MAX_LINE_BYTES..], ended);
    }
  }

  /** No piece is longer than the cap, for every stream. */
  lemma {:induction false} LinesAreBounded(bytes: seq<byte>)
    ensures forall i :: 0 <= i < |Whole(bytes)| ==> |Whole(bytes)[i]| <= MAX_LINE_BYTES
    decreases |bytes|
  {
    WholeIsInPieces(bytes);
    var n := NewlineAt(bytes);
    PiecesAreBounded(bytes, false);
    if n < |bytes| {
      PiecesAreBounded(bytes[..n], true);
      WholeIsInPieces(bytes[n + 1..]);
      LinesAreBounded(bytes[n + 1..]);
    }
  }

  lemma LastPieces(line: seq<byte>)
    ensures |Pieces(line, false)| >= (if line == [] then 0 else 1)
    ensures |line| <= MAX_LINE_BYTES ==> Pieces(line, false) == if line == [] then [] else [line]
    ensures |line| > MAX_LINE_BYTES ==> |Pieces(line, false)| > 1
  {
    PiecesAreBounded(line, false);
    if |line| == MAX_LINE_BYTES {
      assert line[..MAX_LINE_BYTES] == line && line[MAX_LINE_BYTES..] == [];
    }
  }

  lemma {:induction false} EndedPieces(line: seq<byte>)
    ensures |Pieces(line, true)| >= 1
    ensures |line| < MAX_LINE_BYTES ==> Pieces(line, true) == [DropReturn(line)]
    ensures |line| >= MAX_LINE_BYTES ==> |Pieces(line, true)| > 1
  {
    PiecesAreBounded(line, true);
  }

  lemma {:induction false} PiecesAgainstLines(bytes: seq<byte>)
    ensures |InPieces(bytes)| >= |SplitLines(bytes)|
    ensures NoLongLine(bytes) ==> InPieces(bytes) == SplitLines(bytes)
    ensures !NoLongLine(bytes) ==> |InPieces(bytes)| > |SplitLines(bytes)|
    decreases |bytes|
  {
    var n := NewlineAt(bytes);
    if n == |bytes| {
      LastPieces(bytes);
    } else {
      EndedPieces(bytes[..n]);
      PiecesAgainstLines(bytes[n + 1..]);
      FirstAndRest(Pieces(bytes[..n], true), InPieces(bytes[n + 1..]), DropReturn(bytes[..n]), SplitLines(bytes[n + 1..]));
    }
  }

  lemma FirstAndRest(pieces: seq<Line>, more: seq<Line>, line: Line, lines: seq<Line>)
    requires |pieces| >= 1 && |more| >= |lines|
    ensures |pieces + more| >= |[line] + lines|
    ensures pieces == [line] && more == lines ==> pieces + more == [line] + lines
    ensures |pieces| > 1 || |more| > |lines| ==> |pieces + more| > |[line] + lines|
  {
  }

  /** The output is the stream's own lines exactly when none of them is too long. */
  lemma LinesAreTheStreams(bytes: seq<byte>)
    ensures Whole(bytes) == SplitLines(bytes) <==> NoLongLine(bytes)
  {
    WholeIsInPieces(bytes);
    PiecesAgainstLines(bytes);
  }
}
