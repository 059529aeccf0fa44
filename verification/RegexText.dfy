/** Regular expressions as text: printed, escaped and read back. */
module RegexText {
  // Regular expressions as text, as far as the pod-name regexps use them: how a
  // name is escaped in each dialect, and how the text is read back.
  //
  // Printing and tokens are written with what follows (`rest`) as an argument, so
  // that reading can be proved one construct at a time.

  import opened Prelude

  /** RE2 and JavaScript escape the same characters; Lucene has its own. */
  datatype Dialect = Re2 | Lucene

  function Metas(d: Dialect): set<char> {
    match d
    case Re2 => {'\\', '.', '+', '*', '?', '(', ')', '|', '[', ']', '{', '}', '^', '$'}
    case Lucene => {'.', '?', '+', '*', '|', '{', '}', '[', ']', '(', ')', '"', '\\', '#', '@', '&', '<', '>', '~', '/'}
  }

  /** Escapes the metacharacters of a name so that it matches literally. */
  function Literal(d: Dialect, name: string): string {
    if name == "" then "" else Escaped(d, name[0]) + Literal(d, name[1..])
  }

  function Escaped(d: Dialect, c: char): string { if c in Metas(d) then ['\\', c] else [c] }

  // ----- Syntax -----

  datatype Quant = Plus | Exactly(n: nat) | Between(lo: nat, hi: nat)

  datatype Item =
    | Lit(c: char, optional: bool)
    | Set(cls: string, quant: Quant)
    | Group(alts: Alts, optional: bool)

  datatype Items = End | Then(head: Item, tail: Items)

  datatype Alts = Only(items: Items) | Or(items: Items, more: Alts)

  /** The characters of `s`, then `tail`. */
  function Lits(s: string, tail: Items): Items {
    if s == "" then tail else Then(Lit(s[0], false), Lits(s[1..], tail))
  }

  function Decimal(n: nat): string {
    if n < 10 then ['0' + n as char] else Decimal(n / 10) + ['0' + (n % 10) as char]
  }

  function PrintQuant(q: Quant, rest: string): string {
    match q
    case Plus => "+" + rest
    case Exactly(n) => "{" + (Decimal(n) + ("}" + rest))
    case Between(lo, hi) => "{" + (Decimal(lo) + ("," + (Decimal(hi) + ("}" + rest))))
  }

  function Mark(optional: bool, rest: string): string { if optional then "?" + rest else rest }

  function PrintItem(d: Dialect, item: Item, rest: string): string {
    match item
    case Lit(c, optional) => Escaped(d, c) + Mark(optional, rest)
    case Set(cls, quant) => "[" + (cls + ("]" + PrintQuant(quant, rest)))
    case Group(alts, optional) => "(" + PrintAlts(d, alts, ")" + Mark(optional, rest))
  }

  function Print(d: Dialect, items: Items, rest: string): string {
    match items
    case End => rest
    case Then(head, tail) => PrintItem(d, head, Print(d, tail, rest))
  }

  function PrintAlts(d: Dialect, alts: Alts, rest: string): string {
    match alts
    case Only(items) => Print(d, items, rest)
    case Or(items, more) => Print(d, items, "|" + PrintAlts(d, more, rest))
  }

  lemma {:induction false} PrintLits(d: Dialect, s: string, tail: Items, rest: string)
    ensures Print(d, Lits(s, tail), rest) == Literal(d, s) + Print(d, tail, rest)
  {
    if s != "" {
      PrintLits(d, s[1..], tail, rest);
    }
  }

  lemma Assoc<T>(a: seq<T>, b: seq<T>, c: seq<T>)
    ensures a + b + c == a + (b + c)
  {
  }

  lemma {:induction false} PrintQuantRest(q: Quant, mid: string, rest: string)
    ensures PrintQuant(q, mid + rest) == PrintQuant(q, mid) + rest
  {
    match q {
      case Plus => Assoc("+", mid, rest);
      case Exactly(n) =>
        Assoc("}", mid, rest);
        Assoc(Decimal(n), "}" + mid, rest);
        Assoc("{", Decimal(n) + ("}" + mid), rest);
      case Between(lo, hi) =>
        var last := Decimal(hi) + ("}" + mid);
        Assoc("}", mid, rest);
        Assoc(Decimal(hi), "}" + mid, rest);
        Assoc(",", last, rest);
        Assoc(Decimal(lo), "," + last, rest);
        Assoc("{", Decimal(lo) + ("," + last), rest);
    }
  }

  lemma {:induction false} MarkRest(optional: bool, mid: string, rest: string)
    ensures Mark(optional, mid + rest) == Mark(optional, mid) + rest
  {
    Assoc("?", mid, rest);
  }

  lemma {:induction false} PrintItemRest(d: Dialect, item: Item, mid: string, rest: string)
    ensures PrintItem(d, item, mid + rest) == PrintItem(d, item, mid) + rest
  {
    match item {
      case Lit(c, optional) =>
        MarkRest(optional, mid, rest);
        Assoc(Escaped(d, c), Mark(optional, mid), rest);
      case Set(cls, quant) =>
        var tail := PrintQuant(quant, mid);
        PrintQuantRest(quant, mid, rest);
        Assoc("]", tail, rest);
        Assoc(cls, "]" + tail, rest);
        Assoc("[", cls + ("]" + tail), rest);
      case Group(alts, optional) =>
        MarkRest(optional, mid, rest);
        var close := ")" + Mark(optional, mid);
        Assoc(")", Mark(optional, mid), rest);
        PrintAltsRest(d, alts, close, rest);
        Assoc("(", PrintAlts(d, alts, close), rest);
    }
  }

  /** What follows is only appended. */
  lemma {:induction false} PrintRest(d: Dialect, items: Items, mid: string, rest: string)
    ensures Print(d, items, mid + rest) == Print(d, items, mid) + rest
  {
    if items.Then? {
      PrintRest(d, items.tail, mid, rest);
      PrintItemRest(d, items.head, Print(d, items.tail, mid), rest);
    }
  }

  lemma {:induction false} PrintAltsRest(d: Dialect, alts: Alts, mid: string, rest: string)
    ensures PrintAlts(d, alts, mid + rest) == PrintAlts(d, alts, mid) + rest
  {
    match alts {
      case Only(items) => PrintRest(d, items, mid, rest);
      case Or(items, more) =>
        PrintAltsRest(d, more, mid, rest);
        Assoc("|", PrintAlts(d, more, mid), rest);
        PrintRest(d, items, "|" + PrintAlts(d, more, mid), rest);
    }
  }

  // ----- Reading -----

  /** A character of the text: to be matched, or an operator. */
  datatype Tok = C(c: char) | M(c: char)

  function Lex(d: Dialect, t: string): seq<Tok> {
    if t == "" then [] else
    if t[0] == '\\' && |t| >= 2 then [C(t[1])] + Lex(d, t[2..]) else
    [if t[0] in Metas(d) then M(t[0]) else C(t[0])] + Lex(d, t[1..])
  }

  predicate IsDigit(c: char) { '0' <= c <= '9' }

  function ReadDecimal(s: string): nat {
    if s == "" then 0 else
    10 * ReadDecimal(s[..|s| - 1]) + if IsDigit(s[|s| - 1]) then (s[|s| - 1] - '0') as nat else 0
  }

  /** The characters up to the first operator. */
  function Chars(ts: seq<Tok>): (s: string)
    ensures |s| <= |ts|
  {
    if ts == [] || ts[0].M? then "" else [ts[0].c] + Chars(ts[1..])
  }

  /** Digits up to anything else. */
  function Digits(ts: seq<Tok>): (s: string)
    ensures |s| <= |ts|
  {
    if ts == [] || ts[0].M? || !IsDigit(ts[0].c) then "" else [ts[0].c] + Digits(ts[1..])
  }

  function ParseQuant(ts: seq<Tok>): (r: Option<(Quant, seq<Tok>)>)
    ensures r.Some? ==> |r.value.1| < |ts|
  {
    if ts == [] then None else
    if ts[0] == M('+') then Some((Plus, ts[1..])) else
    if ts[0] != M('{') then None else
    var lo := Digits(ts[1..]);
    var rest := ts[1..][|lo|..];
    if lo == "" || rest == [] then None else
    if rest[0] == M('}') then Some((Exactly(ReadDecimal(lo)), rest[1..])) else
    if rest[0] != C(',') then None else
    var hi := Digits(rest[1..]);
    var last := rest[1..][|hi|..];
    if hi == "" || last == [] || last[0] != M('}') then None else
    Some((Between(ReadDecimal(lo), ReadDecimal(hi)), last[1..]))
  }

  predicate StartsWith(ts: seq<Tok>, c: char) { ts != [] && ts[0] == M(c) }

  function ParseItem(ts: seq<Tok>): (r: Option<(Item, seq<Tok>)>)
    requires ts != []
    ensures r.Some? ==> |r.value.1| < |ts|
    decreases |ts|, 0
  {
    var rest := ts[1..];
    if ts[0].C? then
      Some((Lit(ts[0].c, StartsWith(rest, '?')), if StartsWith(rest, '?') then rest[1..] else rest))
    else if ts[0] == M('[') then
      var cls := Chars(rest);
      var close := rest[|cls|..];
      if !StartsWith(close, ']') then None else
      var quant := ParseQuant(close[1..]);
      if quant.None? then None else Some((Set(cls, quant.value.0), quant.value.1))
    else if ts[0] == M('(') then
      var alts := ParseAlts(rest);
      if alts.None? || !StartsWith(alts.value.1, ')') then None else
      var after := alts.value.1[1..];
      Some((Group(alts.value.0, StartsWith(after, '?')), if StartsWith(after, '?') then after[1..] else after))
    else None
  }

  function ParseItems(ts: seq<Tok>): (r: Option<(Items, seq<Tok>)>)
    ensures r.Some? ==> |r.value.1| <= |ts|
    decreases |ts|, 1
  {
    if Ends(ts) then Some((End, ts)) else
    var first := ParseItem(ts);
    if first.None? then None else
    var more := ParseItems(first.value.1);
    if more.None? then None else Some((Then(first.value.0, more.value.0), more.value.1))
  }

  function ParseAlts(ts: seq<Tok>): (r: Option<(Alts, seq<Tok>)>)
    ensures r.Some? ==> |r.value.1| <= |ts|
    decreases |ts|, 2
  {
    var first := ParseItems(ts);
    if first.None? then None else
    if !StartsWith(first.value.1, '|') then Some((Only(first.value.0), first.value.1)) else
    var more := ParseAlts(first.value.1[1..]);
    if more.None? then None else Some((Or(first.value.0, more.value.0), more.value.1))
  }

  /** The end of the text, of an alternative or of a group. */
  predicate Ends(ts: seq<Tok>) { ts == [] || ts[0] == M('|') || ts[0] == M(')') }

  /** The expression a text denotes in a dialect. */
  function Read(d: Dialect, text: string): Option<Items> {
    var parsed := ParseItems(Lex(d, text));
    if parsed.Some? && parsed.value.1 == [] then Some(parsed.value.0) else None
  }

  // ----- Printed text reads back -----

  /** No character of `s` is an operator in either dialect. */
  predicate NoOperators(s: string) { forall i :: 0 <= i < |s| ==> s[i] !in Metas(Re2) && s[i] !in Metas(Lucene) }

  predicate ReadableItem(item: Item) {
    match item
    case Lit(_, _) => true
    case Set(cls, _) => NoOperators(cls)
    case Group(alts, _) => ReadableAlts(alts)
  }

  predicate Readable(items: Items) { items.Then? ==> ReadableItem(items.head) && Readable(items.tail) }

  predicate ReadableAlts(alts: Alts) { Readable(alts.items) && (alts.Or? ==> ReadableAlts(alts.more)) }

  function Cs(s: string, rest: seq<Tok>): seq<Tok> { if s == "" then rest else [C(s[0])] + Cs(s[1..], rest) }

  function QuantToks(q: Quant, rest: seq<Tok>): seq<Tok> {
    match q
    case Plus => [M('+')] + rest
    case Exactly(n) => [M('{')] + Cs(Decimal(n), [M('}')] + rest)
    case Between(lo, hi) => [M('{')] + Cs(Decimal(lo), [C(',')] + Cs(Decimal(hi), [M('}')] + rest))
  }

  function MarkToks(optional: bool, rest: seq<Tok>): seq<Tok> { if optional then [M('?')] + rest else rest }

  function ItemToks(item: Item, rest: seq<Tok>): seq<Tok> {
    match item
    case Lit(c, optional) => [C(c)] + MarkToks(optional, rest)
    case Set(cls, quant) => [M('[')] + Cs(cls, [M(']')] + QuantToks(quant, rest))
    case Group(alts, optional) => [M('(')] + AltsToks(alts, [M(')')] + MarkToks(optional, rest))
  }

  function Toks(items: Items, rest: seq<Tok>): seq<Tok> {
    match items
    case End => rest
    case Then(head, tail) => ItemToks(head, Toks(tail, rest))
  }

  function AltsToks(alts: Alts, rest: seq<Tok>): seq<Tok> {
    match alts
    case Only(items) => Toks(items, rest)
    case Or(items, more) => Toks(items, [M('|')] + AltsToks(more, rest))
  }

  lemma {:induction false} LexOne(d: Dialect, c: char, rest: string)
    requires c != '\\'
    ensures Lex(d, [c] + rest) == [if c in Metas(d) then M(c) else C(c)] + Lex(d, rest)
  {
    assert ([c] + rest)[1..] == rest;
  }

  /** An escaped character is read as itself, whatever it is. */
  lemma {:induction false} LexEscaped(d: Dialect, c: char, rest: string)
    ensures Lex(d, Escaped(d, c) + rest) == [C(c)] + Lex(d, rest)
  {
    if c in Metas(d) {
      assert (['\\', c] + rest)[2..] == rest;
    } else {
      LexOne(d, c, rest);
    }
  }

  lemma {:induction false} LexNoOperators(d: Dialect, s: string, rest: string)
    requires NoOperators(s)
    ensures Lex(d, s + rest) == Cs(s, Lex(d, rest))
  {
    if s == "" {
      assert s + rest == rest;
    } else {
      assert s + rest == [s[0]] + (s[1..] + rest);
      LexOne(d, s[0], s[1..] + rest);
      LexNoOperators(d, s[1..], rest);
    }
  }

  lemma {:induction false} DecimalReads(n: nat)
    ensures Decimal(n) != "" && NoOperators(Decimal(n)) && ReadDecimal(Decimal(n)) == n
    ensures forall i :: 0 <= i < |Decimal(n)| ==> IsDigit(Decimal(n)[i])
  {
    if n >= 10 {
      DecimalReads(n / 10);
      assert Decimal(n)[..|Decimal(n)| - 1] == Decimal(n / 10);
    } else {
      assert Decimal(n)[..0] == "";
    }
  }

  /** A number and the closing brace. */
  lemma LexLast(d: Dialect, n: nat, rest: string)
    ensures Lex(d, Decimal(n) + ("}" + rest)) == Cs(Decimal(n), [M('}')] + Lex(d, rest))
  {
    DecimalReads(n);
    LexNoOperators(d, Decimal(n), "}" + rest);
    LexOne(d, '}', rest);
  }

  lemma LexExactly(d: Dialect, n: nat, rest: string)
    ensures Lex(d, PrintQuant(Exactly(n), rest)) == QuantToks(Exactly(n), Lex(d, rest))
  {
    LexLast(d, n, rest);
    LexOne(d, '{', Decimal(n) + ("}" + rest));
  }

  lemma LexBetween(d: Dialect, lo: nat, hi: nat, rest: string)
    ensures Lex(d, PrintQuant(Between(lo, hi), rest)) == QuantToks(Between(lo, hi), Lex(d, rest))
  {
    DecimalReads(lo);
    var tail := Decimal(hi) + ("}" + rest);
    LexLast(d, hi, rest);
    LexOne(d, ',', tail);
    LexNoOperators(d, Decimal(lo), "," + tail);
    LexOne(d, '{', Decimal(lo) + ("," + tail));
  }

  lemma LexQuant(d: Dialect, q: Quant, rest: string)
    ensures Lex(d, PrintQuant(q, rest)) == QuantToks(q, Lex(d, rest))
  {
    match q {
      case Plus => LexOne(d, '+', rest);
      case Exactly(n) => LexExactly(d, n, rest);
      case Between(lo, hi) => LexBetween(d, lo, hi, rest);
    }
  }

  lemma {:induction false} LexMark(d: Dialect, optional: bool, rest: string)
    ensures Lex(d, Mark(optional, rest)) == MarkToks(optional, Lex(d, rest))
  {
    if optional {
      LexOne(d, '?', rest);
    }
  }

  lemma {:induction false} LexItem(d: Dialect, item: Item, rest: string)
    requires ReadableItem(item)
    ensures Lex(d, PrintItem(d, item, rest)) == ItemToks(item, Lex(d, rest))
  {
    match item {
      case Lit(c, optional) =>
        LexEscaped(d, c, Mark(optional, rest));
        LexMark(d, optional, rest);
      case Set(cls, quant) =>
        var tail := PrintQuant(quant, rest);
        LexOne(d, '[', cls + ("]" + tail));
        LexNoOperators(d, cls, "]" + tail);
        LexOne(d, ']', tail);
        LexQuant(d, quant, rest);
      case Group(alts, optional) =>
        var tail := Mark(optional, rest);
        LexOne(d, '(', PrintAlts(d, alts, ")" + tail));
        LexAlts(d, alts, ")" + tail);
        LexOne(d, ')', tail);
        LexMark(d, optional, rest);
    }
  }

  lemma {:induction false} LexItems(d: Dialect, items: Items, rest: string)
    requires Readable(items)
    ensures Lex(d, Print(d, items, rest)) == Toks(items, Lex(d, rest))
  {
    if items.Then? {
      LexItem(d, items.head, Print(d, items.tail, rest));
      LexItems(d, items.tail, rest);
    }
  }

  lemma {:induction false} LexAlts(d: Dialect, alts: Alts, rest: string)
    requires ReadableAlts(alts)
    ensures Lex(d, PrintAlts(d, alts, rest)) == AltsToks(alts, Lex(d, rest))
  {
    match alts {
      case Only(items) => LexItems(d, items, rest);
      case Or(items, more) =>
        LexItems(d, items, "|" + PrintAlts(d, more, rest));
        LexOne(d, '|', PrintAlts(d, more, rest));
        LexAlts(d, more, rest);
    }
  }

  lemma {:induction false} CharsOf(s: string, rest: seq<Tok>)
    requires rest != [] && rest[0].M?
    ensures Chars(Cs(s, rest)) == s && |s| <= |Cs(s, rest)| && Cs(s, rest)[|s|..] == rest
  {
    if s != "" {
      CharsOf(s[1..], rest);
      assert Cs(s, rest)[1..] == Cs(s[1..], rest);
    }
  }

  lemma {:induction false} DigitsOf(s: string, rest: seq<Tok>)
    requires forall i :: 0 <= i < |s| ==> IsDigit(s[i])
    requires rest != [] && (rest[0].M? || rest[0] == C(','))
    ensures Digits(Cs(s, rest)) == s && |s| <= |Cs(s, rest)| && Cs(s, rest)[|s|..] == rest
  {
    if s != "" {
      DigitsOf(s[1..], rest);
      assert Cs(s, rest)[1..] == Cs(s[1..], rest);
    }
  }

  lemma ParseExactly(n: nat, rest: seq<Tok>)
    ensures ParseQuant(QuantToks(Exactly(n), rest)) == Some((Exactly(n), rest))
  {
    DecimalReads(n);
    var tail := [M('}')] + rest;
    DigitsOf(Decimal(n), tail);
    assert QuantToks(Exactly(n), rest)[1..] == Cs(Decimal(n), tail);
    assert tail[1..] == rest;
  }

  lemma ParseBetween(lo: nat, hi: nat, rest: seq<Tok>)
    ensures ParseQuant(QuantToks(Between(lo, hi), rest)) == Some((Between(lo, hi), rest))
  {
    DecimalReads(lo);
    DecimalReads(hi);
    var last := [M('}')] + rest;
    var tail := [C(',')] + Cs(Decimal(hi), last);
    DigitsOf(Decimal(lo), tail);
    DigitsOf(Decimal(hi), last);
    assert QuantToks(Between(lo, hi), rest)[1..] == Cs(Decimal(lo), tail);
    assert tail[1..] == Cs(Decimal(hi), last);
    assert last[1..] == rest;
  }

  lemma ParseQuantToks(q: Quant, rest: seq<Tok>)
    ensures ParseQuant(QuantToks(q, rest)) == Some((q, rest))
  {
    match q {
      case Plus => assert QuantToks(q, rest)[1..] == rest;
      case Exactly(n) => ParseExactly(n, rest);
      case Between(lo, hi) => ParseBetween(lo, hi, rest);
    }
  }

  lemma ParseMark(optional: bool, rest: seq<Tok>)
    requires !StartsWith(rest, '?')
    ensures var ts := MarkToks(optional, rest);
            StartsWith(ts, '?') == optional && (if StartsWith(ts, '?') then ts[1..] else ts) == rest
  {
  }

  lemma {:induction false} ParseItemToks(item: Item, rest: seq<Tok>)
    requires ReadableItem(item) && !StartsWith(rest, '?')
    ensures ParseItem(ItemToks(item, rest)) == Some((item, rest))
  {
    var ts := ItemToks(item, rest);
    match item {
      case Lit(c, optional) =>
        assert ts[1..] == MarkToks(optional, rest);
        ParseMark(optional, rest);
      case Set(cls, quant) =>
        var close := [M(']')] + QuantToks(quant, rest);
        CharsOf(cls, close);
        assert ts[1..] == Cs(cls, close);
        assert close[1..] == QuantToks(quant, rest);
        ParseQuantToks(quant, rest);
      case Group(alts, optional) =>
        var close := [M(')')] + MarkToks(optional, rest);
        ParseAltsToks(alts, close);
        assert ts[1..] == AltsToks(alts, close);
        assert close[1..] == MarkToks(optional, rest);
        ParseMark(optional, rest);
    }
  }

  lemma ItemStarts(item: Item, rest: seq<Tok>)
    ensures !StartsWith(ItemToks(item, rest), '?') && !Ends(ItemToks(item, rest))
  {
  }

  lemma {:induction false} ParseItemsToks(items: Items, rest: seq<Tok>)
    requires Readable(items) && Ends(rest)
    ensures ParseItems(Toks(items, rest)) == Some((items, rest))
  {
    if items.Then? {
      var tail := Toks(items.tail, rest);
      if items.tail.Then? {
        ItemStarts(items.tail.head, Toks(items.tail.tail, rest));
      }
      ItemStarts(items.head, tail);
      ParseItemToks(items.head, tail);
      ParseItemsToks(items.tail, rest);
    }
  }

  lemma {:induction false} ParseAltsToks(alts: Alts, rest: seq<Tok>)
    requires ReadableAlts(alts) && StartsWith(rest, ')')
    ensures ParseAlts(AltsToks(alts, rest)) == Some((alts, rest))
  {
    match alts {
      case Only(items) => ParseItemsToks(items, rest);
      case Or(items, more) =>
        var tail := [M('|')] + AltsToks(more, rest);
        ParseItemsToks(items, tail);
        assert tail[1..] == AltsToks(more, rest);
        ParseAltsToks(more, rest);
    }
  }

  /** Every printed expression reads back as itself, in both dialects. */
  lemma PrintReads(d: Dialect, items: Items)
    requires Readable(items)
    ensures Read(d, Print(d, items, "")) == Some(items)
  {
    LexItems(d, items, "");
    ParseItemsToks(items, []);
  }
}
