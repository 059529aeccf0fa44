/** Escaped literals and how they are read back, for KQL, Lucene and Rison. */
module Escaping {
  import opened Prelude
  import opened RegexText

  /** Which characters a literal escapes, and with what. */
  datatype Scheme = Quoted(esc: char, quote: char) | LuceneField | KqlField

  function EscOf(scheme: Scheme): char { if scheme.Quoted? then scheme.esc else '\\' }

  predicate IsAlphanumeric(c: char) { 'A' <= c <= 'Z' || 'a' <= c <= 'z' || '0' <= c <= '9' }

  predicate IsSpace(c: char) { c in {' ', '\t', '\n', '\r'} }

  predicate Special(scheme: Scheme, c: char) {
    match scheme
    case Quoted(esc, quote) => c == esc || c == quote
    case LuceneField => !(IsAlphanumeric(c) || c == '.' || c == '_')
    case KqlField => IsSpace(c) || c in {'\\', '(', ')', ':', '<', '>', '"', '*', '{', '}'}
  }

  /** Puts the escape character before every special character. */
  function Escape(scheme: Scheme, s: string): string {
    if s == "" then "" else
    (if Special(scheme, s[0]) then [EscOf(scheme), s[0]] else [s[0]]) + Escape(scheme, s[1..])
  }

  function Push(c: char, r: Option<(string, string)>): (p: Option<(string, string)>)
    ensures p.Some? <==> r.Some?
    ensures p.Some? ==> p.value.1 == r.value.1
  {
    if r.None? then None else Some(([c] + r.value.0, r.value.1))
  }

  /** Reads up to an unescaped `stop`: the text without its escapes, and what follows. */
  function ReadUntil(t: string, esc: char, stop: char): (r: Option<(string, string)>)
    ensures r.Some? ==> |r.value.1| < |t|
  {
    if t == "" then None else
    if t[0] == stop then Some(("", t[1..])) else
    if t[0] == esc then (if |t| < 2 then None else Push(t[1], ReadUntil(t[2..], esc, stop))) else
    Push(t[0], ReadUntil(t[1..], esc, stop))
  }

  /** What was escaped is read back, whatever it is. */
  lemma {:induction false} EscapeReads(scheme: Scheme, s: string, stop: char, rest: string)
    requires Special(scheme, EscOf(scheme)) && Special(scheme, stop) && EscOf(scheme) != stop
    ensures ReadUntil(Escape(scheme, s) + ([stop] + rest), EscOf(scheme), stop) == Some((s, rest))
  {
    var tail := [stop] + rest;
    if s == "" {
      assert Escape(scheme, s) + tail == tail;
    } else {
      EscapeReads(scheme, s[1..], stop, rest);
      var more := Escape(scheme, s[1..]) + tail;
      if Special(scheme, s[0]) {
        Assoc([EscOf(scheme), s[0]], Escape(scheme, s[1..]), tail);
        assert ([EscOf(scheme), s[0]] + more)[2..] == more;
      } else {
        Assoc([s[0]], Escape(scheme, s[1..]), tail);
        assert ([s[0]] + more)[1..] == more;
      }
      assert s == [s[0]] + s[1..];
    }
  }

  lemma {:induction false} EscapeNothing(scheme: Scheme, s: string)
    requires forall i :: 0 <= i < |s| ==> !Special(scheme, s[i])
    ensures Escape(scheme, s) == s
  {
    if s != "" {
      EscapeNothing(scheme, s[1..]);
    }
  }

  function Replace(s: string, c: char, with: string): string {
    if s == "" then "" else (if s[0] == c then with else [s[0]]) + Replace(s[1..], c, with)
  }

  lemma {:induction false} ReplaceJoins(a: string, b: string, c: char, with: string)
    ensures Replace(a + b, c, with) == Replace(a, c, with) + Replace(b, c, with)
  {
    if a == "" {
      assert a + b == b;
    } else {
      ReplaceJoins(a[1..], b, c, with);
      assert (a + b)[1..] == a[1..] + b;
    }
  }

  /** Replacing the escape character first, then the delimiter, escapes both. */
  lemma {:induction false} ReplaceTwice(s: string, esc: char, quote: char)
    requires esc != quote
    ensures Replace(Replace(s, esc, [esc, esc]), quote, [esc, quote]) == Escape(Quoted(esc, quote), s)
  {
    if s != "" {
      ReplaceTwice(s[1..], esc, quote);
      var head := if s[0] == esc then [esc, esc] else [s[0]];
      ReplaceJoins(head, Replace(s[1..], esc, [esc, esc]), quote, [esc, quote]);
      assert [esc, esc][1..] == [esc] && [esc][1..] == "" && [s[0]][1..] == "";
    }
  }

  /** KQL and Lucene phrase: `\` and `"` escaped, in double quotes. */
  function Kql(s: string): string {
    "\"" + (Replace(Replace(s, '\\', "\\\\"), '"', "\\\"") + "\"")
  }

  /** Rison string: `!` and `'` escaped with `!`, in single quotes. */
  function Rison(s: string): string {
    "'" + (Replace(Replace(s, '!', "!!"), '\'', "!'") + "'")
  }

  function ReadQuoted(t: string, quote: char, esc: char): (r: Option<(string, string)>)
    ensures r.Some? ==> |r.value.1| < |t|
  {
    if t == "" || t[0] != quote then None else ReadUntil(t[1..], esc, quote)
  }

  lemma KqlReads(s: string, rest: string)
    ensures ReadQuoted(Kql(s) + rest, '"', '\\') == Some((s, rest))
  {
    ReplaceTwice(s, '\\', '"');
    var body := Escape(Quoted('\\', '"'), s);
    EscapeReads(Quoted('\\', '"'), s, '"', rest);
    Assoc(body, "\"", rest);
    assert (Kql(s) + rest)[1..] == body + "\"" + rest;
  }

  lemma RisonReads(s: string, rest: string)
    ensures ReadQuoted(Rison(s) + rest, '\'', '!') == Some((s, rest))
  {
    ReplaceTwice(s, '!', '\'');
    var body := Escape(Quoted('!', '\''), s);
    EscapeReads(Quoted('!', '\''), s, '\'', rest);
    Assoc(body, "'", rest);
    assert (Rison(s) + rest)[1..] == body + "'" + rest;
  }

  /** A field name, escaped or free of special characters, read up to its colon. */
  lemma FieldReads(scheme: Scheme, field: string, rest: string)
    requires !scheme.Quoted?
    ensures ReadUntil(Escape(scheme, field) + (":" + rest), '\\', ':') == Some((field, rest))
  {
    EscapeReads(scheme, field, ':', rest);
  }
}
