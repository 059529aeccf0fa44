/** The regexp texts of a workload's pods, built twice. */
module PodNames {
  // The pod names of a workload: the regexp texts the core and the frontend
  // build, what they match, and which workloads share pod names.

  import opened Prelude
  import opened RegexText

  // ----- Matching -----

  /** A bracket expression: single characters and ranges `a-b`. */
  predicate ClassHas(cls: string, c: char) {
    if cls == "" then false else
    if |cls| >= 3 && cls[1] == '-' then cls[0] <= c <= cls[2] || ClassHas(cls[3..], c) else
    c == cls[0] || ClassHas(cls[1..], c)
  }

  predicate Allows(q: Quant, n: nat) {
    match q
    case Plus => n >= 1
    case Exactly(m) => n == m
    case Between(lo, hi) => lo <= n <= hi
  }

  ghost predicate MatchItem(item: Item, s: string) {
    match item
    case Lit(c, optional) => s == [c] || (optional && s == "")
    case Set(cls, quant) => Allows(quant, |s|) && forall i :: 0 <= i < |s| ==> ClassHas(cls, s[i])
    case Group(alts, optional) => MatchAlts(alts, s) || (optional && s == "")
  }

  /** The whole of `s` matches. */
  ghost predicate Match(items: Items, s: string) {
    match items
    case End => s == ""
    case Then(head, tail) => exists k :: 0 <= k <= |s| && MatchItem(head, s[..k]) && Match(tail, s[k..])
  }

  ghost predicate MatchAlts(alts: Alts, s: string) {
    match alts
    case Only(items) => Match(items, s)
    case Or(items, more) => Match(items, s) || MatchAlts(more, s)
  }

  lemma {:induction false} MatchLits(t: string, tail: Items, s: string)
    ensures Match(Lits(t, tail), s) <==> |t| <= |s| && s[..|t|] == t && Match(tail, s[|t|..])
  {
    if t == "" {
      assert s[0..] == s;
    } else {
      if s != "" && s[0] == t[0] {
        assert s[..1] == [t[0]];
        MatchLits(t[1..], tail, s[1..]);
        assert |t| <= |s| ==> s[1..][|t| - 1..] == s[|t|..];
        assert |t| <= |s| ==> s[1..][..|t| - 1] == s[..|t|][1..];
        assert |t| <= |s| ==> s[..|t|] == [s[0]] + s[..|t|][1..];
        assert t == [t[0]] + t[1..];
      }
    }
  }

  lemma MatchSetEnd(cls: string, q: Quant, s: string)
    ensures Match(Then(Set(cls, q), End), s) <==> MatchItem(Set(cls, q), s)
  {
    assert s[..|s|] == s && s[|s|..] == "";
    forall k | 0 <= k <= |s| && Match(End, s[k..])
      ensures k == |s|
    {
    }
  }

  // ----- Alphabets -----

  const SAFE_CHARS := "bcdfghjklmnpqrstvwxz2456789"
  const SAFE := "[" + SAFE_CHARS + "]"

  predicate IsSafe(c: char) {
    c in {'b', 'c', 'd', 'f', 'g', 'h', 'j', 'k', 'l', 'm', 'n', 'p', 'q', 'r', 's', 't', 'v', 'w', 'x', 'z',
          '2', '4', '5', '6', '7', '8', '9'}
  }

  predicate Safe(s: string) { forall i :: 0 <= i < |s| ==> IsSafe(s[i]) }

  predicate AllDigits(s: string) { forall i :: 0 <= i < |s| ==> IsDigit(s[i]) }

  lemma {:induction false} ClassOfSingles(cls: string, c: char)
    requires forall i :: 0 <= i < |cls| ==> cls[i] != '-'
    ensures ClassHas(cls, c) <==> c in cls
  {
    if cls != "" {
      ClassOfSingles(cls[1..], c);
      assert cls == [cls[0]] + cls[1..];
    }
  }

  lemma SafeChars(c: char)
    ensures c in SAFE_CHARS <==> IsSafe(c)
  {
  }

  lemma SafeClass(c: char)
    ensures ClassHas(SAFE_CHARS, c) <==> IsSafe(c)
  {
    forall i | 0 <= i < |SAFE_CHARS|
      ensures SAFE_CHARS[i] != '-'
    {
      SafeChars(SAFE_CHARS[i]);
    }
    ClassOfSingles(SAFE_CHARS, c);
    SafeChars(c);
  }

  lemma {:induction false} DigitClass(c: char)
    ensures ClassHas("0-9", c) <==> IsDigit(c)
  {
    assert "0-9"[3..] == "";
  }

  lemma {:induction false} MatchSafe(q: Quant, s: string)
    ensures MatchItem(Set(SAFE_CHARS, q), s) <==> Allows(q, |s|) && Safe(s)
  {
    forall i | 0 <= i < |s| {
      SafeClass(s[i]);
    }
  }

  lemma MatchDigits(q: Quant, s: string)
    ensures MatchItem(Set("0-9", q), s) <==> Allows(q, |s|) && AllDigits(s)
  {
    forall i | 0 <= i < |s| {
      DigitClass(s[i]);
    }
  }

  lemma SafeIsNoOperator(c: char)
    requires IsSafe(c)
    ensures c !in Metas(Re2) && c !in Metas(Lucene)
  {
  }

  lemma {:induction false} PlainClasses()
    ensures NoOperators(SAFE_CHARS) && NoOperators("0-9")
  {
    forall i | 0 <= i < |SAFE_CHARS|
      ensures SAFE_CHARS[i] !in Metas(Re2) && SAFE_CHARS[i] !in Metas(Lucene)
    {
      SafeChars(SAFE_CHARS[i]);
      SafeIsNoOperator(SAFE_CHARS[i]);
    }
  }

  // ----- The builders -----

  datatype Workload =
    | Pod(name: string)
    | Deployment(name: string)
    | StatefulSet(name: string)
    | DaemonSet(name: string)
    | Job(name: string)

  const GENERATED_PREFIX_MAX: nat := 58
  const JOB_INDEX_DIGITS_MAX: nat := 7

  /** Length in UTF-8 bytes. */
  function Utf8Len(s: string): nat {
    if s == "" then 0 else
    var c := s[0] as int;
    (if c < 0x80 then 1 else if c < 0x800 then 2 else if c < 0x10000 then 3 else 4) + Utf8Len(s[1..])
  }

  predicate Ascii(s: string) { forall i :: 0 <= i < |s| ==> s[i] as int < 0x80 }

  lemma {:induction false} AsciiLength(s: string)
    requires Ascii(s)
    ensures Utf8Len(s) == |s|
  {
    if s != "" {
      AsciiLength(s[1..]);
    }
  }

  function Take(s: string, n: nat): string { s[..Min(n, |s|)] }

  const SAFE5 := SAFE + "{5}"

  function ShortDeploymentText(d: Dialect, name: string): string {
    Literal(d, name) + ("-" + (SAFE + ("{6,10}" + ("-" + SAFE5))))
  }

  function LongDeploymentText(d: Dialect, kept: string): string {
    Literal(d, kept) + ("(" + ("-" + (SAFE + ("{0,10}" + ("-?" + (")?" + SAFE5))))))
  }

  function DeploymentText(d: Dialect, name: string): string {
    if Utf8Len(name) + 1 + 10 + 1 <= GENERATED_PREFIX_MAX
    then ShortDeploymentText(d, name)
    else LongDeploymentText(d, Take(name, GENERATED_PREFIX_MAX))
  }

  function StatefulSetText(d: Dialect, name: string): string { Literal(d, name) + ("-" + ("[0-9]" + "+")) }

  function GeneratedText(d: Dialect, name: string): string {
    Literal(d, Take(name + "-", GENERATED_PREFIX_MAX)) + SAFE5
  }

  /** Characters of a name of length `len` kept before an index of `digits` digits. */
  function Kept(len: nat, digits: nat): nat
    requires digits <= JOB_INDEX_DIGITS_MAX
  {
    Min(len, GENERATED_PREFIX_MAX - digits - 2)
  }

  /** The last digit count that keeps as many characters as `digits`, from `last` on. */
  function LastAlike(len: nat, digits: nat, last: nat): (r: nat)
    requires digits <= last <= JOB_INDEX_DIGITS_MAX
    ensures last <= r <= JOB_INDEX_DIGITS_MAX
    decreases JOB_INDEX_DIGITS_MAX - last
  {
    if last < JOB_INDEX_DIGITS_MAX && Kept(len, last + 1) == Kept(len, digits) then LastAlike(len, digits, last + 1) else last
  }

  function GroupText(d: Dialect, name: string, digits: nat, last: nat): string
    requires digits <= JOB_INDEX_DIGITS_MAX
  {
    Literal(d, Take(name, Kept(|name|, digits))) + ("-" + ("[0-9]" + ("{" + (Decimal(digits) + ("," + (Decimal(last) + ("}" + "-")))))))
  }

  /** One alternative per prefix length, for the digit counts from `digits` on. */
  function GroupTexts(d: Dialect, name: string, digits: nat): seq<string>
    decreases JOB_INDEX_DIGITS_MAX + 1 - digits
  {
    if digits > JOB_INDEX_DIGITS_MAX then [] else
    var last := LastAlike(|name|, digits, digits);
    [GroupText(d, name, digits, last)] + GroupTexts(d, name, last + 1)
  }

  function Join(texts: seq<string>): string {
    if texts == [] then "" else if |texts| == 1 then texts[0] else texts[0] + "|" + Join(texts[1..])
  }

  function ShortJobText(d: Dialect, name: string): string {
    Literal(d, name) + ("-" + ("(" + ("[0-9]" + ("{1,7}" + ("-" + (")?" + SAFE5))))))
  }

  /** Non-indexed pods first, then one alternative per prefix length. */
  function JobAlternatives(d: Dialect, name: string): seq<string> {
    [Literal(d, Take(name + "-", GENERATED_PREFIX_MAX))] + GroupTexts(d, name, 1)
  }

  function JobText(d: Dialect, name: string): string {
    if |name| + JOB_INDEX_DIGITS_MAX + 2 <= GENERATED_PREFIX_MAX
    then ShortJobText(d, name)
    else "(" + (Join(JobAlternatives(d, name)) + (")" + SAFE5))
  }

  /** The core's regexp of a workload's pods; none for one pod, matched by name. */
  function PodsText(d: Dialect, w: Workload): Option<string> {
    match w
    case Pod(_) => None
    case Deployment(name) => Some(DeploymentText(d, name))
    case StatefulSet(name) => Some(StatefulSetText(d, name))
    case DaemonSet(name) => Some(GeneratedText(d, name))
    case Job(name) => Some(JobText(d, name))
  }

  /** Goes on while one more digit cuts the name at the same place. */
  method LastWith(len: nat, digits: nat) returns (last: nat)
    requires digits <= JOB_INDEX_DIGITS_MAX
    ensures last == LastAlike(len, digits, digits)
  {
    var kept := Min(len, GENERATED_PREFIX_MAX - digits - 2);
    last := digits;
    while last < JOB_INDEX_DIGITS_MAX && Min(len, GENERATED_PREFIX_MAX - (last + 1) - 2) == kept
      invariant digits <= last <= JOB_INDEX_DIGITS_MAX
      invariant LastAlike(len, digits, last) == LastAlike(len, digits, digits)
    {
      last := last + 1;
    }
  }

  /** The core's loop over the index's digit counts. */
  method JobGroups(d: Dialect, name: string) returns (alternatives: seq<string>)
    ensures alternatives == JobAlternatives(d, name)
  {
    alternatives := [Literal(d, Take(name + "-", GENERATED_PREFIX_MAX))];
    ghost var all := alternatives + GroupTexts(d, name, 1);
    var digits: nat := 1;
    while digits <= JOB_INDEX_DIGITS_MAX
      invariant 1 <= digits <= JOB_INDEX_DIGITS_MAX + 1
      invariant all == alternatives + GroupTexts(d, name, digits)
    {
      var last := LastWith(|name|, digits);
      NextGroup(d, name, digits, last, alternatives);
      alternatives := alternatives + [GroupText(d, name, digits, last)];
      digits := last + 1;
    }
    NoMoreGroups(d, name, digits, alternatives);
  }

  method JobPodsRegex(d: Dialect, name: string) returns (text: string)
    ensures text == JobText(d, name)
  {
    if |name| + JOB_INDEX_DIGITS_MAX + 2 <= GENERATED_PREFIX_MAX {
      return ShortJobText(d, name);
    }
    var alternatives := JobGroups(d, name);
    return "(" + (Join(alternatives) + (")" + SAFE5));
  }

  lemma {:induction false} NextGroup(d: Dialect, name: string, digits: nat, last: nat, before: seq<string>)
    requires digits <= JOB_INDEX_DIGITS_MAX && last == LastAlike(|name|, digits, digits)
    ensures before + GroupTexts(d, name, digits) == before + [GroupText(d, name, digits, last)] + GroupTexts(d, name, last + 1)
  {
    Assoc(before, [GroupText(d, name, digits, last)], GroupTexts(d, name, last + 1));
  }

  lemma NoMoreGroups(d: Dialect, name: string, digits: nat, before: seq<string>)
    requires digits > JOB_INDEX_DIGITS_MAX
    ensures before + GroupTexts(d, name, digits) == before
  {
  }

  /** The frontend's builder: the same loop, lengths in UTF-16 units. */
  method WorkloadPodsSource(w: Workload) returns (text: string)
    requires !w.Pod? && Ascii(w.name)
    ensures Some(text) == PodsText(Re2, w)
  {
    var name := w.name;
    AsciiLength(name);
    match w {
      case Deployment(_) =>
        if |name| + 12 <= GENERATED_PREFIX_MAX {
          text := ShortDeploymentText(Re2, name);
        } else {
          text := LongDeploymentText(Re2, Take(name, GENERATED_PREFIX_MAX));
        }
      case StatefulSet(_) => text := StatefulSetText(Re2, name);
      case Job(_) => text := JobPodsSource(name);
      case DaemonSet(_) => text := GeneratedText(Re2, name);
    }
  }

  method JobGroupsSource(name: string) returns (alternatives: seq<string>)
    ensures alternatives == JobAlternatives(Re2, name)
  {
    alternatives := [Literal(Re2, Take(name + "-", GENERATED_PREFIX_MAX))];
    ghost var all := alternatives + GroupTexts(Re2, name, 1);
    var digits: nat := 1;
    while digits <= JOB_INDEX_DIGITS_MAX
      invariant 1 <= digits <= JOB_INDEX_DIGITS_MAX + 1
      invariant all == alternatives + GroupTexts(Re2, name, digits)
    {
      var last := digits;
      while last < JOB_INDEX_DIGITS_MAX && Kept(|name|, last + 1) == Kept(|name|, digits)
        invariant digits <= last <= JOB_INDEX_DIGITS_MAX
        invariant LastAlike(|name|, digits, last) == LastAlike(|name|, digits, digits)
      {
        last := last + 1;
      }
      NextGroup(Re2, name, digits, last, alternatives);
      alternatives := alternatives + [GroupText(Re2, name, digits, last)];
      digits := last + 1;
    }
    NoMoreGroups(Re2, name, digits, alternatives);
  }

  method JobPodsSource(name: string) returns (text: string)
    ensures text == JobText(Re2, name)
  {
    if |name| + JOB_INDEX_DIGITS_MAX + 2 <= GENERATED_PREFIX_MAX {
      return ShortJobText(Re2, name);
    }
    var alternatives := JobGroupsSource(name);
    return "(" + (Join(alternatives) + (")" + SAFE5));
  }

  // ----- What the texts denote -----

  function Dash(tail: Items): Items { Then(Lit('-', false), tail) }

  const Suffix := Then(Set(SAFE_CHARS, Exactly(5)), End)
  const DashSuffix := Dash(Suffix)
  const HashItems := Then(Set(SAFE_CHARS, Between(6, 10)), DashSuffix)
  const MiddleEnd := Then(Lit('-', true), End)
  const MiddleHash := Then(Set(SAFE_CHARS, Between(0, 10)), MiddleEnd)
  const MiddleItem := Group(Only(Dash(MiddleHash)), true)
  const PlusDigits := Then(Set("0-9", Plus), End)
  const IndexDash := Dash(End)
  const IndexItem := Group(Only(Index(1, JOB_INDEX_DIGITS_MAX)), true)

  function Index(lo: nat, hi: nat): Items { Then(Set("0-9", Between(lo, hi)), IndexDash) }

  function DeploymentItems(name: string): Items {
    if Utf8Len(name) + 12 <= GENERATED_PREFIX_MAX
    then Lits(name, Dash(HashItems))
    else Lits(Take(name, GENERATED_PREFIX_MAX), Then(MiddleItem, Suffix))
  }

  function GroupItems(name: string, digits: nat, last: nat): Items
    requires digits <= JOB_INDEX_DIGITS_MAX
  {
    Lits(Take(name, Kept(|name|, digits)), Dash(Index(digits, last)))
  }

  function GroupAlts(name: string, digits: nat): Alts
    requires digits <= JOB_INDEX_DIGITS_MAX
    decreases JOB_INDEX_DIGITS_MAX - digits
  {
    var last := LastAlike(|name|, digits, digits);
    var first := GroupItems(name, digits, last);
    if last == JOB_INDEX_DIGITS_MAX then Only(first) else Or(first, GroupAlts(name, last + 1))
  }

  function JobItems(name: string): Items {
    if |name| + JOB_INDEX_DIGITS_MAX + 2 <= GENERATED_PREFIX_MAX
    then Lits(name, Dash(Then(IndexItem, Suffix)))
    else Then(Group(Or(Lits(Take(name + "-", GENERATED_PREFIX_MAX), End), GroupAlts(name, 1)), false), Suffix)
  }

  function PodsItems(w: Workload): Items
    requires !w.Pod?
  {
    match w
    case Deployment(name) => DeploymentItems(name)
    case StatefulSet(name) => Lits(name, Dash(PlusDigits))
    case DaemonSet(name) => Lits(Take(name + "-", GENERATED_PREFIX_MAX), Suffix)
    case Job(name) => JobItems(name)
  }

  lemma {:induction false} LitsReadable(s: string, tail: Items)
    requires Readable(tail)
    ensures Readable(Lits(s, tail))
  {
    if s != "" {
      LitsReadable(s[1..], tail);
    }
  }

  lemma PrintDash(d: Dialect, tail: Items, rest: string)
    ensures Print(d, Dash(tail), rest) == "-" + Print(d, tail, rest)
  {
  }

  lemma PrintClass(d: Dialect, cls: string, q: Quant, tail: Items, rest: string)
    ensures Print(d, Then(Set(cls, q), tail), rest) == ("[" + cls + "]") + PrintQuant(q, Print(d, tail, rest))
  {
  }

  lemma {:induction false} PrintSmall(lo: string, hi: string, m: nat, n: nat, rest: string)
    requires Decimal(m) == lo && Decimal(n) == hi
    ensures PrintQuant(Between(m, n), rest) == ("{" + (lo + ("," + (hi + "}")))) + rest
  {
    Assoc(hi, "}", rest);
    Assoc(",", hi + "}", rest);
    Assoc(lo, "," + (hi + "}"), rest);
    Assoc("{", lo + ("," + (hi + "}")), rest);
  }

  lemma {:induction false} PrintSuffix(d: Dialect)
    ensures Print(d, Suffix, "") == SAFE5
  {
    PrintClass(d, SAFE_CHARS, Exactly(5), End, "");
    assert Decimal(5) == "5";
    assert PrintQuant(Exactly(5), "") == "{5}";
  }

  lemma {:induction false} ShortDeploymentPrints(d: Dialect, name: string)
    ensures Print(d, Lits(name, Dash(HashItems)), "") == ShortDeploymentText(d, name)
  {
    PrintLits(d, name, Dash(HashItems), "");
    PrintDash(d, HashItems, "");
    PrintClass(d, SAFE_CHARS, Between(6, 10), DashSuffix, "");
    assert Decimal(10) == "10" && Decimal(6) == "6";
    PrintSmall("6", "10", 6, 10, Print(d, DashSuffix, ""));
    assert "{" + ("6" + ("," + ("10" + "}"))) == "{6,10}";
    PrintDash(d, Suffix, "");
    PrintSuffix(d);
  }

  lemma LongGroupPrints(d: Dialect, rest: string)
    ensures Print(d, Dash(MiddleHash), rest) == "-" + (SAFE + ("{0,10}" + ("-?" + rest)))
  {
    PrintDash(d, MiddleHash, rest);
    PrintClass(d, SAFE_CHARS, Between(0, 10), MiddleEnd, rest);
    Assoc("-", "?", rest);
    assert "-" + "?" == "-?";
    assert Decimal(10) == "10" && Decimal(0) == "0";
    PrintSmall("0", "10", 0, 10, "-?" + rest);
    assert "{" + ("0" + ("," + ("10" + "}"))) == "{0,10}";
  }

  lemma LongDeploymentPrints(d: Dialect, kept: string)
    ensures Print(d, Lits(kept, Then(MiddleItem, Suffix)), "") == LongDeploymentText(d, kept)
  {
    PrintLits(d, kept, Then(MiddleItem, Suffix), "");
    PrintSuffix(d);
    Assoc(")", "?", SAFE5);
    assert ")" + "?" == ")?";
    LongGroupPrints(d, ")?" + SAFE5);
  }

  lemma {:induction false} StatefulSetPrints(d: Dialect, name: string)
    ensures Print(d, Lits(name, Dash(PlusDigits)), "") == StatefulSetText(d, name)
  {
    PrintLits(d, name, Dash(PlusDigits), "");
    PrintDash(d, PlusDigits, "");
    PrintClass(d, "0-9", Plus, End, "");
    assert "[" + "0-9" + "]" == "[0-9]";
    assert PrintQuant(Plus, "") == "+";
  }

  lemma IndexPrints(d: Dialect, lo: nat, hi: nat)
    ensures Print(d, Dash(Index(lo, hi)), "") == "-" + ("[0-9]" + ("{" + (Decimal(lo) + ("," + (Decimal(hi) + ("}" + "-"))))))
  {
    PrintDash(d, Index(lo, hi), "");
    PrintClass(d, "0-9", Between(lo, hi), IndexDash, "");
    assert "[" + "0-9" + "]" == "[0-9]";
    PrintDash(d, End, "");
    assert "-" + "" == "-";
  }

  lemma GroupPrints(d: Dialect, name: string, digits: nat, last: nat, rest: string)
    requires digits <= JOB_INDEX_DIGITS_MAX
    ensures Print(d, GroupItems(name, digits, last), rest) == GroupText(d, name, digits, last) + rest
  {
    PrintLits(d, Take(name, Kept(|name|, digits)), Dash(Index(digits, last)), "");
    IndexPrints(d, digits, last);
    PrintRest(d, GroupItems(name, digits, last), "", rest);
    assert "" + rest == rest;
  }

  lemma {:induction false} GroupAltsPrint(d: Dialect, name: string, digits: nat, rest: string)
    requires digits <= JOB_INDEX_DIGITS_MAX
    ensures PrintAlts(d, GroupAlts(name, digits), rest) == Join(GroupTexts(d, name, digits)) + rest
    decreases JOB_INDEX_DIGITS_MAX - digits
  {
    var last := LastAlike(|name|, digits, digits);
    var first := GroupText(d, name, digits, last);
    var texts := GroupTexts(d, name, last + 1);
    assert GroupTexts(d, name, digits) == [first] + texts;
    if last == JOB_INDEX_DIGITS_MAX {
      GroupPrints(d, name, digits, last, rest);
    } else {
      GroupAltsPrint(d, name, last + 1, rest);
      GroupPrints(d, name, digits, last, "|" + (Join(texts) + rest));
      assert ([first] + texts)[1..] == texts;
      Assoc("|", Join(texts), rest);
      Assoc(first, "|" + Join(texts), rest);
      Assoc(first, "|", Join(texts));
    }
  }

  lemma ShortJobPrints(d: Dialect, name: string)
    ensures Print(d, Lits(name, Dash(Then(IndexItem, Suffix))), "") == ShortJobText(d, name)
  {
    PrintLits(d, name, Dash(Then(IndexItem, Suffix)), "");
    PrintDash(d, Then(IndexItem, Suffix), "");
    PrintSuffix(d);
    var close := ")" + Mark(true, SAFE5);
    Assoc(")", "?", SAFE5);
    assert ")" + "?" == ")?";
    PrintClass(d, "0-9", Between(1, 7), IndexDash, close);
    assert "[" + "0-9" + "]" == "[0-9]";
    PrintDash(d, End, close);
    PrintSmall("1", "7", 1, 7, "-" + close);
    assert "{" + ("1" + ("," + ("7" + "}"))) == "{1,7}";
  }

  lemma JobPrints(d: Dialect, name: string)
    ensures Print(d, JobItems(name), "") == JobText(d, name)
  {
    if |name| + JOB_INDEX_DIGITS_MAX + 2 <= GENERATED_PREFIX_MAX {
      ShortJobPrints(d, name);
    } else {
      PrintSuffix(d);
      var cut := Take(name + "-", GENERATED_PREFIX_MAX);
      var groups := GroupTexts(d, name, 1);
      var close := ")" + SAFE5;
      GroupAltsPrint(d, name, 1, close);
      var more := GroupAlts(name, 1);
      PrintLits(d, cut, End, "|" + PrintAlts(d, more, close));
      assert PrintAlts(d, Or(Lits(cut, End), more), close) == Print(d, Lits(cut, End), "|" + PrintAlts(d, more, close));
      assert Print(d, JobItems(name), "") == "(" + PrintAlts(d, Or(Lits(cut, End), more), ")" + Mark(false, SAFE5));
      assert ([Literal(d, cut)] + groups)[1..] == groups;
      var first := Literal(d, cut);
      Assoc("|", Join(groups), close);
      Assoc(first, "|" + Join(groups), close);
      Assoc(first, "|", Join(groups));
    }
  }

  lemma {:induction false} GroupAltsReadable(name: string, digits: nat)
    requires digits <= JOB_INDEX_DIGITS_MAX
    ensures ReadableAlts(GroupAlts(name, digits))
    decreases JOB_INDEX_DIGITS_MAX - digits
  {
    PlainClasses();
    var last := LastAlike(|name|, digits, digits);
    LitsReadable(Take(name, Kept(|name|, digits)), Dash(Index(digits, last)));
    if last < JOB_INDEX_DIGITS_MAX {
      GroupAltsReadable(name, last + 1);
    }
  }

  lemma PodsReadable(w: Workload)
    requires !w.Pod?
    ensures Readable(PodsItems(w))
  {
    PlainClasses();
    assert Readable(Suffix);
    match w {
      case Deployment(name) =>
        LitsReadable(name, Dash(HashItems));
        LitsReadable(Take(name, GENERATED_PREFIX_MAX), Then(MiddleItem, Suffix));
      case StatefulSet(name) => LitsReadable(name, Dash(PlusDigits));
      case DaemonSet(name) => LitsReadable(Take(name + "-", GENERATED_PREFIX_MAX), Suffix);
      case Job(name) =>
        LitsReadable(name, Dash(Then(IndexItem, Suffix)));
        LitsReadable(Take(name + "-", GENERATED_PREFIX_MAX), End);
        GroupAltsReadable(name, 1);
    }
  }

  lemma PodsTextPrints(d: Dialect, w: Workload)
    requires !w.Pod?
    ensures PodsText(d, w) == Some(Print(d, PodsItems(w), ""))
  {
    match w {
      case Deployment(name) =>
        ShortDeploymentPrints(d, name);
        LongDeploymentPrints(d, Take(name, GENERATED_PREFIX_MAX));
      case StatefulSet(name) => StatefulSetPrints(d, name);
      case DaemonSet(name) =>
        PrintLits(d, Take(name + "-", GENERATED_PREFIX_MAX), Suffix, "");
        PrintSuffix(d);
      case Job(name) => JobPrints(d, name);
    }
  }

  /**
   * The text of every workload, in both dialects, reads as the same expression,
   * whatever characters the name has.
   */
  lemma PodsTextReads(d: Dialect, w: Workload)
    requires !w.Pod?
    ensures PodsText(d, w).Some? && Read(d, PodsText(d, w).value) == Some(PodsItems(w))
  {
    PodsTextPrints(d, w);
    PodsReadable(w);
    PrintReads(d, PodsItems(w));
  }
}
