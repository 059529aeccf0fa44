module DiscoverLink {
  // Kibana Discover links: the query as a KQL or Lucene text, in a Rison state, in
  // a percent-encoded fragment; and how such a link is read back.
  //
  // Texts are sequences of UTF-8 bytes, one character code below 256 each.

  import opened Prelude
  import opened RegexText
  import opened Escaping
  import opened HistoryQuery

  predicate Bytes(s: string) { forall i :: 0 <= i < |s| ==> s[i] as int < 256 }

  // ----- Percent encoding (section 2.1 of RFC 3986) -----

  predicate Unreserved(c: char) { IsAlphanumeric(c) || c in {'-', '.', '_', '~'} }

  function HexDigit(n: nat): char
    requires n < 16
  {
    if n < 10 then '0' + n as char else 'A' + (n - 10) as char
  }

  function HexValue(c: char): Option<nat> {
    if '0' <= c <= '9' then Some((c - '0') as nat) else
    if 'A' <= c <= 'F' then Some((c - 'A') as nat + 10) else
    if 'a' <= c <= 'f' then Some((c - 'a') as nat + 10) else None
  }

  function PercentEncode(s: string): string
    requires Bytes(s)
  {
    if s == "" then "" else
    var b := s[0] as nat;
    (if Unreserved(s[0]) then [s[0]] else ['%', HexDigit(b / 16), HexDigit(b % 16)]) + PercentEncode(s[1..])
  }

  function PercentDecode(t: string): Option<string> {
    if t == "" then Some("") else
    if t[0] != '%' then
      var more := PercentDecode(t[1..]);
      if more.None? then None else Some([t[0]] + more.value)
    else
      if |t| < 3 || HexValue(t[1]).None? || HexValue(t[2]).None? then None else
      var more := PercentDecode(t[3..]);
      if more.None? then None else Some([(16 * HexValue(t[1]).value + HexValue(t[2]).value) as char] + more.value)
  }

  lemma HexReads(n: nat)
    requires n < 16
    ensures HexValue(HexDigit(n)) == Some(n)
  {
  }

  lemma {:induction false} PercentReads(s: string)
    requires Bytes(s)
    ensures PercentDecode(PercentEncode(s)) == Some(s)
    ensures forall i :: 0 <= i < |PercentEncode(s)| ==> PercentEncode(s)[i] !in {'&', '?', '#', '='}
  {
    if s != "" {
      PercentReads(s[1..]);
      var b := s[0] as nat;
      HexReads(b / 16);
      HexReads(b % 16);
      assert 16 * (b / 16) + b % 16 == b;
      assert s == [s[0]] + s[1..];
      if !Unreserved(s[0]) {
        assert PercentEncode(s)[3..] == PercentEncode(s[1..]);
      } else {
        assert PercentEncode(s)[1..] == PercentEncode(s[1..]);
      }
    }
  }

  // ----- The link -----

  /** The base without its query, fragment or trailing slashes. */
  function CutAt(s: string): string { if s == "" || s[0] in {'?', '#'} then "" else [s[0]] + CutAt(s[1..]) }

  function TrimSlashes(s: string): string { if s != "" && s[|s| - 1] == '/' then TrimSlashes(s[..|s| - 1]) else s }

  function CleanBase(base: string): string { TrimSlashes(CutAt(Trim(base))) }

  function TimeState(from: string, to: string): string {
    "(time:(from:" + (Rison(from) + (",to:" + (Rison(to) + "))")))
  }

  function QueryState(language: string, query: string): string {
    "(query:(language:" + (language + (",query:" + (Rison(query) + "))")))
  }

  function Link(base: string, language: string, query: string, from: string, to: string): string
    requires Bytes(TimeState(from, to)) && Bytes(QueryState(language, query))
  {
    CleanBase(base) + ("/app/discover#/" + ("?_g=" + (PercentEncode(TimeState(from, to)) + ("&_a=" + PercentEncode(QueryState(language, query))))))
  }

  // ----- Reading a link -----

  datatype Shown = Shown(language: string, query: string, from: string, to: string)

  function AfterQuestionMark(t: string): Option<string> {
    if t == "" then None else if t[0] == '?' then Some(t[1..]) else AfterQuestionMark(t[1..])
  }

  function UntilAmpersand(t: string): (r: (string, string)) {
    if t == "" || t[0] == '&' then ("", t) else
    var (head, rest) := UntilAmpersand(t[1..]);
    ([t[0]] + head, rest)
  }

  function ReadTime(g: string): Option<(string, string)> {
    var a := StripPrefix(g, "(time:(from:");
    if a.None? then None else
    var from := ReadQuoted(a.value, '\'', '!');
    if from.None? then None else
    var b := StripPrefix(from.value.1, ",to:");
    if b.None? then None else
    var to := ReadQuoted(b.value, '\'', '!');
    if to.None? || to.value.1 != "))" then None else Some((from.value.0, to.value.0))
  }

  function UntilComma(t: string): (string, string) {
    if t == "" || t[0] == ',' then ("", t) else
    var (head, rest) := UntilComma(t[1..]);
    ([t[0]] + head, rest)
  }

  function ReadQuery(a: string): Option<(string, string)> {
    var b := StripPrefix(a, "(query:(language:");
    if b.None? then None else
    var (language, rest) := UntilComma(b.value);
    var c := StripPrefix(rest, ",query:");
    if c.None? then None else
    var query := ReadQuoted(c.value, '\'', '!');
    if query.None? || query.value.1 != "))" then None else Some((language, query.value.0))
  }

  function ReadLink(link: string): Option<Shown> {
    var state := AfterQuestionMark(link);
    if state.None? then None else
    var g := StripPrefix(state.value, "_g=");
    if g.None? then None else
    var (time, rest) := UntilAmpersand(g.value);
    var a := StripPrefix(rest, "&_a=");
    if a.None? then None else
    var time', query' := PercentDecode(time), PercentDecode(a.value);
    if time'.None? || query'.None? then None else
    var window, query := ReadTime(time'.value), ReadQuery(query'.value);
    if window.None? || query.None? then None else Some(Shown(query.value.0, query.value.1, window.value.0, window.value.1))
  }

  lemma {:induction false} Stripped(prefix: string, rest: string)
    ensures StripPrefix(prefix + rest, prefix) == Some(rest)
  {
    assert (prefix + rest)[|prefix|..] == rest;
  }

  lemma TimeReads(from: string, to: string)
    ensures ReadTime(TimeState(from, to)) == Some((from, to))
  {
    var last := Rison(to) + "))";
    Stripped("(time:(from:", Rison(from) + (",to:" + last));
    RisonReads(from, ",to:" + last);
    Stripped(",to:", last);
    RisonReads(to, "))");
  }

  lemma {:induction false} CommaReads(language: string, rest: string)
    requires forall i :: 0 <= i < |language| ==> language[i] != ','
    requires rest != "" && rest[0] == ','
    ensures UntilComma(language + rest) == (language, rest)
  {
    if language == "" {
      assert language + rest == rest;
    } else {
      CommaReads(language[1..], rest);
      assert (language + rest)[1..] == language[1..] + rest;
      assert language == [language[0]] + language[1..];
    }
  }

  lemma QueryReads(language: string, query: string)
    requires forall i :: 0 <= i < |language| ==> language[i] != ','
    ensures ReadQuery(QueryState(language, query)) == Some((language, query))
  {
    var last := Rison(query) + "))";
    Stripped("(query:(language:", language + (",query:" + last));
    CommaReads(language, ",query:" + last);
    Stripped(",query:", last);
    RisonReads(query, "))");
  }

  lemma {:induction false} AmpersandReads(head: string, rest: string)
    requires forall i :: 0 <= i < |head| ==> head[i] != '&'
    requires rest != "" && rest[0] == '&'
    ensures UntilAmpersand(head + rest) == (head, rest)
  {
    if head == "" {
      assert head + rest == rest;
    } else {
      AmpersandReads(head[1..], rest);
      assert (head + rest)[1..] == head[1..] + rest;
      assert head == [head[0]] + head[1..];
    }
  }

  predicate NoMark(s: string) { forall i :: 0 <= i < |s| ==> s[i] != '?' }

  lemma {:induction false} MarkReads(head: string, rest: string)
    requires NoMark(head)
    ensures AfterQuestionMark(head + ("?" + rest)) == Some(rest)
  {
    var tail := "?" + rest;
    if head == "" {
      assert head + tail == tail && tail[1..] == rest;
    } else {
      MarkReads(head[1..], rest);
      assert (head + tail)[1..] == head[1..] + tail;
    }
  }

  lemma {:induction false} CutHasNoMark(s: string)
    ensures NoMark(CutAt(s))
  {
    if s != "" {
      CutHasNoMark(s[1..]);
    }
  }

  lemma {:induction false} TrimmedPart(s: string)
    requires NoMark(s)
    ensures NoMark(TrimSlashes(s))
  {
    if s != "" && s[|s| - 1] == '/' {
      TrimmedPart(s[..|s| - 1]);
    }
  }

  /** Any link shows the query and the window it was built for, whatever the texts are. */
  lemma LinkReads(base: string, language: string, query: string, from: string, to: string)
    requires Bytes(TimeState(from, to)) && Bytes(QueryState(language, query))
    requires forall i :: 0 <= i < |language| ==> language[i] != ','
    ensures ReadLink(Link(base, language, query, from, to)) == Some(Shown(language, query, from, to))
  {
    var g, a := PercentEncode(TimeState(from, to)), PercentEncode(QueryState(language, query));
    CutHasNoMark(Trim(base));
    TrimmedPart(CutAt(Trim(base)));
    var head := CleanBase(base) + "/app/discover#/";
    LinkText(base, g, a);
    MarkReads(head, "_g=" + (g + ("&_a=" + a)));
    Stripped("_g=", g + ("&_a=" + a));
    PercentReads(TimeState(from, to));
    PercentReads(QueryState(language, query));
    AmpersandReads(g, "&_a=" + a);
    Stripped("&_a=", a);
    TimeReads(from, to);
    QueryReads(language, query);
  }

  lemma {:induction false} LinkText(base: string, g: string, a: string)
    ensures CleanBase(base) + ("/app/discover#/" + ("?_g=" + (g + ("&_a=" + a))))
         == (CleanBase(base) + "/app/discover#/") + ("?" + ("_g=" + (g + ("&_a=" + a))))
  {
    assert "?_g=" == "?" + "_g=";
    Assoc("?", "_g=", g + ("&_a=" + a));
    Assoc(CleanBase(base), "/app/discover#/", "?" + ("_g=" + (g + ("&_a=" + a))));
  }

  // ----- KQL -----

  function Pair(field: string, value: string): string { Escape(KqlField, field) + (":" + Kql(value)) }

  function PlainPair(field: string, value: string): string { field + (":" + Kql(value)) }

  /** The KQL query of one pod's logs. */
  function PodQuery(namespace: string, pod: string, container: Option<string>, cluster: Option<ClusterFilter>): string {
    PlainPair(NAMESPACE, namespace)
    + (" and " + (PlainPair(POD, pod) + (ContainerClause(container) + KqlClusterClause(cluster))))
  }

  /** The text grows clause by clause. */
  method BuildPodQuery(namespace: string, pod: string, container: Option<string>, cluster: Option<ClusterFilter>)
    returns (query: string)
    ensures query == PodQuery(namespace, pod, container, cluster)
  {
    query := PlainPair(NAMESPACE, namespace) + (" and " + PlainPair(POD, pod));
    ghost var start := query;
    if container.Some? && container.value != "" {
      query := query + (" and " + PlainPair(CONTAINER, container.value));
    }
    Assoc(start, ContainerClause(container), KqlClusterClause(cluster));
    query := query + KqlClusterClause(cluster);
    var narrow := ContainerClause(container) + KqlClusterClause(cluster);
    Assoc(" and ", PlainPair(POD, pod), narrow);
    Assoc(PlainPair(NAMESPACE, namespace), " and " + PlainPair(POD, pod), narrow);
  }

  function ContainerClause(container: Option<string>): string {
    if container.None? || container.value == "" then "" else " and " + PlainPair(CONTAINER, container.value)
  }

  function KqlClusterClause(cluster: Option<ClusterFilter>): string {
    var term := ClusterTerm(cluster);
    if term.None? then "" else " and " + Pair(term.value.0, term.value.1)
  }

  /** Reads `field:"value" and field:"value" …`. */
  function ReadPairs(t: string): Option<seq<(string, string)>>
    decreases |t|
  {
    var field := ReadUntil(t, '\\', ':');
    if field.None? then None else
    var value := ReadQuoted(field.value.1, '"', '\\');
    if value.None? then None else
    var pair := (field.value.0, value.value.0);
    if value.value.1 == "" then Some([pair]) else
    var rest := StripPrefix(value.value.1, " and ");
    if rest.None? then None else
    var more := ReadPairs(rest.value);
    if more.None? then None else Some([pair] + more.value)
  }

  lemma PairStarts(field: string, value: string, rest: string)
    ensures ReadUntil(Pair(field, value) + rest, '\\', ':') == Some((field, Kql(value) + rest))
  {
    Assoc(":", Kql(value), rest);
    Assoc(Escape(KqlField, field), ":" + Kql(value), rest);
    FieldReads(KqlField, field, Kql(value) + rest);
  }

  lemma LastPairReads(field: string, value: string)
    ensures ReadPairs(Pair(field, value)) == Some([(field, value)])
  {
    PairStarts(field, value, "");
    KqlReads(value, "");
    assert Pair(field, value) + "" == Pair(field, value);
  }

  lemma PairReads(field: string, value: string, more: string, pairs: seq<(string, string)>)
    requires ReadPairs(more) == Some(pairs)
    ensures ReadPairs(Pair(field, value) + (" and " + more)) == Some([(field, value)] + pairs)
  {
    PairStarts(field, value, " and " + more);
    KqlReads(value, " and " + more);
    Stripped(" and ", more);
  }

  predicate PodField(field: string) { field == NAMESPACE || field == POD || field == CONTAINER }

  predicate Unescaped(field: string) { forall i :: 0 <= i < |field| ==> !Special(KqlField, field[i]) }

  lemma NamespaceIsUnescaped()
    ensures Unescaped(NAMESPACE)
  {
  }

  lemma PodIsUnescaped()
    ensures Unescaped(POD)
  {
  }

  lemma ContainerIsUnescaped()
    ensures Unescaped(CONTAINER)
  {
  }

  /** The names of the preset's fields need no escape. */
  lemma {:induction false} PlainPairs(field: string, value: string)
    requires PodField(field)
    ensures PlainPair(field, value) == Pair(field, value)
  {
    NamespaceIsUnescaped();
    PodIsUnescaped();
    ContainerIsUnescaped();
    EscapeNothing(KqlField, field);
  }

  function ContainerPairs(container: Option<string>): seq<(string, string)> {
    if container.None? || container.value == "" then [] else [(CONTAINER, container.value)]
  }

  function ClusterPairs(cluster: Option<ClusterFilter>): seq<(string, string)> {
    if ClusterTerm(cluster).None? then [] else [ClusterTerm(cluster).value]
  }

  /** A pair, then the cluster clause, which may be absent. */
  lemma ClusterPairReads(field: string, value: string, cluster: Option<ClusterFilter>)
    ensures ReadPairs(Pair(field, value) + KqlClusterClause(cluster)) == Some([(field, value)] + ClusterPairs(cluster))
  {
    var term := ClusterTerm(cluster);
    if term.None? {
      LastPairReads(field, value);
      assert Pair(field, value) + "" == Pair(field, value);
      assert [(field, value)] + [] == [(field, value)];
    } else {
      LastPairReads(term.value.0, term.value.1);
      PairReads(field, value, Pair(term.value.0, term.value.1), [term.value]);
    }
  }

  lemma ContainerPairReads(field: string, value: string, container: Option<string>, cluster: Option<ClusterFilter>)
    ensures ReadPairs(Pair(field, value) + (ContainerClause(container) + KqlClusterClause(cluster)))
         == Some([(field, value)] + (ContainerPairs(container) + ClusterPairs(cluster)))
  {
    var last := KqlClusterClause(cluster);
    if container.None? || container.value == "" {
      ClusterPairReads(field, value, cluster);
      assert "" + last == last;
      assert [] + ClusterPairs(cluster) == ClusterPairs(cluster);
    } else {
      PlainPairs(CONTAINER, container.value);
      ClusterPairReads(CONTAINER, container.value, cluster);
      PairReads(field, value, Pair(CONTAINER, container.value) + last, [(CONTAINER, container.value)] + ClusterPairs(cluster));
      Assoc(" and ", Pair(CONTAINER, container.value), last);
    }
  }

  function PodPairs(namespace: string, pod: string, container: Option<string>, cluster: Option<ClusterFilter>): seq<(string, string)> {
    [(NAMESPACE, namespace)] + ([(POD, pod)] + (ContainerPairs(container) + ClusterPairs(cluster)))
  }

  /** The KQL of one pod reads back as its fields and values, whatever they are. */
  lemma PodQueryReads(namespace: string, pod: string, container: Option<string>, cluster: Option<ClusterFilter>)
    ensures ReadPairs(PodQuery(namespace, pod, container, cluster)) == Some(PodPairs(namespace, pod, container, cluster))
  {
    PlainPairs(NAMESPACE, namespace);
    PlainPairs(POD, pod);
    ContainerPairReads(POD, pod, container, cluster);
    PairReads(NAMESPACE, namespace, Pair(POD, pod) + (ContainerClause(container) + KqlClusterClause(cluster)),
              [(POD, pod)] + (ContainerPairs(container) + ClusterPairs(cluster)));
  }

  /**
   * The Discover link of a pod, read back (percent-decoded, then the Rison
   * strings, then the KQL literals), gives its namespace, pod, container,
   * cluster and window, for all texts.
   */
  lemma PodLinkReads(base: string, namespace: string, pod: string, container: Option<string>, cluster: Option<ClusterFilter>,
                     from: string, to: string)
    requires Bytes(TimeState(from, to)) && Bytes(QueryState("kuery", PodQuery(namespace, pod, container, cluster)))
    ensures var shown := ReadLink(Link(base, "kuery", PodQuery(namespace, pod, container, cluster), from, to));
            && shown.Some? && shown.value.language == "kuery" && shown.value.from == from && shown.value.to == to
            && ReadPairs(shown.value.query) == Some(PodPairs(namespace, pod, container, cluster))
  {
    LinkReads(base, "kuery", PodQuery(namespace, pod, container, cluster), from, to);
    PodQueryReads(namespace, pod, container, cluster);
  }

  /** The Discover link of a workload shows, in its window, the documents of the history search. */
  lemma WorkloadLinkShowsHistory(base: string, q: Query, cluster: Option<ClusterFilter>, doc: Doc)
    requires q.pod == "" && (q.container.None? || q.container.value == "")
    requires Bytes(TimeState(q.from, q.to))
    requires Bytes(QueryState("lucene", WorkloadQuery(q.namespace, q.workload) + ClusterClause(cluster)))
    ensures var shown := ReadLink(Link(base, "lucene", WorkloadQuery(q.namespace, q.workload) + ClusterClause(cluster), q.from, q.to));
            && shown.Some? && shown.value.language == "lucene" && ReadLucene(shown.value.query).Some?
            && (AcceptsAll(FilterOf(q, cluster), doc) <==>
                  (shown.value.from, shown.value.to) in doc.within && AcceptsEvery(ReadLucene(shown.value.query).value, doc))
  {
    LinkReads(base, "lucene", WorkloadQuery(q.namespace, q.workload) + ClusterClause(cluster), q.from, q.to);
    HistoryIsLucene(q, cluster, doc);
  }
}
