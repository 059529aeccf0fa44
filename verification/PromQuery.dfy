/** The label matchers of a workload's Prometheus queries, and how Prometheus reads them. */
module PromQuery {
  import opened Prelude
  import opened RegexText
  import opened PodNames
  import opened PodLanguages
  import opened Escaping
  import opened HistoryQuery

  // ----- String literals -----

  function Escaped(c: char): string {
    if c == '\\' then "\\\\" else if c == '"' then "\\\"" else if c == '\n' then "\\n" else if c == '\r' then "\\r" else [c]
  }

  /** The characters of a literal, escaped one by one. */
  function Body(s: string): string { if s == "" then "" else Body(s[..|s| - 1]) + Escaped(s[|s| - 1]) }

  function PromString(s: string): string { "\"" + (Body(s) + "\"") }

  method EscapeString(value: string) returns (out: string)
    ensures out == PromString(value)
  {
    out := "\"";
    for i := 0 to |value|
      invariant out == "\"" + Body(value[..i])
    {
      assert value[..i + 1][..i] == value[..i];
      var c := value[i];
      ghost var before := Body(value[..i]);
      Assoc("\"", before, Escaped(c));
      if c == '\\' {
        out := out + "\\\\";
      } else if c == '"' {
        out := out + "\\\"";
      } else if c == '\n' {
        out := out + "\\n";
      } else if c == '\r' {
        out := out + "\\r";
      } else {
        out := out + [c];
      }
    }
    assert value[..|value|] == value;
    Assoc("\"", Body(value), "\"");
    out := out + "\"";
  }

  function Unescaped(c: char): char { if c == 'n' then '\n' else if c == 'r' then '\r' else c }

  /** Reads up to the closing quote. */
  function ReadBody(t: string): (r: Option<(string, string)>)
    ensures r.Some? ==> |r.value.1| < |t|
  {
    if t == "" then None else
    if t[0] == '"' then Some(("", t[1..])) else
    if t[0] == '\\' then (if |t| < 2 then None else Push(Unescaped(t[1]), ReadBody(t[2..]))) else
    Push(t[0], ReadBody(t[1..]))
  }

  function ReadString(t: string): (r: Option<(string, string)>)
    ensures r.Some? ==> |r.value.1| < |t|
  {
    if t == "" || t[0] != '"' then None else ReadBody(t[1..])
  }

  lemma {:induction false} EscapedReads(c: char, t: string)
    ensures ReadBody(Escaped(c) + t) == Push(c, ReadBody(t))
  {
    var e := Escaped(c);
    if |e| == 2 {
      assert (e + t)[2..] == t;
    } else {
      assert (e + t)[1..] == t;
    }
  }

  lemma {:induction false} BodyReads(s: string, more: string, t: string, rest: string)
    requires ReadBody(t) == Some((more, rest))
    ensures ReadBody(Body(s) + t) == Some((s + more, rest))
    decreases |s|
  {
    if s == "" {
      assert Body(s) + t == t && s + more == more;
    } else {
      var n := |s| - 1;
      EscapedReads(s[n], t);
      BodyReads(s[..n], [s[n]] + more, Escaped(s[n]) + t, rest);
      Assoc(Body(s[..n]), Escaped(s[n]), t);
      Assoc(s[..n], [s[n]], more);
      assert s == s[..n] + [s[n]];
    }
  }

  /** Any text is read back from its literal. */
  lemma PromStringReads(s: string, rest: string)
    ensures ReadString(PromString(s) + rest) == Some((s, rest))
  {
    assert ("\"" + rest)[1..] == rest;
    BodyReads(s, "", "\"" + rest, rest);
    assert s + "" == s;
    Assoc(Body(s), "\"", rest);
    assert (PromString(s) + rest)[1..] == Body(s) + ("\"" + rest);
  }

  // ----- Matchers -----

  datatype Matcher = Equal(tag: string, value: string) | Regex(tag: string, text: string)

  function MatcherText(m: Matcher): string {
    match m
    case Equal(tag, value) => tag + ("=" + PromString(value))
    case Regex(tag, text) => tag + ("=~" + PromString(text))
  }

  /** The cluster label's value, when one is set. */
  function ClusterValue(cluster: Option<string>): Option<string> {
    if cluster.None? || Trim(cluster.value) == "" then None else Some(Trim(cluster.value))
  }

  function PodMatcher(w: Workload): Matcher {
    var text := PodsText(Re2, w);
    if text.Some? then Regex("pod", text.value) else Equal("pod", w.name)
  }

  function ClusterPart(cluster: Option<string>): string {
    var value := ClusterValue(cluster);
    if value.None? then "" else ", " + MatcherText(Equal("cluster", value.value))
  }

  function Selector(namespace: string, w: Workload, cluster: Option<string>): string {
    MatcherText(Equal("namespace", namespace)) + (", " + (MatcherText(PodMatcher(w)) + ClusterPart(cluster)))
  }

  method BuildSelector(namespace: string, w: Workload, cluster: Option<string>) returns (out: string)
    ensures out == Selector(namespace, w, cluster)
  {
    var first, pod := MatcherText(Equal("namespace", namespace)), MatcherText(PodMatcher(w));
    out := first + (", " + pod);
    Assoc(", ", pod, ClusterPart(cluster));
    Assoc(first, ", " + pod, ClusterPart(cluster));
    var value := ClusterValue(cluster);
    ghost var narrow := ClusterPart(cluster);
    if value.Some? {
      out := out + (", " + MatcherText(Equal("cluster", value.value)));
    } else {
      assert out + "" == out;
    }
  }

  function ReadTag(t: string): (r: Option<(string, string)>)
    ensures r.Some? ==> |r.value.1| < |t|
  {
    if t == "" then None else if t[0] == '=' then Some(("", t[1..])) else Push(t[0], ReadTag(t[1..]))
  }

  function ReadMatcher(t: string): (r: Option<(Matcher, string)>)
    ensures r.Some? ==> |r.value.1| < |t|
  {
    var tag := ReadTag(t);
    if tag.None? then None else
    var regex := tag.value.1 != "" && tag.value.1[0] == '~';
    var value := ReadString(if regex then tag.value.1[1..] else tag.value.1);
    if value.None? then None else
    Some((if regex then Regex(tag.value.0, value.value.0) else Equal(tag.value.0, value.value.0), value.value.1))
  }

  /** Reads matchers with commas between them. */
  function ReadMatchers(t: string): Option<seq<Matcher>>
    decreases |t|
  {
    var m := ReadMatcher(t);
    if m.None? then None else
    if m.value.1 == "" then Some([m.value.0]) else
    var rest := StripPrefix(m.value.1, ", ");
    if rest.None? then None else
    var more := ReadMatchers(rest.value);
    if more.None? then None else Some([m.value.0] + more.value)
  }

  predicate PlainTag(tag: string) { forall i :: 0 <= i < |tag| ==> tag[i] != '=' }

  lemma {:induction false} TagReads(tag: string, rest: string)
    requires PlainTag(tag)
    ensures ReadTag(tag + ("=" + rest)) == Some((tag, rest))
  {
    var tail := "=" + rest;
    if tag == "" {
      assert tag + tail == tail && tail[1..] == rest;
    } else {
      TagReads(tag[1..], rest);
      assert (tag + tail)[1..] == tag[1..] + tail;
      assert [tag[0]] + tag[1..] == tag;
    }
  }

  lemma MatcherReads(m: Matcher, rest: string)
    requires PlainTag(m.tag)
    ensures ReadMatcher(MatcherText(m) + rest) == Some((m, rest))
  {
    match m
    case Equal(tag, value) =>
      var literal := PromString(value);
      Assoc(tag, "=" + literal, rest);
      Assoc("=", literal, rest);
      TagReads(tag, literal + rest);
      assert (literal + rest)[0] == '"';
      PromStringReads(value, rest);
    case Regex(tag, text) =>
      var literal := PromString(text);
      Assoc(tag, "=~" + literal, rest);
      assert ("=~" + literal) + rest == "=" + ("~" + (literal + rest));
      TagReads(tag, "~" + (literal + rest));
      assert ("~" + (literal + rest))[1..] == literal + rest;
      PromStringReads(text, rest);
  }

  lemma LastMatcherReads(m: Matcher)
    requires PlainTag(m.tag)
    ensures ReadMatchers(MatcherText(m)) == Some([m])
  {
    MatcherReads(m, "");
    assert MatcherText(m) + "" == MatcherText(m);
  }

  lemma AnotherMatcherReads(m: Matcher, more: string, rest: seq<Matcher>)
    requires PlainTag(m.tag) && ReadMatchers(more) == Some(rest)
    ensures ReadMatchers(MatcherText(m) + (", " + more)) == Some([m] + rest)
  {
    MatcherReads(m, ", " + more);
    assert (", " + more)[2..] == more;
  }

  function Matchers(namespace: string, w: Workload, cluster: Option<string>): seq<Matcher> {
    [Equal("namespace", namespace)] + ([PodMatcher(w)]
    + (if ClusterValue(cluster).None? then [] else [Equal("cluster", ClusterValue(cluster).value)]))
  }

  lemma PodAndClusterRead(w: Workload, cluster: Option<string>)
    ensures ReadMatchers(MatcherText(PodMatcher(w)) + ClusterPart(cluster))
         == Some([PodMatcher(w)] + (if ClusterValue(cluster).None? then [] else [Equal("cluster", ClusterValue(cluster).value)]))
  {
    if ClusterValue(cluster).None? {
      LastMatcherReads(PodMatcher(w));
      assert MatcherText(PodMatcher(w)) + "" == MatcherText(PodMatcher(w));
      assert [PodMatcher(w)] + [] == [PodMatcher(w)];
    } else {
      var m := Equal("cluster", ClusterValue(cluster).value);
      LastMatcherReads(m);
      AnotherMatcherReads(PodMatcher(w), MatcherText(m), [m]);
    }
  }

  /** Prometheus reads the matchers that were meant, whatever the texts are. */
  lemma SelectorReads(namespace: string, w: Workload, cluster: Option<string>)
    ensures ReadMatchers(Selector(namespace, w, cluster)) == Some(Matchers(namespace, w, cluster))
  {
    PodAndClusterRead(w, cluster);
    AnotherMatcherReads(Equal("namespace", namespace), MatcherText(PodMatcher(w)) + ClusterPart(cluster),
                        [PodMatcher(w)] + (if ClusterValue(cluster).None? then [] else [Equal("cluster", ClusterValue(cluster).value)]));
  }

  // ----- What they select -----

  type Labels = map<string, string>

  function Value(labels: Labels, tag: string): string { if tag in labels then labels[tag] else "" }

  /** A matcher accepts a series; a regexp matches the whole value. */
  ghost predicate Accepts(m: Matcher, labels: Labels) {
    match m
    case Equal(tag, value) => Value(labels, tag) == value
    case Regex(tag, text) => Read(Re2, text).Some? && Match(Read(Re2, text).value, Value(labels, tag))
  }

  ghost predicate AcceptsAll(ms: seq<Matcher>, labels: Labels) { forall i :: 0 <= i < |ms| ==> Accepts(ms[i], labels) }

  /** A series of the workload's own pods, in its namespace and cluster. */
  ghost predicate OwnSeries(namespace: string, w: Workload, cluster: Option<string>, labels: Labels) {
    && Value(labels, "namespace") == namespace && PodOf(w, Value(labels, "pod"))
    && (ClusterValue(cluster).Some? ==> Value(labels, "cluster") == ClusterValue(cluster).value)
  }

  /** A selector accepts what each of its matchers accepts. */
  lemma SelectorAccepts(namespace: string, w: Workload, cluster: Option<string>, labels: Labels)
    ensures AcceptsAll(Matchers(namespace, w, cluster), labels) <==>
      && Value(labels, "namespace") == namespace && Accepts(PodMatcher(w), labels)
      && (ClusterValue(cluster).Some? ==> Value(labels, "cluster") == ClusterValue(cluster).value)
  {
    var ms := Matchers(namespace, w, cluster);
    assert ms[0] == Equal("namespace", namespace) && ms[1] == PodMatcher(w);
    assert ClusterValue(cluster).Some? ==> ms[2] == Equal("cluster", ClusterValue(cluster).value);
    if Accepts(ms[0], labels) && Accepts(ms[1], labels) && (ClusterValue(cluster).Some? ==> Accepts(ms[2], labels)) {
      forall i | 0 <= i < |ms|
        ensures Accepts(ms[i], labels)
      {
        assert i == 0 || i == 1 || i == 2;
      }
    }
  }

  /**
   * The queries select every series of the workload's own pods, in its
   * namespace and cluster; and, for workloads with an exact text, no other.
   */
  lemma SelectorSelectsPods(namespace: string, w: Workload, cluster: Option<string>, labels: Labels)
    requires Ascii(w.name)
    ensures OwnSeries(namespace, w, cluster, labels) ==> AcceptsAll(Matchers(namespace, w, cluster), labels)
    ensures Exact(w) && AcceptsAll(Matchers(namespace, w, cluster), labels) ==> OwnSeries(namespace, w, cluster, labels)
  {
    SelectorAccepts(namespace, w, cluster, labels);
    if !w.Pod? {
      TextMatchesPods(Re2, w, Value(labels, "pod"));
    }
  }

  /** They select exactly these if and only if no Deployment name is cut. */
  lemma SelectorIsExact(namespace: string, w: Workload, cluster: Option<string>)
    requires Ascii(w.name)
    ensures (forall labels :: AcceptsAll(Matchers(namespace, w, cluster), labels) <==> OwnSeries(namespace, w, cluster, labels))
            <==> Exact(w)
  {
    if Exact(w) {
      forall labels
        ensures AcceptsAll(Matchers(namespace, w, cluster), labels) <==> OwnSeries(namespace, w, cluster, labels)
      {
        SelectorSelectsPods(namespace, w, cluster, labels);
      }
    } else {
      var pod := InexactText(Re2, w);
      var labels := map["namespace" := namespace, "pod" := pod, "cluster" := if ClusterValue(cluster).Some? then ClusterValue(cluster).value else ""];
      SelectorAccepts(namespace, w, cluster, labels);
    }
  }

  /** The metrics of a pod are the workload's exactly when its logs are: the regexps of both say the same. */
  lemma MetricsAndLogsAgree(w: Workload, labels: Labels, doc: Doc)
    requires !w.Pod? && Ascii(w.name) && POD in doc.fields && doc.fields[POD] == {Value(labels, "pod")}
    requires PodsText(Lucene, w).Some?
    ensures Accepts(PodMatcher(w), labels) <==> HasMatch(doc, POD, PodsText(Lucene, w).value)
  {
    var pod := Value(labels, "pod");
    TextMatches(Re2, w, pod);
    TextMatches(Lucene, w, pod);
    assert Has(doc, POD, pod);
  }
}
