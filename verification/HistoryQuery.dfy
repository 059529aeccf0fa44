module HistoryQuery {
  // One workload's log filter, twice: the clauses of a history search (JSON) and
  // the Lucene query of the Kibana link. With the ECS field names.

  import opened Prelude
  import opened RegexText
  import opened PodNames
  import opened PodLanguages
  import opened Escaping

  const NAMESPACE := "kubernetes.namespace"
  const POD := "kubernetes.pod.name"
  const CONTAINER := "kubernetes.container.name"
  const JOB_LABEL := "kubernetes.labels.batch_kubernetes_io/job-name"
  const ECS_CLUSTER_FIELD := "orchestrator.cluster.name"

  /** A stored document: keyword values per field, and the time windows it falls in. */
  datatype Doc = Doc(fields: map<string, set<string>>, within: set<(string, string)>)

  predicate Has(doc: Doc, field: string, value: string) {
    field in doc.fields && value in doc.fields[field]
  }

  /** Some value of `field` matches the Lucene regexp `text` as a whole. */
  ghost predicate HasMatch(doc: Doc, field: string, text: string) {
    exists v :: Has(doc, field, v) && Read(Lucene, text).Some? && Match(Read(Lucene, text).value, v)
  }

  // ----- The cluster filter -----

  datatype ClusterFilter = ClusterFilter(field: string, value: string)

  function TrimStart(s: string): string { if s != "" && IsSpace(s[0]) then TrimStart(s[1..]) else s }

  function TrimEnd(s: string): string { if s != "" && IsSpace(s[|s| - 1]) then TrimEnd(s[..|s| - 1]) else s }

  function Trim(s: string): string { TrimEnd(TrimStart(s)) }

  /** The field and value to filter on; none when the value is blank. */
  function ClusterTerm(filter: Option<ClusterFilter>): Option<(string, string)> {
    if filter.None? || Trim(filter.value.value) == "" then None else
    Some((if Trim(filter.value.field) == "" then ECS_CLUSTER_FIELD else Trim(filter.value.field), Trim(filter.value.value)))
  }

  // ----- The history search -----

  datatype Clause =
    | Term(field: string, value: string)
    | Regexp(field: string, text: string)
    | Range(from: string, to: string)
    | AnyOf(clauses: seq<Clause>)

  ghost predicate Accepts(c: Clause, doc: Doc) {
    match c
    case Term(field, value) => Has(doc, field, value)
    case Regexp(field, text) => HasMatch(doc, field, text)
    case Range(from, to) => (from, to) in doc.within
    case AnyOf(clauses) => exists i :: 0 <= i < |clauses| && Accepts(clauses[i], doc)
  }

  ghost predicate AcceptsAll(filter: seq<Clause>, doc: Doc) {
    forall i :: 0 <= i < |filter| ==> Accepts(filter[i], doc)
  }

  datatype Query = Query(namespace: string, pod: string, workload: Option<Workload>, container: Option<string>, from: string, to: string)

  function PodFilter(q: Query): seq<Clause> {
    if q.workload.None? then (if q.pod == "" then [] else [Term(POD, q.pod)]) else
    var w := q.workload.value;
    var text := PodsText(Lucene, w);
    if text.None? then [Term(POD, w.name)] else
    if w.Job? then [AnyOf([Regexp(POD, text.value), Term(JOB_LABEL, w.name)])] else [Regexp(POD, text.value)]
  }

  /** The filter list of a search body, narrowed to the cluster. */
  method HistoryFilter(q: Query, cluster: Option<ClusterFilter>) returns (filter: seq<Clause>)
    ensures filter == FilterOf(q, cluster)
  {
    filter := [Term(NAMESPACE, q.namespace)];
    filter := filter + PodFilter(q);
    filter := filter + [Range(q.from, q.to)];
    if q.container.Some? && q.container.value != "" {
      filter := filter + [Term(CONTAINER, q.container.value)];
    }
    var term := ClusterTerm(cluster);
    if term.Some? {
      filter := filter + [Term(term.value.0, term.value.1)];
    }
  }

  function FilterOf(q: Query, cluster: Option<ClusterFilter>): seq<Clause> {
    [Term(NAMESPACE, q.namespace)] + PodFilter(q) + [Range(q.from, q.to)]
    + (if q.container.Some? && q.container.value != "" then [Term(CONTAINER, q.container.value)] else [])
    + (if ClusterTerm(cluster).Some? then [Term(ClusterTerm(cluster).value.0, ClusterTerm(cluster).value.1)] else [])
  }

  // ----- Lucene query strings -----

  datatype LTerm =
    | Phrase(field: string, value: string)
    | Pattern(field: string, text: string)
    | Either(alts: LTerms)

  datatype LTerms = One(term: LTerm) | More(term: LTerm, rest: LTerms)

  ghost predicate AcceptsTerm(t: LTerm, doc: Doc) {
    match t
    case Phrase(field, value) => Has(doc, field, value)
    case Pattern(field, text) => HasMatch(doc, field, text)
    case Either(alts) => AcceptsSome(alts, doc)
  }

  ghost predicate AcceptsSome(ts: LTerms, doc: Doc) {
    AcceptsTerm(ts.term, doc) || (ts.More? && AcceptsSome(ts.rest, doc))
  }

  ghost predicate AcceptsEvery(ts: LTerms, doc: Doc) {
    AcceptsTerm(ts.term, doc) && (ts.More? ==> AcceptsEvery(ts.rest, doc))
  }

  function StripPrefix(t: string, prefix: string): (r: Option<string>)
    ensures r.Some? ==> |r.value| + |prefix| == |t|
  {
    if prefix <= t then Some(t[|prefix|..]) else None
  }

  /** Reads a regexp up to an unescaped `/`; escapes stay for the regexp reader. */
  function ReadPattern(t: string): (r: Option<(string, string)>)
    ensures r.Some? ==> |r.value.1| < |t|
  {
    if t == "" then None else
    if t[0] == '/' then Some(("", t[1..])) else
    if t[0] == '\\' then (if |t| < 2 then None else Push(t[0], Push(t[1], ReadPattern(t[2..])))) else
    Push(t[0], ReadPattern(t[1..]))
  }

  function ReadTerm(t: string): (r: Option<(LTerm, string)>)
    ensures r.Some? ==> |r.value.1| < |t|
    decreases |t|, 0
  {
    if t == "" then None else
    if t[0] == '(' then
      var alts := ReadTerms(t[1..], " OR ");
      if alts.None? || alts.value.1 == "" || alts.value.1[0] != ')' then None else Some((Either(alts.value.0), alts.value.1[1..]))
    else
      var field := ReadUntil(t, '\\', ':');
      if field.None? || field.value.1 == "" then None else
      if field.value.1[0] == '/' then
        var text := ReadPattern(field.value.1[1..]);
        if text.None? then None else Some((Pattern(field.value.0, text.value.0), text.value.1))
      else
        var value := ReadQuoted(field.value.1, '"', '\\');
        if value.None? then None else Some((Phrase(field.value.0, value.value.0), value.value.1))
  }

  function ReadTerms(t: string, separator: string): (r: Option<(LTerms, string)>)
    ensures r.Some? ==> |r.value.1| < |t|
    decreases |t|, 1
  {
    var first := ReadTerm(t);
    if first.None? then None else
    var after := StripPrefix(first.value.1, separator);
    if after.None? then Some((One(first.value.0), first.value.1)) else
    var more := ReadTerms(after.value, separator);
    if more.None? then None else Some((More(first.value.0, more.value.0), more.value.1))
  }

  function ReadLucene(text: string): Option<LTerms> {
    var r := ReadTerms(text, " AND ");
    if r.Some? && r.value.1 == "" then Some(r.value.0) else None
  }

  // ----- The Lucene query of a workload -----

  function ClusterClause(cluster: Option<ClusterFilter>): string {
    var term := ClusterTerm(cluster);
    if term.None? then "" else " AND " + (Escape(LuceneField, term.value.0) + (":" + Kql(term.value.1)))
  }

  function PodsClause(w: Workload): string {
    var text := PodsText(Lucene, w);
    if text.Some? then POD + (":" + ("/" + (text.value + "/"))) else POD + (":" + Kql(w.name))
  }

  /** A Job also matches its label. */
  function JobClause(w: Workload): string {
    "(" + (PodsClause(w) + (" OR " + (Escape(LuceneField, JOB_LABEL) + (":" + (Kql(w.name) + ")")))))
  }

  function WorkloadQuery(namespace: string, workload: Option<Workload>): string {
    var query := NAMESPACE + (":" + Kql(namespace));
    if workload.None? then query else
    query + (" AND " + if workload.value.Job? then JobClause(workload.value) else PodsClause(workload.value))
  }

  method WorkloadLuceneQuery(namespace: string, workload: Option<Workload>) returns (query: string)
    ensures query == WorkloadQuery(namespace, workload)
  {
    query := NAMESPACE + (":" + Kql(namespace));
    if workload.None? {
      return;
    }
    var w := workload.value;
    var pods := PodsClause(w);
    if w.Job? {
      query := query + (" AND " + ("(" + (pods + (" OR " + (Escape(LuceneField, JOB_LABEL) + (":" + (Kql(w.name) + ")")))))));
    } else {
      query := query + (" AND " + pods);
    }
  }

  /** What the query means. */
  function WorkloadTerms(namespace: string, workload: Option<Workload>, cluster: Option<ClusterFilter>): LTerms {
    var last := if ClusterTerm(cluster).Some? then Some(One(Phrase(ClusterTerm(cluster).value.0, ClusterTerm(cluster).value.1))) else None;
    var pods := if workload.None? then last else Some(Cons(PodsTerm(workload.value), last));
    Cons(Phrase(NAMESPACE, namespace), pods)
  }

  function Cons(t: LTerm, rest: Option<LTerms>): LTerms { if rest.None? then One(t) else More(t, rest.value) }

  function PodsOnly(w: Workload): LTerm {
    var text := PodsText(Lucene, w);
    if text.Some? then Pattern(POD, text.value) else Phrase(POD, w.name)
  }

  function PodsTerm(w: Workload): LTerm {
    if w.Job? then Either(More(PodsOnly(w), One(Phrase(JOB_LABEL, w.name)))) else PodsOnly(w)
  }

  // ----- The text reads back as its terms -----

  /** No unescaped `/`, no dangling escape. */
  predicate Delimited(t: string) {
    if t == "" then true else if t[0] == '\\' then |t| >= 2 && Delimited(t[2..]) else t[0] != '/' && Delimited(t[1..])
  }

  lemma {:induction false} PatternReads(text: string, rest: string)
    requires Delimited(text)
    ensures ReadPattern(text + ("/" + rest)) == Some((text, rest))
  {
    var tail := "/" + rest;
    if text == "" {
      assert text + tail == tail;
    } else if text[0] == '\\' {
      PatternReads(text[2..], rest);
      assert (text + tail)[2..] == text[2..] + tail;
      assert text == [text[0]] + ([text[1]] + text[2..]);
    } else {
      PatternReads(text[1..], rest);
      assert (text + tail)[1..] == text[1..] + tail;
      assert text == [text[0]] + text[1..];
    }
  }

  lemma {:induction false} DelimitedJoins(a: string, b: string)
    requires Delimited(a) && Delimited(b)
    ensures Delimited(a + b)
  {
    if a == "" {
      assert a + b == b;
    } else if a[0] == '\\' {
      DelimitedJoins(a[2..], b);
      assert (a + b)[2..] == a[2..] + b;
    } else {
      DelimitedJoins(a[1..], b);
      assert (a + b)[1..] == a[1..] + b;
    }
  }

  lemma {:induction false} PlainDelimited(s: string)
    requires NoOperators(s)
    ensures Delimited(s)
  {
    if s != "" {
      PlainDelimited(s[1..]);
    }
  }

  lemma QuantDelimited(q: Quant, rest: string)
    requires Delimited(rest)
    ensures Delimited(PrintQuant(q, rest))
  {
    match q {
      case Plus => DelimitedJoins("+", rest);
      case Exactly(n) =>
        DecimalReads(n);
        PlainDelimited(Decimal(n));
        DelimitedJoins("}", rest);
        DelimitedJoins(Decimal(n), "}" + rest);
        DelimitedJoins("{", Decimal(n) + ("}" + rest));
      case Between(lo, hi) =>
        DecimalReads(lo);
        DecimalReads(hi);
        PlainDelimited(Decimal(lo));
        PlainDelimited(Decimal(hi));
        DelimitedJoins("}", rest);
        DelimitedJoins(Decimal(hi), "}" + rest);
        DelimitedJoins(",", Decimal(hi) + ("}" + rest));
        DelimitedJoins(Decimal(lo), "," + (Decimal(hi) + ("}" + rest)));
        DelimitedJoins("{", Decimal(lo) + ("," + (Decimal(hi) + ("}" + rest))));
    }
  }

  lemma {:induction false} MarkDelimited(optional: bool, rest: string)
    requires Delimited(rest)
    ensures Delimited(Mark(optional, rest))
  {
    DelimitedJoins("?", rest);
  }

  /** Every printed Lucene regexp may stand between slashes. */
  lemma {:induction false} ItemDelimited(item: Item, rest: string)
    requires ReadableItem(item) && Delimited(rest)
    ensures Delimited(PrintItem(Lucene, item, rest))
  {
    match item {
      case Lit(c, optional) =>
        MarkDelimited(optional, rest);
        DelimitedJoins(Escaped(Lucene, c), Mark(optional, rest));
      case Set(cls, quant) =>
        QuantDelimited(quant, rest);
        PlainDelimited(cls);
        DelimitedJoins("]", PrintQuant(quant, rest));
        DelimitedJoins(cls, "]" + PrintQuant(quant, rest));
        DelimitedJoins("[", cls + ("]" + PrintQuant(quant, rest)));
      case Group(alts, optional) =>
        MarkDelimited(optional, rest);
        DelimitedJoins(")", Mark(optional, rest));
        AltsDelimited(alts, ")" + Mark(optional, rest));
        DelimitedJoins("(", PrintAlts(Lucene, alts, ")" + Mark(optional, rest)));
    }
  }

  lemma {:induction false} ItemsDelimited(items: Items, rest: string)
    requires Readable(items) && Delimited(rest)
    ensures Delimited(Print(Lucene, items, rest))
  {
    if items.Then? {
      ItemsDelimited(items.tail, rest);
      ItemDelimited(items.head, Print(Lucene, items.tail, rest));
    }
  }

  lemma {:induction false} AltsDelimited(alts: Alts, rest: string)
    requires ReadableAlts(alts) && Delimited(rest)
    ensures Delimited(PrintAlts(Lucene, alts, rest))
  {
    match alts {
      case Only(items) => ItemsDelimited(items, rest);
      case Or(items, more) =>
        AltsDelimited(more, rest);
        DelimitedJoins("|", PrintAlts(Lucene, more, rest));
        ItemsDelimited(items, "|" + PrintAlts(Lucene, more, rest));
    }
  }

  lemma {:induction false} PlainNamespace()
    ensures Escape(LuceneField, NAMESPACE) == NAMESPACE
  {
    assert forall i :: 0 <= i < |NAMESPACE| ==> NAMESPACE[i] == '.' || 'a' <= NAMESPACE[i] <= 'z';
    EscapeNothing(LuceneField, NAMESPACE);
  }

  lemma {:induction false} PlainPod()
    ensures Escape(LuceneField, POD) == POD
  {
    assert forall i :: 0 <= i < |POD| ==> POD[i] == '.' || 'a' <= POD[i] <= 'z';
    EscapeNothing(LuceneField, POD);
  }

  lemma {:induction false} EscapedStart(field: string, rest: string)
    ensures var t := Escape(LuceneField, field) + (":" + rest); t != "" && t[0] != '('
  {
    if field != "" {
      assert Escape(LuceneField, field) != "";
    }
  }

  lemma PhraseReads(field: string, value: string, rest: string)
    ensures ReadTerm(Escape(LuceneField, field) + (":" + (Kql(value) + rest))) == Some((Phrase(field, value), rest))
  {
    EscapedStart(field, Kql(value) + rest);
    FieldReads(LuceneField, field, Kql(value) + rest);
    KqlReads(value, rest);
    assert (Kql(value) + rest)[0] == '"';
  }

  lemma PatternTermReads(field: string, text: string, rest: string)
    requires Delimited(text)
    ensures ReadTerm(Escape(LuceneField, field) + (":" + ("/" + (text + ("/" + rest))))) == Some((Pattern(field, text), rest))
  {
    EscapedStart(field, "/" + (text + ("/" + rest)));
    FieldReads(LuceneField, field, "/" + (text + ("/" + rest)));
    PatternReads(text, rest);
    assert ("/" + (text + ("/" + rest)))[1..] == text + ("/" + rest);
  }

  lemma PodsClauseReads(w: Workload, rest: string)
    ensures ReadTerm(PodsClause(w) + rest) == Some((PodsOnly(w), rest))
  {
    PlainPod();
    var text := PodsText(Lucene, w);
    if text.Some? {
      TextDelimited(w);
      PatternTermReads(POD, text.value, rest);
      Assoc(text.value, "/", rest);
      Assoc("/", text.value + "/", rest);
      Assoc(":", "/" + (text.value + "/"), rest);
      Assoc(POD, ":" + ("/" + (text.value + "/")), rest);
    } else {
      PhraseReads(POD, w.name, rest);
      Assoc(":", Kql(w.name), rest);
      Assoc(POD, ":" + Kql(w.name), rest);
    }
  }

  lemma TextDelimited(w: Workload)
    requires !w.Pod?
    ensures Delimited(PodsText(Lucene, w).value)
  {
    PodsReadable(w);
    ItemsDelimited(PodsItems(w), "");
    PodsTextPrints(Lucene, w);
  }

  /** `rest` does not go on with another clause. */
  predicate Stops(rest: string, separator: string) { !(separator <= rest) }

  lemma LastTerm(t: LTerm, text: string, rest: string, separator: string)
    requires ReadTerm(text) == Some((t, rest)) && Stops(rest, separator)
    ensures ReadTerms(text, separator) == Some((One(t), rest))
  {
  }

  lemma {:induction false} AnotherTerm(t: LTerm, text: string, ts: LTerms, more: string, rest: string, separator: string)
    requires ReadTerm(text) == Some((t, separator + more)) && ReadTerms(more, separator) == Some((ts, rest))
    ensures ReadTerms(text, separator) == Some((More(t, ts), rest))
  {
    assert (separator + more)[|separator|..] == more;
  }

  lemma {:induction false} EitherReads(first: string, ts: LTerms, rest: string)
    requires ReadTerms(first, " OR ") == Some((ts, ")" + rest))
    ensures ReadTerm("(" + first) == Some((Either(ts), rest))
  {
    assert ("(" + first)[1..] == first;
    assert (")" + rest)[1..] == rest;
  }

  lemma {:induction false} JobAltsRead(w: Workload, rest: string)
    ensures ReadTerms(PodsClause(w) + (" OR " + (Escape(LuceneField, JOB_LABEL) + (":" + (Kql(w.name) + (")" + rest))))), " OR ")
         == Some((More(PodsOnly(w), One(Phrase(JOB_LABEL, w.name))), ")" + rest))
  {
    var close := ")" + rest;
    var jobField := Escape(LuceneField, JOB_LABEL) + (":" + (Kql(w.name) + close));
    PhraseReads(JOB_LABEL, w.name, close);
    assert close[0] == ')' && " OR "[0] == ' ';
    LastTerm(Phrase(JOB_LABEL, w.name), jobField, close, " OR ");
    PodsClauseReads(w, " OR " + jobField);
    AnotherTerm(PodsOnly(w), PodsClause(w) + (" OR " + jobField), One(Phrase(JOB_LABEL, w.name)), jobField, close, " OR ");
  }

  lemma {:induction false} JobClauseReads(w: Workload, rest: string)
    requires w.Job?
    ensures ReadTerm(JobClause(w) + rest) == Some((PodsTerm(w), rest))
  {
    JobAltsRead(w, rest);
    JobClauseText(w, rest);
    EitherReads(PodsClause(w) + (" OR " + (Escape(LuceneField, JOB_LABEL) + (":" + (Kql(w.name) + (")" + rest))))),
                More(PodsOnly(w), One(Phrase(JOB_LABEL, w.name))), rest);
  }

  lemma {:induction false} JobClauseText(w: Workload, rest: string)
    ensures JobClause(w) + rest ==
      "(" + (PodsClause(w) + (" OR " + (Escape(LuceneField, JOB_LABEL) + (":" + (Kql(w.name) + (")" + rest))))))
  {
    var jobField := Escape(LuceneField, JOB_LABEL);
    Assoc(Kql(w.name), ")", rest);
    Assoc(":", Kql(w.name) + ")", rest);
    Assoc(jobField, ":" + (Kql(w.name) + ")"), rest);
    Assoc(" OR ", jobField + (":" + (Kql(w.name) + ")")), rest);
    Assoc(PodsClause(w), " OR " + (jobField + (":" + (Kql(w.name) + ")"))), rest);
    Assoc("(", PodsClause(w) + (" OR " + (jobField + (":" + (Kql(w.name) + ")")))), rest);
  }

  lemma ClusterReads(cluster: Option<ClusterFilter>)
    requires ClusterTerm(cluster).Some?
    ensures var (field, value) := ClusterTerm(cluster).value;
            var text := Escape(LuceneField, field) + (":" + Kql(value));
            ClusterClause(cluster) == " AND " + text && ReadTerms(text, " AND ") == Some((One(Phrase(field, value)), ""))
  {
    var (field, value) := ClusterTerm(cluster).value;
    PhraseReads(field, value, "");
    assert Kql(value) + "" == Kql(value);
    LastTerm(Phrase(field, value), Escape(LuceneField, field) + (":" + Kql(value)), "", " AND ");
  }

  /** A clause followed by the cluster clause. */
  lemma WithCluster(t: LTerm, text: string, cluster: Option<ClusterFilter>)
    requires ReadTerm(text + ClusterClause(cluster)) == Some((t, ClusterClause(cluster)))
    ensures var last := if ClusterTerm(cluster).Some? then Some(One(Phrase(ClusterTerm(cluster).value.0, ClusterTerm(cluster).value.1))) else None;
            ReadTerms(text + ClusterClause(cluster), " AND ") == Some((Cons(t, last), ""))
  {
    if ClusterTerm(cluster).Some? {
      var (field, value) := ClusterTerm(cluster).value;
      ClusterReads(cluster);
      AnotherTerm(t, text + ClusterClause(cluster), One(Phrase(field, value)), Escape(LuceneField, field) + (":" + Kql(value)), "", " AND ");
    } else {
      LastTerm(t, text + ClusterClause(cluster), "", " AND ");
    }
  }

  lemma NamespaceReads(namespace: string, cluster: Option<ClusterFilter>)
    ensures ReadLucene(WorkloadQuery(namespace, None) + ClusterClause(cluster)) == Some(WorkloadTerms(namespace, None, cluster))
  {
    PlainNamespace();
    var last := ClusterClause(cluster);
    PhraseReads(NAMESPACE, namespace, last);
    Assoc(":", Kql(namespace), last);
    Assoc(NAMESPACE, ":" + Kql(namespace), last);
    WithCluster(Phrase(NAMESPACE, namespace), NAMESPACE + (":" + Kql(namespace)), cluster);
  }

  lemma {:induction false} QueryText(namespace: string, w: Workload, last: string)
    ensures WorkloadQuery(namespace, Some(w)) + last
         == NAMESPACE + (":" + (Kql(namespace) + (" AND " + (WorkloadClause(w) + last))))
  {
    var clause := WorkloadClause(w);
    var pods := clause + last;
    Assoc(" AND ", clause, last);
    Assoc(NAMESPACE + (":" + Kql(namespace)), " AND " + clause, last);
    Assoc(":", Kql(namespace), " AND " + pods);
    Assoc(NAMESPACE, ":" + Kql(namespace), " AND " + pods);
  }

  /** The namespace, then more terms. */
  lemma NamespaceAnd(namespace: string, pods: string, rest: LTerms)
    requires ReadTerms(pods, " AND ") == Some((rest, ""))
    ensures ReadLucene(NAMESPACE + (":" + (Kql(namespace) + (" AND " + pods)))) == Some(More(Phrase(NAMESPACE, namespace), rest))
  {
    PlainNamespace();
    PhraseReads(NAMESPACE, namespace, " AND " + pods);
    AnotherTerm(Phrase(NAMESPACE, namespace), NAMESPACE + (":" + (Kql(namespace) + (" AND " + pods))), rest, pods, "", " AND ");
  }

  function WorkloadClause(w: Workload): string { if w.Job? then JobClause(w) else PodsClause(w) }

  lemma WorkloadClauseReads(w: Workload, cluster: Option<ClusterFilter>)
    ensures ReadTerms(WorkloadClause(w) + ClusterClause(cluster), " AND ") == Some((WorkloadTerms("", Some(w), cluster).rest, ""))
  {
    var last := ClusterClause(cluster);
    if w.Job? {
      JobClauseReads(w, last);
    } else {
      PodsClauseReads(w, last);
    }
    WithCluster(PodsTerm(w), WorkloadClause(w), cluster);
  }

  /** The Lucene query reads back as the clauses it was built from, whatever the names are. */
  lemma {:induction false} LuceneReads(namespace: string, workload: Option<Workload>, cluster: Option<ClusterFilter>)
    ensures ReadLucene(WorkloadQuery(namespace, workload) + ClusterClause(cluster)) == Some(WorkloadTerms(namespace, workload, cluster))
  {
    if workload.None? {
      NamespaceReads(namespace, cluster);
    } else {
      var w := workload.value;
      WorkloadClauseReads(w, cluster);
      NamespaceAnd(namespace, WorkloadClause(w) + ClusterClause(cluster), WorkloadTerms("", Some(w), cluster).rest);
      QueryText(namespace, w, ClusterClause(cluster));
    }
  }

  // ----- The two filters accept the same documents -----

  /** The documents of a workload, in words of its pods and not of queries. */
  ghost predicate FromWorkload(namespace: string, workload: Option<Workload>, cluster: Option<ClusterFilter>, doc: Doc) {
    && Has(doc, NAMESPACE, namespace)
    && (workload.Some? ==>
          || (exists pod :: Has(doc, POD, pod) && PodOf(workload.value, pod))
          || (workload.value.Job? && Has(doc, JOB_LABEL, workload.value.name)))
    && (ClusterTerm(cluster).Some? ==> Has(doc, ClusterTerm(cluster).value.0, ClusterTerm(cluster).value.1))
  }

  /** The pods clause accepts the documents of the workload's pods; and no others, unless its text is inexact. */
  lemma PodsMeaning(w: Workload, doc: Doc)
    requires Ascii(w.name)
    ensures (exists pod :: Has(doc, POD, pod) && PodOf(w, pod)) ==> AcceptsTerm(PodsOnly(w), doc)
    ensures Exact(w) && AcceptsTerm(PodsOnly(w), doc) ==> exists pod :: Has(doc, POD, pod) && PodOf(w, pod)
  {
    if w.Pod? {
      if Has(doc, POD, w.name) {
        assert PodOf(w, w.name);
      }
    } else {
      PodsTextReads(Lucene, w);
      forall pod
        ensures PodOf(w, pod) ==> Match(Read(Lucene, PodsText(Lucene, w).value).value, pod)
        ensures Exact(w) && Match(Read(Lucene, PodsText(Lucene, w).value).value, pod) ==> PodOf(w, pod)
      {
        TextMatchesPods(Lucene, w, pod);
      }
    }
  }

  lemma AcceptsEither(a: Clause, b: Clause, doc: Doc)
    ensures Accepts(AnyOf([a, b]), doc) <==> Accepts(a, doc) || Accepts(b, doc)
  {
    assert [a, b][0] == a && [a, b][1] == b;
  }

  lemma SomeOfTwo(a: LTerm, b: LTerm, doc: Doc)
    ensures AcceptsTerm(Either(More(a, One(b))), doc) <==> AcceptsTerm(a, doc) || AcceptsTerm(b, doc)
  {
    assert AcceptsSome(One(b), doc) <==> AcceptsTerm(b, doc);
    assert AcceptsSome(More(a, One(b)), doc) <==> AcceptsTerm(a, doc) || AcceptsSome(One(b), doc);
  }

  /** The pod clause of the search and the pods clause of the query are one. */
  lemma PodFilterIsPodsTerm(q: Query, w: Workload, doc: Doc)
    requires q.workload == Some(w)
    ensures |PodFilter(q)| == 1 && (Accepts(PodFilter(q)[0], doc) <==> AcceptsTerm(PodsTerm(w), doc))
  {
    if w.Job? {
      var pods, jobField := Regexp(POD, PodsText(Lucene, w).value), Term(JOB_LABEL, w.name);
      AcceptsEither(pods, jobField, doc);
      assert PodFilter(q)[0] == AnyOf([pods, jobField]);
      SomeOfTwo(PodsOnly(w), Phrase(JOB_LABEL, w.name), doc);
      assert Accepts(pods, doc) <==> AcceptsTerm(PodsOnly(w), doc);
    }
  }

  lemma LuceneAccepts(namespace: string, workload: Option<Workload>, cluster: Option<ClusterFilter>, doc: Doc)
    ensures AcceptsEvery(WorkloadTerms(namespace, workload, cluster), doc) <==>
      && Has(doc, NAMESPACE, namespace)
      && (workload.Some? ==> AcceptsTerm(PodsTerm(workload.value), doc))
      && (ClusterTerm(cluster).Some? ==> Has(doc, ClusterTerm(cluster).value.0, ClusterTerm(cluster).value.1))
  {
    if ClusterTerm(cluster).Some? {
      var last := One(Phrase(ClusterTerm(cluster).value.0, ClusterTerm(cluster).value.1));
      assert AcceptsEvery(last, doc) <==> AcceptsTerm(last.term, doc);
    }
  }

  lemma FilterAccepts(q: Query, cluster: Option<ClusterFilter>, doc: Doc)
    requires q.pod == "" && (q.container.None? || q.container.value == "")
    ensures AcceptsAll(FilterOf(q, cluster), doc) <==>
      && Has(doc, NAMESPACE, q.namespace)
      && (q.workload.Some? ==> AcceptsTerm(PodsTerm(q.workload.value), doc))
      && (q.from, q.to) in doc.within
      && (ClusterTerm(cluster).Some? ==> Has(doc, ClusterTerm(cluster).value.0, ClusterTerm(cluster).value.1))
  {
    var pods := PodFilter(q);
    if q.workload.Some? {
      PodFilterIsPodsTerm(q, q.workload.value, doc);
    }
    var term := ClusterTerm(cluster);
    var last := if term.Some? then [Term(term.value.0, term.value.1)] else [];
    AcceptsOne(Term(NAMESPACE, q.namespace), doc);
    AcceptsOne(Range(q.from, q.to), doc);
    if term.Some? {
      AcceptsOne(last[0], doc);
    }
    if q.workload.Some? {
      AcceptsOne(pods[0], doc);
      assert pods == [pods[0]];
    }
    AcceptsJoin([Term(NAMESPACE, q.namespace)], pods, doc);
    AcceptsJoin([Term(NAMESPACE, q.namespace)] + pods, [Range(q.from, q.to)], doc);
    AcceptsJoin([Term(NAMESPACE, q.namespace)] + pods + [Range(q.from, q.to)], last, doc);
    assert FilterOf(q, cluster) == [Term(NAMESPACE, q.namespace)] + pods + [Range(q.from, q.to)] + last;
  }

  lemma AcceptsOne(c: Clause, doc: Doc)
    ensures AcceptsAll([c], doc) <==> Accepts(c, doc)
  {
    assert [c][0] == c;
  }

  lemma AcceptsJoin(a: seq<Clause>, b: seq<Clause>, doc: Doc)
    ensures AcceptsAll(a + b, doc) <==> AcceptsAll(a, doc) && AcceptsAll(b, doc)
  {
    if AcceptsAll(a + b, doc) {
      assert forall i :: 0 <= i < |a| ==> (a + b)[i] == a[i];
      assert forall i :: 0 <= i < |b| ==> (a + b)[|a| + i] == b[i];
    }
  }

  /**
   * Without a pod, container or text filter: the history search accepts a
   * document exactly when it falls in the time window and the Lucene query
   * with its cluster clause accepts it; for every workload and for a whole
   * namespace.
   */
  lemma HistoryIsLucene(q: Query, cluster: Option<ClusterFilter>, doc: Doc)
    requires q.pod == "" && (q.container.None? || q.container.value == "")
    ensures var read := ReadLucene(WorkloadQuery(q.namespace, q.workload) + ClusterClause(cluster));
            read.Some? && (AcceptsAll(FilterOf(q, cluster), doc) <==> (q.from, q.to) in doc.within && AcceptsEvery(read.value, doc))
  {
    LuceneReads(q.namespace, q.workload, cluster);
    LuceneAccepts(q.namespace, q.workload, cluster, doc);
    FilterAccepts(q, cluster, doc);
  }

  predicate ExactWorkload(workload: Option<Workload>) { workload.Some? ==> Exact(workload.value) }

  /**
   * And both accept every document of the workload's pods (or with a Job's
   * label) in its namespace and cluster; and, for workloads with an exact
   * text, no other.
   */
  lemma HistoryMeansWorkload(q: Query, cluster: Option<ClusterFilter>, doc: Doc)
    requires q.pod == "" && (q.container.None? || q.container.value == "")
    requires q.workload.Some? ==> Ascii(q.workload.value.name)
    ensures (q.from, q.to) in doc.within && FromWorkload(q.namespace, q.workload, cluster, doc) ==> AcceptsAll(FilterOf(q, cluster), doc)
    ensures ExactWorkload(q.workload) && AcceptsAll(FilterOf(q, cluster), doc) ==>
              (q.from, q.to) in doc.within && FromWorkload(q.namespace, q.workload, cluster, doc)
  {
    FilterAccepts(q, cluster, doc);
    if q.workload.Some? {
      var w := q.workload.value;
      PodsMeaning(w, doc);
      assert w.Job? ==> (AcceptsSome(One(Phrase(JOB_LABEL, w.name)), doc) <==> Has(doc, JOB_LABEL, w.name));
    }
  }

  /** A document of a namespace, a pod and a cluster. */
  function DocumentOf(namespace: string, pod: string, term: Option<(string, string)>, window: (string, string)): (doc: Doc)
    requires term.Some? ==> term.value.0 != POD
    ensures Has(doc, NAMESPACE, namespace) && POD in doc.fields && doc.fields[POD] == {pod} && window in doc.within
    ensures term.Some? ==> Has(doc, term.value.0, term.value.1)
  {
    assert NAMESPACE[11] != POD[11];
    var fields := map[NAMESPACE := {namespace}, POD := {pod}];
    if term.None? then Doc(fields, {window}) else
    var (field, value) := term.value;
    Doc(fields[field := if field == NAMESPACE then {namespace, value} else {value}], {window})
  }

  /** A document that only pretends to be one of a long Deployment name. */
  lemma ForeignDocument(q: Query, cluster: Option<ClusterFilter>) returns (doc: Doc)
    requires q.pod == "" && (q.container.None? || q.container.value == "")
    requires q.workload.Some? && Ascii(q.workload.value.name) && !Exact(q.workload.value)
    requires ClusterTerm(cluster).Some? ==> ClusterTerm(cluster).value.0 != POD
    ensures AcceptsAll(FilterOf(q, cluster), doc) && !FromWorkload(q.namespace, q.workload, cluster, doc)
  {
    var w := q.workload.value;
    var pod := InexactText(Lucene, w);
    doc := DocumentOf(q.namespace, pod, ClusterTerm(cluster), (q.from, q.to));
    FilterAccepts(q, cluster, doc);
    assert Has(doc, POD, pod);
    assert AcceptsTerm(PodsTerm(w), doc);
  }

  /** The search accepts exactly the workload's documents if and only if no Deployment name is cut. */
  lemma HistoryIsExactlyWorkload(q: Query, cluster: Option<ClusterFilter>)
    requires q.pod == "" && (q.container.None? || q.container.value == "")
    requires q.workload.Some? ==> Ascii(q.workload.value.name)
    requires ClusterTerm(cluster).Some? ==> ClusterTerm(cluster).value.0 != POD
    ensures (forall doc :: AcceptsAll(FilterOf(q, cluster), doc) <==>
              (q.from, q.to) in doc.within && FromWorkload(q.namespace, q.workload, cluster, doc))
            <==> ExactWorkload(q.workload)
  {
    if ExactWorkload(q.workload) {
      forall doc
        ensures AcceptsAll(FilterOf(q, cluster), doc) <==> (q.from, q.to) in doc.within && FromWorkload(q.namespace, q.workload, cluster, doc)
      {
        HistoryMeansWorkload(q, cluster, doc);
      }
    } else {
      var doc := ForeignDocument(q, cluster);
    }
  }
}
