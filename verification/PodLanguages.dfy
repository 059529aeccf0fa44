module PodLanguages {
  // What the pod-name regexps match: the pods Kubernetes names, and for long
  // Deployment names more; and which workloads can match the same pod name.

  import opened Prelude
  import opened RegexText
  import opened PodNames

  // ----- The pod names of each kind -----

  predicate IsSuffix(f: string) { |f| == 5 && Safe(f) }

  predicate IsHash(h: string) { 6 <= |h| <= 10 && Safe(h) }

  /** The name of a ReplicaSet and a dash, cut to 58 characters, and a suffix. */
  ghost predicate DeploymentPod(name: string, s: string) {
    exists h, f :: IsHash(h) && IsSuffix(f) && s == Take(name + "-" + h + "-", GENERATED_PREFIX_MAX) + f
  }

  ghost predicate StatefulSetPod(name: string, s: string) {
    exists n :: s == name + "-" + n && n != "" && AllDigits(n)
  }

  /** The name and a dash, cut to 58 characters, and a suffix. */
  ghost predicate DaemonSetPod(name: string, s: string) {
    exists f :: s == Take(name + "-", GENERATED_PREFIX_MAX) + f && IsSuffix(f)
  }

  /** The pod prefix of index `n`: the whole `-<index>-` is kept, the name is cut. */
  function IndexedPrefix(name: string, n: string): string
    requires |n| <= JOB_INDEX_DIGITS_MAX
  {
    Take(name, GENERATED_PREFIX_MAX - 2 - |n|) + "-" + n + "-"
  }

  ghost predicate JobPod(name: string, s: string) {
    exists f :: IsSuffix(f) &&
      (s == Take(name + "-", GENERATED_PREFIX_MAX) + f
       || exists n :: 1 <= |n| <= JOB_INDEX_DIGITS_MAX && AllDigits(n) && s == IndexedPrefix(name, n) + f)
  }

  /** The pods of a workload by name. */
  ghost predicate PodOf(w: Workload, s: string) {
    match w
    case Pod(name) => s == name
    case Deployment(name) => DeploymentPod(name, s)
    case StatefulSet(name) => StatefulSetPod(name, s)
    case DaemonSet(name) => DaemonSetPod(name, s)
    case Job(name) => JobPod(name, s)
  }

  // ----- What the texts match -----

  /** Deployment names that leave room for a whole hash. */
  predicate Uncut(name: string) { |name| + 12 <= GENERATED_PREFIX_MAX }

  /** What may stand between a long Deployment's name and the suffix: what is left of `-<hash>-`. */
  ghost predicate LongMiddle(m: string) {
    m == "" || exists h :: |h| <= 10 && Safe(h) && (m == "-" + h || m == "-" + h + "-")
  }

  ghost predicate LongDeploymentMatch(name: string, s: string) {
    exists m, f :: s == Take(name, GENERATED_PREFIX_MAX) + m + f && IsSuffix(f) && LongMiddle(m)
  }

  /** What the text of a workload matches: its pods, and for long Deployment names more. */
  ghost predicate Matched(w: Workload, s: string) {
    if w.Deployment? && !Uncut(w.name) then LongDeploymentMatch(w.name, s) else PodOf(w, s)
  }

  lemma Cat(head: Item, tail: Items, a: string, b: string)
    requires MatchItem(head, a) && Match(tail, b)
    ensures Match(Then(head, tail), a + b)
  {
    assert (a + b)[..|a|] == a && (a + b)[|a|..] == b;
  }

  lemma Split(head: Item, tail: Items, s: string) returns (a: string, b: string)
    requires Match(Then(head, tail), s)
    ensures s == a + b && MatchItem(head, a) && Match(tail, b)
  {
    var k :| 0 <= k <= |s| && MatchItem(head, s[..k]) && Match(tail, s[k..]);
    a, b := s[..k], s[k..];
  }

  lemma CatLits(t: string, tail: Items, b: string)
    requires Match(tail, b)
    ensures Match(Lits(t, tail), t + b)
  {
    MatchLits(t, tail, t + b);
    assert (t + b)[|t|..] == b;
  }

  lemma SplitLits(t: string, tail: Items, s: string) returns (b: string)
    requires Match(Lits(t, tail), s)
    ensures s == t + b && Match(tail, b)
  {
    MatchLits(t, tail, s);
    b := s[|t|..];
  }

  lemma MatchSuffix(s: string)
    ensures Match(Suffix, s) <==> IsSuffix(s)
  {
    MatchSetEnd(SAFE_CHARS, Exactly(5), s);
    MatchSafe(Exactly(5), s);
  }

  lemma SplitDash(tail: Items, s: string) returns (b: string)
    requires Match(Dash(tail), s)
    ensures s == "-" + b && Match(tail, b)
  {
    var a;
    a, b := Split(Lit('-', false), tail, s);
  }

  lemma CatDash(tail: Items, b: string)
    requires Match(tail, b)
    ensures Match(Dash(tail), "-" + b)
  {
    Cat(Lit('-', false), tail, "-", b);
  }

  lemma SplitSafe(q: Quant, tail: Items, s: string) returns (h: string, b: string)
    requires Match(Then(Set(SAFE_CHARS, q), tail), s)
    ensures s == h + b && Allows(q, |h|) && Safe(h) && Match(tail, b)
  {
    h, b := Split(Set(SAFE_CHARS, q), tail, s);
    MatchSafe(q, h);
  }

  lemma CatSafe(q: Quant, tail: Items, h: string, b: string)
    requires Allows(q, |h|) && Safe(h) && Match(tail, b)
    ensures Match(Then(Set(SAFE_CHARS, q), tail), h + b)
  {
    MatchSafe(q, h);
    Cat(Set(SAFE_CHARS, q), tail, h, b);
  }

  lemma SplitDigits(q: Quant, tail: Items, s: string) returns (n: string, b: string)
    requires Match(Then(Set("0-9", q), tail), s)
    ensures s == n + b && Allows(q, |n|) && AllDigits(n) && Match(tail, b)
  {
    n, b := Split(Set("0-9", q), tail, s);
    MatchDigits(q, n);
  }

  lemma CatDigits(q: Quant, tail: Items, n: string, b: string)
    requires Allows(q, |n|) && AllDigits(n) && Match(tail, b)
    ensures Match(Then(Set("0-9", q), tail), n + b)
  {
    MatchDigits(q, n);
    Cat(Set("0-9", q), tail, n, b);
  }

  lemma ShortDeploymentElim(name: string, s: string)
    requires Match(Lits(name, Dash(HashItems)), s)
    ensures exists h, f :: s == name + "-" + h + "-" + f && IsHash(h) && IsSuffix(f)
  {
    var b := SplitLits(name, Dash(HashItems), s);
    var c := SplitDash(HashItems, b);
    var h, e := SplitSafe(Between(6, 10), DashSuffix, c);
    var f := SplitDash(Suffix, e);
    MatchSuffix(f);
    Assoc(name, "-", c);
    Assoc(name + "-", h, e);
    Assoc(name + "-" + h, "-", f);
  }

  lemma ShortDeploymentIntro(name: string, h: string, f: string)
    requires IsHash(h) && IsSuffix(f)
    ensures Match(Lits(name, Dash(HashItems)), name + "-" + h + "-" + f)
  {
    MatchSuffix(f);
    CatDash(Suffix, f);
    CatSafe(Between(6, 10), DashSuffix, h, "-" + f);
    CatDash(HashItems, h + ("-" + f));
    CatLits(name, Dash(HashItems), "-" + (h + ("-" + f)));
    Assoc(name, "-", h + ("-" + f));
    Assoc(name + "-", h, "-" + f);
    Assoc(name + "-" + h, "-", f);
  }

  /** Nothing is cut from the pods of a short name. */
  lemma UncutPods(name: string, s: string)
    requires Uncut(name)
    ensures DeploymentPod(name, s) <==> exists h, f :: s == name + "-" + h + "-" + f && IsHash(h) && IsSuffix(f)
  {
    forall h | IsHash(h)
      ensures Take(name + "-" + h + "-", GENERATED_PREFIX_MAX) == name + "-" + h + "-"
    {
    }
  }

  lemma ShortDeploymentMatches(name: string, s: string)
    requires Utf8Len(name) == |name| && Uncut(name)
    ensures Match(DeploymentItems(name), s) <==> DeploymentPod(name, s)
  {
    UncutPods(name, s);
    if Match(DeploymentItems(name), s) {
      ShortDeploymentElim(name, s);
    }
    if DeploymentPod(name, s) {
      var h, f :| s == name + "-" + h + "-" + f && IsHash(h) && IsSuffix(f);
      ShortDeploymentIntro(name, h, f);
    }
  }

  lemma MiddleElim(m: string)
    requires Match(Dash(MiddleHash), m)
    ensures LongMiddle(m)
  {
    var c := SplitDash(MiddleHash, m);
    var h, e := SplitSafe(Between(0, 10), MiddleEnd, c);
    var o, z := Split(Lit('-', true), End, e);
    assert e == o && m == "-" + (h + o);
    Assoc("-", h, o);
    assert o == "" ==> m == "-" + h;
    assert o != "" ==> m == "-" + h + "-";
  }

  lemma MiddleIntro(h: string, o: string)
    requires |h| <= 10 && Safe(h) && (o == "" || o == "-")
    ensures Match(Dash(MiddleHash), "-" + h + o)
  {
    Cat(Lit('-', true), End, o, "");
    assert o + "" == o;
    CatSafe(Between(0, 10), MiddleEnd, h, o);
    CatDash(MiddleHash, h + o);
    Assoc("-", h, o);
  }

  lemma MiddleMatches(m: string)
    ensures MatchItem(MiddleItem, m) <==> LongMiddle(m)
  {
    if Match(Dash(MiddleHash), m) {
      MiddleElim(m);
    }
    if LongMiddle(m) && m != "" {
      var h :| |h| <= 10 && Safe(h) && (m == "-" + h || m == "-" + h + "-");
      assert "-" + h + "" == "-" + h;
      MiddleIntro(h, if m == "-" + h then "" else "-");
    }
  }

  lemma LongDeploymentElim(kept: string, s: string)
    requires Match(Lits(kept, Then(MiddleItem, Suffix)), s)
    ensures exists m, f :: s == kept + m + f && IsSuffix(f) && LongMiddle(m)
  {
    var b := SplitLits(kept, Then(MiddleItem, Suffix), s);
    var m, f := Split(MiddleItem, Suffix, b);
    MiddleMatches(m);
    MatchSuffix(f);
    Assoc(kept, m, f);
  }

  lemma LongDeploymentIntro(kept: string, m: string, f: string)
    requires IsSuffix(f) && LongMiddle(m)
    ensures Match(Lits(kept, Then(MiddleItem, Suffix)), kept + m + f)
  {
    MatchSuffix(f);
    MiddleMatches(m);
    Cat(MiddleItem, Suffix, m, f);
    CatLits(kept, Then(MiddleItem, Suffix), m + f);
    Assoc(kept, m, f);
  }

  lemma LongDeploymentMatches(name: string, s: string)
    requires Utf8Len(name) == |name| && !Uncut(name)
    ensures Match(DeploymentItems(name), s) <==> LongDeploymentMatch(name, s)
  {
    var kept := Take(name, GENERATED_PREFIX_MAX);
    if Match(DeploymentItems(name), s) {
      LongDeploymentElim(kept, s);
    }
    if LongDeploymentMatch(name, s) {
      var m, f :| s == kept + m + f && IsSuffix(f) && LongMiddle(m);
      LongDeploymentIntro(kept, m, f);
    }
  }

  /** What is left of a ReplicaSet's name and dash after the cut, for a long Deployment name. */
  lemma CutMiddle(name: string, h: string) returns (m: string)
    requires !Uncut(name) && IsHash(h)
    ensures Take(name + "-" + h + "-", GENERATED_PREFIX_MAX) == Take(name, GENERATED_PREFIX_MAX) + m && LongMiddle(m)
  {
    var whole := name + "-" + h + "-";
    var room := GENERATED_PREFIX_MAX - Min(|name|, GENERATED_PREFIX_MAX);
    m := Take("-" + h + "-", room);
    assert whole == name + ("-" + h + "-");
    if 0 < room < |h| + 2 {
      assert m == "-" + h[..room - 1];
    }
  }

  /** Every pod of a long Deployment name is matched. */
  lemma LongPodsMatch(name: string, s: string)
    requires !Uncut(name) && DeploymentPod(name, s)
    ensures LongDeploymentMatch(name, s)
  {
    var h, f :| IsHash(h) && IsSuffix(f) && s == Take(name + "-" + h + "-", GENERATED_PREFIX_MAX) + f;
    var m := CutMiddle(name, h);
  }

  /** A name that is matched and no pod's: too short, or too long, for a cut name. */
  function Overmatched(name: string, f: string): string {
    Take(name, GENERATED_PREFIX_MAX) + (if |name| < GENERATED_PREFIX_MAX then "" else "-") + f
  }

  lemma LongTextMatchesMore(name: string, f: string)
    requires !Uncut(name) && IsSuffix(f)
    ensures LongDeploymentMatch(name, Overmatched(name, f)) && !DeploymentPod(name, Overmatched(name, f))
  {
    var s := Overmatched(name, f);
    assert Safe("") && "-" + "" == "-" && LongMiddle("-");
    forall h, f' | IsHash(h) && IsSuffix(f')
      ensures s != Take(name + "-" + h + "-", GENERATED_PREFIX_MAX) + f'
    {
      assert |Take(name + "-" + h + "-", GENERATED_PREFIX_MAX) + f'| == Min(|name| + |h| + 2, GENERATED_PREFIX_MAX) + 5;
    }
  }

  lemma StatefulSetElim(name: string, s: string)
    requires Match(Lits(name, Dash(PlusDigits)), s)
    ensures StatefulSetPod(name, s)
  {
    var b := SplitLits(name, Dash(PlusDigits), s);
    var c := SplitDash(PlusDigits, b);
    var n, z := SplitDigits(Plus, End, c);
    Assoc(name, "-", c);
    assert c == n;
  }

  lemma StatefulSetIntro(name: string, n: string)
    requires n != "" && AllDigits(n)
    ensures Match(Lits(name, Dash(PlusDigits)), name + "-" + n)
  {
    CatDigits(Plus, End, n, "");
    assert n + "" == n;
    CatDash(PlusDigits, n);
    CatLits(name, Dash(PlusDigits), "-" + n);
    Assoc(name, "-", n);
  }

  lemma StatefulSetMatches(name: string, s: string)
    ensures Match(PodsItems(StatefulSet(name)), s) <==> StatefulSetPod(name, s)
  {
    if Match(PodsItems(StatefulSet(name)), s) {
      StatefulSetElim(name, s);
    }
    if StatefulSetPod(name, s) {
      var n :| s == name + "-" + n && n != "" && AllDigits(n);
      StatefulSetIntro(name, n);
    }
  }

  lemma DaemonSetMatches(name: string, s: string)
    ensures Match(PodsItems(DaemonSet(name)), s) <==> DaemonSetPod(name, s)
  {
    var prefix := Take(name + "-", GENERATED_PREFIX_MAX);
    if Match(PodsItems(DaemonSet(name)), s) {
      var f := SplitLits(prefix, Suffix, s);
      MatchSuffix(f);
    }
    forall f | s == prefix + f && IsSuffix(f)
      ensures Match(PodsItems(DaemonSet(name)), s)
    {
      MatchSuffix(f);
      CatLits(prefix, Suffix, f);
    }
  }

  // ----- Jobs -----

  /** Every digit count keeps as much of the name as its group's first one. */
  lemma {:induction false} GroupKeeps(len: nat, digits: nat, last: nat, n: nat)
    requires digits <= last <= JOB_INDEX_DIGITS_MAX && last <= n <= LastAlike(len, digits, last)
    requires Kept(len, last) == Kept(len, digits)
    ensures Kept(len, n) == Kept(len, digits)
    decreases JOB_INDEX_DIGITS_MAX - last
  {
    if last < n {
      GroupKeeps(len, digits, last + 1, n);
    }
  }

  ghost predicate IndexedBase(name: string, lo: nat, hi: nat, b: string) {
    exists n :: lo <= |n| <= hi && |n| <= JOB_INDEX_DIGITS_MAX && AllDigits(n) && b == IndexedPrefix(name, n)
  }

  lemma IndexElim(kept: string, lo: nat, hi: nat, b: string) returns (n: string)
    requires Match(Lits(kept, Then(Lit('-', false), Index(lo, hi))), b)
    ensures lo <= |n| <= hi && AllDigits(n) && b == kept + "-" + n + "-"
  {
    var c := SplitLits(kept, Dash(Index(lo, hi)), b);
    var e := SplitDash(Index(lo, hi), c);
    var o;
    n, o := SplitDigits(Between(lo, hi), IndexDash, e);
    var z := SplitDash(End, o);
    Assoc(kept, "-", e);
    Assoc(kept + "-", n, o);
    assert o == "-";
  }

  lemma IndexIntro(kept: string, lo: nat, hi: nat, n: string)
    requires lo <= |n| <= hi && AllDigits(n)
    ensures Match(Lits(kept, Then(Lit('-', false), Index(lo, hi))), kept + "-" + n + "-")
  {
    CatDash(End, "");
    assert "-" + "" == "-";
    CatDigits(Between(lo, hi), IndexDash, n, "-");
    CatDash(Index(lo, hi), n + "-");
    CatLits(kept, Dash(Index(lo, hi)), "-" + (n + "-"));
    Assoc(kept, "-", n + "-");
    Assoc(kept + "-", n, "-");
  }

  lemma GroupMatches(name: string, digits: nat, b: string)
    requires 1 <= digits <= JOB_INDEX_DIGITS_MAX
    ensures var last := LastAlike(|name|, digits, digits);
            Match(GroupItems(name, digits, last), b) <==> IndexedBase(name, digits, last, b)
  {
    var last := LastAlike(|name|, digits, digits);
    var kept := Take(name, Kept(|name|, digits));
    if Match(GroupItems(name, digits, last), b) {
      var n := IndexElim(kept, digits, last, b);
      GroupKeeps(|name|, digits, digits, |n|);
      assert b == IndexedPrefix(name, n);
    }
    if IndexedBase(name, digits, last, b) {
      var n :| digits <= |n| <= last && |n| <= JOB_INDEX_DIGITS_MAX && AllDigits(n) && b == IndexedPrefix(name, n);
      GroupKeeps(|name|, digits, digits, |n|);
      IndexIntro(kept, digits, last, n);
    }
  }

  /** The groups cover every digit count, each once: together they match every indexed prefix. */
  lemma {:induction false} GroupsMatch(name: string, digits: nat, b: string)
    requires 1 <= digits <= JOB_INDEX_DIGITS_MAX
    ensures MatchAlts(GroupAlts(name, digits), b) <==> IndexedBase(name, digits, JOB_INDEX_DIGITS_MAX, b)
    decreases JOB_INDEX_DIGITS_MAX - digits
  {
    var last := LastAlike(|name|, digits, digits);
    GroupMatches(name, digits, b);
    if last < JOB_INDEX_DIGITS_MAX {
      GroupsMatch(name, last + 1, b);
      if IndexedBase(name, digits, JOB_INDEX_DIGITS_MAX, b) && !IndexedBase(name, digits, last, b) {
        var n :| digits <= |n| <= JOB_INDEX_DIGITS_MAX && AllDigits(n) && b == IndexedPrefix(name, n);
        assert |n| > last;
      }
    }
  }

  ghost predicate JobBase(name: string, b: string) {
    b == Take(name + "-", GENERATED_PREFIX_MAX) || IndexedBase(name, 1, JOB_INDEX_DIGITS_MAX, b)
  }

  lemma {:induction false} JobPodByBase(name: string, s: string)
    ensures JobPod(name, s) <==> exists b, f :: s == b + f && IsSuffix(f) && JobBase(name, b)
  {
    if JobPod(name, s) {
      var f :| IsSuffix(f) && (s == Take(name + "-", GENERATED_PREFIX_MAX) + f
        || exists n :: 1 <= |n| <= JOB_INDEX_DIGITS_MAX && AllDigits(n) && s == IndexedPrefix(name, n) + f);
      if n :| 1 <= |n| <= JOB_INDEX_DIGITS_MAX && AllDigits(n) && s == IndexedPrefix(name, n) + f {
        assert JobBase(name, IndexedPrefix(name, n));
      } else {
        assert JobBase(name, Take(name + "-", GENERATED_PREFIX_MAX));
      }
    }
  }

  lemma LongJobMatches(name: string, s: string)
    requires |name| + JOB_INDEX_DIGITS_MAX + 2 > GENERATED_PREFIX_MAX
    ensures Match(JobItems(name), s) <==> JobPod(name, s)
  {
    var cut := Take(name + "-", GENERATED_PREFIX_MAX);
    var alts := Or(Lits(cut, End), GroupAlts(name, 1));
    JobPodByBase(name, s);
    if Match(JobItems(name), s) {
      var b, f := Split(Group(alts, false), Suffix, s);
      MatchSuffix(f);
      GroupsMatch(name, 1, b);
      if Match(Lits(cut, End), b) {
        var z := SplitLits(cut, End, b);
        assert b == cut;
      }
      assert JobBase(name, b);
    }
    forall b, f | s == b + f && IsSuffix(f) && JobBase(name, b)
      ensures Match(JobItems(name), s)
    {
      MatchSuffix(f);
      GroupsMatch(name, 1, b);
      if b == cut {
        CatLits(cut, End, "");
        assert cut + "" == cut;
      }
      assert MatchAlts(alts, b);
      Cat(Group(alts, false), Suffix, b, f);
    }
  }

  lemma ShortJobBaseElim(name: string, m: string)
    requires Match(Index(1, 7), m) && |name| + JOB_INDEX_DIGITS_MAX + 2 <= GENERATED_PREFIX_MAX
    ensures JobBase(name, name + "-" + m)
  {
    var n, o := SplitDigits(Between(1, 7), IndexDash, m);
    var z := SplitDash(End, o);
    assert o == "-";
    Assoc(name + "-", n, "-");
    assert name + "-" + m == IndexedPrefix(name, n);
  }

  lemma ShortJobBaseIntro(name: string, m: string)
    requires |name| + JOB_INDEX_DIGITS_MAX + 2 <= GENERATED_PREFIX_MAX
    requires m != "" && JobBase(name, name + "-" + m)
    ensures Match(Index(1, 7), m)
  {
    assert Take(name + "-", GENERATED_PREFIX_MAX) == name + "-";
    var b := name + "-" + m;
    assert |b| != |name + "-"|;
    var n :| 1 <= |n| <= JOB_INDEX_DIGITS_MAX && AllDigits(n) && b == IndexedPrefix(name, n);
    Assoc(name + "-", n, "-");
    SuffixSplits2(name + "-", m, n + "-");
    CatDash(End, "");
    assert "-" + "" == "-";
    CatDigits(Between(1, 7), IndexDash, n, "-");
  }

  lemma SuffixSplits2(a: string, b: string, c: string)
    requires a + b == a + c
    ensures b == c
  {
    assert b == (a + b)[|a|..] && c == (a + c)[|a|..];
  }

  lemma ShortJobBase(name: string, m: string)
    requires |name| + JOB_INDEX_DIGITS_MAX + 2 <= GENERATED_PREFIX_MAX
    ensures MatchItem(IndexItem, m) <==> JobBase(name, name + "-" + m)
  {
    if m == "" {
      assert name + "-" + m == name + "-" == Take(name + "-", GENERATED_PREFIX_MAX);
    } else {
      assert MatchItem(IndexItem, m) <==> MatchAlts(Only(Index(1, 7)), m);
      if MatchItem(IndexItem, m) {
        ShortJobBaseElim(name, m);
      }
      if JobBase(name, name + "-" + m) {
        ShortJobBaseIntro(name, m);
      }
    }
  }

  lemma JobBaseStarts(name: string, b: string)
    requires |name| + JOB_INDEX_DIGITS_MAX + 2 <= GENERATED_PREFIX_MAX && JobBase(name, b)
    ensures exists m :: b == name + "-" + m
  {
    assert Take(name + "-", GENERATED_PREFIX_MAX) == name + "-" + "";
    if n :| 1 <= |n| <= JOB_INDEX_DIGITS_MAX && AllDigits(n) && b == IndexedPrefix(name, n) {
      assert b == name + "-" + (n + "-");
    }
  }

  lemma ShortJobElim(name: string, s: string)
    requires |name| + JOB_INDEX_DIGITS_MAX + 2 <= GENERATED_PREFIX_MAX
    requires Match(Lits(name, Dash(Then(IndexItem, Suffix))), s)
    ensures exists b, f :: s == b + f && IsSuffix(f) && JobBase(name, b)
  {
    var b := SplitLits(name, Dash(Then(IndexItem, Suffix)), s);
    var c := SplitDash(Then(IndexItem, Suffix), b);
    var m, f := Split(IndexItem, Suffix, c);
    MatchSuffix(f);
    ShortJobBase(name, m);
    Assoc(name, "-", c);
    Assoc(name + "-", m, f);
  }

  lemma ShortJobIntro(name: string, m: string, f: string)
    requires |name| + JOB_INDEX_DIGITS_MAX + 2 <= GENERATED_PREFIX_MAX
    requires IsSuffix(f) && JobBase(name, name + "-" + m)
    ensures Match(Lits(name, Dash(Then(IndexItem, Suffix))), name + "-" + m + f)
  {
    MatchSuffix(f);
    ShortJobBase(name, m);
    Cat(IndexItem, Suffix, m, f);
    CatDash(Then(IndexItem, Suffix), m + f);
    CatLits(name, Dash(Then(IndexItem, Suffix)), "-" + (m + f));
    Assoc(name, "-", m + f);
    Assoc(name + "-", m, f);
  }

  lemma ShortJobMatches(name: string, s: string)
    requires |name| + JOB_INDEX_DIGITS_MAX + 2 <= GENERATED_PREFIX_MAX
    ensures Match(JobItems(name), s) <==> JobPod(name, s)
  {
    JobPodByBase(name, s);
    if Match(JobItems(name), s) {
      ShortJobElim(name, s);
    }
    if b, f :| s == b + f && IsSuffix(f) && JobBase(name, b) {
      JobBaseStarts(name, b);
      var m :| b == name + "-" + m;
      ShortJobIntro(name, m, f);
    }
  }

  /** What the regexp text of a workload matches, in both dialects. */
  lemma TextMatches(d: Dialect, w: Workload, s: string)
    requires !w.Pod? && Ascii(w.name)
    ensures PodsText(d, w).Some? && Read(d, PodsText(d, w).value).Some?
    ensures Match(Read(d, PodsText(d, w).value).value, s) <==> Matched(w, s)
  {
    PodsTextReads(d, w);
    AsciiLength(w.name);
    match w {
      case Deployment(name) =>
        if Uncut(name) {
          ShortDeploymentMatches(name, s);
        } else {
          LongDeploymentMatches(name, s);
        }
      case StatefulSet(name) => StatefulSetMatches(name, s);
      case DaemonSet(name) => DaemonSetMatches(name, s);
      case Job(name) =>
        if |name| + JOB_INDEX_DIGITS_MAX + 2 <= GENERATED_PREFIX_MAX {
          ShortJobMatches(name, s);
        } else {
          LongJobMatches(name, s);
        }
    }
  }

  /** Workloads whose text matches no other pod name than theirs. */
  predicate Exact(w: Workload) { w.Deployment? ==> Uncut(w.name) }

  /**
   * The regexp text of every workload with an ASCII name matches, in both
   * dialects, all of the workload's pods; and no other name, unless the
   * workload is a Deployment of a long name.
   */
  lemma TextMatchesPods(d: Dialect, w: Workload, s: string)
    requires !w.Pod? && Ascii(w.name)
    ensures PodsText(d, w).Some? && Read(d, PodsText(d, w).value).Some?
    ensures PodOf(w, s) ==> Match(Read(d, PodsText(d, w).value).value, s)
    ensures Exact(w) && Match(Read(d, PodsText(d, w).value).value, s) ==> PodOf(w, s)
  {
    TextMatches(d, w, s);
    if !Exact(w) && PodOf(w, s) {
      LongPodsMatch(w.name, s);
    }
  }

  /** A name that is no pod's, matched when the text is not exact. */
  lemma InexactText(d: Dialect, w: Workload) returns (s: string)
    requires !w.Pod? && Ascii(w.name) && !Exact(w)
    ensures PodsText(d, w).Some? && Read(d, PodsText(d, w).value).Some?
    ensures Match(Read(d, PodsText(d, w).value).value, s) && !PodOf(w, s)
  {
    var f := "bbbbb";
    s := Overmatched(w.name, f);
    LongTextMatchesMore(w.name, f);
    TextMatches(d, w, s);
  }

  /** The text says exactly what the workload's pods are if and only if no Deployment name is cut. */
  lemma TextIsExact(d: Dialect, w: Workload)
    requires !w.Pod? && Ascii(w.name)
    ensures PodsText(d, w).Some? && Read(d, PodsText(d, w).value).Some?
    ensures (forall s :: Match(Read(d, PodsText(d, w).value).value, s) <==> PodOf(w, s)) <==> Exact(w)
  {
    PodsTextReads(d, w);
    if Exact(w) {
      forall s
        ensures Match(Read(d, PodsText(d, w).value).value, s) <==> PodOf(w, s)
      {
        TextMatchesPods(d, w, s);
      }
    } else {
      var s := InexactText(d, w);
    }
  }

  // ----- Which workloads share pods -----

  /** A dash-free text after the last dash is determined. */
  lemma LastDash(a: string, h: string, a': string, h': string)
    requires a + "-" + h == a' + "-" + h' && '-' !in h && '-' !in h'
    ensures a == a' && h == h'
  {
    var s := a + "-" + h;
    assert s[|a|] == '-' && s[|a'|] == '-';
    assert forall i :: |a| < i < |s| ==> s[i] == h[i - |a| - 1];
    assert forall i :: |a'| < i < |s| ==> s[i] == h'[i - |a'| - 1];
    assert |a| == |a'|;
    assert a == s[..|a|] && a' == s[..|a'|];
    assert h == s[|a| + 1..] && h' == s[|a'| + 1..];
  }

  lemma SameLengthSplits(a: string, f: string, a': string, f': string)
    requires a + f == a' + f' && |f| == |f'|
    ensures a == a' && f == f'
  {
    assert a == (a + f)[..|a|] && a' == (a' + f')[..|a'|];
    assert f == (a + f)[|a|..] && f' == (a' + f')[|a'|..];
  }

  /** The texts of two workloads match one name. */
  ghost predicate Share(w: Workload, w': Workload) { exists s :: Matched(w, s) && Matched(w', s) }

  /** StatefulSets never share a pod name. */
  lemma StatefulSetsShare(a: string, b: string)
    ensures Share(StatefulSet(a), StatefulSet(b)) <==> a == b
  {
    if s :| Matched(StatefulSet(a), s) && Matched(StatefulSet(b), s) {
      var n :| s == a + "-" + n && n != "" && AllDigits(n);
      var n' :| s == b + "-" + n' && n' != "" && AllDigits(n');
      LastDash(a, n, b, n');
    }
    if a == b {
      assert StatefulSetPod(a, a + "-" + "0");
      assert Matched(StatefulSet(a), a + "-" + "0");
    }
  }

  /** DaemonSets share pod names exactly when the cut makes their prefixes the same. */
  lemma DaemonSetsShare(a: string, b: string)
    ensures Share(DaemonSet(a), DaemonSet(b)) <==> Take(a + "-", GENERATED_PREFIX_MAX) == Take(b + "-", GENERATED_PREFIX_MAX)
  {
    var p, q := Take(a + "-", GENERATED_PREFIX_MAX), Take(b + "-", GENERATED_PREFIX_MAX);
    if s :| Matched(DaemonSet(a), s) && Matched(DaemonSet(b), s) {
      var f :| s == p + f && IsSuffix(f);
      var f' :| s == q + f' && IsSuffix(f');
      SameLengthSplits(p, f, q, f');
    }
    if p == q {
      assert IsSuffix("bbbbb");
      assert DaemonSetPod(a, p + "bbbbb") && DaemonSetPod(b, p + "bbbbb");
      assert Matched(DaemonSet(a), p + "bbbbb") && Matched(DaemonSet(b), p + "bbbbb");
    }
  }

  /** `-` and a hash, perhaps with its last dash: what makes a short name into a longer one. */
  predicate DashHash(x: string) {
    |x| >= 2 && x[0] == '-' && (IsHash(x[1..]) || (x[|x| - 1] == '-' && IsHash(x[1..|x| - 1])))
  }

  /** `-` and at most ten characters of a hash, perhaps with its last dash; or nothing. */
  predicate Middle(x: string) {
    x == "" || (x[0] == '-' && ((Safe(x[1..]) && |x| <= 11) || (2 <= |x| <= 12 && x[|x| - 1] == '-' && Safe(x[1..|x| - 1]))))
  }

  /** When two Deployments can match one pod name: by what the longer name, cut, has more. */
  predicate DeploymentsOverlap(a: string, b: string) {
    var p, q := Take(a, GENERATED_PREFIX_MAX), Take(b, GENERATED_PREFIX_MAX);
    if Uncut(a) && Uncut(b) then a == b else
    if Uncut(a) then a <= q && DashHash(q[|a|..]) else
    if Uncut(b) then b <= p && DashHash(p[|b|..]) else
    (p <= q && Middle(q[|p|..])) || (q <= p && Middle(p[|q|..]))
  }

  lemma MiddleIntroduced(h: string)
    requires |h| <= 10 && Safe(h)
    ensures Middle("-" + h) && Middle("-" + h + "-")
  {
    assert ("-" + h)[1..] == h;
    var m := "-" + h + "-";
    assert m[1..|m| - 1] == h;
  }

  lemma MiddleIs(m: string)
    ensures LongMiddle(m) <==> Middle(m)
  {
    if LongMiddle(m) && m != "" {
      var h :| |h| <= 10 && Safe(h) && (m == "-" + h || m == "-" + h + "-");
      MiddleIntroduced(h);
    }
    if Middle(m) && m != "" {
      if Safe(m[1..]) && |m| <= 11 {
        assert m == "-" + m[1..];
      } else {
        assert m == "-" + m[1..|m| - 1] + "-";
      }
    }
  }

  lemma UncutShare(a: string, b: string)
    requires Uncut(a) && Uncut(b)
    ensures Share(Deployment(a), Deployment(b)) <==> a == b
  {
    if s :| Matched(Deployment(a), s) && Matched(Deployment(b), s) {
      UncutPods(a, s);
      UncutPods(b, s);
      var h, f :| s == a + "-" + h + "-" + f && IsHash(h) && IsSuffix(f);
      var h', f' :| s == b + "-" + h' + "-" + f' && IsHash(h') && IsSuffix(f');
      LastDash(a + "-" + h, f, b + "-" + h', f');
      LastDash(a, h, b, h');
    }
    if a == b {
      var s := a + "-" + "bbbbbb" + "-" + "bbbbb";
      assert IsHash("bbbbbb") && IsSuffix("bbbbb");
      UncutPods(a, s);
      assert Matched(Deployment(a), s);
    }
  }

  /** Before the suffix, a short name's pod and a long name's cut are the same. */
  lemma ShortMeetsLong(a: string, h: string, q: string, m: string)
    requires Uncut(a) && !Uncut(q) && IsHash(h) && LongMiddle(m) && a + "-" + h + "-" == q + m
    ensures a <= q && DashHash(q[|a|..])
  {
    var whole := a + "-" + h + "-";
    if m == "" {
      assert q + m == q && whole == a + ("-" + h + "-");
      assert q[|a|..] == "-" + h + "-";
      assert q[|a|..][1..|q| - |a| - 1] == h;
    } else {
      var r :| |r| <= 10 && Safe(r) && (m == "-" + r || m == "-" + r + "-");
      if m == "-" + r {
        assert whole[|whole| - 1] == '-' && m[|m| - 1] == whole[|whole| - 1];
        assert r == "";
        assert q == a + "-" + h by { SameLengthSplits(a + "-" + h, "-", q, "-"); }
        assert q[|a|..] == "-" + h;
        assert q[|a|..][1..] == h;
      } else {
        assert q + m == q + "-" + r + "-";
        SameLengthSplits(a + "-" + h, "-", q + "-" + r, "-");
        LastDash(a, h, q, r);
      }
    }
  }

  lemma OverlapFromPod(a: string, b: string, s: string)
    requires Uncut(a) && !Uncut(b) && DeploymentPod(a, s) && LongDeploymentMatch(b, s)
    ensures DeploymentsOverlap(a, b)
  {
    UncutPods(a, s);
    var q := Take(b, GENERATED_PREFIX_MAX);
    var h, f :| s == a + "-" + h + "-" + f && IsHash(h) && IsSuffix(f);
    var m, f' :| s == q + m + f' && IsSuffix(f') && LongMiddle(m);
    SameLengthSplits(a + "-" + h + "-", f, q + m, f');
    ShortMeetsLong(a, h, q, m);
  }

  /** A long name that a short one overlaps is that name, a dash and a hash, perhaps with the next dash. */
  lemma HashOfOverlap(a: string, q: string) returns (h: string, m: string)
    requires a <= q && DashHash(q[|a|..])
    ensures IsHash(h) && (m == "" || m == "-") && a + "-" + h + "-" == q + m
  {
    var x := q[|a|..];
    assert q == a + x;
    h, m := x[1..], "-";
    if IsHash(h) {
      assert x == "-" + h;
    } else {
      h, m := x[1..|x| - 1], "";
      assert x == "-" + h + "-";
    }
  }

  lemma ShortAndLongShare(a: string, b: string)
    requires Uncut(a) && !Uncut(b)
    ensures Share(Deployment(a), Deployment(b)) <==> DeploymentsOverlap(a, b)
  {
    if s :| Matched(Deployment(a), s) && Matched(Deployment(b), s) {
      OverlapFromPod(a, b, s);
    }
    if DeploymentsOverlap(a, b) {
      var h, m := HashOfOverlap(a, Take(b, GENERATED_PREFIX_MAX));
      BothMatch(a, b, h, m, "bbbbb");
    }
  }

  lemma BothMatch(a: string, b: string, h: string, m: string, f: string)
    requires Uncut(a) && !Uncut(b) && IsHash(h) && (m == "" || m == "-") && IsSuffix(f)
    requires a + "-" + h + "-" == Take(b, GENERATED_PREFIX_MAX) + m
    ensures Share(Deployment(a), Deployment(b))
  {
    var s := a + "-" + h + "-" + f;
    UncutPods(a, s);
    assert Safe("") && "-" + "" == "-";
    assert LongMiddle(m);
    assert LongDeploymentMatch(b, s);
    assert Matched(Deployment(a), s) && Matched(Deployment(b), s);
  }

  /** What follows the shorter of two cut names is a middle, whatever follows the longer one. */
  lemma LongMeetsLong(p: string, m: string, q: string, m': string)
    requires p + m == q + m' && |p| <= |q| && LongMiddle(m) && LongMiddle(m')
    ensures p <= q && Middle(q[|p|..])
  {
    var x := q[|p|..];
    assert p == (p + m)[..|p|] == q[..|p|];
    assert q == p + x && m == (p + m)[|p|..] == x + m';
    MiddleIs(m);
    if m' == "" {
      assert x == m;
    } else if x != "" {
      assert m[|x|] == m'[0] == '-';
      assert m[|m| - 1] == '-' && |x| == |m| - 1;
      assert x[1..] == m[1..|m| - 1];
    }
  }

  lemma LongBothMatch(a: string, b: string)
    requires !Uncut(a) && !Uncut(b)
    requires var p, q := Take(a, GENERATED_PREFIX_MAX), Take(b, GENERATED_PREFIX_MAX); p <= q && Middle(q[|p|..])
    ensures Share(Deployment(a), Deployment(b)) && Share(Deployment(b), Deployment(a))
  {
    var p, q := Take(a, GENERATED_PREFIX_MAX), Take(b, GENERATED_PREFIX_MAX);
    var x := q[|p|..];
    MiddleIs(x);
    var s := q + "bbbbb";
    assert IsSuffix("bbbbb") && s == p + x + "bbbbb" && s == q + "" + "bbbbb";
    assert LongDeploymentMatch(a, s) && LongDeploymentMatch(b, s);
    assert Matched(Deployment(a), s) && Matched(Deployment(b), s);
  }

  lemma {:induction false} LongNamesShare(a: string, b: string)
    requires !Uncut(a) && !Uncut(b)
    ensures Share(Deployment(a), Deployment(b)) <==> DeploymentsOverlap(a, b)
  {
    var p, q := Take(a, GENERATED_PREFIX_MAX), Take(b, GENERATED_PREFIX_MAX);
    if s :| Matched(Deployment(a), s) && Matched(Deployment(b), s) {
      var m, f :| s == p + m + f && IsSuffix(f) && LongMiddle(m);
      var m', f' :| s == q + m' + f' && IsSuffix(f') && LongMiddle(m');
      SameLengthSplits(p + m, f, q + m', f');
      if |p| <= |q| {
        LongMeetsLong(p, m, q, m');
      } else {
        LongMeetsLong(q, m', p, m);
      }
    }
    if p <= q && Middle(q[|p|..]) {
      LongBothMatch(a, b);
    } else if DeploymentsOverlap(a, b) {
      LongBothMatch(b, a);
    }
  }

  /** Deployments match a common pod name exactly when the names overlap. */
  lemma DeploymentsShare(a: string, b: string)
    ensures Share(Deployment(a), Deployment(b)) <==> DeploymentsOverlap(a, b)
  {
    if Uncut(a) && Uncut(b) {
      UncutShare(a, b);
    } else if Uncut(a) {
      ShortAndLongShare(a, b);
    } else if Uncut(b) {
      ShortAndLongShare(b, a);
      assert Share(Deployment(a), Deployment(b)) <==> Share(Deployment(b), Deployment(a));
    } else {
      LongNamesShare(a, b);
    }
  }

  /** Names from which the cut takes nothing. */
  predicate NotCut(w: Workload) {
    match w
    case Deployment(name) => Uncut(name)
    case DaemonSet(name) => |name| < GENERATED_PREFIX_MAX
    case _ => w.StatefulSet?
  }

  /** Two workloads of one kind whose names are not cut share no pod name. */
  lemma DifferentWorkloadsShareNoPod(w: Workload, w': Workload)
    requires (w.Deployment? && w'.Deployment?) || (w.StatefulSet? && w'.StatefulSet?) || (w.DaemonSet? && w'.DaemonSet?)
    requires NotCut(w) && NotCut(w') && Share(w, w')
    ensures w == w'
  {
    match w {
      case Deployment(name) => DeploymentsShare(name, w'.name);
      case StatefulSet(name) => StatefulSetsShare(name, w'.name);
      case DaemonSet(name) =>
        DaemonSetsShare(name, w'.name);
        SameLengthSplits(name, "-", w'.name, "-");
    }
  }

  /** A real pod of a Deployment of 46 characters that another Deployment, named like its ReplicaSet, also matches. */
  lemma RealPodIsShared(name: string, h: string, f: string)
    requires |name| == 46 && IsHash(h) && IsSuffix(f)
    ensures var s := name + "-" + h + "-" + f; PodOf(Deployment(name), s) && Matched(Deployment(name + "-" + h), s)
  {
    var s := name + "-" + h + "-" + f;
    UncutPods(name, s);
    assert Take(name + "-" + h, GENERATED_PREFIX_MAX) == name + "-" + h;
    assert Safe("") && "-" + "" == "-";
    assert LongMiddle("-");
  }

  /** A pod of the CronJob `name`: its jobs are named by an 8-digit minute, and the pod's generated name is cut. */
  ghost predicate CronJobPod(name: string, s: string) {
    exists minute, f :: |minute| == 8 && AllDigits(minute) && IsSuffix(f)
      && s == Take(name + "-" + minute + "-", GENERATED_PREFIX_MAX) + f
  }

  /** The cut ends in a digit of the minute, an index's prefix never does. */
  lemma MinuteIsNoIndex(name: string, minute: string, n: string)
    requires |name| <= 56 && |minute| == 8 && AllDigits(minute) && 1 <= |n| <= JOB_INDEX_DIGITS_MAX
    ensures Take(name + "-" + minute + "-", GENERATED_PREFIX_MAX) != IndexedPrefix(name, n)
  {
    var cut := Take(name + "-" + minute + "-", GENERATED_PREFIX_MAX);
    if |name| >= 49 {
      assert cut[57] == minute[56 - |name|];
      assert |IndexedPrefix(name, n)| == 58 ==> IndexedPrefix(name, n)[57] == '-';
    }
  }

  lemma ShortCronJobPod(name: string, minute: string, f: string)
    requires |name| <= 56 && |minute| == 8 && AllDigits(minute) && IsSuffix(f)
    ensures !JobPod(name, Take(name + "-" + minute + "-", GENERATED_PREFIX_MAX) + f)
  {
    var cut := Take(name + "-" + minute + "-", GENERATED_PREFIX_MAX);
    assert Take(name + "-", GENERATED_PREFIX_MAX) == name + "-";
    forall n, f' | 1 <= |n| <= JOB_INDEX_DIGITS_MAX && IsSuffix(f')
      ensures cut + f != IndexedPrefix(name, n) + f'
    {
      MinuteIsNoIndex(name, minute, n);
      if cut + f == IndexedPrefix(name, n) + f' {
        SameLengthSplits(cut, f, IndexedPrefix(name, n), f');
      }
    }
  }

  /** A CronJob's pod is one of the Job of its name exactly when the cut leaves nothing of the minute. */
  lemma CronJobPodsAreNotJobPods(name: string, s: string)
    requires CronJobPod(name, s)
    ensures PodOf(Job(name), s) <==> |name| > 56
  {
    var minute, f :| |minute| == 8 && AllDigits(minute) && IsSuffix(f)
      && s == Take(name + "-" + minute + "-", GENERATED_PREFIX_MAX) + f;
    if |name| > 56 {
      assert Take(name + "-" + minute + "-", GENERATED_PREFIX_MAX) == Take(name + "-", GENERATED_PREFIX_MAX);
    } else {
      ShortCronJobPod(name, minute, f);
    }
  }

  /** And so says the Job's expression, in both dialects. */
  lemma CronJobPodsAreNotMatched(d: Dialect, name: string, s: string)
    requires Ascii(name) && CronJobPod(name, s)
    ensures PodsText(d, Job(name)).Some? && Read(d, PodsText(d, Job(name)).value).Some?
    ensures Match(Read(d, PodsText(d, Job(name)).value).value, s) <==> |name| > 56
  {
    CronJobPodsAreNotJobPods(name, s);
    TextMatchesPods(d, Job(name), s);
  }
}
