/** What the picks of detection depend on, and what they do not. */
module DetectionFacts {
  import opened Prelude
  import opened Sorting
  import opened Detection

  // ----- The order of candidates -----

  lemma LessTransitive(rules: Rules, a: Candidate, b: Candidate, c: Candidate)
    ensures Less(rules, a, b) && Less(rules, b, c) ==> Less(rules, a, c)
    ensures !Less(rules, a, a)
  {
    LexTransitive(a.found.namespace, b.found.namespace, c.found.namespace);
    LexTransitive(a.found.name, b.found.name, c.found.name);
    LexTransitive(b.found.namespace, a.found.namespace, b.found.namespace);
  }

  lemma LessTotal(rules: Rules, a: Candidate, b: Candidate)
    ensures Less(rules, a, b) || Less(rules, b, a)
         || (a.found.namespace == b.found.namespace && a.found.name == b.found.name)
  {
    LexTotal(a.found.namespace, b.found.namespace);
    LexTotal(a.found.name, b.found.name);
  }

  /** Not worse than, twice. */
  lemma NotLess(rules: Rules, a: Candidate, b: Candidate, c: Candidate)
    requires !Less(rules, b, a) && !Less(rules, c, b)
    ensures !Less(rules, c, a)
  {
    LessTotal(rules, a, b);
    LessTotal(rules, b, c);
    LessTransitive(rules, c, a, b);
    LessTransitive(rules, b, c, a);
    LessTransitive(rules, c, b, a);
    if Less(rules, c, a) {
      SameKey(rules, a, b, c);
    }
  }

  /** Candidates that neither beats the other compare alike with any third. */
  lemma SameKey(rules: Rules, a: Candidate, b: Candidate, c: Candidate)
    ensures !Less(rules, a, b) && !Less(rules, b, a) ==> (Less(rules, c, a) <==> Less(rules, c, b)) && (Less(rules, a, c) <==> Less(rules, b, c))
  {
    LexTotal(a.found.namespace, b.found.namespace);
    LexTotal(a.found.name, b.found.name);
  }

  /** Ranking is an order. */
  lemma {:induction false} RankingOrders(rules: Rules)
    ensures Order(ByRank(rules))
  {
    forall a, b, c: Candidate
      ensures !Less(rules, a, a)
      ensures Less(rules, a, b) && Less(rules, b, c) ==> Less(rules, a, c)
      ensures !Less(rules, b, a) && !Less(rules, c, b) ==> !Less(rules, c, a)
    {
      LessTransitive(rules, a, b, c);
      if !Less(rules, b, a) && !Less(rules, c, b) {
        NotLess(rules, a, b, c);
      }
    }
  }

  lemma {:induction false} RankedIs(rules: Rules, services: seq<Service>, verified: Verified)
    ensures Sorted(ByRank(rules), RankedFn(rules, services, verified))
    ensures multiset(RankedFn(rules, services, verified)) == multiset(Candidates(rules, services, verified))
  {
    RankingOrders(rules);
    SortSorts(ByRank(rules), Candidates(rules, services, verified));
    SortHolds(ByRank(rules), Candidates(rules, services, verified));
  }

  // ----- The order of the service list does not matter -----

  lemma {:induction false} CandidatesJoin(rules: Rules, a: seq<Service>, b: seq<Service>, verified: Verified)
    ensures Candidates(rules, a + b, verified) == Candidates(rules, a, verified) + Candidates(rules, b, verified)
    decreases |b|
  {
    if b == [] {
      assert a + b == a;
    } else {
      var n := |b| - 1;
      CandidatesJoin(rules, a, b[..n], verified);
      assert (a + b)[..|a + b| - 1] == a + b[..n] && (a + b)[|a + b| - 1] == b[n];
      var last := CandidateOf(rules, b[n], verified);
      assert (Candidates(rules, a, verified) + Candidates(rules, b[..n], verified)) + last
          == Candidates(rules, a, verified) + (Candidates(rules, b[..n], verified) + last);
    }
  }

  lemma CandidatesAround(rules: Rules, a: seq<Service>, x: Service, b: seq<Service>, verified: Verified)
    ensures Candidates(rules, a + ([x] + b), verified)
         == Candidates(rules, a, verified) + (CandidateOf(rules, x, verified) + Candidates(rules, b, verified))
  {
    CandidatesJoin(rules, a, [x] + b, verified);
    CandidatesJoin(rules, [x], b, verified);
    assert [x][..0] == [];
    assert Candidates(rules, [x], verified) == CandidateOf(rules, x, verified);
  }

  lemma BagAround(a: seq<Service>, x: Service, b: seq<Service>)
    ensures multiset(a + ([x] + b)) == multiset(a + b) + multiset{x}
  {
  }

  lemma SameRest(s: seq<Service>, a: seq<Service>, x: Service, b: seq<Service>)
    requires multiset(s + [x]) == multiset(a + ([x] + b))
    ensures multiset(s) == multiset(a + b)
  {
    BagAround(a, x, b);
    BagAround(s, x, []);
    assert [x] + [] == [x] && s + [] == s;
    assert multiset(s) == (multiset(s) + multiset{x}) - multiset{x};
    assert multiset(a + b) == (multiset(a + b) + multiset{x}) - multiset{x};
  }

  lemma OneMore(rules: Rules, a: seq<Service>, x: Service, b: seq<Service>, verified: Verified)
    ensures multiset(Candidates(rules, a + ([x] + b), verified))
         == multiset(Candidates(rules, a + b, verified)) + multiset(CandidateOf(rules, x, verified))
  {
    CandidatesJoin(rules, a, b, verified);
    CandidatesAround(rules, a, x, b, verified);
  }

  lemma OneMoreEach(rules: Rules, s: seq<Service>, a: seq<Service>, x: Service, b: seq<Service>, verified: Verified)
    requires multiset(Candidates(rules, s, verified)) == multiset(Candidates(rules, a + b, verified))
    ensures multiset(Candidates(rules, s + [x], verified)) == multiset(Candidates(rules, a + ([x] + b), verified))
  {
    OneMore(rules, a, x, b, verified);
    OneMore(rules, s, x, [], verified);
    assert s + ([x] + []) == s + [x] && s + [] == s;
  }

  lemma {:induction false} CandidatesPermute(rules: Rules, s: seq<Service>, t: seq<Service>, verified: Verified)
    requires multiset(s) == multiset(t)
    ensures multiset(Candidates(rules, s, verified)) == multiset(Candidates(rules, t, verified))
    decreases |s|
  {
    if s == [] {
      assert |multiset(t)| == |t|;
    } else {
      var before, x := s[..|s| - 1], s[|s| - 1];
      var a, b := TakeOut(t, x, s);
      assert s == before + [x];
      SameRest(before, a, x, b);
      CandidatesPermute(rules, before, a + b, verified);
      OneMoreEach(rules, before, a, x, b, verified);
    }
  }

  lemma TakeOut(t: seq<Service>, x: Service, s: seq<Service>) returns (a: seq<Service>, b: seq<Service>)
    requires x in s && multiset(s) == multiset(t)
    ensures t == a + ([x] + b)
  {
    assert x in multiset(t);
    var k :| 0 <= k < |t| && t[k] == x;
    a, b := t[..k], t[k + 1..];
  }

  /** A namespace and a name are one service's. */
  ghost predicate UniqueNames(services: seq<Service>) {
    forall s, t :: s in services && t in services && s.name == t.name && OrEmpty(s.namespace) == OrEmpty(t.namespace) ==> s == t
  }

  lemma {:induction false} CandidateFrom(rules: Rules, services: seq<Service>, verified: Verified, c: Candidate)
    ensures c in Candidates(rules, services, verified) <==> c.service in services && CandidateOf(rules, c.service, verified) == [c]
    decreases |services|
  {
    if services != [] {
      var n := |services| - 1;
      CandidateFrom(rules, services[..n], verified, c);
      assert services == services[..n] + [services[n]];
      if c.service == services[n] {
        assert c in CandidateOf(rules, services[n], verified) <==> CandidateOf(rules, services[n], verified) == [c];
      }
    }
  }

  lemma InRanked(rules: Rules, services: seq<Service>, verified: Verified, c: Candidate)
    ensures c in RankedFn(rules, services, verified) <==> c.service in services && CandidateOf(rules, c.service, verified) == [c]
  {
    var all := Candidates(rules, services, verified);
    RankedIs(rules, services, verified);
    CandidateFrom(rules, services, verified, c);
    assert c in all <==> c in multiset(all);
    assert c in RankedFn(rules, services, verified) <==> c in multiset(RankedFn(rules, services, verified));
  }

  lemma RankedAntisymmetric(rules: Rules, services: seq<Service>, verified: Verified)
    requires Valid(rules) && UniqueNames(services)
    ensures Antisymmetric(ByRank(rules), RankedFn(rules, services, verified))
  {
    var r := RankedFn(rules, services, verified);
    forall x, y | x in r && y in r && !Less(rules, x, y) && !Less(rules, y, x)
      ensures x == y
    {
      InRanked(rules, services, verified, x);
      InRanked(rules, services, verified, y);
      LessTotal(rules, x, y);
    }
  }

  /** Detection gives the same for the same services in any order. */
  lemma OrderDoesNotMatter(rules: Rules, s: seq<Service>, t: seq<Service>, verified: Verified, owned: Claim -> bool)
    requires Valid(rules) && UniqueNames(s) && multiset(s) == multiset(t)
    ensures Pick(rules, s, verified) == Pick(rules, t, verified)
    ensures Claims(rules, s) == Claims(rules, t)
    ensures Detect(rules, s, owned) == Detect(rules, t, owned)
  {
    RankedPermute(rules, s, t, verified);
    RankedPermute(rules, s, t, {});
    RankedPermute(rules, s, t, Verify(Claims(rules, s), owned));
  }

  lemma RankedPermute(rules: Rules, s: seq<Service>, t: seq<Service>, verified: Verified)
    requires Valid(rules) && UniqueNames(s) && multiset(s) == multiset(t)
    ensures RankedFn(rules, s, verified) == RankedFn(rules, t, verified)
  {
    CandidatesPermute(rules, s, t, verified);
    RankingOrders(rules);
    RankedIs(rules, s, verified);
    RankedIs(rules, t, verified);
    RankedAntisymmetric(rules, s, verified);
    SortedUnique(ByRank(rules), RankedFn(rules, s, verified), RankedFn(rules, t, verified));
  }

  // ----- One service more -----

  predicate Unverified(rules: Rules, x: Service, verified: Verified) {
    forall c :: c in CandidateOf(rules, x, verified) ==> !c.trusted
  }

  lemma {:induction false} FirstMainAround(rules: Rules, u: seq<Candidate>, c: Candidate, v: seq<Candidate>)
    requires Sorted(ByRank(rules), u + ([c] + v)) && !c.trusted
    ensures var more, less := FirstMain(rules, u + ([c] + v)), FirstMain(rules, u + v);
            && (less.Some? && less.value.trusted ==> more == less)
            && (more.Some? && more.value.trusted ==> less == more)
    decreases |u|
  {
    var s := u + ([c] + v);
    if u == [] {
      assert s[0] == c && s[1..] == v && u + v == v;
      FirstMainIn(rules, v);
      if FirstMain(rules, v).Some? && IsMain(rules, c) {
        var j :| 0 <= j < |v| && v[j] == FirstMain(rules, v).value;
        assert s[j + 1] == v[j] && !Less(rules, s[j + 1], s[0]);
      }
    } else {
      assert s[0] == u[0] && s[1..] == u[1..] + ([c] + v) && (u + v)[1..] == u[1..] + v;
      FirstMainAround(rules, u[1..], c, v);
    }
  }

  lemma {:induction false} FirstMainIn(rules: Rules, s: seq<Candidate>)
    ensures FirstMain(rules, s).Some? ==> FirstMain(rules, s).value in s && IsMain(rules, FirstMain(rules, s).value)
    ensures FirstMain(rules, s).None? ==> forall c :: c in s ==> !IsMain(rules, c)
  {
    if s != [] {
      FirstMainIn(rules, s[1..]);
    }
  }

  lemma OneClickAround(rules: Rules, u: seq<Candidate>, c: Candidate, v: seq<Candidate>)
    requires Sorted(ByRank(rules), u + ([c] + v)) && !c.trusted && OneClick(rules, u + ([c] + v))
    ensures OneClick(rules, u + v)
  {
    FirstMainAround(rules, u, c, v);
    var best := FirstMain(rules, u + v).value;
    var owner := TrustedOwner(rules, best).value;
    forall i | 0 <= i < |u + v| && IsMain(rules, (u + v)[i]) && (u + v)[i].service.address != best.service.address
      ensures (u + v)[i].service.namespace == Some(best.found.namespace) && SelectsInstance(rules.operator, (u + v)[i].service, owner)
    {
      assert (u + v)[i] == (u + ([c] + v))[if i < |u| then i else i + 1];
    }
  }

  /** The ranking with one service more: the same, or the same around one candidate. */
  lemma RankedAround(rules: Rules, a: seq<Service>, x: Service, b: seq<Service>, verified: Verified)
    returns (u: seq<Candidate>, v: seq<Candidate>)
    requires rules.classify(x).Some?
    ensures RankedFn(rules, a + b, verified) == u + v
    ensures RankedFn(rules, a + ([x] + b), verified) == u + ([CandidateOf(rules, x, verified)[0]] + v)
    ensures Sorted(ByRank(rules), u + ([CandidateOf(rules, x, verified)[0]] + v))
  {
    var p, q := Candidates(rules, a, verified), Candidates(rules, b, verified);
    var c := CandidateOf(rules, x, verified)[0];
    CandidatesJoin(rules, a, b, verified);
    CandidatesAround(rules, a, x, b, verified);
    RankingOrders(rules);
    u, v := SortAround(ByRank(rules), p, c, q);
    SortSorts(ByRank(rules), p + ([c] + q));
  }

  lemma RankedWithout(rules: Rules, a: seq<Service>, x: Service, b: seq<Service>, verified: Verified)
    requires rules.classify(x).None?
    ensures RankedFn(rules, a + ([x] + b), verified) == RankedFn(rules, a + b, verified)
  {
    CandidatesJoin(rules, a, b, verified);
    CandidatesAround(rules, a, x, b, verified);
    assert [] + Candidates(rules, b, verified) == Candidates(rules, b, verified);
  }

  /** A service whose owner is not verified never turns one-click on, and never displaces a verified pick. */
  lemma UnverifiedChangesLittle(rules: Rules, a: seq<Service>, x: Service, b: seq<Service>, verified: Verified)
    requires Unverified(rules, x, verified)
    ensures Pick(rules, a + ([x] + b), verified).oneClick ==> Pick(rules, a + b, verified).oneClick
    ensures var best := FirstMain(rules, RankedFn(rules, a + b, verified));
            best.Some? && best.value.trusted ==> Pick(rules, a + ([x] + b), verified).main == Some(best.value.found)
  {
    if rules.classify(x).None? {
      RankedWithout(rules, a, x, b, verified);
    } else {
      var u, v := RankedAround(rules, a, x, b, verified);
      var c := CandidateOf(rules, x, verified)[0];
      assert c in CandidateOf(rules, x, verified);
      FirstMainAround(rules, u, c, v);
      if OneClick(rules, u + ([c] + v)) {
        OneClickAround(rules, u, c, v);
      }
    }
  }

  predicate IsMainService(rules: Rules, s: Service) { rules.classify(s).Some? && rules.classify(s).value.kind == rules.main }

  /** With one-click on, every service of the main kind is in the picked one's namespace. */
  lemma OneClickIsAlone(rules: Rules, services: seq<Service>, verified: Verified, s: Service)
    requires Valid(rules) && Pick(rules, services, verified).oneClick && s in services && IsMainService(rules, s)
    requires forall t :: t in services && t.address == s.address ==> t == s
    ensures Pick(rules, services, verified).main.Some?
    ensures OrEmpty(s.namespace) == Pick(rules, services, verified).main.value.namespace
  {
    var r := RankedFn(rules, services, verified);
    var c := CandidateOf(rules, s, verified)[0];
    InRanked(rules, services, verified, c);
    var i :| 0 <= i < |r| && r[i] == c;
    var best := FirstMain(rules, r).value;
    FirstMainIn(rules, r);
    InRanked(rules, services, verified, best);
    if best.service.address == s.address {
      assert best.service == s;
    }
  }
}
