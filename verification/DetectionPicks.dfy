module DetectionPicks {
  // When a verified pick stays although a service with a false claim joins: the
  // false claim may push the pick's own out of the few that are checked.

  import opened Prelude
  import opened Sorting
  import opened Detection
  import opened DetectionFacts
  import opened DetectionClaims

  /** The best main candidate of a detection. */
  function Best(rules: Rules, services: seq<Service>, owned: Claim -> bool): Option<Candidate> {
    FirstMain(rules, RankedFn(rules, services, Verify(Claims(rules, services), owned)))
  }

  /** The claim of `s` is among those checked. */
  ghost predicate Checked(rules: Rules, services: seq<Service>, s: Service) {
    exists i :: 0 <= i < |Claims(rules, services)| && Claims(rules, services)[i].0 == s
  }

  // ----- A pick that stays verified stays -----

  /** A trusted candidate is better than one that is not. */
  lemma TrustedIsBetter(rules: Rules, b: Candidate, c: Candidate)
    requires IsMain(rules, b) && IsMain(rules, c) && b.trusted && !c.trusted
    ensures Less(rules, b, c) && !Less(rules, c, b)
  {
  }

  /** The best candidate stays the best while it is verified and nothing else newly is. */
  lemma BestWithFewer(rules: Rules, services: seq<Service>, many: Verified, few: Verified, b: Candidate)
    requires Valid(rules) && UniqueNames(services) && few <= many
    requires FirstMain(rules, RankedFn(rules, services, many)) == Some(b) && b.trusted
    requires CandidateOf(rules, b.service, few) == [b]
    ensures FirstMain(rules, RankedFn(rules, services, few)) == Some(b)
  {
    var before, after := RankedFn(rules, services, many), RankedFn(rules, services, few);
    FirstMainIn(rules, before);
    InRanked(rules, services, many, b);
    InRanked(rules, services, few, b);
    forall c | c in after && IsMain(rules, c)
      ensures !Less(rules, c, b)
    {
      StillBehind(rules, services, many, few, b, c);
    }
    RankedIs(rules, services, few);
    RankedAntisymmetric(rules, services, few);
    LeastIsFirst(rules, after, b);
  }

  lemma StillBehind(rules: Rules, services: seq<Service>, many: Verified, few: Verified, b: Candidate, c: Candidate)
    requires few <= many && FirstMain(rules, RankedFn(rules, services, many)) == Some(b) && b.trusted && IsMain(rules, b)
    requires c in RankedFn(rules, services, few) && IsMain(rules, c)
    ensures !Less(rules, c, b)
  {
    InRanked(rules, services, few, c);
    if c.trusted {
      InRanked(rules, services, many, c);
      RankedIs(rules, services, many);
      FirstMainLeast(rules, RankedFn(rules, services, many), c);
    } else {
      TrustedIsBetter(rules, b, c);
    }
  }

  lemma {:induction false} FewerVerified(rules: Rules, services: seq<Service>, m: nat, n: nat, owned: Claim -> bool)
    requires m <= n
    ensures VerifiedBest(rules, services, m, owned) <= VerifiedBest(rules, services, n, owned)
  {
    forall key | key in VerifiedBest(rules, services, m, owned)
      ensures key in VerifiedBest(rules, services, n, owned)
    {
      var claims := AllClaims(rules, services);
      VerifiedBy(Take(claims, m), owned, key);
      VerifiedBy(Take(claims, n), owned, key);
      var i :| 0 <= i < |Take(claims, m)| && owned(Take(claims, m)[i]) && Key(Take(claims, m)[i].0) == key;
      assert Take(claims, n)[i] == Take(claims, m)[i];
    }
  }

  // ----- A pick that is no longer verified goes -----

  lemma {:induction false} FirstClaim(rules: Rules, r: seq<Candidate>, b: Candidate)
    requires FirstMain(rules, r) == Some(b) && OwnerClaim(b.service, rules.operator).Some?
    ensures ClaimsOf(rules, r) != [] && ClaimsOf(rules, r)[0].0 == b.service
  {
    if IsMain(rules, r[0]) {
      assert ClaimsOf(rules, r) == ClaimOf(rules, r[0]) + ClaimsOf(rules, r[1..]);
    } else {
      FirstClaim(rules, r[1..], b);
    }
  }

  /** The best candidate is the best before any check when it is not trusted: then none is. */
  lemma BestUnverified(rules: Rules, services: seq<Service>, verified: Verified, b: Candidate)
    requires Valid(rules) && UniqueNames(services)
    requires FirstMain(rules, RankedFn(rules, services, verified)) == Some(b) && !b.trusted
    ensures FirstMain(rules, RankedFn(rules, services, {})) == Some(b)
  {
    var r, plain := RankedFn(rules, services, verified), RankedFn(rules, services, {});
    FirstMainIn(rules, r);
    InRanked(rules, services, verified, b);
    assert CandidateOf(rules, b.service, {}) == [b];
    InRanked(rules, services, {}, b);
    forall c | c in plain && IsMain(rules, c)
      ensures !Less(rules, c, b)
    {
      InRanked(rules, services, {}, c);
      var d := CandidateOf(rules, c.service, verified)[0];
      InRanked(rules, services, verified, d);
      RankedIs(rules, services, verified);
      FirstMainLeast(rules, r, d);
      if d.trusted {
        TrustedIsBetter(rules, d, b);
      }
    }
    RankedIs(rules, services, {});
    RankedAntisymmetric(rules, services, {});
    LeastIsFirst(rules, plain, b);
  }

  /** A best candidate with an owner to check is checked, or trusted anyway. */
  lemma BestIsChecked(rules: Rules, services: seq<Service>, owned: Claim -> bool, b: Candidate)
    requires Valid(rules) && UniqueNames(services) && Best(rules, services, owned) == Some(b)
    requires OwnerClaim(b.service, rules.operator).Some?
    ensures Checked(rules, services, b.service)
  {
    var verified := Verify(Claims(rules, services), owned);
    FirstMainIn(rules, RankedFn(rules, services, verified));
    InRanked(rules, services, verified, b);
    if b.trusted {
      var i := VerifiedClaim(rules, services, MAX_VERIFIED, owned, b.service);
      assert Claims(rules, services)[i] == AllClaims(rules, services)[i];
    } else {
      BestUnverified(rules, services, verified, b);
      FirstClaim(rules, RankedFn(rules, services, {}), b);
      assert Claims(rules, services)[0] == AllClaims(rules, services)[0];
    }
  }

  // ----- One false claim more -----

  lemma RestUnique(a: seq<Service>, x: Service, b: seq<Service>)
    requires UniqueNames(a + ([x] + b))
    ensures UniqueNames(a + b) && (forall s :: s in a + b ==> s in a + ([x] + b)) && x in a + ([x] + b)
  {
    var all, rest := a + ([x] + b), a + b;
    assert all[|a|] == x;
    forall s | s in rest
      ensures s in all
    {
      var i :| 0 <= i < |rest| && rest[i] == s;
      assert all[if i < |a| then i else i + 1] == s;
    }
  }

  lemma CheckedIsVerified(rules: Rules, services: seq<Service>, owned: Claim -> bool, s: Service, owner: Owner)
    requires Checked(rules, services, s) && OwnerClaim(s, rules.operator) == Some(owner) && owned((s, owner))
    ensures Key(s) in Verify(Claims(rules, services), owned)
  {
    var i :| 0 <= i < |Claims(rules, services)| && Claims(rules, services)[i].0 == s;
    assert Claims(rules, services)[i] == AllClaims(rules, services)[i];
    ClaimIsTheFirst(rules, RankedFn(rules, services, {}), i);
    assert AllClaims(rules, services)[i] == (s, owner);
    VerifiedBy(Claims(rules, services), owned, Key(s));
  }

  /** A verified pick has a claim that holds. */
  lemma VerifiedPickClaims(rules: Rules, services: seq<Service>, owned: Claim -> bool, pick: Candidate) returns (owner: Owner)
    requires Valid(rules) && UniqueNames(services) && Best(rules, services, owned) == Some(pick) && pick.trusted
    ensures pick.service in services && IsMain(rules, pick) && rules.classify(pick.service) == Some(pick.found)
    ensures OwnerClaim(pick.service, rules.operator) == Some(owner) && owned((pick.service, owner))
  {
    var verified := Verify(Claims(rules, services), owned);
    FirstMainIn(rules, RankedFn(rules, services, verified));
    InRanked(rules, services, verified, pick);
    var i := VerifiedClaim(rules, services, MAX_VERIFIED, owned, pick.service);
    ClaimIsTheFirst(rules, RankedFn(rules, services, {}), i);
    owner := AllClaims(rules, services)[i].1;
    assert AllClaims(rules, services)[i] == (pick.service, owner);
  }

  /** While its claim is checked, the pick stays. */
  lemma {:induction false} CheckedPickStays(rules: Rules, a: seq<Service>, x: Service, b: seq<Service>, owned: Claim -> bool, pick: Candidate)
    requires Valid(rules) && UniqueNames(a + ([x] + b)) && FalseClaim(rules, x, owned) && rules.classify(x).Some?
    requires Best(rules, a + b, owned) == Some(pick) && pick.trusted && Checked(rules, a + ([x] + b), pick.service)
    ensures Detect(rules, a + ([x] + b), owned).main == Some(pick.found)
  {
    var all, rest := a + ([x] + b), a + b;
    var verified := Verify(Claims(rules, all), owned);
    RestUnique(a, x, b);
    var owner := VerifiedPickClaims(rules, rest, owned, pick);
    CheckedIsVerified(rules, all, owned, pick.service, owner);
    var m := VerifiedWithFalseClaim(rules, a, x, b, owned);
    FewerVerified(rules, rest, m, MAX_VERIFIED, owned);
    assert rules.classify(pick.service).value.name == OrEmpty(pick.service.name);
    assert CandidateOf(rules, pick.service, verified) == [pick];
    BestWithFewer(rules, rest, Verify(Claims(rules, rest), owned), verified, pick);
    XIsUnverified(rules, all, x, owned);
    UnverifiedChangesLittle(rules, a, x, b, verified);
  }

  /** A service is found where it is. */
  lemma FoundIsOne(rules: Rules, services: seq<Service>, s: Service, t: Service)
    requires Valid(rules) && UniqueNames(services) && s in services && t in services
    requires rules.classify(s).Some? && rules.classify(s) == rules.classify(t)
    ensures s == t
  {
  }

  /** A pick that stays is checked. */
  lemma {:induction false} StayingPickIsChecked(rules: Rules, a: seq<Service>, x: Service, b: seq<Service>, owned: Claim -> bool, pick: Candidate)
    requires Valid(rules) && UniqueNames(a + ([x] + b))
    requires Best(rules, a + b, owned) == Some(pick) && pick.trusted
    requires Detect(rules, a + ([x] + b), owned).main == Some(pick.found)
    ensures Checked(rules, a + ([x] + b), pick.service)
  {
    var all := a + ([x] + b);
    RestUnique(a, x, b);
    var owner := VerifiedPickClaims(rules, a + b, owned, pick);
    var best := Best(rules, all, owned).value;
    var verified := Verify(Claims(rules, all), owned);
    FirstMainIn(rules, RankedFn(rules, all, verified));
    InRanked(rules, all, verified, best);
    FoundIsOne(rules, all, best.service, pick.service);
    BestIsChecked(rules, all, owned, best);
  }

  /** A service that is not found changes nothing. */
  lemma NotFoundChangesNothing(rules: Rules, a: seq<Service>, x: Service, b: seq<Service>, owned: Claim -> bool)
    requires rules.classify(x).None?
    ensures Claims(rules, a + ([x] + b)) == Claims(rules, a + b)
    ensures Detect(rules, a + ([x] + b), owned) == Detect(rules, a + b, owned)
  {
    RankedWithout(rules, a, x, b, {});
    RankedWithout(rules, a, x, b, Verify(Claims(rules, a + b), owned));
  }

  /**
   * A verified pick stays when a service with a false claim joins, if and only if
   * the pick's own claim is still among those checked.
   */
  lemma VerifiedPickStays(rules: Rules, a: seq<Service>, x: Service, b: seq<Service>, owned: Claim -> bool, pick: Candidate)
    requires Valid(rules) && UniqueNames(a + ([x] + b)) && FalseClaim(rules, x, owned)
    requires Best(rules, a + b, owned) == Some(pick) && pick.trusted
    ensures Detect(rules, a + b, owned).main == Some(pick.found)
    ensures Detect(rules, a + ([x] + b), owned).main == Some(pick.found) <==> Checked(rules, a + ([x] + b), pick.service)
  {
    if rules.classify(x).None? {
      NotFoundChangesNothing(rules, a, x, b, owned);
      RestUnique(a, x, b);
      var owner := VerifiedPickClaims(rules, a + b, owned, pick);
      BestIsChecked(rules, a + b, owned, pick);
    } else if Checked(rules, a + ([x] + b), pick.service) {
      CheckedPickStays(rules, a, x, b, owned, pick);
    }
    if Detect(rules, a + ([x] + b), owned).main == Some(pick.found) {
      StayingPickIsChecked(rules, a, x, b, owned, pick);
    }
  }

  // ----- A pick that is displaced -----

  const OWNER := Owner("Prometheus", "g/v1", "o", "u", Some(true))

  function Example(address: nat, name: string): Service { Service(address, Some(name), Some("n"), map[], [OWNER], 0) }

  /** Every named service is of the main kind, found under its name. */
  const RULES := Rules("prometheus", Operator("Prometheus", "g", []), (s: Service) =>
      if s.name.None? then None else Some(Found("prometheus", OrEmpty(s.namespace), s.name.value, 9090)),
    (f: Found) => true)

  const A := Example(0, "a")
  const B := Example(1, "b")
  const C := Example(2, "c")
  const D := Example(3, "d")

  /** Of all claims, the last one holds. */
  const OWNED := (claim: Claim) => claim.0 == D

  lemma ExampleCandidate(s: Service)
    requires s in [A, B, C, D]
    ensures CandidateOf(RULES, s, {}) == [Candidate(Found("prometheus", "n", s.name.value, 9090), s, false)]
    ensures ClaimOf(RULES, CandidateOf(RULES, s, {})[0]) == [(s, OWNER)]
  {
    assert BeforeSlash("g/v1") == "g";
    assert FindOwner([OWNER], RULES.operator) == Some(OWNER);
  }

  /** The candidates of services in the order of their names. */
  lemma {:induction false} ExampleRanked(services: seq<Service>)
    requires forall i :: 0 <= i < |services| ==> services[i] in [A, B, C, D]
    requires forall i, j :: 0 <= i < j < |services| ==> services[i].address < services[j].address
    ensures var r := RankedFn(RULES, services, {});
            |r| == |services| && forall i :: 0 <= i < |r| ==> [r[i]] == CandidateOf(RULES, services[i], {})
  {
    ExampleCandidates(services);
    var all := Candidates(RULES, services, {});
    forall i, j | 0 <= i < j < |all|
      ensures !Less(RULES, all[j], all[i])
    {
      ExampleCandidate(services[i]);
      ExampleCandidate(services[j]);
      ExampleOrder(services[i], services[j]);
    }
    SortSorted(ByRank(RULES), all);
  }

  lemma ExampleOrder(s: Service, t: Service)
    requires s in [A, B, C, D] && t in [A, B, C, D] && s.address < t.address
    ensures !LexLess(t.name.value, s.name.value)
  {
  }

  lemma {:induction false} ExampleCandidates(services: seq<Service>)
    requires forall i :: 0 <= i < |services| ==> services[i] in [A, B, C, D]
    ensures var r := Candidates(RULES, services, {});
            |r| == |services| && forall i :: 0 <= i < |r| ==> [r[i]] == CandidateOf(RULES, services[i], {})
  {
    if services != [] {
      ExampleCandidates(services[..|services| - 1]);
      ExampleCandidate(services[|services| - 1]);
    }
  }

  lemma {:induction false} ExampleClaims(services: seq<Service>, r: seq<Candidate>)
    requires |r| == |services| && forall i :: 0 <= i < |r| ==> services[i] in [A, B, C, D] && [r[i]] == CandidateOf(RULES, services[i], {})
    ensures |ClaimsOf(RULES, r)| == |services| && forall i :: 0 <= i < |services| ==> ClaimsOf(RULES, r)[i] == (services[i], OWNER)
  {
    if r != [] {
      ExampleCandidate(services[0]);
      assert r[0] == CandidateOf(RULES, services[0], {})[0];
      ExampleClaims(services[1..], r[1..]);
    }
  }

  lemma ExampleIsValid()
    ensures Valid(RULES) && UniqueNames([A, B] + ([C] + [D])) && FalseClaim(RULES, C, OWNED)
  {
    ExampleCandidate(C);
  }

  /** Only the true claim verifies. */
  lemma ExampleVerified(services: seq<Service>) returns (verified: Verified)
    requires services == [A, B, D]
    ensures verified == Verify(Claims(RULES, services), OWNED)
    ensures Key(D) in verified && Key(A) !in verified && Key(B) !in verified
  {
    ExampleRanked(services);
    ExampleClaims(services, RankedFn(RULES, services, {}));
    var claims := Claims(RULES, services);
    assert claims[2] == (D, OWNER);
    assert OWNED(claims[2]);
    verified := Verify(claims, OWNED);
    VerifiedBy(claims, OWNED, Key(A));
    VerifiedBy(claims, OWNED, Key(B));
    VerifiedBy(claims, OWNED, Key(D));
  }

  /** A trusted candidate is the best when no other is trusted. */
  lemma OnlyTrustedIsBest(rules: Rules, services: seq<Service>, verified: Verified, pick: Candidate)
    requires Valid(rules) && UniqueNames(services)
    requires pick in RankedFn(rules, services, verified) && IsMain(rules, pick) && pick.trusted
    requires forall c :: c in RankedFn(rules, services, verified) && c.trusted ==> c == pick
    ensures FirstMain(rules, RankedFn(rules, services, verified)) == Some(pick)
  {
    var r := RankedFn(rules, services, verified);
    LessTransitive(rules, pick, pick, pick);
    forall c | c in r && IsMain(rules, c)
      ensures !Less(rules, c, pick)
    {
      if !c.trusted {
        TrustedIsBetter(rules, pick, c);
      }
    }
    RankedIs(rules, services, verified);
    RankedAntisymmetric(rules, services, verified);
    LeastIsFirst(rules, r, pick);
  }

  /** Of three services the one with the true claim is picked. */
  lemma ExamplePick() returns (pick: Candidate)
    ensures Best(RULES, [A, B] + [D], OWNED) == Some(pick) && pick.trusted && pick.service == D
    ensures pick.found == Found("prometheus", "n", "d", 9090)
  {
    var services := [A, B] + [D];
    var verified := ExampleVerified(services);
    pick := CandidateOf(RULES, D, verified)[0];
    InRanked(RULES, services, verified, pick);
    forall c | c in RankedFn(RULES, services, verified) && c.trusted
      ensures c == pick
    {
      InRanked(RULES, services, verified, c);
      assert c.service == A || c.service == B || c.service == D;
    }
    ExampleIsValid();
    RestUnique([A, B], C, [D]);
    OnlyTrustedIsBest(RULES, services, verified, pick);
  }

  /** With one more false claim before it, the true one is not checked. */
  lemma ExampleUnchecked()
    ensures !Checked(RULES, [A, B] + ([C] + [D]), D)
  {
    var services := [A, B] + ([C] + [D]);
    assert services == [A, B, C, D];
    ExampleRanked(services);
    ExampleClaims(services, RankedFn(RULES, services, {}));
  }

  /** A verified pick can be displaced by a service with a false claim. */
  lemma FalseClaimCanDisplace()
    ensures Valid(RULES) && UniqueNames([A, B] + ([C] + [D])) && FalseClaim(RULES, C, OWNED)
    ensures Detect(RULES, [A, B] + [D], OWNED).main == Some(Found("prometheus", "n", "d", 9090))
    ensures Detect(RULES, [A, B] + ([C] + [D]), OWNED).main != Detect(RULES, [A, B] + [D], OWNED).main
  {
    ExampleIsValid();
    var pick := ExamplePick();
    ExampleUnchecked();
    VerifiedPickStays(RULES, [A, B], C, [D], OWNED, pick);
  }
}
