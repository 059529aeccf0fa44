module DetectionClaims {
  // Detection as a whole: only the best few claims are checked, and a service
  // whose claim is false may take the place of a true one among them. It still
  // cannot turn one-click on.

  import opened Prelude
  import opened Sorting
  import opened Detection
  import opened DetectionFacts

  function Key(s: Service): (string, string) { (OrEmpty(s.namespace), OrEmpty(s.name)) }

  lemma Associates<T>(a: seq<T>, b: seq<T>, c: seq<T>)
    ensures a + (b + c) == (a + b) + c
  {
  }

  lemma {:induction false} ClaimsJoin(rules: Rules, p: seq<Candidate>, q: seq<Candidate>)
    ensures ClaimsOf(rules, p + q) == ClaimsOf(rules, p) + ClaimsOf(rules, q)
  {
    if p == [] {
      assert p + q == q;
    } else {
      ClaimsJoin(rules, p[1..], q);
      assert (p + q)[0] == p[0] && (p + q)[1..] == p[1..] + q;
      Associates(ClaimOf(rules, p[0]), ClaimsOf(rules, p[1..]), ClaimsOf(rules, q));
    }
  }

  lemma {:induction false} VerifyJoins(p: seq<Claim>, q: seq<Claim>, owned: Claim -> bool)
    ensures Verify(p + q, owned) == Verify(p, owned) + Verify(q, owned)
    decreases |q|
  {
    if q == [] {
      assert p + q == p;
    } else {
      VerifyJoins(p, q[..|q| - 1], owned);
      assert (p + q)[..|p + q| - 1] == p + q[..|q| - 1];
    }
  }

  lemma {:induction false} VerifiedBy(claims: seq<Claim>, owned: Claim -> bool, key: (string, string))
    ensures key in Verify(claims, owned) <==> exists i :: 0 <= i < |claims| && owned(claims[i]) && Key(claims[i].0) == key
    decreases |claims|
  {
    if claims != [] {
      var n := |claims| - 1;
      VerifiedBy(claims[..n], owned, key);
      if key in Verify(claims[..n], owned) {
        var i :| 0 <= i < n && owned(claims[..n][i]) && Key(claims[..n][i].0) == key;
        assert owned(claims[i]);
      }
      if exists i :: 0 <= i < |claims| && owned(claims[i]) && Key(claims[i].0) == key {
        var i :| 0 <= i < |claims| && owned(claims[i]) && Key(claims[i].0) == key;
        if i < n {
          assert owned(claims[..n][i]);
        }
      }
    }
  }

  /** With one false claim more, what is verified is what checking as many or one fewer would give. */
  lemma FalseClaimTakesAPlace(u: seq<Claim>, x: seq<Claim>, v: seq<Claim>, owned: Claim -> bool, n: nat)
    requires |x| <= 1 && (x != [] ==> !owned(x[0])) && n > 0
    ensures Verify(Take(u + (x + v), n), owned) == Verify(Take(u + v, if x != [] && |u| < n then n - 1 else n), owned)
  {
    if x == [] {
      assert x + v == v;
    } else if |u| >= n {
      assert Take(u + (x + v), n) == u[..n] && Take(u + v, n) == u[..n];
    } else {
      var rest := Take(v, n - 1 - |u|);
      assert Take(u + (x + v), n) == u + (x + rest);
      assert Take(u + v, n - 1) == u + rest;
      VerifyJoins(u, x + rest, owned);
      VerifyJoins(x, rest, owned);
      VerifyJoins(u, rest, owned);
      assert x[..0] == [] && Verify(x, owned) == {};
    }
  }

  // ----- Checking more claims -----

  /** Main candidates sort first, the best of them in front. */
  lemma FirstMainLeast(rules: Rules, r: seq<Candidate>, c: Candidate)
    requires Sorted(ByRank(rules), r) && c in r && IsMain(rules, c)
    ensures FirstMain(rules, r).Some? && !Less(rules, c, FirstMain(rules, r).value)
  {
    LessTransitive(rules, c, c, c);
    var j :| 0 <= j < |r| && r[j] == c;
    assert j > 0 ==> !Less(rules, r[j], r[0]);
  }

  lemma {:induction false} LeastIsFirst(rules: Rules, r: seq<Candidate>, b: Candidate)
    requires Sorted(ByRank(rules), r) && Antisymmetric(ByRank(rules), r) && b in r && IsMain(rules, b)
    requires forall c :: c in r && IsMain(rules, c) ==> !Less(rules, c, b)
    ensures FirstMain(rules, r) == Some(b)
  {
    FirstMainLeast(rules, r, b);
    FirstMainIn(rules, r);
  }

  ghost predicate InOrder(rules: Rules, s: Service, t: Service) {
    && rules.classify(s).Some? && rules.classify(t).Some?
    && !Less(rules, CandidateOf(rules, t, {})[0], CandidateOf(rules, s, {})[0])
  }

  /** Where a claim comes from. */
  lemma {:induction false} ClaimFrom(rules: Rules, r: seq<Candidate>, j: nat) returns (q: nat)
    requires j < |ClaimsOf(rules, r)|
    ensures q < |r| && r[q].service == ClaimsOf(rules, r)[j].0
  {
    var head := ClaimOf(rules, r[0]);
    assert ClaimsOf(rules, r) == head + ClaimsOf(rules, r[1..]);
    if j < |head| {
      q := 0;
    } else {
      q := ClaimFrom(rules, r[1..], j - |head|);
      q := q + 1;
    }
  }

  /** Claims keep the order of the candidates. */
  lemma {:induction false} ClaimsFrom(rules: Rules, r: seq<Candidate>, i: nat, j: nat) returns (p: nat, q: nat)
    requires i < j < |ClaimsOf(rules, r)|
    ensures p < q < |r| && r[p].service == ClaimsOf(rules, r)[i].0 && r[q].service == ClaimsOf(rules, r)[j].0
  {
    var head := ClaimOf(rules, r[0]);
    assert ClaimsOf(rules, r) == head + ClaimsOf(rules, r[1..]);
    if i < |head| {
      p := 0;
      q := ClaimFrom(rules, r[1..], j - |head|);
    } else {
      p, q := ClaimsFrom(rules, r[1..], i - |head|, j - |head|);
      p := p + 1;
    }
    q := q + 1;
  }

  /** All claims of a list of services. */
  function AllClaims(rules: Rules, services: seq<Service>): seq<Claim> { ClaimsOf(rules, RankedFn(rules, services, {})) }

  lemma ClaimIsListed(rules: Rules, services: seq<Service>, j: nat)
    requires j < |AllClaims(rules, services)|
    ensures AllClaims(rules, services)[j].0 in services && rules.classify(AllClaims(rules, services)[j].0).Some?
  {
    var r := RankedFn(rules, services, {});
    var q := ClaimFrom(rules, r, j);
    InRanked(rules, services, {}, r[q]);
  }

  lemma ClaimsRank(rules: Rules, services: seq<Service>, i: nat, j: nat)
    requires i < j < |AllClaims(rules, services)|
    ensures InOrder(rules, AllClaims(rules, services)[i].0, AllClaims(rules, services)[j].0)
  {
    var r := RankedFn(rules, services, {});
    RankedIs(rules, services, {});
    var p, q := ClaimsFrom(rules, r, i, j);
    InRanked(rules, services, {}, r[p]);
    InRanked(rules, services, {}, r[q]);
    assert !Less(rules, r[q], r[p]);
  }

  /** A found service whose key is verified made one of the claims checked. */
  lemma VerifiedClaim(rules: Rules, services: seq<Service>, n: nat, owned: Claim -> bool, s: Service) returns (i: nat)
    requires Valid(rules) && UniqueNames(services) && s in services && rules.classify(s).Some?
    requires Key(s) in Verify(Take(AllClaims(rules, services), n), owned)
    ensures i < |AllClaims(rules, services)| && i < n && AllClaims(rules, services)[i].0 == s && owned(AllClaims(rules, services)[i])
  {
    var claims := Take(AllClaims(rules, services), n);
    VerifiedBy(claims, owned, Key(s));
    i :| 0 <= i < |claims| && owned(claims[i]) && Key(claims[i].0) == Key(s);
    ClaimIsListed(rules, services, i);
    assert rules.classify(claims[i].0).Some?;
  }

  lemma ClaimVerifies(rules: Rules, services: seq<Service>, n: nat, owned: Claim -> bool, i: nat)
    requires i < |AllClaims(rules, services)| && i < n && owned(AllClaims(rules, services)[i])
    ensures Key(AllClaims(rules, services)[i].0) in Verify(Take(AllClaims(rules, services), n), owned)
  {
    var claims := Take(AllClaims(rules, services), n);
    VerifiedBy(claims, owned, Key(AllClaims(rules, services)[i].0));
    assert owned(claims[i]) && Key(claims[i].0) == Key(AllClaims(rules, services)[i].0);
  }

  /** Two trusted candidates compare as the same services do unverified. */
  lemma TrustCancels(rules: Rules, s: Service, t: Service, verified: Verified)
    requires IsMainService(rules, s) && IsMainService(rules, t)
    requires CandidateOf(rules, s, verified)[0].trusted && CandidateOf(rules, t, verified)[0].trusted && InOrder(rules, s, t)
    ensures !Less(rules, CandidateOf(rules, t, verified)[0], CandidateOf(rules, s, verified)[0])
  {
  }

  function VerifiedBest(rules: Rules, services: seq<Service>, n: nat, owned: Claim -> bool): Verified {
    Verify(Take(AllClaims(rules, services), n), owned)
  }

  /** A service verified by the first `m` claims ranks before any main one that is not. */
  lemma VerifiedStaysBest(rules: Rules, services: seq<Service>, m: nat, n: nat, owned: Claim -> bool, b: Candidate, c: Candidate)
    requires Valid(rules) && UniqueNames(services) && m <= n
    requires FirstMain(rules, RankedFn(rules, services, VerifiedBest(rules, services, m, owned))) == Some(b) && b.trusted
    requires c in RankedFn(rules, services, VerifiedBest(rules, services, n, owned)) && IsMain(rules, c)
    ensures b in RankedFn(rules, services, VerifiedBest(rules, services, n, owned)) && !Less(rules, c, b)
  {
    var few, many := VerifiedBest(rules, services, m, owned), VerifiedBest(rules, services, n, owned);
    var r := RankedFn(rules, services, few);
    FirstMainIn(rules, r);
    InRanked(rules, services, few, b);
    var i := VerifiedClaim(rules, services, m, owned, b.service);
    ClaimVerifies(rules, services, n, owned, i);
    assert CandidateOf(rules, b.service, many) == [b];
    InRanked(rules, services, many, b);
    InRanked(rules, services, many, c);
    if c.trusted {
      var j := VerifiedClaim(rules, services, n, owned, c.service);
      if j < m {
        ClaimVerifies(rules, services, m, owned, j);
        assert CandidateOf(rules, c.service, few) == [c];
        InRanked(rules, services, few, c);
        RankedIs(rules, services, few);
        FirstMainLeast(rules, r, c);
      } else {
        ClaimsRank(rules, services, i, j);
        TrustCancels(rules, b.service, c.service, many);
      }
    }
  }

  /** Checking more claims keeps the best candidate. */
  lemma MoreClaimsKeepBest(rules: Rules, services: seq<Service>, m: nat, n: nat, owned: Claim -> bool, b: Candidate)
    requires Valid(rules) && UniqueNames(services) && m <= n
    requires FirstMain(rules, RankedFn(rules, services, VerifiedBest(rules, services, m, owned))) == Some(b) && b.trusted
    ensures FirstMain(rules, RankedFn(rules, services, VerifiedBest(rules, services, n, owned))) == Some(b)
  {
    var few, many := VerifiedBest(rules, services, m, owned), VerifiedBest(rules, services, n, owned);
    var more := RankedFn(rules, services, many);
    FirstMainIn(rules, RankedFn(rules, services, few));
    InRanked(rules, services, few, b);
    forall c | c in more && IsMain(rules, c)
      ensures b in more && !Less(rules, c, b)
    {
      VerifiedStaysBest(rules, services, m, n, owned, b, c);
    }
    InRanked(rules, services, many, CandidateOf(rules, b.service, many)[0]);
    RankedIs(rules, services, many);
    RankedAntisymmetric(rules, services, many);
    LeastIsFirst(rules, more, b);
  }

  /** The other main services are the same whatever is verified. */
  lemma SameInstanceStays(rules: Rules, services: seq<Service>, few: Verified, many: Verified, b: Candidate, owner: string)
    requires SameInstance(rules, RankedFn(rules, services, few), b, owner)
    ensures SameInstance(rules, RankedFn(rules, services, many), b, owner)
  {
    var r, more := RankedFn(rules, services, few), RankedFn(rules, services, many);
    forall i | 0 <= i < |more| && IsMain(rules, more[i]) && more[i].service.address != b.service.address
      ensures more[i].service.namespace == Some(b.found.namespace) && SelectsInstance(rules.operator, more[i].service, owner)
    {
      AlsoRanked(rules, services, many, few, more[i], r);
    }
  }

  /** Checking more claims keeps one-click on. */
  lemma MoreClaimsKeepOneClick(rules: Rules, services: seq<Service>, m: nat, n: nat, owned: Claim -> bool)
    requires Valid(rules) && UniqueNames(services) && m <= n
    requires Pick(rules, services, VerifiedBest(rules, services, m, owned)).oneClick
    ensures Pick(rules, services, VerifiedBest(rules, services, n, owned)).oneClick
  {
    var few, many := VerifiedBest(rules, services, m, owned), VerifiedBest(rules, services, n, owned);
    var b := FirstMain(rules, RankedFn(rules, services, few)).value;
    MoreClaimsKeepBest(rules, services, m, n, owned, b);
    SameInstanceStays(rules, services, few, many, b, TrustedOwner(rules, b).value);
  }

  /** A main candidate is one whatever is verified. */
  lemma AlsoRanked(rules: Rules, services: seq<Service>, verified: Verified, other: Verified, c: Candidate, r: seq<Candidate>)
    requires c in RankedFn(rules, services, verified) && IsMain(rules, c) && r == RankedFn(rules, services, other)
    ensures exists k :: 0 <= k < |r| && IsMain(rules, r[k]) && r[k].service == c.service
  {
    InRanked(rules, services, verified, c);
    var d := CandidateOf(rules, c.service, other)[0];
    InRanked(rules, services, other, d);
    var k :| 0 <= k < |r| && r[k] == d;
    assert IsMain(rules, r[k]) && r[k].service == c.service;
  }

  // ----- The whole detection -----

  predicate FalseClaim(rules: Rules, x: Service, owned: Claim -> bool) {
    var owner := OwnerClaim(x, rules.operator);
    owner.Some? ==> !owned((x, owner.value))
  }

  /** What is verified with `x` there is what checking some of the others' claims gives. */
  lemma VerifiedWithFalseClaim(rules: Rules, a: seq<Service>, x: Service, b: seq<Service>, owned: Claim -> bool) returns (m: nat)
    requires rules.classify(x).Some? && FalseClaim(rules, x, owned)
    ensures m <= MAX_VERIFIED
    ensures Verify(Claims(rules, a + ([x] + b)), owned) == VerifiedBest(rules, a + b, m, owned)
  {
    var u, v := RankedAround(rules, a, x, b, {});
    var c := CandidateOf(rules, x, {})[0];
    var cu, cx, cv := ClaimsOf(rules, u), ClaimsOf(rules, [c]), ClaimsOf(rules, v);
    ClaimsJoin(rules, u, v);
    ClaimsJoin(rules, u, [c] + v);
    ClaimsJoin(rules, [c], v);
    assert [c][1..] == [] && cx == ClaimOf(rules, c) + [];
    FalseClaimTakesAPlace(cu, cx, cv, owned, MAX_VERIFIED);
    m := if cx != [] && |cu| < MAX_VERIFIED then MAX_VERIFIED - 1 else MAX_VERIFIED;
  }

  /**
   * A service whose owner does not exist never turns one-click on, even when its
   * claim takes the place of a true one among those checked.
   */
  lemma {:induction false} FalseClaimNeverTurnsOneClickOn(rules: Rules, a: seq<Service>, x: Service, b: seq<Service>, owned: Claim -> bool)
    requires Valid(rules) && UniqueNames(a + ([x] + b)) && x !in a + b && FalseClaim(rules, x, owned)
    requires Detect(rules, a + ([x] + b), owned).oneClick
    ensures Detect(rules, a + b, owned).oneClick
  {
    var all, rest := a + ([x] + b), a + b;
    var verified := Verify(Claims(rules, all), owned);
    assert all[|a|] == x;
    forall s | s in rest
      ensures s in all
    {
      var i :| 0 <= i < |rest| && rest[i] == s;
      assert all[if i < |a| then i else i + 1] == s;
    }
    if rules.classify(x).None? {
      RankedWithout(rules, a, x, b, {});
      RankedWithout(rules, a, x, b, verified);
    } else {
      XIsUnverified(rules, all, x, owned);
      UnverifiedChangesLittle(rules, a, x, b, verified);
      var m := VerifiedWithFalseClaim(rules, a, x, b, owned);
      MoreClaimsKeepOneClick(rules, rest, m, MAX_VERIFIED, owned);
    }
  }

  lemma XIsUnverified(rules: Rules, all: seq<Service>, x: Service, owned: Claim -> bool)
    requires Valid(rules) && UniqueNames(all) && x in all && rules.classify(x).Some? && FalseClaim(rules, x, owned)
    ensures Unverified(rules, x, Verify(Claims(rules, all), owned))
  {
    if Key(x) in Verify(Claims(rules, all), owned) {
      var i := VerifiedClaim(rules, all, MAX_VERIFIED, owned, x);
      ClaimIsTheFirst(rules, RankedFn(rules, all, {}), i);
    }
  }

  lemma {:induction false} ClaimIsTheFirst(rules: Rules, r: seq<Candidate>, j: nat)
    requires j < |ClaimsOf(rules, r)|
    ensures OwnerClaim(ClaimsOf(rules, r)[j].0, rules.operator) == Some(ClaimsOf(rules, r)[j].1)
  {
    var head := ClaimOf(rules, r[0]);
    assert ClaimsOf(rules, r) == head + ClaimsOf(rules, r[1..]);
    if j >= |head| {
      ClaimIsTheFirst(rules, r[1..], j - |head|);
    }
  }
}
