/** Which services of a cluster the integrations would use. */
module Detection {
  import opened Prelude
  import opened Sorting

  datatype Owner = Owner(kind: string, apiVersion: string, name: string, uid: string, controller: Option<bool>)

  /** A service; `address` tells the elements of a list apart. The rest is what classifying reads. */
  datatype Service = Service(address: nat, name: Option<string>, namespace: Option<string>,
                             selector: map<string, string>, owners: seq<Owner>, rest: int)

  datatype Found = Found(kind: string, namespace: string, name: string, port: nat)

  datatype Operator = Operator(kind: string, group: string, instanceLabels: seq<string>)

  /** One integration's rules: the kind of service it reads, its operator, and how services are classified. */
  datatype Rules = Rules(main: string, operator: Operator, classify: Service -> Option<Found>, conventional: Found -> bool)

  const WELL_KNOWN_NAMESPACES := {"logging", "elastic-system", "monitoring", "observability"}
  const MAX_VERIFIED := 3

  function OrEmpty(s: Option<string>): string { if s.Some? then s.value else "" }

  /** A service is found under its own name and namespace. */
  ghost predicate Valid(rules: Rules) {
    forall s: Service :: rules.classify(s).Some? ==>
      Some(rules.classify(s).value.name) == s.name && rules.classify(s).value.namespace == OrEmpty(s.namespace)
  }

  /** The verified services of an integration, by namespace and name. */
  type Verified = set<(string, string)>

  datatype Candidate = Candidate(found: Found, service: Service, trusted: bool)

  // ----- Ranking -----

  function Bit(b: bool): nat { if b then 1 else 0 }

  predicate IsMain(rules: Rules, c: Candidate) { c.found.kind == rules.main }

  /** Main kind, verified owner, well-known namespace, conventional name: less is better. */
  function Rank(rules: Rules, c: Candidate): nat {
    8 * Bit(!IsMain(rules, c)) + 4 * Bit(!c.trusted)
    + 2 * Bit(c.found.namespace !in WELL_KNOWN_NAMESPACES) + Bit(!rules.conventional(c.found))
  }

  predicate Less(rules: Rules, a: Candidate, b: Candidate) {
    if Rank(rules, a) != Rank(rules, b) then Rank(rules, a) < Rank(rules, b) else
    if a.found.namespace != b.found.namespace then LexLess(a.found.namespace, b.found.namespace) else
    LexLess(a.found.name, b.found.name)
  }

  function ByRank(rules: Rules): (Candidate, Candidate) -> bool { (a, b) => Less(rules, a, b) }

  function CandidateOf(rules: Rules, s: Service, verified: Verified): seq<Candidate> {
    var d := rules.classify(s);
    if d.None? then [] else
    [Candidate(d.value, s, d.value.kind == rules.main && (d.value.namespace, d.value.name) in verified)]
  }

  function Candidates(rules: Rules, services: seq<Service>, verified: Verified): seq<Candidate> {
    if services == [] then [] else
    Candidates(rules, services[..|services| - 1], verified) + CandidateOf(rules, services[|services| - 1], verified)
  }

  /** Candidates, best first. */
  method Ranked(rules: Rules, services: seq<Service>, verified: Verified) returns (found: seq<Candidate>)
    ensures found == RankedFn(rules, services, verified)
  {
    found := [];
    for i := 0 to |services|
      invariant found == Candidates(rules, services[..i], verified)
    {
      assert services[..i + 1][..i] == services[..i];
      var d := rules.classify(services[i]);
      if d.Some? {
        var trusted := d.value.kind == rules.main && (d.value.namespace, d.value.name) in verified;
        found := found + [Candidate(d.value, services[i], trusted)];
      }
    }
    assert services[..|services|] == services;
    found := Sort(ByRank(rules), found);
  }

  function RankedFn(rules: Rules, services: seq<Service>, verified: Verified): seq<Candidate> {
    Sort(ByRank(rules), Candidates(rules, services, verified))
  }

  // ----- Claims and picks -----

  function BeforeSlash(s: string): string { if s == "" || s[0] == '/' then "" else [s[0]] + BeforeSlash(s[1..]) }

  function FindOwner(owners: seq<Owner>, operator: Operator): Option<Owner> {
    if owners == [] then None else
    if owners[0].kind == operator.kind && BeforeSlash(owners[0].apiVersion) == operator.group then Some(owners[0]) else
    FindOwner(owners[1..], operator)
  }

  function OwnerClaim(s: Service, operator: Operator): Option<Owner> { FindOwner(s.owners, operator) }

  predicate SelectsInstance(operator: Operator, s: Service, owner: string) {
    exists i :: 0 <= i < |operator.instanceLabels| && operator.instanceLabels[i] in s.selector && s.selector[operator.instanceLabels[i]] == owner
  }

  type Claim = (Service, Owner)

  /** The owner that a main-kind candidate claims, if any. */
  function ClaimOf(rules: Rules, c: Candidate): seq<Claim> {
    var owner := OwnerClaim(c.service, rules.operator);
    if IsMain(rules, c) && owner.Some? then [(c.service, owner.value)] else []
  }

  /** Main-kind candidates that claim an owner, in their order. */
  function ClaimsOf(rules: Rules, found: seq<Candidate>): seq<Claim> {
    if found == [] then [] else ClaimOf(rules, found[0]) + ClaimsOf(rules, found[1..])
  }

  function Take<T>(s: seq<T>, n: nat): seq<T> { if |s| <= n then s else s[..n] }

  /** The owners worth checking. */
  function Claims(rules: Rules, services: seq<Service>): seq<Claim> {
    Take(ClaimsOf(rules, RankedFn(rules, services, {})), MAX_VERIFIED)
  }

  function FirstMain(rules: Rules, found: seq<Candidate>): Option<Candidate> {
    if found == [] then None else if IsMain(rules, found[0]) then Some(found[0]) else FirstMain(rules, found[1..])
  }

  function FirstWebUi(rules: Rules, found: seq<Candidate>, namespace: string): Option<Candidate> {
    if found == [] then None else
    if !IsMain(rules, found[0]) && found[0].found.namespace == namespace then Some(found[0]) else FirstWebUi(rules, found[1..], namespace)
  }

  /** The owner that the best candidate is controlled by and whose instance it selects. */
  function TrustedOwner(rules: Rules, best: Candidate): Option<string> {
    var claim := OwnerClaim(best.service, rules.operator);
    if claim.Some? && best.trusted && claim.value.controller == Some(true) && SelectsInstance(rules.operator, best.service, claim.value.name)
    then Some(claim.value.name) else None
  }

  /** Every other main candidate is a service of the same instance in the same namespace. */
  predicate SameInstance(rules: Rules, found: seq<Candidate>, best: Candidate, owner: string) {
    forall i :: 0 <= i < |found| && IsMain(rules, found[i]) && found[i].service.address != best.service.address ==>
      found[i].service.namespace == Some(best.found.namespace) && SelectsInstance(rules.operator, found[i].service, owner)
  }

  predicate OneClick(rules: Rules, found: seq<Candidate>) {
    var best := FirstMain(rules, found);
    best.Some? &&
    var owner := TrustedOwner(rules, best.value);
    owner.Some? && SameInstance(rules, found, best.value, owner.value)
  }

  datatype Picked = Picked(main: Option<Found>, webUi: Option<Found>, oneClick: bool, all: seq<Found>)

  function FoundOf(c: Option<Candidate>): Option<Found> { if c.None? then None else Some(c.value.found) }

  function AllFound(found: seq<Candidate>): seq<Found> { seq(|found|, i requires 0 <= i < |found| => found[i].found) }

  function PickFrom(rules: Rules, found: seq<Candidate>): Picked {
    var best := FirstMain(rules, found);
    Picked(FoundOf(best),
           if best.None? then None else FoundOf(FirstWebUi(rules, found, best.value.found.namespace)),
           OneClick(rules, found), AllFound(found))
  }

  function Pick(rules: Rules, services: seq<Service>, verified: Verified): Picked {
    PickFrom(rules, RankedFn(rules, services, verified))
  }

  // ----- Detecting -----

  /** The claims whose owner exists, as the API server answers. */
  function Verify(claims: seq<Claim>, owned: Claim -> bool): Verified {
    if claims == [] then {} else
    Verify(claims[..|claims| - 1], owned)
    + (if owned(claims[|claims| - 1]) then {(OrEmpty(claims[|claims| - 1].0.namespace), OrEmpty(claims[|claims| - 1].0.name))} else {})
  }

  method CheckClaims(claims: seq<Claim>, owned: Claim -> bool) returns (verified: Verified)
    ensures verified == Verify(claims, owned)
  {
    verified := {};
    for i := 0 to |claims|
      invariant verified == Verify(claims[..i], owned)
    {
      assert claims[..i + 1][..i] == claims[..i];
      if owned(claims[i]) {
        verified := verified + {(OrEmpty(claims[i].0.namespace), OrEmpty(claims[i].0.name))};
      }
    }
    assert claims[..|claims|] == claims;
  }

  function Detect(rules: Rules, services: seq<Service>, owned: Claim -> bool): Picked {
    Pick(rules, services, Verify(Claims(rules, services), owned))
  }
}
