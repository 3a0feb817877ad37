/** Registry and consent policy engine (sentrylink/governance/registry.py, sentrylink/governance/policy.py). */
module Policy {
  import opened Foundations
  import opened Sums
  import Sorting

  datatype Organization = Organization(orgId: OrgId, name: string, domain: string, sectorGroup: string, active: bool)

  datatype ConsentPolicy = ConsentPolicy(allowedMetrics: set<string>, minParticipants: int, maxEpsilonPerQuery: real)

  const MIN_PARTICIPANTS: int := 3
  const DEFAULT_CAP: real := 25.0

  function AllowedMetrics(): set<string> {
    {"histogram", "variance", "correlation", "federated_model_round"}
  }

  function DefaultPolicy(): ConsentPolicy {
    ConsentPolicy(AllowedMetrics(), MIN_PARTICIPANTS, DEFAULT_CAP)
  }

  /** The policy an organization starts with; only healthcare differs from the default vertical. */
  function DefaultPolicyFor(org: Organization): ConsentPolicy {
    if org.domain == "healthcare" then ConsentPolicy({"histogram", "correlation", "federated_model_round"}, 4, 10.0)
    else DefaultPolicy()
  }

  datatype QueryRequest = QueryRequest(metric: string, sectorGroup: string, domain: string, epsilon: real, delta: real)

  datatype Code =
    | QueryNotAllowed
    | InvalidData
    | SectorMismatch
    | DomainMismatch
    | EpsilonTooHigh
    | HealthcareEpsilonTooHigh
    | ConsentRequired
    | CohortTooSmall
    | HealthcareCohortTooSmall

  datatype Snapshot = Snapshot(floorRequired: int, candidates: nat, epsilonCapMin: Option<real>)

  datatype Decision = Decision(code: Option<Code>, participants: seq<OrgId>, snapshot: Snapshot)

  /** A decision, or the exception raised instead of one. */
  type Answer = Result<Decision, Error>

  predicate Allowed(a: Answer) {
    a.Ok? && a.value.code.None?
  }

  function CodeOf(a: Answer): Option<Code> {
    if a.Ok? then a.value.code else None
  }

  /** Every decision carries the request's budget, and a budget with a negative component cannot be built. */
  predicate NegativeBudget(req: QueryRequest) {
    req.epsilon < 0.0 || req.delta < 0.0
  }

  function WithBudget(req: QueryRequest, d: Decision): Answer {
    if NegativeBudget(req) then Err(ValueError) else Ok(d)
  }

  function PolicyOf(policies: map<OrgId, ConsentPolicy>, id: OrgId): ConsentPolicy {
    if id in policies then policies[id] else DefaultPolicy()
  }

  // ---- what the loops select ----

  predicate InCohort(org: Organization, sectorGroup: string, domain: Option<string>) {
    org.active && org.sectorGroup == sectorGroup && (domain.Some? ==> org.domain == domain.value)
  }

  function Cohort(orgs: seq<Organization>, sectorGroup: string, domain: Option<string>): (r: seq<Organization>)
    ensures forall o :: o in r <==> o in orgs && InCohort(o, sectorGroup, domain)
  {
    if orgs == [] then []
    else
      var rest := Cohort(orgs[..|orgs| - 1], sectorGroup, domain);
      if InCohort(orgs[|orgs| - 1], sectorGroup, domain) then rest + [orgs[|orgs| - 1]] else rest
  }

  predicate MetricAllowed(policies: map<OrgId, ConsentPolicy>, req: QueryRequest, id: OrgId) {
    req.metric in PolicyOf(policies, id).allowedMetrics
  }

  predicate CapAdmits(policies: map<OrgId, ConsentPolicy>, req: QueryRequest, id: OrgId) {
    req.epsilon <= PolicyOf(policies, id).maxEpsilonPerQuery
  }

  predicate Consents(policies: map<OrgId, ConsentPolicy>, req: QueryRequest, id: OrgId) {
    MetricAllowed(policies, req, id) && CapAdmits(policies, req, id)
  }

  /** Ids of the candidates that consent, in candidate order. */
  function Consenting(candidates: seq<Organization>, policies: map<OrgId, ConsentPolicy>, req: QueryRequest)
    : (r: seq<OrgId>)
    ensures forall id :: id in r <==> Consents(policies, req, id) && exists o :: o in candidates && o.orgId == id
  {
    if candidates == [] then []
    else
      var rest := Consenting(candidates[..|candidates| - 1], policies, req);
      var last := candidates[|candidates| - 1];
      assert forall o :: o in candidates <==> o in candidates[..|candidates| - 1] || o == last;
      if Consents(policies, req, last.orgId) then rest + [last.orgId] else rest
  }

  /** 1 for a candidate that allows the metric but caps epsilon below the request. */
  function OnlyCapped(policies: map<OrgId, ConsentPolicy>, req: QueryRequest): Organization -> int {
    (o: Organization) => if MetricAllowed(policies, req, o.orgId) && !CapAdmits(policies, req, o.orgId) then 1 else 0
  }

  function CapBlocked(candidates: seq<Organization>, policies: map<OrgId, ConsentPolicy>, req: QueryRequest): int {
    Sum(candidates, OnlyCapped(policies, req))
  }

  function Max(a: int, b: int): int {
    if a < b then b else a
  }

  function Floor(ids: seq<OrgId>, policies: map<OrgId, ConsentPolicy>): int {
    if ids == [] then MIN_PARTICIPANTS
    else Max(Floor(ids[..|ids| - 1], policies), PolicyOf(policies, ids[|ids| - 1]).minParticipants)
  }

  /** The smallest epsilon cap among the given ids; None for none. */
  function CapMin(ids: seq<OrgId>, policies: map<OrgId, ConsentPolicy>): Option<real> {
    if ids == [] then None
    else
      var cap := PolicyOf(policies, ids[|ids| - 1]).maxEpsilonPerQuery;
      match CapMin(ids[..|ids| - 1], policies)
      case None => Some(cap)
      case Some(least) => Some(if cap < least then cap else least)
  }

  function Denied(code: Code, floor: int, candidates: nat, cap: Option<real>): Decision {
    Decision(Some(code), [], Snapshot(floor, candidates, cap))
  }

  /** The order of the checks, on what the loops found. */
  function Judge(req: QueryRequest, candidates: nat, sectorKnown: bool, blocked: int, consenting: nat, floor: int,
                 cap: Option<real>, sorted: seq<OrgId>): Decision {
    var healthcare := req.domain == "healthcare";
    if req.metric !in AllowedMetrics() then Denied(QueryNotAllowed, MIN_PARTICIPANTS, candidates, None)
    else if req.epsilon <= 0.0 || req.delta <= 0.0 || req.delta >= 1.0 then
      Denied(InvalidData, MIN_PARTICIPANTS, candidates, None)
    else if candidates == 0 then
      Denied(if sectorKnown then DomainMismatch else SectorMismatch, MIN_PARTICIPANTS, 0, None)
    else if consenting == 0 then
      Denied(if blocked != candidates then ConsentRequired
             else if healthcare then HealthcareEpsilonTooHigh else EpsilonTooHigh, MIN_PARTICIPANTS, candidates, None)
    else if consenting < floor then
      Denied(if healthcare && floor >= 4 then HealthcareCohortTooSmall else CohortTooSmall, floor, candidates, cap)
    else Decision(None, sorted, Snapshot(floor, candidates, cap))
  }

  /** The decision on a registry in the given order. */
  function Ruling(orgs: seq<Organization>, policies: map<OrgId, ConsentPolicy>, req: QueryRequest): Decision {
    var candidates := Cohort(orgs, req.sectorGroup, Some(req.domain));
    var ids := Consenting(candidates, policies, req);
    Judge(req, |candidates|, |Cohort(orgs, req.sectorGroup, None)| > 0, CapBlocked(candidates, policies, req), |ids|,
          Floor(ids, policies), CapMin(ids, policies), Sorting.Sorted(ids))
  }

  /** What the engine answers: the ruling, unless its budget cannot be built. */
  function Decide(orgs: seq<Organization>, policies: map<OrgId, ConsentPolicy>, req: QueryRequest): Answer {
    WithBudget(req, Ruling(orgs, policies, req))
  }

  class PolicyEngine {
    var orgs: seq<Organization>
    var policies: map<OrgId, ConsentPolicy>

    constructor (orgs: seq<Organization>, policies: map<OrgId, ConsentPolicy>)
      ensures this.orgs == orgs && this.policies == policies
    {
      this.orgs, this.policies := orgs, policies;
    }

    method SetPolicy(orgId: OrgId, policy: ConsentPolicy) returns (r: Result<(), Error>)
      modifies this`policies
      ensures r == if exists o :: o in orgs && o.orgId == orgId then Ok(()) else Err(KeyError)
      ensures policies == if r.Ok? then old(policies)[orgId := policy] else old(policies)
    {
      if !exists o :: o in orgs && o.orgId == orgId {
        return Err(KeyError);
      }
      policies := policies[orgId := policy];
      return Ok(());
    }

    /** Active organizations of the sector group, and of the domain when one is given. */
    method CohortOf(sectorGroup: string, domain: Option<string>) returns (r: seq<Organization>)
      ensures r == Cohort(orgs, sectorGroup, domain)
      ensures forall o :: o in r <==> o in orgs && o.active && o.sectorGroup == sectorGroup
                                      && (domain.None? || o.domain == domain.value)
    {
      r := [];
      for k := 0 to |orgs|
        invariant r == Cohort(orgs[..k], sectorGroup, domain)
      {
        assert orgs[..k + 1][..k] == orgs[..k];
        var org := orgs[k];
        if !org.active || org.sectorGroup != sectorGroup {
          continue;
        }
        if domain.Some? && org.domain != domain.value {
          continue;
        }
        r := r + [org];
      }
      assert orgs[..|orgs|] == orgs;
    }

    /** One pass over the candidates: who participates, and how many only the epsilon cap keeps out. */
    method Select(candidates: seq<Organization>, req: QueryRequest)
      returns (participants: seq<OrgId>, epsilonBlocked: int)
      ensures participants == Consenting(candidates, policies, req)
      ensures epsilonBlocked == CapBlocked(candidates, policies, req)
    {
      participants, epsilonBlocked := [], 0;
      for k := 0 to |candidates|
        invariant participants == Consenting(candidates[..k], policies, req)
        invariant epsilonBlocked == CapBlocked(candidates[..k], policies, req)
      {
        assert candidates[..k + 1][..k] == candidates[..k];
        var policy := PolicyOf(policies, candidates[k].orgId);
        if req.metric !in policy.allowedMetrics {
          continue;
        }
        if req.epsilon > policy.maxEpsilonPerQuery {
          epsilonBlocked := epsilonBlocked + 1;
          continue;
        }
        participants := participants + [candidates[k].orgId];
      }
      assert candidates[..|candidates|] == candidates;
    }

    /** The global minimum, raised to the strictest floor among the participants. */
    method RequiredFloor(participants: seq<OrgId>) returns (required: int)
      ensures required == Floor(participants, policies)
    {
      required := MIN_PARTICIPANTS;
      for k := 0 to |participants|
        invariant required == Floor(participants[..k], policies)
      {
        assert participants[..k + 1][..k] == participants[..k];
        required := Max(required, PolicyOf(policies, participants[k]).minParticipants);
      }
      assert participants[..|participants|] == participants;
    }

    method Evaluate(req: QueryRequest) returns (a: Answer)
      ensures a == Decide(orgs, policies, req)
    {
      var candidates := CohortOf(req.sectorGroup, Some(req.domain));
      if req.metric !in AllowedMetrics() {
        return WithBudget(req, Denied(QueryNotAllowed, MIN_PARTICIPANTS, |candidates|, None));
      }
      if req.epsilon <= 0.0 {
        return WithBudget(req, Denied(InvalidData, MIN_PARTICIPANTS, |candidates|, None));
      }
      if req.delta <= 0.0 || req.delta >= 1.0 {
        return WithBudget(req, Denied(InvalidData, MIN_PARTICIPANTS, |candidates|, None));
      }
      if candidates == [] {
        var sector := CohortOf(req.sectorGroup, None);
        return WithBudget(
            req, Denied(if sector == [] then SectorMismatch else DomainMismatch, MIN_PARTICIPANTS, 0, None));
      }
      var participants, epsilonBlocked := Select(candidates, req);
      if participants == [] && epsilonBlocked == |candidates| {
        var variant := if req.domain == "healthcare" then HealthcareEpsilonTooHigh else EpsilonTooHigh;
        return WithBudget(req, Denied(variant, MIN_PARTICIPANTS, |candidates|, None));
      }
      if participants == [] {
        return WithBudget(req, Denied(ConsentRequired, MIN_PARTICIPANTS, |candidates|, None));
      }
      var required := RequiredFloor(participants);
      if |participants| < required {
        var variant := if req.domain == "healthcare" && required >= 4 then HealthcareCohortTooSmall else CohortTooSmall;
        return WithBudget(req, Denied(variant, required, |candidates|, CapMin(participants, policies)));
      }
      var snapshot := Snapshot(required, |candidates|, CapMin(participants, policies));
      return WithBudget(req, Decision(None, Sorting.Sorted(participants), snapshot));
    }
  }

  // ---- what a decision means ----

  /** The request reaches the organization: an active one of its group and domain. */
  ghost predicate Reaches(req: QueryRequest, o: Organization) {
    o.active && o.sectorGroup == req.sectorGroup && o.domain == req.domain
  }

  /** An organization that the request reaches and that consents to it. */
  ghost predicate Takes(orgs: seq<Organization>, policies: map<OrgId, ConsentPolicy>, req: QueryRequest, id: OrgId) {
    && req.metric in PolicyOf(policies, id).allowedMetrics
    && req.epsilon <= PolicyOf(policies, id).maxEpsilonPerQuery
    && exists o :: o in orgs && o.orgId == id && Reaches(req, o)
  }

  predicate WellFormedRequest(req: QueryRequest) {
    req.metric in AllowedMetrics() && req.epsilon > 0.0 && 0.0 < req.delta < 1.0
  }

  /** Which metrics there are, and on what terms an organization starts: healthcare on stricter ones. */
  lemma DefaultTerms(org: Organization, metric: string)
    ensures metric in AllowedMetrics() <==>
              || metric == "histogram" || metric == "variance"
              || metric == "correlation" || metric == "federated_model_round"
    ensures metric in DefaultPolicyFor(org).allowedMetrics <==>
              metric in AllowedMetrics() && !(org.domain == "healthcare" && metric == "variance")
    ensures DefaultPolicyFor(org).minParticipants == if org.domain == "healthcare" then 4 else 3
    ensures DefaultPolicyFor(org).maxEpsilonPerQuery == if org.domain == "healthcare" then 10.0 else 25.0
  {
    assert "variance" != "histogram" && "variance" != "correlation" && "variance" != "federated_model_round";
  }

  /** Without a policy of its own an organization has that of any domain but healthcare. */
  lemma PolicyInForce(policies: map<OrgId, ConsentPolicy>, id: OrgId, org: Organization)
    requires org.domain != "healthcare"
    ensures PolicyOf(policies, id) == if id in policies then policies[id] else DefaultPolicyFor(org)
  {
  }

  function IdsOf(orgs: seq<Organization>): (ids: seq<OrgId>)
    ensures |ids| == |orgs| && forall k :: 0 <= k < |ids| ==> ids[k] == orgs[k].orgId
  {
    seq(|orgs|, k requires 0 <= k < |orgs| => orgs[k].orgId)
  }

  lemma {:induction false} FloorIsLeast(ids: seq<OrgId>, policies: map<OrgId, ConsentPolicy>, bound: int)
    ensures Floor(ids, policies) <= bound <==>
              MIN_PARTICIPANTS <= bound && forall id :: id in ids ==> PolicyOf(policies, id).minParticipants <= bound
  {
    if ids != [] {
      var init, last := ids[..|ids| - 1], ids[|ids| - 1];
      FloorIsLeast(init, policies, bound);
      assert forall id :: id in ids <==> id in init || id == last;
    }
  }

  lemma {:induction false} ConsentingDistinct(orgs: seq<Organization>, policies: map<OrgId, ConsentPolicy>,
                                              req: QueryRequest,
                                              sectorGroup: string, domain: Option<string>)
    requires NoDuplicates(IdsOf(orgs))
    ensures NoDuplicates(Consenting(Cohort(orgs, sectorGroup, domain), policies, req))
  {
    if orgs != [] {
      var init, last := orgs[..|orgs| - 1], orgs[|orgs| - 1];
      assert IdsOf(orgs)[..|init|] == IdsOf(init);
      DistinctLast(IdsOf(orgs));
      ConsentingDistinct(init, policies, req, sectorGroup, domain);
      var before := Consenting(Cohort(init, sectorGroup, domain), policies, req);
      var after := Consenting(Cohort(orgs, sectorGroup, domain), policies, req);
      if InCohort(last, sectorGroup, domain) {
        assert Cohort(orgs, sectorGroup, domain)[..|Cohort(init, sectorGroup, domain)|]
            == Cohort(init, sectorGroup, domain);
        if Consents(policies, req, last.orgId) {
          NewId(init, sectorGroup, domain, last.orgId);
          assert after == before + [last.orgId];
          DistinctLast(after);
        }
      }
    }
  }

  lemma NewId(orgs: seq<Organization>, sectorGroup: string, domain: Option<string>, id: OrgId)
    requires id !in IdsOf(orgs)
    ensures forall o :: o in Cohort(orgs, sectorGroup, domain) ==> o.orgId != id
  {
    forall o | o in Cohort(orgs, sectorGroup, domain) ensures o.orgId != id {
      var k :| 0 <= k < |orgs| && orgs[k] == o;
      assert IdsOf(orgs)[k] == o.orgId;
    }
  }

  /** `takers` lists, ascending and once each, exactly the active cohort members that consent at this epsilon. */
  ghost predicate AreTakers(takers: seq<OrgId>, orgs: seq<Organization>, policies: map<OrgId, ConsentPolicy>,
                            req: QueryRequest) {
    && NoDuplicates(takers) && Sorting.Ascending(takers)
    && forall id :: id in takers <==> Takes(orgs, policies, req, id)
  }

  /** The cohort reaches the global minimum and every member's own floor. */
  ghost predicate FloorsMet(takers: seq<OrgId>, policies: map<OrgId, ConsentPolicy>) {
    && |takers| >= MIN_PARTICIPANTS
    && forall id :: id in takers ==> PolicyOf(policies, id).minParticipants <= |takers|
  }

  lemma TakesMeansConsents(orgs: seq<Organization>, policies: map<OrgId, ConsentPolicy>, req: QueryRequest, id: OrgId)
    ensures Takes(orgs, policies, req, id) <==>
              id in Consenting(Cohort(orgs, req.sectorGroup, Some(req.domain)), policies, req)
  {
    var cohort := Cohort(orgs, req.sectorGroup, Some(req.domain));
    assert forall o :: o in cohort <==> o in orgs && Reaches(req, o);
  }

  lemma TakersConsent(takers: seq<OrgId>, orgs: seq<Organization>, policies: map<OrgId, ConsentPolicy>,
                      req: QueryRequest)
    requires NoDuplicates(IdsOf(orgs)) && AreTakers(takers, orgs, policies, req)
    ensures var ids := Consenting(Cohort(orgs, req.sectorGroup, Some(req.domain)), policies, req);
            && Sorting.Sorted(ids) == takers && |ids| == |takers|
            && (Floor(ids, policies) <= |ids| <==> FloorsMet(takers, policies))
  {
    var ids := Consenting(Cohort(orgs, req.sectorGroup, Some(req.domain)), policies, req);
    ConsentingDistinct(orgs, policies, req, req.sectorGroup, Some(req.domain));
    forall id ensures id in ids <==> id in takers {
      assert id in takers <==> Takes(orgs, policies, req, id);
      TakesMeansConsents(orgs, policies, req, id);
    }
    SameMembersSorted(ids, takers);
    FloorIsLeast(ids, policies, |ids|);
  }

  /**
   * An allowed decision names exactly the takers; they are at least three and at least as many as every one of them
   * demands. Conversely such a cohort is never denied for a well-formed request.
   */
  lemma AllowedMeansConsented(orgs: seq<Organization>, policies: map<OrgId, ConsentPolicy>, req: QueryRequest,
                              takers: seq<OrgId>)
    requires NoDuplicates(IdsOf(orgs)) && AreTakers(takers, orgs, policies, req)
    ensures Allowed(Decide(orgs, policies, req)) <==> WellFormedRequest(req) && FloorsMet(takers, policies)
    ensures Allowed(Decide(orgs, policies, req)) ==> Decide(orgs, policies, req).value.participants == takers
  {
    var candidates := Cohort(orgs, req.sectorGroup, Some(req.domain));
    var ids := Consenting(candidates, policies, req);
    TakersConsent(takers, orgs, policies, req);
    ConsentNeedsCandidates(candidates, policies, req);
    FloorAtLeast(ids, policies);
    JudgeAllows(req, |candidates|, |Cohort(orgs, req.sectorGroup, None)| > 0, CapBlocked(candidates, policies, req),
                |ids|, Floor(ids, policies), CapMin(ids, policies), Sorting.Sorted(ids));
  }

  lemma JudgeAllows(req: QueryRequest, candidates: nat, sectorKnown: bool, blocked: int, consenting: nat, floor: int,
                    cap: Option<real>, sorted: seq<OrgId>)
    requires (consenting > 0 ==> candidates > 0) && floor >= MIN_PARTICIPANTS
    ensures var d := Judge(req, candidates, sectorKnown, blocked, consenting, floor, cap, sorted);
            && (d.code.None? <==> WellFormedRequest(req) && floor <= consenting)
            && (d.code.None? ==> d.participants == sorted)
  {
  }

  lemma AllowedIsWellFormed(orgs: seq<Organization>, policies: map<OrgId, ConsentPolicy>, req: QueryRequest)
    requires Allowed(Decide(orgs, policies, req))
    ensures WellFormedRequest(req) && |Decide(orgs, policies, req).value.participants| >= MIN_PARTICIPANTS
  {
    var candidates := Cohort(orgs, req.sectorGroup, Some(req.domain));
    var ids := Consenting(candidates, policies, req);
    ConsentNeedsCandidates(candidates, policies, req);
    FloorAtLeast(ids, policies);
    JudgeAllows(req, |candidates|, |Cohort(orgs, req.sectorGroup, None)| > 0, CapBlocked(candidates, policies, req),
                |ids|, Floor(ids, policies), CapMin(ids, policies), Sorting.Sorted(ids));
    SameSize(Sorting.Sorted(ids), ids);
  }

  /** Some organization takes part in an allowed decision; its floor is reached and its cap admits the request. */
  lemma AllowedMember(orgs: seq<Organization>, policies: map<OrgId, ConsentPolicy>, req: QueryRequest)
    returns (o: Organization)
    requires Allowed(Decide(orgs, policies, req))
    ensures o in orgs && InCohort(o, req.sectorGroup, Some(req.domain))
    ensures PolicyOf(policies, o.orgId).minParticipants <= |Decide(orgs, policies, req).value.participants|
    ensures req.epsilon <= PolicyOf(policies, o.orgId).maxEpsilonPerQuery
  {
    var candidates := Cohort(orgs, req.sectorGroup, Some(req.domain));
    var ids := Consenting(candidates, policies, req);
    AllowedIsWellFormed(orgs, policies, req);
    AllowedReachesFloor(orgs, policies, req);
    FloorIsLeast(ids, policies, |ids|);
    assert ids[0] in ids;
    o :| o in candidates && o.orgId == ids[0];
  }

  lemma AllowedReachesFloor(orgs: seq<Organization>, policies: map<OrgId, ConsentPolicy>, req: QueryRequest)
    requires Allowed(Decide(orgs, policies, req))
    ensures var ids := Consenting(Cohort(orgs, req.sectorGroup, Some(req.domain)), policies, req);
            Floor(ids, policies) <= |ids| == |Decide(orgs, policies, req).value.participants|
  {
    var candidates := Cohort(orgs, req.sectorGroup, Some(req.domain));
    var ids := Consenting(candidates, policies, req);
    ConsentNeedsCandidates(candidates, policies, req);
    FloorAtLeast(ids, policies);
    JudgeAllows(req, |candidates|, |Cohort(orgs, req.sectorGroup, None)| > 0, CapBlocked(candidates, policies, req),
                |ids|, Floor(ids, policies), CapMin(ids, policies), Sorting.Sorted(ids));
    SameSize(Sorting.Sorted(ids), ids);
  }

  lemma ConsentNeedsCandidates(candidates: seq<Organization>, policies: map<OrgId, ConsentPolicy>, req: QueryRequest)
    ensures |Consenting(candidates, policies, req)| > 0 ==> |candidates| > 0
  {
  }

  lemma {:induction false} FloorAtLeast(ids: seq<OrgId>, policies: map<OrgId, ConsentPolicy>)
    ensures Floor(ids, policies) >= MIN_PARTICIPANTS
  {
    if ids != [] {
      FloorAtLeast(ids[..|ids| - 1], policies);
    }
  }

  lemma {:induction false} AllBlocked(candidates: seq<Organization>, policies: map<OrgId, ConsentPolicy>,
                                      req: QueryRequest)
    ensures CapBlocked(candidates, policies, req) <= |candidates|
    ensures CapBlocked(candidates, policies, req) == |candidates| <==>
              forall o :: o in candidates ==> OnlyCapped(policies, req)(o) == 1
  {
    if candidates != [] {
      var init, last := candidates[..|candidates| - 1], candidates[|candidates| - 1];
      AllBlocked(init, policies, req);
      assert forall o :: o in candidates <==> o in init || o == last;
    }
  }

  /** The request reaches someone, and everyone it reaches allows the metric but not its epsilon. */
  ghost predicate OnlyCapsBlock(orgs: seq<Organization>, policies: map<OrgId, ConsentPolicy>, req: QueryRequest) {
    && (exists o :: o in orgs && Reaches(req, o))
    && forall o :: o in orgs && Reaches(req, o) ==>
         && req.metric in PolicyOf(policies, o.orgId).allowedMetrics
         && req.epsilon > PolicyOf(policies, o.orgId).maxEpsilonPerQuery
  }

  predicate IsEpsilonCode(code: Option<Code>) {
    code == Some(EpsilonTooHigh) || code == Some(HealthcareEpsilonTooHigh)
  }

  lemma JudgeBlames(req: QueryRequest, candidates: nat, sectorKnown: bool, blocked: int, consenting: nat, floor: int,
                    cap: Option<real>, sorted: seq<OrgId>)
    requires WellFormedRequest(req)
    ensures IsEpsilonCode(Judge(req, candidates, sectorKnown, blocked, consenting, floor, cap, sorted).code) <==>
              candidates > 0 && consenting == 0 && blocked == candidates
  {
  }

  lemma BlockedCohort(orgs: seq<Organization>, cohort: seq<Organization>, policies: map<OrgId, ConsentPolicy>,
                      req: QueryRequest)
    requires cohort == Cohort(orgs, req.sectorGroup, Some(req.domain))
    ensures OnlyCapsBlock(orgs, policies, req) <==>
              |cohort| > 0 && |Consenting(cohort, policies, req)| == 0 && CapBlocked(cohort, policies, req) == |cohort|
  {
    AllBlocked(cohort, policies, req);
    assert forall o :: o in cohort <==> o in orgs && Reaches(req, o);
    var ids := Consenting(cohort, policies, req);
    if ids != [] {
      assert ids[0] in ids;
    }
    if cohort != [] {
      assert cohort[0] in cohort;
    }
  }

  /**
   * The epsilon codes are returned exactly when every cohort member allows the metric and caps epsilon below the
   * request.
   */
  lemma EpsilonCodeMeansEveryCap(orgs: seq<Organization>, policies: map<OrgId, ConsentPolicy>, req: QueryRequest)
    requires WellFormedRequest(req)
    ensures IsEpsilonCode(CodeOf(Decide(orgs, policies, req))) <==>
              OnlyCapsBlock(orgs, policies, req)
  {
    var cohort := Cohort(orgs, req.sectorGroup, Some(req.domain));
    var ids := Consenting(cohort, policies, req);
    BlockedCohort(orgs, cohort, policies, req);
    JudgeBlames(req, |cohort|, |Cohort(orgs, req.sectorGroup, None)| > 0, CapBlocked(cohort, policies, req),
                |ids|, Floor(ids, policies), CapMin(ids, policies), Sorting.Sorted(ids));
  }

  /** The request's sector group has an active organization at all. */
  ghost predicate GroupKnown(orgs: seq<Organization>, req: QueryRequest) {
    exists o :: o in orgs && o.active && o.sectorGroup == req.sectorGroup
  }

  /** The request reaches someone. */
  ghost predicate CohortKnown(orgs: seq<Organization>, req: QueryRequest) {
    exists o :: o in orgs && Reaches(req, o)
  }

  lemma CohortsKnown(orgs: seq<Organization>, req: QueryRequest)
    ensures |Cohort(orgs, req.sectorGroup, None)| > 0 <==> GroupKnown(orgs, req)
    ensures |Cohort(orgs, req.sectorGroup, Some(req.domain))| > 0 <==> CohortKnown(orgs, req)
  {
    var all, some := Cohort(orgs, req.sectorGroup, None), Cohort(orgs, req.sectorGroup, Some(req.domain));
    assert forall o :: o in some <==> o in orgs && Reaches(req, o);
    assert all != [] ==> all[0] in all;
    assert some != [] ==> some[0] in some;
  }

  lemma JudgeCodes(req: QueryRequest, candidates: nat, sectorKnown: bool, blocked: int, consenting: nat, floor: int,
                   cap: Option<real>, sorted: seq<OrgId>)
    requires consenting > 0 ==> candidates > 0
    ensures var code := Judge(req, candidates, sectorKnown, blocked, consenting, floor, cap, sorted).code;
            && (code == Some(QueryNotAllowed) <==> req.metric !in AllowedMetrics())
            && (code == Some(InvalidData) <==> req.metric in AllowedMetrics() && !WellFormedRequest(req))
            && (code == Some(SectorMismatch) <==> WellFormedRequest(req) && candidates == 0 && !sectorKnown)
            && (code == Some(DomainMismatch) <==> WellFormedRequest(req) && candidates == 0 && sectorKnown)
            && (code == Some(ConsentRequired) || IsEpsilonCode(code) <==>
                  WellFormedRequest(req) && candidates > 0 && consenting == 0)
            && (code == Some(CohortTooSmall) || code == Some(HealthcareCohortTooSmall) <==>
                  WellFormedRequest(req) && 0 < consenting < floor)
            && (code == Some(EpsilonTooHigh) ==> req.domain != "healthcare")
            && (code == Some(HealthcareEpsilonTooHigh) ==> req.domain == "healthcare")
            && (code == Some(CohortTooSmall) ==> req.domain != "healthcare" || floor < 4)
            && (code == Some(HealthcareCohortTooSmall) ==> req.domain == "healthcare" && floor >= 4)
    ensures var d := Judge(req, candidates, sectorKnown, blocked, consenting, floor, cap, sorted);
            d.code.Some? ==> d.participants == []
  {
  }

  /** No taker has a floor of `n` or more. */
  ghost predicate NobodyDemands(n: int, takers: seq<OrgId>, policies: map<OrgId, ConsentPolicy>) {
    forall id :: id in takers ==> PolicyOf(policies, id).minParticipants < n
  }

  lemma SortedMembers(ids: seq<OrgId>)
    ensures forall id :: id in Sorting.Sorted(ids) <==> id in ids
  {
    forall id ensures id in Sorting.Sorted(ids) <==> id in ids {
      assert id in ids <==> id in multiset(ids);
      assert id in Sorting.Sorted(ids) <==> id in multiset(Sorting.Sorted(ids));
    }
  }

  /**
   * Every answer that is no permission, by a condition on registry, consent and request alone: the exception, and each
   * denial code or pair of codes.
   */
  lemma DenialCodes(orgs: seq<Organization>, policies: map<OrgId, ConsentPolicy>, req: QueryRequest, takers: seq<OrgId>)
    requires NoDuplicates(IdsOf(orgs)) && AreTakers(takers, orgs, policies, req)
    ensures Decide(orgs, policies, req) == Err(ValueError) <==> req.epsilon < 0.0 || req.delta < 0.0
    ensures var code := CodeOf(Decide(orgs, policies, req));
            && (code == Some(QueryNotAllowed) <==> !NegativeBudget(req) && req.metric !in AllowedMetrics())
            && (code == Some(InvalidData) <==>
                  !NegativeBudget(req) && req.metric in AllowedMetrics() && !WellFormedRequest(req))
            && (code == Some(SectorMismatch) <==>
                  WellFormedRequest(req) && !CohortKnown(orgs, req) && !GroupKnown(orgs, req))
            && (code == Some(DomainMismatch) <==>
                  WellFormedRequest(req) && !CohortKnown(orgs, req) && GroupKnown(orgs, req))
            && (code == Some(ConsentRequired) || IsEpsilonCode(code) <==>
                  WellFormedRequest(req) && CohortKnown(orgs, req) && takers == [])
            && (code == Some(CohortTooSmall) || code == Some(HealthcareCohortTooSmall) <==>
                  WellFormedRequest(req) && takers != [] && !FloorsMet(takers, policies))
            && (code == Some(EpsilonTooHigh) ==> req.domain != "healthcare")
            && (code == Some(HealthcareEpsilonTooHigh) ==> req.domain == "healthcare")
            && (code == Some(CohortTooSmall) ==> req.domain != "healthcare" || NobodyDemands(4, takers, policies))
            && (code == Some(HealthcareCohortTooSmall) ==>
                  req.domain == "healthcare" && !NobodyDemands(4, takers, policies))
    ensures var d := Decide(orgs, policies, req); d.Ok? && d.value.code.Some? ==> d.value.participants == []
  {
    var candidates := Cohort(orgs, req.sectorGroup, Some(req.domain));
    var ids := Consenting(candidates, policies, req);
    TakersConsent(takers, orgs, policies, req);
    CohortsKnown(orgs, req);
    ConsentNeedsCandidates(candidates, policies, req);
    FloorOfSorted(ids, policies, 3);
    JudgeCodes(req, |candidates|, |Cohort(orgs, req.sectorGroup, None)| > 0, CapBlocked(candidates, policies, req),
               |ids|, Floor(ids, policies), CapMin(ids, policies), Sorting.Sorted(ids));
  }

  /** `x` is the epsilon cap of one of these organizations and no greater than that of any other. */
  ghost predicate IsLeastCap(x: real, ids: seq<OrgId>, policies: map<OrgId, ConsentPolicy>) {
    && (exists id :: id in ids && PolicyOf(policies, id).maxEpsilonPerQuery == x)
    && forall id :: id in ids ==> x <= PolicyOf(policies, id).maxEpsilonPerQuery
  }

  lemma CapOfSorted(ids: seq<OrgId>, policies: map<OrgId, ConsentPolicy>)
    requires ids != []
    ensures CapMin(ids, policies).Some? && IsLeastCap(CapMin(ids, policies).value, Sorting.Sorted(ids), policies)
  {
    CapMinIsLeast(ids, policies);
    SortedMembers(ids);
    var id :| id in ids && CapMin(ids, policies).value == PolicyOf(policies, id).maxEpsilonPerQuery;
    assert id in Sorting.Sorted(ids);
  }

  lemma FloorOfSorted(ids: seq<OrgId>, policies: map<OrgId, ConsentPolicy>, bound: int)
    ensures Floor(ids, policies) <= bound <==>
              MIN_PARTICIPANTS <= bound && NobodyDemands(bound + 1, Sorting.Sorted(ids), policies)
  {
    FloorIsLeast(ids, policies, bound);
    SortedMembers(ids);
  }

  /** 1 for an organization that the request reaches. */
  function Reached(req: QueryRequest): Organization -> int {
    (o: Organization) => if o.active && o.sectorGroup == req.sectorGroup && o.domain == req.domain then 1 else 0
  }

  lemma {:induction false} CohortSize(orgs: seq<Organization>, req: QueryRequest)
    ensures |Cohort(orgs, req.sectorGroup, Some(req.domain))| == Sum(orgs, Reached(req))
  {
    if orgs != [] {
      CohortSize(orgs[..|orgs| - 1], req);
    }
  }

  /** The request got as far as counting those who consent: it is allowed, or their number is too small. */
  predicate Counted(code: Option<Code>) {
    code.None? || code == Some(CohortTooSmall) || code == Some(HealthcareCohortTooSmall)
  }

  lemma JudgeSnapshot(req: QueryRequest, candidates: nat, sectorKnown: bool, blocked: int, consenting: nat, floor: int,
                      cap: Option<real>, sorted: seq<OrgId>)
    ensures var d := Judge(req, candidates, sectorKnown, blocked, consenting, floor, cap, sorted);
            && d.snapshot.candidates == candidates
            && (Counted(d.code) ==> consenting > 0 && d.snapshot == Snapshot(floor, candidates, cap))
            && (!Counted(d.code) ==> d.snapshot == Snapshot(MIN_PARTICIPANTS, candidates, None))
  {
  }

  /**
   * The snapshot of every decision: how many organizations the request reaches; the least number that meets the minimum
   * and every taker's floor, and the takers' least cap, once the takers are counted; the minimum and no cap before.
   */
  lemma SnapshotMeans(orgs: seq<Organization>, policies: map<OrgId, ConsentPolicy>, req: QueryRequest,
                      takers: seq<OrgId>, bound: int)
    requires NoDuplicates(IdsOf(orgs)) && AreTakers(takers, orgs, policies, req) && Decide(orgs, policies, req).Ok?
    ensures var d := Decide(orgs, policies, req).value;
            && d.snapshot.candidates == Sum(orgs, Reached(req))
            && (Counted(d.code) ==>
                  && (d.snapshot.floorRequired <= bound <==>
                        MIN_PARTICIPANTS <= bound && NobodyDemands(bound + 1, takers, policies))
                  && d.snapshot.epsilonCapMin.Some? && IsLeastCap(d.snapshot.epsilonCapMin.value, takers, policies))
            && (!Counted(d.code) ==> d.snapshot.floorRequired == MIN_PARTICIPANTS && d.snapshot.epsilonCapMin.None?)
  {
    var candidates := Cohort(orgs, req.sectorGroup, Some(req.domain));
    var ids := Consenting(candidates, policies, req);
    CohortSize(orgs, req);
    TakersConsent(takers, orgs, policies, req);
    FloorOfSorted(ids, policies, bound);
    if ids != [] {
      CapOfSorted(ids, policies);
    }
    JudgeSnapshot(req, |candidates|, |Cohort(orgs, req.sectorGroup, None)| > 0, CapBlocked(candidates, policies, req),
                  |ids|, Floor(ids, policies), CapMin(ids, policies), Sorting.Sorted(ids));
  }

  /** Two duplicate-free lists with the same members sort to the same list. */
  lemma SameMembersSorted(ids: seq<OrgId>, takers: seq<OrgId>)
    requires NoDuplicates(ids) && NoDuplicates(takers) && Sorting.Ascending(takers)
    requires forall id :: id in ids <==> id in takers
    ensures Sorting.Sorted(ids) == takers && |ids| == |takers|
  {
    assert Elements(ids) == Elements(takers);
    DistinctListEnumerates(ids);
    DistinctListEnumerates(takers);
    Sorting.SortedAscending(ids);
    Sorting.AscendingUnique(Sorting.Sorted(ids), takers);
  }

  // ---- registry order does not matter ----

  lemma {:induction false} CohortOrder(s: seq<Organization>, t: seq<Organization>, sectorGroup: string,
                                       domain: Option<string>)
    requires multiset(s) == multiset(t)
    ensures multiset(Cohort(s, sectorGroup, domain)) == multiset(Cohort(t, sectorGroup, domain))
  {
    forall o ensures multiset(Cohort(s, sectorGroup, domain))[o] == multiset(Cohort(t, sectorGroup, domain))[o] {
      CohortCount(s, sectorGroup, domain, o);
      CohortCount(t, sectorGroup, domain, o);
    }
  }

  lemma {:induction false} CohortCount(s: seq<Organization>, sectorGroup: string, domain: Option<string>,
                                       o: Organization)
    ensures multiset(Cohort(s, sectorGroup, domain))[o]
         == if InCohort(o, sectorGroup, domain) then multiset(s)[o] else 0
  {
    if s != [] {
      CohortCount(s[..|s| - 1], sectorGroup, domain, o);
      assert s == s[..|s| - 1] + [s[|s| - 1]];
    }
  }

  function Named(id: OrgId): Organization -> int {
    (o: Organization) => if o.orgId == id then 1 else 0
  }

  lemma {:induction false} ConsentingCount(s: seq<Organization>, policies: map<OrgId, ConsentPolicy>, req: QueryRequest,
                                           id: OrgId)
    ensures multiset(Consenting(s, policies, req))[id] == if Consents(policies, req, id) then Sum(s, Named(id)) else 0
  {
    if s != [] {
      ConsentingCount(s[..|s| - 1], policies, req, id);
    }
  }

  lemma ConsentingOrder(s: seq<Organization>, t: seq<Organization>, policies: map<OrgId, ConsentPolicy>,
                        req: QueryRequest)
    requires multiset(s) == multiset(t)
    ensures multiset(Consenting(s, policies, req)) == multiset(Consenting(t, policies, req))
    ensures CapBlocked(s, policies, req) == CapBlocked(t, policies, req)
  {
    forall id ensures multiset(Consenting(s, policies, req))[id] == multiset(Consenting(t, policies, req))[id] {
      ConsentingCount(s, policies, req, id);
      ConsentingCount(t, policies, req, id);
      SumPermutation(s, t, Named(id));
    }
    SumPermutation(s, t, OnlyCapped(policies, req));
  }

  lemma {:induction false} CapMinIsLeast(ids: seq<OrgId>, policies: map<OrgId, ConsentPolicy>)
    ensures ids == [] <==> CapMin(ids, policies).None?
    ensures ids != [] ==> forall id :: id in ids ==>
        CapMin(ids, policies).value <= PolicyOf(policies, id).maxEpsilonPerQuery
    ensures ids != [] ==>
        exists id :: id in ids && CapMin(ids, policies).value == PolicyOf(policies, id).maxEpsilonPerQuery
  {
    if ids != [] {
      var init, last := ids[..|ids| - 1], ids[|ids| - 1];
      CapMinIsLeast(init, policies);
      assert forall id :: id in ids <==> id in init || id == last;
    }
  }

  lemma FloorOrder(s: seq<OrgId>, t: seq<OrgId>, policies: map<OrgId, ConsentPolicy>)
    requires multiset(s) == multiset(t)
    ensures Floor(s, policies) == Floor(t, policies) && CapMin(s, policies) == CapMin(t, policies)
  {
    forall id ensures id in s <==> id in t {
      assert id in s <==> id in multiset(s);
      assert id in t <==> id in multiset(t);
    }
    FloorIsLeast(s, policies, Floor(s, policies));
    FloorIsLeast(t, policies, Floor(s, policies));
    FloorIsLeast(s, policies, Floor(t, policies));
    FloorIsLeast(t, policies, Floor(t, policies));
    CapMinIsLeast(s, policies);
    CapMinIsLeast(t, policies);
    assert s == [] <==> t == [] by {
      assert |s| == |multiset(s)| && |t| == |multiset(t)|;
    }
  }

  /** Everything a decision depends on agrees for the two orders. */
  lemma SelectionIgnoresOrder(s: seq<Organization>, t: seq<Organization>, policies: map<OrgId, ConsentPolicy>,
                              req: QueryRequest)
    requires multiset(s) == multiset(t)
    ensures |s| == |t| && CapBlocked(s, policies, req) == CapBlocked(t, policies, req)
    ensures |Consenting(s, policies, req)| == |Consenting(t, policies, req)|
    ensures Floor(Consenting(s, policies, req), policies) == Floor(Consenting(t, policies, req), policies)
    ensures CapMin(Consenting(s, policies, req), policies) == CapMin(Consenting(t, policies, req), policies)
    ensures Sorting.Sorted(Consenting(s, policies, req)) == Sorting.Sorted(Consenting(t, policies, req))
  {
    ConsentingOrder(s, t, policies, req);
    SameSize(s, t);
    SameSize(Consenting(s, policies, req), Consenting(t, policies, req));
    FloorOrder(Consenting(s, policies, req), Consenting(t, policies, req), policies);
    Sorting.SortedForgetsOrder(Consenting(s, policies, req), Consenting(t, policies, req));
  }

  /** Reloading a registry in another order changes no decision, neither outcome nor code nor snapshot. */
  lemma DecisionIgnoresOrder(s: seq<Organization>, t: seq<Organization>, policies: map<OrgId, ConsentPolicy>,
                             req: QueryRequest)
    requires multiset(s) == multiset(t)
    ensures Decide(s, policies, req) == Decide(t, policies, req)
  {
    CohortOrder(s, t, req.sectorGroup, Some(req.domain));
    CohortOrder(s, t, req.sectorGroup, None);
    SameSize(Cohort(s, req.sectorGroup, None), Cohort(t, req.sectorGroup, None));
    SelectionIgnoresOrder(Cohort(s, req.sectorGroup, Some(req.domain)), Cohort(t, req.sectorGroup, Some(req.domain)),
                          policies, req);
  }

  lemma SameSize<T>(s: seq<T>, t: seq<T>)
    requires multiset(s) == multiset(t)
    ensures |s| == |t|
  {
    assert |s| == |multiset(s)| && |t| == |multiset(t)|;
  }
}
