/**
 * Governance decisions on a registry in any iteration order, and the charge of each kind of release
 * (sentrylink/platform.py).
 */
module Approvals {
  import opened Foundations
  import opened AccountantTheorems
  import opened DifferentialPrivacy
  import opened RealVectors
  import Federated
  import Policy
  import Sorting
  import Sums

  type Registry = map<OrgId, Policy.Organization>

  type Policies = map<OrgId, Policy.ConsentPolicy>

  // ---- decisions do not depend on iteration order ----

  ghost predicate Orders(ids: seq<OrgId>, registry: Registry) {
    Enumerates(ids, registry.Keys) && forall id :: id in ids ==> id in registry
  }

  function OrgsIn(ids: seq<OrgId>, registry: Registry): (r: seq<Policy.Organization>)
    requires forall id :: id in ids ==> id in registry
    ensures |r| == |ids| && forall k :: 0 <= k < |r| ==> r[k] == registry[ids[k]]
  {
    seq(|ids|, k requires 0 <= k < |ids| => registry[ids[k]])
  }

  function IsOrg(registry: Registry, o: Policy.Organization): OrgId -> int {
    id => if id in registry && registry[id] == o then 1 else 0
  }

  lemma {:induction false} OrgCount(ids: seq<OrgId>, registry: Registry, o: Policy.Organization)
    requires forall id :: id in ids ==> id in registry
    ensures multiset(OrgsIn(ids, registry))[o] == Sums.Sum(ids, IsOrg(registry, o))
  {
    if ids != [] {
      var init := ids[..|ids| - 1];
      OrgCount(init, registry, o);
      assert OrgsIn(ids, registry) == OrgsIn(init, registry) + [registry[ids[|ids| - 1]]];
    }
  }

  /** The answer of the engine on the registry in the given iteration order. */
  function DecisionIn(ids: seq<OrgId>, registry: Registry, policies: Policies, req: Policy.QueryRequest): Policy.Answer
    requires forall id :: id in ids ==> id in registry
  {
    Policy.Decide(OrgsIn(ids, registry), policies, req)
  }

  /** `d` is the engine's answer, whatever the registry's iteration order. */
  ghost predicate Decides(d: Policy.Answer, registry: Registry, policies: Policies, req: Policy.QueryRequest) {
    forall ids {:trigger Orders(ids, registry)} ::
      Orders(ids, registry) ==> d == DecisionIn(ids, registry, policies, req)
  }

  lemma OrderIrrelevant(ids: seq<OrgId>, ids': seq<OrgId>, registry: Registry, policies: Policies,
                        req: Policy.QueryRequest)
    requires Orders(ids, registry) && Orders(ids', registry)
    ensures DecisionIn(ids, registry, policies, req) == DecisionIn(ids', registry, policies, req)
  {
    var s, t := OrgsIn(ids, registry), OrgsIn(ids', registry);
    forall o ensures multiset(s)[o] == multiset(t)[o] {
      OrgCount(ids, registry, o);
      OrgCount(ids', registry, o);
      Sums.SumPermutation(ids, ids', IsOrg(registry, o));
    }
    assert multiset(s) == multiset(t);
    Policy.DecisionIgnoresOrder(s, t, policies, req);
  }

  /** An answer given in one order is the answer in every order. */
  lemma OneOrderDecides(ids: seq<OrgId>, d: Policy.Answer, registry: Registry, policies: Policies,
                        req: Policy.QueryRequest)
    requires Orders(ids, registry) && d == DecisionIn(ids, registry, policies, req)
    ensures Decides(d, registry, policies, req)
  {
    forall order {:trigger Orders(order, registry)} | Orders(order, registry)
      ensures d == DecisionIn(order, registry, policies, req)
    {
      OrderIrrelevant(ids, order, registry, policies, req);
    }
  }

  /** The request is allowed on this registry with these consents. */
  ghost predicate Approved(registry: Registry, policies: Policies, req: Policy.QueryRequest) {
    exists ids {:trigger Orders(ids, registry)} ::
      Orders(ids, registry) && Policy.Allowed(DecisionIn(ids, registry, policies, req))
  }

  lemma {:induction false} SomeOrder(registry: Registry, keys: set<OrgId>) returns (ids: seq<OrgId>)
    requires keys <= registry.Keys
    ensures Enumerates(ids, keys) && forall id :: id in ids ==> id in registry
  {
    if keys == {} {
      ids := [];
    } else {
      var id :| id in keys;
      ids := SomeOrder(registry, keys - {id});
      EnumerationExtends(ids, keys - {id}, id);
      assert keys - {id} + {id} == keys;
      ids := ids + [id];
    }
  }

  /** The engine's answer says exactly whether the request is approved. */
  lemma DecisionMeansApproved(d: Policy.Answer, registry: Registry, policies: Policies, req: Policy.QueryRequest)
    requires Decides(d, registry, policies, req)
    ensures Policy.Allowed(d) <==> Approved(registry, policies, req)
  {
    var ids := SomeOrder(registry, registry.Keys);
    assert Orders(ids, registry);
  }

  lemma ApprovedIsWellFormed(registry: Registry, policies: Policies, req: Policy.QueryRequest)
    requires Approved(registry, policies, req)
    ensures Policy.WellFormedRequest(req)
  {
    var ids :| Orders(ids, registry) && Policy.Allowed(DecisionIn(ids, registry, policies, req));
    Policy.AllowedIsWellFormed(OrgsIn(ids, registry), policies, req);
  }

  // ---- decisions depend on the cohort alone ----

  ghost predicate OwnIds(registry: Registry) {
    forall id :: id in registry ==> registry[id].orgId == id
  }

  /** The active organizations of the request's group and domain. */
  function CohortOf(registry: Registry, req: Policy.QueryRequest): (r: set<OrgId>)
    ensures forall id :: id in r <==> id in registry && Policy.Reaches(req, registry[id])
  {
    set id | id in registry && Policy.InCohort(registry[id], req.sectorGroup, Some(req.domain))
  }

  function TakersOf(registry: Registry, policies: Policies, req: Policy.QueryRequest): (r: set<OrgId>)
    ensures forall id :: id in r <==> id in CohortOf(registry, req) && Policy.Consents(policies, req, id)
  {
    set id | id in CohortOf(registry, req) && Policy.Consents(policies, req, id)
  }

  lemma OrderIsDistinct(ids: seq<OrgId>, keys: set<OrgId>)
    requires Enumerates(ids, keys)
    ensures NoDuplicates(ids)
  {
    EnumerationMembers(ids, keys);
    assert Elements(ids) == keys;
    assert |multiset(ids)| == |ids| && |multiset(keys)| == |keys|;
  }

  /** The takers of a registry in ascending order are those of every listing of it. */
  lemma TakersListed(ids: seq<OrgId>, takers: seq<OrgId>, registry: Registry, policies: Policies,
                     req: Policy.QueryRequest)
    requires Orders(ids, registry) && OwnIds(registry)
    requires NoDuplicates(takers) && Sorting.Ascending(takers)
    requires forall id :: id in takers <==> id in TakersOf(registry, policies, req)
    ensures NoDuplicates(Policy.IdsOf(OrgsIn(ids, registry)))
    ensures Policy.AreTakers(takers, OrgsIn(ids, registry), policies, req)
  {
    var orgs := OrgsIn(ids, registry);
    OrderIsDistinct(ids, registry.Keys);
    EnumerationMembers(ids, registry.Keys);
    assert Policy.IdsOf(orgs) == ids;
    forall id ensures id in takers <==> Policy.Takes(orgs, policies, req, id) {
      if id in takers {
        var k :| 0 <= k < |ids| && ids[k] == id;
        assert orgs[k] in orgs;
      }
    }
  }

  lemma ApprovedMeansTakers(takers: seq<OrgId>, registry: Registry, policies: Policies, req: Policy.QueryRequest)
    requires OwnIds(registry) && NoDuplicates(takers) && Sorting.Ascending(takers)
    requires forall id :: id in takers <==> id in TakersOf(registry, policies, req)
    ensures Approved(registry, policies, req) <==> Policy.WellFormedRequest(req) && Policy.FloorsMet(takers, policies)
  {
    var ids := SomeOrder(registry, registry.Keys);
    OneOrderDecides(ids, DecisionIn(ids, registry, policies, req), registry, policies, req);
    DecisionMeansApproved(DecisionIn(ids, registry, policies, req), registry, policies, req);
    TakersListed(ids, takers, registry, policies, req);
    Policy.AllowedMeansConsented(OrgsIn(ids, registry), policies, req, takers);
  }

  /** Two registries with the same cohort under the same policies decide alike, whatever else they hold. */
  lemma OutsidersIrrelevant(registry: Registry, policies: Policies, registry': Registry, policies': Policies,
                            req: Policy.QueryRequest)
    requires OwnIds(registry) && OwnIds(registry') && CohortOf(registry, req) == CohortOf(registry', req)
    requires forall id :: id in CohortOf(registry, req) ==>
               Policy.PolicyOf(policies, id) == Policy.PolicyOf(policies', id)
    ensures Approved(registry, policies, req) <==> Approved(registry', policies', req)
  {
    assert TakersOf(registry, policies, req) == TakersOf(registry', policies', req);
    var some := SomeOrder(registry, TakersOf(registry, policies, req));
    var takers := Sorting.Sorted(some);
    Sorting.SortedAscending(some);
    OrderIsDistinct(takers, TakersOf(registry, policies, req));
    EnumerationMembers(takers, TakersOf(registry, policies, req));
    ApprovedMeansTakers(takers, registry, policies, req);
    ApprovedMeansTakers(takers, registry', policies', req);
  }

  method ListKeys(registry: Registry) returns (ids: seq<OrgId>)
    ensures Orders(ids, registry)
  {
    var todo := registry.Keys;
    ids := [];
    while todo != {}
      invariant todo <= registry.Keys && Enumerates(ids, registry.Keys - todo)
      invariant forall id :: id in ids ==> id in registry
    {
      var id := Pick(todo);
      EnumerationExtends(ids, registry.Keys - todo, id);
      assert registry.Keys - (todo - {id}) == (registry.Keys - todo) + {id};
      ids := ids + [id];
      todo := todo - {id};
    }
    assert registry.Keys - todo == registry.Keys;
  }

  // ---- the charge of each kind of release ----

  const ROUND_METRIC: string := "federated_model_round"

  function RoundKey(req: Policy.QueryRequest): string {
    req.sectorGroup + ":" + req.domain
  }

  lemma LongerGroupHasColon(group: string, domain: string, group': string, domain': string)
    requires group + ":" + domain == group' + ":" + domain' && |group| < |group'|
    ensures ':' in group'
  {
    assert (group + ":" + domain)[|group|] == ':';
    assert (group' + ":" + domain')[|group|] == group'[|group|];
  }

  /** Requests share a server exactly when group and domain agree, as long as no group has a colon. */
  lemma SameServerIff(req: Policy.QueryRequest, req': Policy.QueryRequest)
    requires ':' !in req.sectorGroup && ':' !in req'.sectorGroup
    ensures RoundKey(req) == RoundKey(req') <==> req.sectorGroup == req'.sectorGroup && req.domain == req'.domain
  {
    var group, group' := req.sectorGroup, req'.sectorGroup;
    if RoundKey(req) == RoundKey(req') {
      if |group| < |group'| {
        LongerGroupHasColon(group, req.domain, group', req'.domain);
      } else if |group'| < |group| {
        LongerGroupHasColon(group', req'.domain, group, req.domain);
      } else {
        assert RoundKey(req)[..|group|] == group && RoundKey(req')[..|group|] == group';
        assert RoundKey(req)[|group| + 1..] == req.domain && RoundKey(req')[|group| + 1..] == req'.domain;
      }
    }
  }

  /** With colons two cohorts can meet on one server. */
  lemma ColonGroupsShare(req: Policy.QueryRequest, group: string, middle: string, domain: string)
    ensures RoundKey(req.(sectorGroup := group + ":" + middle, domain := domain))
         == RoundKey(req.(sectorGroup := group, domain := middle + ":" + domain))
  {
    assert group + ":" + middle + ":" + domain == group + ":" + (middle + ":" + domain);
  }

  function ToOption<T>(r: Result<T, Error>): Option<T> {
    match r
    case Ok(value) => Some(value)
    case Err(_) => None
  }

  /** A Laplace release: epsilon only, with its RDP cost. */
  function LaplaceCharge(m: Analysis, epsilon: real, id: string): Request {
    Request(PrivacyBudget(epsilon, 0.0), ToOption(LaplaceRdpCost(m, epsilon)), id)
  }

  /** A Gaussian release of the mean of k members at its calibrated noise. */
  function GaussianCharge(m: Analysis, epsilon: real, delta: real, k: nat, id: string): Request
    requires k > 0
  {
    var sens := Federated.MeanSensitivity(k);
    var cost := match GaussianSigma(m, sens, epsilon, delta)
                case Ok(sigma) => ToOption(GaussianRdpCost(sens, sigma))
                case Err(_) => None;
    Request(PrivacyBudget(epsilon, delta), cost, id)
  }

  /** What a call on behalf of the request is charged when k members take part. */
  function ReleaseCharge(m: Analysis, req: Policy.QueryRequest, k: nat, id: string): Request
    requires k > 0
  {
    if req.metric == ROUND_METRIC then GaussianCharge(m, req.epsilon, req.delta, k, id)
    else LaplaceCharge(m, req.epsilon, id)
  }

  lemma SensitivityPositive(k: nat)
    requires k > 0
    ensures Federated.MeanSensitivity(k) > 0.0
  {
  }

  /** The Gaussian charge is well defined and does not depend on how many members dropped out. */
  lemma GaussianChargeIgnoresDropouts(m: Analysis, epsilon: real, delta: real, k: nat, k': nat, id: string)
    requires LawfulAnalysis(m) && k > 0 && k' > 0 && epsilon > 0.0 && 0.0 < delta < 1.0
    ensures GaussianCharge(m, epsilon, delta, k, id).rdp.Some?
    ensures GaussianCharge(m, epsilon, delta, k, id) == GaussianCharge(m, epsilon, delta, k', id)
  {
    SensitivityPositive(k);
    SensitivityPositive(k');
    GaussianCostIgnoresCohort(m, Federated.MeanSensitivity(k), Federated.MeanSensitivity(k'), epsilon, delta);
  }

  lemma LaplaceOrders(m: Analysis, epsilon: real, id: string)
    ensures LaplaceCharge(m, epsilon, id).rdp.Some? ==> ValidOrders(LaplaceCharge(m, epsilon, id).rdp.value)
  {
  }

  lemma GaussianOrders(m: Analysis, epsilon: real, delta: real, k: nat, id: string)
    requires k > 0
    ensures GaussianCharge(m, epsilon, delta, k, id).rdp.Some? ==>
        ValidOrders(GaussianCharge(m, epsilon, delta, k, id).rdp.value)
  {
  }

  /** A Laplace charge has a cost between 0 and epsilon at exactly the orders of RDP_ALPHAS. */
  lemma LaplaceOverAlphas(m: Analysis, epsilon: real, id: string)
    requires LawfulAnalysis(m) && epsilon > 0.0
    ensures OverOrders(LaplaceCharge(m, epsilon, id), RDP_ALPHAS) && LaplaceCharge(m, epsilon, id).rdp.Some?
  {
    var rdp := LaplaceRdpCost(m, epsilon).value;
    forall a | a in RDP_ALPHAS ensures a > 1.0 && rdp[a] >= 0.0 {
      AlphasExceedOne(a);
      LaplaceCostInRange(m, epsilon, a);
    }
  }

  lemma GaussianEntry(sens: real, sigma: real, rdp: RdpCost, a: real)
    requires GaussianRdpCost(sens, sigma) == Ok(rdp) && a in RDP_ALPHAS
    ensures a > 1.0 && a in rdp && rdp[a] >= 0.0
  {
    AlphasExceedOne(a);
    CostEntry(sens, sigma, rdp, a);
    SquarePositive(sens / sigma);
    ProductMonotone(0.0, a, 0.0, GaussianRho(sens, sigma));
  }

  /** So has the charge of a round, whatever the number of its members. */
  lemma GaussianOverAlphas(m: Analysis, epsilon: real, delta: real, k: nat, id: string)
    requires LawfulAnalysis(m) && k > 0 && epsilon > 0.0 && 0.0 < delta < 1.0
    ensures OverOrders(GaussianCharge(m, epsilon, delta, k, id), RDP_ALPHAS)
    ensures GaussianCharge(m, epsilon, delta, k, id).rdp.Some?
  {
    GaussianChargeIgnoresDropouts(m, epsilon, delta, k, k, id);
    var sens := Federated.MeanSensitivity(k);
    var sigma := GaussianSigma(m, sens, epsilon, delta).value;
    var rdp := GaussianRdpCost(sens, sigma).value;
    forall a | a in RDP_ALPHAS ensures a > 1.0 && rdp[a] >= 0.0 {
      GaussianEntry(sens, sigma, rdp, a);
    }
  }

  lemma GaussianChargeValue(m: Analysis, epsilon: real, delta: real, k: nat, id: string, a: real)
    requires LawfulAnalysis(m) && k > 0 && epsilon > 0.0 && 0.0 < delta < 1.0 && a in RDP_ALPHAS
    ensures var rdp := GaussianCharge(m, epsilon, delta, k, id).rdp;
            rdp.Some? && a in rdp.value && Times(rdp.value[a], 4.0 * m.ln(1.25 / delta)) == Times(a, epsilon * epsilon)
  {
    SensitivityPositive(k);
    GaussianChargeIgnoresDropouts(m, epsilon, delta, k, k, id);
    var sens := Federated.MeanSensitivity(k);
    var sigma := GaussianSigma(m, sens, epsilon, delta).value;
    GaussianCostClosedForm(m, sens, epsilon, delta, sigma, GaussianRdpCost(sens, sigma).value, a);
  }

  /**
   * What a release is charged: the request's epsilon, its delta if it is a round, and at every order the Laplace cost
   * of its epsilon or, for a round, a·ε² / (4·ln(1.25/δ)), whatever the number of members.
   */
  lemma ReleaseChargeMeans(m: Analysis, req: Policy.QueryRequest, k: nat, id: string, a: real)
    requires LawfulAnalysis(m) && Policy.WellFormedRequest(req) && k > 0 && a in RDP_ALPHAS
    ensures var charge := ReleaseCharge(m, req, k, id);
            && charge.id == id && charge.cost.epsilon == req.epsilon && charge.rdp.Some? && a in charge.rdp.value
            && if req.metric == ROUND_METRIC then
                 && charge.cost.delta == req.delta
                 && Times(charge.rdp.value[a], 4.0 * m.ln(1.25 / req.delta)) == Times(a, req.epsilon * req.epsilon)
               else charge.cost.delta == 0.0 && LaplaceRdpCost(m, req.epsilon) == Ok(charge.rdp.value)
  {
    if req.metric == ROUND_METRIC {
      GaussianChargeValue(m, req.epsilon, req.delta, k, id, a);
    }
  }

  lemma ChargeOrders(m: Analysis, req: Policy.QueryRequest, k: nat, id: string)
    requires k > 0
    ensures ReleaseCharge(m, req, k, id).rdp.Some? ==> ValidOrders(ReleaseCharge(m, req, k, id).rdp.value)
    ensures ReleaseCharge(m, req, k, id).cost.epsilon == req.epsilon && ReleaseCharge(m, req, k, id).id == id
  {
    LaplaceOrders(m, req.epsilon, id);
    GaussianOrders(m, req.epsilon, req.delta, k, id);
  }

  lemma SameVerdict(m: Analysis, acc: Accountant, req: Request, id: string)
    requires WellFormed(acc, req)
    ensures Decide(m, acc, req) == Decide(m, acc, req.(id := id))
  {
  }

  /**
   * The charge previewed for the whole cohort reaches the verdict that the charge of the real call reaches on the
   * same accountant, however many members of a round drop out.
   */
  lemma PreviewPredictsCharge(m: Analysis, acc: Accountant, req: Policy.QueryRequest, cohort: nat, survivors: nat,
                              id: string)
    requires LawfulAnalysis(m) && Policy.WellFormedRequest(req) && 0 < survivors <= cohort && ValidOrders(acc.rdpTotals)
    ensures WellFormed(acc, ReleaseCharge(m, req, cohort, "")) && WellFormed(acc, ReleaseCharge(m, req, survivors, id))
    ensures Decide(m, acc, ReleaseCharge(m, req, cohort, "")) == Decide(m, acc, ReleaseCharge(m, req, survivors, id))
  {
    ChargeOrders(m, req, cohort, "");
    ChargeOrders(m, req, survivors, id);
    if req.metric == ROUND_METRIC {
      GaussianChargeIgnoresDropouts(m, req.epsilon, req.delta, cohort, survivors, "");
      SameVerdict(m, acc, GaussianCharge(m, req.epsilon, req.delta, survivors, ""), id);
    } else {
      SameVerdict(m, acc, LaplaceCharge(m, req.epsilon, ""), id);
    }
  }
}
