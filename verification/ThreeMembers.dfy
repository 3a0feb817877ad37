/** Three organizations that join with their default consents, and what a platform that governs them may release. */
module ThreeMembers {
  import opened Foundations
  import opened AccountantTheorems
  import opened Approvals
  import opened DifferentialPrivacy
  import opened Storage
  import opened PlatformOps
  import Audit
  import Policy
  import Sorting

  // ---- the members ----

  const NAMES: seq<OrgId> := ["a", "b", "c"]

  function Member(id: OrgId): LiveOrg {
    LiveOrg(Policy.Organization(id, id, "retail", "group", true), "key", "hash", "salt")
  }

  ghost predicate Members(registry: Registry, ids: seq<OrgId>) {
    registry.Keys == Elements(ids) && forall id :: id in registry ==> registry[id] == Member(id).org
  }

  ghost predicate MembersLive(orgs: map<OrgId, LiveOrg>, ids: seq<OrgId>) {
    orgs.Keys == Elements(ids) && forall id :: id in orgs ==> orgs[id].org == Member(id).org
  }

  ghost predicate Defaults(policies: Policies, ids: seq<OrgId>) {
    policies.Keys == Elements(ids) && forall id :: id in policies ==> policies[id] == Policy.DefaultPolicy()
  }

  /** The first member has withdrawn its consent to every metric. */
  ghost predicate Withdrawn(policies: Policies) {
    && policies.Keys == Elements(NAMES)
    && forall id :: id in policies ==>
         policies[id] == Policy.DefaultPolicy().(allowedMetrics := if id == "a" then {}
                                                                  else Policy.DefaultPolicy().allowedMetrics)
  }

  function Request3(metric: string, delta: real): Policy.QueryRequest {
    Policy.QueryRequest(metric, "group", "retail", 1.0, delta)
  }

  lemma NamesAscend()
    ensures NoDuplicates(NAMES) && Sorting.Ascending(NAMES)
  {
    DistinctIndices(NAMES);
    assert StrLess("a", "b") && StrLess("b", "c") && StrLess("a", "c");
    StrLessTotal("a", "b");
    StrLessTotal("b", "c");
    StrLessTotal("a", "c");
  }

  /** The registry of the three members, listed in the order in which they joined. */
  ghost predicate Listed(orgs: seq<Policy.Organization>) {
    |orgs| == 3 && forall k :: 0 <= k < 3 ==> orgs[k] == Member(NAMES[k]).org
  }

  lemma NamesListed(registry: Registry)
    requires Members(registry, NAMES)
    ensures Orders(NAMES, registry) && Listed(OrgsIn(NAMES, registry))
  {
    NamesAscend();
    DistinctListEnumerates(NAMES);
    forall k | 0 <= k < 3 ensures registry[NAMES[k]] == Member(NAMES[k]).org {
      assert NAMES[k] in Elements(NAMES);
    }
  }

  /** The members among the three that consent, ascending. */
  lemma ThreeTakers(orgs: seq<Policy.Organization>, policies: Policies, req: Policy.QueryRequest, takers: seq<OrgId>)
    requires Listed(orgs) && req.sectorGroup == "group" && req.domain == "retail"
    requires forall id :: id in takers <==> id in NAMES && Policy.Consents(policies, req, id)
    requires NoDuplicates(takers) && Sorting.Ascending(takers)
    ensures NoDuplicates(Policy.IdsOf(orgs)) && Policy.AreTakers(takers, orgs, policies, req)
  {
    NamesAscend();
    assert Policy.IdsOf(orgs) == NAMES;
    forall id ensures id in takers <==> Policy.Takes(orgs, policies, req, id) {
      if id in NAMES {
        var k :| 0 <= k < 3 && NAMES[k] == id;
        assert orgs[k] in orgs;
      }
    }
  }

  lemma ThreeAllowed(orgs: seq<Policy.Organization>, policies: Policies, metric: string, delta: real)
    requires Listed(orgs) && Defaults(policies, NAMES) && metric in Policy.AllowedMetrics() && 0.0 < delta < 1.0
    ensures Policy.Allowed(Policy.Decide(orgs, policies, Request3(metric, delta)))
  {
    NamesAscend();
    ThreeTakers(orgs, policies, Request3(metric, delta), NAMES);
    assert Policy.FloorsMet(NAMES, policies);
    Policy.AllowedMeansConsented(orgs, policies, Request3(metric, delta), NAMES);
  }

  /** With the default consents of three members every metric is approved at epsilon 1. */
  lemma ThreeApprove(registry: Registry, policies: Policies, metric: string, delta: real)
    requires Members(registry, NAMES) && Defaults(policies, NAMES)
    requires metric in Policy.AllowedMetrics() && 0.0 < delta < 1.0
    ensures Approved(registry, policies, Request3(metric, delta))
  {
    NamesListed(registry);
    ThreeAllowed(OrgsIn(NAMES, registry), policies, metric, delta);
  }

  lemma PairAscends()
    ensures NoDuplicates(["b", "c"]) && Sorting.Ascending(["b", "c"])
    ensures forall id :: id in ["b", "c"] <==> id in NAMES && id != "a"
  {
    DistinctIndices(["b", "c"]);
    assert StrLess("b", "c");
    StrLessTotal("b", "c");
  }

  lemma TwoRefused(orgs: seq<Policy.Organization>, policies: Policies, metric: string, delta: real)
    requires Listed(orgs) && Withdrawn(policies) && metric in Policy.AllowedMetrics()
    ensures !Policy.Allowed(Policy.Decide(orgs, policies, Request3(metric, delta)))
  {
    PairAscends();
    var req := Request3(metric, delta);
    forall id | id in NAMES ensures Policy.Consents(policies, req, id) <==> id != "a" {
      assert id in Elements(NAMES);
    }
    ThreeTakers(orgs, policies, req, ["b", "c"]);
    Policy.AllowedMeansConsented(orgs, policies, req, ["b", "c"]);
  }

  /** Two consenting members are too few. */
  lemma WithdrawnRefuses(registry: Registry, policies: Policies, metric: string, delta: real)
    requires Members(registry, NAMES) && Withdrawn(policies) && metric in Policy.AllowedMetrics()
    ensures !Approved(registry, policies, Request3(metric, delta))
  {
    NamesListed(registry);
    TwoRefused(OrgsIn(NAMES, registry), policies, metric, delta);
    forall ids {:trigger Orders(ids, registry)} | Orders(ids, registry)
      ensures !Policy.Allowed(DecisionIn(ids, registry, policies, Request3(metric, delta)))
    {
      OrderIrrelevant(ids, NAMES, registry, policies, Request3(metric, delta));
    }
  }

  // ---- joining ----

  function EncodeOrgs(orgs: map<OrgId, LiveOrg>): (rows: map<OrgId, OrgRow>)
    ensures rows.Keys == orgs.Keys && forall id :: id in rows ==> rows[id] == EncodeOrg(orgs[id])
  {
    if orgs == map[] then map[] else map id | id in orgs :: EncodeOrg(orgs[id])
  }

  /** The store of a platform that has only joined organizations and updated consents. */
  function Mirror(mem: Mem): (s: Store)
    ensures s.orgs.Keys == mem.orgs.Keys && forall id :: id in s.orgs ==> s.orgs[id] == EncodeOrg(mem.orgs[id])
    ensures s.policies == mem.policies && s.budget == None && s.servers == map[] && s.rounds == map[]
    ensures s.audit == mem.audit
  {
    Store(EncodeOrgs(mem.orgs), mem.policies, None, map[], map[], mem.audit)
  }

  function JoinOp(id: OrgId): Op {
    Join(Member(id), Audit.Payload(id, 0, "org.join", ""))
  }

  /** A call that changes governance alone: its bundle turns the store's mirror image into that of the new memory. */
  ghost predicate Governs(cfg: Config, mem: Mem, op: Op, done: Executed) {
    && Execute(cfg, mem, op) == Some(done) && IsFresh(Mirror(mem), done.bundle) && IdOf(op).None?
    && Write(Mirror(mem), done.bundle, None) == Mirror(done.mem)
    && done.mem.accountant == mem.accountant && done.mem.servers == mem.servers
    && done.mem.audit == mem.audit + [Logged(cfg, mem, op.payload)]
    && done.mem.orgs.Keys == mem.orgs.Keys + Draws(op)
  }

  lemma JoinWrites(cfg: Config, mem: Mem, id: OrgId) returns (done: Executed)
    requires id !in mem.orgs
    ensures Governs(cfg, mem, JoinOp(id), done)
    ensures done.mem.orgs == mem.orgs[id := Member(id)]
    ensures done.mem.policies == mem.policies[id := Policy.DefaultPolicy()]
  {
    done := Execute(cfg, mem, JoinOp(id)).value;
    assert Write(Mirror(mem), done.bundle, None).orgs == Mirror(done.mem).orgs;
  }

  /** Registry and consents are those of the three members; the accountant may have been charged. */
  ghost predicate Governs3(mem: Mem) {
    MembersLive(mem.orgs, NAMES) && Defaults(mem.policies, NAMES)
  }

  /** The platform knows the three members with their default consents and has charged nothing. */
  ghost predicate Governing(mem: Mem) {
    Governs3(mem) && mem.accountant == Fresh(DEFAULT_LIMIT)
  }

  function WithdrawOp(): Op {
    SetConsent("a", {}, Audit.Payload("a", 0, "consent.update", ""))
  }

  lemma WithdrawnFrom(policies: Policies)
    requires Defaults(policies, NAMES)
    ensures "a" in policies && Withdrawn(policies["a" := policies["a"].(allowedMetrics := {})])
  {
    assert "a" in Elements(NAMES);
  }

  lemma ConsentWrites(cfg: Config, mem: Mem, op: Op) returns (done: Executed)
    requires op.SetConsent? && op.orgId in mem.orgs && op.orgId in mem.policies
    ensures Governs(cfg, mem, op, done) && done.mem.orgs == mem.orgs
    ensures done.mem.policies == mem.policies[op.orgId := mem.policies[op.orgId].(allowedMetrics := op.metrics)]
  {
    done := Execute(cfg, mem, op).value;
    assert Write(Mirror(mem), done.bundle, None).orgs == Mirror(done.mem).orgs;
  }

  lemma WithdrawWrites(cfg: Config, mem: Mem) returns (done: Executed)
    requires Governs3(mem)
    ensures Governs(cfg, mem, WithdrawOp(), done) && Withdrawn(done.mem.policies) && done.mem.orgs == mem.orgs
  {
    WithdrawnFrom(mem.policies);
    done := ConsentWrites(cfg, mem, WithdrawOp());
  }

  /** One more member than before. */
  lemma MembersGrow(orgs: map<OrgId, LiveOrg>, policies: Policies, ids: seq<OrgId>, last: OrgId)
    requires ids != [] && last == ids[|ids| - 1]
    requires MembersLive(orgs, ids[..|ids| - 1]) && Defaults(policies, ids[..|ids| - 1])
    ensures MembersLive(orgs[last := Member(last)], ids)
    ensures Defaults(policies[last := Policy.DefaultPolicy()], ids)
    ensures last !in ids[..|ids| - 1] ==> last !in orgs
  {
    ElementsOfLast(ids);
  }

  // ---- what a platform that governs them releases ----

  lemma LoadedGoverns(mem: Mem, s: Store)
    requires s.orgs == Mirror(mem).orgs && s.policies == mem.policies && Governs3(mem)
    ensures MembersLive(DecodeOrgs(s), NAMES) && Defaults(KnownPolicies(s), NAMES)
  {
  }

  /** A platform that loads the store of such a platform governs the members, too, whatever its own limit. */
  lemma LoadGoverns(mem: Mem, s: Store, limit: PrivacyBudget)
    requires s == Mirror(mem).(audit := s.audit) && Governs3(mem)
    ensures var loaded := Load(NewMem(limit), s);
            && Decodable(s) && Governs3(loaded) && loaded.accountant == Fresh(limit) && loaded.servers == map[]
            && loaded.audit == s.audit
  {
    LoadedGoverns(mem, s);
  }

  /** With this limit and spend, a round of epsilon 1 and delta 1/100000 is affordable. */
  ghost predicate Lightly(acc: Accountant) {
    && acc.limit.epsilon == 800.0 && 0.001 <= acc.limit.delta < 1.0 && ValidOrders(acc.rdpTotals)
    && acc.spent.epsilon <= 2.0 && acc.spent.delta <= 0.00002
  }

  const SMALL: real := 0.00001
  const LARGE: real := 0.01

  lemma AffordableRound(cfg: Config, acc: Accountant, k: nat, id: string)
    requires Lightly(acc) && k > 0
    ensures Payable(cfg, acc, GaussianCharge(cfg.m, 1.0, SMALL, k, id))
  {
    var charge := GaussianCharge(cfg.m, 1.0, SMALL, k, id);
    GaussianOrders(cfg.m, 1.0, SMALL, k, id);
    if charge.rdp.Some? {
      GaussianKeys(cfg.m, SMALL, k, id);
      assert 2.0 in Merge(acc.rdpTotals, charge.rdp.value);
    }
  }

  ghost predicate Paid(acc: Accountant) {
    acc.spent.epsilon == 1.0 && Lightly(acc)
  }

  lemma FirstRoundPaid(m: Analysis, k: nat, id: string)
    requires k > 0
    ensures Paid(Charged(Fresh(DEFAULT_LIMIT), GaussianCharge(m, 1.0, SMALL, k, id)))
  {
    GaussianOrders(m, 1.0, SMALL, k, id);
  }

  lemma GaussianKeys(m: Analysis, delta: real, k: nat, id: string)
    requires k > 0 && GaussianCharge(m, 1.0, delta, k, id).rdp.Some?
    ensures 2.0 in GaussianCharge(m, 1.0, delta, k, id).rdp.value
  {
  }

  /** A delta above the limit is refused. */
  lemma UnaffordableRound(cfg: Config, k: nat, id: string)
    requires k > 0
    ensures !Payable(cfg, Fresh(DEFAULT_LIMIT), GaussianCharge(cfg.m, 1.0, LARGE, k, id))
  {
    GaussianOrders(cfg.m, 1.0, LARGE, k, id);
  }

  /** A charge like that of a query at epsilon 1. */
  ghost predicate SmallCharge(charge: Request, id: string) {
    && charge.cost == PrivacyBudget(1.0, 0.0) && charge.id == id
    && charge.rdp.Some? && ValidOrders(charge.rdp.value) && charge.rdp.value.Keys != {}
  }

  lemma MergeNotEmpty(totals: RdpCost, rdp: RdpCost)
    requires rdp.Keys != {}
    ensures Merge(totals, rdp).Keys != {}
  {
  }

  lemma AffordableQuery(cfg: Config, acc: Accountant, charge: Request, id: string)
    requires Lightly(acc) && SmallCharge(charge, id)
    ensures Payable(cfg, acc, charge)
  {
    MergeNotEmpty(acc.rdpTotals, charge.rdp.value);
  }

  lemma StaysLightly(acc: Accountant, charge: Request, id: string)
    requires Lightly(acc) && SmallCharge(charge, id) && acc.spent.epsilon <= 1.0
    ensures Lightly(Charged(acc, charge))
  {
  }

  lemma LaplaceKeys(m: Analysis, id: string)
    ensures LaplaceCharge(m, 1.0, id).rdp.Some? && LaplaceCharge(m, 1.0, id).rdp.value.Keys != {}
  {
    assert 2.0 in LaplaceCharge(m, 1.0, id).rdp.value;
  }

  lemma MetricsAllowed()
    ensures ROUND_METRIC in Policy.AllowedMetrics()
    ensures "histogram" in Policy.AllowedMetrics() && "histogram" != ROUND_METRIC
  {
    assert |"histogram"| == 9 && |ROUND_METRIC| == 21;
  }

  function CountQuery(id: string): Op {
    Query(Request3("histogram", SMALL), id, Audit.Payload(id, 0, "query.histogram", ""))
  }

  lemma ApprovesMetric(mem: Mem, metric: string, delta: real)
    requires Governs3(mem) && metric in Policy.AllowedMetrics() && 0.0 < delta < 1.0
    ensures ApprovedBy(mem, Request3(metric, delta))
  {
    ThreeApprove(LiveRegistry(mem.orgs), mem.policies, metric, delta);
  }

  lemma LaplaceIsSmall(m: Analysis, id: string)
    ensures SmallCharge(LaplaceCharge(m, 1.0, id), id)
  {
    LaplaceOrders(m, 1.0, id);
    LaplaceKeys(m, id);
  }

  /** A query at epsilon 1 with this id. */
  predicate IsCount(op: Op, id: string) {
    op.Query? && op.req.epsilon == 1.0 && op.id == id
  }

  lemma CountCharge(cfg: Config, op: Op, id: string)
    requires IsCount(op, id)
    ensures ChargeOf(cfg, op).Some? && SmallCharge(ChargeOf(cfg, op).value, id)
  {
    LaplaceIsSmall(cfg.m, id);
  }

  lemma PaidQueryIsReleased(cfg: Config, mem: Mem, op: Op)
    requires op.Query? && op.req.metric != ROUND_METRIC && ApprovedBy(mem, op.req)
    requires Payable(cfg, mem.accountant, ChargeOf(cfg, op).value)
    ensures Released(cfg, mem, op)
  {
  }

  lemma QueryReleased(cfg: Config, mem: Mem, op: Op)
    requires Governs3(mem) && Lightly(mem.accountant) && op.Query? && op.req == Request3("histogram", SMALL)
    ensures Released(cfg, mem, op)
  {
    MetricsAllowed();
    ApprovesMetric(mem, "histogram", SMALL);
    CountCharge(cfg, op, op.id);
    AffordableQuery(cfg, mem.accountant, ChargeOf(cfg, op).value, op.id);
    PaidQueryIsReleased(cfg, mem, op);
  }

  lemma SomeQuery(cfg: Config, mem: Mem, id: string) returns (op: Op)
    requires Governs3(mem) && Lightly(mem.accountant)
    ensures Released(cfg, mem, op) && IsCount(op, id) && op.req == Request3("histogram", SMALL)
  {
    op := CountQuery(id);
    QueryReleased(cfg, mem, op);
  }

  /** What a released query asks the store to write. */
  ghost predicate ChargesQuery(mem: Mem, done: Executed, charge: Request) {
    && done.bundle.entry.prevHash == Audit.Tip(mem.audit) && done.mem.audit == mem.audit + [done.bundle.entry]
    && done.bundle.org.None? && done.bundle.policy.None? && done.bundle.server.None?
    && done.bundle.budget == Some(BudgetWriteOf(mem.accountant, Charged(mem.accountant, charge)))
  }

  lemma QueryWrites(cfg: Config, mem: Mem, op: Op, charge: Request) returns (done: Executed)
    requires op.Query? && Released(cfg, mem, op) && ChargeOf(cfg, op) == Some(charge)
    ensures Execute(cfg, mem, op) == Some(done) && ChargesQuery(mem, done, charge)
  {
    done := Execute(cfg, mem, op).value;
  }

  // ---- a release that one limit refuses and another admits ----

  ghost predicate LargeCharge(charge: Request) {
    && charge.cost == PrivacyBudget(1.0, LARGE)
    && (charge.rdp.Some? ==> ValidOrders(charge.rdp.value) && charge.rdp.value.Keys != {})
  }

  /** The charge of a round of three members whose delta is large. */
  lemma LargeRound(m: Analysis, id: string) returns (charge: Request)
    ensures charge == ReleaseCharge(m, Request3(ROUND_METRIC, LARGE), 3, id) && LargeCharge(charge)
  {
    charge := GaussianCharge(m, 1.0, LARGE, 3, id);
    GaussianOrders(m, 1.0, LARGE, 3, id);
    if charge.rdp.Some? {
      GaussianKeys(m, LARGE, 3, id);
    }
  }

  lemma LargeRefused(m: Analysis, acc: Accountant, charge: Request)
    requires Lightly(acc) && acc.limit.delta == 0.001 && acc.spent.delta >= 0.0 && LargeCharge(charge)
    ensures Refuses(m, acc, charge)
  {
  }

  lemma LargeAdmitted(m: Analysis, acc: Accountant, charge: Request)
    requires Lightly(acc) && acc.limit.delta == 0.5 && LargeCharge(charge)
    ensures Admits(m, acc, charge)
  {
    if charge.rdp.Some? {
      MergeNotEmpty(acc.rdpTotals, charge.rdp.value);
    }
  }
}
