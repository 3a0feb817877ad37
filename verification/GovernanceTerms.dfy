/** Under which consents releases are committed, and what consent updates can never change, over every run. */
module GovernanceTerms {
  import opened Foundations
  import opened Approvals
  import opened DifferentialPrivacy
  import opened Storage
  import opened PlatformOps
  import opened StoreSerial
  import opened StoreProtocol
  import opened StoreTheorems
  import opened StoreGuarantees
  import Policy

  // ---- terms ----

  /** Every organization is registered under its own id, with a floor and an epsilon cap of its domain. */
  ghost predicate TermsKept(registry: Registry, policies: Policies) {
    && OwnIds(registry) && registry.Keys <= policies.Keys
    && forall id {:trigger registry[id]} {:trigger policies[id]} :: id in registry ==>
         HasTerms(registry[id], policies[id])
  }

  /** In every committed state every organization has the floor and cap of its domain, whatever consent was updated. */
  lemma TermsNeverChange(cfg: Config, g: System, i: nat)
    requires LawfulConfig(cfg) && Reachable(cfg, g) && i < |g.history|
    ensures TermsKept(StoredRegistry(g.history[i].orgs), g.history[i].policies)
    ensures g.history[i].policies.Keys == g.history[i].orgs.Keys
  {
    HistoryIsSerial(cfg, g);
  }

  /** And so it has in the memory of a platform that knows the state, however stale the consents there are. */
  lemma KnownTermsKept(mem: Mem, s: Store, used: set<string>)
    requires Knows(mem, s) && GovernanceOk(used, s)
    ensures TermsKept(LiveRegistry(mem.orgs), mem.policies)
  {
    forall id | id in mem.orgs ensures HasTerms(mem.orgs[id].org, mem.policies[id]) && mem.orgs[id].org.orgId == id {
      assert OrgKnown(mem, s, id);
    }
  }

  lemma ApprovedAnywhere(registry: Registry, policies: Policies, req: Policy.QueryRequest, ids: seq<OrgId>)
    requires Approved(registry, policies, req) && Orders(ids, registry)
    ensures Policy.Allowed(DecisionIn(ids, registry, policies, req))
  {
    var order :| Orders(order, registry) && Policy.Allowed(DecisionIn(order, registry, policies, req));
    OrderIrrelevant(order, ids, registry, policies, req);
  }

  lemma ListedOrg(ids: seq<OrgId>, registry: Registry, o: Policy.Organization) returns (id: OrgId)
    requires (forall id :: id in ids ==> id in registry) && o in OrgsIn(ids, registry)
    ensures id in registry && registry[id] == o
  {
    var k :| 0 <= k < |ids| && OrgsIn(ids, registry)[k] == o;
    id := ids[k];
  }

  lemma HealthcareTerms(registry: Registry, policies: Policies, id: OrgId)
    requires TermsKept(registry, policies) && id in registry && registry[id].domain == "healthcare"
    ensures Policy.PolicyOf(policies, id).minParticipants == 4
    ensures Policy.PolicyOf(policies, id).maxEpsilonPerQuery == 10.0
  {
    assert HasTerms(registry[id], policies[id]);
  }

  /** Epsilon at most 10 and at least four participants, in whatever order the registry is read. */
  ghost predicate Strict(registry: Registry, policies: Policies, req: Policy.QueryRequest) {
    req.epsilon <= 10.0
    && forall ids {:trigger Orders(ids, registry)} :: Orders(ids, registry) ==>
         && Policy.Allowed(DecisionIn(ids, registry, policies, req))
         && |DecisionIn(ids, registry, policies, req).value.participants| >= 4
  }

  lemma StrictDecision(registry: Registry, policies: Policies, req: Policy.QueryRequest, ids: seq<OrgId>)
    requires TermsKept(registry, policies) && req.domain == "healthcare" && Orders(ids, registry)
    requires Policy.Allowed(DecisionIn(ids, registry, policies, req))
    ensures req.epsilon <= 10.0
    ensures |DecisionIn(ids, registry, policies, req).value.participants| >= 4
  {
    var o := Policy.AllowedMember(OrgsIn(ids, registry), policies, req);
    var id := ListedOrg(ids, registry, o);
    HealthcareTerms(registry, policies, id);
  }

  lemma ApprovedIsStrict(registry: Registry, policies: Policies, req: Policy.QueryRequest)
    requires TermsKept(registry, policies) && req.domain == "healthcare" && Approved(registry, policies, req)
    ensures Strict(registry, policies, req)
  {
    var some := SomeOrder(registry, registry.Keys);
    assert Orders(some, registry);
    ApprovedAnywhere(registry, policies, req, some);
    StrictDecision(registry, policies, req, some);
    forall ids {:trigger Orders(ids, registry)} | Orders(ids, registry)
      ensures Policy.Allowed(DecisionIn(ids, registry, policies, req))
      ensures |DecisionIn(ids, registry, policies, req).value.participants| >= 4
    {
      ApprovedAnywhere(registry, policies, req, ids);
      StrictDecision(registry, policies, req, ids);
    }
  }

  // ---- releases and the consents in force ----

  /** Governance allows the request on the stored registry and consents. */
  ghost predicate ApprovedIn(s: Store, req: Policy.QueryRequest) {
    Approved(StoredRegistry(s.orgs), s.policies, req)
  }

  /** The stored members of the request's cohort whose consents the platform has in another version. */
  function StaleMembers(stale: set<OrgId>, s: Store, req: Policy.QueryRequest): set<OrgId> {
    stale * CohortOf(StoredRegistry(s.orgs), req)
  }

  /** The cohort is the stored one if no member of it is stale. */
  lemma SameCohort(mem: Mem, s: Store, req: Policy.QueryRequest)
    requires Knows(mem, s) && s.policies.Keys == s.orgs.Keys
    requires StaleMembers(StaleOrgs(mem, s), s, req) == {}
    ensures CohortOf(LiveRegistry(mem.orgs), req) == CohortOf(StoredRegistry(s.orgs), req)
    ensures forall id :: id in CohortOf(StoredRegistry(s.orgs), req) ==>
              Policy.PolicyOf(mem.policies, id) == Policy.PolicyOf(s.policies, id)
  {
    forall id ensures id in CohortOf(LiveRegistry(mem.orgs), req) <==> id in CohortOf(StoredRegistry(s.orgs), req)
              ensures id in CohortOf(StoredRegistry(s.orgs), req) ==>
                        Policy.PolicyOf(mem.policies, id) == Policy.PolicyOf(s.policies, id)
    {
      assert OrgKnown(mem, s, id);
      if id in CohortOf(StoredRegistry(s.orgs), req) {
        assert id !in StaleMembers(StaleOrgs(mem, s), s, req);
        assert !Stale(mem, s, id);
      }
    }
  }

  lemma KnownApproval(mem: Mem, s: Store, used: set<string>, req: Policy.QueryRequest)
    requires Knows(mem, s) && GovernanceOk(used, s) && StaleMembers(StaleOrgs(mem, s), s, req) == {}
    ensures ApprovedBy(mem, req) <==> ApprovedIn(s, req)
  {
    SameCohort(mem, s, req);
    KnownTermsKept(mem, s, used);
    OutsidersIrrelevant(LiveRegistry(mem.orgs), mem.policies, StoredRegistry(s.orgs), s.policies, req);
  }

  /** What a committing platform knows of the state it overwrites. */
  lemma CommittingKnows(cfg: Config, history: seq<Store>, used: set<string>, proc: Proc)
    requires LawfulConfig(cfg) && HistoryInv(cfg, used, history) && ProcInv(cfg, history, used, proc)
    requires proc.pc.Open? && Checked(proc.pc) && CanCommit(Current(history), proc.pc)
    ensures Knows(proc.pc.before, Current(history)) && GovernanceOk(used, Current(history))
    ensures proc.record.stale == StaleOrgs(proc.pc.before, Current(history))
    ensures IdOf(proc.pc.op).Some? ==> ApprovedBy(proc.pc.before, proc.pc.op.req)
  {
    CommitIsFresh(cfg, history, used, proc);
    assert StateAt(cfg, used, history, |history| - 1);
    if IdOf(proc.pc.op).Some? {
      ExecuteReleases(cfg, proc.pc.before, proc.pc.op);
    }
  }

  /**
   * A committing transaction was computed from the governance it overwrites exactly when no organization is recorded
   * as stale; what else differs are consents, never organizations it has.
   */
  lemma GovernanceIsCurrentIff(cfg: Config, g: System, p: nat)
    requires LawfulConfig(cfg) && Reachable(cfg, g) && p < |g.procs| && g.history != []
    requires g.procs[p].pc.Open? && Checked(g.procs[p].pc) && CanCommit(Current(g.history), g.procs[p].pc)
    ensures var before, s := g.procs[p].pc.before, Current(g.history);
            && Knows(before, s)
            && (OrgsTrack(before.orgs, s.orgs) && before.policies == s.policies <==> g.procs[p].record.stale == {})
  {
    ReachableProc(cfg, g, p);
    CommittingKnows(cfg, g.history, g.used, g.procs[p]);
    NothingStaleIff(g.procs[p].pc.before, Current(g.history));
  }

  /**
   * No release slips through on withdrawn consent unless the consent of a member of its own cohort is stale: when a
   * query or round commits and no such member is recorded, its request is allowed by the registry and the consents of
   * exactly the state the commit overwrites. With a stale member it may not be: StoreWitnesses.TornLoadReleases.
   */
  lemma ReleasesUnderConsent(cfg: Config, g: System, p: nat)
    requires LawfulConfig(cfg) && Reachable(cfg, g) && p < |g.procs| && g.history != []
    requires g.procs[p].pc.Open? && Checked(g.procs[p].pc) && CanCommit(Current(g.history), g.procs[p].pc)
    requires IdOf(g.procs[p].pc.op).Some?
    ensures StaleMembers(g.procs[p].record.stale, Current(g.history), g.procs[p].pc.op.req) == {} ==>
              ApprovedIn(Current(g.history), g.procs[p].pc.op.req)
  {
    var pc, s := g.procs[p].pc, Current(g.history);
    ReachableProc(cfg, g, p);
    CommittingKnows(cfg, g.history, g.used, g.procs[p]);
    if StaleMembers(g.procs[p].record.stale, s, pc.op.req) == {} {
      KnownApproval(pc.before, s, g.used, pc.op.req);
    }
  }

  /**
   * The release was approved by the governance of a platform that knew the state, which means approved in the state
   * itself unless a member of its cohort was stale there.
   */
  ghost predicate ApprovedRelease(s: Store, mem: Mem, req: Policy.QueryRequest) {
    && Knows(mem, s) && ApprovedBy(mem, req)
    && (StaleMembers(StaleOrgs(mem, s), s, req) == {} ==> ApprovedIn(s, req))
  }

  /** The row has spent the request's epsilon more, and its last event is the release's. */
  ghost predicate SpendsFor(row: Option<Accountant>, row': Option<Accountant>, id: string, epsilon: real) {
    && row'.Some? && row'.value.events != []
    && row'.value.events[|row'.value.events| - 1].id == id
    && row'.value.events[|row'.value.events| - 1].cost.epsilon == epsilon
    && (row.Some? ==> row'.value.spent.epsilon == row.value.spent.epsilon + epsilon)
  }

  ghost predicate SpentBy(s: Store, s': Store, mem: Mem, op: Op) {
    && IdOf(op).Some? && ApprovedRelease(s, mem, op.req)
    && SpendsFor(s.budget, s'.budget, IdOf(op).value, op.req.epsilon)
  }

  ghost predicate SpentOnRelease(s: Store, s': Store) {
    exists mem, op :: SpentBy(s, s', mem, op)
  }

  lemma ReleaseApproved(cfg: Config, used: set<string>, s: Store, before: Mem, op: Op)
    requires Execute(cfg, before, op).Some? && Knows(before, s) && GovernanceOk(used, s) && IdOf(op).Some?
    ensures ApprovedRelease(s, before, op.req)
  {
    ExecuteReleases(cfg, before, op);
    if StaleMembers(StaleOrgs(before, s), s, op.req) == {} {
      KnownApproval(before, s, used, op.req);
    }
  }

  lemma ChargeIsLast(row: Option<Accountant>, acc: Accountant, req: Request)
    requires row.Some? ==> acc.spent == row.value.spent && !HasId(row.value.events, req.id)
    ensures SpendsFor(row, Some(BudgetAfter(row, BudgetWriteOf(acc, Charged(acc, req)))), req.id, req.cost.epsilon)
  {
    assert Charged(acc, req).events[..|acc.events|] == acc.events;
  }

  lemma ReleaseSpends(cfg: Config, s: Store, before: Mem, op: Op, done: Executed)
    requires Prepared(cfg, before, op, done, s) && IdOf(op).Some?
    ensures SpendsFor(s.budget, Write(s, done.bundle, s.budget).budget, IdOf(op).value, op.req.epsilon)
  {
    ChargeWrite(cfg, before, op, done);
    ChargeIsLast(s.budget, before.accountant, ChargeOf(cfg, op).value);
  }

  lemma CommittedSpending(cfg: Config, used: set<string>, s: Store, s': Store, before: Mem, op: Op, done: Executed)
    requires Committed(cfg, used, s, s', before, op, done) && StoreOk(cfg, used, s)
    ensures s'.budget == s.budget || SpentBy(s, s', before, op)
  {
    if IdOf(op).Some? {
      ReleaseApproved(cfg, used, s, before, op);
      ReleaseSpends(cfg, s, before, op, done);
    } else {
      ChargeWrite(cfg, before, op, done);
    }
  }

  /** Over the whole history every change of the budget is one such release. */
  lemma SpendingIsApproved(cfg: Config, g: System, i: nat)
    requires LawfulConfig(cfg) && Reachable(cfg, g) && i + 1 < |g.history|
    ensures g.history[i + 1].budget == g.history[i].budget || SpentOnRelease(g.history[i], g.history[i + 1])
  {
    HistoryIsSerial(cfg, g);
    var s, s' := g.history[i], g.history[i + 1];
    var before, op, done :| Committed(cfg, g.used, s, s', before, op, done);
    CommittedSpending(cfg, g.used, s, s', before, op, done);
  }

  /**
   * Healthcare stays strict whatever consents were updated and however stale they are: in every committed state an
   * approved healthcare request has epsilon at most 10 and at least four participants.
   */
  lemma HealthcareStaysStrict(cfg: Config, g: System, i: nat, req: Policy.QueryRequest)
    requires LawfulConfig(cfg) && Reachable(cfg, g) && i < |g.history|
    requires req.domain == "healthcare" && ApprovedIn(g.history[i], req)
    ensures Strict(StoredRegistry(g.history[i].orgs), g.history[i].policies, req)
  {
    TermsNeverChange(cfg, g, i);
    ApprovedIsStrict(StoredRegistry(g.history[i].orgs), g.history[i].policies, req);
  }

  /** The same for every healthcare release that commits, on the consents it was decided on. */
  lemma HealthcareReleasesStrict(cfg: Config, g: System, p: nat)
    requires LawfulConfig(cfg) && Reachable(cfg, g) && p < |g.procs| && g.history != []
    requires g.procs[p].pc.Open? && IdOf(g.procs[p].pc.op).Some? && g.procs[p].pc.op.req.domain == "healthcare"
    ensures var pc := g.procs[p].pc; Strict(LiveRegistry(pc.before.orgs), pc.before.policies, pc.op.req)
  {
    var pc := g.procs[p].pc;
    ReachableProc(cfg, g, p);
    assert StateAt(cfg, g.used, g.history, g.procs[p].view);
    KnownTermsKept(pc.before, g.history[g.procs[p].view], g.used);
    ExecuteReleases(cfg, pc.before, pc.op);
    ApprovedIsStrict(LiveRegistry(pc.before.orgs), pc.before.policies, pc.op.req);
  }
}
