/** The platform object: governance, computation, charge, audit and commit in one call (sentrylink/platform.py). */
module Platforms {
  import opened Foundations
  import opened AccountantTheorems
  import opened Approvals
  import opened DifferentialPrivacy
  import opened RealVectors
  import opened Storage
  import opened PlatformOps
  import Audit
  import C = Contributions
  import Federated
  import Moments
  import Mpc = MpcStats
  import Policy
  import SecAgg = SecureAggregation
  import SecretSharing
  import Sorting

  /** A store whose transactions run one at a time. */
  class SqlStore {
    var state: Store

    constructor ()
      ensures state == EMPTY
    {
      state := EMPTY;
    }

    /** One bundle: freshness checks interleaved with pending writes, then commit or rollback. */
    method Transact(b: Bundle) returns (ok: bool)
      modifies this
      ensures ok <==> IsFresh(old(state), b)
      ensures state == if ok then Write(old(state), b, old(state).budget) else old(state)
    {
      var pending := state;
      if b.org.Some? {
        pending := pending.(orgs := pending.orgs[b.org.value.org.orgId := b.org.value]);
      }
      if b.policy.Some? {
        pending := pending.(policies := pending.policies[b.policy.value.0 := b.policy.value.1]);
      }
      if b.budget.Some? {
        if !BudgetFresh(state.budget, b.budget.value) {
          return false;
        }
        pending := pending.(budget := Some(BudgetAfter(state.budget, b.budget.value)));
      }
      if b.server.Some? {
        var w := b.server.value;
        if !ServerFresh(ServerRowOf(state, w.key), w) {
          return false;
        }
        pending := pending.(servers := pending.servers[w.key := w.row],
                            rounds := pending.rounds[w.key := RoundRows(state, w.key) + [w.round]]);
      }
      if Audit.Tip(state.audit) != b.entry.prevHash {
        return false;
      }
      pending := pending.(audit := pending.audit + [b.entry]);
      state := pending;
      return true;
    }
  }

  // ---- preview ----

  /** `d` is the engine's answer on this memory, whatever the registry's iteration order. */
  ghost predicate DecidedOn(d: Policy.Answer, mem: Mem, req: Policy.QueryRequest) {
    Decides(d, LiveRegistry(mem.orgs), mem.policies, req)
  }

  /** A call on behalf of the request in which `survivors` members take part. */
  ghost predicate ActsOn(op: Op, mem: Mem, req: Policy.QueryRequest, survivors: nat) {
    if req.metric == ROUND_METRIC then
      && op.Round? && op.req == req && |op.result.participants| == survivors && op.evaluated
      && Continues(ServerIn(mem, RoundKey(req), op.dim), op.result)
    else op.Query? && op.req == req
  }

  /** An approved call executes exactly when its accountant admits its charge. */
  lemma ExecutesIffPaid(cfg: Config, mem: Mem, op: Op, req: Policy.QueryRequest, survivors: nat)
    requires ApprovedBy(mem, req) && survivors > 0 && ActsOn(op, mem, req, survivors) && req.epsilon > 0.0
    ensures Execute(cfg, mem, op).Some? <==> Admits(cfg.m, mem.accountant, ReleaseCharge(cfg.m, req, survivors, op.id))
  {
  }

  /** A preview of an allowed request says yes exactly when the real call would be released, dropouts included. */
  lemma PreviewMatchesExecution(cfg: Config, mem: Mem, op: Op, req: Policy.QueryRequest, cohort: nat, survivors: nat)
    requires LawfulAnalysis(cfg.m) && ApprovedBy(mem, req) && 0 < survivors <= cohort
    requires ValidOrders(mem.accountant.rdpTotals) && ActsOn(op, mem, req, survivors)
    ensures WellFormed(mem.accountant, ReleaseCharge(cfg.m, req, cohort, ""))
    ensures Decide(cfg.m, mem.accountant, ReleaseCharge(cfg.m, req, cohort, "")).Admitted? <==>
        Execute(cfg, mem, op).Some?
  {
    ApprovedIsWellFormed(LiveRegistry(mem.orgs), mem.policies, req);
    PreviewPredictsCharge(cfg.m, mem.accountant, req, cohort, survivors, op.id);
    ExecutesIffPaid(cfg, mem, op, req, survivors);
  }

  // ---- the object ----

  ghost predicate OrdersOk(budget: Option<Accountant>) {
    budget.Some? ==> ValidOrders(budget.value.rdpTotals)
  }

  /**
   * How a call that reached its commit ends: a fresh bundle is written; otherwise memory is rebuilt from the store,
   * or, if that raises, goes on with half of it.
   */
  ghost predicate SettledAs(done: Executed, s: Store, raised: Option<Error>, mem: Mem, s': Store) {
    if IsFresh(s, done.bundle) then raised.None? && mem == done.mem && s' == Write(s, done.bundle, s.budget)
    else
      && raised.Some? && s' == s
      && match Reload(done.mem, s)
         case Some(loaded) => mem == loaded && raised.value == ConcurrentWriteError
         case None => mem == HalfLoaded(done.mem, s)
  }

  /** How an approved query ends, given whether its result has the shape that was asked for. */
  ghost predicate QueryEndsAs(cfg: Config, before: Mem, s: Store, op: Op, shapeOk: bool, raised: Option<Error>,
                              mem: Mem, s': Store) {
    match Execute(cfg, before, op)
    case None => raised.Some? && mem == before && s' == s
    case Some(done) =>
      if shapeOk then SettledAs(done, s, raised, mem, s')
      else raised == Some(InvalidDataError) && mem == Spoil(cfg, before, op) && s' == s
  }

  /** An approved query executes exactly when its charge is admitted, and then changes the accountant and the log. */
  lemma QueryOutcome(cfg: Config, before: Mem, op: Op, charge: Request)
    requires op.Query? && op.req.metric != ROUND_METRIC && ApprovedBy(before, op.req) && op.req.epsilon > 0.0
    requires charge == LaplaceCharge(cfg.m, op.req.epsilon, op.id)
    ensures Execute(cfg, before, op).Some? <==> Admits(cfg.m, before.accountant, charge)
    ensures Execute(cfg, before, op).Some? ==>
              var done, acc := Execute(cfg, before, op).value, Charged(before.accountant, charge);
              && done.mem.(audit := before.audit) == before.(accountant := acc) == Spoil(cfg, before, op)
              && done.bundle.budget == Some(BudgetWrite(acc, before.accountant.spent)) && done.bundle.server == None
  {
  }

  /** How a round that trained, or moved the model and was not evaluated, ends. */
  ghost predicate TrainedEnds(cfg: Config, before: Mem, s: Store, op: Op, raised: Option<Error>, mem: Mem, s': Store) {
    match Execute(cfg, before, op)
    case None => raised.Some? && mem == Spoil(cfg, before, op) && s' == s
    case Some(done) => SettledAs(done, s, raised, mem, s')
  }

  /** How an approved round with a full roster ends, before and after the model has moved. */
  ghost predicate RoundEnds(cfg: Config, before: Mem, s: Store, sqrt: real -> real, req: Policy.QueryRequest,
                            roster: seq<Federated.FederatedClient>, dim: nat, drop: seq<OrgId>, noise: nat -> real,
                            op: Op, r: Result<Federated.RoundResult, Error>, mem: Mem, s': Store) {
    var key := RoundKey(req);
    var server := ServerIn(before, key, dim);
    match Federated.RoundError(roster, server.model, drop, true, req.epsilon, req.delta)
    case Some(e) => r == Err(e) && mem == before.(servers := before.servers[key := server]) && s' == s
    case None =>
      && IsRoundOp(op, cfg.m, sqrt, req, roster, server, dim, drop, noise)
      && (!op.evaluated ==> r == Err(InvalidDataError))
      && (r.Ok? ==> r.value == op.result)
      && TrainedEnds(cfg, before, s, op, ErrorOf(r), mem, s')
  }

  function ErrorOf<T>(r: Result<T, Error>): Option<Error> {
    match r
    case Ok(_) => None
    case Err(e) => Some(e)
  }

  class Platform {
    const cfg: Config
    const store: SqlStore
    var orgs: map<OrgId, LiveOrg>
    var policies: map<OrgId, Policy.ConsentPolicy>
    var servers: map<string, LiveServer>
    var accountant: PrivacyAccountant
    var audit: Audit.AuditLog

    function Memory(): Mem
      reads this, accountant, audit
    {
      Mem(orgs, policies, accountant.State(), audit.entries, servers)
    }

    ghost predicate Valid()
      reads this, accountant, audit, store
    {
      && accountant.m == cfg.m && audit.h == cfg.h && audit.Valid()
      && ValidOrders(accountant.rdpTotals) && SizedServers(servers) && OrdersOk(store.state.budget)
    }

    constructor (cfg: Config, limit: PrivacyBudget, store: SqlStore)
      requires OrdersOk(store.state.budget)
      ensures Valid() && this.cfg == cfg && this.store == store && Memory() == NewMem(limit)
      ensures fresh(accountant) && fresh(audit)
    {
      this.cfg, this.store := cfg, store;
      orgs, policies, servers := map[], map[], map[];
      accountant := new PrivacyAccountant(cfg.m, Fresh(limit));
      audit := new Audit.AuditLog(cfg.h);
    }

    /** Rebuilds the live objects from the store; false when it is empty. */
    method Restore() returns (r: Result<bool, Error>)
      requires Valid()
      modifies this
      ensures fresh({accountant, audit} - old({accountant, audit}))
      ensures Valid()
      ensures IsEmpty(store.state) ==> r == Ok(false) && Memory() == old(Memory())
      ensures !IsEmpty(store.state) && Decodable(store.state) ==>
          r == Ok(true) && Memory() == Load(old(Memory()), store.state)
      ensures !IsEmpty(store.state) && !Decodable(store.state) ==>
                r.Err? && Memory() == HalfLoaded(old(Memory()), store.state)
    {
      var s := store.state;
      if IsEmpty(s) {
        return Ok(false);
      }
      orgs, policies := DecodeOrgs(s), KnownPolicies(s);
      if s.budget.Some? {
        accountant := new PrivacyAccountant(cfg.m, s.budget.value);
      }
      audit := new Audit.AuditLog(cfg.h);
      audit.Restore(s.audit);
      if !Decodable(s) {
        return Err(AssertionFailed);
      }
      DecodedSized(s);
      servers := DecodeServers(s);
      return Ok(true);
    }

    method ResetEmpty()
      requires Valid()
      modifies this
      ensures fresh({accountant, audit} - old({accountant, audit}))
      ensures Valid() && Memory() == NewMem(DEFAULT_LIMIT)
    {
      orgs, policies, servers := map[], map[], map[];
      accountant := new PrivacyAccountant(cfg.m, Fresh(DEFAULT_LIMIT));
      audit := new Audit.AuditLog(cfg.h);
    }

    /** Commits a bundle; on a conflict the live objects are rebuilt from the winner's state. */
    method Commit(b: Bundle) returns (r: Result<(), Error>)
      requires Valid() && (b.budget.Some? ==> ValidOrders(b.budget.value.data.rdpTotals))
      modifies this, store
      ensures fresh({accountant, audit} - old({accountant, audit}))
      ensures Valid()
      ensures IsFresh(old(store.state), b) ==>
                r == Ok(()) && Memory() == old(Memory())
                    && store.state == Write(old(store.state), b, old(store.state).budget)
      ensures !IsFresh(old(store.state), b) ==>
                && r.Err? && store.state == old(store.state)
                && match Reload(old(Memory()), old(store.state))
                   case Some(mem) => r == Err(ConcurrentWriteError) && Memory() == mem
                   case None => Memory() == HalfLoaded(old(Memory()), old(store.state))
    {
      var ok := store.Transact(b);
      if ok {
        return Ok(());
      }
      var restored := Restore();
      if restored.Err? {
        return Err(restored.error);
      }
      if !restored.value {
        ResetEmpty();
      }
      return Err(ConcurrentWriteError);
    }

    /** The call that reached its commit has ended like this. */
    ghost predicate Settled(done: Executed, s: Store, raised: Option<Error>)
      reads this, accountant, audit, store
    {
      SettledAs(done, s, raised, Memory(), store.state)
    }

    /** A call that raised before it changed anything. */
    ghost predicate Untouched(before: Mem, s: Store)
      reads this, accountant, audit, store
    {
      Memory() == before && store.state == s
    }

    method Join(org: LiveOrg, payload: Audit.Payload) returns (r: Result<(), Error>)
      requires Valid()
      modifies this, audit, store
      ensures Valid()
      ensures Execute(cfg, old(Memory()), PlatformOps.Join(org, payload)).None? ==>
                r == Err(ValueError) && Untouched(old(Memory()), old(store.state))
      ensures Execute(cfg, old(Memory()), PlatformOps.Join(org, payload)).Some? ==>
                Settled(Execute(cfg, old(Memory()), PlatformOps.Join(org, payload)).value, old(store.state), ErrorOf(r))
    {
      var id := org.org.orgId;
      if id in orgs {
        return Err(ValueError);
      }
      var policy := Policy.DefaultPolicyFor(org.org);
      orgs := orgs[id := org];
      policies := policies[id := policy];
      var entry := audit.Record(payload);
      r := Commit(Bundle(Some(EncodeOrg(org)), Some((id, policy)), None, None, entry));
    }

    method SetConsent(orgId: OrgId, metrics: set<string>, payload: Audit.Payload) returns (r: Result<(), Error>)
      requires Valid()
      modifies this, audit, store
      ensures Valid()
      ensures Execute(cfg, old(Memory()), PlatformOps.SetConsent(orgId, metrics, payload)).None? ==>
                r == Err(KeyError) && Untouched(old(Memory()), old(store.state))
      ensures Execute(cfg, old(Memory()), PlatformOps.SetConsent(orgId, metrics, payload)).Some? ==>
                Settled(Execute(cfg, old(Memory()), PlatformOps.SetConsent(orgId, metrics, payload)).value,
                        old(store.state), ErrorOf(r))
    {
      if orgId !in orgs {
        return Err(KeyError);
      }
      var base := if orgId in policies then policies[orgId] else Policy.DefaultPolicyFor(orgs[orgId].org);
      var policy := base.(allowedMetrics := metrics);
      policies := policies[orgId := policy];
      var entry := audit.Record(payload);
      r := Commit(Bundle(None, Some((orgId, policy)), None, None, entry));
    }

    /** The engine's answer; it does not depend on the iteration order of the registry. */
    method Evaluate(req: Policy.QueryRequest) returns (d: Policy.Answer)
      requires Valid()
      ensures DecidedOn(d, Memory(), req)
      ensures d == Err(ValueError) <==> req.epsilon < 0.0 || req.delta < 0.0
      ensures Policy.Allowed(d) <==> ApprovedBy(Memory(), req)
      ensures Policy.Allowed(d) ==> Policy.WellFormedRequest(req) && |d.value.participants| >= Policy.MIN_PARTICIPANTS
    {
      var registry := LiveRegistry(orgs);
      var ids := ListKeys(registry);
      var engine := new Policy.PolicyEngine(OrgsIn(ids, registry), policies);
      d := engine.Evaluate(req);
      if Policy.Allowed(d) {
        Policy.AllowedIsWellFormed(OrgsIn(ids, registry), policies, req);
      }
      OneOrderDecides(ids, d, registry, policies, req);
      DecisionMeansApproved(d, registry, policies, req);
    }

    /** Audit entry and commit of a call that has already been charged. */
    method CommitCharge(ghost before: Mem, ghost op: Op, spentBefore: PrivacyBudget, server: Option<ServerWrite>,
                        payload: Audit.Payload)
      returns (r: Result<(), Error>)
      requires Valid() && op.payload == payload && IdOf(op).Some? && Execute(cfg, before, op).Some?
      requires Memory() == Execute(cfg, before, op).value.mem.(audit := before.audit)
      requires Execute(cfg, before, op).value.bundle.budget == Some(BudgetWrite(accountant.State(), spentBefore))
      requires Execute(cfg, before, op).value.bundle.server == server
      modifies this, audit, store
      ensures Valid()
      ensures Settled(Execute(cfg, before, op).value, old(store.state), ErrorOf(r))
    {
      ghost var done := Execute(cfg, before, op).value;
      var entry := audit.Record(payload);
      var b := Bundle(None, None, Some(BudgetWrite(accountant.State(), spentBefore)), server, entry);
      assert b == done.bundle && Memory() == done.mem;
      r := Commit(b);
    }

    /** How an approved query ends whose opened value is released with noise. */
    ghost predicate QueryEnds(before: Mem, s: Store, req: Policy.QueryRequest, shapeOk: bool, eventId: string,
                              payload: Audit.Payload, raised: Option<Error>)
      reads this, accountant, audit, store
    {
      QueryEndsAs(cfg, before, s, Query(req, eventId, payload), shapeOk, raised, Memory(), store.state)
    }

    /** Charge, shape check, audit entry and commit of an approved query. */
    method ChargeQuery(req: Policy.QueryRequest, shapeOk: bool, eventId: string, payload: Audit.Payload)
      returns (r: Result<(), Error>)
      requires Valid() && req.metric != ROUND_METRIC && ApprovedBy(Memory(), req) && Policy.WellFormedRequest(req)
      modifies this, accountant, audit, store
      ensures Valid()
      ensures QueryEnds(old(Memory()), old(store.state), req, shapeOk, eventId, payload, ErrorOf(r))
    {
      ghost var before, op := Memory(), Query(req, eventId, payload);
      var spentBefore := accountant.spent;
      var charge := LaplaceCharge(cfg.m, req.epsilon, eventId);
      LaplaceOrders(cfg.m, req.epsilon, eventId);
      QueryOutcome(cfg, before, op, charge);
      var charged := accountant.Charge(charge.cost, charge.rdp, eventId);
      if charged.Err? {
        return Err(charged.error);
      }
      if !shapeOk {
        return Err(InvalidDataError);
      }
      r := CommitCharge(before, op, spentBefore, None, payload);
    }

    /** Differentially private joint bucket counts. */
    method Histogram(sqrt: real -> real, req: Policy.QueryRequest, buckets: map<OrgId, seq<int>>, labels: Option<nat>,
                     noise: nat -> real, nodeIds: seq<string>, tapes: nat -> SecretSharing.Tape,
                     eventId: string, payload: Audit.Payload)
      returns (d: Policy.Answer, r: Result<seq<int>, Error>)
      requires Valid() && req.metric == "histogram"
      modifies this, accountant, audit, store
      ensures Valid() && DecidedOn(d, old(Memory()), req)
      ensures HistogramInputs(sqrt, d, buckets, nodeIds).Err? ==>
                r.Err? && r.error == HistogramInputs(sqrt, d, buckets, nodeIds).error
                && Untouched(old(Memory()), old(store.state))
      ensures HistogramInputs(sqrt, d, buckets, nodeIds).Ok? ==>
                var capped := HistogramInputs(sqrt, d, buckets, nodeIds).value;
                var shapeOk := labels.None? || labels.value == |capped[0]|;
                && QueryEnds(old(Memory()), old(store.state), req, shapeOk, eventId, payload, ErrorOf(r))
                && (r.Ok? ==> shapeOk && NoisyTotals(r.value, capped, nodeIds, noise))
    {
      d := Evaluate(req);
      var raw := Totals(sqrt, d, buckets, nodeIds, tapes);
      if raw.Err? {
        return d, Err(raw.error);
      }
      var settled := ChargeQuery(req, labels.None? || labels.value == |raw.value|, eventId, payload);
      if settled.Err? {
        return d, Err(settled.error);
      }
      return d, Ok(Noised(raw.value, noise));
    }

    /** Differentially private pooled variance, floored at 0. */
    method Variance(req: Policy.QueryRequest, values: map<OrgId, seq<real>>, noise: real, nodeIds: seq<string>,
                    tapes: nat -> SecretSharing.Tape, eventId: string, payload: Audit.Payload)
      returns (d: Policy.Answer, r: Result<real, Error>)
      requires Valid() && req.metric == "variance"
      modifies this, accountant, audit, store
      ensures Valid() && DecidedOn(d, old(Memory()), req)
      ensures VarianceInputs(d, values, nodeIds).Err? ==>
                r.Err? && r.error == VarianceInputs(d, values, nodeIds).error
                && Untouched(old(Memory()), old(store.state))
      ensures VarianceInputs(d, values, nodeIds).Ok? ==>
                && QueryEnds(old(Memory()), old(store.state), req, true, eventId, payload, ErrorOf(r))
                && (r.Ok? ==> NoisyVariance(r.value, VarianceInputs(d, values, nodeIds).value, nodeIds, noise))
    {
      d := Evaluate(req);
      var rows := VarianceInputs(d, values, nodeIds);
      if rows.Err? {
        return d, Err(rows.error);
      }
      var value := OpenVariance(rows.value, nodeIds, tapes, noise);
      var settled := ChargeQuery(req, true, eventId, payload);
      if settled.Err? {
        return d, Err(settled.error);
      }
      return d, Ok(value);
    }

    /** Differentially private pooled correlation, clipped to [-1, 1]. */
    method Correlation(sqrt: real -> real, req: Policy.QueryRequest, pairs: map<OrgId, Mpc.Columns>, noise: real,
                       nodeIds: seq<string>, tapes: nat -> SecretSharing.Tape, eventId: string, payload: Audit.Payload)
      returns (d: Policy.Answer, r: Result<real, Error>)
      requires Valid() && IsSquareRoot(sqrt) && req.metric == "correlation"
      modifies this, accountant, audit, store
      ensures Valid() && DecidedOn(d, old(Memory()), req)
      ensures CorrelationInputs(d, pairs, nodeIds).Err? ==>
                r.Err? && r.error == CorrelationInputs(d, pairs, nodeIds).error
                && Untouched(old(Memory()), old(store.state))
      ensures CorrelationInputs(d, pairs, nodeIds).Ok? ==>
                && QueryEnds(old(Memory()), old(store.state), req, true, eventId, payload, ErrorOf(r))
                && (r.Ok? ==>
                    NoisyCorrelation(r.value, sqrt, CorrelationInputs(d, pairs, nodeIds).value, nodeIds, noise))
    {
      d := Evaluate(req);
      var columns := CorrelationInputs(d, pairs, nodeIds);
      if columns.Err? {
        return d, Err(columns.error);
      }
      var value := OpenCorrelation(sqrt, columns.value, nodeIds, tapes, noise);
      var settled := ChargeQuery(req, true, eventId, payload);
      if settled.Err? {
        return d, Err(settled.error);
      }
      return d, Ok(value);
    }

    /** Charge, audit entry and commit of an approved round whose training is already in memory. */
    method ChargeRound(ghost before: Mem, ghost op: Op, req: Policy.QueryRequest, result: Federated.RoundResult,
                       charge: Request, roundsBefore: nat, payload: Audit.Payload)
      returns (r: Result<(), Error>)
      requires Valid() && op.Round? && op.req == req && op.result == result && op.payload == payload
      requires req.metric == ROUND_METRIC && ApprovedBy(before, req) && result.participants != [] && op.evaluated
      requires ChargeOf(cfg, op) == Some(charge) && charge.cost.epsilon > 0.0
      requires Continues(ServerIn(before, RoundKey(req), op.dim), result)
      requires roundsBefore == |ServerIn(before, RoundKey(req), op.dim).history|
      requires Memory() == before.(servers := before.servers[RoundKey(req) :=
                             AfterRound(ServerIn(before, RoundKey(req), op.dim), result)])
      requires charge.rdp.Some? && ValidOrders(charge.rdp.value)
      modifies this, accountant, audit, store
      ensures Valid()
      ensures TrainedEnds(cfg, before, old(store.state), op, ErrorOf(r), Memory(), store.state)
    {
      var spentBefore := accountant.spent;
      var charged := accountant.Charge(charge.cost, charge.rdp, charge.id);
      if charged.Err? {
        return Err(charged.error);
      }
      var key := RoundKey(req);
      r := CommitCharge(before, op, spentBefore,
                        Some(ServerWrite(key, EncodeServer(servers[key]), roundsBefore, result)), payload);
    }

    /** A federated round: train, then charge, then commit budget, model, round and audit entry together. */
    method RunFederatedRound(prims: SecAgg.Primitives, req: Policy.QueryRequest,
                             clients: map<OrgId, Federated.FederatedClient>, drop: seq<OrgId>,
                             noise: nat -> real, roundId: string, evalId: string, eventId: string,
                             payload: Audit.Payload)
      returns (d: Policy.Answer, r: Result<Federated.RoundResult, Error>, ghost op: Op)
      requires Valid() && LawfulAnalysis(cfg.m) && SecAgg.Lawful(prims) && req.metric == ROUND_METRIC
      modifies this, accountant, audit, store
      ensures Valid() && DecidedOn(d, old(Memory()), req)
      ensures RosterOf(d, clients).Err? ==>
                r == Err(RosterOf(d, clients).error) && Untouched(old(Memory()), old(store.state))
      ensures RosterOf(d, clients).Ok? ==>
                var roster := RosterOf(d, clients).value;
                && roster != []
                && RoundEnds(cfg, old(Memory()), old(store.state), prims.sqrt, req, roster, roster[0].dim, drop, noise,
                             op, r, Memory(), store.state)
                && (op.Round? ==> op.id == eventId && op.payload == payload)
    {
      d := Evaluate(req);
      op := Query(req, eventId, payload);
      var roster := RosterOf(d, clients);
      if roster.Err? {
        r := Err(roster.error);
        return;
      }
      r, op := RunApproved(prims, req, roster.value, roster.value[0].dim, drop, noise, roundId, evalId, eventId,
                           payload);
    }

    /** Training on the cohort's server, which is created on first use. */
    method TrainHere(prims: SecAgg.Primitives, req: Policy.QueryRequest, roster: seq<Federated.FederatedClient>,
                     live: LiveServer, drop: seq<OrgId>, noise: nat -> real, roundId: string, evalId: string)
      returns (r: Result<Federated.RoundResult, Error>, after: LiveServer)
      requires Valid() && SecAgg.Lawful(prims) && SizedServer(live)
      modifies this`servers
      ensures Valid() && IsTraining(r, after, prims.sqrt, cfg.m, req, roster, live, drop, noise)
      ensures Memory() == old(Memory()).(servers := old(servers)[RoundKey(req) := after])
    {
      r, after := Train(prims, cfg.m, live, req, roster, drop, noise, roundId, evalId);
      servers := servers[RoundKey(req) := after];
    }

    method RunApproved(prims: SecAgg.Primitives, req: Policy.QueryRequest, roster: seq<Federated.FederatedClient>,
                       dim: nat, drop: seq<OrgId>, noise: nat -> real, roundId: string, evalId: string,
                       eventId: string, payload: Audit.Payload)
      returns (r: Result<Federated.RoundResult, Error>, ghost op: Op)
      requires Valid() && LawfulAnalysis(cfg.m) && SecAgg.Lawful(prims) && req.metric == ROUND_METRIC
      requires ApprovedBy(Memory(), req) && Policy.WellFormedRequest(req)
      modifies this, accountant, audit, store
      ensures Valid()
      ensures RoundEnds(
          cfg, old(Memory()), old(store.state), prims.sqrt, req, roster, dim, drop, noise, op, r, Memory(),
                        store.state)
      ensures op.Round? ==> op.id == eventId && op.payload == payload
    {
      ghost var before := Memory();
      ServerInSized(before, RoundKey(req), dim);
      var live := ServerAt(servers, RoundKey(req), dim);
      var roundsBefore := |live.history|;
      var after: LiveServer;
      r, after := TrainHere(prims, req, roster, live, drop, noise, roundId, evalId);
      if r.Err? {
        op := FailedTraining(cfg, before, store.state, prims.sqrt, req, roster, live, after, dim, drop, noise, r,
                             eventId, payload);
        return;
      }
      op := Round(req, dim, r.value, true, eventId, payload);
      TrainedRound(cfg, prims.sqrt, req, roster, live, after, dim, drop, noise, r, op);
      ghost var result := r.value;
      var settled := ChargeTrained(before, op, prims.sqrt, req, roster, live, dim, drop, noise, r.value, eventId,
                                   roundsBefore, payload);
      if settled.Err? {
        r := Err(settled.error);
      }
      TrainedRoundEnds(cfg, before, old(store.state), prims.sqrt, req, roster, live, dim, drop, noise, op, result, r,
                       ErrorOf(settled), Memory(), store.state);
    }

    /** The charge of a round that trained, from the noise it used, and its commit. */
    method ChargeTrained(ghost before: Mem, ghost op: Op, sqrt: real -> real, req: Policy.QueryRequest,
                         ghost roster: seq<Federated.FederatedClient>, ghost live: LiveServer, ghost dim: nat,
                         ghost drop: seq<OrgId>, ghost noise: nat -> real, result: Federated.RoundResult,
                         eventId: string, roundsBefore: nat, payload: Audit.Payload)
      returns (r: Result<(), Error>)
      requires Valid() && LawfulAnalysis(cfg.m) && op == Round(req, dim, result, true, eventId, payload)
      requires req.metric == ROUND_METRIC && ApprovedBy(before, req) && Policy.WellFormedRequest(req)
      requires Federated.IsRound(result, sqrt, cfg.m, roster, live.model, drop, noise, true, req.epsilon, req.delta)
      requires live == ServerIn(before, RoundKey(req), dim) && Continues(live, result) && roundsBefore == |live.history|
      requires Memory() == before.(servers := before.servers[RoundKey(req) := AfterRound(live, result)])
      modifies this, accountant, audit, store
      ensures Valid()
      ensures TrainedEnds(cfg, before, old(store.state), op, ErrorOf(r), Memory(), store.state)
    {
      var k := |result.participants|;
      RoundCharge(cfg.m, sqrt, req, roster, live.model, drop, noise, result, eventId);
      var rdp := GaussianRdpCost(Federated.MeanSensitivity(k), result.dpSigma).value;
      var charge := Request(PrivacyBudget(req.epsilon, req.delta), Some(rdp), eventId);
      GaussianOrders(cfg.m, req.epsilon, req.delta, k, eventId);
      r := ChargeRound(before, op, req, result, charge, roundsBefore, payload);
    }

    /** What a query would meet: governance, then admission of the charge it would make; changes nothing. */
    method Preview(req: Policy.QueryRequest) returns (d: Policy.Answer, allowed: Result<bool, Error>)
      requires Valid() && LawfulAnalysis(cfg.m)
      ensures DecidedOn(d, Memory(), req)
      ensures d.Err? ==> allowed == Err(d.error)
      ensures d.Ok? && !Policy.Allowed(d) ==> allowed == Ok(false)
      ensures Policy.Allowed(d) ==>
                && |d.value.participants| > 0
                && WellFormed(Memory().accountant, ReleaseCharge(cfg.m, req, |d.value.participants|, ""))
                && var verdict := Decide(cfg.m, Memory().accountant,
                                         ReleaseCharge(cfg.m, req, |d.value.participants|, ""));
                   allowed == if verdict.Invalid? then Err(ValueError) else Ok(verdict.Admitted?)
    {
      d := Evaluate(req);
      if d.Err? {
        return d, Err(d.error);
      }
      if !Policy.Allowed(d) {
        return d, Ok(false);
      }
      var k := |d.value.participants|;
      var charge := ReleaseCharge(cfg.m, req, k, "");
      ChargeOrders(cfg.m, req, k, "");
      var verdict := accountant.Preview(charge.cost, charge.rdp);
      return d, if verdict.Invalid? then Err(ValueError) else Ok(verdict.Admitted?);
    }
  }

  /** A platform on a store: the constructor's objects, replaced by the stored state when there is one. */
  method Start(cfg: Config, limit: PrivacyBudget, store: SqlStore) returns (p: Platform, r: Result<bool, Error>)
    requires OrdersOk(store.state.budget)
    ensures fresh(p) && fresh(p.accountant) && fresh(p.audit) && p.store == store && p.cfg == cfg && p.Valid()
    ensures r == Ok(false) <==> IsEmpty(store.state)
    ensures match Construct(limit, store.state)
            case Some(mem) => r.Ok? && p.Memory() == mem
            case None => r.Err? && p.Memory() == HalfLoaded(NewMem(limit), store.state)
  {
    p := new Platform(cfg, limit, store);
    r := p.Restore();
  }

  lemma DecodedSized(s: Store)
    requires Decodable(s)
    ensures SizedServers(DecodeServers(s))
  {
  }

  // ---- the round's training, roster and charge ----

  /** One round on a server object that starts from the given model and history. */
  method Train(prims: SecAgg.Primitives, m: Analysis, live: LiveServer, req: Policy.QueryRequest,
               roster: seq<Federated.FederatedClient>, drop: seq<OrgId>, noise: nat -> real, roundId: string,
               evalId: string)
    returns (r: Result<Federated.RoundResult, Error>, after: LiveServer)
    requires SizedServer(live) && SecAgg.Lawful(prims)
    ensures IsTraining(r, after, prims.sqrt, m, req, roster, live, drop, noise) && SizedServer(after)
  {
    var server := new Federated.FederatedServer(live.dim);
    server.model, server.history := live.model, live.history;
    r := server.RunRound(prims, m, roundId, evalId, roster, drop, noise, true, req.epsilon, req.delta);
    after := LiveServer(live.dim, server.model, server.history);
    if r.Ok? {
      AfterRoundSized(live, r.value);
    }
  }

  /** How a round of the roster on the given server ends, and what it leaves there. */
  ghost predicate IsTraining(r: Result<Federated.RoundResult, Error>, after: LiveServer, sqrt: real -> real,
                             m: Analysis, req: Policy.QueryRequest, roster: seq<Federated.FederatedClient>,
                             live: LiveServer, drop: seq<OrgId>, noise: nat -> real) {
    match Federated.RoundError(roster, live.model, drop, true, req.epsilon, req.delta)
    case Some(e) => r == Err(e) && after == live
    case None =>
      && Federated.IsNext(after.model, sqrt, roster, live.model, drop, noise, true)
      && (r.Ok? <==> Federated.AllFinite(Federated.ActiveClients(roster, drop), after.model))
      && (r.Err? ==> r == Err(InvalidDataError) && after == live.(model := after.model))
      && (r.Ok? ==>
            && Continues(live, r.value) && after == AfterRound(live, r.value)
            && Federated.IsRound(r.value, sqrt, m, roster, live.model, drop, noise, true, req.epsilon, req.delta))
  }

  /** The clients of the participants in decision order, or why the round stops before training. */
  function RosterOf(d: Policy.Answer, clients: map<OrgId, Federated.FederatedClient>)
    : Result<seq<Federated.FederatedClient>, Error>
  {
    if d.Err? then Err(d.error)
    else if !Policy.Allowed(d) then Err(GovernanceDenied)
    else if exists id :: id in d.value.participants && id !in clients then Err(InvalidDataError)
    else
      var ids := d.value.participants;
      Ok(seq(|ids|, k requires 0 <= k < |ids| => clients[ids[k]]))
  }

  /** When a round stops before training, and whose clients train otherwise. */
  lemma RosterMeans(d: Policy.Answer, clients: map<OrgId, Federated.FederatedClient>)
    ensures var r := RosterOf(d, clients);
            && (d.Err? ==> r == Err(d.error))
            && (d.Ok? && !Policy.Allowed(d) ==> r == Err(GovernanceDenied))
            && (Policy.Allowed(d) && SomeoneMissing(d, clients) ==> r == Err(InvalidDataError))
            && (Policy.Allowed(d) && !SomeoneMissing(d, clients) ==>
                  r.Ok? && Brings(r.value, d, clients, (c: Federated.FederatedClient) => c))
  {
    if Policy.Allowed(d) && SomeoneMissing(d, clients) {
      var k :| 0 <= k < |d.value.participants| && d.value.participants[k] !in clients;
      assert d.value.participants[k] in d.value.participants;
    }
  }

  /** The operation a training amounts to: its result if it was evaluated, otherwise the model it moved to. */
  ghost predicate IsRoundOp(op: Op, m: Analysis, sqrt: real -> real, req: Policy.QueryRequest,
                            roster: seq<Federated.FederatedClient>, server: LiveServer, dim: nat, drop: seq<OrgId>,
                            noise: nat -> real) {
    && op.Round? && op.req == req && op.dim == dim && Continues(server, op.result)
    && (op.evaluated <==> Federated.AllFinite(Federated.ActiveClients(roster, drop), op.result.model))
    && Federated.IsNext(op.result.model, sqrt, roster, server.model, drop, noise, true)
    && (op.evaluated ==>
          && op.result.participants != []
          && Federated.IsRound(op.result, sqrt, m, roster, server.model, drop, noise, true, req.epsilon, req.delta))
  }

  /** A round whose evaluation failed; of its result only participants, model and aggregate mean anything. */
  lemma UnevaluatedOp(m: Analysis, sqrt: real -> real, req: Policy.QueryRequest,
                      roster: seq<Federated.FederatedClient>, live: LiveServer, after: LiveServer, dim: nat,
                      drop: seq<OrgId>, noise: nat -> real, eventId: string, payload: Audit.Payload)
    returns (op: Op)
    requires SizedServer(live) && after.dim == live.dim
    requires Federated.IsNext(after.model, sqrt, roster, live.model, drop, noise, true)
    requires !Federated.AllFinite(Federated.ActiveClients(roster, drop), after.model)
    ensures IsRoundOp(op, m, sqrt, req, roster, live, dim, drop, noise)
    ensures op.Round? && !op.evaluated && op.result.model == after.model && op.id == eventId && op.payload == payload
    ensures op.result.participants != []
  {
    var aggregate :| Federated.IsAggregate(aggregate, sqrt, roster, live.model, drop, noise, true)
                     && after.model == Add(live.model, aggregate);
    var ids := Federated.ClientIds(Federated.ActiveClients(roster, drop));
    SortedLength(ids);
    var result := Federated.RoundResult("", Sorting.Sorted(ids), [], aggregate, after.model,
                                        Federated.EvalStats(0, None, 0, None), true, req.epsilon, 0.0, req.delta);
    op := Round(req, dim, result, false, eventId, payload);
  }

  lemma UnevaluatedSpoils(cfg: Config, before: Mem, op: Op, after: LiveServer)
    requires op.Round? && !op.evaluated && op.req.metric == ROUND_METRIC && ApprovedBy(before, op.req)
    requires Continues(ServerIn(before, RoundKey(op.req), op.dim), op.result) && op.result.participants != []
    requires after == ServerIn(before, RoundKey(op.req), op.dim).(model := op.result.model)
    ensures Execute(cfg, before, op).None?
    ensures Spoil(cfg, before, op) == before.(servers := before.servers[RoundKey(op.req) := after])
  {
  }

  /** A training that raised: nothing has moved but perhaps a new server, or the model alone. */
  lemma FailedTraining(cfg: Config, before: Mem, s: Store, sqrt: real -> real, req: Policy.QueryRequest,
                       roster: seq<Federated.FederatedClient>, live: LiveServer, after: LiveServer, dim: nat,
                       drop: seq<OrgId>, noise: nat -> real, r: Result<Federated.RoundResult, Error>, eventId: string,
                       payload: Audit.Payload)
    returns (op: Op)
    requires IsTraining(r, after, sqrt, cfg.m, req, roster, live, drop, noise) && r.Err? && SizedServer(live)
    requires live == ServerIn(before, RoundKey(req), dim) && req.metric == ROUND_METRIC && ApprovedBy(before, req)
    ensures RoundEnds(cfg, before, s, sqrt, req, roster, dim, drop, noise, op, r,
                      before.(servers := before.servers[RoundKey(req) := after]), s)
    ensures op.Round? ==> op.id == eventId && op.payload == payload
  {
    op := Query(req, eventId, payload);
    if Federated.RoundError(roster, live.model, drop, true, req.epsilon, req.delta) == None {
      op := UnevaluatedOp(cfg.m, sqrt, req, roster, live, after, dim, drop, noise, eventId, payload);
      UnevaluatedSpoils(cfg, before, op, after);
    }
  }

  /** A training that went through: its operation, with the result's own model and participants. */
  lemma TrainedRound(cfg: Config, sqrt: real -> real, req: Policy.QueryRequest,
                     roster: seq<Federated.FederatedClient>, live: LiveServer, after: LiveServer, dim: nat,
                     drop: seq<OrgId>, noise: nat -> real, r: Result<Federated.RoundResult, Error>, op: Op)
    requires IsTraining(r, after, sqrt, cfg.m, req, roster, live, drop, noise) && r.Ok?
    requires op.Round? && op == Round(req, dim, r.value, true, op.id, op.payload)
    ensures Federated.RoundError(roster, live.model, drop, true, req.epsilon, req.delta) == None
    ensures Continues(live, r.value) && after == AfterRound(live, r.value)
    ensures Federated.IsRound(r.value, sqrt, cfg.m, roster, live.model, drop, noise, true, req.epsilon, req.delta)
    ensures IsRoundOp(op, cfg.m, sqrt, req, roster, live, dim, drop, noise)
  {
    SortedLength(Federated.ClientIds(Federated.ActiveClients(roster, drop)));
  }

  lemma TrainedRoundEnds(cfg: Config, before: Mem, s: Store, sqrt: real -> real, req: Policy.QueryRequest,
                         roster: seq<Federated.FederatedClient>, live: LiveServer, dim: nat, drop: seq<OrgId>,
                         noise: nat -> real, op: Op, result: Federated.RoundResult,
                         r: Result<Federated.RoundResult, Error>, raised: Option<Error>, mem: Mem, s': Store)
    requires live == ServerIn(before, RoundKey(req), dim) && raised == ErrorOf(r) && (r.Ok? ==> r.value == result)
    requires Federated.RoundError(roster, live.model, drop, true, req.epsilon, req.delta) == None
    requires IsRoundOp(op, cfg.m, sqrt, req, roster, live, dim, drop, noise)
    requires op.Round? && op.evaluated && op.result == result
    requires TrainedEnds(cfg, before, s, op, raised, mem, s')
    ensures RoundEnds(cfg, before, s, sqrt, req, roster, dim, drop, noise, op, r, mem, s')
  {
  }

  lemma SortedLength(ids: seq<OrgId>)
    ensures |Sorting.Sorted(ids)| == |ids|
  {
    Policy.SameSize(Sorting.Sorted(ids), ids);
  }

  /** The cost computed from the round's own noise is the calibrated charge of its cohort. */
  lemma RoundCharge(m: Analysis, sqrt: real -> real, req: Policy.QueryRequest, roster: seq<Federated.FederatedClient>,
                    model: seq<real>, drop: seq<OrgId>, noise: nat -> real, result: Federated.RoundResult, id: string)
    requires LawfulAnalysis(m) && Policy.WellFormedRequest(req)
    requires Federated.IsRound(result, sqrt, m, roster, model, drop, noise, true, req.epsilon, req.delta)
    ensures var k := |result.participants|;
            && k > 0
            && GaussianRdpCost(Federated.MeanSensitivity(k), result.dpSigma).Ok?
            && GaussianCharge(m, req.epsilon, req.delta, k, id)
               == Request(PrivacyBudget(req.epsilon, req.delta),
                          Some(GaussianRdpCost(Federated.MeanSensitivity(k), result.dpSigma).value), id)
  {
    SortedLength(Federated.ClientIds(Federated.ActiveClients(roster, drop)));
    var k := |result.participants|;
    SensitivityPositive(k);
    GaussianCostIgnoresCohort(m, Federated.MeanSensitivity(k), Federated.MeanSensitivity(k), req.epsilon, req.delta);
  }

  // ---- the histogram's computation ----

  /** Contributions of the participants in participant order. */
  function BucketsOf(participants: seq<OrgId>, buckets: map<OrgId, seq<int>>): (raw: seq<seq<int>>)
    requires forall id :: id in participants ==> id in buckets
    ensures |raw| == |participants| && forall k :: 0 <= k < |raw| ==> raw[k] == buckets[participants[k]]
  {
    seq(|participants|, k requires 0 <= k < |participants| => buckets[participants[k]])
  }

  /** The capped vectors the query shares, or why it stops before anything is charged. */
  function HistogramInputs(sqrt: real -> real, d: Policy.Answer, buckets: map<OrgId, seq<int>>, nodeIds: seq<string>)
    : Result<seq<seq<int>>, Error>
  {
    if d.Err? then Err(d.error)
    else if !Policy.Allowed(d) then Err(GovernanceDenied)
    else if exists id :: id in d.value.participants && id !in buckets then Err(InvalidDataError)
    else
      var capped := C.CapAll(sqrt, BucketsOf(d.value.participants, buckets), C.MAX_ORG_CONTRIB);
      if capped == [] || |nodeIds| < 2 || !Mpc.Shareable(capped) then Err(InvalidDataError) else Ok(capped)
  }

  method Totals(sqrt: real -> real, d: Policy.Answer, buckets: map<OrgId, seq<int>>, nodeIds: seq<string>,
                tapes: nat -> SecretSharing.Tape)
    returns (r: Result<seq<int>, Error>)
    ensures r.Err? ==> HistogramInputs(sqrt, d, buckets, nodeIds) == Err(r.error)
    ensures r.Ok? ==> HistogramInputs(sqrt, d, buckets, nodeIds).Ok? && Policy.Allowed(d)
                      && |r.value| == |HistogramInputs(sqrt, d, buckets, nodeIds).value[0]|
                      && C.OpensTotals(r.value, HistogramInputs(sqrt, d, buckets, nodeIds).value, nodeIds)
  {
    if d.Err? {
      return Err(d.error);
    }
    if !Policy.Allowed(d) {
      return Err(GovernanceDenied);
    }
    if exists id :: id in d.value.participants && id !in buckets {
      return Err(InvalidDataError);
    }
    r := C.JointHistogram(sqrt, BucketsOf(d.value.participants, buckets), C.MAX_ORG_CONTRIB, nodeIds, tapes);
    if r.Err? {
      return Err(InvalidDataError);
    }
  }

  /** The two decisions name the same participants but for the k-th of the first. */
  ghost predicate OneFewer(d: Policy.Answer, fewer: Policy.Answer, k: nat) {
    && Policy.Allowed(d) && Policy.Allowed(fewer) && k < |d.value.participants|
    && fewer.value.participants == C.Without(d.value.participants, k)
  }

  lemma BucketsWithout(ids: seq<OrgId>, buckets: map<OrgId, seq<int>>, k: nat)
    requires k < |ids| && forall id :: id in ids ==> id in buckets
    ensures (forall id :: id in C.Without(ids, k) ==> id in buckets)
    ensures BucketsOf(C.Without(ids, k), buckets) == C.Without(BucketsOf(ids, buckets), k)
  {
  }

  /** What participants bring to a query, in decision order. */
  ghost predicate Brings<T, U>(inputs: seq<T>, d: Policy.Answer, held: map<OrgId, U>, bring: U -> T)
    requires Policy.Allowed(d)
  {
    && |inputs| == |d.value.participants|
    && forall k :: 0 <= k < |inputs| ==>
         d.value.participants[k] in held && inputs[k] == bring(held[d.value.participants[k]])
  }

  /** Some participant has nothing to bring. */
  ghost predicate SomeoneMissing<U>(d: Policy.Answer, held: map<OrgId, U>)
    requires Policy.Allowed(d)
  {
    exists k :: 0 <= k < |d.value.participants| && d.value.participants[k] !in held
  }

  /** The k-th participant's capped buckets are not as many as the first one's, or leave the field. */
  ghost predicate Unshareable(sqrt: real -> real, d: Policy.Answer, buckets: map<OrgId, seq<int>>, k: nat)
    requires Policy.Allowed(d) && k < |d.value.participants|
  {
    var ids := d.value.participants;
    && ids[0] in buckets && ids[k] in buckets
    && var v := C.CapContributions(sqrt, buckets[ids[k]], C.MAX_ORG_CONTRIB);
       |v| != |buckets[ids[0]]| || exists i :: 0 <= i < |v| && !(0 <= v[i] < SecretSharing.FIELD_P)
  }

  lemma SomeUnshareable(sqrt: real -> real, d: Policy.Answer, buckets: map<OrgId, seq<int>>, capped: seq<seq<int>>)
    requires Policy.Allowed(d) && d.value.participants != []
    requires forall id :: id in d.value.participants ==> id in buckets
    requires capped == C.CapAll(sqrt, BucketsOf(d.value.participants, buckets), C.MAX_ORG_CONTRIB)
    requires !Mpc.Shareable(capped)
    ensures exists k :: 0 <= k < |d.value.participants| && Unshareable(sqrt, d, buckets, k)
  {
    var k :| 0 <= k < |capped| && !(SecretSharing.InField(capped[k]) && |capped[k]| == |capped[0]|);
    assert Unshareable(sqrt, d, buckets, k);
  }

  /** The vectors a histogram query shares: of every participant, in order, its own buckets after the cap. */
  ghost predicate SharesCapped(sqrt: real -> real, d: Policy.Answer, buckets: map<OrgId, seq<int>>,
                               capped: seq<seq<int>>) {
    && Policy.Allowed(d) && d.value.participants != []
    && Brings(capped, d, buckets, (v: seq<int>) => C.CapContributions(sqrt, v, C.MAX_ORG_CONTRIB))
    && forall k :: 0 <= k < |capped| ==>
         && |capped[k]| == |capped[0]|
         && forall i :: 0 <= i < |capped[k]| ==> 0 <= capped[k][i] < SecretSharing.FIELD_P
  }

  lemma AcceptedInputs(sqrt: real -> real, d: Policy.Answer, buckets: map<OrgId, seq<int>>, nodeIds: seq<string>,
                       capped: seq<seq<int>>)
    requires HistogramInputs(sqrt, d, buckets, nodeIds) == Ok(capped)
    ensures SharesCapped(sqrt, d, buckets, capped) && |nodeIds| >= 2
  {
  }

  lemma RefusedInputs(sqrt: real -> real, d: Policy.Answer, buckets: map<OrgId, seq<int>>, nodeIds: seq<string>)
    requires Policy.Allowed(d) && HistogramInputs(sqrt, d, buckets, nodeIds).Err?
    ensures HistogramInputs(sqrt, d, buckets, nodeIds) == Err(InvalidDataError)
    ensures d.value.participants == [] || |nodeIds| < 2 || SomeoneMissing(d, buckets)
            || exists k :: 0 <= k < |d.value.participants| && Unshareable(sqrt, d, buckets, k)
  {
    var ids := d.value.participants;
    if ids != [] && |nodeIds| >= 2 && !SomeoneMissing(d, buckets) {
      assert forall id :: id in ids ==> id in buckets;
      SomeUnshareable(sqrt, d, buckets, C.CapAll(sqrt, BucketsOf(ids, buckets), C.MAX_ORG_CONTRIB));
    }
  }

  /** When a histogram query stops before its charge and with what, and what it shares otherwise. */
  lemma HistogramInputsMean(sqrt: real -> real, d: Policy.Answer, buckets: map<OrgId, seq<int>>, nodeIds: seq<string>)
    ensures var r := HistogramInputs(sqrt, d, buckets, nodeIds);
            && (d.Err? ==> r == Err(d.error))
            && (d.Ok? && !Policy.Allowed(d) ==> r == Err(GovernanceDenied))
            && (r.Ok? ==> SharesCapped(sqrt, d, buckets, r.value) && |nodeIds| >= 2)
            && (Policy.Allowed(d) && r.Err? ==>
                  && r == Err(InvalidDataError)
                  && (|| d.value.participants == [] || |nodeIds| < 2 || SomeoneMissing(d, buckets)
                      || exists k :: 0 <= k < |d.value.participants| && Unshareable(sqrt, d, buckets, k)))
  {
    var r := HistogramInputs(sqrt, d, buckets, nodeIds);
    if r.Ok? {
      AcceptedInputs(sqrt, d, buckets, nodeIds, r.value);
    } else if Policy.Allowed(d) {
      RefusedInputs(sqrt, d, buckets, nodeIds);
    }
  }

  /** The shared vectors of an accepted query are the participants' capped buckets, all of one length. */
  lemma InputsAreCapped(sqrt: real -> real, d: Policy.Answer, buckets: map<OrgId, seq<int>>, nodeIds: seq<string>,
                        capped: seq<seq<int>>)
    requires HistogramInputs(sqrt, d, buckets, nodeIds) == Ok(capped)
    ensures Policy.Allowed(d) && capped != [] && forall id :: id in d.value.participants ==> id in buckets
    ensures capped == C.CapAll(sqrt, BucketsOf(d.value.participants, buckets), C.MAX_ORG_CONTRIB)
    ensures forall k :: 0 <= k < |capped| ==> |capped[k]| == |capped[0]|
  {
  }

  /**
   * Whether one organization takes part or not moves the totals a histogram query opens by at most the cap in L2, for
   * cohorts whose size times the cap is within the signed range.
   */
  lemma OpenedSensitivity(sqrt: real -> real, d: Policy.Answer, fewer: Policy.Answer, k: nat,
                          buckets: map<OrgId, seq<int>>, nodeIds: seq<string>, capped: seq<seq<int>>,
                          cappedFewer: seq<seq<int>>, total: seq<int>, without: seq<int>)
    requires IsSquareRoot(sqrt) && NoDuplicates(nodeIds) && OneFewer(d, fewer, k)
    requires HistogramInputs(sqrt, d, buckets, nodeIds) == Ok(capped)
    requires HistogramInputs(sqrt, fewer, buckets, nodeIds) == Ok(cappedFewer)
    requires |capped| * 100 <= Mpc.SIGNED_MAX && |capped[0]| == |total| == |without|
    requires C.OpensTotals(total, capped, nodeIds) && C.OpensTotals(without, cappedFewer, nodeIds)
    ensures SumSq(C.AsReals(C.Difference(total, without))) <= C.MAX_ORG_CONTRIB * C.MAX_ORG_CONTRIB
  {
    InputsAreCapped(sqrt, d, buckets, nodeIds, capped);
    InputsAreCapped(sqrt, fewer, buckets, nodeIds, cappedFewer);
    assert |capped[k]| == |capped[0]|;
    BucketsWithout(d.value.participants, buckets, k);
    C.CappedSensitivity(sqrt, BucketsOf(d.value.participants, buckets), k, nodeIds, total, without);
  }

  function Noised(total: seq<int>, noise: nat -> real): (r: seq<int>)
    ensures |r| == |total| && forall i :: 0 <= i < |r| ==> r[i] == SecAgg.Rint(total[i] as real + noise(i))
  {
    seq(|total|, i requires 0 <= i < |total| => SecAgg.Rint(total[i] as real + noise(i)))
  }

  ghost predicate NoisyTotals(value: seq<int>, capped: seq<seq<int>>, nodeIds: seq<string>, noise: nat -> real)
    requires capped != []
  {
    exists total :: |total| == |capped[0]| && C.OpensTotals(total, capped, nodeIds) && value == Noised(total, noise)
  }

  // ---- the scalar statistics' inputs ----

  /** The participants' rows in participant order, or why the query stops before anything is charged. */
  function VarianceInputs(d: Policy.Answer, values: map<OrgId, seq<real>>, nodeIds: seq<string>)
    : Result<seq<seq<real>>, Error>
  {
    if d.Err? then Err(d.error)
    else if !Policy.Allowed(d) then Err(GovernanceDenied)
    else if exists id :: id in d.value.participants && id !in values then Err(KeyError)
    else
      var rows := seq(
          |d.value.participants|, k requires 0 <= k < |d.value.participants| => values[d.value.participants[k]]);
      if Mpc.TotalLength(rows) >= 2 && |nodeIds| < 2 then Err(InvalidDataError) else Ok(rows)
  }

  /** When a variance query stops before its charge, and whose rows it pools otherwise. */
  lemma VarianceInputsMean(d: Policy.Answer, values: map<OrgId, seq<real>>, nodeIds: seq<string>)
    ensures var r := VarianceInputs(d, values, nodeIds);
            && (d.Err? ==> r == Err(d.error))
            && (d.Ok? && !Policy.Allowed(d) ==> r == Err(GovernanceDenied))
            && (Policy.Allowed(d) && SomeoneMissing(d, values) ==> r == Err(KeyError))
            && (Policy.Allowed(d) && !SomeoneMissing(d, values) && r.Err? ==>
                  r == Err(InvalidDataError) && |nodeIds| < 2)
            && (r.Ok? ==>
                  && Policy.Allowed(d) && Brings(r.value, d, values, (v: seq<real>) => v)
                  && (Mpc.TotalLength(r.value) < 2 || |nodeIds| >= 2))
  {
    if Policy.Allowed(d) && SomeoneMissing(d, values) {
      var k :| 0 <= k < |d.value.participants| && d.value.participants[k] !in values;
      assert d.value.participants[k] in d.value.participants;
    }
  }

  /** The opened variance: the population variance of the pooled rows as far as the sums stay in range. */
  ghost predicate OpensVariance(raw: real, rows: seq<seq<real>>, nodeIds: seq<string>) {
    && raw >= 0.0
    && (Mpc.TotalLength(rows) < 2 ==> raw == 0.0)
    && (Mpc.TotalLength(rows) >= 2 && NoDuplicates(nodeIds) && Mpc.VarianceInRange(rows) ==>
          Mpc.PooledRows(rows) != [] && raw == Moments.PopulationVariance(Mpc.PooledRows(rows)))
  }

  /** An opened variance plus noise, floored at 0. */
  ghost predicate NoisyVariance(value: real, rows: seq<seq<real>>, nodeIds: seq<string>, noise: real) {
    exists raw :: OpensVariance(raw, rows, nodeIds) && value == Mpc.Max(0.0, raw + noise)
  }

  function CorrelationInputs(d: Policy.Answer, pairs: map<OrgId, Mpc.Columns>, nodeIds: seq<string>)
    : Result<seq<Mpc.Columns>, Error>
  {
    if d.Err? then Err(d.error)
    else if !Policy.Allowed(d) then Err(GovernanceDenied)
    else if exists id :: id in d.value.participants && id !in pairs then Err(KeyError)
    else
      var columns := seq(
          |d.value.participants|, k requires 0 <= k < |d.value.participants| => pairs[d.value.participants[k]]);
      if columns == [] then Err(AssertionFailed)
      else if |nodeIds| < 2 || !Mpc.Paired(columns) || !Mpc.CountsFit(columns) then Err(InvalidDataError)
      else Ok(columns)
  }

  /** Columns of different lengths, or with more rows than the field can count. */
  ghost predicate Unpaired(c: Mpc.Columns) {
    |c.xs| != |c.ys| || |c.xs| >= SecretSharing.FIELD_P
  }

  lemma SomeUnpaired(columns: seq<Mpc.Columns>)
    ensures Mpc.Paired(columns) && Mpc.CountsFit(columns) <==>
              forall k :: 0 <= k < |columns| ==> !Unpaired(columns[k])
  {
    if forall k :: 0 <= k < |columns| ==> !Unpaired(columns[k]) {
      forall k | 0 <= k < |columns| ensures |columns[k].xs| == |columns[k].ys| < SecretSharing.FIELD_P {
        assert !Unpaired(columns[k]);
      }
    }
  }

  /** When a correlation query stops before its charge, and whose columns it pools otherwise. */
  lemma CorrelationInputsMean(d: Policy.Answer, pairs: map<OrgId, Mpc.Columns>, nodeIds: seq<string>)
    ensures var r := CorrelationInputs(d, pairs, nodeIds);
            && (d.Err? ==> r == Err(d.error))
            && (d.Ok? && !Policy.Allowed(d) ==> r == Err(GovernanceDenied))
            && (Policy.Allowed(d) && SomeoneMissing(d, pairs) ==> r == Err(KeyError))
            && (Policy.Allowed(d) && !SomeoneMissing(d, pairs) && d.value.participants == [] ==>
                  r == Err(AssertionFailed))
            && (Policy.Allowed(d) && !SomeoneMissing(d, pairs) && d.value.participants != [] && r.Err? ==>
                  && r == Err(InvalidDataError)
                  && (|| |nodeIds| < 2
                      || exists k :: 0 <= k < |d.value.participants| && Unpaired(pairs[d.value.participants[k]])))
            && (r.Ok? ==>
                  && Policy.Allowed(d) && |nodeIds| >= 2 && Brings(r.value, d, pairs, (v: Mpc.Columns) => v)
                  && forall k :: 0 <= k < |r.value| ==> !Unpaired(r.value[k]))
  {
    if Policy.Allowed(d) {
      var ids := d.value.participants;
      if SomeoneMissing(d, pairs) {
        var k :| 0 <= k < |ids| && ids[k] !in pairs;
        assert ids[k] in ids;
      } else {
        assert forall id :: id in ids ==> id in pairs;
        SomeUnpaired(seq(|ids|, k requires 0 <= k < |ids| => pairs[ids[k]]));
      }
    }
  }

  /** The opened correlation: within [-1, 1], and Pearson's coefficient as far as the sums stay in range. */
  ghost predicate OpensCorrelation(raw: real, sqrt: real -> real, columns: seq<Mpc.Columns>, nodeIds: seq<string>)
    requires Mpc.Paired(columns)
  {
    && -1.0 <= raw <= 1.0
    && (NoDuplicates(nodeIds) && Mpc.CorrelationInRange(columns) ==>
          && |Mpc.PooledRows(Mpc.XRows(columns))| == |Mpc.PooledRows(Mpc.YRows(columns))|
          && Mpc.IsPearson(raw, sqrt, Mpc.PooledRows(Mpc.XRows(columns)), Mpc.PooledRows(Mpc.YRows(columns))))
  }

  /** An opened correlation plus noise, clipped to [-1, 1]. */
  ghost predicate NoisyCorrelation(value: real, sqrt: real -> real, columns: seq<Mpc.Columns>, nodeIds: seq<string>,
                                   noise: real)
    requires Mpc.Paired(columns)
  {
    exists raw :: OpensCorrelation(raw, sqrt, columns, nodeIds) && value == Mpc.Clip(raw + noise)
  }

  method OpenVariance(rows: seq<seq<real>>, nodeIds: seq<string>, tapes: nat -> SecretSharing.Tape, noise: real)
    returns (value: real)
    requires Mpc.TotalLength(rows) < 2 || |nodeIds| >= 2
    ensures NoisyVariance(value, rows, nodeIds, noise)
  {
    var raw := Mpc.RunVariance(rows, nodeIds, tapes);
    assert OpensVariance(raw.value, rows, nodeIds);
    value := Mpc.Max(0.0, raw.value + noise);
  }

  method OpenCorrelation(sqrt: real -> real, columns: seq<Mpc.Columns>, nodeIds: seq<string>,
                         tapes: nat -> SecretSharing.Tape, noise: real)
    returns (value: real)
    requires IsSquareRoot(sqrt) && columns != [] && |nodeIds| >= 2 && Mpc.Paired(columns) && Mpc.CountsFit(columns)
    ensures NoisyCorrelation(value, sqrt, columns, nodeIds, noise)
  {
    var raw := Mpc.RunCorrelation(sqrt, columns, nodeIds, tapes);
    assert OpensCorrelation(raw.value, sqrt, columns, nodeIds);
    value := Mpc.Clip(raw.value + noise);
  }
}
