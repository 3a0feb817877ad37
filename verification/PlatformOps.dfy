/** What each mutating platform call does to memory and asks the store to write (sentrylink/platform.py). */
module PlatformOps {
  import opened Foundations
  import opened AccountantTheorems
  import opened Approvals
  import opened DifferentialPrivacy
  import opened RealVectors
  import opened Storage
  import Audit
  import Federated
  import Policy

  /** The primitives the platform's records depend on. */
  datatype Config = Config(h: Audit.HashFn, m: Analysis)

  ghost predicate LawfulConfig(cfg: Config) {
    Audit.Ideal(cfg.h) && LawfulAnalysis(cfg.m)
  }

  /**
   * One mutating call with the values it drew or was given: identifiers, results of local computation, and the
   * audit payload. `id` is the identifier its budget event will have; `evaluated` says whether the masked evaluation
   * of a round went through.
   */
  datatype Op =
    | Join(org: LiveOrg, payload: Audit.Payload)
    | SetConsent(orgId: OrgId, metrics: set<string>, payload: Audit.Payload)
    | Query(req: Policy.QueryRequest, id: string, payload: Audit.Payload)
    | Round(req: Policy.QueryRequest, dim: nat, result: Federated.RoundResult, evaluated: bool, id: string,
            payload: Audit.Payload)

  datatype Executed = Executed(mem: Mem, bundle: Bundle)

  /** What the call is charged, if it is a release. */
  function ChargeOf(cfg: Config, op: Op): Option<Request> {
    match op
    case Query(req, id, _) => Some(LaplaceCharge(cfg.m, req.epsilon, id))
    case Round(req, _, result, _, id, _) =>
      if result.participants == [] then None
      else Some(GaussianCharge(cfg.m, req.epsilon, req.delta, |result.participants|, id))
    case _ => None
  }

  function IdOf(op: Op): Option<string> {
    match op
    case Query(_, id, _) => Some(id)
    case Round(_, _, _, _, id, _) => Some(id)
    case _ => None
  }

  /** The registry the policy engine sees. */
  function LiveRegistry(orgs: map<OrgId, LiveOrg>): (r: Registry)
    ensures r.Keys == orgs.Keys && forall id :: id in r ==> r[id] == orgs[id].org
  {
    map id | id in orgs :: orgs[id].org
  }

  /** The same, as stored. */
  function StoredRegistry(rows: map<OrgId, OrgRow>): (r: Registry)
    ensures r.Keys == rows.Keys && forall id :: id in r ==> r[id] == rows[id].org
  {
    map id | id in rows :: rows[id].org
  }

  /** Governance allows the request on the platform's own registry and consents. */
  ghost predicate ApprovedBy(mem: Mem, req: Policy.QueryRequest) {
    Approved(LiveRegistry(mem.orgs), mem.policies, req)
  }

  /** The accountant admits the charge; an approved request always has a positive epsilon. */
  ghost predicate Payable(cfg: Config, acc: Accountant, charge: Request) {
    charge.cost.epsilon > 0.0 && Admits(cfg.m, acc, charge)
  }

  /** The call is approved, is of the kind its metric asks for, and pays its charge. */
  ghost predicate Released(cfg: Config, mem: Mem, op: Op) {
    match op
    case Query(req, _, _) =>
      req.metric != ROUND_METRIC && ApprovedBy(mem, req) && Payable(cfg, mem.accountant, ChargeOf(cfg, op).value)
    case Round(req, _, result, evaluated, _, _) =>
      && req.metric == ROUND_METRIC && ApprovedBy(mem, req) && result.participants != [] && evaluated
      && Payable(cfg, mem.accountant, ChargeOf(cfg, op).value)
    case _ => false
  }

  function ZeroServer(dim: nat): (server: LiveServer)
    ensures server.dim == dim && |server.model| == dim + 1 && server.history == []
  {
    LiveServer(dim, seq(dim + 1, _ => 0.0), [])
  }

  /** The server of a cohort, created with a zero model on first use. */
  function ServerAt(servers: map<string, LiveServer>, key: string, dim: nat): LiveServer {
    if key in servers then servers[key] else ZeroServer(dim)
  }

  function ServerIn(mem: Mem, key: string, dim: nat): LiveServer {
    ServerAt(mem.servers, key, dim)
  }

  /** The result continues the server's model. */
  predicate Continues(server: LiveServer, result: Federated.RoundResult) {
    && |server.model| == server.dim + 1 && SizedRound(result, server.dim)
    && result.model == Add(server.model, result.aggregate)
  }

  function AfterRound(server: LiveServer, result: Federated.RoundResult): LiveServer {
    LiveServer(server.dim, result.model, server.history + [result])
  }

  function Logged(cfg: Config, mem: Mem, payload: Audit.Payload): Audit.Entry {
    Audit.NextEntry(cfg.h, Audit.Tip(mem.audit), payload)
  }

  /** The policy a consent update starts from. */
  function BasePolicy(mem: Mem, id: OrgId): Policy.ConsentPolicy
    requires id in mem.orgs
  {
    if id in mem.policies then mem.policies[id] else Policy.DefaultPolicyFor(mem.orgs[id].org)
  }

  function BudgetWriteOf(before: Accountant, after: Accountant): BudgetWrite {
    BudgetWrite(after, before.spent)
  }

  /** Memory after the call and the bundle it commits; None when the call raises before its commit. */
  ghost function Execute(cfg: Config, mem: Mem, op: Op): Option<Executed> {
    var entry := Logged(cfg, mem, op.payload);
    var audited := mem.(audit := mem.audit + [entry]);
    match op
    case Join(org, _) =>
      var id, policy := org.org.orgId, Policy.DefaultPolicyFor(org.org);
      if id in mem.orgs then None
      else Some(Executed(audited.(orgs := mem.orgs[id := org], policies := mem.policies[id := policy]),
                         Bundle(Some(EncodeOrg(org)), Some((id, policy)), None, None, entry)))
    case SetConsent(id, metrics, _) =>
      if id !in mem.orgs then None
      else
        var policy := BasePolicy(mem, id).(allowedMetrics := metrics);
        Some(Executed(audited.(policies := mem.policies[id := policy]),
                      Bundle(None, Some((id, policy)), None, None, entry)))
    case Query(_, _, _) =>
      if !Released(cfg, mem, op) then None
      else
        var acc := Charged(mem.accountant, ChargeOf(cfg, op).value);
        Some(Executed(audited.(accountant := acc),
                      Bundle(None, None, Some(BudgetWriteOf(mem.accountant, acc)), None, entry)))
    case Round(req, dim, result, _, _, _) =>
      var key := RoundKey(req);
      var server := ServerIn(mem, key, dim);
      if !Continues(server, result) || !Released(cfg, mem, op) then None
      else
        var acc, after := Charged(mem.accountant, ChargeOf(cfg, op).value), AfterRound(server, result);
        Some(Executed(audited.(accountant := acc, servers := mem.servers[key := after]),
                      Bundle(None, None, Some(BudgetWriteOf(mem.accountant, acc)),
                             Some(ServerWrite(key, EncodeServer(after), |server.history|, result)), entry)))
  }

  // ---- what a call does, part by part ----

  /** Exactly one entry is appended: the payload of the call, chained to the previous head. */
  ghost predicate Appends(cfg: Config, log: seq<Audit.Entry>, log': seq<Audit.Entry>, payload: Audit.Payload) {
    && |log'| == |log| + 1 && log'[..|log|] == log
    && var e, tip := log'[|log|], if log == [] then Audit.GENESIS else log[|log| - 1].hash;
       e.payload == payload && e.prevHash == tip && e.hash == cfg.h(tip, payload)
  }

  /** A policy with the floor and the epsilon cap of the organization's domain, whatever metrics it allows. */
  ghost predicate HasTerms(org: Policy.Organization, policy: Policy.ConsentPolicy) {
    && policy.minParticipants == Policy.DefaultPolicyFor(org).minParticipants
    && policy.maxEpsilonPerQuery == Policy.DefaultPolicyFor(org).maxEpsilonPerQuery
  }

  /**
   * Joining raises exactly for a known id; otherwise the organization is registered on its default terms, stored
   * without its plaintext key, and nothing else changes.
   */
  lemma JoinEffect(cfg: Config, mem: Mem, org: LiveOrg, payload: Audit.Payload)
    ensures Execute(cfg, mem, Join(org, payload)).None? <==> org.org.orgId in mem.orgs
    ensures Execute(cfg, mem, Join(org, payload)).Some? ==>
              var Executed(after, b) := Execute(cfg, mem, Join(org, payload)).value;
              && after.orgs == mem.orgs[org.org.orgId := org]
              && after.policies == mem.policies[org.org.orgId := Policy.DefaultPolicyFor(org.org)]
              && after.accountant == mem.accountant && after.servers == mem.servers
              && Appends(cfg, mem.audit, after.audit, payload) && b.entry == after.audit[|mem.audit|]
              && b.org == Some(OrgRow(org.org, org.keyHash, org.salt))
              && b.policy == Some((org.org.orgId, Policy.DefaultPolicyFor(org.org)))
              && b.budget.None? && b.server.None?
  {
  }

  /**
   * A consent update raises exactly for an unknown id; otherwise the organization consents from then on to exactly the
   * given metrics, on the terms it had, and no other organization is affected.
   */
  lemma ConsentEffect(cfg: Config, mem: Mem, id: OrgId, metrics: set<string>, payload: Audit.Payload, other: OrgId,
                      req: Policy.QueryRequest)
    ensures Execute(cfg, mem, SetConsent(id, metrics, payload)).None? <==> id !in mem.orgs
    ensures Execute(cfg, mem, SetConsent(id, metrics, payload)).Some? ==>
              var Executed(after, b) := Execute(cfg, mem, SetConsent(id, metrics, payload)).value;
              && after == mem.(policies := after.policies, audit := after.audit)
              && Appends(cfg, mem.audit, after.audit, payload) && b.entry == after.audit[|mem.audit|]
              && id in after.policies && b.policy == Some((id, after.policies[id]))
              && b.org.None? && b.budget.None? && b.server.None?
              && (Policy.Consents(after.policies, req, id) <==>
                    req.metric in metrics && req.epsilon <= after.policies[id].maxEpsilonPerQuery)
              && (id in mem.policies ==>
                    && after.policies[id].minParticipants == mem.policies[id].minParticipants
                    && after.policies[id].maxEpsilonPerQuery == mem.policies[id].maxEpsilonPerQuery)
              && (id !in mem.policies ==> HasTerms(mem.orgs[id].org, after.policies[id]))
              && (other != id ==>
                    && (other in after.policies <==> other in mem.policies)
                    && (other in mem.policies ==> after.policies[other] == mem.policies[other]))
  {
  }

  /**
   * A round that goes through moves the model of its cohort, zero if it is the cohort's first, by its aggregate, and
   * appends its result to that history; every other server, the registry and the consents stay as they are.
   */
  lemma RoundEffect(cfg: Config, mem: Mem, op: Op, c: nat)
    requires op.Round? && Execute(cfg, mem, op).Some?
    ensures var Executed(after, b) := Execute(cfg, mem, op).value;
            var key := op.req.sectorGroup + ":" + op.req.domain;
            && after.orgs == mem.orgs && after.policies == mem.policies
            && Appends(cfg, mem.audit, after.audit, op.payload) && b.entry == after.audit[|mem.audit|]
            && key in after.servers && after.servers == mem.servers[key := after.servers[key]]
            && |after.servers[key].model| == |op.result.aggregate|
            && (key in mem.servers ==>
                  && |mem.servers[key].model| == |op.result.aggregate|
                  && (c < |op.result.aggregate| ==>
                        after.servers[key].model[c] == mem.servers[key].model[c] + op.result.aggregate[c])
                  && after.servers[key].dim == mem.servers[key].dim
                  && after.servers[key].history == mem.servers[key].history + [op.result])
            && (key !in mem.servers ==>
                  && (c < |op.result.aggregate| ==> after.servers[key].model[c] == op.result.aggregate[c])
                  && after.servers[key].dim == op.dim && after.servers[key].history == [op.result])
            && b.server == Some(ServerWrite(
                  key, ServerRow(after.servers[key].dim, after.servers[key].model, |after.servers[key].history|),
                  |after.servers[key].history| - 1, op.result))
  {
  }

  /**
   * Whether a round that was lost had got as far as training: then its server holds a model, and a history unless the
   * evaluation failed, that no store has.
   */
  ghost predicate TrainsInVain(cfg: Config, mem: Mem, op: Op) {
    && op.Round? && op.req.metric == ROUND_METRIC && ApprovedBy(mem, op.req) && op.result.participants != []
    && Continues(ServerIn(mem, RoundKey(op.req), op.dim), op.result) && !Released(cfg, mem, op)
  }

  /** The server of a round that was lost: created if need be, moved by the training, its history by the evaluation. */
  ghost function LeftServer(cfg: Config, mem: Mem, op: Op): LiveServer
    requires op.Round?
  {
    var server := ServerIn(mem, RoundKey(op.req), op.dim);
    if !TrainsInVain(cfg, mem, op) then server
    else if op.evaluated then AfterRound(server, op.result)
    else server.(model := op.result.model)
  }

  /**
   * Memory left behind by a call that raised after mutating it and before its commit: a histogram whose labels do
   * not match was already charged; a round whose charge is refused has already moved model and history, one whose
   * evaluation fails the model alone, and one that fails earlier may have created its server. A call that governance
   * denies leaves memory alone.
   */
  ghost function Spoil(cfg: Config, mem: Mem, op: Op): Mem {
    match op
    case Query(_, _, _) =>
      if Released(cfg, mem, op) then mem.(accountant := Charged(mem.accountant, ChargeOf(cfg, op).value)) else mem
    case Round(req, _, _, _, _, _) =>
      if req.metric != ROUND_METRIC || !ApprovedBy(mem, req) then mem
      else mem.(servers := mem.servers[RoundKey(req) := LeftServer(cfg, mem, op)])
    case _ => mem
  }

  /**
   * What a call that raises leaves behind, part by part: a query its charge at most; an approved round a server of its
   * cohort whose model has moved if it trained in vain, and whose history has grown only if it was evaluated as well.
   */
  lemma SpoilEffect(cfg: Config, mem: Mem, op: Op)
    ensures op.Join? || op.SetConsent? ==> Spoil(cfg, mem, op) == mem
    ensures op.Query? ==>
              Spoil(cfg, mem, op) == if Released(cfg, mem, op)
                                     then mem.(accountant := Charged(mem.accountant, ChargeOf(cfg, op).value)) else mem
    ensures op.Round? ==>
              var after, key := Spoil(cfg, mem, op), op.req.sectorGroup + ":" + op.req.domain;
              if op.req.metric != ROUND_METRIC || !ApprovedBy(mem, op.req) then after == mem
              else
                var before := if key in mem.servers then mem.servers[key] else ZeroServer(op.dim);
                var vain := TrainsInVain(cfg, mem, op);
                && key in after.servers && after == mem.(servers := mem.servers[key := after.servers[key]])
                && after.servers[key].dim == before.dim
                && after.servers[key].model == (if vain then op.result.model else before.model)
                && after.servers[key].history
                   == (if vain && op.evaluated then before.history + [op.result] else before.history)
  {
  }

  lemma SpoilKeepsRows(cfg: Config, mem: Mem, op: Op)
    ensures var spoilt := Spoil(cfg, mem, op);
            spoilt.orgs == mem.orgs && spoilt.policies == mem.policies && spoilt.audit == mem.audit
  {
  }

  // ---- what every accountant in memory or in the store satisfies ----

  ghost predicate IdsUsed(events: seq<Event>, used: set<string>) {
    forall k :: 0 <= k < |events| ==> events[k].id in used
  }

  /** Every charge of the platform costs something. */
  ghost predicate CostsPositive(events: seq<Event>) {
    forall k :: 0 <= k < |events| ==> events[k].cost.epsilon > 0.0
  }

  /** Within its own limit, over the platform's order set, with positive charges under distinct known ids. */
  ghost predicate AccountantOk(cfg: Config, used: set<string>, acc: Accountant) {
    && WithinLimit(cfg.m, acc) && TotalsOver(acc, RDP_ALPHAS) && acc.spent.epsilon >= 0.0
    && DistinctIds(acc.events) && IdsUsed(acc.events, used) && CostsPositive(acc.events)
  }

  lemma FreshOk(cfg: Config, used: set<string>, limit: PrivacyBudget)
    requires limit.epsilon >= 0.0 && limit.delta >= 0.0
    ensures AccountantOk(cfg, used, Fresh(limit))
  {
  }

  lemma ChargeKeepsLimit(m: Analysis, acc: Accountant, req: Request)
    requires Admits(m, acc, req)
    ensures WithinLimit(m, Charged(acc, req))
  {
  }

  lemma ChargeKeepsOk(cfg: Config, used: set<string>, acc: Accountant, req: Request)
    requires AccountantOk(cfg, used, acc) && Payable(cfg, acc, req) && req.id !in used && OverOrders(req, RDP_ALPHAS)
    ensures AccountantOk(cfg, used + {req.id}, Charged(acc, req))
  {
    ChargeKeepsLimit(cfg.m, acc, req);
    ChargeSpendsMore(acc, req, RDP_ALPHAS);
    assert forall k :: 0 <= k < |acc.events| ==> acc.events[k].id in used;
  }

  /** A server that has not served yet. */
  predicate Unused(server: LiveServer) {
    server == ZeroServer(server.dim)
  }

  ghost predicate SizedServer(server: LiveServer) {
    |server.model| == server.dim + 1 && SizedRounds(server.history, server.dim)
  }

  ghost predicate SizedServers(servers: map<string, LiveServer>) {
    forall key {:trigger servers[key]} :: key in servers ==> SizedServer(servers[key])
  }

  ghost predicate MemOk(cfg: Config, used: set<string>, mem: Mem) {
    AccountantOk(cfg, used, mem.accountant) && SizedServers(mem.servers)
  }

  /** The identifiers a call draws: that of its budget event, or of the organization it registers. */
  function Draws(op: Op): set<string> {
    match op
    case Join(org, _) => {org.org.orgId}
    case SetConsent(_, _, _) => {}
    case Query(_, id, _) => {id}
    case Round(_, _, _, _, id, _) => {id}
  }

  /** They are new, as far as random draws are. */
  ghost predicate FreshIds(op: Op, used: set<string>) {
    Draws(op) !! used
  }

  function UsedAfter(op: Op, used: set<string>): set<string> {
    used + Draws(op)
  }

  lemma MoreUsed(cfg: Config, used: set<string>, more: set<string>, acc: Accountant)
    requires AccountantOk(cfg, used, acc) && used <= more
    ensures AccountantOk(cfg, more, acc)
  {
  }

  lemma ServerInSized(mem: Mem, key: string, dim: nat)
    requires SizedServers(mem.servers)
    ensures SizedServer(ServerIn(mem, key, dim))
  {
  }

  lemma AfterRoundSized(server: LiveServer, result: Federated.RoundResult)
    requires SizedServer(server) && Continues(server, result)
    ensures SizedServer(AfterRound(server, result))
  {
  }

  /** A released call has a charge, with the call's id, that its accountant admits. */
  lemma ReleasedCharge(cfg: Config, mem: Mem, op: Op)
    requires Released(cfg, mem, op)
    ensures ChargeOf(cfg, op).Some? && Payable(cfg, mem.accountant, ChargeOf(cfg, op).value)
    ensures IdOf(op) == Some(ChargeOf(cfg, op).value.id)
  {
  }

  /** The platform's charges all cost something at exactly the orders of RDP_ALPHAS. */
  lemma ReleasedOverAlphas(cfg: Config, mem: Mem, op: Op)
    requires LawfulConfig(cfg) && Released(cfg, mem, op)
    ensures OverOrders(ChargeOf(cfg, op).value, RDP_ALPHAS)
  {
    ApprovedIsWellFormed(LiveRegistry(mem.orgs), mem.policies, op.req);
    if op.Round? {
      GaussianOverAlphas(cfg.m, op.req.epsilon, op.req.delta, |op.result.participants|, op.id);
    } else {
      LaplaceOverAlphas(cfg.m, op.req.epsilon, op.id);
    }
  }

  /** What is left of the charging calls when they were not released. */
  lemma ExecuteReleases(cfg: Config, mem: Mem, op: Op)
    requires Execute(cfg, mem, op).Some? && IdOf(op).Some?
    ensures Released(cfg, mem, op) && ChargeOf(cfg, op).Some?
    ensures Execute(cfg, mem, op).value.mem.accountant == Charged(mem.accountant, ChargeOf(cfg, op).value)
  {
  }

  lemma ReleaseKeepsOk(cfg: Config, used: set<string>, mem: Mem, op: Op)
    requires LawfulConfig(cfg) && MemOk(cfg, used, mem) && FreshIds(op, used) && Released(cfg, mem, op)
    ensures AccountantOk(cfg, UsedAfter(op, used), Charged(mem.accountant, ChargeOf(cfg, op).value))
  {
    ReleasedCharge(cfg, mem, op);
    ReleasedOverAlphas(cfg, mem, op);
    ChargeKeepsOk(cfg, used, mem.accountant, ChargeOf(cfg, op).value);
  }

  lemma ExecuteKeepsMem(cfg: Config, used: set<string>, mem: Mem, op: Op)
    requires LawfulConfig(cfg) && MemOk(cfg, used, mem) && FreshIds(op, used) && Execute(cfg, mem, op).Some?
    ensures MemOk(cfg, UsedAfter(op, used), Execute(cfg, mem, op).value.mem)
  {
    if IdOf(op).Some? {
      ExecuteReleases(cfg, mem, op);
      ReleaseKeepsOk(cfg, used, mem, op);
    }
    if op.Round? {
      var server := ServerIn(mem, RoundKey(op.req), op.dim);
      ServerInSized(mem, RoundKey(op.req), op.dim);
      AfterRoundSized(server, op.result);
    }
  }

  lemma LeftServerSized(cfg: Config, mem: Mem, op: Op)
    requires SizedServers(mem.servers) && op.Round?
    ensures SizedServer(LeftServer(cfg, mem, op))
  {
    var server := ServerIn(mem, RoundKey(op.req), op.dim);
    ServerInSized(mem, RoundKey(op.req), op.dim);
    if Continues(server, op.result) {
      AfterRoundSized(server, op.result);
    }
  }

  lemma SpoilKeepsMem(cfg: Config, used: set<string>, mem: Mem, op: Op)
    requires LawfulConfig(cfg) && MemOk(cfg, used, mem) && FreshIds(op, used)
    ensures MemOk(cfg, UsedAfter(op, used), Spoil(cfg, mem, op))
  {
    MoreUsed(cfg, used, UsedAfter(op, used), mem.accountant);
    if op.Query? && Released(cfg, mem, op) {
      ReleaseKeepsOk(cfg, used, mem, op);
    }
    if op.Round? {
      LeftServerSized(cfg, mem, op);
    }
  }
}
