/** One bundle applied to the state it was computed from: what it preserves and what it changes. */
module StoreSerial {
  import opened Foundations
  import opened DifferentialPrivacy
  import opened Storage
  import opened Approvals
  import opened PlatformOps
  import Audit
  import Federated
  import Policy

  // ---- well-formed stores ----

  ghost predicate BudgetOk(cfg: Config, used: set<string>, budget: Option<Accountant>) {
    budget.Some? ==> AccountantOk(cfg, used, budget.value)
  }

  /** A stored server has served at least one round. */
  ghost predicate RowOk(row: ServerRow) {
    |row.model| == row.dim + 1 && row.rounds > 0
  }

  ghost predicate ServersOk(s: Store) {
    s.rounds.Keys <= s.servers.Keys && forall key {:trigger s.servers[key]} :: key in s.servers ==>
        RowOk(s.servers[key])
  }

  /** Every organization is stored under its own id with a policy on the terms of its domain. */
  ghost predicate GovernanceOk(used: set<string>, s: Store) {
    && s.policies.Keys == s.orgs.Keys <= used
    && forall id {:trigger s.orgs[id]} {:trigger s.policies[id]} :: id in s.orgs ==>
         s.orgs[id].org.orgId == id && HasTerms(s.orgs[id].org, s.policies[id])
  }

  ghost predicate StoreOk(cfg: Config, used: set<string>, s: Store) {
    && Audit.Verifies(cfg.h, s.audit)
    && BudgetOk(cfg, used, s.budget)
    && (s.budget.Some? ==> s.budget.value.spent.epsilon > 0.0)
    && GovernanceOk(used, s)
    && ServersOk(s)
  }

  // ---- what memory knows of a store ----

  /** Every organization in memory is stored like this, and has a policy on its own terms. */
  ghost predicate OrgKnown(mem: Mem, s: Store, id: OrgId) {
    id in mem.orgs ==>
      && id in s.orgs && EncodeOrg(mem.orgs[id]) == s.orgs[id]
      && id in mem.policies && HasTerms(s.orgs[id].org, mem.policies[id])
  }

  /** The log is the stored one, and so are the organizations as far as memory has them; policies may be others. */
  ghost predicate Knows(mem: Mem, s: Store) {
    && mem.audit == s.audit && mem.policies.Keys == mem.orgs.Keys
    && forall id {:trigger OrgKnown(mem, s, id)} :: OrgKnown(mem, s, id)
  }

  predicate Stale(mem: Mem, s: Store, id: OrgId) {
    id in s.orgs && (id !in mem.policies || id !in s.policies || mem.policies[id] != s.policies[id])
  }

  /** The stored organizations that memory misses or whose policy it has in another version. */
  function StaleOrgs(mem: Mem, s: Store): (r: set<OrgId>)
    ensures forall id :: id in r <==> Stale(mem, s, id)
  {
    set id | id in s.orgs && Stale(mem, s, id)
  }

  // ---- memory exactly at the store ----

  ghost predicate OrgsTrack(orgs: map<OrgId, LiveOrg>, rows: map<OrgId, OrgRow>) {
    && orgs.Keys == rows.Keys
    && forall id {:trigger orgs[id]} {:trigger rows[id]} :: id in orgs ==> EncodeOrg(orgs[id]) == rows[id]
  }

  /** The key's live server is the stored one with all its rounds, or an unused one. */
  ghost predicate ServerExact(s: Store, mem: Mem, key: string) {
    if key in s.servers then
      && key in mem.servers
      && DecodeServer(s.servers[key], RoundRows(s, key)) == Ok(mem.servers[key])
    else key in mem.servers ==> Unused(mem.servers[key])
  }

  /** Memory equals the stored state; an accountant without a stored row is the platform's own. */
  ghost predicate Exact(mem: Mem, s: Store) {
    && OrgsTrack(mem.orgs, s.orgs) && mem.policies == s.policies && mem.audit == s.audit
    && (s.budget.Some? ==> mem.accountant == s.budget.value)
    && forall key {:trigger ServerExact(s, mem, key)} :: ServerExact(s, mem, key)
  }

  lemma ExactDecodes(mem: Mem, s: Store)
    requires Exact(mem, s)
    ensures Decodable(s)
  {
    forall key | key in s.servers ensures DecodeServer(s.servers[key], RoundRows(s, key)).Ok? {
      assert ServerExact(s, mem, key);
    }
  }

  /** Governance is the stored one exactly when no organization is stale. */
  lemma NothingStaleIff(mem: Mem, s: Store)
    requires Knows(mem, s) && s.policies.Keys == s.orgs.Keys
    ensures StaleOrgs(mem, s) == {} <==> OrgsTrack(mem.orgs, s.orgs) && mem.policies == s.policies
  {
    if StaleOrgs(mem, s) == {} {
      forall id ensures id in mem.orgs <==> id in s.orgs {
        assert OrgKnown(mem, s, id) && !Stale(mem, s, id);
      }
      forall id | id in mem.policies ensures id in s.policies && mem.policies[id] == s.policies[id] {
        assert OrgKnown(mem, s, id) && !Stale(mem, s, id);
      }
      forall id | id in mem.orgs ensures EncodeOrg(mem.orgs[id]) == s.orgs[id] {
        assert OrgKnown(mem, s, id);
      }
    }
  }

  // ---- loading ----

  /** What a load replaces before it rebuilds any server: governance, budget and log. */
  lemma HalfLoadTracks(cfg: Config, used: set<string>, mem: Mem, s: Store)
    requires StoreOk(cfg, used, s)
    ensures var half := HalfLoaded(mem, s);
            && OrgsTrack(half.orgs, s.orgs) && half.policies == s.policies && half.audit == s.audit
            && half.accountant == (if s.budget.Some? then s.budget.value else mem.accountant)
            && half.servers == mem.servers
  {
    assert KnownPolicies(s) == s.policies;
  }

  lemma LoadExact(cfg: Config, used: set<string>, mem: Mem, s: Store)
    requires StoreOk(cfg, used, s) && Decodable(s)
    ensures Exact(Load(mem, s), s)
  {
    HalfLoadTracks(cfg, used, mem, s);
    forall key ensures ServerExact(s, Load(mem, s), key) {
    }
  }

  lemma LoadOk(cfg: Config, used: set<string>, mem: Mem, s: Store)
    requires BudgetOk(cfg, used, s.budget) && MemOk(cfg, used, mem)
    ensures MemOk(cfg, used, HalfLoaded(mem, s))
    ensures Decodable(s) ==> MemOk(cfg, used, Load(mem, s))
  {
  }

  lemma NewMemOk(cfg: Config, used: set<string>, limit: PrivacyBudget)
    requires limit.epsilon >= 0.0 && limit.delta >= 0.0
    ensures MemOk(cfg, used, NewMem(limit))
  {
    FreshOk(cfg, used, limit);
  }

  lemma NewMemExact(limit: PrivacyBudget)
    ensures Exact(NewMem(limit), EMPTY) && Knows(NewMem(limit), EMPTY) && StaleOrgs(NewMem(limit), EMPTY) == {}
  {
    forall key ensures ServerExact(EMPTY, NewMem(limit), key) {
    }
    forall id ensures OrgKnown(NewMem(limit), EMPTY, id) {
    }
  }

  // ---- a bundle on the state it was computed from ----

  /** The identifiers the call drew do not occur in the store yet. */
  ghost predicate NewHere(op: Op, s: Store) {
    && (op.Join? ==> op.org.org.orgId !in s.orgs)
    && (IdOf(op).Some? && s.budget.Some? ==> !HasId(s.budget.value.events, IdOf(op).value))
  }

  /** `op` ran on `before`, which has the log of `s`, and its bundle carries proofs that all hold in `s`. */
  ghost predicate Prepared(cfg: Config, before: Mem, op: Op, done: Executed, s: Store) {
    Execute(cfg, before, op) == Some(done) && Knows(before, s) && NewHere(op, s) && IsFresh(s, done.bundle)
  }

  /** What a round asks the store to write, and its proof: the number of rounds its server had served. */
  lemma RoundWrite(cfg: Config, before: Mem, op: Op, done: Executed)
    requires Execute(cfg, before, op) == Some(done) && op.Round?
    ensures var server := ServerIn(before, RoundKey(op.req), op.dim);
            && Continues(server, op.result)
            && done.mem.servers == before.servers[RoundKey(op.req) := AfterRound(server, op.result)]
            && done.bundle.server == Some(ServerWrite(RoundKey(op.req), EncodeServer(AfterRound(server, op.result)),
                                                      |server.history|, op.result))
  {
  }

  lemma OtherWrite(cfg: Config, before: Mem, op: Op, done: Executed)
    requires Execute(cfg, before, op) == Some(done) && !op.Round?
    ensures done.bundle.server == None && done.mem.servers == before.servers
  {
  }

  // ---- the budget row ----

  lemma ChargeWrite(cfg: Config, before: Mem, op: Op, done: Executed)
    requires Execute(cfg, before, op) == Some(done)
    ensures ChargeOf(cfg, op).Some? <==> IdOf(op).Some?
    ensures ChargeOf(cfg, op).Some? <==> done.bundle.budget.Some?
    ensures ChargeOf(cfg, op).Some? ==>
              var req := ChargeOf(cfg, op).value;
              && Payable(cfg, before.accountant, req) && IdOf(op) == Some(req.id)
              && done.mem.accountant == Charged(before.accountant, req)
              && done.bundle.budget == Some(BudgetWriteOf(before.accountant, done.mem.accountant))
    ensures ChargeOf(cfg, op).None? ==> done.mem.accountant == before.accountant
  {
    if IdOf(op).Some? {
      ExecuteReleases(cfg, before, op);
      ReleasedCharge(cfg, before, op);
    }
  }

  lemma {:induction false} UnseenIds(existing: seq<Event>, incoming: seq<Event>)
    ensures forall k :: 0 <= k < |Unseen(existing, incoming)| ==>
              Unseen(existing, incoming)[k] in incoming && !HasId(existing, Unseen(existing, incoming)[k].id)
    ensures DistinctIds(incoming) ==> DistinctIds(Unseen(existing, incoming))
  {
    if incoming != [] {
      var init, last := incoming[..|incoming| - 1], incoming[|incoming| - 1];
      UnseenIds(existing, init);
      if DistinctIds(incoming) {
        forall k | 0 <= k < |Unseen(existing, init)| ensures Unseen(existing, init)[k].id != last.id {
          var j :| 0 <= j < |init| && init[j] == Unseen(existing, init)[k];
          assert incoming[j] == init[j];
        }
      }
    }
  }

  /** A merged list keeps what every entry of both lists has: distinct known ids and positive costs. */
  lemma MergedOk(used: set<string>, existing: seq<Event>, incoming: seq<Event>)
    requires DistinctIds(existing) && IdsUsed(existing, used) && CostsPositive(existing)
    requires DistinctIds(incoming) && IdsUsed(incoming, used) && CostsPositive(incoming)
    ensures var merged := MergeEvents(existing, incoming);
            DistinctIds(merged) && IdsUsed(merged, used) && CostsPositive(merged)
  {
    UnseenIds(existing, incoming);
    var merged, unseen := MergeEvents(existing, incoming), Unseen(existing, incoming);
    forall k | |existing| <= k < |merged| ensures merged[k].id in used && merged[k].cost.epsilon > 0.0 {
      assert merged[k] == unseen[k - |existing|] && unseen[k - |existing|] in incoming;
    }
    forall i, j | 0 <= i < j < |merged| ensures merged[i].id != merged[j].id {
      if i < |existing| <= j {
        assert merged[j] == unseen[j - |existing|];
      }
    }
  }

  lemma BudgetRowOk(cfg: Config, used: set<string>, row: Option<Accountant>, acc: Accountant)
    requires BudgetOk(cfg, used, row) && AccountantOk(cfg, used, acc)
    ensures AccountantOk(cfg, used, BudgetAfter(row, BudgetWrite(acc, acc.spent)))
  {
    if row.Some? {
      MergedOk(used, row.value.events, acc.events);
    }
  }

  /** However the accountant came about, the stored row stays sound: within its limit, ids unique, spend positive. */
  lemma WriteKeepsBudget(cfg: Config, used: set<string>, before: Mem, op: Op, done: Executed, s: Store)
    requires Execute(cfg, before, op) == Some(done) && BudgetOk(cfg, used, s.budget)
    requires s.budget.Some? ==> s.budget.value.spent.epsilon > 0.0
    requires AccountantOk(cfg, UsedAfter(op, used), done.mem.accountant) && before.accountant.spent.epsilon >= 0.0
    ensures var row := Write(s, done.bundle, s.budget).budget;
            BudgetOk(cfg, UsedAfter(op, used), row) && (row.Some? ==> row.value.spent.epsilon > 0.0)
  {
    ChargeWrite(cfg, before, op, done);
    if s.budget.Some? {
      MoreUsed(cfg, used, UsedAfter(op, used), s.budget.value);
    }
    BudgetRowOk(cfg, UsedAfter(op, used), s.budget, done.mem.accountant);
  }

  // ---- servers and governance ----

  lemma WriteKeepsServers(cfg: Config, before: Mem, op: Op, done: Executed, s: Store)
    requires Execute(cfg, before, op) == Some(done) && ServersOk(s)
    ensures ServersOk(Write(s, done.bundle, s.budget))
  {
    if op.Round? {
      RoundWrite(cfg, before, op, done);
    } else {
      OtherWrite(cfg, before, op, done);
    }
  }

  /** What a call writes to governance: a joining member with its defaults, or new metrics on the terms it had. */
  lemma GovernanceWrite(cfg: Config, before: Mem, op: Op, done: Executed, s: Store)
    requires Execute(cfg, before, op) == Some(done) && Knows(before, s)
    ensures match op
            case Join(org, _) =>
              var id, policy := org.org.orgId, Policy.DefaultPolicyFor(org.org);
              && done.bundle.org == Some(EncodeOrg(org)) && done.bundle.policy == Some((id, policy))
              && done.mem.orgs == before.orgs[id := org] && done.mem.policies == before.policies[id := policy]
            case SetConsent(id, metrics, _) =>
              && id in before.orgs && OrgKnown(before, s, id) && id in before.policies
              && done.bundle.org == None && done.mem.orgs == before.orgs
              && var policy := before.policies[id].(allowedMetrics := metrics);
                 && done.bundle.policy == Some((id, policy)) && done.mem.policies == before.policies[id := policy]
            case _ =>
              && done.bundle.org == None && done.bundle.policy == None
              && done.mem.orgs == before.orgs && done.mem.policies == before.policies
    ensures done.mem.audit == before.audit + [done.bundle.entry]
  {
    if op.SetConsent? {
      assert OrgKnown(before, s, op.orgId);
    }
  }

  lemma WriteKeepsGovernance(cfg: Config, used: set<string>, before: Mem, op: Op, done: Executed, s: Store)
    requires Execute(cfg, before, op) == Some(done) && Knows(before, s) && GovernanceOk(used, s)
    ensures GovernanceOk(UsedAfter(op, used), Write(s, done.bundle, s.budget))
  {
    GovernanceWrite(cfg, before, op, done, s);
  }

  lemma WriteKeepsStore(cfg: Config, used: set<string>, before: Mem, op: Op, done: Executed, s: Store)
    requires Prepared(cfg, before, op, done, s) && StoreOk(cfg, used, s)
    requires MemOk(cfg, UsedAfter(op, used), done.mem) && before.accountant.spent.epsilon >= 0.0
    ensures StoreOk(cfg, UsedAfter(op, used), Write(s, done.bundle, s.budget))
  {
    Audit.RecordVerifies(cfg.h, s.audit, op.payload);
    WriteKeepsServers(cfg, before, op, done, s);
    WriteKeepsGovernance(cfg, used, before, op, done, s);
    WriteKeepsBudget(cfg, used, before, op, done, s);
  }

  /** The organizations whose policy the call wrote. */
  function Rewrites(op: Op): set<OrgId> {
    if op.SetConsent? then {op.orgId} else {}
  }

  /** After its commit the platform knows the new state, and what it rewrote is stale no longer. */
  lemma WriteKnows(cfg: Config, before: Mem, op: Op, done: Executed, s: Store)
    requires Execute(cfg, before, op) == Some(done) && Knows(before, s) && NewHere(op, s)
    requires s.policies.Keys == s.orgs.Keys
    ensures Knows(done.mem, Write(s, done.bundle, s.budget))
    ensures StaleOrgs(done.mem, Write(s, done.bundle, s.budget)) == StaleOrgs(before, s) - Rewrites(op)
  {
    var s' := Write(s, done.bundle, s.budget);
    GovernanceWrite(cfg, before, op, done, s);
    forall id ensures OrgKnown(done.mem, s', id) {
      assert OrgKnown(before, s, id);
    }
    forall id ensures Stale(done.mem, s', id) <==> id in StaleOrgs(before, s) - Rewrites(op) {
      assert Stale(before, s, id) <==> id in StaleOrgs(before, s);
    }
  }

  /** The key's rows before and after a bundle. */
  lemma WrittenRows(s: Store, b: Bundle, key: string)
    ensures var s' := Write(s, b, s.budget);
            if b.server.Some? && key == b.server.value.key then
              && key in s'.servers && s'.servers[key] == b.server.value.row
              && RoundRows(s', key) == RoundRows(s, key) + [b.server.value.round]
            else (key in s'.servers <==> key in s.servers) && RoundRows(s', key) == RoundRows(s, key)
                 && (key in s.servers ==> s'.servers[key] == s.servers[key])
  {
  }

  lemma OwnServerExact(server: LiveServer, result: Federated.RoundResult, row: ServerRow,
                       rows: seq<Federated.RoundResult>)
    requires Continues(server, result) && SizedRounds(server.history, server.dim)
    requires rows == server.history + [result] && row == EncodeServer(AfterRound(server, result))
    ensures DecodeServer(row, rows) == Ok(AfterRound(server, result))
  {
    ServerRoundTrip(AfterRound(server, result));
  }

  lemma ExactHistory(s: Store, mem: Mem, key: string, dim: nat)
    requires ServerExact(s, mem, key) && s.rounds.Keys <= s.servers.Keys
    ensures RoundRows(s, key) == ServerIn(mem, key, dim).history
  {
  }

  lemma WriteServerExact(cfg: Config, before: Mem, op: Op, done: Executed, s: Store, key: string)
    requires Execute(cfg, before, op) == Some(done) && SizedServers(before.servers) && ServersOk(s)
    requires ServerExact(s, before, key)
    ensures ServerExact(Write(s, done.bundle, s.budget), done.mem, key)
  {
    WrittenRows(s, done.bundle, key);
    if op.Round? {
      RoundWrite(cfg, before, op, done);
      if key == RoundKey(op.req) {
        ServerInSized(before, key, op.dim);
        ExactHistory(s, before, key, op.dim);
        OwnServerExact(ServerIn(before, key, op.dim), op.result, done.bundle.server.value.row,
                       RoundRows(s, key) + [op.result]);
      }
    } else {
      OtherWrite(cfg, before, op, done);
    }
  }

  lemma WriteGovernanceExact(cfg: Config, before: Mem, op: Op, done: Executed, s: Store)
    requires Prepared(cfg, before, op, done, s) && Exact(before, s)
    ensures var s' := Write(s, done.bundle, s.budget);
            && OrgsTrack(done.mem.orgs, s'.orgs) && done.mem.policies == s'.policies && done.mem.audit == s'.audit
  {
    GovernanceWrite(cfg, before, op, done, s);
  }

  lemma WriteBudgetExact(cfg: Config, before: Mem, op: Op, done: Executed, s: Store)
    requires Execute(cfg, before, op) == Some(done) && DistinctIds(done.mem.accountant.events)
    requires s.budget.Some? ==> before.accountant == s.budget.value
    ensures var row := Write(s, done.bundle, s.budget).budget; row.Some? ==> done.mem.accountant == row.value
  {
    ChargeWrite(cfg, before, op, done);
    if ChargeOf(cfg, op).Some? && s.budget.Some? {
      MergeOfExtension(s.budget.value.events, done.mem.accountant.events);
    }
  }

  /** Restart replay: a platform whose memory equalled the store still equals it after its commit. */
  lemma WriteExact(cfg: Config, before: Mem, op: Op, done: Executed, s: Store)
    requires Prepared(cfg, before, op, done, s) && Exact(before, s) && SizedServers(before.servers) && ServersOk(s)
    requires DistinctIds(done.mem.accountant.events)
    ensures Exact(done.mem, Write(s, done.bundle, s.budget))
  {
    WriteGovernanceExact(cfg, before, op, done, s);
    WriteBudgetExact(cfg, before, op, done, s);
    forall key ensures ServerExact(Write(s, done.bundle, s.budget), done.mem, key) {
      assert ServerExact(s, before, key);
      WriteServerExact(cfg, before, op, done, s, key);
    }
  }

  // ---- when a commit leaves a loadable store ----

  predicate DecodesAt(s: Store, key: string) {
    key in s.servers ==> DecodeServer(s.servers[key], RoundRows(s, key)).Ok?
  }

  lemma DecodableAtAll(s: Store)
    ensures Decodable(s) <==> forall key {:trigger DecodesAt(s, key)} :: DecodesAt(s, key)
  {
    if Decodable(s) {
      forall key ensures DecodesAt(s, key) {
      }
    }
    if forall key {:trigger DecodesAt(s, key)} :: DecodesAt(s, key) {
      forall key | key in s.servers ensures DecodeServer(s.servers[key], RoundRows(s, key)).Ok? {
        assert DecodesAt(s, key);
      }
    }
  }

  /** The rows of a server can be rebuilt with one more round: sizes and counter fit. */
  lemma DecodesOneMore(server: LiveServer, result: Federated.RoundResult, rows: seq<Federated.RoundResult>)
    requires Continues(server, result)
    ensures DecodeServer(EncodeServer(AfterRound(server, result)), rows + [result]).Ok? <==>
              SizedRounds(rows, server.dim) && |rows| == |server.history|
  {
    var longer := rows + [result];
    assert longer[|rows|] == result;
    if SizedRounds(longer, server.dim) {
      forall k | 0 <= k < |rows| ensures SizedRound(rows[k], server.dim) {
        assert longer[k] == rows[k];
      }
    }
  }

  /** The round's server has the stored dimension; a server without a row has no rounds of its own. */
  predicate Fits(s: Store, server: LiveServer, key: string) {
    if key in s.servers then server.dim == s.servers[key].dim else server.history == []
  }

  lemma FitsIff(s: Store, server: LiveServer, key: string)
    requires ServersOk(s) && DecodesAt(s, key) && (key in s.servers ==> s.servers[key].rounds == |server.history|)
    ensures SizedRounds(RoundRows(s, key), server.dim) && |RoundRows(s, key)| == |server.history| <==>
              Fits(s, server, key)
  {
    if key in s.servers {
      assert RowOk(s.servers[key]);
      assert SizedRound(RoundRows(s, key)[0], s.servers[key].dim);
    } else {
      assert RoundRows(s, key) == [];
    }
  }

  lemma RoundDecodesIff(cfg: Config, before: Mem, op: Op, done: Executed, s: Store)
    requires Prepared(cfg, before, op, done, s) && ServersOk(s) && op.Round? && DecodesAt(s, RoundKey(op.req))
    ensures DecodesAt(Write(s, done.bundle, s.budget), RoundKey(op.req)) <==>
              Fits(s, ServerIn(before, RoundKey(op.req), op.dim), RoundKey(op.req))
  {
    var key := RoundKey(op.req);
    var server := ServerIn(before, key, op.dim);
    RoundWrite(cfg, before, op, done);
    WrittenRows(s, done.bundle, key);
    DecodesOneMore(server, op.result, RoundRows(s, key));
    FitsIff(s, server, key);
  }

  /**
   * A commit keeps a loadable store loadable exactly when it is no round, or its server has the stored dimension, or
   * its server is neither stored nor has a history of its own.
   */
  lemma StaysDecodableIff(cfg: Config, before: Mem, op: Op, done: Executed, s: Store)
    requires Prepared(cfg, before, op, done, s) && ServersOk(s) && Decodable(s)
    ensures Decodable(Write(s, done.bundle, s.budget)) <==>
              (op.Round? ==> Fits(s, ServerIn(before, RoundKey(op.req), op.dim), RoundKey(op.req)))
  {
    var s' := Write(s, done.bundle, s.budget);
    DecodableAtAll(s);
    DecodableAtAll(s');
    if op.Round? {
      RoundDecodesIff(cfg, before, op, done, s);
      RoundWrite(cfg, before, op, done);
    } else {
      OtherWrite(cfg, before, op, done);
    }
    forall key | !op.Round? || key != RoundKey(op.req) ensures DecodesAt(s', key) {
      assert DecodesAt(s, key);
      WrittenRows(s, done.bundle, key);
    }
  }
}
