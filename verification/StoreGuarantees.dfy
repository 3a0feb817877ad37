/** What the invariant of the store protocol means for its users. */
module StoreGuarantees {
  import opened Foundations
  import opened AccountantTheorems
  import opened DifferentialPrivacy
  import opened Storage
  import opened Approvals
  import opened PlatformOps
  import opened StoreSerial
  import opened StoreProtocol
  import opened StoreTheorems

  /** The moves, whose loads query the tables as the code does, lead platforms with these limits to the system. */
  ghost predicate LeadsTo(cfg: Config, limits: seq<PrivacyBudget>, moves: seq<Move>, g: System) {
    && NonNegative(limits) && ValidMoves(moves, |limits|) && AllInOrder(moves)
    && g == Interleave(cfg, Initial(limits), moves)
  }

  /** A system some interleaving reaches from an empty store, whatever is committed during its loads. */
  ghost predicate Reachable(cfg: Config, g: System) {
    exists limits, moves :: LeadsTo(cfg, limits, moves, g)
  }

  lemma ReachableInv(cfg: Config, g: System)
    requires LawfulConfig(cfg) && Reachable(cfg, g)
    ensures SystemInv(cfg, g)
  {
    var limits, moves :| LeadsTo(cfg, limits, moves, g);
    RunKeepsInv(cfg, limits, moves);
  }

  lemma ReachableProc(cfg: Config, g: System, p: nat)
    requires LawfulConfig(cfg) && Reachable(cfg, g) && p < |g.procs|
    ensures HistoryInv(cfg, g.used, g.history) && ProcInv(cfg, g.history, g.used, g.procs[p])
  {
    ReachableInv(cfg, g);
    assert ProcAt(cfg, g, p);
  }

  // ---- serialization ----

  /**
   * The conditional audit insert serializes all bundles: whatever was read when, a transaction that commits carries
   * the audit log of the state it overwrites, all its proofs hold there, and the result is its bundle applied to that
   * state alone. Which governance, budget row and server it was computed from is another matter: GovernanceTerms,
   * BudgetLineage, ServerLineage.
   */
  lemma CommitsSerialize(cfg: Config, g: System, p: nat)
    requires LawfulConfig(cfg) && Reachable(cfg, g) && p < |g.procs|
    requires g.procs[p].pc.Open? && Checked(g.procs[p].pc)
    requires g.history != [] && CanCommit(Current(g.history), g.procs[p].pc)
    ensures var pc, s := g.procs[p].pc, Current(g.history);
            && g.procs[p].view == |g.history| - 1
            && Prepared(cfg, pc.before, pc.op, Executed(g.procs[p].mem, pc.bundle), s)
            && Step(cfg, g, p, Finish).history == g.history + [Write(s, pc.bundle, s.budget)]
  {
    ReachableProc(cfg, g, p);
    FinishCommits(cfg, g.history, g.used, g.procs[p]);
  }

  lemma FinishCommits(cfg: Config, history: seq<Store>, used: set<string>, proc: Proc)
    requires LawfulConfig(cfg) && HistoryInv(cfg, used, history) && ProcInv(cfg, history, used, proc)
    requires proc.pc.Open? && Checked(proc.pc) && CanCommit(Current(history), proc.pc)
    ensures proc.view == |history| - 1
    ensures Prepared(cfg, proc.pc.before, proc.pc.op, Executed(proc.mem, proc.pc.bundle), Current(history))
    ensures Act(cfg, history, used, proc, Finish).committed
         == Some(Write(Current(history), proc.pc.bundle, Current(history).budget))
  {
    CommitIsFresh(cfg, history, used, proc);
  }

  /** The committed states form a serial run of calls, from the empty store on. */
  lemma HistoryIsSerial(cfg: Config, g: System)
    requires LawfulConfig(cfg) && Reachable(cfg, g)
    ensures g.history != []
    ensures forall i :: 0 <= i < |g.history| - 1 ==> Serial(cfg, g.used, g.history[i], g.history[i + 1])
    ensures forall i :: 0 <= i < |g.history| ==> StoreOk(cfg, g.used, g.history[i]) && |g.history[i].audit| == i
  {
    ReachableInv(cfg, g);
    forall i | 0 <= i < |g.history| - 1 ensures Serial(cfg, g.used, g.history[i], g.history[i + 1]) {
      assert SerialAt(cfg, g.used, g.history, i);
    }
    forall i | 0 <= i < |g.history| ensures StoreOk(cfg, g.used, g.history[i]) && |g.history[i].audit| == i {
      assert StateAt(cfg, g.used, g.history, i);
    }
  }

  // ---- who sees a conflict ----

  ghost predicate Proceeds(o: Outcome) {
    o.proc.pc.Open? || o.committed.Some?
  }

  lemma ExactServerFresh(cfg: Config, before: Mem, op: Op, done: Executed, s: Store)
    requires Exact(before, s) && Execute(cfg, before, op) == Some(done) && op.Round?
    ensures ServerFresh(ServerRowOf(s, RoundKey(op.req)), done.bundle.server.value)
  {
    RoundWrite(cfg, before, op, done);
    assert ServerExact(s, before, RoundKey(op.req));
  }

  lemma ExactBudgetFresh(cfg: Config, before: Mem, op: Op, s: Store)
    requires Exact(before, s) && Execute(cfg, before, op).Some?
    ensures var b := Execute(cfg, before, op).value.bundle;
            (b.budget.Some? ==> BudgetFresh(s.budget, b.budget.value)) && TipFresh(s, b)
  {
  }

  lemma ExactIsFresh(cfg: Config, before: Mem, op: Op, s: Store)
    requires Exact(before, s) && Execute(cfg, before, op).Some?
    ensures IsFresh(s, Execute(cfg, before, op).value.bundle)
  {
    ExactBudgetFresh(cfg, before, op, s);
    var done := Execute(cfg, before, op).value;
    if op.Round? {
      RoundWrite(cfg, before, op, done);
      ExactServerFresh(cfg, before, op, done, s);
    } else {
      OtherWrite(cfg, before, op, done);
    }
  }

  lemma CurrentProceeds(cfg: Config, history: seq<Store>, used: set<string>, proc: Proc, a: Action)
    requires history != [] && ProcInv(cfg, history, used, proc)
    requires proc.pc.Open? && proc.view == |history| - 1 && IsFresh(Current(history), proc.pc.bundle)
    requires a == ReadBudget || a == ReadServer || a == Finish
    ensures Proceeds(Act(cfg, history, used, proc, a))
  {
  }

  /**
   * A platform whose last load saw one single state and that has lost no call since fails a check or its commit only
   * if another bundle was committed since the state whose log it carries.
   */
  lemma CleanConflictMeansOvertaken(cfg: Config, g: System, p: nat, a: Action)
    requires LawfulConfig(cfg) && Reachable(cfg, g) && p < |g.procs| && g.history != []
    requires g.procs[p].pc.Open? && g.procs[p].record.standing.Whole?
    requires a == ReadBudget || a == ReadServer || a == Finish
    ensures Proceeds(Act(cfg, g.history, g.used, g.procs[p], a)) || g.procs[p].view < |g.history| - 1
  {
    ReachableProc(cfg, g, p);
    if g.procs[p].view == |g.history| - 1 {
      ExactIsFresh(cfg, g.procs[p].pc.before, g.procs[p].pc.op, Current(g.history));
      CurrentProceeds(cfg, g.history, g.used, g.procs[p], a);
    }
  }

  // ---- the freshness proofs identify the rows ----

  /** Events once stored stay in place, the spend never goes back, and only the same row has spent the same. */
  ghost predicate RowGrows(earlier: Option<Accountant>, later: Option<Accountant>) {
    earlier.Some? ==>
      && later.Some? && earlier.value.events <= later.value.events
      && earlier.value.spent.epsilon <= later.value.spent.epsilon
      && (earlier.value.spent.epsilon == later.value.spent.epsilon ==> earlier == later)
  }

  lemma CommittedRowGrows(cfg: Config, s: Store, before: Mem, op: Op, done: Executed)
    requires Prepared(cfg, before, op, done, s)
    ensures RowGrows(s.budget, Write(s, done.bundle, s.budget).budget)
  {
    ChargeWrite(cfg, before, op, done);
  }

  lemma SerialRowGrows(cfg: Config, used: set<string>, s: Store, s': Store)
    requires Serial(cfg, used, s, s')
    ensures RowGrows(s.budget, s'.budget)
  {
    var before, op, done :| Committed(cfg, used, s, s', before, op, done);
    CommittedRowGrows(cfg, s, before, op, done);
  }

  lemma RowGrowsTransitive(a: Option<Accountant>, b: Option<Accountant>, c: Option<Accountant>)
    requires RowGrows(a, b) && RowGrows(b, c)
    ensures RowGrows(a, c)
  {
  }

  lemma {:induction false} HistoryRowGrows(cfg: Config, used: set<string>, history: seq<Store>, i: nat, j: nat)
    requires HistoryInv(cfg, used, history) && i <= j < |history|
    ensures RowGrows(history[i].budget, history[j].budget)
    decreases j
  {
    if i < j {
      HistoryRowGrows(cfg, used, history, i, j - 1);
      assert SerialAt(cfg, used, history, j - 1);
      SerialRowGrows(cfg, used, history[j - 1], history[j]);
      RowGrowsTransitive(history[i].budget, history[j - 1].budget, history[j].budget);
    }
  }

  /** A server row is untouched by a commit, or gets one round more together with one round row. */
  ghost predicate ServerStep(s: Store, s': Store, key: string) {
    key in s.servers ==>
      && key in s'.servers
      && (|| (s'.servers[key] == s.servers[key] && RoundRows(s', key) == RoundRows(s, key))
          || s'.servers[key].rounds == s.servers[key].rounds + 1)
  }

  lemma CommittedServer(cfg: Config, s: Store, before: Mem, op: Op, done: Executed, key: string)
    requires Prepared(cfg, before, op, done, s)
    ensures ServerStep(s, Write(s, done.bundle, s.budget), key)
  {
    WrittenRows(s, done.bundle, key);
    if op.Round? {
      RoundWrite(cfg, before, op, done);
    } else {
      OtherWrite(cfg, before, op, done);
    }
  }

  lemma SerialServer(cfg: Config, used: set<string>, s: Store, s': Store, key: string)
    requires Serial(cfg, used, s, s')
    ensures ServerStep(s, s', key)
  {
    var before, op, done :| Committed(cfg, used, s, s', before, op, done);
    CommittedServer(cfg, s, before, op, done, key);
  }

  /** Between two committed states: counters never go back, and equal counters mean equal server and rounds. */
  ghost predicate ServerIdentified(s: Store, s': Store, key: string) {
    key in s.servers ==>
      && key in s'.servers && s.servers[key].rounds <= s'.servers[key].rounds
      && (s.servers[key].rounds == s'.servers[key].rounds ==>
            s.servers[key] == s'.servers[key] && RoundRows(s, key) == RoundRows(s', key))
  }

  lemma ServerTransitive(a: Store, b: Store, c: Store, key: string)
    requires ServerIdentified(a, b, key) && ServerStep(b, c, key)
    ensures ServerIdentified(a, c, key)
  {
  }

  lemma {:induction false} RoundsIdentify(cfg: Config, used: set<string>, history: seq<Store>, i: nat, j: nat,
                                          key: string)
    requires HistoryInv(cfg, used, history) && i <= j < |history|
    ensures ServerIdentified(history[i], history[j], key)
    decreases j
  {
    if i < j {
      RoundsIdentify(cfg, used, history, i, j - 1, key);
      assert SerialAt(cfg, used, history, j - 1);
      SerialServer(cfg, used, history[j - 1], history[j], key);
      ServerTransitive(history[i], history[j - 1], history[j], key);
    }
  }

  /**
   * The freshness proofs are version numbers: over the whole history equal spent means the same budget row, and an
   * equal round counter the same server with the same rounds. Stored events stay in place forever.
   */
  lemma ProofsIdentifyRows(cfg: Config, g: System, i: nat, j: nat, key: string)
    requires LawfulConfig(cfg) && Reachable(cfg, g) && i <= j < |g.history|
    ensures RowGrows(g.history[i].budget, g.history[j].budget)
    ensures ServerIdentified(g.history[i], g.history[j], key)
  {
    ReachableInv(cfg, g);
    HistoryRowGrows(cfg, g.used, g.history, i, j);
    RoundsIdentify(cfg, g.used, g.history, i, j, key);
  }

  /** Whatever charges were lost, and whoever stored what: no stored event is a duplicate, and the limit holds. */
  lemma StoredBudgetKept(cfg: Config, g: System, i: nat)
    requires LawfulConfig(cfg) && Reachable(cfg, g) && i < |g.history| && g.history[i].budget.Some?
    ensures WithinLimit(cfg.m, g.history[i].budget.value) && DistinctIds(g.history[i].budget.value.events)
    ensures forall k :: 0 <= k < |g.history[i].budget.value.events| ==>
              g.history[i].budget.value.events[k].cost.epsilon > 0.0
  {
    HistoryIsSerial(cfg, g);
  }

  // ---- restart replay ----

  /**
   * Two platforms hold the same live state, up to plaintext keys, unused servers and a budget that was never stored.
   */
  ghost predicate SameLive(a: Mem, b: Mem, s: Store) {
    && a.orgs.Keys == b.orgs.Keys
    && (forall id {:trigger a.orgs[id]} {:trigger b.orgs[id]} :: id in a.orgs ==>
        && a.orgs[id].org == b.orgs[id].org
        && a.orgs[id].keyHash == b.orgs[id].keyHash && a.orgs[id].salt == b.orgs[id].salt)
    && a.policies == b.policies && a.audit == b.audit
    && (s.budget.Some? ==> a.accountant == b.accountant)
    && (forall key {:trigger a.servers[key]} {:trigger b.servers[key]} :: key in s.servers ==>
          key in a.servers && key in b.servers && a.servers[key] == b.servers[key])
    && (forall key {:trigger a.servers[key]} :: key in a.servers && key !in s.servers ==> a.servers[key].history == [])
  }

  lemma ExactMeansSame(a: Mem, b: Mem, s: Store)
    requires Exact(a, s) && Exact(b, s)
    ensures SameLive(a, b, s)
  {
    forall key | key in s.servers ensures key in a.servers && key in b.servers && a.servers[key] == b.servers[key] {
      assert ServerExact(s, a, key) && ServerExact(s, b, key);
    }
    forall key | key in a.servers && key !in s.servers ensures a.servers[key].history == [] {
      assert ServerExact(s, a, key);
    }
    forall id | id in a.orgs
      ensures a.orgs[id].org == b.orgs[id].org
      ensures a.orgs[id].keyHash == b.orgs[id].keyHash && a.orgs[id].salt == b.orgs[id].salt
    {
      assert EncodeOrg(a.orgs[id]) == s.orgs[id];
    }
  }

  lemma WholeIsExact(cfg: Config, history: seq<Store>, used: set<string>, proc: Proc)
    requires history != [] && ProcInv(cfg, history, used, proc) && proc.pc.Idle?
    requires proc.record.standing.Whole? && proc.view == |history| - 1
    ensures Exact(proc.mem, Current(history)) && Decodable(Current(history))
  {
    ExactDecodes(proc.mem, Current(history));
  }

  lemma ConstructExact(cfg: Config, used: set<string>, limit: PrivacyBudget, s: Store)
    requires StoreOk(cfg, used, s) && Decodable(s)
    ensures Construct(limit, s).Some? && Exact(Construct(limit, s).value, s)
  {
    if IsEmpty(s) {
      assert s.policies.Keys == {};
      NewMemExact(limit);
    } else {
      LoadExact(cfg, used, NewMem(limit), s);
    }
  }

  /**
   * Restart replay, in any run, whatever other platforms lost: where an idle platform has lost no call since a load
   * that saw one single state, and carries the latest log, a platform constructed now succeeds and holds the same live
   * state.
   */
  lemma RestartReplays(cfg: Config, g: System, p: nat, limit: PrivacyBudget)
    requires LawfulConfig(cfg) && Reachable(cfg, g) && p < |g.procs| && g.history != []
    requires g.procs[p].pc.Idle? && g.procs[p].record.standing.Whole? && g.procs[p].view == |g.history| - 1
    ensures Construct(limit, Current(g.history)).Some?
    ensures SameLive(Construct(limit, Current(g.history)).value, g.procs[p].mem, Current(g.history))
  {
    HistoryIsSerial(cfg, g);
    ReachableProc(cfg, g, p);
    WholeIsExact(cfg, g.history, g.used, g.procs[p]);
    ConstructExact(cfg, g.used, limit, Current(g.history));
    ExactMeansSame(Construct(limit, Current(g.history)).value, g.procs[p].mem, Current(g.history));
  }

  lemma WholeCommitExact(cfg: Config, g: System, p: nat)
    requires LawfulConfig(cfg) && SystemInv(cfg, g) && p < |g.procs| && g.procs[p].record.standing.Whole?
    requires g.procs[p].pc.Open? && Checked(g.procs[p].pc) && CanCommit(Current(g.history), g.procs[p].pc)
    ensures var g' := Step(cfg, g, p, Finish);
            && Exact(g.procs[p].mem, Current(g'.history)) && Decodable(Current(g'.history))
            && StoreOk(cfg, g'.used, Current(g'.history))
  {
    var g' := Step(cfg, g, p, Finish);
    StepKeepsInv(cfg, g, p, Finish);
    assert ProcAt(cfg, g', p) && StateAt(cfg, g'.used, g'.history, |g'.history| - 1);
    WholeIsExact(cfg, g'.history, g'.used, g'.procs[p]);
  }

  /**
   * In particular right after its own commit: such a platform leaves a store that loads, with every counter equal to
   * the number of its rows.
   */
  lemma WholeCommitReplays(cfg: Config, g: System, p: nat, limit: PrivacyBudget)
    requires LawfulConfig(cfg) && Reachable(cfg, g) && p < |g.procs| && g.history != []
    requires g.procs[p].pc.Open? && Checked(g.procs[p].pc) && CanCommit(Current(g.history), g.procs[p].pc)
    requires g.procs[p].record.standing.Whole?
    ensures var s' := Current(Step(cfg, g, p, Finish).history);
            && Construct(limit, s').Some? && SameLive(Construct(limit, s').value, g.procs[p].mem, s')
            && forall key :: key in s'.servers ==> s'.servers[key].rounds == |RoundRows(s', key)|
  {
    ReachableInv(cfg, g);
    WholeCommitExact(cfg, g, p);
    var g' := Step(cfg, g, p, Finish);
    var s' := Current(g'.history);
    ConstructExact(cfg, g'.used, limit, s');
    ExactMeansSame(Construct(limit, s').value, g.procs[p].mem, s');
  }
}
