/** The stored budget over the whole history: when it is the sum of its events, and when a commit charges it once. */
module BudgetHistory {
  import opened Foundations
  import opened AccountantTheorems
  import opened DifferentialPrivacy
  import opened Storage
  import opened Approvals
  import opened PlatformOps
  import opened StoreSerial
  import opened StoreProtocol
  import opened StoreTheorems
  import opened StoreGuarantees
  import opened BudgetLineage
  import Policy

  // ---- one step of the row ----

  /** The row was charged one request of the platform's own. */
  ghost predicate ChargedBy(cfg: Config, before: Accountant, after: Accountant, req: Request) {
    Payable(cfg, before, req) && OverOrders(req, RDP_ALPHAS) && after == Charged(before, req)
  }

  /** From one committed state to the next the row is untouched, charged once, or created as the sum of its events. */
  ghost predicate BudgetStep(cfg: Config, before: Option<Accountant>, after: Option<Accountant>) {
    if before.None? then after.Some? ==> Conserved(after.value)
    else after.Some? && (after == before || exists req :: ChargedBy(cfg, before.value, after.value, req))
  }

  lemma LossIsNoStep(cfg: Config, row: Accountant, row': Accountant)
    requires LosesCharge(row, row')
    ensures !BudgetStep(cfg, Some(row), Some(row'))
  {
  }

  lemma OnceIsStep(cfg: Config, row: Option<Accountant>, before: Mem, op: Op, row': Option<Accountant>)
    requires LawfulConfig(cfg) && Execute(cfg, before, op).Some? && ChargedOnce(cfg, row, op, row')
    requires row.None? && row'.Some? ==> Conserved(row'.value)
    ensures BudgetStep(cfg, row, row')
  {
    ChargeWrite(cfg, before, op, Execute(cfg, before, op).value);
    if ChargeOf(cfg, op).Some? && row.Some? {
      ExecuteReleases(cfg, before, op);
      ReleasedOverAlphas(cfg, before, op);
      assert ChargedBy(cfg, row.value, row'.value, ChargeOf(cfg, op).value);
    }
  }

  // ---- the books of a history ----

  /** Some state up to `j` was written by a platform with charges adrift. */
  predicate Strayed(astray: set<nat>, j: nat) {
    exists k :: k in astray && k <= j
  }

  ghost predicate Booked(row: Option<Accountant>, strayed: bool) {
    row.Some? ==>
      if strayed then row.value.spent.epsilon < CostSum(row.value.events).epsilon else Conserved(row.value)
  }

  ghost predicate BookedAt(history: seq<Store>, astray: set<nat>, j: nat)
    requires j < |history|
  {
    Booked(history[j].budget, Strayed(astray, j))
  }

  ghost predicate StepAt(cfg: Config, history: seq<Store>, astray: set<nat>, i: nat)
    requires i + 1 < |history|
  {
    BudgetStep(cfg, history[i].budget, history[i + 1].budget) <==> i + 1 !in astray
  }

  ghost predicate AstrayAt(history: seq<Store>, k: nat) {
    0 < k < |history| && history[k].budget.Some?
  }

  ghost predicate Books(cfg: Config, history: seq<Store>, astray: set<nat>) {
    && (forall k {:trigger AstrayAt(history, k)} :: k in astray ==> AstrayAt(history, k))
    && (forall j {:trigger BookedAt(history, astray, j)} :: 0 <= j < |history| ==> BookedAt(history, astray, j))
    && (forall i {:trigger StepAt(cfg, history, astray, i)} :: 0 <= i < |history| - 1 ==>
          StepAt(cfg, history, astray, i))
  }

  lemma BookedNext(cfg: Config, row: Option<Accountant>, row': Option<Accountant>, strayed: bool, loses: bool)
    requires Booked(row, strayed) && (strayed ==> row.Some?)
    requires if loses then row.Some? && row'.Some? && LosesCharge(row.value, row'.value) else BudgetStep(cfg, row, row')
    ensures Booked(row', strayed || loses) && (loses ==> !BudgetStep(cfg, row, row'))
  {
    if loses {
      LossIsNoStep(cfg, row.value, row'.value);
    } else if row.Some? && row' != row {
      var req :| ChargedBy(cfg, row.value, row'.value, req);
      ChargedConserved(row.value, req);
    }
  }

  lemma StrayedMeansRow(cfg: Config, history: seq<Store>, used: set<string>, astray: set<nat>)
    requires HistoryInv(cfg, used, history) && Books(cfg, history, astray) && Strayed(astray, |history| - 1)
    ensures Current(history).budget.Some?
  {
    var k :| k in astray && k <= |history| - 1;
    assert AstrayAt(history, k);
    HistoryRowGrows(cfg, used, history, k, |history| - 1);
  }

  lemma StrayedNext(history: seq<Store>, astray: set<nat>, astray': set<nat>, j: nat, loses: bool)
    requires astray' == if loses then astray + {|history|} else astray
    requires forall k :: k in astray ==> k < |history|
    ensures j < |history| ==> (Strayed(astray', j) <==> Strayed(astray, j))
    ensures j == |history| > 0 ==> (Strayed(astray', j) <==> Strayed(astray, j - 1) || loses)
  {
    if Strayed(astray, j) {
      var k :| k in astray && k <= j;
      assert k in astray';
    }
    if j == |history| > 0 && Strayed(astray, j - 1) {
      var k :| k in astray && k <= j - 1;
      assert k in astray';
    }
    if loses {
      assert |history| in astray';
    }
  }

  lemma BooksGrow(cfg: Config, history: seq<Store>, used: set<string>, astray: set<nat>, s': Store, loses: bool)
    requires HistoryInv(cfg, used, history) && Books(cfg, history, astray)
    requires var row := Current(history).budget;
             if loses then row.Some? && s'.budget.Some? && LosesCharge(row.value, s'.budget.value)
             else BudgetStep(cfg, row, s'.budget)
    ensures Books(cfg, history + [s'], if loses then astray + {|history|} else astray)
  {
    var longer, astray', n := history + [s'], if loses then astray + {|history|} else astray, |history|;
    forall k | k in astray' ensures AstrayAt(longer, k) {
      assert k in astray ==> AstrayAt(history, k);
    }
    forall k | k in astray ensures k < n {
      assert AstrayAt(history, k);
    }
    if Strayed(astray, n - 1) {
      StrayedMeansRow(cfg, history, used, astray);
    }
    assert BookedAt(history, astray, n - 1);
    BookedNext(cfg, Current(history).budget, s'.budget, Strayed(astray, n - 1), loses);
    forall j | 0 <= j < |longer| ensures BookedAt(longer, astray', j) {
      assert j < n ==> BookedAt(history, astray, j);
      StrayedNext(history, astray, astray', j, loses);
    }
    forall i | 0 <= i < |longer| - 1 ensures StepAt(cfg, longer, astray', i) {
      assert i < n - 1 ==> StepAt(cfg, history, astray, i);
    }
  }

  // ---- every run ----

  ghost predicate BudgetInv(cfg: Config, g: System) {
    g.history != [] && AllLedgers(cfg, g) && Books(cfg, g.history, g.astray)
  }

  lemma StepBooks(cfg: Config, g: System, p: nat, a: Action)
    requires LawfulConfig(cfg) && SystemInv(cfg, g) && BudgetInv(cfg, g) && p < |g.procs|
    ensures Books(cfg, Step(cfg, g, p, a).history, Step(cfg, g, p, a).astray)
  {
    var proc, s := g.procs[p], Current(g.history);
    var o := Act(cfg, g.history, g.used, proc, a);
    if o.committed.Some? {
      assert LedgerAt(cfg, g, p) && ProcAt(cfg, g, p);
      FinishCommits(cfg, g.history, g.used, proc);
      CommitSteps(cfg, g.history, g.used, proc);
      if !GoesAstray(s, proc) {
        OnceIsStep(cfg, s.budget, proc.pc.before, proc.pc.op, o.committed.value.budget);
      }
      BooksGrow(cfg, g.history, g.used, g.astray, o.committed.value, GoesAstray(s, proc));
    }
  }

  lemma InitialBooks(cfg: Config, limits: seq<PrivacyBudget>)
    ensures BudgetInv(cfg, Initial(limits))
  {
    var g := Initial(limits);
    forall p | 0 <= p < |g.procs| ensures LedgerAt(cfg, g, p) {
      FreshBased(g.history, 0, limits[p], false);
    }
    forall p, q | 0 <= p < |g.procs| && 0 <= q < |g.procs| ensures OwnApart(g, p, q) {
    }
    assert BookedAt(g.history, {}, 0);
  }

  /** In every run accountants, ids and books keep in step with the store, whatever was lost and whatever loads saw. */
  lemma {:induction false} RunKeepsBooks(cfg: Config, limits: seq<PrivacyBudget>, moves: seq<Move>)
    requires LawfulConfig(cfg) && NonNegative(limits) && ValidMoves(moves, |limits|) && AllInOrder(moves)
    ensures BudgetInv(cfg, Interleave(cfg, Initial(limits), moves))
  {
    if moves == [] {
      InitialBooks(cfg, limits);
    } else {
      var init, last := moves[..|moves| - 1], moves[|moves| - 1];
      var g := Interleave(cfg, Initial(limits), init);
      RunKeepsBooks(cfg, limits, init);
      RunKeepsInv(cfg, limits, init);
      StepLedgers(cfg, g, last.p, last.action);
      StepBooks(cfg, g, last.p, last.action);
    }
  }

  lemma ReachableBooks(cfg: Config, g: System)
    requires LawfulConfig(cfg) && Reachable(cfg, g)
    ensures SystemInv(cfg, g) && BudgetInv(cfg, g)
  {
    var limits, moves :| LeadsTo(cfg, limits, moves, g);
    RunKeepsInv(cfg, limits, moves);
    RunKeepsBooks(cfg, limits, moves);
  }

  // ---- what a commit charges ----

  /**
   * A committed call charges the row it overwrites exactly once, unless it replaces a row while charges are adrift:
   * then, and only then, a charge is lost. That takes a charge adrift after a load into which another was committed.
   */
  lemma CommitChargesOnce(cfg: Config, g: System, p: nat)
    requires LawfulConfig(cfg) && Reachable(cfg, g) && p < |g.procs| && g.history != []
    requires g.procs[p].pc.Open? && Checked(g.procs[p].pc) && CanCommit(Current(g.history), g.procs[p].pc)
    ensures var row, row' := Current(g.history).budget, Current(Step(cfg, g, p, Finish).history).budget;
            && (ChargedOnce(cfg, row, g.procs[p].pc.op, row') <==> !GoesAstray(Current(g.history), g.procs[p]))
            && (GoesAstray(Current(g.history), g.procs[p]) ==>
                  g.procs[p].record.split && row'.Some? && LosesCharge(row.value, row'.value))
  {
    ReachableBooks(cfg, g);
    CommitsSerialize(cfg, g, p);
    assert LedgerAt(cfg, g, p) && ProcAt(cfg, g, p);
    CommitSteps(cfg, g.history, g.used, g.procs[p]);
    RowStepIff(cfg, Current(g.history), g.procs[p], Current(Step(cfg, g, p, Finish).history).budget);
  }

  lemma RowStepIff(cfg: Config, s: Store, proc: Proc, row': Option<Accountant>)
    requires proc.pc.Open? && RowStep(cfg, s, proc, row')
    ensures ChargedOnce(cfg, s.budget, proc.pc.op, row') <==> !GoesAstray(s, proc)
  {
  }

  /** No charge is lost and none counted twice, up to state i, exactly if no state up to i was written astray. */
  lemma StoredBudgetConserved(cfg: Config, g: System, i: nat)
    requires LawfulConfig(cfg) && Reachable(cfg, g) && i < |g.history| && g.history[i].budget.Some?
    ensures Conserved(g.history[i].budget.value) <==> forall k :: k in g.astray ==> k > i
    ensures g.history[i].budget.value.spent.epsilon <= CostSum(g.history[i].budget.value.events).epsilon
  {
    ReachableBooks(cfg, g);
    assert BookedAt(g.history, g.astray, i);
    assert Strayed(g.astray, i) <==> !(forall k :: k in g.astray ==> k > i);
  }

  /** Exactly the states that were not written astray follow from their predecessors by at most one charge. */
  lemma SerialBudget(cfg: Config, g: System, i: nat)
    requires LawfulConfig(cfg) && Reachable(cfg, g) && i + 1 < |g.history|
    ensures BudgetStep(cfg, g.history[i].budget, g.history[i + 1].budget) <==> i + 1 !in g.astray
  {
    ReachableBooks(cfg, g);
    assert StepAt(cfg, g.history, g.astray, i);
  }

  // ---- loads into which no charge falls ----

  /** Budget and audit table are read from the same committed state. */
  predicate LoadsTogether(a: Action) {
    match a
    case Boot(_, t) => t.budget == t.audit
    case Restore(t) => t.budget == t.audit
    case _ => true
  }

  ghost predicate AllTogether(moves: seq<Move>) {
    forall k :: 0 <= k < |moves| ==> LoadsTogether(moves[k].action)
  }

  ghost predicate NoneSplit(g: System) {
    forall p :: 0 <= p < |g.procs| ==> !g.procs[p].record.split
  }

  lemma {:induction false} RunNeverSplits(cfg: Config, limits: seq<PrivacyBudget>, moves: seq<Move>)
    requires ValidMoves(moves, |limits|) && AllTogether(moves)
    ensures NoneSplit(Interleave(cfg, Initial(limits), moves))
  {
    if moves != [] {
      var init, last := moves[..|moves| - 1], moves[|moves| - 1];
      RunNeverSplits(cfg, limits, init);
      assert LoadsTogether(last.action);
    }
  }

  /**
   * If no commit falls between the query for the budget and the query for the log of any load, no charge is ever
   * lost, whatever platforms lost their calls and commits.
   */
  lemma {:induction false} TogetherNeverAstray(cfg: Config, limits: seq<PrivacyBudget>, moves: seq<Move>)
    requires LawfulConfig(cfg) && NonNegative(limits) && ValidMoves(moves, |limits|) && AllInOrder(moves)
    requires AllTogether(moves)
    ensures Interleave(cfg, Initial(limits), moves).astray == {}
  {
    if moves != [] {
      var init, last := moves[..|moves| - 1], moves[|moves| - 1];
      var g := Interleave(cfg, Initial(limits), init);
      TogetherNeverAstray(cfg, limits, init);
      RunNeverSplits(cfg, limits, init);
      RunKeepsInv(cfg, limits, init);
      RunKeepsBooks(cfg, limits, init);
      StaysCharged(cfg, g, last.p, last.action);
    }
  }

  lemma StaysCharged(cfg: Config, g: System, p: nat, a: Action)
    requires LawfulConfig(cfg) && SystemInv(cfg, g) && BudgetInv(cfg, g) && p < |g.procs| && NoneSplit(g)
    ensures Step(cfg, g, p, a).astray == g.astray
  {
    if Act(cfg, g.history, g.used, g.procs[p], a).committed.Some? {
      assert LedgerAt(cfg, g, p) && ProcAt(cfg, g, p);
      CommitSteps(cfg, g.history, g.used, g.procs[p]);
    }
  }

  // ---- a refused release stays refused ----

  lemma StepSpendsMore(cfg: Config, used: set<string>, before: Accountant, after: Option<Accountant>)
    requires BudgetStep(cfg, Some(before), after) && AccountantOk(cfg, used, before)
    ensures after.Some? && SpentMore(before, after.value)
  {
    if after != Some(before) {
      var req :| ChargedBy(cfg, before, after.value, req);
      ChargeSpendsMore(before, req, RDP_ALPHAS);
    }
  }

  lemma SpentMoreTransitive(a: Accountant, b: Accountant, c: Accountant)
    requires SpentMore(a, b) && SpentMore(b, c)
    ensures SpentMore(a, c)
  {
    forall x ensures At(a.rdpTotals, x) <= At(c.rdpTotals, x) {
      assert At(a.rdpTotals, x) <= At(b.rdpTotals, x);
    }
  }

  /** No state after i, up to j, was written astray. */
  predicate KeptBetween(astray: set<nat>, i: nat, j: nat) {
    forall k :: k in astray ==> !(i < k <= j)
  }

  lemma {:induction false} HistorySpendsMore(cfg: Config, used: set<string>, history: seq<Store>, astray: set<nat>,
                                             i: nat, j: nat)
    requires HistoryInv(cfg, used, history) && Books(cfg, history, astray) && KeptBetween(astray, i, j)
    requires i <= j < |history| && history[i].budget.Some?
    ensures history[j].budget.Some? && SpentMore(history[i].budget.value, history[j].budget.value)
    decreases j
  {
    if i < j {
      HistorySpendsMore(cfg, used, history, astray, i, j - 1);
      assert StepAt(cfg, history, astray, j - 1) && StateAt(cfg, used, history, j - 1);
      StepSpendsMore(cfg, used, history[j - 1].budget.value, history[j].budget);
      SpentMoreTransitive(history[i].budget.value, history[j - 1].budget.value, history[j].budget.value);
    }
  }

  /**
   * An event once stored stays stored, in place, forever, and spend never goes back; nor do limit, delta and RDP
   * totals, unless a commit astray replaces the row in between.
   */
  lemma EventsStayForever(cfg: Config, g: System, i: nat, j: nat)
    requires LawfulConfig(cfg) && Reachable(cfg, g) && i <= j < |g.history| && g.history[i].budget.Some?
    ensures g.history[j].budget.Some?
    ensures g.history[i].budget.value.events <= g.history[j].budget.value.events
    ensures g.history[i].budget.value.spent.epsilon <= g.history[j].budget.value.spent.epsilon
    ensures KeptBetween(g.astray, i, j) ==> SpentMore(g.history[i].budget.value, g.history[j].budget.value)
  {
    ReachableBooks(cfg, g);
    HistoryRowGrows(cfg, g.used, g.history, i, j);
    if KeptBetween(g.astray, i, j) {
      HistorySpendsMore(cfg, g.used, g.history, g.astray, i, j);
    }
  }

  /** The charge of a call in which k members take part. */
  ghost predicate WellFormedRelease(req: Policy.QueryRequest, k: nat) {
    Policy.WellFormedRequest(req) && k > 0
  }

  lemma ReleaseOverAlphas(m: Analysis, req: Policy.QueryRequest, k: nat, id: string)
    requires LawfulAnalysis(m) && WellFormedRelease(req, k)
    ensures OverOrders(ReleaseCharge(m, req, k, id), RDP_ALPHAS)
  {
    if req.metric == ROUND_METRIC {
      GaussianOverAlphas(m, req.epsilon, req.delta, k, id);
    } else {
      LaplaceOverAlphas(m, req.epsilon, id);
    }
  }

  /**
   * Denial is permanent for the platform: a release refused against some committed budget is refused against every
   * later one that no commit astray separates from it, because all charges are over one order set. The limit stays.
   */
  lemma RefusedForever(cfg: Config, g: System, i: nat, j: nat, req: Policy.QueryRequest, k: nat, id: string)
    requires LawfulConfig(cfg) && Reachable(cfg, g) && i <= j < |g.history| && g.history[i].budget.Some?
    requires WellFormedRelease(req, k) && KeptBetween(g.astray, i, j)
    requires Refuses(cfg.m, g.history[i].budget.value, ReleaseCharge(cfg.m, req, k, id))
    ensures g.history[j].budget.Some? && g.history[j].budget.value.limit == g.history[i].budget.value.limit
    ensures Refuses(cfg.m, g.history[j].budget.value, ReleaseCharge(cfg.m, req, k, id))
  {
    ReachableBooks(cfg, g);
    HistorySpendsMore(cfg, g.used, g.history, g.astray, i, j);
    assert StateAt(cfg, g.used, g.history, i) && StateAt(cfg, g.used, g.history, j);
    ReleaseOverAlphas(cfg.m, req, k, id);
    RefusalIsMonotone(cfg.m, g.history[i].budget.value, g.history[j].budget.value,
                      ReleaseCharge(cfg.m, req, k, id), RDP_ALPHAS);
  }
}
