/** Reachable runs in which another platform commits into a load (sentrylink/storage/store.py, load). */
module TornLoads {
  import opened Foundations
  import opened AccountantTheorems
  import opened Approvals
  import opened DifferentialPrivacy
  import opened Storage
  import opened PlatformOps
  import opened StoreProtocol
  import opened StoreGuarantees
  import opened BudgetLineage
  import opened GovernanceTerms
  import opened StoreRuns
  import opened ThreeMembers
  import Policy

  // ---- the second platform loads while the first commits ----

  /** Organizations, policies and budget are read before the last commit, the audit table after it. */
  function TornAt(n: nat): LoadTimes {
    LoadTimes(n, n, n, n + 1, n + 1, n + 1)
  }

  lemma TornParts(history: seq<Store>, n: nat, mem: Mem)
    requires n + 2 == |history| && history[n] == Mirror(mem)
    requires Current(history).servers == map[] && Current(history).rounds == map[]
    ensures Between(0, TornAt(n), |history|) && CodeOrder(TornAt(n))
    ensures Torn(history, TornAt(n)) == Mirror(mem).(audit := Current(history).audit)
  {
  }

  /** It governs the members, has charged nothing, and carries the latest log. */
  ghost predicate LoadedTorn(q: Proc, s: Store, limit: PrivacyBudget) {
    q.pc == Idle && Governs3(q.mem) && q.mem.accountant == Fresh(limit) && q.mem.audit == s.audit
  }

  lemma BootedTorn(history: seq<Store>, n: nat, mem: Mem, limit: PrivacyBudget)
    requires n + 2 == |history| && history[n] == Mirror(mem) && Governs3(mem) && Current(history).audit != []
    requires Current(history).servers == map[] && Current(history).rounds == map[]
    ensures Between(0, TornAt(n), |history|) && LoadedTorn(Booted(history, limit, TornAt(n)), Current(history), limit)
  {
    TornParts(history, n, mem);
    LoadGoverns(mem, Torn(history, TornAt(n)), limit);
  }

  lemma SecondLoads(cfg: Config, g: System, n: nat, mem: Mem, limit: PrivacyBudget) returns (g': System)
    requires Reachable(cfg, g) && |g.procs| == 2 && n + 2 == |g.history| && g.history[n] == Mirror(mem) && Governs3(mem)
    requires Current(g.history).servers == map[] && Current(g.history).rounds == map[] && Current(g.history).audit != []
    requires limit.epsilon >= 0.0 && limit.delta >= 0.0
    ensures Reachable(cfg, g') && |g'.procs| == 2 && g'.history == g.history && g'.used == g.used
    ensures LoadedTorn(g'.procs[1], Current(g.history), limit)
  {
    TornParts(g.history, n, mem);
    BootedTorn(g.history, n, mem, limit);
    g' := Go(cfg, g, 1, Boot(limit, TornAt(n)));
  }

  // ---- stale consents ----

  /** A release can commit although the consents of the state it overwrites do not allow it. */
  ghost predicate SlipsThrough(cfg: Config, g: System, p: nat) {
    && Reachable(cfg, g) && g.history != [] && p < |g.procs|
    && var pc, s := g.procs[p].pc, Current(g.history);
       && pc.Open? && Checked(pc) && CanCommit(s, pc) && IdOf(pc.op).Some? && !ApprovedIn(s, pc.op.req)
  }

  /** The founder withdraws the first member's consent. */
  lemma Withdraw(cfg: Config, g: System, mem: Mem) returns (g': System, after: Mem)
    requires Founded(cfg, g, mem) && Governs3(mem)
    ensures Founded(cfg, g', after) && |g'.history| == |g.history| + 1 && after.audit != [] && g'.used == g.used
    ensures g'.history[..|g.history|] == g.history
    ensures Withdrawn(after.policies) && MembersLive(after.orgs, NAMES)
  {
    var done := WithdrawWrites(cfg, mem);
    g' := Govern(cfg, g, mem, WithdrawOp(), done);
    after := done.mem;
  }

  lemma WithdrawnInStore(mem: Mem, req: Policy.QueryRequest)
    requires Withdrawn(mem.policies) && MembersLive(mem.orgs, NAMES) && req == Request3("histogram", SMALL)
    ensures !ApprovedIn(Mirror(mem), req)
  {
    MetricsAllowed();
    WithdrawnRefuses(StoredRegistry(Mirror(mem).orgs), mem.policies, "histogram", SMALL);
  }

  lemma QuerySlips(cfg: Config, g: System, after: Mem, op: Op, n: nat) returns (g': System)
    requires Reachable(cfg, g) && |g.procs| == 2 && g.history != [] && Current(g.history) == Mirror(after)
    requires LoadedTorn(g.procs[1], Mirror(after), DEFAULT_LIMIT) && op.Query? && Released(cfg, g.procs[1].mem, op)
    requires !ApprovedIn(Mirror(after), op.req) && Short(g.used, n) && IdOf(op) == Some(Id(n + 1))
    ensures SlipsThrough(cfg, g', 1)
  {
    NextId(op, g.used, n);
    var done := QueryWrites(cfg, g.procs[1].mem, op, ChargeOf(cfg, op).value);
    FreshOnMirror(after, done.bundle);
    g' := Prepare(cfg, g, 1, op, done);
    ReadyCommits(cfg, g, 1, op, done);
  }

  /**
   * With loads in the order of the code: a consent is withdrawn between the queries for the policies and for the audit
   * table of a starting platform. It then holds the old consents under the new tip, and a release that the stored
   * consents forbid passes the gate.
   */
  lemma TornLoadReleases(cfg: Config)
    ensures exists g, p :: SlipsThrough(cfg, g, p)
  {
    var g, mem := ThreeJoined(cfg);
    var withdrawn, after := Withdraw(cfg, g, mem);
    assert withdrawn.history[|g.history| - 1] == withdrawn.history[..|g.history|][|g.history| - 1];
    var torn := SecondLoads(cfg, withdrawn, |g.history| - 1, mem, DEFAULT_LIMIT);
    var op := SomeQuery(cfg, torn.procs[1].mem, Id(1 + 1));
    WithdrawnInStore(after, op.req);
    var last := QuerySlips(cfg, torn, after, op, 1);
    assert SlipsThrough(cfg, last, 1);
  }

  // ---- a lost charge ----

  /** The charge of the query. */
  function ChargeFor(cfg: Config, op: Op): Request
    requires op.Query?
  {
    ChargeOf(cfg, op).value
  }

  /** The first platform's query was committed. */
  ghost predicate OneCounted(cfg: Config, g: System, mem: Mem, op: Op) {
    && op.Query? && Reachable(cfg, g) && |g.procs| == 2 && 2 <= |g.history| && g.history[|g.history| - 2] == Mirror(mem)
    && var s := Current(g.history);
       && s.servers == map[] && s.rounds == map[] && s.audit != []
       && s.budget == Some(Charged(Fresh(DEFAULT_LIMIT), ChargeFor(cfg, op)))
  }

  lemma CountWritten(mem: Mem, done: Executed, charge: Request)
    requires mem.accountant == Fresh(DEFAULT_LIMIT) && ChargesQuery(mem, done, charge)
    ensures var s := Write(Mirror(mem), done.bundle, None);
            && s.servers == map[] && s.rounds == map[] && s.audit != []
            && s.budget == Some(Charged(Fresh(DEFAULT_LIMIT), charge))
  {
  }

  lemma FirstCounts(cfg: Config, g: System, mem: Mem, op: Op, n: nat) returns (g': System)
    requires Founded(cfg, g, mem) && mem.accountant == Fresh(DEFAULT_LIMIT) && op.Query? && Released(cfg, mem, op)
    requires Short(g.used, n) && op.id == Id(n + 1)
    ensures OneCounted(cfg, g', mem, op) && Short(g'.used, n + 1)
  {
    NextId(op, g.used, n);
    var done := QueryWrites(cfg, mem, op, ChargeFor(cfg, op));
    FreshOnMirror(mem, done.bundle);
    CountWritten(mem, done, ChargeFor(cfg, op));
    g' := ServeOnMirror(cfg, g, 0, mem, op, done);
    assert g'.history[|g.history| - 1] == g'.history[..|g.history|][|g.history| - 1];
  }

  /** The second platform, with its own limit, has one charge adrift. */
  ghost predicate CountLost(cfg: Config, q: Proc, s: Store, limit: PrivacyBudget, op: Op) {
    && op.Query? && q.pc == Idle && Governs3(q.mem) && q.mem.audit == s.audit
    && q.mem.accountant == Charged(Fresh(limit), ChargeFor(cfg, op))
  }

  lemma LostQuery(cfg: Config, q: Proc, op: Op)
    requires op.Query? && Released(cfg, q.mem, op)
    ensures Lost(cfg, q, op).mem == q.mem.(accountant := Charged(q.mem.accountant, ChargeFor(cfg, op)))
    ensures Lost(cfg, q, op).pc == q.pc
  {
  }

  lemma SecondLoses(cfg: Config, g: System, limit: PrivacyBudget, op: Op, n: nat) returns (g': System)
    requires Reachable(cfg, g) && |g.procs| == 2 && g.history != [] && Short(g.used, n)
    requires LoadedTorn(g.procs[1], Current(g.history), limit) && op.Query? && Released(cfg, g.procs[1].mem, op)
    requires op.id == Id(n + 1)
    ensures Reachable(cfg, g') && |g'.procs| == 2 && g'.history == g.history && Short(g'.used, n + 1)
    ensures CountLost(cfg, g'.procs[1], Current(g.history), limit, op)
  {
    LostQuery(cfg, g.procs[1], op);
    g' := LoseCall(cfg, g, 1, op, n);
  }

  lemma CountAccepted(mem: Mem, s: Store, done: Executed, row: Accountant, charge: Request)
    requires ChargesQuery(mem, done, charge) && s.audit == mem.audit
    requires s.budget == Some(row) && row.spent == mem.accountant.spent
    ensures IsFresh(s, done.bundle) && done.bundle.server.None?
    ensures Write(s, done.bundle, s.budget).budget
         == Some(BudgetAfter(Some(row), BudgetWriteOf(mem.accountant, Charged(mem.accountant, charge))))
  {
  }

  /** The last commit overwrote this row by that one. */
  ghost predicate Overwritten(cfg: Config, g: System, row: Accountant, row': Accountant) {
    && Reachable(cfg, g) && |g.history| > 1
    && g.history[|g.history| - 2].budget == Some(row) && Current(g.history).budget == Some(row')
  }

  lemma OverwrittenBy(cfg: Config, g: System, history: seq<Store>, s: Store, row: Accountant, row': Accountant)
    requires Reachable(cfg, g) && history != [] && g.history == history + [s]
    requires Current(history).budget == Some(row) && s.budget == Some(row')
    ensures Overwritten(cfg, g, row, row')
  {
  }

  lemma SecondCounts(cfg: Config, g: System, mem: Mem, row: Accountant, op: Op, charge: Request, n: nat)
    returns (g': System)
    requires Reachable(cfg, g) && |g.procs| == 2 && g.history != [] && Short(g.used, n)
    requires g.procs[1].pc == Idle && g.procs[1].mem == mem && mem.audit == Current(g.history).audit
    requires Current(g.history).budget == Some(row) && row.spent == mem.accountant.spent
    requires op.Query? && Released(cfg, mem, op) && op.id == Id(n + 1) && ChargeOf(cfg, op) == Some(charge)
    ensures Overwritten(cfg, g', row,
                        BudgetAfter(Some(row), BudgetWriteOf(mem.accountant, Charged(mem.accountant, charge))))
  {
    NextId(op, g.used, n);
    var done := QueryWrites(cfg, mem, op, charge);
    CountAccepted(mem, Current(g.history), done, row, charge);
    g' := Serve(cfg, g, 1, op, done);
    OverwrittenBy(cfg, g', g.history, Write(Current(g.history), done.bundle, Current(g.history).budget), row,
                  BudgetAfter(Some(row), BudgetWriteOf(mem.accountant, Charged(mem.accountant, charge))));
  }

  // ---- what was lost ----

  /** A limit with the default epsilon and a larger delta. */
  ghost predicate Wide(limit: PrivacyBudget) {
    limit.epsilon == 800.0 && limit.delta == 0.5
  }

  /** The accountant was charged one query of epsilon 1 and nothing else. */
  lemma CountedOnce(cfg: Config, limit: PrivacyBudget, acc: Accountant, op: Op, id: string)
    requires IsCount(op, id) && acc == Charged(Fresh(limit), ChargeFor(cfg, op))
    ensures acc.spent == PrivacyBudget(1.0, 0.0) && acc.limit == limit
    ensures |acc.events| == 1 && acc.events[0].id == id && acc.events[0].cost.epsilon == 1.0
    ensures limit.epsilon == 800.0 && 0.001 <= limit.delta < 1.0 ==> Lightly(acc)
  {
    CountCharge(cfg, op, id);
    if limit.epsilon == 800.0 && 0.001 <= limit.delta < 1.0 {
      StaysLightly(Fresh(limit), ChargeFor(cfg, op), id);
    }
  }

  lemma ThreeMerged(row: seq<Event>, own: seq<Event>, last: Event)
    requires |row| == |own| == 1 && row[0].id != own[0].id && row[0].id != last.id
    requires row[0].cost.epsilon == own[0].cost.epsilon == last.cost.epsilon == 1.0
    ensures CostSum(MergeEvents(row, own + [last])).epsilon == 3.0
  {
    assert own == [] + [own[0]] && row == [] + [row[0]];
    UnseenLast(row, [], own[0]);
    UnseenLast(row, own, last);
    CostOfBoth(row, own + [last]);
    CostOfLast(own, last);
    CostOfLast([], own[0]);
    CostOfLast([], row[0]);
  }

  /** A row charged once by its platform is replaced by one that has lost a charge of its own. */
  lemma ThreeForTwo(row: Accountant, acc: Accountant, row': Accountant, charge: Request)
    requires |row.events| == |acc.events| == 1 && row.events[0].id != acc.events[0].id
    requires row.events[0].cost.epsilon == acc.events[0].cost.epsilon == charge.cost.epsilon == acc.spent.epsilon == 1.0
    requires row' == BudgetAfter(Some(row), BudgetWriteOf(acc, Charged(acc, charge)))
    requires row.events[0].id != charge.id
    ensures row'.spent.epsilon == 2.0 && CostSum(row'.events).epsilon == 3.0
  {
    ThreeMerged(row.events, acc.events,
                Event(charge.id, charge.cost, charge.rdp.Some?, acc.spent, Plus(acc.spent, charge.cost)));
  }

  /** The release that the row refused is admitted once the other platform's limit has come with its accountant. */
  lemma RefusalUndone(m: Analysis, row: Accountant, after: Accountant, row': Accountant, release: Request)
    requires Lightly(row) && row.limit == DEFAULT_LIMIT && row.spent.delta == 0.0
    requires Wide(after.limit) && Lightly(after) && LargeCharge(release)
    requires row'.(events := []) == after.(events := [])
    ensures Refuses(m, row, release) && Admits(m, row', release)
  {
    LargeRefused(m, row, release);
    LargeAdmitted(m, row', release);
  }

  /** The new row has spent 2 for events that cost 3, and admits a release the old row refused. */
  ghost predicate Loses(m: Analysis, row: Accountant, row': Accountant, release: Request) {
    && row'.spent.epsilon == 2.0 && CostSum(row'.events).epsilon == 3.0
    && Refuses(m, row, release) && Admits(m, row', release)
  }

  /** The last commit replaced a row by one that has lost a charge. */
  ghost predicate LostCharge(cfg: Config, g: System, release: Request) {
    exists row, row' :: Overwritten(cfg, g, row, row') && Loses(cfg.m, row, row', release)
  }

  lemma ThreeCounts(cfg: Config, limit: PrivacyBudget, row: Accountant, acc: Accountant, row': Accountant, a: Op, b: Op,
                    c: Op, n: nat)
    requires IsCount(a, Id(n)) && IsCount(b, Id(n + 1)) && IsCount(c, Id(n + 2))
    requires row == Charged(Fresh(DEFAULT_LIMIT), ChargeFor(cfg, a)) && acc == Charged(Fresh(limit), ChargeFor(cfg, b))
    requires row' == BudgetAfter(Some(row), BudgetWriteOf(acc, Charged(acc, ChargeFor(cfg, c))))
    ensures row'.spent.epsilon == 2.0 && CostSum(row'.events).epsilon == 3.0
  {
    CountedOnce(cfg, DEFAULT_LIMIT, row, a, Id(n));
    CountedOnce(cfg, limit, acc, b, Id(n + 1));
    CountCharge(cfg, c, Id(n + 2));
    ThreeForTwo(row, acc, row', ChargeFor(cfg, c));
  }

  lemma WiderRow(cfg: Config, limit: PrivacyBudget, row: Accountant, acc: Accountant, row': Accountant, a: Op, b: Op,
                 c: Op, n: nat, release: Request)
    requires IsCount(a, Id(n)) && IsCount(b, Id(n + 1)) && IsCount(c, Id(n + 2)) && Wide(limit) && LargeCharge(release)
    requires row == Charged(Fresh(DEFAULT_LIMIT), ChargeFor(cfg, a)) && acc == Charged(Fresh(limit), ChargeFor(cfg, b))
    requires row' == BudgetAfter(Some(row), BudgetWriteOf(acc, Charged(acc, ChargeFor(cfg, c))))
    ensures Refuses(cfg.m, row, release) && Admits(cfg.m, row', release)
  {
    CountedOnce(cfg, DEFAULT_LIMIT, row, a, Id(n));
    CountedOnce(cfg, limit, acc, b, Id(n + 1));
    CountCharge(cfg, c, Id(n + 2));
    StaysLightly(acc, ChargeFor(cfg, c), Id(n + 2));
    RefusalUndone(cfg.m, row, Charged(acc, ChargeFor(cfg, c)), row', release);
  }

  lemma FirstStage(cfg: Config, n: nat) returns (g: System, mem: Mem, a: Op)
    requires n == 1
    ensures OneCounted(cfg, g, mem, a) && Governs3(mem) && IsCount(a, Id(n + 1)) && Short(g.used, n + 1)
  {
    var founded;
    founded, mem := ThreeJoined(cfg);
    a := SomeQuery(cfg, mem, Id(n + 1));
    g := FirstCounts(cfg, founded, mem, a, n);
  }

  lemma QueryLost(cfg: Config, g: System, limit: PrivacyBudget, n: nat) returns (g': System, b: Op)
    requires Reachable(cfg, g) && |g.procs| == 2 && g.history != [] && Short(g.used, n)
    requires LoadedTorn(g.procs[1], Current(g.history), limit) && Wide(limit)
    ensures Reachable(cfg, g') && |g'.procs| == 2 && g'.history == g.history && Short(g'.used, n + 1)
    ensures CountLost(cfg, g'.procs[1], Current(g.history), limit, b) && IsCount(b, Id(n + 1))
  {
    b := SomeQuery(cfg, g.procs[1].mem, Id(n + 1));
    g' := SecondLoses(cfg, g, limit, b, n);
  }

  lemma SecondStage(cfg: Config, g: System, mem: Mem, limit: PrivacyBudget, a: Op, n: nat)
    returns (g': System, b: Op)
    requires OneCounted(cfg, g, mem, a) && Governs3(mem) && Wide(limit) && Short(g.used, n)
    ensures Reachable(cfg, g') && |g'.procs| == 2 && g'.history == g.history && Short(g'.used, n + 1)
    ensures CountLost(cfg, g'.procs[1], Current(g.history), limit, b) && IsCount(b, Id(n + 1))
  {
    g' := SecondLoads(cfg, g, |g.history| - 2, mem, limit);
    g', b := QueryLost(cfg, g', limit, n);
  }

  lemma LastStage(cfg: Config, g: System, limit: PrivacyBudget, row: Accountant, acc: Accountant, n: nat)
    returns (g': System, c: Op)
    requires Reachable(cfg, g) && |g.procs| == 2 && g.history != [] && Short(g.used, n)
    requires Current(g.history).budget == Some(row) && row.spent == acc.spent && Lightly(acc)
    requires g.procs[1].pc == Idle && Governs3(g.procs[1].mem) && g.procs[1].mem.audit == Current(g.history).audit
    requires g.procs[1].mem.accountant == acc
    ensures IsCount(c, Id(n + 1))
    ensures Overwritten(cfg, g', row, BudgetAfter(Some(row), BudgetWriteOf(acc, Charged(acc, ChargeFor(cfg, c)))))
  {
    c := SomeQuery(cfg, g.procs[1].mem, Id(n + 1));
    CountCharge(cfg, c, Id(n + 1));
    g' := SecondCounts(cfg, g, g.procs[1].mem, row, c, ChargeFor(cfg, c), n);
  }

  lemma SameSpent(cfg: Config, limit: PrivacyBudget, row: Accountant, acc: Accountant, a: Op, b: Op, n: nat)
    requires IsCount(a, Id(n)) && IsCount(b, Id(n + 1)) && Wide(limit)
    requires row == Charged(Fresh(DEFAULT_LIMIT), ChargeFor(cfg, a)) && acc == Charged(Fresh(limit), ChargeFor(cfg, b))
    ensures row.spent == acc.spent && Lightly(acc)
  {
    CountedOnce(cfg, DEFAULT_LIMIT, row, a, Id(n));
    CountedOnce(cfg, limit, acc, b, Id(n + 1));
  }

  lemma RowLoses(cfg: Config, limit: PrivacyBudget, row: Accountant, acc: Accountant, row': Accountant, a: Op, b: Op,
                 c: Op, n: nat, release: Request)
    requires IsCount(a, Id(n)) && IsCount(b, Id(n + 1)) && IsCount(c, Id(n + 2)) && Wide(limit) && LargeCharge(release)
    requires row == Charged(Fresh(DEFAULT_LIMIT), ChargeFor(cfg, a)) && acc == Charged(Fresh(limit), ChargeFor(cfg, b))
    requires row' == BudgetAfter(Some(row), BudgetWriteOf(acc, Charged(acc, ChargeFor(cfg, c))))
    ensures Loses(cfg.m, row, row', release)
  {
    ThreeCounts(cfg, limit, row, acc, row', a, b, c, n);
    WiderRow(cfg, limit, row, acc, row', a, b, c, n, release);
  }

  lemma LosingRun(cfg: Config, limit: PrivacyBudget, release: Request, n: nat) returns (g: System)
    requires Wide(limit) && LargeCharge(release) && n == 1
    ensures LostCharge(cfg, g, release)
  {
    var counted, mem, a := FirstStage(cfg, n);
    var lost, b := SecondStage(cfg, counted, mem, limit, a, n + 1);
    var row, acc := Current(lost.history).budget.value, lost.procs[1].mem.accountant;
    SameSpent(cfg, limit, row, acc, a, b, n + 1);
    var c;
    g, c := LastStage(cfg, lost, limit, row, acc, n + 2);
    var row' := BudgetAfter(Some(row), BudgetWriteOf(acc, Charged(acc, ChargeFor(cfg, c))));
    RowLoses(cfg, limit, row, acc, row', a, b, c, n + 1, release);
  }

  /**
   * With loads in the order of the code: the first query of another platform is committed between the queries for the
   * budget and for the audit table of a starting platform, which then holds no charge under the new tip. It loses a
   * query of the same cost; its accountant has now spent what the row says, and its next query replaces the row. A
   * charge is lost although budget proof and audit insert both pass, and with the row the limit is replaced.
   */
  lemma TornLoadLosesCharge(cfg: Config)
    ensures exists g, id :: LostCharge(cfg, g, ReleaseCharge(cfg.m, Request3(ROUND_METRIC, LARGE), 3, id))
  {
    var limit := PrivacyBudget(800.0, 0.5);
    var release := LargeRound(cfg.m, Id(0));
    var g := LosingRun(cfg, limit, release, 1);
    assert LostCharge(cfg, g, ReleaseCharge(cfg.m, Request3(ROUND_METRIC, LARGE), 3, Id(0)));
  }
}
