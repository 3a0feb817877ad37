/** The in-memory backend's transaction: queued operations applied one by one (sentrylink/storage/store.py). */
module InMemoryTransactions {
  import opened Foundations
  import opened DifferentialPrivacy
  import opened Storage
  import opened PlatformOps
  import opened ThreeMembers
  import Audit
  import Federated
  import Policy

  datatype TxOp =
    | SaveOrg(org: OrgRow)
    | SavePolicy(id: OrgId, policy: Policy.ConsentPolicy)
    | SaveBudget(budget: BudgetWrite)
    | SaveServer(key: string, row: ServerRow, expectRounds: int)
    | AppendRound(serverKey: string, round: Federated.RoundResult)
    | AppendAudit(entry: Audit.Entry, expectPrev: string)

  /** The state while a transaction is being applied: its moving audit tip, and whether a check has failed. */
  datatype Progress = Progress(state: Store, tip: string, ok: bool)

  predicate Passes(p: Progress, op: TxOp) {
    match op
    case SaveBudget(w) => BudgetFresh(p.state.budget, w)
    case SaveServer(key, _, proof) => key in p.state.servers ==> p.state.servers[key].rounds == proof
    case AppendAudit(_, expectPrev) => p.tip == expectPrev
    case _ => true
  }

  function Effect(s: Store, op: TxOp): Store {
    match op
    case SaveOrg(org) => s.(orgs := s.orgs[org.org.orgId := org])
    case SavePolicy(id, policy) => s.(policies := s.policies[id := policy])
    case SaveBudget(w) => s.(budget := Some(BudgetAfter(s.budget, w)))
    case SaveServer(key, row, _) => s.(servers := s.servers[key := row])
    case AppendRound(key, round) => s.(rounds := s.rounds[key := RoundRows(s, key) + [round]])
    case AppendAudit(entry, _) => s.(audit := s.audit + [entry])
  }

  function ApplyOne(p: Progress, op: TxOp): Progress {
    if !p.ok then p
    else if !Passes(p, op) then p.(ok := false)
    else Progress(Effect(p.state, op), if op.AppendAudit? then op.entry.hash else p.tip, true)
  }

  /** Applying a queue from the left; nothing after the first failed check takes effect, everything before it stays. */
  function Applied(s: Store, ops: seq<TxOp>): Progress {
    if ops == [] then Progress(s, Audit.Tip(s.audit), true)
    else ApplyOne(Applied(s, ops[..|ops| - 1]), ops[|ops| - 1])
  }

  class InMemoryState {
    var state: Store

    constructor ()
      ensures state == EMPTY
    {
      state := EMPTY;
    }
  }

  class InMemoryTx {
    const shared: InMemoryState
    var ops: seq<TxOp>

    constructor (shared: InMemoryState)
      ensures this.shared == shared && ops == []
    {
      this.shared, ops := shared, [];
    }

    method Enqueue(op: TxOp)
      modifies this
      ensures ops == old(ops) + [op]
    {
      ops := ops + [op];
    }

    /** Leaving the transaction: discard on an exception, otherwise check and write op by op, in place. */
    method Exit(failed: bool) returns (r: Result<(), Error>)
      modifies this, shared
      ensures failed ==> r == Ok(()) && shared.state == old(shared.state) && ops == []
      ensures !failed ==> shared.state == Applied(old(shared.state), old(ops)).state
      ensures !failed ==> r == if Applied(old(shared.state), old(ops)).ok then Ok(()) else Err(ConcurrentWriteError)
      ensures !failed ==> ops == if r.Ok? then [] else old(ops)
    {
      if failed {
        ops := [];
        return Ok(());
      }
      ghost var start := shared.state;
      var tip := Audit.Tip(shared.state.audit);
      for k := 0 to |ops|
        invariant ops == old(ops)
        invariant Applied(start, ops[..k]) == Progress(shared.state, tip, true)
      {
        assert ops[..k + 1][..k] == ops[..k];
        var op := ops[k];
        if !Passes(Progress(shared.state, tip, true), op) {
          StaysFailed(start, ops, k + 1);
          return Err(ConcurrentWriteError);
        }
        shared.state := Effect(shared.state, op);
        tip := if op.AppendAudit? then op.entry.hash else tip;
      }
      assert ops[..|ops|] == ops;
      ops := [];
      return Ok(());
    }
  }

  lemma {:induction false} StaysFailed(s: Store, ops: seq<TxOp>, k: nat)
    requires k <= |ops| && !Applied(s, ops[..k]).ok
    ensures Applied(s, ops) == Applied(s, ops[..k])
    decreases |ops| - k
  {
    if k == |ops| {
      assert ops[..k] == ops;
    } else {
      assert ops[..k + 1][..k] == ops[..k];
      StaysFailed(s, ops, k + 1);
    }
  }

  // ---- bundles of the platform through this backend ----

  function OptionOps(b: Bundle): seq<TxOp> {
    (if b.org.Some? then [SaveOrg(b.org.value)] else [])
    + (if b.policy.Some? then [SavePolicy(b.policy.value.0, b.policy.value.1)] else [])
    + (if b.budget.Some? then [SaveBudget(b.budget.value)] else [])
  }

  function ServerOps(b: Bundle): seq<TxOp> {
    match b.server
    case None => []
    case Some(w) => [SaveServer(w.key, w.row, w.expectRounds), AppendRound(w.key, w.round)]
  }

  /** The calls a platform makes on its transaction, in the order it makes them. */
  function Queue(b: Bundle): seq<TxOp> {
    OptionOps(b) + ServerOps(b) + [AppendAudit(b.entry, b.entry.prevHash)]
  }

  method EnqueueOptions(tx: InMemoryTx, b: Bundle)
    requires tx.ops == []
    modifies tx
    ensures tx.ops == OptionOps(b)
  {
    if b.org.Some? {
      tx.Enqueue(SaveOrg(b.org.value));
    }
    ghost var orgOps := tx.ops;
    if b.policy.Some? {
      tx.Enqueue(SavePolicy(b.policy.value.0, b.policy.value.1));
    }
    ghost var policyOps := if b.policy.Some? then [SavePolicy(b.policy.value.0, b.policy.value.1)] else [];
    assert tx.ops == orgOps + policyOps;
    if b.budget.Some? {
      tx.Enqueue(SaveBudget(b.budget.value));
    }
  }

  method EnqueueServer(tx: InMemoryTx, b: Bundle)
    modifies tx
    ensures tx.ops == old(tx.ops) + ServerOps(b)
  {
    if b.server.Some? {
      var w := b.server.value;
      tx.Enqueue(SaveServer(w.key, w.row, w.expectRounds));
      tx.Enqueue(AppendRound(w.key, w.round));
    }
  }

  /** A platform's call on this backend: its operations are queued, and leaving the transaction applies them. */
  method Transact(tx: InMemoryTx, b: Bundle) returns (r: Result<(), Error>)
    requires tx.ops == []
    modifies tx, tx.shared
    ensures tx.shared.state == Applied(old(tx.shared.state), Queue(b)).state
    ensures r == if Applied(old(tx.shared.state), Queue(b)).ok then Ok(()) else Err(ConcurrentWriteError)
  {
    EnqueueOptions(tx, b);
    EnqueueServer(tx, b);
    tx.Enqueue(AppendAudit(b.entry, b.entry.prevHash));
    r := tx.Exit(false);
  }

  /** What the platform's bundles look like: governance writes, a budget write, or a budget write with a round. */
  predicate Shaped(b: Bundle) {
    if b.budget.Some? then b.org.None? && b.policy.None? else b.server.None?
  }

  lemma ExecuteShapes(cfg: Config, mem: Mem, op: Op)
    requires Execute(cfg, mem, op).Some?
    ensures Shaped(Execute(cfg, mem, op).value.bundle)
  {
  }

  lemma AppliedLast(s: Store, ops: seq<TxOp>, op: TxOp)
    ensures Applied(s, ops + [op]) == ApplyOne(Applied(s, ops), op)
  {
    assert (ops + [op])[..|ops|] == ops;
  }

  function Start(s: Store): Progress {
    Progress(s, Audit.Tip(s.audit), true)
  }

  lemma AppliedFew(s: Store, first: TxOp, second: TxOp)
    ensures Applied(s, []) == Start(s)
    ensures Applied(s, [first]) == ApplyOne(Start(s), first)
    ensures Applied(s, [first] + [second]) == ApplyOne(ApplyOne(Start(s), first), second)
  {
    assert [first] == [] + [first];
    AppliedLast(s, [], first);
    AppliedLast(s, [first], second);
  }

  /** The governance or budget part of a bundle. */
  function Headed(s: Store, b: Bundle): Store {
    Write(s, b, s.budget).(servers := s.servers, rounds := s.rounds, audit := s.audit)
  }

  lemma GovernanceApplied(s: Store, b: Bundle)
    requires b.budget.None?
    ensures Applied(s, OptionOps(b)) == Start(Headed(s, b)).(tip := Audit.Tip(s.audit))
  {
    if b.org.Some? && b.policy.Some? {
      var first, second := SaveOrg(b.org.value), SavePolicy(b.policy.value.0, b.policy.value.1);
      AppliedFew(s, first, second);
      assert OptionOps(b) == [first] + [second];
    } else if b.org.Some? {
      AppliedFew(s, SaveOrg(b.org.value), SaveOrg(b.org.value));
      assert OptionOps(b) == [SaveOrg(b.org.value)];
    } else if b.policy.Some? {
      var only := SavePolicy(b.policy.value.0, b.policy.value.1);
      AppliedFew(s, only, only);
      assert OptionOps(b) == [only];
    }
  }

  lemma BudgetApplied(s: Store, b: Bundle)
    requires b.budget.Some? && b.org.None? && b.policy.None?
    ensures var p := Applied(s, OptionOps(b));
            if BudgetFresh(s.budget, b.budget.value) then p == Start(Headed(s, b)).(tip := Audit.Tip(s.audit))
            else !p.ok && p.state == s
  {
    var only := SaveBudget(b.budget.value);
    AppliedFew(s, only, only);
    assert OptionOps(b) == [only];
  }

  lemma OptionsApplied(s: Store, b: Bundle)
    requires Shaped(b)
    ensures var p := Applied(s, OptionOps(b));
            && p.ok == BudgetPartFresh(s, b)
            && (p.ok ==> p == Progress(Headed(s, b), Audit.Tip(s.audit), true))
            && (!p.ok ==> p.state == s)
  {
    if b.budget.Some? {
      BudgetApplied(s, b);
    } else {
      GovernanceApplied(s, b);
    }
  }

  predicate ServerPartFresh(s: Store, b: Bundle) {
    b.server.Some? ==> ServerFresh(ServerRowOf(s, b.server.value.key), b.server.value)
  }

  predicate BudgetPartFresh(s: Store, b: Bundle) {
    b.budget.Some? ==> BudgetFresh(s.budget, b.budget.value)
  }

  /** What the store holds when the queue has been applied: all of the bundle, its first part, or nothing. */
  function LeftBehind(s: Store, b: Bundle): Store {
    if IsFresh(s, b) then Write(s, b, s.budget)
    else if !BudgetPartFresh(s, b) then s
    else if !ServerPartFresh(s, b) then Headed(s, b)
    else Write(s, b, s.budget).(audit := s.audit)
  }

  lemma ServersApplied(s: Store, b: Bundle, head: seq<TxOp>, p: Progress)
    requires Applied(s, head) == p && p.ok && p.state.servers == s.servers && p.state.rounds == s.rounds
    ensures var q := Applied(s, head + ServerOps(b));
            && q.ok == ServerPartFresh(s, b)
            && (q.ok ==> q == p.(
                state := p.state.(servers := Write(s, b, s.budget).servers, rounds := Write(s, b, s.budget).rounds)))
            && (!q.ok ==> q.state == p.state)
  {
    if b.server.Some? {
      var w := b.server.value;
      AppliedLast(s, head, SaveServer(w.key, w.row, w.expectRounds));
      AppliedLast(s, head + [SaveServer(w.key, w.row, w.expectRounds)], AppendRound(w.key, w.round));
      assert head + ServerOps(b) == (head + [SaveServer(w.key, w.row, w.expectRounds)]) + [AppendRound(w.key, w.round)];
    } else {
      assert head + ServerOps(b) == head;
    }
  }

  /** The backend accepts exactly the bundles whose proofs all hold, and then writes what the SQLite backend writes. */
  lemma QueueApplied(s: Store, b: Bundle)
    requires Shaped(b)
    ensures Applied(s, Queue(b)).ok <==> IsFresh(s, b)
    ensures Applied(s, Queue(b)).state == LeftBehind(s, b)
  {
    var head, last := OptionOps(b), AppendAudit(b.entry, b.entry.prevHash);
    OptionsApplied(s, b);
    AppliedLast(s, head + ServerOps(b), last);
    var p := Applied(s, head);
    if p.ok {
      ServersApplied(s, b, head, p);
      FullProgress(s, b, Applied(s, head + ServerOps(b)), last);
    } else {
      assert (head + ServerOps(b))[..|head|] == head;
      StaysFailed(s, head + ServerOps(b), |head|);
    }
  }

  lemma FullProgress(s: Store, b: Bundle, q: Progress, last: TxOp)
    requires last == AppendAudit(b.entry, b.entry.prevHash) && BudgetPartFresh(s, b)
    requires q.ok == ServerPartFresh(s, b)
    requires q.ok ==> q == Progress(Write(s, b, s.budget).(audit := s.audit), Audit.Tip(s.audit), true)
    requires !q.ok ==> q.state == Headed(s, b)
    ensures ApplyOne(q, last).ok <==> IsFresh(s, b)
    ensures ApplyOne(q, last).state == LeftBehind(s, b)
  {
  }

  // ---- atomicity ----

  /** All of the bundle or nothing of it. */
  ghost predicate Atomic(s: Store, b: Bundle) {
    Applied(s, Queue(b)).ok || Applied(s, Queue(b)).state == s
  }

  /** Governance writes that repeat what is stored. */
  predicate RepeatsStored(s: Store, b: Bundle) {
    && (b.org.Some? ==> b.org.value.org.orgId in s.orgs && s.orgs[b.org.value.org.orgId] == b.org.value)
    && (b.policy.Some? ==> b.policy.value.0 in s.policies && s.policies[b.policy.value.0] == b.policy.value.1)
  }

  lemma RewritingChanges<K, V>(m: map<K, V>, k: K, v: V)
    ensures m[k := v] == m <==> k in m && m[k] == v
  {
    assert k in m[k := v];
  }

  /**
   * A bundle of the platform is atomic on this backend exactly when all its proofs hold, or its very first check (the
   * budget proof) fails, or its governance writes repeat what is stored. Otherwise a rejected bundle leaves its
   * governance writes or its budget behind.
   */
  lemma AtomicIff(cfg: Config, mem: Mem, op: Op, s: Store)
    requires Execute(cfg, mem, op).Some?
    ensures var b := Execute(cfg, mem, op).value.bundle;
            Atomic(s, b) <==>
              IsFresh(s, b) || (if b.budget.Some? then !BudgetPartFresh(s, b) else RepeatsStored(s, b))
  {
    var b := Execute(cfg, mem, op).value.bundle;
    ExecuteShapes(cfg, mem, op);
    QueueApplied(s, b);
    if !IsFresh(s, b) {
      if b.budget.Some? {
        if BudgetPartFresh(s, b) {
          ChargeGrows(cfg, mem, op);
          BudgetLeft(s, b);
        }
      } else {
        if b.org.Some? {
          RewritingChanges(s.orgs, b.org.value.org.orgId, b.org.value);
        }
        if b.policy.Some? {
          RewritingChanges(s.policies, b.policy.value.0, b.policy.value.1);
        }
        GovernanceLeft(s, b);
      }
    }
  }

  lemma GovernanceLeft(s: Store, b: Bundle)
    requires Shaped(b) && b.budget.None? && !IsFresh(s, b)
    ensures LeftBehind(s, b) == s.(orgs := Write(s, b, s.budget).orgs, policies := Write(s, b, s.budget).policies)
  {
  }

  lemma ChargeGrows(cfg: Config, mem: Mem, op: Op)
    requires Execute(cfg, mem, op).Some? && Execute(cfg, mem, op).value.bundle.budget.Some?
    ensures var w := Execute(cfg, mem, op).value.bundle.budget.value; w.expectSpent.epsilon < w.data.spent.epsilon
  {
    assert IdOf(op).Some?;
    ExecuteReleases(cfg, mem, op);
  }

  /** A fresh budget proof writes a budget that has spent more than the stored one. */
  lemma BudgetLeft(s: Store, b: Bundle)
    requires b.budget.Some? && BudgetPartFresh(s, b)
    requires b.budget.value.expectSpent.epsilon < b.budget.value.data.spent.epsilon
    ensures LeftBehind(s, b).budget != s.budget
  {
  }

  // ---- platforms on an in-memory store ----

  /** Platforms that share one in-memory store and take turns; each entry of `mems` is one platform's live objects. */
  datatype Shared = Shared(store: Store, mems: seq<Mem>)

  datatype Turn = Attach(limit: PrivacyBudget) | Call(p: nat, op: Op)

  /** One call: on success the bundle is applied; after a rejection the live objects are rebuilt from what is there. */
  ghost function Called(cfg: Config, sh: Shared, p: nat, op: Op): Shared
    requires p < |sh.mems|
  {
    match Execute(cfg, sh.mems[p], op)
    case None => sh.(mems := sh.mems[p := Spoil(cfg, sh.mems[p], op)])
    case Some(done) =>
      var q := Applied(sh.store, Queue(done.bundle));
      if q.ok then Shared(q.state, sh.mems[p := done.mem])
      else
        var rebuilt := match Reload(done.mem, q.state)
                       case Some(mem) => mem
                       case None => HalfLoaded(done.mem, q.state);
        Shared(q.state, sh.mems[p := rebuilt])
  }

  ghost function Taken(cfg: Config, sh: Shared, turn: Turn): Shared {
    match turn
    case Attach(limit) =>
      if Construct(limit, sh.store).Some? then sh.(mems := sh.mems + [Construct(limit, sh.store).value]) else sh
    case Call(p, op) => if p < |sh.mems| then Called(cfg, sh, p, op) else sh
  }

  ghost function Play(cfg: Config, turns: seq<Turn>): Shared {
    if turns == [] then Shared(EMPTY, [])
    else Taken(cfg, Play(cfg, turns[..|turns| - 1]), turns[|turns| - 1])
  }

  ghost predicate Played(cfg: Config, sh: Shared) {
    exists turns :: Play(cfg, turns) == sh
  }

  lemma PlaysOn(cfg: Config, sh: Shared, turn: Turn)
    requires Played(cfg, sh)
    ensures Played(cfg, Taken(cfg, sh, turn))
  {
    var turns :| Play(cfg, turns) == sh;
    assert (turns + [turn])[..|turns|] == turns;
    assert Play(cfg, turns + [turn]) == Taken(cfg, sh, turn);
  }

  lemma RejectedLeavesBudget(s: Store, b: Bundle)
    requires Shaped(b) && b.budget.Some? && s.budget.None? && !TipFresh(s, b)
    ensures !Applied(s, Queue(b)).ok && Applied(s, Queue(b)).state.budget.Some?
  {
    QueueApplied(s, b);
  }

  /** The call's bundle is rejected by a store without a budget row, and afterwards the store has one. */
  ghost predicate LeavesBudget(cfg: Config, mem: Mem, op: Op, s: Store) {
    && Execute(cfg, mem, op).Some? && s.budget.None?
    && var p := Applied(s, Queue(Execute(cfg, mem, op).value.bundle)); !p.ok && p.state.budget.Some?
  }

  /** Any released query on a platform whose tip is stale leaves its budget in a store that had none. */
  lemma StaleQueryLeavesBudget(cfg: Config, mem: Mem, op: Op, s: Store)
    requires op.Query? && Released(cfg, mem, op) && s.budget.None? && Audit.Tip(s.audit) != Audit.Tip(mem.audit)
    ensures LeavesBudget(cfg, mem, op, s)
  {
    var done := QueryWrites(cfg, mem, op, ChargeOf(cfg, op).value);
    ExecuteShapes(cfg, mem, op);
    RejectedLeavesBudget(s, done.bundle);
  }

  // ---- a run that leaves a rejected budget behind ----

  /** The first platform has only joined these members, and the store is its mirror image. */
  ghost predicate Founding(cfg: Config, sh: Shared, ids: seq<OrgId>) {
    && Played(cfg, sh) && sh.mems != [] && sh.store == Mirror(sh.mems[0]) && Audit.Verifies(cfg.h, sh.store.audit)
    && MembersLive(sh.mems[0].orgs, ids) && Defaults(sh.mems[0].policies, ids)
  }

  lemma GovernanceIsApplied(cfg: Config, mem: Mem, op: Op, done: Executed)
    requires Governs(cfg, mem, op, done)
    ensures Applied(Mirror(mem), Queue(done.bundle)).ok
    ensures Applied(Mirror(mem), Queue(done.bundle)).state == Mirror(done.mem)
  {
    ExecuteShapes(cfg, mem, op);
    QueueApplied(Mirror(mem), done.bundle);
  }

  lemma CallApplies(cfg: Config, sh: Shared, p: nat, op: Op, done: Executed)
    requires p < |sh.mems| && Execute(cfg, sh.mems[p], op) == Some(done) && Applied(sh.store, Queue(done.bundle)).ok
    ensures Called(cfg, sh, p, op)
         == Shared(Applied(sh.store, Queue(done.bundle)).state, sh.mems[p := done.mem])
  {
  }

  lemma FounderGoverns(cfg: Config, sh: Shared, op: Op, done: Executed) returns (sh': Shared)
    requires Played(cfg, sh) && sh.mems != [] && sh.store == Mirror(sh.mems[0]) && Governs(cfg, sh.mems[0], op, done)
    requires Audit.Verifies(cfg.h, sh.store.audit)
    ensures Played(cfg, sh') && sh' == Shared(Mirror(done.mem), sh.mems[0 := done.mem])
    ensures Audit.Verifies(cfg.h, sh'.store.audit) && |sh'.store.audit| == |sh.store.audit| + 1
  {
    GovernanceIsApplied(cfg, sh.mems[0], op, done);
    PlaysOn(cfg, sh, Call(0, op));
    CallApplies(cfg, sh, 0, op, done);
    sh' := Called(cfg, sh, 0, op);
    Audit.RecordVerifies(cfg.h, sh.mems[0].audit, op.payload);
  }

  lemma FounderJoins(cfg: Config, sh: Shared, ids: seq<OrgId>, last: OrgId) returns (sh': Shared)
    requires ids != [] && last == ids[|ids| - 1] && NoDuplicates(ids) && Founding(cfg, sh, ids[..|ids| - 1])
    ensures Founding(cfg, sh', ids) && |sh'.mems| == |sh.mems|
    ensures forall q :: 0 < q < |sh.mems| ==> sh'.mems[q] == sh.mems[q]
    ensures |sh'.store.audit| == |sh.store.audit| + 1
  {
    var mem := sh.mems[0];
    DistinctLast(ids);
    MembersGrow(mem.orgs, mem.policies, ids, last);
    var done := JoinWrites(cfg, mem, last);
    sh' := FounderGoverns(cfg, sh, JoinOp(last), done);
  }

  lemma FounderAttaches(cfg: Config) returns (sh: Shared)
    ensures Founding(cfg, sh, []) && |sh.mems| == 1
  {
    assert Play(cfg, []) == Shared(EMPTY, []);
    PlaysOn(cfg, Shared(EMPTY, []), Attach(DEFAULT_LIMIT));
    sh := Taken(cfg, Shared(EMPTY, []), Attach(DEFAULT_LIMIT));
    assert Mirror(NewMem(DEFAULT_LIMIT)) == EMPTY;
  }

  lemma {:induction false} FounderJoinsAll(cfg: Config, ids: seq<OrgId>) returns (sh: Shared)
    requires NoDuplicates(ids)
    ensures Founding(cfg, sh, ids) && |sh.mems| == 1 && (ids != [] ==> sh.store.audit != [])
  {
    if ids == [] {
      sh := FounderAttaches(cfg);
    } else {
      DistinctLast(ids);
      sh := FounderJoinsAll(cfg, ids[..|ids| - 1]);
      sh := FounderJoins(cfg, sh, ids, ids[|ids| - 1]);
    }
  }

  lemma SecondAttaches(cfg: Config, sh: Shared) returns (sh': Shared)
    requires Founding(cfg, sh, NAMES) && |sh.mems| == 1 && sh.store.audit != []
    ensures Founding(cfg, sh', NAMES) && |sh'.mems| == 2 && Governing(sh'.mems[1])
    ensures sh'.store == sh.store && sh'.mems[1].audit == sh.store.audit
  {
    LoadGoverns(sh.mems[0], sh.store, DEFAULT_LIMIT);
    PlaysOn(cfg, sh, Attach(DEFAULT_LIMIT));
    sh' := Taken(cfg, sh, Attach(DEFAULT_LIMIT));
  }

  lemma LongerLogNewTip(cfg: Config, a: seq<Audit.Entry>, b: seq<Audit.Entry>)
    requires LawfulConfig(cfg) && Audit.Verifies(cfg.h, a) && Audit.Verifies(cfg.h, b) && |a| != |b|
    ensures Audit.Tip(a) != Audit.Tip(b)
  {
    if Audit.Tip(a) == Audit.Tip(b) {
      Audit.SameHeadSameLog(cfg.h, a, b);
    }
  }

  /** A run in which the second platform's query is about to be rejected, and its budget to stay. */
  ghost predicate RejectsAndKeeps(cfg: Config, sh: Shared, op: Op) {
    Played(cfg, sh) && |sh.mems| == 2 && op.Query? && LeavesBudget(cfg, sh.mems[1], op, sh.store)
  }

  /** The founder registers a fourth member. */
  lemma FourthJoins(cfg: Config, sh: Shared) returns (sh': Shared)
    requires Founding(cfg, sh, NAMES)
    ensures Played(cfg, sh') && |sh'.mems| == |sh.mems| && sh'.store.budget.None?
    ensures forall q :: 0 < q < |sh.mems| ==> sh'.mems[q] == sh.mems[q]
    ensures Audit.Verifies(cfg.h, sh'.store.audit) && |sh'.store.audit| == |sh.store.audit| + 1
  {
    var four := NAMES + ["d"];
    DistinctIndices(four);
    assert four[..|four| - 1] == NAMES;
    sh' := FounderJoins(cfg, sh, four, "d");
  }

  /**
   * A run on an in-memory store: one platform joins three members, a second one starts and loads them, the first joins
   * a fourth, and then the second answers an affordable, approved query. The budget proof holds (there is no row), the
   * tip is stale, the bundle is rejected, and its budget stays written.
   */
  lemma StaleTipLeavesBudget(cfg: Config)
    requires LawfulConfig(cfg)
    ensures exists sh, op :: RejectsAndKeeps(cfg, sh, op)
  {
    NamesAscend();
    var sh := FounderJoinsAll(cfg, NAMES);
    sh := SecondAttaches(cfg, sh);
    var loaded := sh.store.audit;
    sh := FourthJoins(cfg, sh);
    LongerLogNewTip(cfg, sh.store.audit, loaded);
    var op := SomeQuery(cfg, sh.mems[1], "event");
    StaleQueryLeavesBudget(cfg, sh.mems[1], op, sh.store);
    assert RejectsAndKeeps(cfg, sh, op);
  }
}
