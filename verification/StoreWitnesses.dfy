/** Reachable runs whose committed rounds part store and users (sentrylink/platform.py, sentrylink/storage/store.py). */
module StoreWitnesses {
  import opened Foundations
  import opened Approvals
  import opened DifferentialPrivacy
  import opened RealVectors
  import opened Storage
  import opened PlatformOps
  import opened StoreSerial
  import opened StoreProtocol
  import opened StoreTheorems
  import opened StoreGuarantees
  import opened ServerLineage
  import opened StoreRuns
  import opened ThreeMembers
  import Audit
  import Federated

  // ---- rounds of a one-weight model ----

  const KEY: string := "group" + ":" + "retail"

  /** A round that moves the model by `shift` to weight `w`. */
  function RoundTo(shift: real, w: real, id: string): Federated.RoundResult {
    Federated.RoundResult(id, NAMES, [], [shift], [w], Federated.EvalStats(0, None, 0, None), true, 1.0, 1.0, SMALL)
  }

  function RoundOp(delta: real, shift: real, w: real, evaluated: bool, id: string): Op {
    Round(Request3(ROUND_METRIC, delta), 0, RoundTo(shift, w, id), evaluated, id,
          Audit.Payload(id, 0, "federated.round", ""))
  }

  function Weight(w: real, history: seq<Federated.RoundResult>): LiveServer {
    LiveServer(0, [w], history)
  }

  lemma RoundContinues(w: real, history: seq<Federated.RoundResult>, shift: real, w': real, id: string)
    requires w' == w + shift
    ensures Continues(Weight(w, history), RoundTo(shift, w', id))
    ensures AfterRound(Weight(w, history), RoundTo(shift, w', id)) == Weight(w', history + [RoundTo(shift, w', id)])
  {
    assert Add([w], [shift]) == [w'];
  }

  /** The platform's only server, created on first use, has this weight and history. */
  ghost predicate Holds(mem: Mem, w: real, history: seq<Federated.RoundResult>) {
    mem.servers.Keys <= {KEY} && ServerIn(mem, KEY, 0) == Weight(w, history)
  }

  lemma NothingHeld(mem: Mem)
    requires mem.servers == map[]
    ensures Holds(mem, 0.0, [])
  {
    assert ZeroServer(0).model == [0.0];
  }

  lemma RoundApproved(mem: Mem, delta: real)
    requires Governs3(mem) && 0.0 < delta < 1.0
    ensures ApprovedBy(mem, Request3(ROUND_METRIC, delta))
  {
    MetricsAllowed();
    ThreeApprove(LiveRegistry(mem.orgs), mem.policies, ROUND_METRIC, delta);
  }

  lemma RoundCharges(cfg: Config, delta: real, shift: real, w: real, evaluated: bool, id: string)
    ensures RoundKey(RoundOp(delta, shift, w, evaluated, id).req) == KEY
    ensures ChargeOf(cfg, RoundOp(delta, shift, w, evaluated, id)) == Some(GaussianCharge(cfg.m, 1.0, delta, 3, id))
  {
  }

  lemma PaidRoundIsReleased(cfg: Config, mem: Mem, op: Op)
    requires op.Round? && op.req.metric == ROUND_METRIC && ApprovedBy(mem, op.req) && op.result.participants != []
    requires op.evaluated && Payable(cfg, mem.accountant, ChargeOf(cfg, op).value)
    ensures Released(cfg, mem, op)
  {
  }

  /** What a released round did to memory and asks the store to write, besides its server. */
  ghost predicate ChargesRound(mem: Mem, done: Executed, charge: Request) {
    && done.mem.orgs == mem.orgs && done.mem.policies == mem.policies
    && done.mem.audit == mem.audit + [done.bundle.entry] && done.bundle.entry.prevHash == Audit.Tip(mem.audit)
    && done.bundle.org.None? && done.bundle.policy.None?
    && done.bundle.budget == Some(BudgetWriteOf(mem.accountant, done.mem.accountant))
    && done.mem.accountant == Charged(mem.accountant, charge)
  }

  lemma ReleasedRoundExecutes(cfg: Config, mem: Mem, op: Op, key: string, server: LiveServer, charge: Request)
    returns (done: Executed)
    requires op.Round? && Released(cfg, mem, op) && key == RoundKey(op.req) && server == ServerIn(mem, key, op.dim)
    requires Continues(server, op.result) && ChargeOf(cfg, op) == Some(charge)
    ensures Execute(cfg, mem, op) == Some(done) && ChargesRound(mem, done, charge)
    ensures done.mem.servers == mem.servers[key := AfterRound(server, op.result)]
    ensures done.bundle.server
         == Some(ServerWrite(key, EncodeServer(AfterRound(server, op.result)), |server.history|, op.result))
  {
    done := Execute(cfg, mem, op).value;
  }

  lemma AffordableReleased(cfg: Config, mem: Mem, shift: real, w: real, id: string, op: Op)
    requires Governs3(mem) && Lightly(mem.accountant) && op == RoundOp(SMALL, shift, w, true, id)
    ensures Released(cfg, mem, op)
  {
    RoundCharges(cfg, SMALL, shift, w, true, id);
    RoundApproved(mem, SMALL);
    AffordableRound(cfg, mem.accountant, 3, id);
    PaidRoundIsReleased(cfg, mem, op);
  }

  lemma HoldsNext(before: Mem, after: Mem, w: real, history: seq<Federated.RoundResult>, live: LiveServer)
    requires Holds(before, w, history) && after.servers == before.servers[KEY := live]
    ensures live.dim == 0 && |live.model| == 1 ==> Holds(after, live.model[0], live.history)
  {
  }

  /** The call is a released round that takes the platform's server from weight w to weight w'. */
  ghost predicate Moves(cfg: Config, mem: Mem, op: Op, w: real, history: seq<Federated.RoundResult>, w': real,
                        charge: Request) {
    && op.Round? && Released(cfg, mem, op) && RoundKey(op.req) == KEY && op.dim == 0
    && ChargeOf(cfg, op) == Some(charge) && Holds(mem, w, history) && Continues(Weight(w, history), op.result)
    && AfterRound(Weight(w, history), op.result) == Weight(w', history + [op.result])
  }

  lemma AffordableMoves(cfg: Config, mem: Mem, w: real, history: seq<Federated.RoundResult>, w': real, id: string,
                        op: Op)
    requires op.Round? && Released(cfg, mem, op) && RoundKey(op.req) == KEY && op.dim == 0 && Holds(mem, w, history)
    requires ChargeOf(cfg, op) == Some(GaussianCharge(cfg.m, 1.0, SMALL, 3, id))
    requires Continues(Weight(w, history), op.result)
    requires AfterRound(Weight(w, history), op.result) == Weight(w', history + [op.result])
    ensures Moves(cfg, mem, op, w, history, w', GaussianCharge(cfg.m, 1.0, SMALL, 3, id))
  {
  }

  /** A platform that can afford it has a round that moves its weight by `shift`. */
  lemma AffordableMove(cfg: Config, mem: Mem, w: real, history: seq<Federated.RoundResult>, shift: real, w': real,
                       id: string)
    returns (op: Op)
    requires Governs3(mem) && Lightly(mem.accountant) && Holds(mem, w, history) && w' == w + shift
    ensures Moves(cfg, mem, op, w, history, w', GaussianCharge(cfg.m, 1.0, SMALL, 3, id))
    ensures IdOf(op) == Some(id) && op.result.aggregate == [shift]
  {
    op := RoundOp(SMALL, shift, w', true, id);
    AffordableReleased(cfg, mem, shift, w', id, op);
    RoundCharges(cfg, SMALL, shift, w', true, id);
    RoundContinues(w, history, shift, w', id);
    AffordableMoves(cfg, mem, w, history, w', id, op);
  }

  lemma MovesExecutes(cfg: Config, mem: Mem, op: Op, w: real, history: seq<Federated.RoundResult>, w': real,
                      charge: Request)
    returns (done: Executed)
    requires Moves(cfg, mem, op, w, history, w', charge)
    ensures Execute(cfg, mem, op) == Some(done) && ChargesRound(mem, done, charge)
    ensures Holds(done.mem, w', history + [op.result])
    ensures done.bundle.server == Some(ServerWrite(KEY, ServerRow(0, [w'], |history| + 1), |history|, op.result))
  {
    done := ReleasedRoundExecutes(cfg, mem, op, KEY, Weight(w, history), charge);
    HoldsNext(mem, done.mem, w, history, AfterRound(Weight(w, history), op.result));
  }

  /** A round that trained but was not released leaves its weight, and its history if it was evaluated. */
  lemma VainLeaves(cfg: Config, mem: Mem, op: Op, w: real, history: seq<Federated.RoundResult>, w': real,
                   after: seq<Federated.RoundResult>)
    requires op.Round? && op.req.metric == ROUND_METRIC && ApprovedBy(mem, op.req) && !Released(cfg, mem, op)
    requires op.result.participants != [] && RoundKey(op.req) == KEY && op.dim == 0 && Holds(mem, w, history)
    requires Continues(Weight(w, history), op.result)
    requires AfterRound(Weight(w, history), op.result) == Weight(w', history + [op.result])
    requires after == if op.evaluated then history + [op.result] else history
    ensures TrainsInVain(cfg, mem, op) && KeysOf(op) == {KEY}
    ensures Spoil(cfg, mem, op).(servers := mem.servers) == mem && Holds(Spoil(cfg, mem, op), w', after)
  {
  }

  lemma VainRoundLeaves(cfg: Config, mem: Mem, delta: real, w: real, history: seq<Federated.RoundResult>, shift: real,
                        w': real, evaluated: bool, id: string, op: Op, after: seq<Federated.RoundResult>)
    requires Governs3(mem) && Holds(mem, w, history) && 0.0 < delta < 1.0 && w' == w + shift
    requires op == RoundOp(delta, shift, w', evaluated, id) && !Released(cfg, mem, op)
    requires after == if evaluated then history + [op.result] else history
    ensures TrainsInVain(cfg, mem, op) && KeysOf(op) == {KEY}
    ensures Spoil(cfg, mem, op).(servers := mem.servers) == mem && Holds(Spoil(cfg, mem, op), w', after)
  {
    RoundCharges(cfg, delta, shift, w', evaluated, id);
    RoundContinues(w, history, shift, w', id);
    RoundApproved(mem, delta);
    VainLeaves(cfg, mem, op, w, history, w', after);
  }

  lemma TooLargeIsNotReleased(cfg: Config, mem: Mem, op: Op, shift: real, w: real, id: string)
    requires op == RoundOp(LARGE, shift, w, true, id) && mem.accountant == Fresh(DEFAULT_LIMIT)
    ensures !Released(cfg, mem, op)
  {
    RoundCharges(cfg, LARGE, shift, w, true, id);
    UnaffordableRound(cfg, 3, id);
  }

  // ---- a refused round breaks the counter ----

  /** The platform has lost one round whose charge was refused: its weight stays, its history grows. */
  ghost predicate LostOne(before: Proc, after: Proc, w: real, round: Federated.RoundResult) {
    && after.pc == before.pc && after.mem.(servers := before.mem.servers) == before.mem
    && after.record.dirty == before.record.dirty + {KEY} && Holds(after.mem, w, [round])
  }

  lemma LostGoverns(before: Proc, after: Proc, w: real, round: Federated.RoundResult)
    requires Governing(before.mem) && LostOne(before, after, w, round)
    ensures Governs3(after.mem) && Lightly(after.mem.accountant) && after.mem.accountant == Fresh(DEFAULT_LIMIT)
    ensures after.mem.audit == before.mem.audit && after.mem.policies == before.mem.policies
  {
  }

  /** Losing a round that trained leaves its key dirty. */
  lemma VainlyLost(cfg: Config, proc: Proc, op: Op)
    requires TrainsInVain(cfg, proc.mem, op) && KeysOf(op) == {KEY}
    ensures var lost := Lost(cfg, proc, op);
            && lost.mem == Spoil(cfg, proc.mem, op) && lost.pc == proc.pc
            && lost.record.dirty == proc.record.dirty + {KEY}
            && (NothingLost(proc.record.standing) ==> lost.record.standing == Spoiled)
  {
  }

  lemma FirstInVain(cfg: Config, mem: Mem, delta: real, w: real, id: string, op: Op)
    requires Governs3(mem) && mem.servers == map[] && 0.0 < delta < 1.0
    requires op == RoundOp(delta, w, w, true, id) && !Released(cfg, mem, op)
    ensures TrainsInVain(cfg, mem, op) && KeysOf(op) == {KEY}
    ensures Spoil(cfg, mem, op).(servers := mem.servers) == mem && Holds(Spoil(cfg, mem, op), w, [op.result])
  {
    NothingHeld(mem);
    assert [] + [op.result] == [op.result];
    VainRoundLeaves(cfg, mem, delta, 0.0, [], w, w, true, id, op, [op.result]);
  }

  lemma RefusedLost(cfg: Config, proc: Proc, w: real, id: string, op: Op)
    requires Governing(proc.mem) && proc.mem.servers == map[] && op == RoundOp(LARGE, w, w, true, id)
    ensures LostOne(proc, Lost(cfg, proc, op), w, op.result)
  {
    TooLargeIsNotReleased(cfg, proc.mem, op, w, w, id);
    FirstInVain(cfg, proc.mem, LARGE, w, id, op);
    VainlyLost(cfg, proc, op);
  }

  /** A platform that governs the members loses a round to a refused charge. */
  lemma Refuse(cfg: Config, g: System, p: nat, w: real, n: nat) returns (g': System, round: Federated.RoundResult)
    requires Reachable(cfg, g) && g.history != [] && p < |g.procs| && g.procs[p].pc == Idle && Short(g.used, n)
    requires Governing(g.procs[p].mem) && g.procs[p].mem.servers == map[]
    ensures Reachable(cfg, g') && g'.history == g.history && Short(g'.used, n + 1)
    ensures |g'.procs| == |g.procs| && g'.procs == g.procs[p := g'.procs[p]]
    ensures LostOne(g.procs[p], g'.procs[p], w, round)
  {
    var op := RoundOp(LARGE, w, w, true, Id(n + 1));
    round := op.result;
    RefusedLost(cfg, g.procs[p], w, Id(n + 1), op);
    g' := LoseCall(cfg, g, p, op, n);
  }

  /** What the first platform's committed round has left. */
  ghost predicate Served(cfg: Config, g: System, g': System, founder: Mem, done: Executed, op: Op, charge: Request) {
    && Reachable(cfg, g') && |g.procs| == |g'.procs| == 2 && g'.history != [] && g'.procs[1] == g.procs[1]
    && Current(g'.history) == Write(Mirror(founder), done.bundle, None) && ChargesRound(g.procs[0].mem, done, charge)
    && g'.procs[0] == Done(g.procs[0], op, done, |g.history|)
  }

  /** Its round meets a store that still mirrors the founder, so nothing stands in its way. */
  lemma MirrorRound(cfg: Config, g: System, founder: Mem, w: real, history: seq<Federated.RoundResult>, w': real,
                    op: Op, charge: Request, n: nat)
    returns (g': System, done: Executed)
    requires Reachable(cfg, g) && |g.procs| == 2 && g.history != [] && Current(g.history) == Mirror(founder)
    requires g.procs[0].pc == Idle && g.procs[0].mem.audit == founder.audit && Short(g.used, n)
    requires Moves(cfg, g.procs[0].mem, op, w, history, w', charge) && IdOf(op) == Some(Id(n + 1))
    ensures Served(cfg, g, g', founder, done, op, charge) && Short(g'.used, n + 1)
    ensures Holds(done.mem, w', history + [op.result])
    ensures done.bundle.server == Some(ServerWrite(KEY, ServerRow(0, [w'], |history| + 1), |history|, op.result))
  {
    NextId(op, g.used, n);
    done := MovesExecutes(cfg, g.procs[0].mem, op, w, history, w', charge);
    FreshOnMirror(founder, done.bundle);
    g' := ServeOnMirror(cfg, g, 0, founder, op, done);
  }

  /** A first platform that can afford it commits a round that moves its weight by `shift`. */
  lemma MirrorMove(cfg: Config, g: System, founder: Mem, w: real, history: seq<Federated.RoundResult>, shift: real,
                   w': real, n: nat)
    returns (g': System, done: Executed, op: Op)
    requires Reachable(cfg, g) && |g.procs| == 2 && g.history != [] && Current(g.history) == Mirror(founder)
    requires g.procs[0].pc == Idle && g.procs[0].mem.audit == founder.audit && Short(g.used, n) && w' == w + shift
    requires var mem := g.procs[0].mem; Governs3(mem) && Lightly(mem.accountant) && Holds(mem, w, history)
    ensures Served(cfg, g, g', founder, done, op, GaussianCharge(cfg.m, 1.0, SMALL, 3, Id(n + 1)))
    ensures Short(g'.used, n + 1) && op.Round? && Holds(done.mem, w', history + [op.result])
    ensures done.bundle.server == Some(ServerWrite(KEY, ServerRow(0, [w'], |history| + 1), |history|, op.result))
  {
    op := AffordableMove(cfg, g.procs[0].mem, w, history, shift, w', Id(n + 1));
    g', done := MirrorRound(cfg, g, founder, w, history, w', op, GaussianCharge(cfg.m, 1.0, SMALL, 3, Id(n + 1)), n);
  }

  /**
   * Governance is that of the members' founder; the budget row was charged once, two rounds are counted, one is there.
   */
  ghost predicate TwoForOne(cfg: Config, mem: Mem, s: Store) {
    && s.orgs == Mirror(mem).orgs && s.policies == mem.policies && s.audit != []
    && s.budget.Some? && Paid(s.budget.value)
    && s.servers == map[KEY := ServerRow(0, [0.0], 2)] && s.rounds.Keys == {KEY} && |s.rounds[KEY]| == 1
  }

  lemma MiscountWritten(cfg: Config, mem: Mem, b: Bundle, round: Federated.RoundResult, acc: Accountant)
    requires b.org.None? && b.policy.None? && b.budget.Some? && b.budget.value.data == acc
    requires Paid(acc)
    requires b.server == Some(ServerWrite(KEY, ServerRow(0, [0.0], 2), 1, round))
    ensures TwoForOne(cfg, mem, Write(Mirror(mem), b, None))
  {
  }

  /** The first platform's round was refused, its next one committed: the store counts two rounds and has one. */
  ghost predicate Miscounted(cfg: Config, g: System, mem: Mem, n: nat) {
    && Reachable(cfg, g) && |g.procs| == 2 && g.history != [] && Short(g.used, n)
    && TwoForOne(cfg, mem, Current(g.history))
  }

  lemma ServedMiscounts(cfg: Config, g: System, g': System, mem: Mem, done: Executed, op: Op, charge: Request,
                        rounds: seq<Federated.RoundResult>, n: nat)
    requires Served(cfg, g, g', mem, done, op, charge) && Short(g'.used, n) && op.Round? && |rounds| == 1
    requires g.procs[0].mem.accountant == Fresh(DEFAULT_LIMIT) && Paid(Charged(Fresh(DEFAULT_LIMIT), charge))
    requires done.bundle.server == Some(ServerWrite(KEY, ServerRow(0, [0.0], |rounds| + 1), |rounds|, op.result))
    ensures Miscounted(cfg, g', mem, n)
  {
    MiscountWritten(cfg, mem, done.bundle, op.result, done.mem.accountant);
  }

  lemma NextServed(cfg: Config, g: System, mem: Mem, rounds: seq<Federated.RoundResult>, n: nat) returns (g': System)
    requires Reachable(cfg, g) && |g.procs| == 2 && g.history != [] && Short(g.used, n)
    requires Current(g.history) == Mirror(mem) && g.procs[0].pc == Idle && g.procs[0].mem.audit == mem.audit
    requires var own := g.procs[0].mem;
             && Governs3(own) && Lightly(own.accountant) && own.accountant == Fresh(DEFAULT_LIMIT)
             && Holds(own, 0.0, rounds)
    requires |rounds| == 1
    ensures Miscounted(cfg, g', mem, n + 1) && g'.procs[1] == g.procs[1]
  {
    var done, op;
    g', done, op := MirrorMove(cfg, g, mem, 0.0, rounds, 0.0, 0.0, n);
    FirstRoundPaid(cfg.m, 3, Id(n + 1));
    ServedMiscounts(cfg, g, g', mem, done, op, GaussianCharge(cfg.m, 1.0, SMALL, 3, Id(n + 1)), rounds, n + 1);
  }

  /** Its next round is accepted. */
  lemma NextCommits(cfg: Config, g: System, mem: Mem, before: Proc, round: Federated.RoundResult, n: nat)
    returns (g': System)
    requires Reachable(cfg, g) && |g.procs| == 2 && g.history != [] && Short(g.used, n)
    requires Current(g.history) == Mirror(mem) && before.mem == mem && Governing(mem) && before.pc == Idle
    requires LostOne(before, g.procs[0], 0.0, round)
    ensures Miscounted(cfg, g', mem, n + 1) && g'.procs[1] == g.procs[1]
  {
    LostGoverns(before, g.procs[0], 0.0, round);
    g' := NextServed(cfg, g, mem, [round], n);
  }

  lemma FirstMiscounts(cfg: Config, g: System, mem: Mem, n: nat) returns (g': System)
    requires Reachable(cfg, g) && |g.procs| == 2 && g.history != [] && Short(g.used, n) && Governing(mem)
    requires g.procs[0] == Proc(|g.history| - 1, mem, Idle, CLEAN) && mem.servers == map[]
    requires Current(g.history) == Mirror(mem)
    ensures Miscounted(cfg, g', mem, n + 2) && g'.procs[1] == g.procs[1]
  {
    var refused, round := Refuse(cfg, g, 0, 0.0, n);
    g' := NextCommits(cfg, refused, mem, g.procs[0], round, n + 1);
  }

  lemma MiscountedUnloadable(cfg: Config, mem: Mem, s: Store)
    requires TwoForOne(cfg, mem, s)
    ensures !Decodable(s) && !IsEmpty(s)
  {
    assert KEY in s.servers;
  }

  ghost predicate Unloadable(cfg: Config, g: System) {
    Reachable(cfg, g) && g.history != [] && !Decodable(Current(g.history)) && !IsEmpty(Current(g.history))
  }

  /**
   * Three members join; a first round whose delta exceeds the limit is refused its charge; the next, affordable round
   * is committed, all without any interference. The store then holds counter 2 beside one round row, and no platform
   * can load it any more.
   */
  lemma RefusedRoundBreaksReload(cfg: Config)
    ensures exists g :: Unloadable(cfg, g)
  {
    var g, mem := ThreeJoined(cfg);
    var started := SecondStarts(cfg, g, mem);
    var miscounted := FirstMiscounts(cfg, started, mem, 1);
    MiscountedUnloadable(cfg, mem, Current(miscounted.history));
    assert Unloadable(cfg, miscounted);
  }

  // ---- committed rounds that do not build on the stored server ----

  /** The platform can commit a round that replaces the stored model by one computed from another server. */
  ghost predicate Overwrites(cfg: Config, g: System, p: nat, standing: Standing) {
    && Reachable(cfg, g) && g.history != [] && p < |g.procs| && g.procs[p].record.standing == standing
    && var pc, s := g.procs[p].pc, Current(g.history);
       && pc.Open? && Checked(pc) && CanCommit(s, pc) && pc.op.Round?
       && RoundKey(pc.op.req) in g.procs[p].record.dirty && RoundKey(pc.op.req) in s.servers
       && !BuildsOn(s, Current(Step(cfg, g, p, Finish).history), RoundKey(pc.op.req), pc.op.result.aggregate)
  }

  /** The store has a weight for the key, and it is not `w`. */
  ghost predicate StoredOther(s: Store, w: real) {
    KEY in s.servers && |s.servers[KEY].model| == 1 && s.servers[KEY].model[0] != w
  }

  /** A round on another weight than the stored one that the store accepts. */
  lemma OtherWeightOverwrites(cfg: Config, g: System, p: nat, w: real, history: seq<Federated.RoundResult>, w': real,
                              charge: Request, op: Op, done: Executed)
    returns (g': System)
    requires Reachable(cfg, g) && Runs(cfg, g, p, op, done) && KEY in g.procs[p].record.dirty
    requires Moves(cfg, g.procs[p].mem, op, w, history, w', charge) && ServersOk(Current(g.history))
    requires StoredOther(Current(g.history), w)
    ensures Overwrites(cfg, g', p, g.procs[p].record.standing)
  {
    var s := Current(g.history);
    g' := Prepare(cfg, g, p, op, done);
    ReadyCommits(cfg, g, p, op, done);
    ReadyStep(cfg, g, g', p, op, done);
    BuildsIffAgrees(cfg, g.procs[p].mem, op, done, s);
    assert Weight(w, history).model[0] == w;
  }

  // ---- after a failed reload ----

  lemma StaleBudgetStep(cfg: Config, g: System, begun: System, p: nat, op: Op, done: Executed)
    requires g.history != [] && p < |g.procs| && done.bundle.budget.Some?
    requires begun == Within(g, p, op, BegunBy(g.procs[p], op, done))
    requires !BudgetFresh(Current(g.history).budget, done.bundle.budget.value)
    ensures Step(cfg, begun, p, ReadBudget) == Within(g, p, op, RolledBack(g.history, BegunBy(g.procs[p], op, done)))
  {
    UpdateTwice(g.procs, p, begun.procs[p], RolledBack(g.history, begun.procs[p]));
  }

  /** A call that conflicts on the budget: it is rolled back. */
  lemma Conflict(cfg: Config, g: System, p: nat, op: Op, done: Executed) returns (g': System)
    requires Reachable(cfg, g) && Starts(cfg, g, p, op, done) && done.bundle.budget.Some?
    requires !BudgetFresh(Current(g.history).budget, done.bundle.budget.value)
    ensures Reachable(cfg, g') && g' == Within(g, p, op, RolledBack(g.history, BegunBy(g.procs[p], op, done)))
  {
    BeginStep(cfg, g, p, op, done);
    g' := Go(cfg, g, p, Begin(op));
    StaleBudgetStep(cfg, g, g', p, op, done);
    g' := Go(cfg, g', p, ReadBudget);
  }

  lemma HalfRestored(history: seq<Store>, proc: Proc, n: nat)
    requires n + 1 == |history| && !Decodable(Current(history)) && !IsEmpty(Current(history))
    ensures var q := Restored(history, proc, LoadTimes(n, n, n, n, n, n));
            && q.view == n && q.pc == Idle && q.mem == HalfLoaded(proc.mem, Current(history))
            && q.record.standing == Halved && q.record.dirty == proc.record.dirty
  {
    SnapshotTorn(history, n);
  }

  lemma HalfRestoreStep(cfg: Config, g: System, p: nat, n: nat)
    requires n + 1 == |g.history| && p < |g.procs| && g.procs[p].pc == Restoring(n)
    ensures var t := LoadTimes(n, n, n, n, n, n);
            Between(0, t, |g.history|)
            && Step(cfg, g, p, Restore(t)) == g.(procs := g.procs[p := Restored(g.history, g.procs[p], t)])
  {
  }

  lemma Halve(cfg: Config, g: System, p: nat, n: nat) returns (g': System)
    requires Reachable(cfg, g) && n + 1 == |g.history| && p < |g.procs| && g.procs[p].pc == Restoring(n)
    requires !Decodable(Current(g.history)) && !IsEmpty(Current(g.history))
    ensures Reachable(cfg, g') && g'.history == g.history && g'.used == g.used && |g'.procs| == |g.procs|
    ensures var q := g'.procs[p];
            && q.pc == Idle && q.mem == HalfLoaded(g.procs[p].mem, Current(g.history))
            && q.record.standing == Halved && q.record.dirty == g.procs[p].record.dirty
  {
    HalfRestored(g.history, g.procs[p], n);
    HalfRestoreStep(cfg, g, p, n);
    g' := Go(cfg, g, p, Restore(LoadTimes(n, n, n, n, n, n)));
  }

  /** A call that conflicts on the budget, and whose reload raises: the platform goes on with half of the store. */
  lemma ConflictHalves(cfg: Config, g: System, p: nat, op: Op, done: Executed) returns (g': System)
    requires Reachable(cfg, g) && Starts(cfg, g, p, op, done) && done.bundle.budget.Some?
    requires !BudgetFresh(Current(g.history).budget, done.bundle.budget.value)
    requires !Decodable(Current(g.history)) && !IsEmpty(Current(g.history))
    ensures Reachable(cfg, g') && g'.history == g.history && g'.used == UsedAfter(op, g.used)
    ensures |g'.procs| == |g.procs|
    ensures var q := g'.procs[p];
            && q.pc == Idle && q.mem == HalfLoaded(done.mem, Current(g.history))
            && q.record.standing == Halved && q.record.dirty == g.procs[p].record.dirty + KeysOf(op)
  {
    var failed := Conflict(cfg, g, p, op, done);
    g' := Halve(cfg, failed, p, |g.history| - 1);
  }

  /**
   * The second platform, which has the members' governance and servers of its own, is halved by the miscounted store.
   */
  ghost predicate HalfWay(cfg: Config, g: System, mem: Mem, history: seq<Federated.RoundResult>, n: nat) {
    && Reachable(cfg, g) && |g.procs| == 2 && g.history != [] && Short(g.used, n)
    && var q, s := g.procs[1], Current(g.history);
       && TwoForOne(cfg, mem, s) && q.pc == Idle && q.record.standing == Halved && KEY in q.record.dirty
       && q.mem == HalfLoaded(q.mem, s) && Holds(q.mem, 1.0, history) && |history| == 2
  }

  lemma HalfLoadHolds(before: Mem, s: Store, w: real, history: seq<Federated.RoundResult>)
    requires Holds(before, w, history)
    ensures Holds(HalfLoaded(before, s), w, history)
    ensures HalfLoaded(HalfLoaded(before, s), s) == HalfLoaded(before, s)
  {
  }

  lemma LostRoundStale(cfg: Config, mem: Mem, s: Store, acc: Accountant, done: Executed)
    requires TwoForOne(cfg, mem, s) && acc == Fresh(DEFAULT_LIMIT) && done.bundle.budget.Some?
    requires done.bundle.budget.value.expectSpent == acc.spent
    ensures !BudgetFresh(s.budget, done.bundle.budget.value)
  {
  }

  /** The second platform's next round conflicts on the budget. */
  lemma SecondConflicts(cfg: Config, g: System, mem: Mem, round: Federated.RoundResult, op: Op, charge: Request,
                        n: nat)
    returns (g': System, history: seq<Federated.RoundResult>)
    requires Reachable(cfg, g) && |g.procs| == 2 && g.history != [] && Short(g.used, n)
    requires TwoForOne(cfg, mem, Current(g.history)) && g.procs[1].pc == Idle && KEY in g.procs[1].record.dirty
    requires g.procs[1].mem.accountant == Fresh(DEFAULT_LIMIT) && IdOf(op) == Some(Id(n + 1))
    requires Moves(cfg, g.procs[1].mem, op, 1.0, [round], 1.0, charge)
    ensures HalfWay(cfg, g', mem, history, n + 1)
  {
    var q, s := g.procs[1], Current(g.history);
    NextId(op, g.used, n);
    var done := MovesExecutes(cfg, q.mem, op, 1.0, [round], 1.0, charge);
    LostRoundStale(cfg, mem, s, q.mem.accountant, done);
    MiscountedUnloadable(cfg, mem, s);
    g' := ConflictHalves(cfg, g, 1, op, done);
    history := [round] + [op.result];
    HalfLoadHolds(done.mem, s, 1.0, history);
  }

  lemma SecondHalved(cfg: Config, g: System, mem: Mem, before: Proc, round: Federated.RoundResult, n: nat)
    returns (g': System, history: seq<Federated.RoundResult>)
    requires Reachable(cfg, g) && |g.procs| == 2 && g.history != [] && Short(g.used, n)
    requires TwoForOne(cfg, mem, Current(g.history)) && Governing(before.mem) && before.pc == Idle
    requires LostOne(before, g.procs[1], 1.0, round)
    ensures HalfWay(cfg, g', mem, history, n + 1)
  {
    LostGoverns(before, g.procs[1], 1.0, round);
    var op := AffordableMove(cfg, g.procs[1].mem, 1.0, [round], 0.0, 1.0, Id(n + 1));
    g', history := SecondConflicts(cfg, g, mem, round, op, GaussianCharge(cfg.m, 1.0, SMALL, 3, Id(n + 1)), n);
  }

  lemma HalfGoverns(cfg: Config, founder: Mem, mem: Mem, s: Store)
    requires TwoForOne(cfg, founder, s) && Governs3(founder) && mem == HalfLoaded(mem, s)
    ensures Governs3(mem) && Lightly(mem.accountant) && s.budget.Some? && mem.audit == s.audit
  {
    LoadedGoverns(founder, s);
  }

  lemma TwoForOneRow(cfg: Config, founder: Mem, s: Store)
    requires TwoForOne(cfg, founder, s)
    ensures ServersOk(s) && StoredOther(s, 1.0) && s.budget.Some? && s.servers[KEY].rounds == 2
  {
  }

  lemma HalfWayAccepted(cfg: Config, mem: Mem, s: Store, history: seq<Federated.RoundResult>, op: Op, done: Executed,
                        charge: Request)
    requires s.budget.Some? && ServersOk(s) && KEY in s.servers && s.servers[KEY].rounds == |history|
    requires mem == HalfLoaded(mem, s) && Moves(cfg, mem, op, 1.0, history, 1.0, charge)
    requires Execute(cfg, mem, op) == Some(done)
    ensures IsFresh(s, done.bundle)
  {
    RoundAfterFailedReload(cfg, mem, s, op, done);
  }

  lemma HalfWayRound(cfg: Config, g: System, founder: Mem, history: seq<Federated.RoundResult>, op: Op,
                     charge: Request, n: nat)
    returns (g': System)
    requires HalfWay(cfg, g, founder, history, n) && IdOf(op) == Some(Id(n + 1))
    requires Moves(cfg, g.procs[1].mem, op, 1.0, history, 1.0, charge)
    ensures Overwrites(cfg, g', 1, Halved)
  {
    NextId(op, g.used, n);
    var done := MovesExecutes(cfg, g.procs[1].mem, op, 1.0, history, 1.0, charge);
    TwoForOneRow(cfg, founder, Current(g.history));
    HalfWayAccepted(cfg, g.procs[1].mem, Current(g.history), history, op, done, charge);
    g' := OtherWeightOverwrites(cfg, g, 1, 1.0, history, 1.0, charge, op, done);
  }

  lemma HalfWayOverwrites(cfg: Config, g: System, founder: Mem, history: seq<Federated.RoundResult>, n: nat)
    returns (g': System)
    requires HalfWay(cfg, g, founder, history, n) && Governs3(founder)
    ensures Overwrites(cfg, g', 1, Halved)
  {
    HalfGoverns(cfg, founder, g.procs[1].mem, Current(g.history));
    var op := AffordableMove(cfg, g.procs[1].mem, 1.0, history, 0.0, 1.0, Id(n + 1));
    g' := HalfWayRound(cfg, g, founder, history, op, GaussianCharge(cfg.m, 1.0, SMALL, 3, Id(n + 1)), n);
  }

  /**
   * Two platforms: the first leaves the miscounted store; the second, which had one round refused itself, conflicts on
   * the budget, fails to reload and goes on with its own two rounds. Its next round has a matching counter, a fresh
   * spend and a fresh tip, and replaces the first platform's model by one computed from a server never stored.
   */
  lemma FailedReloadOverwrites(cfg: Config)
    ensures exists g, p :: Overwrites(cfg, g, p, Halved)
  {
    var g, mem := ThreeJoined(cfg);
    var started := SecondStarts(cfg, g, mem);
    var miscounted := FirstMiscounts(cfg, started, mem, 1);
    var refused, round := Refuse(cfg, miscounted, 1, 1.0, 3);
    var halved, history := SecondHalved(cfg, refused, mem, started.procs[1], round, 4);
    var last := HalfWayOverwrites(cfg, halved, mem, history, 5);
    assert Overwrites(cfg, last, 1, Halved);
  }

  // ---- after a failed evaluation ----

  /** The platform has log and budget of the store; the stored weight is 0, after one round. */
  ghost predicate OneStored(mem: Mem, s: Store) {
    && s.budget == Some(mem.accountant) && s.audit == mem.audit
    && s.servers == map[KEY := ServerRow(0, [0.0], 1)] && s.rounds.Keys == {KEY}
  }

  /** Platform and store agree but for the weight. */
  ghost predicate InStep(q: Proc, s: Store, w: real, round: Federated.RoundResult) {
    && q.pc == Idle && Governs3(q.mem) && Lightly(q.mem.accountant) && Holds(q.mem, w, [round]) && OneStored(q.mem, s)
  }

  /** The first platform's round was committed. */
  ghost predicate OneServed(cfg: Config, g: System, round: Federated.RoundResult, n: nat) {
    && Reachable(cfg, g) && |g.procs| == 2 && g.history != [] && Short(g.used, n)
    && g.procs[0].record == CLEAN && InStep(g.procs[0], Current(g.history), 0.0, round)
  }

  lemma ServedWrites(mem: Mem, done: Executed, charge: Request, round: Federated.RoundResult)
    requires ChargesRound(mem, done, charge)
    requires done.bundle.server == Some(ServerWrite(KEY, ServerRow(0, [0.0], 1), 0, round))
    ensures var s := Write(Mirror(mem), done.bundle, None);
            && s.budget == Some(done.mem.accountant) && s.audit == done.mem.audit
            && s.servers == map[KEY := ServerRow(0, [0.0], 1)] && s.rounds.Keys == {KEY}
  {
  }

  lemma ServedInStep(mem: Mem, done: Executed, charge: Request, round: Federated.RoundResult, q: Proc)
    requires ChargesRound(mem, done, charge) && Governing(mem) && Paid(Charged(Fresh(DEFAULT_LIMIT), charge))
    requires Holds(done.mem, 0.0, [] + [round]) && q.mem == done.mem && q.pc == Idle
    requires done.bundle.server == Some(ServerWrite(KEY, ServerRow(0, [0.0], 1), 0, round))
    ensures InStep(q, Write(Mirror(mem), done.bundle, None), 0.0, round)
  {
    ServedWrites(mem, done, charge, round);
    assert [] + [round] == [round];
  }

  lemma ServedIsOne(cfg: Config, g: System, g': System, mem: Mem, done: Executed, op: Op, charge: Request,
                    round: Federated.RoundResult, none: seq<Federated.RoundResult>, n: nat)
    requires Served(cfg, g, g', mem, done, op, charge) && Short(g'.used, n) && Governing(mem)
    requires g.procs[0].mem == mem && g.procs[0].record == CLEAN && Paid(Charged(Fresh(DEFAULT_LIMIT), charge))
    requires Holds(done.mem, 0.0, none + [round])
    requires done.bundle.server == Some(ServerWrite(KEY, ServerRow(0, [0.0], |none| + 1), |none|, round))
    requires none == []
    ensures OneServed(cfg, g', round, n)
  {
    assert none + [round] == [] + [round];
    CleanStays(done.bundle, op);
    ServedInStep(mem, done, charge, round, g'.procs[0]);
  }

  lemma FirstServed(cfg: Config, g: System, mem: Mem, none: seq<Federated.RoundResult>, n: nat)
    returns (g': System, round: Federated.RoundResult)
    requires Reachable(cfg, g) && |g.procs| == 2 && g.history != [] && Current(g.history) == Mirror(mem)
    requires g.procs[0].pc == Idle && g.procs[0].mem == mem && g.procs[0].record == CLEAN && Short(g.used, n)
    requires Governs3(mem) && Lightly(mem.accountant) && mem.accountant == Fresh(DEFAULT_LIMIT)
    requires Holds(mem, 0.0, none) && none == []
    ensures OneServed(cfg, g', round, n + 1)
  {
    var done, op;
    g', done, op := MirrorMove(cfg, g, mem, 0.0, none, 0.0, 0.0, n);
    round := op.result;
    FirstRoundPaid(cfg.m, 3, Id(n + 1));
    ServedIsOne(cfg, g, g', mem, done, op, GaussianCharge(cfg.m, 1.0, SMALL, 3, Id(n + 1)), round, none, n + 1);
  }

  /** The next round trained, but its evaluation failed: the weight has moved, the history has not. */
  ghost predicate Moved(cfg: Config, g: System, round: Federated.RoundResult, n: nat) {
    && Reachable(cfg, g) && |g.procs| == 2 && g.history != [] && Short(g.used, n)
    && g.procs[0].record.standing == Spoiled && g.procs[0].record.dirty == {KEY}
    && InStep(g.procs[0], Current(g.history), 1.0, round)
  }

  lemma LostInStep(q: Proc, lost: Proc, s: Store, round: Federated.RoundResult)
    requires InStep(q, s, 0.0, round) && lost.mem.(servers := q.mem.servers) == q.mem && lost.pc == q.pc
    requires Holds(lost.mem, 1.0, [round])
    ensures InStep(lost, s, 1.0, round)
  {
  }

  lemma VainRound(cfg: Config, mem: Mem, round: Federated.RoundResult, id: string, op: Op) returns (spoilt: Mem)
    requires Governs3(mem) && Holds(mem, 0.0, [round]) && op == RoundOp(SMALL, 1.0, 1.0, false, id)
    ensures TrainsInVain(cfg, mem, op) && KeysOf(op) == {KEY} && spoilt == Spoil(cfg, mem, op)
    ensures spoilt.(servers := mem.servers) == mem && Holds(spoilt, 1.0, [round])
  {
    VainRoundLeaves(cfg, mem, SMALL, 0.0, [round], 1.0, 1.0, false, id, op, [round]);
    spoilt := Spoil(cfg, mem, op);
  }

  /** A round that trains from weight 0 to weight 1 and cannot be evaluated. */
  lemma FailingRound(cfg: Config, mem: Mem, round: Federated.RoundResult, id: string) returns (op: Op, spoilt: Mem)
    requires Governs3(mem) && Holds(mem, 0.0, [round])
    ensures op.Round? && IdOf(op) == Some(id) && KeysOf(op) == {KEY} && TrainsInVain(cfg, mem, op)
    ensures spoilt == Spoil(cfg, mem, op) && spoilt.(servers := mem.servers) == mem && Holds(spoilt, 1.0, [round])
  {
    op := RoundOp(SMALL, 1.0, 1.0, false, id);
    spoilt := VainRound(cfg, mem, round, id, op);
  }

  lemma CleanlyLost(cfg: Config, proc: Proc, op: Op)
    requires TrainsInVain(cfg, proc.mem, op) && proc.record == CLEAN && KeysOf(op) == {KEY}
    ensures Lost(cfg, proc, op).mem == Spoil(cfg, proc.mem, op) && Lost(cfg, proc, op).pc == proc.pc
    ensures Lost(cfg, proc, op).record.standing == Spoiled && Lost(cfg, proc, op).record.dirty == {KEY}
  {
    VainlyLost(cfg, proc, op);
  }

  lemma EvaluationFails(cfg: Config, g: System, round: Federated.RoundResult, n: nat) returns (g': System)
    requires OneServed(cfg, g, round, n)
    ensures Moved(cfg, g', round, n + 1)
  {
    var op, spoilt := FailingRound(cfg, g.procs[0].mem, round, Id(n + 1));
    CleanlyLost(cfg, g.procs[0], op);
    g' := LoseCall(cfg, g, 0, op, n);
    LostInStep(g.procs[0], g'.procs[0], Current(g.history), round);
  }

  lemma MovedAccepted(cfg: Config, mem: Mem, s: Store, round: Federated.RoundResult, done: Executed, charge: Request,
                      result: Federated.RoundResult)
    requires OneStored(mem, s) && ChargesRound(mem, done, charge)
    requires done.bundle.server == Some(ServerWrite(KEY, ServerRow(0, [1.0], 2), 1, result))
    ensures IsFresh(s, done.bundle) && ServersOk(s) && StoredOther(s, 1.0)
  {
  }

  lemma MovedRuns(cfg: Config, g: System, round: Federated.RoundResult, op: Op, charge: Request, n: nat)
    returns (done: Executed)
    requires g.history != [] && |g.procs| == 2 && Short(g.used, n) && g.procs[0].pc == Idle
    requires OneStored(g.procs[0].mem, Current(g.history)) && IdOf(op) == Some(Id(n + 1))
    requires Moves(cfg, g.procs[0].mem, op, 1.0, [round], 1.0, charge)
    ensures Runs(cfg, g, 0, op, done) && ServersOk(Current(g.history)) && StoredOther(Current(g.history), 1.0)
  {
    NextId(op, g.used, n);
    done := MovesExecutes(cfg, g.procs[0].mem, op, 1.0, [round], 1.0, charge);
    MovedAccepted(cfg, g.procs[0].mem, Current(g.history), round, done, charge, op.result);
  }

  lemma MovedOverwrites(cfg: Config, g: System, round: Federated.RoundResult, op: Op, charge: Request, n: nat)
    returns (g': System)
    requires Reachable(cfg, g) && |g.procs| == 2 && g.history != [] && Short(g.used, n) && g.procs[0].pc == Idle
    requires g.procs[0].record.standing == Spoiled && g.procs[0].record.dirty == {KEY}
    requires OneStored(g.procs[0].mem, Current(g.history)) && IdOf(op) == Some(Id(n + 1))
    requires Moves(cfg, g.procs[0].mem, op, 1.0, [round], 1.0, charge)
    ensures Overwrites(cfg, g', 0, Spoiled)
  {
    var done := MovedRuns(cfg, g, round, op, charge, n);
    g' := OtherWeightOverwrites(cfg, g, 0, 1.0, [round], 1.0, charge, op, done);
  }

  lemma NextOverwrites(cfg: Config, g: System, round: Federated.RoundResult, n: nat) returns (g': System)
    requires Moved(cfg, g, round, n)
    ensures Overwrites(cfg, g', 0, Spoiled)
  {
    var op := AffordableMove(cfg, g.procs[0].mem, 1.0, [round], 0.0, 1.0, Id(n + 1));
    g' := MovedOverwrites(cfg, g, round, op, GaussianCharge(cfg.m, 1.0, SMALL, 3, Id(n + 1)), n);
  }

  /**
   * One platform, no interference and no reload: a round is committed, the next one moves the model and then fails in
   * its evaluation, and the one after that is committed on top of the moved model, whose aggregate was never charged
   * or recorded.
   */
  lemma FailedEvaluationOverwrites(cfg: Config)
    ensures exists g, p :: Overwrites(cfg, g, p, Spoiled)
  {
    var g, mem := ThreeJoined(cfg);
    NothingHeld(mem);
    var served, round := FirstServed(cfg, g, mem, [], 1);
    var moved := EvaluationFails(cfg, served, round, 2);
    var last := NextOverwrites(cfg, moved, round, 3);
    assert Overwrites(cfg, last, 0, Spoiled);
  }
}
