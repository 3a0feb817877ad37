/**
 * Many platforms on one SQLite store as a transition system (sentrylink/storage/store.py, sentrylink/platform.py).
 * The unlocked reads of the budget and server rows are steps of their own; the conditional audit insert and the
 * commit it guards are one step; a load reads each table at a time of its own.
 */
module StoreProtocol {
  import opened Foundations
  import opened DifferentialPrivacy
  import opened Storage
  import opened Approvals
  import opened PlatformOps
  import opened StoreSerial

  /** What the freshness check of one row has read so far. */
  datatype Seen<T> = NotYet | Read(row: Option<T>)

  /**
   * A platform's program counter. An open transaction keeps the memory its call started from; after a rollback the
   * live objects are rebuilt, and `since` is the latest committed state at the time of the failure.
   */
  datatype Pc =
    | Idle
    | Open(op: Op, before: Mem, bundle: Bundle, budget: Seen<Accountant>, server: Seen<ServerRow>)
    | Restoring(since: nat)
    | Down

  /**
   * How memory relates to the last load. Whole: the load saw one committed state and nothing was lost since. Mixed:
   * nothing was lost either, but some table was read before another bundle was committed. Spoiled: some call mutated
   * memory and never reached its commit. Halved: the load itself raised midway, and the servers are those from before.
   */
  datatype Standing = Whole | Mixed | Spoiled | Halved

  /**
   * Records of the run on which no step depends. `dirty`: the keys whose live server has work that was never stored.
   * `stale`: the organizations whose policy was loaded in another version than the loaded log implies, less those
   * whose policy the platform has stored itself since. `adrift`: the ids of the charges in memory that were never
   * stored. `split`: another budget row was loaded than the loaded log implies, and none was stored since.
   */
  datatype Record = Record(standing: Standing, dirty: set<string>, stale: set<OrgId>, adrift: set<string>, split: bool)

  const CLEAN: Record := Record(Whole, {}, {}, {}, false)

  /** One platform. `view` is the index of the committed state whose audit log it carries. */
  datatype Proc = Proc(view: nat, mem: Mem, pc: Pc, record: Record)

  /**
   * The committed states, the identifiers drawn so far, the platforms, and one more record: the indices of the states
   * whose budget row was replaced by a platform with charges adrift.
   */
  datatype System = System(history: seq<Store>, used: set<string>, procs: seq<Proc>, astray: set<nat>)

  /** The committed state each table is read from during one load. */
  datatype LoadTimes = LoadTimes(orgs: nat, policies: nat, budget: nat, servers: nat, rounds: nat, audit: nat)

  /** What one platform can do next. */
  datatype Action =
    | Boot(limit: PrivacyBudget, times: LoadTimes)
    | Lose(op: Op)
    | Begin(op: Op)
    | ReadBudget
    | ReadServer
    | Finish
    | Abort
    | Restore(times: LoadTimes)

  function Current(history: seq<Store>): Store
    requires history != []
  {
    history[|history| - 1]
  }

  // ---- loads ----

  predicate Between(since: nat, t: LoadTimes, n: nat) {
    && since <= t.orgs < n && since <= t.policies < n && since <= t.budget < n
    && since <= t.servers < n && since <= t.rounds < n && since <= t.audit < n
  }

  /** What a load that reads each table at its own time gets to see. */
  function Torn(history: seq<Store>, t: LoadTimes): Store
    requires Between(0, t, |history|)
  {
    Store(history[t.orgs].orgs, history[t.policies].policies, history[t.budget].budget, history[t.servers].servers,
          history[t.rounds].rounds, history[t.audit].audit)
  }

  /** The order of the queries in `SQLiteStateStore.load`. */
  predicate CodeOrder(t: LoadTimes) {
    t.orgs <= t.policies <= t.budget <= t.servers <= t.rounds <= t.audit
  }

  /** The load saw the state whose audit log it read, and nothing else. */
  predicate Coherent(history: seq<Store>, t: LoadTimes)
    requires Between(0, t, |history|)
  {
    Torn(history, t) == history[t.audit]
  }

  /** In the order of the code a load is coherent if no bundle was committed between its first and its last query. */
  lemma UndisturbedIsCoherent(history: seq<Store>, t: LoadTimes)
    requires Between(0, t, |history|) && CodeOrder(t) && t.orgs == t.audit
    ensures Coherent(history, t)
  {
  }

  // ---- single steps of one platform ----

  function KeysOf(op: Op): set<string> {
    if op.Round? then {RoundKey(op.req)} else {}
  }

  /** The id of the call's charge. */
  function ChargeIds(b: Bundle, op: Op): set<string> {
    if b.budget.Some? && IdOf(op).Some? then {IdOf(op).value} else {}
  }

  /** Rollback: the live objects are still those of the call, and its work and its charge were not stored. */
  function RolledBack(history: seq<Store>, proc: Proc): Proc
    requires history != [] && proc.pc.Open?
  {
    var record := proc.record;
    proc.(pc := Restoring(|history| - 1),
          record := record.(dirty := record.dirty + KeysOf(proc.pc.op),
                            adrift := record.adrift + ChargeIds(proc.pc.bundle, proc.pc.op)))
  }

  /** The accountant survives a load only if there are other rows and no budget row. */
  function AdriftAfter(s: Store, adrift: set<string>): set<string> {
    if s.budget.Some? || IsEmpty(s) then {} else adrift
  }

  /** The record of a load that rebuilt everything. */
  function LoadRecord(history: seq<Store>, mem: Mem, t: LoadTimes, adrift: set<string>): Record
    requires Between(0, t, |history|)
  {
    Record(if Coherent(history, t) then Whole else Mixed, {}, StaleOrgs(mem, history[t.audit]),
           AdriftAfter(Torn(history, t), adrift), history[t.budget].budget != history[t.audit].budget)
  }

  /** The reload after a rollback; if rebuilding a server raises, the same object goes on with what it has. */
  function Restored(history: seq<Store>, proc: Proc, t: LoadTimes): Proc
    requires Between(0, t, |history|)
  {
    match Reload(proc.mem, Torn(history, t))
    case Some(mem) => Proc(t.audit, mem, Idle, LoadRecord(history, mem, t, proc.record.adrift))
    case None =>
      var mem := HalfLoaded(proc.mem, Torn(history, t));
      Proc(t.audit, mem, Idle,
           LoadRecord(history, mem, t, proc.record.adrift).(standing := Halved, dirty := proc.record.dirty))
  }

  /** A new platform; if its constructor raises there is none. */
  function Booted(history: seq<Store>, limit: PrivacyBudget, t: LoadTimes): Proc
    requires Between(0, t, |history|)
  {
    match Construct(limit, Torn(history, t))
    case Some(mem) => Proc(t.audit, mem, Idle, LoadRecord(history, mem, t, {}))
    case None => Proc(t.audit, NewMem(limit), Down, CLEAN)
  }

  /** The lost call left nothing behind but perhaps an unused server. */
  ghost predicate Harmless(cfg: Config, mem: Mem, op: Op) {
    Spoil(cfg, mem, op).accountant == mem.accountant && !TrainsInVain(cfg, mem, op)
  }

  ghost function LostRecord(cfg: Config, mem: Mem, op: Op, record: Record): Record {
    record.(
      standing :=
        if (record.standing.Whole? || record.standing.Mixed?) && !Harmless(cfg, mem, op) then Spoiled
        else record.standing,
      dirty := if TrainsInVain(cfg, mem, op) then record.dirty + KeysOf(op) else record.dirty,
      adrift := if op.Query? && Released(cfg, mem, op) then record.adrift + {op.id} else record.adrift)
  }

  ghost function Lost(cfg: Config, proc: Proc, op: Op): Proc {
    proc.(mem := Spoil(cfg, proc.mem, op), record := LostRecord(cfg, proc.mem, op, proc.record))
  }

  ghost predicate CanBegin(cfg: Config, used: set<string>, proc: Proc, op: Op) {
    proc.pc == Idle && FreshIds(op, used) && Execute(cfg, proc.mem, op).Some?
  }

  ghost function Begun(cfg: Config, proc: Proc, op: Op): Proc
    requires Execute(cfg, proc.mem, op).Some?
  {
    var done := Execute(cfg, proc.mem, op).value;
    proc.(mem := done.mem, pc := Open(op, proc.mem, done.bundle, NotYet, NotYet))
  }

  /** The unlocked read of the budget row and the comparison with the expected spend. */
  function BudgetReadStep(history: seq<Store>, proc: Proc): Proc
    requires history != [] && proc.pc.Open? && proc.pc.bundle.budget.Some?
  {
    var row := Current(history).budget;
    if BudgetFresh(row, proc.pc.bundle.budget.value) then proc.(pc := proc.pc.(budget := Read(row)))
    else RolledBack(history, proc)
  }

  function ServerReadStep(history: seq<Store>, proc: Proc): Proc
    requires history != [] && proc.pc.Open? && proc.pc.bundle.server.Some?
  {
    var row := ServerRowOf(Current(history), proc.pc.bundle.server.value.key);
    if ServerFresh(row, proc.pc.bundle.server.value) then proc.(pc := proc.pc.(server := Read(row)))
    else RolledBack(history, proc)
  }

  /** Every check the bundle needs has been made, in the order the bundle makes them. */
  predicate Checked(pc: Pc)
    requires pc.Open?
  {
    (pc.bundle.budget.Some? ==> pc.budget.Read?) && (pc.bundle.server.Some? ==> pc.server.Read?)
  }

  /** An insert of a row that was absent when read fails if another platform has created it since. */
  predicate InsertsClean(s: Store, pc: Pc)
    requires pc.Open? && Checked(pc)
  {
    && (pc.bundle.budget.Some? && pc.budget.row.None? ==> s.budget.None?)
    && (pc.bundle.server.Some? && pc.server.row.None? ==> pc.bundle.server.value.key !in s.servers)
  }

  /** The budget row the transaction read; a bundle without a budget write reads none. */
  function SeenBudget(pc: Pc): Option<Accountant>
    requires pc.Open? && Checked(pc)
  {
    if pc.bundle.budget.Some? then pc.budget.row else None
  }

  predicate CanCommit(s: Store, pc: Pc)
    requires pc.Open? && Checked(pc)
  {
    TipFresh(s, pc.bundle) && InsertsClean(s, pc)
  }

  /** What the platform wrote is saved: its server, the policy it updated, and with a budget row all its charges. */
  function SettledRecord(b: Bundle, op: Op, record: Record): Record {
    record.(dirty := record.dirty - KeysOf(op), stale := record.stale - Rewrites(op),
            adrift := if b.budget.Some? then {} else record.adrift,
            split := if b.budget.Some? then false else record.split)
  }

  /** The platform after its commit: it carries the log of the state it has just written. */
  function Settled(history: seq<Store>, proc: Proc): Proc
    requires proc.pc.Open?
  {
    Proc(|history|, proc.mem, Idle, SettledRecord(proc.pc.bundle, proc.pc.op, proc.record))
  }

  /** The commit replaces a budget row although the platform holds charges that were never stored. */
  predicate GoesAstray(s: Store, proc: Proc)
    requires proc.pc.Open?
  {
    proc.pc.bundle.budget.Some? && s.budget.Some? && proc.record.adrift != {}
  }

  datatype Outcome = Outcome(proc: Proc, used: set<string>, committed: Option<Store>)

  /** The effect of an action; an action that is not possible now changes nothing. */
  ghost function Act(cfg: Config, history: seq<Store>, used: set<string>, proc: Proc, a: Action): Outcome
    requires history != []
  {
    match a
    case Boot(limit, t) =>
      if limit.epsilon >= 0.0 && limit.delta >= 0.0 && Between(0, t, |history|) then
        Outcome(Booted(history, limit, t), used, None)
      else Outcome(proc, used, None)
    case Lose(op) =>
      if proc.pc == Idle && FreshIds(op, used) then Outcome(Lost(cfg, proc, op), UsedAfter(op, used), None)
      else Outcome(proc, used, None)
    case Begin(op) =>
      if CanBegin(cfg, used, proc, op) then Outcome(Begun(cfg, proc, op), UsedAfter(op, used), None)
      else Outcome(proc, used, None)
    case ReadBudget =>
      if proc.pc.Open? && proc.pc.bundle.budget.Some? && proc.pc.budget.NotYet? then
        Outcome(BudgetReadStep(history, proc), used, None)
      else Outcome(proc, used, None)
    case ReadServer =>
      if proc.pc.Open? && proc.pc.bundle.server.Some? && proc.pc.budget.Read? && proc.pc.server.NotYet? then
        Outcome(ServerReadStep(history, proc), used, None)
      else Outcome(proc, used, None)
    case Finish =>
      if proc.pc.Open? && Checked(proc.pc) then
        if CanCommit(Current(history), proc.pc) then
          Outcome(Settled(history, proc), used, Some(Write(Current(history), proc.pc.bundle, SeenBudget(proc.pc))))
        else Outcome(RolledBack(history, proc), used, None)
      else Outcome(proc, used, None)
    case Abort =>
      if proc.pc.Open? then Outcome(RolledBack(history, proc), used, None) else Outcome(proc, used, None)
    case Restore(t) =>
      if proc.pc.Restoring? && Between(proc.pc.since, t, |history|) then Outcome(Restored(history, proc, t), used, None)
      else Outcome(proc, used, None)
  }

  /** Platform p takes one action. */
  ghost function Step(cfg: Config, g: System, p: nat, a: Action): System
    requires g.history != [] && p < |g.procs|
  {
    var o := Act(cfg, g.history, g.used, g.procs[p], a);
    var procs := g.procs[p := o.proc];
    match o.committed
    case None => System(g.history, o.used, procs, g.astray)
    case Some(s) =>
      System(g.history + [s], o.used, procs,
             if GoesAstray(Current(g.history), g.procs[p]) then g.astray + {|g.history|} else g.astray)
  }

  /** An interleaving: which platform acts, and how. */
  datatype Move = Move(p: nat, action: Action)

  ghost predicate ValidMoves(moves: seq<Move>, n: nat) {
    forall k :: 0 <= k < |moves| ==> moves[k].p < n
  }

  ghost function Interleave(cfg: Config, g: System, moves: seq<Move>): (r: System)
    requires g.history != [] && ValidMoves(moves, |g.procs|)
    ensures r.history != [] && |r.procs| == |g.procs|
  {
    if moves == [] then g
    else
      var last := moves[|moves| - 1];
      Step(cfg, Interleave(cfg, g, moves[..|moves| - 1]), last.p, last.action)
  }

  // ---- loads as the code makes them ----

  /** A load queries the tables in the order of `SQLiteStateStore.load`; what is committed meanwhile is open. */
  predicate LoadsInOrder(a: Action) {
    match a
    case Boot(_, t) => CodeOrder(t)
    case Restore(t) => CodeOrder(t)
    case _ => true
  }

  ghost predicate AllInOrder(moves: seq<Move>) {
    forall k :: 0 <= k < |moves| ==> LoadsInOrder(moves[k].action)
  }
}
