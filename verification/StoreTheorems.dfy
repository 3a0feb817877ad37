/** Safety of every interleaving of platforms on one store. */
module StoreTheorems {
  import opened Foundations
  import opened DifferentialPrivacy
  import opened Storage
  import opened PlatformOps
  import opened StoreSerial
  import opened StoreProtocol
  import Audit

  // ---- the invariant ----

  /** State s' results from running one call on memory that knew s and applying its bundle to s alone. */
  ghost predicate Committed(cfg: Config, used: set<string>, s: Store, s': Store, before: Mem, op: Op, done: Executed) {
    && Prepared(cfg, before, op, done, s)
    && MemOk(cfg, used, before) && MemOk(cfg, used, done.mem)
    && s' == Write(s, done.bundle, s.budget)
  }

  ghost predicate Serial(cfg: Config, used: set<string>, s: Store, s': Store) {
    exists before, op, done :: Committed(cfg, used, s, s', before, op, done)
  }

  /** The i-th committed state is well formed and its audit log has i entries. */
  ghost predicate StateAt(cfg: Config, used: set<string>, history: seq<Store>, i: nat)
    requires i < |history|
  {
    StoreOk(cfg, used, history[i]) && |history[i].audit| == i
  }

  ghost predicate SerialAt(cfg: Config, used: set<string>, history: seq<Store>, i: nat)
    requires i + 1 < |history|
  {
    Serial(cfg, used, history[i], history[i + 1])
  }

  ghost predicate HistoryInv(cfg: Config, used: set<string>, history: seq<Store>) {
    && history != []
    && (forall i {:trigger StateAt(cfg, used, history, i)} :: 0 <= i < |history| ==> StateAt(cfg, used, history, i))
    && (forall i {:trigger SerialAt(cfg, used, history, i)} :: 0 <= i < |history| - 1 ==>
        SerialAt(cfg, used, history, i))
  }

  /** What an open transaction has read is still current as long as nobody else has committed. */
  ghost predicate ReadsCurrent(history: seq<Store>, view: nat, pc: Pc)
    requires history != [] && pc.Open?
  {
    && (pc.bundle.budget.Some? && pc.budget.Read? ==>
          && BudgetFresh(pc.budget.row, pc.bundle.budget.value)
          && (view == |history| - 1 ==> pc.budget.row == Current(history).budget))
    && (pc.bundle.server.Some? && pc.server.Read? ==>
          && ServerFresh(pc.server.row, pc.bundle.server.value)
          && (view == |history| - 1 ==> pc.server.row == ServerRowOf(Current(history), pc.bundle.server.value.key)))
  }

  ghost predicate NothingLost(standing: Standing) {
    standing.Whole? || standing.Mixed?
  }

  /**
   * Memory a platform works from: it knows the state whose log it carries, the organizations recorded as stale are
   * those that differ, and after a load of one single state with nothing lost since it equals that state.
   */
  ghost predicate Grounded(history: seq<Store>, view: nat, record: Record, mem: Mem) {
    && view < |history| && Knows(mem, history[view]) && record.stale == StaleOrgs(mem, history[view])
    && (record.standing.Whole? ==> Exact(mem, history[view]))
    && (NothingLost(record.standing) ==> record.dirty == {})
  }

  ghost predicate OpenInv(cfg: Config, history: seq<Store>, used: set<string>, proc: Proc)
    requires history != [] && proc.pc.Open?
  {
    && Execute(cfg, proc.pc.before, proc.pc.op) == Some(Executed(proc.mem, proc.pc.bundle))
    && Grounded(history, proc.view, proc.record, proc.pc.before) && NewHere(proc.pc.op, history[proc.view])
    && MemOk(cfg, used, proc.pc.before) && UsedAfter(proc.pc.op, used) == used
    && ReadsCurrent(history, proc.view, proc.pc)
  }

  ghost predicate ProcInv(cfg: Config, history: seq<Store>, used: set<string>, proc: Proc)
    requires history != []
  {
    !proc.pc.Down? ==>
      && MemOk(cfg, used, proc.mem)
      && (proc.pc.Idle? ==> Grounded(history, proc.view, proc.record, proc.mem))
      && (proc.pc.Open? ==> OpenInv(cfg, history, used, proc))
  }

  ghost predicate ProcAt(cfg: Config, g: System, p: nat)
    requires g.history != [] && p < |g.procs|
  {
    ProcInv(cfg, g.history, g.used, g.procs[p])
  }

  ghost predicate SystemInv(cfg: Config, g: System) {
    && HistoryInv(cfg, g.used, g.history)
    && forall p {:trigger ProcAt(cfg, g, p)} :: 0 <= p < |g.procs| ==> ProcAt(cfg, g, p)
  }

  // ---- monotonicity in the used ids ----

  lemma MemOkMore(cfg: Config, used: set<string>, more: set<string>, mem: Mem)
    requires MemOk(cfg, used, mem) && used <= more
    ensures MemOk(cfg, more, mem)
  {
    MoreUsed(cfg, used, more, mem.accountant);
  }

  lemma StoreOkMore(cfg: Config, used: set<string>, more: set<string>, s: Store)
    requires StoreOk(cfg, used, s) && used <= more
    ensures StoreOk(cfg, more, s)
  {
    if s.budget.Some? {
      MoreUsed(cfg, used, more, s.budget.value);
    }
  }

  lemma SerialMore(cfg: Config, used: set<string>, more: set<string>, s: Store, s': Store)
    requires Serial(cfg, used, s, s') && used <= more
    ensures Serial(cfg, more, s, s')
  {
    var before, op, done :| Committed(cfg, used, s, s', before, op, done);
    MemOkMore(cfg, used, more, before);
    MemOkMore(cfg, used, more, done.mem);
    assert Committed(cfg, more, s, s', before, op, done);
  }

  lemma HistoryMore(cfg: Config, used: set<string>, more: set<string>, history: seq<Store>)
    requires HistoryInv(cfg, used, history) && used <= more
    ensures HistoryInv(cfg, more, history)
  {
    forall i | 0 <= i < |history| ensures StateAt(cfg, more, history, i) {
      assert StateAt(cfg, used, history, i);
      StoreOkMore(cfg, used, more, history[i]);
    }
    forall i | 0 <= i < |history| - 1 ensures SerialAt(cfg, more, history, i) {
      assert SerialAt(cfg, used, history, i);
      SerialMore(cfg, used, more, history[i], history[i + 1]);
    }
  }

  /** A platform that did not act is not disturbed by more used ids. */
  lemma ProcMore(cfg: Config, history: seq<Store>, used: set<string>, more: set<string>, proc: Proc)
    requires history != [] && ProcInv(cfg, history, used, proc) && used <= more
    ensures ProcInv(cfg, history, more, proc)
  {
    if !proc.pc.Down? {
      MemOkMore(cfg, used, more, proc.mem);
    }
    if proc.pc.Open? {
      MemOkMore(cfg, used, more, proc.pc.before);
    }
  }

  /** Nor by a commit of somebody else. */
  lemma ProcLater(cfg: Config, history: seq<Store>, s: Store, used: set<string>, proc: Proc)
    requires history != [] && ProcInv(cfg, history, used, proc)
    ensures ProcInv(cfg, history + [s], used, proc)
  {
  }

  lemma HistoryGrows(cfg: Config, used: set<string>, history: seq<Store>, s: Store)
    requires HistoryInv(cfg, used, history)
    requires StoreOk(cfg, used, s) && |s.audit| == |history| && Serial(cfg, used, Current(history), s)
    ensures HistoryInv(cfg, used, history + [s])
  {
    var longer := history + [s];
    forall i | 0 <= i < |longer| ensures StateAt(cfg, used, longer, i) {
      assert i < |history| ==> StateAt(cfg, used, history, i);
    }
    forall i | 0 <= i < |longer| - 1 ensures SerialAt(cfg, used, longer, i) {
      assert i < |history| - 1 ==> SerialAt(cfg, used, history, i);
    }
  }

  // ---- governance grows ----

  /** An organization once stored stays stored, and its row never changes. */
  ghost predicate OrgsGrow(s: Store, s': Store) {
    forall id {:trigger s.orgs[id]} {:trigger s'.orgs[id]} :: id in s.orgs ==>
        id in s'.orgs && s'.orgs[id] == s.orgs[id]
  }

  lemma SerialGrows(cfg: Config, used: set<string>, s: Store, s': Store)
    requires Serial(cfg, used, s, s')
    ensures OrgsGrow(s, s')
  {
    var before, op, done :| Committed(cfg, used, s, s', before, op, done);
    GovernanceWrite(cfg, before, op, done, s);
  }

  lemma {:induction false} HistoryOrgsGrow(cfg: Config, used: set<string>, history: seq<Store>, i: nat, j: nat)
    requires HistoryInv(cfg, used, history) && i <= j < |history|
    ensures OrgsGrow(history[i], history[j])
    decreases j
  {
    if i < j {
      HistoryOrgsGrow(cfg, used, history, i, j - 1);
      assert SerialAt(cfg, used, history, j - 1);
      SerialGrows(cfg, used, history[j - 1], history[j]);
    }
  }

  // ---- the audit tip determines the committed state ----

  /** The gate: a transaction whose expected tip is the current one started from the log of the current state. */
  lemma TipDeterminesState(cfg: Config, history: seq<Store>, used: set<string>, proc: Proc)
    requires LawfulConfig(cfg) && HistoryInv(cfg, used, history) && ProcInv(cfg, history, used, proc)
    requires proc.pc.Open? && TipFresh(Current(history), proc.pc.bundle)
    ensures proc.view == |history| - 1
  {
    var cur := |history| - 1;
    assert StateAt(cfg, used, history, cur) && StateAt(cfg, used, history, proc.view);
    EntryPrev(cfg, proc.pc.before, proc.pc.op);
    Audit.SameHeadSameLog(cfg.h, history[cur].audit, history[proc.view].audit);
  }

  lemma EntryPrev(cfg: Config, before: Mem, op: Op)
    requires Execute(cfg, before, op).Some?
    ensures var done := Execute(cfg, before, op).value;
            && done.bundle.entry.prevHash == Audit.Tip(before.audit)
            && done.bundle.entry == Logged(cfg, before, op.payload)
            && done.mem.audit == before.audit + [done.bundle.entry]
  {
  }

  /** At its commit every proof the bundle carries holds in the current state, whenever the rows were read. */
  lemma CommitIsFresh(cfg: Config, history: seq<Store>, used: set<string>, proc: Proc)
    requires LawfulConfig(cfg) && HistoryInv(cfg, used, history) && ProcInv(cfg, history, used, proc)
    requires proc.pc.Open? && Checked(proc.pc) && CanCommit(Current(history), proc.pc)
    ensures proc.view == |history| - 1
    ensures Prepared(cfg, proc.pc.before, proc.pc.op, Executed(proc.mem, proc.pc.bundle), Current(history))
    ensures Write(Current(history), proc.pc.bundle, SeenBudget(proc.pc))
         == Write(Current(history), proc.pc.bundle, Current(history).budget)
  {
    TipDeterminesState(cfg, history, used, proc);
  }

  lemma CommitKeepsHistory(cfg: Config, history: seq<Store>, used: set<string>, proc: Proc)
    requires LawfulConfig(cfg) && HistoryInv(cfg, used, history) && ProcInv(cfg, history, used, proc)
    requires proc.pc.Open? && Checked(proc.pc) && CanCommit(Current(history), proc.pc)
    ensures HistoryInv(cfg, used, history + [Write(Current(history), proc.pc.bundle, SeenBudget(proc.pc))])
  {
    var s, done := Current(history), Executed(proc.mem, proc.pc.bundle);
    var before, op := proc.pc.before, proc.pc.op;
    CommitIsFresh(cfg, history, used, proc);
    assert StateAt(cfg, used, history, |history| - 1);
    WriteKeepsStore(cfg, used, before, op, done, s);
    var s' := Write(s, done.bundle, s.budget);
    assert Committed(cfg, used, s, s', before, op, done);
    HistoryGrows(cfg, used, history, s');
  }

  /** The committing platform knows the state it wrote, and memory that equalled the store still does. */
  lemma WriteGrounds(cfg: Config, used: set<string>, before: Mem, op: Op, done: Executed, s: Store, record: Record)
    requires Prepared(cfg, before, op, done, s) && StoreOk(cfg, used, s)
    requires MemOk(cfg, used, before) && MemOk(cfg, used, done.mem)
    requires record.stale == StaleOrgs(before, s) && (record.standing.Whole? ==> Exact(before, s))
    ensures var s', record' := Write(s, done.bundle, s.budget), SettledRecord(done.bundle, op, record);
            && Knows(done.mem, s') && record'.stale == StaleOrgs(done.mem, s')
            && (record.standing.Whole? ==> Exact(done.mem, s'))
  {
    WriteKnows(cfg, before, op, done, s);
    if record.standing.Whole? {
      WriteExact(cfg, before, op, done, s);
    }
  }

  lemma CommitGrounds(cfg: Config, history: seq<Store>, used: set<string>, proc: Proc)
    requires LawfulConfig(cfg) && HistoryInv(cfg, used, history) && ProcInv(cfg, history, used, proc)
    requires proc.pc.Open? && Checked(proc.pc) && CanCommit(Current(history), proc.pc)
    ensures var s' := Write(Current(history), proc.pc.bundle, SeenBudget(proc.pc));
            Grounded(history + [s'], |history|, Settled(history, proc).record, proc.mem)
  {
    CommitIsFresh(cfg, history, used, proc);
    assert StateAt(cfg, used, history, |history| - 1);
    WriteGrounds(cfg, used, proc.pc.before, proc.pc.op, Executed(proc.mem, proc.pc.bundle), Current(history),
                 proc.record);
  }

  // ---- every action keeps the invariant ----

  lemma KnowsAlike(mem: Mem, alike: Mem, s: Store)
    requires Knows(mem, s) && alike.orgs == mem.orgs && alike.policies == mem.policies && alike.audit == mem.audit
    ensures Knows(alike, s) && StaleOrgs(alike, s) == StaleOrgs(mem, s)
  {
    forall id ensures OrgKnown(alike, s, id) && (Stale(alike, s, id) <==> Stale(mem, s, id)) {
      assert OrgKnown(mem, s, id);
    }
  }

  /** Every organization a load has seen it has with a policy, and the state whose log it carries has it unchanged. */
  lemma LoadedOrgKnown(cfg: Config, history: seq<Store>, used: set<string>, mem: Mem, t: LoadTimes, id: OrgId)
    requires HistoryInv(cfg, used, history) && Between(0, t, |history|) && CodeOrder(t) && id in history[t.orgs].orgs
    ensures OrgKnown(HalfLoaded(mem, Torn(history, t)), history[t.audit], id) && id in history[t.policies].policies
  {
    HistoryOrgsGrow(cfg, used, history, t.orgs, t.policies);
    HistoryOrgsGrow(cfg, used, history, t.policies, t.audit);
    assert StateAt(cfg, used, history, t.policies);
  }

  lemma LoadKnows(cfg: Config, history: seq<Store>, used: set<string>, mem: Mem, t: LoadTimes)
    requires HistoryInv(cfg, used, history) && Between(0, t, |history|) && CodeOrder(t)
    ensures Knows(HalfLoaded(mem, Torn(history, t)), history[t.audit])
  {
    var half := HalfLoaded(mem, Torn(history, t));
    forall id ensures OrgKnown(half, history[t.audit], id) && (id in half.orgs <==> id in half.policies) {
      if id in history[t.orgs].orgs {
        LoadedOrgKnown(cfg, history, used, mem, t, id);
      }
    }
  }

  lemma TornBudgetOk(cfg: Config, history: seq<Store>, used: set<string>, t: LoadTimes)
    requires HistoryInv(cfg, used, history) && Between(0, t, |history|)
    ensures BudgetOk(cfg, used, Torn(history, t).budget)
  {
    assert StateAt(cfg, used, history, t.budget);
  }

  lemma LoadGrounded(cfg: Config, history: seq<Store>, used: set<string>, mem: Mem, t: LoadTimes, adrift: set<string>)
    requires HistoryInv(cfg, used, history) && Between(0, t, |history|) && CodeOrder(t) && Decodable(Torn(history, t))
    ensures var loaded := Load(mem, Torn(history, t));
            Grounded(history, t.audit, LoadRecord(history, loaded, t, adrift), loaded)
  {
    LoadKnows(cfg, history, used, mem, t);
    KnowsAlike(HalfLoaded(mem, Torn(history, t)), Load(mem, Torn(history, t)), history[t.audit]);
    if Coherent(history, t) {
      assert StateAt(cfg, used, history, t.audit);
      LoadExact(cfg, used, mem, history[t.audit]);
    }
  }

  /** A load that finds nothing at all has read the empty store throughout. */
  lemma NothingLoaded(cfg: Config, history: seq<Store>, used: set<string>, t: LoadTimes)
    requires HistoryInv(cfg, used, history) && Between(0, t, |history|) && CodeOrder(t) && IsEmpty(Torn(history, t))
    ensures history[t.audit] == EMPTY == Torn(history, t)
  {
    assert StateAt(cfg, used, history, t.audit);
    assert history[0].policies.Keys == {};
  }

  lemma EmptyGrounded(cfg: Config, history: seq<Store>, used: set<string>, limit: PrivacyBudget, t: LoadTimes,
                      adrift: set<string>)
    requires HistoryInv(cfg, used, history) && Between(0, t, |history|) && CodeOrder(t) && IsEmpty(Torn(history, t))
    ensures Grounded(history, t.audit, LoadRecord(history, NewMem(limit), t, adrift), NewMem(limit))
  {
    NothingLoaded(cfg, history, used, t);
    NewMemExact(limit);
  }

  lemma RestoredOk(cfg: Config, history: seq<Store>, used: set<string>, proc: Proc, t: LoadTimes)
    requires HistoryInv(cfg, used, history) && MemOk(cfg, used, proc.mem) && Between(0, t, |history|) && CodeOrder(t)
    ensures ProcInv(cfg, history, used, Restored(history, proc, t))
  {
    var s := Torn(history, t);
    TornBudgetOk(cfg, history, used, t);
    if IsEmpty(s) {
      NewMemOk(cfg, used, DEFAULT_LIMIT);
      EmptyGrounded(cfg, history, used, DEFAULT_LIMIT, t, proc.record.adrift);
    } else {
      LoadOk(cfg, used, proc.mem, s);
      LoadKnows(cfg, history, used, proc.mem, t);
      if Decodable(s) {
        LoadGrounded(cfg, history, used, proc.mem, t, proc.record.adrift);
      }
    }
  }

  lemma BootedOk(cfg: Config, history: seq<Store>, used: set<string>, limit: PrivacyBudget, t: LoadTimes)
    requires HistoryInv(cfg, used, history) && Between(0, t, |history|) && CodeOrder(t)
    requires limit.epsilon >= 0.0 && limit.delta >= 0.0
    ensures ProcInv(cfg, history, used, Booted(history, limit, t))
  {
    var s := Torn(history, t);
    TornBudgetOk(cfg, history, used, t);
    NewMemOk(cfg, used, limit);
    if IsEmpty(s) {
      EmptyGrounded(cfg, history, used, limit, t, {});
    } else if Decodable(s) {
      LoadOk(cfg, used, NewMem(limit), s);
      LoadGrounded(cfg, history, used, NewMem(limit), t, {});
    }
  }

  lemma HarmlessKeepsExact(cfg: Config, mem: Mem, op: Op, s: Store)
    requires Exact(mem, s) && Harmless(cfg, mem, op)
    ensures Exact(Spoil(cfg, mem, op), s)
  {
    forall key ensures ServerExact(s, Spoil(cfg, mem, op), key) {
      assert ServerExact(s, mem, key);
    }
  }

  lemma LostRecordKeeps(cfg: Config, mem: Mem, op: Op, record: Record)
    ensures var lost := LostRecord(cfg, mem, op, record);
            && lost.stale == record.stale && (lost.standing.Whole? ==> record.standing.Whole? && Harmless(cfg, mem, op))
            && (NothingLost(lost.standing) ==> NothingLost(record.standing) && lost.dirty == record.dirty)
  {
  }

  lemma StaysGrounded(history: seq<Store>, view: nat, record: Record, mem: Mem, record': Record, mem': Mem)
    requires Grounded(history, view, record, mem) && record'.stale == record.stale
    requires mem'.orgs == mem.orgs && mem'.policies == mem.policies && mem'.audit == mem.audit
    requires record'.standing.Whole? ==> Exact(mem', history[view])
    requires NothingLost(record'.standing) ==> NothingLost(record.standing) && record'.dirty == record.dirty
    ensures Grounded(history, view, record', mem')
  {
    KnowsAlike(mem, mem', history[view]);
  }

  lemma LostGrounded(cfg: Config, history: seq<Store>, view: nat, record: Record, mem: Mem, op: Op)
    requires Grounded(history, view, record, mem)
    ensures Grounded(history, view, LostRecord(cfg, mem, op, record), Spoil(cfg, mem, op))
  {
    SpoilKeepsRows(cfg, mem, op);
    LostRecordKeeps(cfg, mem, op, record);
    if record.standing.Whole? && Harmless(cfg, mem, op) {
      HarmlessKeepsExact(cfg, mem, op, history[view]);
    }
    StaysGrounded(history, view, record, mem, LostRecord(cfg, mem, op, record), Spoil(cfg, mem, op));
  }

  lemma LoseOk(cfg: Config, history: seq<Store>, used: set<string>, proc: Proc, op: Op)
    requires LawfulConfig(cfg) && history != [] && ProcInv(cfg, history, used, proc)
    requires proc.pc.Idle? && FreshIds(op, used)
    ensures ProcInv(cfg, history, UsedAfter(op, used), Lost(cfg, proc, op))
  {
    SpoilKeepsMem(cfg, used, proc.mem, op);
    LostGrounded(cfg, history, proc.view, proc.record, proc.mem, op);
  }

  /** A newly drawn identifier occurs in no committed state. */
  lemma FreshIsNew(cfg: Config, used: set<string>, s: Store, op: Op)
    requires StoreOk(cfg, used, s) && FreshIds(op, used)
    ensures NewHere(op, s)
  {
  }

  lemma BeginOk(cfg: Config, history: seq<Store>, used: set<string>, proc: Proc, op: Op)
    requires LawfulConfig(cfg) && HistoryInv(cfg, used, history) && ProcInv(cfg, history, used, proc)
    requires CanBegin(cfg, used, proc, op)
    ensures ProcInv(cfg, history, UsedAfter(op, used), Begun(cfg, proc, op))
  {
    ExecuteKeepsMem(cfg, used, proc.mem, op);
    MemOkMore(cfg, used, UsedAfter(op, used), proc.mem);
    assert StateAt(cfg, used, history, proc.view);
    FreshIsNew(cfg, used, history[proc.view], op);
  }

  lemma ReadsOk(cfg: Config, history: seq<Store>, used: set<string>, proc: Proc)
    requires history != [] && ProcInv(cfg, history, used, proc) && proc.pc.Open?
    ensures proc.pc.bundle.budget.Some? ==> ProcInv(cfg, history, used, BudgetReadStep(history, proc))
    ensures proc.pc.bundle.server.Some? ==> ProcInv(cfg, history, used, ServerReadStep(history, proc))
  {
  }

  /** Steps that leave the history and the used ids alone. */
  lemma QuietOk(cfg: Config, history: seq<Store>, used: set<string>, proc: Proc, a: Action)
    requires LawfulConfig(cfg) && HistoryInv(cfg, used, history) && ProcInv(cfg, history, used, proc) && LoadsInOrder(a)
    requires !a.Lose? && !a.Begin? && Act(cfg, history, used, proc, a).committed.None?
    ensures Act(cfg, history, used, proc, a).used == used
    ensures ProcInv(cfg, history, used, Act(cfg, history, used, proc, a).proc)
  {
    match a
    case Boot(limit, t) =>
      if limit.epsilon >= 0.0 && limit.delta >= 0.0 && Between(0, t, |history|) {
        BootedOk(cfg, history, used, limit, t);
      }
    case Restore(t) =>
      if proc.pc.Restoring? && Between(proc.pc.since, t, |history|) {
        RestoredOk(cfg, history, used, proc, t);
      }
    case _ =>
      if proc.pc.Open? {
        ReadsOk(cfg, history, used, proc);
      }
  }

  /** Calls that begin or are lost use up an identifier. */
  lemma CallOk(cfg: Config, history: seq<Store>, used: set<string>, proc: Proc, a: Action)
    requires LawfulConfig(cfg) && HistoryInv(cfg, used, history) && ProcInv(cfg, history, used, proc)
    requires a.Lose? || a.Begin?
    ensures var o := Act(cfg, history, used, proc, a);
            o.committed.None? && used <= o.used && ProcInv(cfg, history, o.used, o.proc)
  {
    match a
    case Lose(op) =>
      if proc.pc == Idle && FreshIds(op, used) {
        LoseOk(cfg, history, used, proc, op);
      }
    case Begin(op) =>
      if CanBegin(cfg, used, proc, op) {
        BeginOk(cfg, history, used, proc, op);
      }
  }

  lemma CommitOk(cfg: Config, history: seq<Store>, used: set<string>, proc: Proc)
    requires LawfulConfig(cfg) && HistoryInv(cfg, used, history) && ProcInv(cfg, history, used, proc)
    requires Act(cfg, history, used, proc, Finish).committed.Some?
    ensures var o := Act(cfg, history, used, proc, Finish);
            && o.used == used && HistoryInv(cfg, used, history + [o.committed.value])
            && ProcInv(cfg, history + [o.committed.value], used, o.proc)
  {
    CommitKeepsHistory(cfg, history, used, proc);
    CommitGrounds(cfg, history, used, proc);
  }

  /** The acting platform and the history stay well formed under every action. */
  lemma ActOk(cfg: Config, history: seq<Store>, used: set<string>, proc: Proc, a: Action)
    requires LawfulConfig(cfg) && HistoryInv(cfg, used, history) && ProcInv(cfg, history, used, proc) && LoadsInOrder(a)
    ensures var o := Act(cfg, history, used, proc, a);
            && used <= o.used
            && (o.committed.Some? ==> o.used == used && HistoryInv(cfg, used, history + [o.committed.value])
                                      && ProcInv(cfg, history + [o.committed.value], used, o.proc))
            && (o.committed.None? ==> HistoryInv(cfg, o.used, history) && ProcInv(cfg, history, o.used, o.proc))
  {
    var o := Act(cfg, history, used, proc, a);
    if o.committed.Some? {
      CommitOk(cfg, history, used, proc);
    } else if a.Lose? || a.Begin? {
      CallOk(cfg, history, used, proc, a);
      HistoryMore(cfg, used, o.used, history);
    } else {
      QuietOk(cfg, history, used, proc, a);
    }
  }

  lemma StepKeepsInv(cfg: Config, g: System, p: nat, a: Action)
    requires LawfulConfig(cfg) && SystemInv(cfg, g) && p < |g.procs| && LoadsInOrder(a)
    ensures SystemInv(cfg, Step(cfg, g, p, a))
  {
    var g' := Step(cfg, g, p, a);
    var o := Act(cfg, g.history, g.used, g.procs[p], a);
    assert ProcAt(cfg, g, p);
    ActOk(cfg, g.history, g.used, g.procs[p], a);
    forall q | 0 <= q < |g'.procs| ensures ProcAt(cfg, g', q) {
      if q != p {
        assert ProcAt(cfg, g, q);
        ProcMore(cfg, g.history, g.used, o.used, g.procs[q]);
        if o.committed.Some? {
          ProcLater(cfg, g.history, o.committed.value, o.used, g.procs[q]);
        }
      }
    }
  }

  /** Any number of newly constructed platforms, each with its own limit, on an empty store. */
  function Initial(limits: seq<PrivacyBudget>): System {
    System([EMPTY], {}, seq(|limits|, p requires 0 <= p < |limits| => Proc(0, NewMem(limits[p]), Idle, CLEAN)), {})
  }

  ghost predicate NonNegative(limits: seq<PrivacyBudget>) {
    forall p :: 0 <= p < |limits| ==> limits[p].epsilon >= 0.0 && limits[p].delta >= 0.0
  }

  lemma InitialInv(cfg: Config, limits: seq<PrivacyBudget>)
    requires NonNegative(limits)
    ensures SystemInv(cfg, Initial(limits))
  {
    var g := Initial(limits);
    forall p | 0 <= p < |g.procs| ensures ProcAt(cfg, g, p) {
      NewMemOk(cfg, {}, limits[p]);
      NewMemExact(limits[p]);
    }
  }

  /**
   * The invariant holds after every interleaving of every number of platforms: refused rounds, failed evaluations,
   * loads that raise midway and loads into which others commit included.
   */
  lemma {:induction false} RunKeepsInv(cfg: Config, limits: seq<PrivacyBudget>, moves: seq<Move>)
    requires LawfulConfig(cfg) && NonNegative(limits) && ValidMoves(moves, |limits|) && AllInOrder(moves)
    ensures SystemInv(cfg, Interleave(cfg, Initial(limits), moves))
  {
    if moves == [] {
      InitialInv(cfg, limits);
    } else {
      var init, last := moves[..|moves| - 1], moves[|moves| - 1];
      RunKeepsInv(cfg, limits, init);
      StepKeepsInv(cfg, Interleave(cfg, Initial(limits), init), last.p, last.action);
    }
  }
}
