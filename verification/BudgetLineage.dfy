/** From which stored budget row a commit was computed (sentrylink/platform.py, sentrylink/storage/store.py). */
module BudgetLineage {
  import opened Foundations
  import opened DifferentialPrivacy
  import opened Storage
  import opened PlatformOps
  import opened StoreSerial
  import opened StoreProtocol
  import opened StoreTheorems
  import opened StoreGuarantees

  // ---- events by their ids ----

  function Ids(events: seq<Event>): (r: set<string>)
    ensures forall id :: id in r <==> HasId(events, id)
  {
    set k | 0 <= k < |events| :: events[k].id
  }

  function StoredIds(s: Store): set<string> {
    if s.budget.Some? then Ids(s.budget.value.events) else {}
  }

  lemma IdsOfLast(events: seq<Event>, last: Event)
    ensures Ids(events + [last]) == Ids(events) + {last.id}
  {
    forall id ensures HasId(events + [last], id) <==> HasId(events, id) || id == last.id {
      if HasId(events, id) {
        var k :| 0 <= k < |events| && events[k].id == id;
        assert (events + [last])[k] == events[k];
      }
      assert (events + [last])[|events|] == last;
    }
  }

  lemma IdsOfPrefix(events: seq<Event>, longer: seq<Event>)
    requires events <= longer
    ensures Ids(events) <= Ids(longer)
  {
    forall id | HasId(events, id) ensures HasId(longer, id) {
      var k :| 0 <= k < |events| && events[k].id == id;
      assert longer[k].id == id;
    }
  }

  lemma {:induction false} UnseenHas(existing: seq<Event>, incoming: seq<Event>, id: string)
    requires HasId(incoming, id) && !HasId(existing, id)
    ensures HasId(Unseen(existing, incoming), id)
  {
    var init, last := incoming[..|incoming| - 1], incoming[|incoming| - 1];
    if last.id == id {
      IdsOfLast(Unseen(existing, init), last);
    } else {
      var k :| 0 <= k < |incoming| && incoming[k].id == id;
      assert init[k].id == id;
      UnseenHas(existing, init, id);
      IdsOfPrefix(Unseen(existing, init), Unseen(existing, incoming));
    }
  }

  /** Merging loses no event. */
  lemma MergedIds(existing: seq<Event>, incoming: seq<Event>)
    ensures Ids(existing) <= Ids(MergeEvents(existing, incoming)) <= Ids(existing) + Ids(incoming)
    ensures Ids(incoming) <= Ids(MergeEvents(existing, incoming))
  {
    var merged, unseen := MergeEvents(existing, incoming), Unseen(existing, incoming);
    IdsOfPrefix(existing, merged);
    UnseenIds(existing, incoming);
    forall id | HasId(merged, id) ensures HasId(existing, id) || HasId(incoming, id) {
      var k :| 0 <= k < |merged| && merged[k].id == id;
      if k < |existing| {
        assert existing[k].id == id;
      } else {
        assert unseen[k - |existing|] in incoming;
      }
    }
    forall id | HasId(incoming, id) ensures HasId(merged, id) {
      if !HasId(existing, id) {
        UnseenHas(existing, incoming, id);
        var k :| 0 <= k < |unseen| && unseen[k].id == id;
        assert merged[|existing| + k].id == id;
      }
    }
  }

  lemma {:induction false} NothingUnseen(existing: seq<Event>, incoming: seq<Event>)
    requires Ids(incoming) <= Ids(existing)
    ensures Unseen(existing, incoming) == []
  {
    if incoming != [] {
      var init, last := incoming[..|incoming| - 1], incoming[|incoming| - 1];
      assert init + [last] == incoming;
      IdsOfLast(init, last);
      NothingUnseen(existing, init);
    }
  }

  lemma UnseenLast(existing: seq<Event>, incoming: seq<Event>, last: Event)
    requires !HasId(existing, last.id)
    ensures Unseen(existing, incoming + [last]) == Unseen(existing, incoming) + [last]
  {
    assert (incoming + [last])[..|incoming|] == incoming;
  }

  // ---- what events cost together ----

  function CostSum(events: seq<Event>): PrivacyBudget {
    if events == [] then PrivacyBudget(0.0, 0.0)
    else Plus(CostSum(events[..|events| - 1]), events[|events| - 1].cost)
  }

  lemma CostOfLast(events: seq<Event>, last: Event)
    ensures CostSum(events + [last]) == Plus(CostSum(events), last.cost)
  {
    assert (events + [last])[..|events|] == events;
  }

  lemma {:induction false} CostOfBoth(a: seq<Event>, b: seq<Event>)
    ensures CostSum(a + b) == Plus(CostSum(a), CostSum(b))
  {
    if b == [] {
      assert a + b == a;
    } else {
      var init, last := b[..|b| - 1], b[|b| - 1];
      assert a + b == (a + init) + [last];
      CostOfLast(a + init, last);
      CostOfBoth(a, init);
    }
  }

  lemma {:induction false} CostOfPositive(events: seq<Event>)
    requires CostsPositive(events)
    ensures events != [] ==> CostSum(events).epsilon > 0.0
  {
    if events != [] {
      CostOfPositive(events[..|events| - 1]);
    }
  }

  /** What was spent is what the events cost. */
  ghost predicate Conserved(acc: Accountant) {
    acc.spent == CostSum(acc.events)
  }

  lemma ChargedConserved(acc: Accountant, req: Request)
    ensures Conserved(acc) ==> Conserved(Charged(acc, req))
    ensures CostSum(Charged(acc, req).events) == Plus(CostSum(acc.events), req.cost)
  {
    CostOfLast(acc.events, Event(req.id, req.cost, req.rdp.Some?, acc.spent, Plus(acc.spent, req.cost)));
  }

  // ---- which row an accountant stands on ----

  /** Everything but the list of events, and no event that the row lacks. */
  ghost predicate Matches(row: Accountant, acc: Accountant) {
    acc == row.(events := acc.events) && Ids(acc.events) <= Ids(row.events)
  }

  ghost predicate MatchesAt(history: seq<Store>, i: nat, acc: Accountant) {
    i < |history| && history[i].budget.Some? && Matches(history[i].budget.value, acc)
  }

  /** Nothing was ever charged, or the accountant is that of a row committed at some time. */
  ghost predicate OnRow(history: seq<Store>, acc: Accountant) {
    acc == Fresh(acc.limit) || exists i :: MatchesAt(history, i, acc)
  }

  /** The accountant has spent what the row says, or more if it holds charges adrift. */
  ghost predicate Ahead(row: Option<Accountant>, acc: Accountant, adrift: set<string>) {
    row.Some? ==>
      && row.value.spent.epsilon <= acc.spent.epsilon
      && (adrift != {} ==> row.value.spent.epsilon < acc.spent.epsilon)
  }

  /** Exactly the events adrift are not stored; without any the accountant stands on a row. */
  ghost predicate Based(history: seq<Store>, view: nat, acc: Accountant, adrift: set<string>, split: bool)
    requires history != []
  {
    && view < |history|
    && (adrift == {} ==> OnRow(history, acc))
    && adrift <= Ids(acc.events) <= StoredIds(Current(history)) + adrift
    && adrift !! StoredIds(Current(history))
    && (Current(history).budget.None? ==> Conserved(acc))
    && (!split ==> Ahead(history[view].budget, acc, adrift))
  }

  ghost predicate BasedOn(history: seq<Store>, proc: Proc, acc: Accountant)
    requires history != []
  {
    Based(history, proc.view, acc, proc.record.adrift, proc.record.split)
  }

  /** The ids only this platform knows: of its charges adrift, and of the charge it is about to commit. */
  function Own(proc: Proc): set<string> {
    match proc.pc
    case Down => {}
    case Open(op, _, bundle, _, _) => proc.record.adrift + ChargeIds(bundle, op)
    case _ => proc.record.adrift
  }

  function Held(proc: Proc): set<string> {
    if proc.pc.Down? then {} else Ids(proc.mem.accountant.events)
  }

  ghost predicate Ledger(cfg: Config, history: seq<Store>, proc: Proc)
    requires history != []
  {
    match proc.pc
    case Down => true
    case Open(op, before, bundle, _, _) =>
      && Execute(cfg, before, op) == Some(Executed(proc.mem, bundle)) && BasedOn(history, proc, before.accountant)
      && ChargeIds(bundle, op) !! StoredIds(Current(history))
    case _ => BasedOn(history, proc, proc.mem.accountant)
  }

  // ---- charges ----

  lemma ChargeAdrift(history: seq<Store>, view: nat, acc: Accountant, adrift: set<string>, split: bool, req: Request)
    requires history != [] && Based(history, view, acc, adrift, split)
    requires req.cost.epsilon > 0.0 && req.id !in StoredIds(Current(history))
    ensures Based(history, view, Charged(acc, req), adrift + {req.id}, split)
  {
    IdsOfLast(acc.events, Event(req.id, req.cost, req.rdp.Some?, acc.spent, Plus(acc.spent, req.cost)));
    ChargedConserved(acc, req);
  }

  /** A call's charge, as its bundle shows it. */
  lemma CallCharges(cfg: Config, before: Mem, op: Op, done: Executed)
    requires Execute(cfg, before, op) == Some(done)
    ensures done.bundle.budget.None? ==> ChargeIds(done.bundle, op) == {} && done.mem.accountant == before.accountant
    ensures done.bundle.budget.Some? ==>
              && ChargeOf(cfg, op).Some? && ChargeOf(cfg, op).value.cost.epsilon > 0.0
              && ChargeIds(done.bundle, op) == {ChargeOf(cfg, op).value.id} <= Draws(op)
              && done.mem.accountant == Charged(before.accountant, ChargeOf(cfg, op).value)
              && Ids(done.mem.accountant.events) == Ids(before.accountant.events) + ChargeIds(done.bundle, op)
  {
    ChargeWrite(cfg, before, op, done);
    if done.bundle.budget.Some? {
      var acc, req := before.accountant, ChargeOf(cfg, op).value;
      IdsOfLast(acc.events, Event(req.id, req.cost, req.rdp.Some?, acc.spent, Plus(acc.spent, req.cost)));
    }
  }

  lemma RolledBackLedger(cfg: Config, history: seq<Store>, proc: Proc)
    requires history != [] && Ledger(cfg, history, proc) && proc.pc.Open?
    ensures Ledger(cfg, history, RolledBack(history, proc))
  {
    var pc := proc.pc;
    CallCharges(cfg, pc.before, pc.op, Executed(proc.mem, pc.bundle));
    if pc.bundle.budget.Some? {
      ChargeAdrift(history, proc.view, pc.before.accountant, proc.record.adrift, proc.record.split,
                   ChargeOf(cfg, pc.op).value);
    } else {
      assert proc.record.adrift + {} == proc.record.adrift;
    }
  }

  lemma FreshNotStored(cfg: Config, used: set<string>, history: seq<Store>, op: Op)
    requires HistoryInv(cfg, used, history) && FreshIds(op, used)
    ensures Draws(op) !! StoredIds(Current(history))
  {
    assert StateAt(cfg, used, history, |history| - 1);
  }

  lemma LostLedger(cfg: Config, history: seq<Store>, used: set<string>, proc: Proc, op: Op)
    requires HistoryInv(cfg, used, history) && Ledger(cfg, history, proc) && proc.pc.Idle? && FreshIds(op, used)
    ensures Ledger(cfg, history, Lost(cfg, proc, op))
  {
    if op.Query? && Released(cfg, proc.mem, op) {
      FreshNotStored(cfg, used, history, op);
      ReleasedCharge(cfg, proc.mem, op);
      ChargeAdrift(history, proc.view, proc.mem.accountant, proc.record.adrift, proc.record.split,
                   ChargeOf(cfg, op).value);
    }
  }

  lemma BegunLedger(cfg: Config, history: seq<Store>, used: set<string>, proc: Proc, op: Op)
    requires HistoryInv(cfg, used, history) && Ledger(cfg, history, proc) && CanBegin(cfg, used, proc, op)
    ensures Ledger(cfg, history, Begun(cfg, proc, op))
  {
    FreshNotStored(cfg, used, history, op);
    CallCharges(cfg, proc.mem, op, Execute(cfg, proc.mem, op).value);
  }

  // ---- loads ----

  lemma RowBased(cfg: Config, used: set<string>, history: seq<Store>, t: LoadTimes, split: bool)
    requires HistoryInv(cfg, used, history) && Between(0, t, |history|) && history[t.budget].budget.Some?
    requires split == (history[t.budget].budget != history[t.audit].budget)
    ensures Based(history, t.audit, history[t.budget].budget.value, {}, split)
  {
    HistoryRowGrows(cfg, used, history, t.budget, |history| - 1);
    IdsOfPrefix(history[t.budget].budget.value.events, Current(history).budget.value.events);
    assert MatchesAt(history, t.budget, history[t.budget].budget.value);
  }

  lemma FreshBased(history: seq<Store>, view: nat, limit: PrivacyBudget, split: bool)
    requires history != [] && view < |history| && (!split ==> history[view].budget.None?)
    ensures Based(history, view, Fresh(limit), {}, split)
  {
    assert Ids([]) == {};
  }

  /** What a load makes of an accountant. */
  function LoadedAccountant(s: Store, acc: Accountant, limit: PrivacyBudget): Accountant {
    if IsEmpty(s) then Fresh(limit) else if s.budget.Some? then s.budget.value else acc
  }

  lemma LoadBased(cfg: Config, used: set<string>, history: seq<Store>, t: LoadTimes, view: nat, acc: Accountant,
                  adrift: set<string>, split: bool, limit: PrivacyBudget)
    requires HistoryInv(cfg, used, history) && Between(0, t, |history|) && Based(history, view, acc, adrift, split)
    ensures var s := Torn(history, t);
            Based(history, t.audit, LoadedAccountant(s, acc, limit), AdriftAfter(s, adrift),
                  history[t.budget].budget != history[t.audit].budget)
  {
    var split' := history[t.budget].budget != history[t.audit].budget;
    if IsEmpty(Torn(history, t)) {
      FreshBased(history, t.audit, limit, split');
    } else if history[t.budget].budget.Some? {
      RowBased(cfg, used, history, t, split');
    }
  }

  lemma RestoredLedger(cfg: Config, history: seq<Store>, used: set<string>, proc: Proc, t: LoadTimes)
    requires HistoryInv(cfg, used, history) && Ledger(cfg, history, proc) && proc.pc.Restoring?
    requires Between(0, t, |history|)
    ensures Ledger(cfg, history, Restored(history, proc, t))
  {
    LoadBased(cfg, used, history, t, proc.view, proc.mem.accountant, proc.record.adrift, proc.record.split,
              DEFAULT_LIMIT);
  }

  lemma BootedLedger(cfg: Config, history: seq<Store>, used: set<string>, limit: PrivacyBudget, t: LoadTimes)
    requires HistoryInv(cfg, used, history) && Between(0, t, |history|)
    ensures Ledger(cfg, history, Booted(history, limit, t))
  {
    FreshBased(history, 0, limit, true);
    LoadBased(cfg, used, history, t, 0, Fresh(limit), {}, true, limit);
  }

  // ---- commits ----

  lemma WrittenMatches(seen: Option<Accountant>, acc: Accountant, spent: PrivacyBudget)
    ensures Matches(BudgetAfter(seen, BudgetWrite(acc, spent)), acc)
  {
    if seen.Some? {
      MergedIds(seen.value.events, acc.events);
    }
  }

  lemma SettledLedger(cfg: Config, history: seq<Store>, used: set<string>, proc: Proc)
    requires LawfulConfig(cfg) && HistoryInv(cfg, used, history) && ProcInv(cfg, history, used, proc)
    requires Ledger(cfg, history, proc) && proc.pc.Open? && Checked(proc.pc) && CanCommit(Current(history), proc.pc)
    ensures Ledger(cfg, history + [Write(Current(history), proc.pc.bundle, Current(history).budget)],
                   Settled(history, proc))
  {
    var pc, s := proc.pc, Current(history);
    var longer := history + [Write(s, pc.bundle, s.budget)];
    TipDeterminesState(cfg, history, used, proc);
    CallCharges(cfg, pc.before, pc.op, Executed(proc.mem, pc.bundle));
    if pc.bundle.budget.Some? {
      ChargeWrite(cfg, pc.before, pc.op, Executed(proc.mem, pc.bundle));
      WrittenMatches(s.budget, proc.mem.accountant, pc.before.accountant.spent);
      assert MatchesAt(longer, |history|, proc.mem.accountant);
    } else {
      OnRowLater(history, Current(longer), pc.before.accountant);
    }
  }

  lemma OnRowLater(history: seq<Store>, s: Store, acc: Accountant)
    ensures OnRow(history, acc) ==> OnRow(history + [s], acc)
  {
    if i :| MatchesAt(history, i, acc) {
      assert MatchesAt(history + [s], i, acc);
    }
  }

  /** A platform is not disturbed by rows that have none of its own events. */
  lemma BasedLater(history: seq<Store>, s: Store, view: nat, acc: Accountant, adrift: set<string>, split: bool)
    requires history != [] && Based(history, view, acc, adrift, split)
    requires StoredIds(Current(history)) <= StoredIds(s) && adrift !! StoredIds(s)
    requires s.budget.None? ==> Current(history).budget.None?
    ensures Based(history + [s], view, acc, adrift, split)
  {
    OnRowLater(history, s, acc);
  }

  lemma LedgerLater(cfg: Config, history: seq<Store>, s: Store, proc: Proc)
    requires history != [] && Ledger(cfg, history, proc) && Own(proc) !! StoredIds(s)
    requires StoredIds(Current(history)) <= StoredIds(s)
    requires s.budget.None? ==> Current(history).budget.None?
    ensures Ledger(cfg, history + [s], proc)
  {
    match proc.pc
    case Down =>
    case Open(_, before, _, _, _) =>
      BasedLater(history, s, proc.view, before.accountant, proc.record.adrift, proc.record.split);
    case _ =>
      BasedLater(history, s, proc.view, proc.mem.accountant, proc.record.adrift, proc.record.split);
  }

  // ---- every action ----

  /** What a platform holds is stored or its own, never both. */
  lemma LedgerIds(cfg: Config, history: seq<Store>, proc: Proc)
    requires history != [] && Ledger(cfg, history, proc)
    ensures Own(proc) <= Held(proc) <= StoredIds(Current(history)) + Own(proc)
    ensures Own(proc) !! StoredIds(Current(history))
  {
    if proc.pc.Open? {
      CallCharges(cfg, proc.pc.before, proc.pc.op, Executed(proc.mem, proc.pc.bundle));
    }
  }

  /** An identifier becomes the platform's own by being drawn. */
  lemma ActOwns(cfg: Config, history: seq<Store>, used: set<string>, proc: Proc, a: Action)
    requires history != []
    ensures var o := Act(cfg, history, used, proc, a); Own(o.proc) <= Own(proc) + (o.used - used)
  {
    match a
    case Begin(op) =>
      if CanBegin(cfg, used, proc, op) {
        CallCharges(cfg, proc.mem, op, Execute(cfg, proc.mem, op).value);
      }
    case _ =>
  }

  lemma CommitStores(cfg: Config, history: seq<Store>, proc: Proc, seen: Option<Accountant>)
    requires history != [] && Ledger(cfg, history, proc) && proc.pc.Open?
    requires seen == Current(history).budget
    ensures var s, s' := Current(history), Write(Current(history), proc.pc.bundle, seen);
            StoredIds(s) <= StoredIds(s') <= StoredIds(s) + Held(proc) && (s'.budget.None? ==> s.budget.None?)
  {
    ChargeWrite(cfg, proc.pc.before, proc.pc.op, Executed(proc.mem, proc.pc.bundle));
    if seen.Some? {
      MergedIds(seen.value.events, proc.mem.accountant.events);
    }
  }

  lemma FinishLedger(cfg: Config, history: seq<Store>, used: set<string>, proc: Proc)
    requires LawfulConfig(cfg) && HistoryInv(cfg, used, history) && ProcInv(cfg, history, used, proc)
    requires Ledger(cfg, history, proc) && Act(cfg, history, used, proc, Finish).committed.Some?
    ensures var o := Act(cfg, history, used, proc, Finish);
            var s, s' := Current(history), o.committed.value;
            && Ledger(cfg, history + [s'], o.proc)
            && StoredIds(s) <= StoredIds(s') <= StoredIds(s) + Held(proc) && (s'.budget.None? ==> s.budget.None?)
  {
    FinishCommits(cfg, history, used, proc);
    SettledLedger(cfg, history, used, proc);
    CommitStores(cfg, history, proc, Current(history).budget);
  }

  lemma OpenLedger(cfg: Config, history: seq<Store>, used: set<string>, proc: Proc, a: Action)
    requires HistoryInv(cfg, used, history) && Ledger(cfg, history, proc)
    requires a == ReadBudget || a == ReadServer || a == Finish || a == Abort
    requires Act(cfg, history, used, proc, a).committed.None?
    ensures Ledger(cfg, history, Act(cfg, history, used, proc, a).proc)
  {
    if proc.pc.Open? {
      RolledBackLedger(cfg, history, proc);
    }
  }

  lemma QuietLedger(cfg: Config, history: seq<Store>, used: set<string>, proc: Proc, a: Action)
    requires HistoryInv(cfg, used, history) && Ledger(cfg, history, proc)
    requires Act(cfg, history, used, proc, a).committed.None?
    ensures Ledger(cfg, history, Act(cfg, history, used, proc, a).proc)
  {
    match a
    case Boot(limit, t) =>
      if Between(0, t, |history|) {
        BootedLedger(cfg, history, used, limit, t);
      }
    case Restore(t) =>
      if proc.pc.Restoring? && Between(0, t, |history|) {
        RestoredLedger(cfg, history, used, proc, t);
      }
    case Lose(op) =>
      if proc.pc.Idle? && FreshIds(op, used) {
        LostLedger(cfg, history, used, proc, op);
      }
    case Begin(op) =>
      if CanBegin(cfg, used, proc, op) {
        BegunLedger(cfg, history, used, proc, op);
      }
    case _ =>
      OpenLedger(cfg, history, used, proc, a);
  }

  ghost predicate LedgerAt(cfg: Config, g: System, p: nat)
    requires g.history != [] && p < |g.procs|
  {
    Ledger(cfg, g.history, g.procs[p])
  }

  predicate OwnApart(g: System, p: nat, q: nat)
    requires p < |g.procs| && q < |g.procs|
  {
    p != q ==> Own(g.procs[p]) !! Own(g.procs[q])
  }

  ghost predicate AllLedgers(cfg: Config, g: System)
    requires g.history != []
  {
    && (forall p {:trigger LedgerAt(cfg, g, p)} :: 0 <= p < |g.procs| ==> LedgerAt(cfg, g, p))
    && (forall p, q {:trigger OwnApart(g, p, q)} :: 0 <= p < |g.procs| && 0 <= q < |g.procs| ==> OwnApart(g, p, q))
  }

  lemma OwnUsed(cfg: Config, history: seq<Store>, used: set<string>, proc: Proc)
    requires history != [] && ProcInv(cfg, history, used, proc) && Ledger(cfg, history, proc)
    ensures Own(proc) <= used
  {
    LedgerIds(cfg, history, proc);
  }

  lemma StepOwnApart(cfg: Config, g: System, p: nat, a: Action, q: nat)
    requires LawfulConfig(cfg) && SystemInv(cfg, g) && AllLedgers(cfg, g) && p < |g.procs| && q < |g.procs| && p != q
    ensures Own(Act(cfg, g.history, g.used, g.procs[p], a).proc) !! Own(g.procs[q])
  {
    assert LedgerAt(cfg, g, q) && ProcAt(cfg, g, q) && OwnApart(g, p, q);
    OwnUsed(cfg, g.history, g.used, g.procs[q]);
    ActOwns(cfg, g.history, g.used, g.procs[p], a);
  }

  /** The others' ledgers still stand after a commit. */
  lemma OtherLedger(cfg: Config, g: System, p: nat, q: nat)
    requires LawfulConfig(cfg) && SystemInv(cfg, g) && AllLedgers(cfg, g) && p < |g.procs| && q < |g.procs| && p != q
    requires Act(cfg, g.history, g.used, g.procs[p], Finish).committed.Some?
    ensures Ledger(cfg, g.history + [Act(cfg, g.history, g.used, g.procs[p], Finish).committed.value], g.procs[q])
  {
    assert LedgerAt(cfg, g, q) && LedgerAt(cfg, g, p) && ProcAt(cfg, g, p) && OwnApart(g, q, p);
    FinishLedger(cfg, g.history, g.used, g.procs[p]);
    LedgerIds(cfg, g.history, g.procs[p]);
    LedgerIds(cfg, g.history, g.procs[q]);
    LedgerLater(cfg, g.history, Act(cfg, g.history, g.used, g.procs[p], Finish).committed.value, g.procs[q]);
  }

  lemma StepLedger(cfg: Config, g: System, p: nat, a: Action, q: nat)
    requires LawfulConfig(cfg) && SystemInv(cfg, g) && AllLedgers(cfg, g) && p < |g.procs| && q < |g.procs|
    ensures LedgerAt(cfg, Step(cfg, g, p, a), q)
  {
    assert LedgerAt(cfg, g, p) && LedgerAt(cfg, g, q) && ProcAt(cfg, g, p);
    if Act(cfg, g.history, g.used, g.procs[p], a).committed.Some? {
      if p == q {
        FinishLedger(cfg, g.history, g.used, g.procs[p]);
      } else {
        OtherLedger(cfg, g, p, q);
      }
    } else if p == q {
      QuietLedger(cfg, g.history, g.used, g.procs[p], a);
    }
  }

  lemma StepLedgers(cfg: Config, g: System, p: nat, a: Action)
    requires LawfulConfig(cfg) && SystemInv(cfg, g) && AllLedgers(cfg, g) && p < |g.procs|
    ensures AllLedgers(cfg, Step(cfg, g, p, a))
  {
    var g' := Step(cfg, g, p, a);
    forall q | 0 <= q < |g'.procs| ensures LedgerAt(cfg, g', q) {
      StepLedger(cfg, g, p, a, q);
    }
    forall q, r | 0 <= q < |g'.procs| && 0 <= r < |g'.procs| ensures OwnApart(g', q, r) {
      assert OwnApart(g, q, r);
      if q == p && r != p {
        StepOwnApart(cfg, g, p, a, r);
      } else if r == p && q != p {
        StepOwnApart(cfg, g, p, a, q);
      }
    }
  }

  // ---- what a commit does to the row ----

  /** The row becomes itself charged with the call's own admissible request; a missing row ends with its event. */
  ghost predicate ChargedOnce(cfg: Config, row: Option<Accountant>, op: Op, row': Option<Accountant>) {
    match ChargeOf(cfg, op)
    case None => row' == row
    case Some(req) =>
      && row'.Some? && row'.value.events != []
      && row'.value.events[|row'.value.events| - 1].id == req.id
      && row'.value.events[|row'.value.events| - 1].cost == req.cost
      && (row.Some? ==> Payable(cfg, row.value, req) && row'.value == Charged(row.value, req))
  }

  /** More events were added than the one charged, and they cost more than was spent. */
  ghost predicate LosesCharge(row: Accountant, row': Accountant) {
    && |row'.events| > |row.events| + 1
    && row'.spent.epsilon - row.spent.epsilon < CostSum(row'.events).epsilon - CostSum(row.events).epsilon
  }

  lemma MatchedWrite(cfg: Config, row: Accountant, acc: Accountant, req: Request)
    requires Matches(row, acc) && !HasId(row.events, req.id)
    ensures BudgetAfter(Some(row), BudgetWriteOf(acc, Charged(acc, req))) == Charged(row, req)
    ensures Payable(cfg, row, req) <==> Payable(cfg, acc, req)
  {
    NothingUnseen(row.events, acc.events);
    UnseenLast(row.events, acc.events, Event(req.id, req.cost, req.rdp.Some?, acc.spent, Plus(acc.spent, req.cost)));
  }

  lemma UnseenCost(existing: seq<Event>, incoming: seq<Event>, id: string)
    requires CostsPositive(incoming) && HasId(incoming, id) && !HasId(existing, id)
    ensures Unseen(existing, incoming) != [] && CostSum(Unseen(existing, incoming)).epsilon > 0.0
  {
    UnseenHas(existing, incoming, id);
    UnseenIds(existing, incoming);
    CostOfPositive(Unseen(existing, incoming));
  }

  lemma AdriftWrite(row: Accountant, acc: Accountant, id: string, req: Request)
    requires CostsPositive(acc.events) && HasId(acc.events, id) && !HasId(row.events, id)
    requires !HasId(row.events, req.id) && acc.spent == row.spent
    ensures LosesCharge(row, BudgetAfter(Some(row), BudgetWriteOf(acc, Charged(acc, req))))
  {
    var last := Event(req.id, req.cost, req.rdp.Some?, acc.spent, Plus(acc.spent, req.cost));
    var unseen := Unseen(row.events, acc.events);
    UnseenLast(row.events, acc.events, last);
    UnseenCost(row.events, acc.events, id);
    CostOfBoth(row.events, unseen + [last]);
    CostOfLast(unseen, last);
  }

  /** An accountant that stands on a row and has spent what the current row has spent stands on the current row. */
  lemma StandsOnCurrent(cfg: Config, history: seq<Store>, used: set<string>, acc: Accountant)
    requires HistoryInv(cfg, used, history) && OnRow(history, acc)
    requires Current(history).budget.Some? && acc.spent == Current(history).budget.value.spent
    ensures Matches(Current(history).budget.value, acc)
  {
    assert StateAt(cfg, used, history, |history| - 1);
    var i :| MatchesAt(history, i, acc);
    HistoryRowGrows(cfg, used, history, i, |history| - 1);
  }

  ghost predicate RowStep(cfg: Config, s: Store, proc: Proc, row': Option<Accountant>)
    requires proc.pc.Open?
  {
    if GoesAstray(s, proc) then proc.record.split && row'.Some? && LosesCharge(s.budget.value, row'.value)
    else ChargedOnce(cfg, s.budget, proc.pc.op, row') && (s.budget.None? && row'.Some? ==> Conserved(row'.value))
  }

  lemma CommitSteps(cfg: Config, history: seq<Store>, used: set<string>, proc: Proc)
    requires LawfulConfig(cfg) && HistoryInv(cfg, used, history) && ProcInv(cfg, history, used, proc)
    requires Ledger(cfg, history, proc) && proc.pc.Open? && Checked(proc.pc) && CanCommit(Current(history), proc.pc)
    ensures RowStep(cfg, Current(history), proc,
                    Write(Current(history), proc.pc.bundle, Current(history).budget).budget)
  {
    var pc, s, acc := proc.pc, Current(history), proc.pc.before.accountant;
    CommitIsFresh(cfg, history, used, proc);
    ChargeWrite(cfg, pc.before, pc.op, Executed(proc.mem, pc.bundle));
    if ChargeOf(cfg, pc.op).Some? {
      var req := ChargeOf(cfg, pc.op).value;
      ChargedConserved(acc, req);
      if s.budget.Some? {
        if proc.record.adrift == {} {
          StandsOnCurrent(cfg, history, used, acc);
          MatchedWrite(cfg, s.budget.value, acc, req);
        } else {
          var id :| id in proc.record.adrift;
          AdriftWrite(s.budget.value, acc, id, req);
        }
      }
    }
  }
}
