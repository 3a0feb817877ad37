/** Which stored server a committed round was computed from (sentrylink/platform.py, run_federated_round). */
module ServerLineage {
  import opened Foundations
  import opened DifferentialPrivacy
  import opened RealVectors
  import opened Storage
  import opened Approvals
  import opened PlatformOps
  import opened StoreSerial
  import opened StoreProtocol
  import opened StoreTheorems
  import opened StoreGuarantees

  // ---- servers without unsaved work are stored versions ----

  ghost predicate StoredAt(history: seq<Store>, i: nat, key: string, row: ServerRow) {
    i < |history| && key in history[i].servers && history[i].servers[key] == row
  }

  ghost predicate WasStored(history: seq<Store>, key: string, row: ServerRow) {
    exists i :: StoredAt(history, i, key, row)
  }

  /** A live server whose key is not dirty is unused, or a version of it that was committed at some time. */
  ghost predicate Saved(history: seq<Store>, servers: map<string, LiveServer>, dirty: set<string>, key: string) {
    key !in dirty && key in servers ==>
      Unused(servers[key]) || WasStored(history, key, EncodeServer(servers[key]))
  }

  ghost predicate AllSaved(history: seq<Store>, servers: map<string, LiveServer>, dirty: set<string>) {
    forall key {:trigger Saved(history, servers, dirty, key)} :: Saved(history, servers, dirty, key)
  }

  ghost predicate Lineage(cfg: Config, history: seq<Store>, proc: Proc) {
    match proc.pc
    case Down => true
    case Open(op, before, bundle, _, _) =>
      && Execute(cfg, before, op) == Some(Executed(proc.mem, bundle))
      && AllSaved(history, before.servers, proc.record.dirty)
    case _ => AllSaved(history, proc.mem.servers, proc.record.dirty)
  }

  ghost predicate LineageAt(cfg: Config, g: System, p: nat)
    requires p < |g.procs|
  {
    Lineage(cfg, g.history, g.procs[p])
  }

  ghost predicate AllLineages(cfg: Config, g: System) {
    forall p {:trigger LineageAt(cfg, g, p)} :: 0 <= p < |g.procs| ==> LineageAt(cfg, g, p)
  }

  lemma SavedLater(history: seq<Store>, s: Store, servers: map<string, LiveServer>, dirty: set<string>)
    requires AllSaved(history, servers, dirty)
    ensures AllSaved(history + [s], servers, dirty)
  {
    forall key ensures Saved(history + [s], servers, dirty, key) {
      assert Saved(history, servers, dirty, key);
      if key !in dirty && key in servers && WasStored(history, key, EncodeServer(servers[key])) {
        var i :| StoredAt(history, i, key, EncodeServer(servers[key]));
        assert StoredAt(history + [s], i, key, EncodeServer(servers[key]));
      }
    }
  }

  lemma LineageLater(cfg: Config, history: seq<Store>, s: Store, proc: Proc)
    requires Lineage(cfg, history, proc)
    ensures Lineage(cfg, history + [s], proc)
  {
    match proc.pc
    case Down =>
    case Open(_, before, _, _, _) => SavedLater(history, s, before.servers, proc.record.dirty);
    case _ => SavedLater(history, s, proc.mem.servers, proc.record.dirty);
  }

  /** Servers rebuilt by a load are the stored ones, whichever states its tables were read from. */
  lemma LoadedSaved(history: seq<Store>, t: LoadTimes, mem: Mem)
    requires Between(0, t, |history|) && Decodable(Torn(history, t))
    ensures AllSaved(history, Load(mem, Torn(history, t)).servers, {})
  {
    var servers := Load(mem, Torn(history, t)).servers;
    forall key ensures Saved(history, servers, {}, key) {
      if key in servers {
        assert StoredAt(history, t.servers, key, EncodeServer(servers[key]));
      }
    }
  }

  lemma LostSaved(cfg: Config, history: seq<Store>, proc: Proc, op: Op)
    requires AllSaved(history, proc.mem.servers, proc.record.dirty)
    ensures AllSaved(history, Lost(cfg, proc, op).mem.servers, Lost(cfg, proc, op).record.dirty)
  {
    var lost := Lost(cfg, proc, op);
    forall key ensures Saved(history, lost.mem.servers, lost.record.dirty, key) {
      assert Saved(history, proc.mem.servers, proc.record.dirty, key);
    }
  }

  /** A call changes the server of its own key only. */
  lemma ExecutedSaved(cfg: Config, history: seq<Store>, before: Mem, op: Op, done: Executed, dirty: set<string>)
    requires Execute(cfg, before, op) == Some(done) && AllSaved(history, before.servers, dirty)
    ensures AllSaved(history, done.mem.servers, dirty + KeysOf(op))
  {
    if op.Round? {
      RoundWrite(cfg, before, op, done);
    } else {
      OtherWrite(cfg, before, op, done);
    }
    forall key ensures Saved(history, done.mem.servers, dirty + KeysOf(op), key) {
      assert Saved(history, before.servers, dirty, key);
    }
  }

  /** After its commit the call's server is stored as well. */
  lemma CommittedSaved(cfg: Config, history: seq<Store>, before: Mem, op: Op, done: Executed, dirty: set<string>,
                       s: Store, seen: Option<Accountant>)
    requires Execute(cfg, before, op) == Some(done) && AllSaved(history, before.servers, dirty)
    ensures AllSaved(history + [Write(s, done.bundle, seen)], done.mem.servers, dirty - KeysOf(op))
  {
    var s' := Write(s, done.bundle, seen);
    ExecutedSaved(cfg, history, before, op, done, dirty);
    SavedLater(history, s', done.mem.servers, dirty + KeysOf(op));
    forall key ensures Saved(history + [s'], done.mem.servers, dirty - KeysOf(op), key) {
      assert Saved(history + [s'], done.mem.servers, dirty + KeysOf(op), key);
      if key in KeysOf(op) {
        RoundWrite(cfg, before, op, done);
        assert StoredAt(history + [s'], |history|, key, EncodeServer(done.mem.servers[key]));
      }
    }
  }

  lemma RolledBackLineage(cfg: Config, history: seq<Store>, proc: Proc)
    requires history != [] && Lineage(cfg, history, proc) && proc.pc.Open?
    ensures Lineage(cfg, history, RolledBack(history, proc))
  {
    ExecutedSaved(cfg, history, proc.pc.before, proc.pc.op, Executed(proc.mem, proc.pc.bundle), proc.record.dirty);
  }

  lemma LoadLineage(cfg: Config, history: seq<Store>, proc: Proc, limit: PrivacyBudget, t: LoadTimes)
    requires Between(0, t, |history|)
    ensures Lineage(cfg, history, Booted(history, limit, t))
    ensures proc.pc.Restoring? && Lineage(cfg, history, proc) ==> Lineage(cfg, history, Restored(history, proc, t))
  {
    if Decodable(Torn(history, t)) {
      LoadedSaved(history, t, proc.mem);
      LoadedSaved(history, t, NewMem(limit));
    }
  }

  lemma FinishLineage(cfg: Config, history: seq<Store>, used: set<string>, proc: Proc)
    requires history != [] && Lineage(cfg, history, proc)
    requires Act(cfg, history, used, proc, Finish).committed.Some?
    ensures var o := Act(cfg, history, used, proc, Finish); Lineage(cfg, history + [o.committed.value], o.proc)
  {
    CommittedSaved(cfg, history, proc.pc.before, proc.pc.op, Executed(proc.mem, proc.pc.bundle), proc.record.dirty,
                   Current(history), SeenBudget(proc.pc));
  }

  lemma ActLineage(cfg: Config, history: seq<Store>, used: set<string>, proc: Proc, a: Action)
    requires history != [] && Lineage(cfg, history, proc)
    ensures var o := Act(cfg, history, used, proc, a);
            Lineage(cfg, if o.committed.Some? then history + [o.committed.value] else history, o.proc)
  {
    if Act(cfg, history, used, proc, a).committed.Some? {
      FinishLineage(cfg, history, used, proc);
    } else {
      match a
      case Boot(limit, t) =>
        if Between(0, t, |history|) {
          LoadLineage(cfg, history, proc, limit, t);
        }
      case Restore(t) =>
        if Between(0, t, |history|) {
          LoadLineage(cfg, history, proc, DEFAULT_LIMIT, t);
        }
      case Lose(op) =>
        if proc.pc.Idle? {
          LostSaved(cfg, history, proc, op);
        }
      case _ =>
        if proc.pc.Open? {
          RolledBackLineage(cfg, history, proc);
        }
    }
  }

  lemma StepLineage(cfg: Config, g: System, p: nat, a: Action)
    requires g.history != [] && AllLineages(cfg, g) && p < |g.procs|
    ensures AllLineages(cfg, Step(cfg, g, p, a))
  {
    var g' := Step(cfg, g, p, a);
    var o := Act(cfg, g.history, g.used, g.procs[p], a);
    assert LineageAt(cfg, g, p);
    ActLineage(cfg, g.history, g.used, g.procs[p], a);
    forall q | 0 <= q < |g'.procs| ensures LineageAt(cfg, g', q) {
      if q != p {
        assert LineageAt(cfg, g, q);
        if o.committed.Some? {
          LineageLater(cfg, g.history, o.committed.value, g.procs[q]);
        }
      }
    }
  }

  /** In every run, whatever its loads saw, a server without unsaved work is unused or a committed version. */
  lemma {:induction false} RunLineage(cfg: Config, limits: seq<PrivacyBudget>, moves: seq<Move>)
    requires ValidMoves(moves, |limits|)
    ensures AllLineages(cfg, Interleave(cfg, Initial(limits), moves))
  {
    if moves == [] {
      var g := Initial(limits);
      forall p | 0 <= p < |g.procs| ensures LineageAt(cfg, g, p) {
      }
    } else {
      var init, last := moves[..|moves| - 1], moves[|moves| - 1];
      RunLineage(cfg, limits, init);
      StepLineage(cfg, Interleave(cfg, Initial(limits), init), last.p, last.action);
    }
  }

  // ---- what a committed round builds on ----

  /** The stored model was moved by the round's aggregate, its counter by one; a first round starts from zero. */
  ghost predicate BuildsOn(s: Store, s': Store, key: string, aggregate: seq<real>) {
    && key in s'.servers && |aggregate| == |s'.servers[key].model|
    && if key in s.servers then
         && s'.servers[key].dim == s.servers[key].dim && |s.servers[key].model| == |aggregate|
         && s'.servers[key].model == Add(s.servers[key].model, aggregate)
         && s'.servers[key].rounds == s.servers[key].rounds + 1
       else s'.servers[key].model == aggregate && s'.servers[key].rounds == 1
  }

  /** The platform's server is, as far as model and dimension go, the one the store has. */
  ghost predicate Agrees(s: Store, server: LiveServer, key: string) {
    if key in s.servers then server.dim == s.servers[key].dim && server.model == s.servers[key].model
    else Unused(server)
  }

  lemma AddCancels(a: seq<real>, b: seq<real>, v: seq<real>)
    requires |a| == |b| == |v| && Add(a, v) == Add(b, v)
    ensures a == b
  {
    forall i | 0 <= i < |a| ensures a[i] == b[i] {
      assert Add(a, v)[i] == Add(b, v)[i];
    }
  }

  lemma AddToZero(z: seq<real>, v: seq<real>)
    requires |z| == |v|
    ensures Add(z, v) == v <==> forall i :: 0 <= i < |z| ==> z[i] == 0.0
  {
    if Add(z, v) == v {
      forall i | 0 <= i < |z| ensures z[i] == 0.0 {
        assert Add(z, v)[i] == v[i];
      }
    }
  }

  lemma UnusedIff(server: LiveServer, aggregate: seq<real>)
    requires |server.model| == server.dim + 1 == |aggregate|
    ensures Unused(server) <==> Add(server.model, aggregate) == aggregate && server.history == []
  {
    AddToZero(server.model, aggregate);
    if Add(server.model, aggregate) == aggregate {
      assert server.model == ZeroServer(server.dim).model;
    }
  }

  lemma BuildsIffAgrees(cfg: Config, before: Mem, op: Op, done: Executed, s: Store)
    requires Execute(cfg, before, op) == Some(done) && op.Round? && IsFresh(s, done.bundle) && ServersOk(s)
    ensures BuildsOn(s, Write(s, done.bundle, s.budget), RoundKey(op.req), op.result.aggregate) <==>
              Agrees(s, ServerIn(before, RoundKey(op.req), op.dim), RoundKey(op.req))
  {
    var key := RoundKey(op.req);
    var server := ServerIn(before, key, op.dim);
    RoundWrite(cfg, before, op, done);
    WrittenRows(s, done.bundle, key);
    if key in s.servers {
      assert RowOk(s.servers[key]);
      if server.dim == s.servers[key].dim && op.result.model == Add(s.servers[key].model, op.result.aggregate) {
        AddCancels(server.model, s.servers[key].model, op.result.aggregate);
      }
    } else {
      UnusedIff(server, op.result.aggregate);
    }
  }

  /** A version that was stored and has the current counter is the current one. */
  lemma CounterMeansCurrent(cfg: Config, used: set<string>, history: seq<Store>, key: string, row: ServerRow)
    requires HistoryInv(cfg, used, history) && WasStored(history, key, row)
    ensures key in Current(history).servers
    ensures row.rounds == Current(history).servers[key].rounds ==> row == Current(history).servers[key]
  {
    var i :| StoredAt(history, i, key, row);
    RoundsIdentify(cfg, used, history, i, |history| - 1, key);
  }

  lemma SavedAgrees(cfg: Config, history: seq<Store>, used: set<string>, before: Mem, op: Op, done: Executed,
                    dirty: set<string>)
    requires HistoryInv(cfg, used, history) && AllSaved(history, before.servers, dirty)
    requires Execute(cfg, before, op) == Some(done) && op.Round? && IsFresh(Current(history), done.bundle)
    requires RoundKey(op.req) !in dirty
    ensures Agrees(Current(history), ServerIn(before, RoundKey(op.req), op.dim), RoundKey(op.req))
  {
    var key, s := RoundKey(op.req), Current(history);
    RoundWrite(cfg, before, op, done);
    assert Saved(history, before.servers, dirty, key);
    assert StateAt(cfg, used, history, |history| - 1);
    assert key in s.servers ==> RowOk(s.servers[key]);
    if key in before.servers && !Unused(before.servers[key]) {
      CounterMeansCurrent(cfg, used, history, key, EncodeServer(before.servers[key]));
    }
  }

  /**
   * Over every run, refused rounds, failed evaluations and failed reloads included: a round that commits builds on the
   * stored server if its key holds no unsaved work, and otherwise only if the unsaved server happens to agree with the
   * stored one.
   */
  lemma RoundBuildsIff(cfg: Config, g: System, p: nat)
    requires LawfulConfig(cfg) && Reachable(cfg, g) && p < |g.procs| && g.history != []
    requires g.procs[p].pc.Open? && Checked(g.procs[p].pc) && CanCommit(Current(g.history), g.procs[p].pc)
    requires g.procs[p].pc.op.Round?
    ensures var op, s := g.procs[p].pc.op, Current(g.history);
            var key := RoundKey(op.req);
            BuildsOn(s, Current(Step(cfg, g, p, Finish).history), key, op.result.aggregate) <==>
              key !in g.procs[p].record.dirty || Agrees(s, ServerIn(g.procs[p].pc.before, key, op.dim), key)
  {
    var pc, s := g.procs[p].pc, Current(g.history);
    var done := Executed(g.procs[p].mem, pc.bundle);
    CommitsSerialize(cfg, g, p);
    HistoryIsSerial(cfg, g);
    ReachableInv(cfg, g);
    BuildsIffAgrees(cfg, pc.before, pc.op, done, s);
    if RoundKey(pc.op.req) !in g.procs[p].record.dirty {
      ReachableLineage(cfg, g, p);
      SavedAgrees(cfg, g.history, g.used, pc.before, pc.op, done, g.procs[p].record.dirty);
    }
  }

  /** In particular every round of a platform that has lost no call since its last complete load, whatever it saw. */
  lemma UnspoiledRoundBuilds(cfg: Config, g: System, p: nat)
    requires LawfulConfig(cfg) && Reachable(cfg, g) && p < |g.procs| && g.history != []
    requires g.procs[p].pc.Open? && Checked(g.procs[p].pc) && CanCommit(Current(g.history), g.procs[p].pc)
    requires g.procs[p].pc.op.Round? && NothingLost(g.procs[p].record.standing)
    ensures var op := g.procs[p].pc.op;
            var s, s' := Current(g.history), Current(Step(cfg, g, p, Finish).history);
            BuildsOn(s, s', RoundKey(op.req), op.result.aggregate)
  {
    ReachableProc(cfg, g, p);
    RoundBuildsIff(cfg, g, p);
  }

  lemma ReachableLineage(cfg: Config, g: System, p: nat)
    requires Reachable(cfg, g) && p < |g.procs|
    ensures Lineage(cfg, g.history, g.procs[p])
  {
    var limits, moves :| LeadsTo(cfg, limits, moves, g);
    RunLineage(cfg, limits, moves);
    assert LineageAt(cfg, g, p);
  }

  /**
   * A platform whose reload raised goes on with the loaded governance, budget and log and its own servers. The store
   * accepts its next round exactly when the counters are equal or the store has no such server, and the round then
   * builds on the stored server exactly when the two agree.
   */
  lemma RoundAfterFailedReload(cfg: Config, mem: Mem, s: Store, op: Op, done: Executed)
    requires s.budget.Some? && ServersOk(s) && op.Round? && Execute(cfg, HalfLoaded(mem, s), op) == Some(done)
    ensures var key := RoundKey(op.req);
            var server := ServerIn(mem, key, op.dim);
            && (IsFresh(s, done.bundle) <==>
                  (key in s.servers ==> s.servers[key].rounds == |server.history|))
            && (IsFresh(s, done.bundle) ==>
                  (BuildsOn(s, Write(s, done.bundle, s.budget), key, op.result.aggregate) <==> Agrees(s, server, key)))
  {
    var half := HalfLoaded(mem, s);
    RoundWrite(cfg, half, op, done);
    HalfLoadedProofs(cfg, half, s, op, done);
    if IsFresh(s, done.bundle) {
      BuildsIffAgrees(cfg, half, op, done, s);
    }
  }

  lemma HalfLoadedProofs(cfg: Config, half: Mem, s: Store, op: Op, done: Executed)
    requires s.budget.Some? && half.accountant == s.budget.value && half.audit == s.audit
    requires Execute(cfg, half, op) == Some(done)
    ensures (done.bundle.budget.Some? ==> BudgetFresh(s.budget, done.bundle.budget.value)) && TipFresh(s, done.bundle)
  {
  }
}
