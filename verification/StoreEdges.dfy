/** What a commit may leave behind: when the store stays loadable, and what a failed commit does to the accountant. */
module StoreEdges {
  import opened Approvals
  import opened DifferentialPrivacy
  import opened Storage
  import opened PlatformOps
  import opened StoreSerial
  import opened StoreProtocol
  import opened StoreTheorems
  import opened StoreGuarantees

  /**
   * Exactly when a commit leaves a loadable store loadable: unless it is a round whose server has another dimension
   * than the stored one, or the first stored round of a server that already had a history of its own.
   */
  lemma CommitKeepsStoreLoadable(cfg: Config, g: System, p: nat)
    requires LawfulConfig(cfg) && Reachable(cfg, g) && p < |g.procs| && g.history != []
    requires g.procs[p].pc.Open? && Checked(g.procs[p].pc) && CanCommit(Current(g.history), g.procs[p].pc)
    requires Decodable(Current(g.history))
    ensures var pc, s := g.procs[p].pc, Current(g.history);
            Decodable(Current(Step(cfg, g, p, Finish).history)) <==>
              (pc.op.Round? ==>
                 var key := RoundKey(pc.op.req);
                 var server := ServerIn(pc.before, key, pc.op.dim);
                 if key in s.servers then server.dim == s.servers[key].dim else server.history == [])
  {
    var pc := g.procs[p].pc;
    CommitsSerialize(cfg, g, p);
    HistoryIsSerial(cfg, g);
    StaysDecodableIff(cfg, pc.before, pc.op, Executed(g.procs[p].mem, pc.bundle), Current(g.history));
  }

  /** The charge of the call that was rolled back is still in memory. */
  ghost predicate HoldsAborted(cfg: Config, proc: Proc, before: Mem, op: Op) {
    && proc.pc.Restoring? && ChargeOf(cfg, op).Some?
    && proc.mem.accountant == Charged(before.accountant, ChargeOf(cfg, op).value)
  }

  lemma RolledBackHolds(cfg: Config, history: seq<Store>, used: set<string>, proc: Proc)
    requires history != [] && ProcInv(cfg, history, used, proc) && proc.pc.Open? && ChargeOf(cfg, proc.pc.op).Some?
    ensures HoldsAborted(cfg, RolledBack(history, proc), proc.pc.before, proc.pc.op)
  {
  }

  /**
   * After a failed commit and the reload that follows, whether that succeeds or raises midway, the accountant is the
   * loaded one if there was a budget row, a new one if the store was empty, and otherwise still the charged one: the
   * aborted spend then stays counted.
   */
  lemma AbortedChargeOutcome(cfg: Config, g: System, p: nat, t: LoadTimes)
    requires LawfulConfig(cfg) && Reachable(cfg, g) && p < |g.procs| && Between(0, t, |g.history|)
    requires g.procs[p].pc.Open? && ChargeOf(cfg, g.procs[p].pc.op).Some?
    ensures var s, pc := Torn(g.history, t), g.procs[p].pc;
            Restored(g.history, RolledBack(g.history, g.procs[p]), t).mem.accountant ==
              if IsEmpty(s) then Fresh(DEFAULT_LIMIT)
              else if s.budget.Some? then s.budget.value
              else Charged(pc.before.accountant, ChargeOf(cfg, pc.op).value)
  {
    ReachableProc(cfg, g, p);
    RolledBackHolds(cfg, g.history, g.used, g.procs[p]);
  }
}
