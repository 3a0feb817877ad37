/** Reachable runs built call by call, without interference: three members joined, and a second platform started. */
module StoreRuns {
  import opened Foundations
  import opened DifferentialPrivacy
  import opened Storage
  import opened PlatformOps
  import opened StoreSerial
  import opened StoreProtocol
  import opened StoreTheorems
  import opened StoreGuarantees
  import opened ThreeMembers
  import Audit

  // ---- identifiers ----

  /** The identifiers drawn in these runs, told apart by their length. */
  function Id(n: nat): (id: string)
    ensures |id| == n
  {
    seq(n, _ => 'x')
  }

  predicate Short(used: set<string>, n: nat) {
    forall id :: id in used ==> |id| <= n
  }

  lemma NextId(op: Op, used: set<string>, n: nat)
    requires Short(used, n) && IdOf(op) == Some(Id(n + 1))
    ensures FreshIds(op, used) && Short(UsedAfter(op, used), n + 1)
  {
  }

  // ---- one call without interference ----

  lemma Go(cfg: Config, g: System, p: nat, a: Action) returns (g': System)
    requires Reachable(cfg, g) && p < |g.procs| && LoadsInOrder(a)
    ensures Reachable(cfg, g') && g.history != [] && g' == Step(cfg, g, p, a) && |g'.procs| == |g.procs|
  {
    var limits, moves :| LeadsTo(cfg, limits, moves, g);
    var longer := moves + [Move(p, a)];
    assert longer[..|moves|] == moves;
    g' := Step(cfg, g, p, a);
    assert LeadsTo(cfg, limits, longer, g');
  }

  ghost predicate Starts(cfg: Config, g: System, p: nat, op: Op, done: Executed) {
    && g.history != [] && p < |g.procs| && g.procs[p].pc == Idle && FreshIds(op, g.used)
    && Execute(cfg, g.procs[p].mem, op) == Some(done)
  }

  /** The platform can run the call now, and the store will accept its bundle. */
  ghost predicate Runs(cfg: Config, g: System, p: nat, op: Op, done: Executed) {
    && Starts(cfg, g, p, op, done) && IsFresh(Current(g.history), done.bundle)
    && (done.bundle.server.Some? ==> done.bundle.budget.Some?)
  }

  /** The call has begun, and nothing else has happened. */
  function Within(g: System, p: nat, op: Op, proc: Proc): System
    requires p < |g.procs|
  {
    System(g.history, UsedAfter(op, g.used), g.procs[p := proc], g.astray)
  }

  function BegunBy(proc: Proc, op: Op, done: Executed): Proc {
    proc.(mem := done.mem, pc := Open(op, proc.mem, done.bundle, NotYet, NotYet))
  }

  /** The call's transaction after its reads of the current rows. */
  function Ready(s: Store, proc: Proc, op: Op, done: Executed): Proc {
    var server := if done.bundle.server.Some? then Read(ServerRowOf(s, done.bundle.server.value.key)) else NotYet;
    proc.(mem := done.mem,
          pc := Open(op, proc.mem, done.bundle, if done.bundle.budget.Some? then Read(s.budget) else NotYet, server))
  }

  lemma BeginStep(cfg: Config, g: System, p: nat, op: Op, done: Executed)
    requires Starts(cfg, g, p, op, done)
    ensures Step(cfg, g, p, Begin(op)) == Within(g, p, op, BegunBy(g.procs[p], op, done))
  {
  }

  lemma UpdateTwice<T>(s: seq<T>, p: nat, x: T, y: T)
    requires p < |s|
    ensures s[p := x][p := y] == s[p := y]
  {
  }

  lemma ReadBudgetStep(cfg: Config, g: System, p: nat)
    requires g.history != [] && p < |g.procs| && g.procs[p].pc.Open? && g.procs[p].pc.budget == NotYet
    requires IsFresh(Current(g.history), g.procs[p].pc.bundle)
    ensures var pc := g.procs[p].pc;
            var budget := if pc.bundle.budget.Some? then Read(Current(g.history).budget) else NotYet;
            Step(cfg, g, p, ReadBudget) == g.(procs := g.procs[p := g.procs[p].(pc := pc.(budget := budget))])
  {
    assert g.procs[p := g.procs[p]] == g.procs;
  }

  lemma ReadServerStep(cfg: Config, g: System, p: nat)
    requires g.history != [] && p < |g.procs| && g.procs[p].pc.Open? && g.procs[p].pc.server == NotYet
    requires IsFresh(Current(g.history), g.procs[p].pc.bundle)
    requires g.procs[p].pc.bundle.server.Some? ==> g.procs[p].pc.budget.Read?
    ensures var pc, s := g.procs[p].pc, Current(g.history);
            var server := if pc.bundle.server.Some? then Read(ServerRowOf(s, pc.bundle.server.value.key)) else NotYet;
            Step(cfg, g, p, ReadServer) == g.(procs := g.procs[p := g.procs[p].(pc := pc.(server := server))])
  {
    assert g.procs[p := g.procs[p]] == g.procs;
  }

  lemma ReadSteps(cfg: Config, g: System, begun: System, p: nat, op: Op, done: Executed)
    requires Runs(cfg, g, p, op, done) && begun == Within(g, p, op, BegunBy(g.procs[p], op, done))
    ensures Step(cfg, Step(cfg, begun, p, ReadBudget), p, ReadServer)
         == Within(g, p, op, Ready(Current(g.history), g.procs[p], op, done))
  {
    ReadBudgetStep(cfg, begun, p);
    var read := Step(cfg, begun, p, ReadBudget);
    UpdateTwice(g.procs, p, begun.procs[p], read.procs[p]);
    ReadServerStep(cfg, read, p);
    UpdateTwice(g.procs, p, read.procs[p], Ready(Current(g.history), g.procs[p], op, done));
  }

  /** The call runs up to its commit. */
  lemma Prepare(cfg: Config, g: System, p: nat, op: Op, done: Executed) returns (g': System)
    requires Reachable(cfg, g) && Runs(cfg, g, p, op, done)
    ensures Reachable(cfg, g') && g' == Within(g, p, op, Ready(Current(g.history), g.procs[p], op, done))
  {
    BeginStep(cfg, g, p, op, done);
    var begun := Go(cfg, g, p, Begin(op));
    ReadSteps(cfg, g, begun, p, op, done);
    g' := Go(cfg, begun, p, ReadBudget);
    g' := Go(cfg, g', p, ReadServer);
  }

  lemma ReadyCommits(cfg: Config, g: System, p: nat, op: Op, done: Executed)
    requires Runs(cfg, g, p, op, done)
    ensures var s := Current(g.history);
            var pc := Ready(s, g.procs[p], op, done).pc;
            Checked(pc) && CanCommit(s, pc) && Write(s, done.bundle, SeenBudget(pc)) == Write(s, done.bundle, s.budget)
  {
  }

  /** The platform after its commit. */
  function Done(proc: Proc, op: Op, done: Executed, view: nat): Proc {
    Proc(view, done.mem, Idle, SettledRecord(done.bundle, op, proc.record))
  }

  lemma ReadyStep(cfg: Config, g: System, ready: System, p: nat, op: Op, done: Executed)
    requires Runs(cfg, g, p, op, done) && ready == Within(g, p, op, Ready(Current(g.history), g.procs[p], op, done))
    ensures var s, g' := Current(g.history), Step(cfg, ready, p, Finish);
            && g'.history == g.history + [Write(s, done.bundle, s.budget)] && g'.used == UsedAfter(op, g.used)
            && g'.procs == g.procs[p := Done(g.procs[p], op, done, |g.history|)]
  {
    ReadyCommits(cfg, g, p, op, done);
    UpdateTwice(g.procs, p, ready.procs[p], Done(g.procs[p], op, done, |g.history|));
  }

  /** The call runs and commits. */
  lemma Serve(cfg: Config, g: System, p: nat, op: Op, done: Executed) returns (g': System)
    requires Reachable(cfg, g) && Runs(cfg, g, p, op, done)
    ensures var s := Current(g.history);
            && Reachable(cfg, g')
            && g'.history == g.history + [Write(s, done.bundle, s.budget)] && g'.used == UsedAfter(op, g.used)
            && g'.procs == g.procs[p := Done(g.procs[p], op, done, |g.history|)]
  {
    var ready := Prepare(cfg, g, p, op, done);
    ReadyStep(cfg, g, ready, p, op, done);
    g' := Go(cfg, ready, p, Finish);
  }

  lemma LoseStep(cfg: Config, g: System, p: nat, op: Op)
    requires g.history != [] && p < |g.procs| && g.procs[p].pc == Idle && FreshIds(op, g.used)
    ensures Step(cfg, g, p, Lose(op)) == Within(g, p, op, Lost(cfg, g.procs[p], op))
  {
  }

  /** The call is lost. */
  lemma LoseCall(cfg: Config, g: System, p: nat, op: Op, n: nat) returns (g': System)
    requires Reachable(cfg, g) && g.history != [] && p < |g.procs| && g.procs[p].pc == Idle && Short(g.used, n)
    requires IdOf(op) == Some(Id(n + 1))
    ensures Reachable(cfg, g') && g'.history == g.history && Short(g'.used, n + 1)
    ensures g'.procs == g.procs[p := Lost(cfg, g.procs[p], op)]
  {
    NextId(op, g.used, n);
    LoseStep(cfg, g, p, op);
    g' := Go(cfg, g, p, Lose(op));
  }

  // ---- the first platform joins three members ----

  /** Two platforms; the first has done governance calls only, and they are all that was ever committed. */
  ghost predicate Founded(cfg: Config, g: System, mem: Mem) {
    && Reachable(cfg, g) && g.history != [] && g.used == mem.orgs.Keys && Current(g.history) == Mirror(mem)
    && g.procs == [Proc(|g.history| - 1, mem, Idle, CLEAN), Proc(0, NewMem(DEFAULT_LIMIT), Idle, CLEAN)]
    && mem.accountant == Fresh(DEFAULT_LIMIT) && mem.servers == map[]
  }

  lemma CleanStays(b: Bundle, op: Op)
    ensures SettledRecord(b, op, CLEAN) == CLEAN
  {
    assert {} - KeysOf(op) == {} && {} - Rewrites(op) == {};
  }

  /** A founder's call on the store it mirrors. */
  lemma FounderServes(cfg: Config, g: System, mem: Mem, op: Op, done: Executed) returns (g': System)
    requires Founded(cfg, g, mem) && Runs(cfg, g, 0, op, done)
    ensures Reachable(cfg, g') && g'.used == UsedAfter(op, g.used)
    ensures g'.history == g.history + [Write(Mirror(mem), done.bundle, None)]
    ensures g'.procs == [Proc(|g.history|, done.mem, Idle, CLEAN), g.procs[1]]
  {
    g' := Serve(cfg, g, 0, op, done);
    CleanStays(done.bundle, op);
  }

  lemma Start(cfg: Config) returns (g: System)
    ensures Founded(cfg, g, NewMem(DEFAULT_LIMIT))
  {
    var limits := [DEFAULT_LIMIT, DEFAULT_LIMIT];
    g := Initial(limits);
    assert LeadsTo(cfg, limits, [], g);
    assert Mirror(NewMem(DEFAULT_LIMIT)) == EMPTY;
  }

  lemma GovernRuns(cfg: Config, g: System, mem: Mem, op: Op, done: Executed)
    requires Founded(cfg, g, mem) && Governs(cfg, mem, op, done) && FreshIds(op, g.used)
    ensures Runs(cfg, g, 0, op, done)
  {
    OtherWrite(cfg, mem, op, done);
  }

  lemma Govern(cfg: Config, g: System, mem: Mem, op: Op, done: Executed) returns (g': System)
    requires Founded(cfg, g, mem) && Governs(cfg, mem, op, done) && FreshIds(op, g.used)
    ensures Founded(cfg, g', done.mem) && |g'.history| == |g.history| + 1
    ensures g'.history[..|g.history|] == g.history
  {
    GovernRuns(cfg, g, mem, op, done);
    g' := FounderServes(cfg, g, mem, op, done);
  }

  ghost predicate FoundedBy(cfg: Config, g: System, mem: Mem, ids: seq<OrgId>) {
    Founded(cfg, g, mem) && MembersLive(mem.orgs, ids) && Defaults(mem.policies, ids)
  }

  lemma JoinLast(cfg: Config, g: System, mem: Mem, ids: seq<OrgId>, last: OrgId) returns (g': System, mem': Mem)
    requires ids != [] && last == ids[|ids| - 1] && NoDuplicates(ids)
    requires FoundedBy(cfg, g, mem, ids[..|ids| - 1])
    ensures FoundedBy(cfg, g', mem', ids) && mem'.audit != []
  {
    DistinctLast(ids);
    MembersGrow(mem.orgs, mem.policies, ids, last);
    var done := JoinWrites(cfg, mem, last);
    g' := Govern(cfg, g, mem, JoinOp(last), done);
    mem' := done.mem;
  }

  /** Joins in this order lead to a platform governing exactly these members with their default consents. */
  lemma {:induction false} JoinAll(cfg: Config, ids: seq<OrgId>) returns (g: System, mem: Mem)
    requires NoDuplicates(ids)
    ensures FoundedBy(cfg, g, mem, ids) && (ids != [] ==> mem.audit != [])
  {
    if ids == [] {
      g := Start(cfg);
      mem := NewMem(DEFAULT_LIMIT);
    } else {
      DistinctLast(ids);
      g, mem := JoinAll(cfg, ids[..|ids| - 1]);
      g, mem := JoinLast(cfg, g, mem, ids, ids[|ids| - 1]);
    }
  }

  lemma NamesShort(used: set<string>)
    requires used == Elements(NAMES)
    ensures Short(used, 1)
  {
    assert forall id :: id in used ==> id in NAMES;
  }

  lemma ThreeJoined(cfg: Config) returns (g: System, mem: Mem)
    ensures FoundedBy(cfg, g, mem, NAMES) && mem.audit != [] && Governing(mem) && Short(g.used, 1)
  {
    NamesAscend();
    g, mem := JoinAll(cfg, NAMES);
    NamesShort(g.used);
  }

  lemma FreshOnMirror(mem: Mem, b: Bundle)
    requires b.entry.prevHash == Audit.Tip(mem.audit)
    ensures IsFresh(Mirror(mem), b)
  {
  }

  /** A call on a store that still mirrors the founder. */
  lemma ServeOnMirror(cfg: Config, g: System, p: nat, mem: Mem, op: Op, done: Executed) returns (g': System)
    requires Reachable(cfg, g) && Runs(cfg, g, p, op, done) && Current(g.history) == Mirror(mem)
    ensures Reachable(cfg, g') && g'.history != [] && Current(g'.history) == Write(Mirror(mem), done.bundle, None)
    ensures g'.used == UsedAfter(op, g.used) && |g'.history| == |g.history| + 1
    ensures g'.history[..|g.history|] == g.history
    ensures g'.procs == g.procs[p := Done(g.procs[p], op, done, |g.history|)]
  {
    g' := Serve(cfg, g, p, op, done);
  }

  // ---- the second platform starts ----

  /** The load finds the latest state throughout. */
  lemma SnapshotTorn(history: seq<Store>, n: nat)
    requires n + 1 == |history|
    ensures var t := LoadTimes(n, n, n, n, n, n);
            Between(0, t, |history|) && CodeOrder(t) && Coherent(history, t) && Torn(history, t) == Current(history)
  {
    UndisturbedIsCoherent(history, LoadTimes(n, n, n, n, n, n));
  }

  /** The second platform, if it has started, has loaded the members and done nothing else. */
  ghost predicate SecondLoaded(g: System, mem: Mem)
    requires |g.procs| == 2
  {
    var q := g.procs[1];
    && q.pc == Idle && q.record.dirty == {} && Governing(q.mem) && q.mem.servers == map[]
    && Decodable(Mirror(mem))
  }

  /** The second platform starts on the store of the three members. */
  lemma SecondStarts(cfg: Config, g: System, mem: Mem) returns (g': System)
    requires FoundedBy(cfg, g, mem, NAMES) && mem.audit != []
    ensures Reachable(cfg, g') && |g'.procs| == 2 && g'.history == g.history && g'.used == g.used
    ensures g'.procs[0] == g.procs[0] && SecondLoaded(g', mem)
  {
    var n := |g.history| - 1;
    SnapshotTorn(g.history, n);
    LoadGoverns(mem, Mirror(mem), DEFAULT_LIMIT);
    g' := Go(cfg, g, 1, Boot(DEFAULT_LIMIT, LoadTimes(n, n, n, n, n, n)));
  }
}
