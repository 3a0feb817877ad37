/** Persisted rows, their codec, and loading (sentrylink/storage/store.py, sentrylink/storage/codec.py). */
module Storage {
  import opened Foundations
  import opened DifferentialPrivacy
  import Audit
  import Federated
  import Policy

  // ---- live objects and the rows that stand for them ----

  datatype LiveOrg = LiveOrg(org: Policy.Organization, apiKey: string, keyHash: string, salt: string)

  datatype OrgRow = OrgRow(org: Policy.Organization, keyHash: string, salt: string)

  datatype LiveServer = LiveServer(dim: nat, model: seq<real>, history: seq<Federated.RoundResult>)

  datatype ServerRow = ServerRow(dim: nat, model: seq<real>, rounds: int)

  /** Everything a store holds; a round row is the round result itself, an audit row the entry. */
  datatype Store = Store(
    orgs: map<OrgId, OrgRow>,
    policies: map<OrgId, Policy.ConsentPolicy>,
    budget: Option<Accountant>,
    servers: map<string, ServerRow>,
    rounds: map<string, seq<Federated.RoundResult>>,
    audit: seq<Audit.Entry>)

  const EMPTY: Store := Store(map[], map[], None, map[], map[], [])

  predicate IsEmpty(s: Store) {
    s.orgs == map[] && s.budget.None? && s.audit == [] && s.servers == map[] && s.rounds == map[]
  }

  function RoundRows(s: Store, key: string): seq<Federated.RoundResult> {
    if key in s.rounds then s.rounds[key] else []
  }

  /** The plaintext key is never persisted. */
  function EncodeOrg(o: LiveOrg): OrgRow {
    OrgRow(o.org, o.keyHash, o.salt)
  }

  function DecodeOrg(r: OrgRow): LiveOrg {
    LiveOrg(r.org, "", r.keyHash, r.salt)
  }

  /** A stored organization comes back as it was, but for its plaintext key. */
  lemma OrgRoundTrip(o: LiveOrg, r: OrgRow)
    ensures DecodeOrg(EncodeOrg(o)) == o.(apiKey := "")
    ensures EncodeOrg(DecodeOrg(r)) == r
  {
  }

  function EncodeServer(server: LiveServer): ServerRow {
    ServerRow(server.dim, server.model, |server.history|)
  }

  predicate SizedRound(r: Federated.RoundResult, dim: nat) {
    |r.aggregate| == dim + 1 && |r.model| == dim + 1
  }

  predicate SizedRounds(rows: seq<Federated.RoundResult>, dim: nat) {
    forall k :: 0 <= k < |rows| ==> SizedRound(rows[k], dim)
  }

  /** Rebuilding a server: the vectors must have the stored dimension, and the counter must match the rows. */
  function DecodeServer(row: ServerRow, rows: seq<Federated.RoundResult>): Result<LiveServer, Error> {
    if |row.model| != row.dim + 1 || !SizedRounds(rows, row.dim) then Err(ValueError)
    else if |rows| != row.rounds then Err(AssertionFailed)
    else Ok(LiveServer(row.dim, row.model, rows))
  }

  lemma ServerRoundTrip(server: LiveServer)
    requires |server.model| == server.dim + 1 && SizedRounds(server.history, server.dim)
    ensures DecodeServer(EncodeServer(server), server.history) == Ok(server)
  {
  }

  // ---- a platform's memory ----

  datatype Mem = Mem(
    orgs: map<OrgId, LiveOrg>,
    policies: map<OrgId, Policy.ConsentPolicy>,
    accountant: Accountant,
    audit: seq<Audit.Entry>,
    servers: map<string, LiveServer>)

  const DEFAULT_LIMIT: PrivacyBudget := PrivacyBudget(800.0, 0.001)

  function NewMem(limit: PrivacyBudget): Mem {
    Mem(map[], map[], Fresh(limit), [], map[])
  }

  predicate Decodable(s: Store) {
    forall key :: key in s.servers ==> DecodeServer(s.servers[key], RoundRows(s, key)).Ok?
  }

  function DecodeServers(s: Store): (r: map<string, LiveServer>)
    requires Decodable(s)
    ensures r.Keys == s.servers.Keys
    ensures forall key :: key in r ==> DecodeServer(s.servers[key], RoundRows(s, key)) == Ok(r[key])
  {
    map key | key in s.servers :: DecodeServer(s.servers[key], RoundRows(s, key)).value
  }

  function DecodeOrgs(s: Store): (r: map<OrgId, LiveOrg>)
    ensures r.Keys == s.orgs.Keys && forall id :: id in r ==> r[id] == DecodeOrg(s.orgs[id])
  {
    map id | id in s.orgs :: DecodeOrg(s.orgs[id])
  }

  /** Policies of unknown organizations are skipped. */
  function KnownPolicies(s: Store): (r: map<OrgId, Policy.ConsentPolicy>)
    ensures r.Keys == s.policies.Keys * s.orgs.Keys && forall id :: id in r ==> r[id] == s.policies[id]
  {
    map id | id in s.policies.Keys * s.orgs.Keys :: s.policies[id]
  }

  /** Live objects from a non-empty store; the accountant is replaced only when a budget row exists. */
  function Load(mem: Mem, s: Store): Mem
    requires Decodable(s)
  {
    HalfLoaded(mem, s).(servers := DecodeServers(s))
  }

  /** Memory when rebuilding a server raises: everything loaded before the servers is already replaced. */
  function HalfLoaded(mem: Mem, s: Store): Mem {
    Mem(DecodeOrgs(s), KnownPolicies(s), if s.budget.Some? then s.budget.value else mem.accountant, s.audit,
        mem.servers)
  }

  /** Memory after a failed commit; None when rebuilding a server raises. */
  function Reload(mem: Mem, s: Store): Option<Mem> {
    if IsEmpty(s) then Some(NewMem(DEFAULT_LIMIT))
    else if Decodable(s) then Some(Load(mem, s))
    else None
  }

  /** Memory of a newly constructed platform; an empty store leaves the constructor's objects. */
  function Construct(limit: PrivacyBudget, s: Store): Option<Mem> {
    if IsEmpty(s) then Some(NewMem(limit))
    else if Decodable(s) then Some(Load(NewMem(limit), s))
    else None
  }

  // ---- what a bundle writes ----

  datatype BudgetWrite = BudgetWrite(data: Accountant, expectSpent: PrivacyBudget)

  datatype ServerWrite = ServerWrite(key: string, row: ServerRow, expectRounds: int, round: Federated.RoundResult)

  datatype Bundle = Bundle(
    org: Option<OrgRow>,
    policy: Option<(OrgId, Policy.ConsentPolicy)>,
    budget: Option<BudgetWrite>,
    server: Option<ServerWrite>,
    entry: Audit.Entry)

  predicate HasId(events: seq<Event>, id: string) {
    exists k :: 0 <= k < |events| && events[k].id == id
  }

  /** The incoming events whose id is not among the existing ones, in order. */
  function Unseen(existing: seq<Event>, incoming: seq<Event>): (r: seq<Event>)
  {
    if incoming == [] then []
    else
      var rest := Unseen(existing, incoming[..|incoming| - 1]);
      var last := incoming[|incoming| - 1];
      if HasId(existing, last.id) then rest else rest + [last]
  }

  /** Union by id: stored events first, then the incoming ones not yet stored. */
  function MergeEvents(existing: seq<Event>, incoming: seq<Event>): (r: seq<Event>)
    ensures existing <= r
  {
    existing + Unseen(existing, incoming)
  }

  /** Nothing stored is lost or moved; an incoming event is added as often as it comes, unless its id is stored. */
  lemma {:induction false} MergeCounts(existing: seq<Event>, incoming: seq<Event>, e: Event)
    ensures existing <= MergeEvents(existing, incoming)
    ensures multiset(MergeEvents(existing, incoming))[e]
         == multiset(existing)[e] + (if HasId(existing, e.id) then 0 else multiset(incoming)[e])
  {
    if incoming == [] {
      assert MergeEvents(existing, incoming) == existing;
    } else {
      var init, last := incoming[..|incoming| - 1], incoming[|incoming| - 1];
      MergeCounts(existing, init, e);
      assert incoming == init + [last];
      assert MergeEvents(existing, incoming)
          == if HasId(existing, last.id) then MergeEvents(existing, init) else MergeEvents(existing, init) + [last];
    }
  }

  ghost predicate DistinctIds(events: seq<Event>) {
    forall i, j :: 0 <= i < j < |events| ==> events[i].id != events[j].id
  }

  lemma {:induction false} UnseenOfPrefix(existing: seq<Event>, incoming: seq<Event>)
    requires incoming <= existing
    ensures Unseen(existing, incoming) == []
  {
    if incoming != [] {
      UnseenOfPrefix(existing, incoming[..|incoming| - 1]);
      assert existing[|incoming| - 1].id == incoming[|incoming| - 1].id;
    }
  }

  /** Events that extend the stored list are merged without loss and without repetition. */
  lemma {:induction false} MergeOfExtension(existing: seq<Event>, incoming: seq<Event>)
    requires existing <= incoming && DistinctIds(incoming)
    ensures MergeEvents(existing, incoming) == incoming
    decreases |incoming|
  {
    if |incoming| == |existing| {
      UnseenOfPrefix(existing, incoming);
    } else {
      var init, last := incoming[..|incoming| - 1], incoming[|incoming| - 1];
      MergeOfExtension(existing, init);
      assert !HasId(existing, last.id) by {
        forall k | 0 <= k < |existing| ensures existing[k].id != last.id {
          assert existing[k] == incoming[k];
        }
      }
    }
  }

  /** The row a budget write leaves, given the row that was read. */
  function BudgetAfter(seen: Option<Accountant>, w: BudgetWrite): Accountant {
    match seen
    case None => w.data
    case Some(row) => w.data.(events := MergeEvents(row.events, w.data.events))
  }

  /** All writes of a bundle; `seen` is the budget row its freshness check read. */
  function Write(s: Store, b: Bundle, seen: Option<Accountant>): Store {
    Store(
      if b.org.Some? then s.orgs[b.org.value.org.orgId := b.org.value] else s.orgs,
      if b.policy.Some? then s.policies[b.policy.value.0 := b.policy.value.1] else s.policies,
      if b.budget.Some? then Some(BudgetAfter(seen, b.budget.value)) else s.budget,
      if b.server.Some? then s.servers[b.server.value.key := b.server.value.row] else s.servers,
      if b.server.Some? then s.rounds[b.server.value.key := RoundRows(s, b.server.value.key) + [b.server.value.round]]
      else s.rounds,
      s.audit + [b.entry])
  }

  // ---- the freshness proofs ----

  predicate BudgetFresh(row: Option<Accountant>, w: BudgetWrite) {
    row.Some? ==> row.value.spent == w.expectSpent
  }

  function ServerRowOf(s: Store, key: string): Option<ServerRow> {
    if key in s.servers then Some(s.servers[key]) else None
  }

  predicate ServerFresh(row: Option<ServerRow>, w: ServerWrite) {
    row.Some? ==> row.value.rounds == w.expectRounds
  }

  predicate TipFresh(s: Store, b: Bundle) {
    Audit.Tip(s.audit) == b.entry.prevHash
  }

  /** Every proof the bundle carries holds in `s`. */
  predicate IsFresh(s: Store, b: Bundle) {
    && (b.budget.Some? ==> BudgetFresh(s.budget, b.budget.value))
    && (b.server.Some? ==> ServerFresh(ServerRowOf(s, b.server.value.key), b.server.value))
    && TipFresh(s, b)
  }
}
