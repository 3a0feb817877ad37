/** One complete masked sum: clients, server, dropout recovery, opening. Rounds and evaluations both run it. */
module MaskedSum {
  import opened Foundations
  import opened Int64
  import opened SecureAggregation
  import opened AggregationCorrectness
  import opened Sums

  /** A roster member of a sub-round with the float vector it would contribute. */
  datatype Member = Member(orgId: OrgId, privateKey: Bytes, vector: seq<real>)

  function Ids(members: seq<Member>): (ids: seq<OrgId>)
    ensures |ids| == |members| && forall k :: 0 <= k < |ids| ==> ids[k] == members[k].orgId
  {
    seq(|members|, k requires 0 <= k < |members| => members[k].orgId)
  }

  /** The members not listed in `drop`, in roster order. */
  function Active(members: seq<Member>, drop: seq<OrgId>): (r: seq<Member>)
    ensures forall m :: m in r <==> m in members && m.orgId !in drop
  {
    if members == [] then []
    else
      var rest := Active(members[..|members| - 1], drop);
      var last := members[|members| - 1];
      if last.orgId in drop then rest else rest + [last]
  }

  /** Coordinate `c` of the quantized (optionally clipped) vector of a member. */
  function QuantizedAt(sqrt: real -> real, clip: Option<real>, c: nat): Member -> int {
    (m: Member) => if c < |m.vector| then Prepared(sqrt, m.vector, clip)[c] else 0
  }

  /** The integer sum a masked sum is meant to open at coordinate `c`. */
  function PlainSum(sqrt: real -> real, clip: Option<real>, active: seq<Member>, c: nat): int {
    Sum(active, QuantizedAt(sqrt, clip, c))
  }

  function Lookup(members: seq<Member>, id: OrgId): Member {
    if members == [] then Member(id, [], [])
    else if members[|members| - 1].orgId == id then members[|members| - 1]
    else Lookup(members[..|members| - 1], id)
  }

  lemma MemberIds(members: seq<Member>, id: OrgId)
    ensures id in Ids(members) <==> exists m :: m in members && m.orgId == id
  {
    if id in Ids(members) {
      var k :| 0 <= k < |members| && Ids(members)[k] == id;
      assert members[k] in members;
    }
    forall m | m in members && m.orgId == id ensures id in Ids(members) {
      var k :| 0 <= k < |members| && members[k] == m;
      assert Ids(members)[k] == id;
    }
  }

  lemma LastId(members: seq<Member>)
    requires members != []
    ensures Ids(members)[..|members| - 1] == Ids(members[..|members| - 1])
    ensures NoDuplicates(Ids(members)) <==>
              && NoDuplicates(Ids(members[..|members| - 1]))
              && members[|members| - 1].orgId !in Ids(members[..|members| - 1])
  {
    assert Ids(members)[..|members| - 1] == Ids(members[..|members| - 1]);
    DistinctLast(Ids(members));
  }

  lemma {:induction false} LookupFinds(members: seq<Member>, m: Member)
    requires NoDuplicates(Ids(members)) && m in members
    ensures Lookup(members, m.orgId) == m
  {
    var init, last := members[..|members| - 1], members[|members| - 1];
    if m != last {
      assert members == init + [last];
      LastId(members);
      MemberIds(init, m.orgId);
      LookupFinds(init, m);
    }
  }

  lemma {:induction false} ActiveDistinct(members: seq<Member>, drop: seq<OrgId>)
    requires NoDuplicates(Ids(members))
    ensures NoDuplicates(Ids(Active(members, drop)))
  {
    if members != [] {
      var init, last := members[..|members| - 1], members[|members| - 1];
      LastId(members);
      ActiveDistinct(init, drop);
      if last.orgId !in drop {
        MemberIds(init, last.orgId);
        MemberIds(Active(init, drop), last.orgId);
        assert Active(members, drop)[..|Active(init, drop)|] == Active(init, drop);
        LastId(Active(members, drop));
      }
    }
  }

  lemma {:induction false} SumOverIds(active: seq<Member>, f: OrgId -> int, g: Member -> int)
    requires forall m :: m in active ==> f(m.orgId) == g(m)
    ensures Sum(Ids(active), f) == Sum(active, g)
  {
    if active != [] {
      var init := active[..|active| - 1];
      assert Ids(active)[..|init|] == Ids(init);
      assert forall m :: m in init ==> m in active;
      SumOverIds(init, f, g);
    }
  }

  /** In round `r` member `m` uses its own key and its own prepared vector. */
  ghost predicate PlaysAs(r: Round, m: Member, clip: Option<real>) {
    r.key(m.orgId) == m.privateKey && r.update(m.orgId) == Prepared(r.prims.sqrt, m.vector, clip)
  }

  /** `r` is the honest round that `members` play with their prepared vectors. */
  ghost predicate Plays(r: Round, members: seq<Member>, clip: Option<real>) {
    r.roster == Ids(members) && forall m {:trigger PlaysAs(r, m, clip)} :: m in members ==> PlaysAs(r, m, clip)
  }

  function RoundOf(p: Primitives, roundId: string, members: seq<Member>, dim: nat, clip: Option<real>): Round {
    Round(p, roundId, Ids(members), dim, id => Lookup(members, id).privateKey,
          id => Prepared(p.sqrt, Lookup(members, id).vector, clip))
  }

  lemma RoundOfPlays(p: Primitives, roundId: string, members: seq<Member>, dim: nat, clip: Option<real>)
    requires NoDuplicates(Ids(members))
    ensures Plays(RoundOf(p, roundId, members, dim, clip), members, clip)
  {
    var r := RoundOf(p, roundId, members, dim, clip);
    forall m | m in members
      ensures PlaysAs(r, m, clip)
    {
      LookupFinds(members, m);
    }
  }

  /** What the opened value at `c` is worth once the protocol's theorem is applied to these members. */
  lemma OpensPlainSum(r: Round, members: seq<Member>, drop: seq<OrgId>, clip: Option<real>,
                      contributions: map<OrgId, Contribution>, seeds: map<(OrgId, OrgId), Bytes>, c: nat)
    requires Lawful(r.prims) && Plays(r, members, clip) && NoDuplicates(r.roster) && c < r.dim
    requires r.Contributed(contributions) && r.Revealed(contributions.Keys, seeds)
    requires contributions.Keys == Elements(Ids(Active(members, drop)))
    requires forall m :: m in Active(members, drop) ==> |m.vector| == r.dim
    ensures Enumerates(Ids(Active(members, drop)), contributions.Keys)
    ensures OpenedAt(r.prims, contributions, seeds, Ids(Active(members, drop)), r.DroppedFrom(contributions.Keys), c)
         == Wrap(PlainSum(r.prims.sqrt, clip, Active(members, drop), c))
  {
    var active := Active(members, drop);
    ActiveDistinct(members, drop);
    DistinctListEnumerates(Ids(active));
    AggregateIsExact(r, contributions, seeds, Ids(active), c);
    PlainSumOfUpdates(r, members, active, clip, c);
  }

  lemma OpensPlainSums(r: Round, members: seq<Member>, drop: seq<OrgId>, clip: Option<real>,
                       contributions: map<OrgId, Contribution>, seeds: map<(OrgId, OrgId), Bytes>,
                       order: seq<OrgId>, dropped: seq<OrgId>)
    requires Lawful(r.prims) && Plays(r, members, clip) && NoDuplicates(r.roster)
    requires r.Contributed(contributions) && r.Revealed(contributions.Keys, seeds)
    requires contributions.Keys == Elements(Ids(Active(members, drop)))
    requires forall m :: m in Active(members, drop) ==> |m.vector| == r.dim
    requires order == Ids(Active(members, drop)) && dropped == r.DroppedFrom(contributions.Keys)
    ensures Enumerates(order, contributions.Keys)
    ensures forall c {:trigger OpenedAt(r.prims, contributions, seeds, order, dropped, c)} :: 0 <= c < r.dim ==>
              OpenedAt(r.prims, contributions, seeds, order, dropped, c)
              == Wrap(PlainSum(r.prims.sqrt, clip, Active(members, drop), c))
  {
    ActiveDistinct(members, drop);
    DistinctListEnumerates(order);
    forall c | 0 <= c < r.dim
      ensures OpenedAt(r.prims, contributions, seeds, order, dropped, c)
           == Wrap(PlainSum(r.prims.sqrt, clip, Active(members, drop), c))
    {
      OpensPlainSum(r, members, drop, clip, contributions, seeds, c);
    }
  }

  lemma PlainSumOfUpdates(r: Round, members: seq<Member>, active: seq<Member>, clip: Option<real>, c: nat)
    requires Plays(r, members, clip) && c < r.dim
    requires forall m :: m in active ==> m in members && |m.vector| == r.dim
    ensures Sum(Ids(active), r.UpdateAt(c)) == PlainSum(r.prims.sqrt, clip, active, c)
  {
    var f, g := r.UpdateAt(c), QuantizedAt(r.prims.sqrt, clip, c);
    forall m | m in active ensures f(m.orgId) == g(m) {
      assert m in members && PlaysAs(r, m, clip);
    }
    SumOverIds(active, f, g);
  }

  // ---- the three loops of a round ----

  /** The server object serves round `r` of `members`. */
  ghost predicate Serves(agg: SecAggServer, r: Round, members: seq<Member>, clip: Option<real>)
    reads agg
  {
    && agg.Valid() && agg.prims == r.prims && agg.roster == r.roster && agg.roundId == r.roundId && agg.dim == r.dim
    && Plays(r, members, clip)
  }

  /** The registration loop: afterwards the server publishes the key of every roster member. */
  method RegisterAll(agg: SecAggServer, members: seq<Member>, ghost r: Round, ghost clip: Option<real>)
    requires Serves(agg, r, members, clip) && agg.keys == map[]
    modifies agg`keys
    ensures Serves(agg, r, members, clip) && agg.keys == r.PublicKeys()
  {
    for k := 0 to |members|
      invariant agg.Valid() && agg.keys == r.KeysOf(r.roster[..k])
    {
      var m := members[k];
      assert m in members && PlaysAs(r, m, clip);
      var _ := agg.Register(m.orgId, agg.prims.publicKey(m.privateKey));
      assert r.roster[..k + 1][..k] == r.roster[..k];
    }
    assert r.roster[..|members|] == r.roster;
  }

  lemma ContributedGrows(r: Round, contributions: map<OrgId, Contribution>, sent: Contribution)
    requires r.Contributed(contributions) && sent.orgId in r.roster
    requires r.SentBy(sent.orgId, sent)
    ensures r.Contributed(contributions[sent.orgId := sent])
  {
    var grown := contributions[sent.orgId := sent];
    forall i | i in grown ensures r.SentBy(i, grown[i]) {
      assert i != sent.orgId ==> r.SentBy(i, contributions[i]);
    }
  }

  /** One active member masks its vector and the server receives it. */
  method SendOne(agg: SecAggServer, members: seq<Member>, m: Member, clip: Option<real>, ghost r: Round)
    returns (ok: bool)
    requires Serves(agg, r, members, clip) && m in members && agg.keys == r.PublicKeys()
        && r.Contributed(agg.contributions)
    modifies agg`contributions
    ensures Serves(agg, r, members, clip) && r.Contributed(agg.contributions)
    ensures ok <==> |m.vector| == r.dim
    ensures agg.contributions.Keys
         == if ok then old(agg.contributions.Keys) + {m.orgId} else old(agg.contributions.Keys)
  {
    assert PlaysAs(r, m, clip);
    MemberIds(members, m.orgId);
    var client := NewClient(m.orgId, agg.roundId, agg.roster, agg.dim, m.privateKey).value;
    assert client == r.Client(m.orgId);
    r.KeysOfComplete(r.roster);
    assert agg.keys.Keys == Elements(agg.roster);
    var sent := MaskAndSend(agg.prims, client, m.vector, agg.keys, clip);
    if sent.Err? {
      return false;
    }
    assert r.SentBy(m.orgId, sent.value);
    ContributedGrows(r, agg.contributions, sent.value);
    var _ := agg.Receive(sent.value);
    return true;
  }

  lemma AllIdsPresent(active: seq<Member>, keys: set<OrgId>)
    requires keys <= Elements(Ids(active)) && forall i :: 0 <= i < |active| ==> active[i].orgId in keys
    ensures keys == Elements(Ids(active))
  {
  }

  /** Every active member masks and sends; stops at the first vector of the wrong dimension. */
  method CollectAll(agg: SecAggServer, members: seq<Member>, active: seq<Member>, clip: Option<real>, ghost r: Round)
    returns (ok: bool)
    requires Serves(agg, r, members, clip) && agg.keys == r.PublicKeys() && agg.contributions == map[]
    requires forall m :: m in active ==> m in members
    modifies agg`contributions
    ensures Serves(agg, r, members, clip) && r.Contributed(agg.contributions)
    ensures ok <==> forall m :: m in active ==> |m.vector| == r.dim
    ensures ok ==> agg.contributions.Keys == Elements(Ids(active))
  {
    ghost var ids := Elements(Ids(active));
    for k := 0 to |active|
      invariant agg.Valid() && r.Contributed(agg.contributions)
      invariant agg.contributions.Keys <= ids
      invariant forall i :: 0 <= i < k ==> active[i].orgId in agg.contributions
      invariant forall i :: 0 <= i < k ==> |active[i].vector| == r.dim
    {
      assert Ids(active)[k] in ids;
      var sent := SendOne(agg, members, active[k], clip, r);
      if !sent {
        assert active[k] in active;
        return false;
      }
    }
    AllIdsPresent(active, agg.contributions.Keys);
    return true;
  }

  /** Every stored recovery seed is the true seed of its pair. */
  ghost predicate Genuine(r: Round, seeds: map<(OrgId, OrgId), Bytes>) {
    forall i, j {:trigger PairKey(i, j)} :: PairKey(i, j) in seeds ==> seeds[PairKey(i, j)] == r.Seed(i, j)
  }

  lemma GenuineGrows(r: Round, seeds: map<(OrgId, OrgId), Bytes>, i: OrgId, j: OrgId)
    requires Lawful(r.prims) && Genuine(r, seeds)
    ensures Genuine(r, seeds[PairKey(i, j) := r.Seed(i, j)])
  {
    PairwiseSeedSymmetric(r.prims, r.key(i), r.key(j), r.roundId, i, j);
    assert r.Seed(i, j) == r.Seed(j, i);
    forall k, l | PairKey(k, l) == PairKey(i, j) ensures r.Seed(k, l) == r.Seed(i, j) {
      assert (k == i && l == j) || (k == j && l == i);
    }
  }

  method RevealOne(agg: SecAggServer, members: seq<Member>, m: Member, dropped: OrgId, ghost clip: Option<real>,
                   ghost r: Round)
    requires Serves(agg, r, members, clip) && m in members && agg.keys == r.PublicKeys() && Genuine(r, agg.seeds)
    requires dropped in r.roster && dropped != m.orgId
    modifies agg`seeds
    ensures Serves(agg, r, members, clip) && Genuine(r, agg.seeds)
    ensures agg.seeds.Keys == old(agg.seeds.Keys) + {PairKey(m.orgId, dropped)}
  {
    assert PlaysAs(r, m, clip);
    MemberIds(members, m.orgId);
    var client := NewClient(m.orgId, agg.roundId, agg.roster, agg.dim, m.privateKey).value;
    r.KeysOfComplete(r.roster);
    var seed := RevealSeed(agg.prims, client, dropped, agg.keys[dropped]).value;
    assert seed == r.Seed(m.orgId, dropped);
    GenuineGrows(r, agg.seeds, m.orgId, dropped);
    var _ := agg.AddRecoverySeed(m.orgId, dropped, seed);
  }

  /** Every survivor reveals its seed with every dropped member. */
  method RecoverAll(agg: SecAggServer, members: seq<Member>, active: seq<Member>, dropped: seq<OrgId>,
                    ghost clip: Option<real>, ghost r: Round)
    requires Serves(agg, r, members, clip) && agg.keys == r.PublicKeys() && agg.seeds == map[]
    requires forall m :: m in active ==> m in members && m.orgId !in dropped
    requires forall id :: id in dropped ==> id in r.roster
    modifies agg`seeds
    ensures Serves(agg, r, members, clip) && Genuine(r, agg.seeds)
    ensures forall m, j :: m in active && j in dropped ==> PairKey(m.orgId, j) in agg.seeds
  {
    for k := 0 to |active|
      invariant agg.Valid() && Genuine(r, agg.seeds)
      invariant forall i, j :: 0 <= i < k && j in dropped ==> PairKey(active[i].orgId, j) in agg.seeds
    {
      var m := active[k];
      assert m in active;
      for l := 0 to |dropped|
        invariant agg.Valid() && Genuine(r, agg.seeds)
        invariant forall i, j :: 0 <= i < k && j in dropped ==> PairKey(active[i].orgId, j) in agg.seeds
        invariant forall j :: 0 <= j < l ==> PairKey(m.orgId, dropped[j]) in agg.seeds
      {
        RevealOne(agg, members, m, dropped[l], clip, r);
      }
    }
  }

  /** The members the server misses are exactly those whose seeds were revealed. */
  lemma RecoveredRound(r: Round, members: seq<Member>, drop: seq<OrgId>, dropped: seq<OrgId>, clip: Option<real>,
                       received: set<OrgId>, seeds: map<(OrgId, OrgId), Bytes>)
    requires Plays(r, members, clip) && Genuine(r, seeds)
    requires received == Elements(Ids(Active(members, drop)))
    requires forall id :: id in dropped <==> id in r.roster && id in drop
    requires forall m, j :: m in Active(members, drop) && j in dropped ==> PairKey(m.orgId, j) in seeds
    ensures r.Revealed(received, seeds)
  {
    forall i, j | i in received && j in r.DroppedFrom(received)
      ensures PairKey(i, j) in seeds && seeds[PairKey(i, j)] == r.Seed(i, j)
    {
      MemberIds(Active(members, drop), i);
      MemberIds(Active(members, drop), j);
      MemberIds(members, j);
      assert j in dropped;
    }
  }

  lemma NoSeedMissing(agg: SecAggServer, r: Round)
    requires agg.roster == r.roster && r.Revealed(agg.contributions.Keys, agg.seeds)
    ensures !agg.SeedMissing() && agg.Dropped() == r.DroppedFrom(agg.contributions.Keys)
  {
  }

  /** Opening, given what every coordinate is known to be worth in some iteration order. */
  method OpenAll(agg: SecAggServer, ghost order: seq<OrgId>, ghost total: nat -> int)
    returns (res: Result<seq<real>, Error>)
    requires agg.Valid() && agg.contributions != map[] && !agg.SeedMissing()
    requires Enumerates(order, agg.contributions.Keys)
    requires forall c :: 0 <= c < agg.dim ==>
               OpenedAt(agg.prims, agg.contributions, agg.seeds, order, agg.Dropped(), c) == Wrap(total(c))
    ensures res.Ok? && |res.value| == agg.dim
    ensures forall c :: 0 <= c < agg.dim ==> res.value[c] == Dequantize(Wrap(total(c)))
  {
    res := agg.Finalize();
    forall c | 0 <= c < agg.dim ensures res.value[c] == Dequantize(Wrap(total(c))) {
      assert OpenedAt(agg.prims, agg.contributions, agg.seeds, order, agg.Dropped(), c) == Wrap(total(c));
    }
  }

  /** Key exchange and collection on a new server object. */
  method Collect(p: Primitives, roundId: string, members: seq<Member>, active: seq<Member>, dim: nat,
                 clip: Option<real>,
                 ghost r: Round)
    returns (agg: SecAggServer, ok: bool)
    requires Lawful(p) && r.prims == p && r.roundId == roundId && r.dim == dim && Plays(r, members, clip)
    requires forall m :: m in active ==> m in members
    ensures fresh(agg) && Serves(agg, r, members, clip)
    ensures agg.keys == r.PublicKeys() && r.Contributed(agg.contributions) && agg.seeds == map[]
    ensures ok <==> forall m :: m in active ==> |m.vector| == r.dim
    ensures ok ==> agg.contributions.Keys == Elements(Ids(active))
  {
    agg := new SecAggServer(p, roundId, Ids(members), dim);
    RegisterAll(agg, members, r, clip);
    ok := CollectAll(agg, members, active, clip, r);
  }

  /** Dropout recovery and opening. */
  method RecoverAndOpen(agg: SecAggServer, members: seq<Member>, drop: seq<OrgId>, clip: Option<real>, ghost r: Round)
    returns (res: Result<seq<real>, Error>)
    requires Serves(agg, r, members, clip) && NoDuplicates(r.roster)
    requires agg.keys == r.PublicKeys() && r.Contributed(agg.contributions) && agg.seeds == map[]
    requires Active(members, drop) != [] && forall m :: m in Active(members, drop) ==> |m.vector| == r.dim
    requires agg.contributions.Keys == Elements(Ids(Active(members, drop)))
    modifies agg`seeds
    ensures res.Ok? && |res.value| == r.dim
    ensures forall c :: 0 <= c < r.dim ==>
              res.value[c] == Dequantize(Wrap(PlainSum(r.prims.sqrt, clip, Active(members, drop), c)))
  {
    var active := Active(members, drop);
    var dropped := Restrict(Ids(members), set x | x in drop);
    RecoverAll(agg, members, active, dropped, clip, r);
    RecoveredRound(r, members, drop, dropped, clip, agg.contributions.Keys, agg.seeds);
    NoSeedMissing(agg, r);
    OpensPlainSums(r, members, drop, clip, agg.contributions, agg.seeds, Ids(active), agg.Dropped());
    assert Ids(active)[0] in agg.contributions;
    res := OpenAll(agg, Ids(active), (c: nat) => PlainSum(r.prims.sqrt, clip, active, c));
  }

  /**
   * A whole masked sum. It fails exactly when nobody is active or an active vector has the wrong dimension;
   * otherwise it opens, at every coordinate, the (int64) sum of the active members' quantized vectors.
   */
  method Run(p: Primitives, roundId: string, members: seq<Member>, drop: seq<OrgId>, dim: nat, clip: Option<real>)
    returns (res: Result<seq<real>, Error>)
    requires Lawful(p) && NoDuplicates(Ids(members))
    ensures Active(members, drop) == [] ==> res == Err(ProtocolError)
    ensures Active(members, drop) != [] && (exists m :: m in Active(members, drop) && |m.vector| != dim) ==>
              res == Err(InvalidDataError)
    ensures Active(members, drop) != [] && (forall m :: m in Active(members, drop) ==> |m.vector| == dim) ==>
              && res.Ok? && |res.value| == dim
              && forall c :: 0 <= c < dim ==>
                    res.value[c] == Dequantize(Wrap(PlainSum(p.sqrt, clip, Active(members, drop), c)))
  {
    ghost var r := RoundOf(p, roundId, members, dim, clip);
    RoundOfPlays(p, roundId, members, dim, clip);
    var active := Active(members, drop);
    if active == [] {
      return Err(ProtocolError);
    }
    var agg, ok := Collect(p, roundId, members, active, dim, clip, r);
    if !ok {
      return Err(InvalidDataError);
    }
    res := RecoverAndOpen(agg, members, drop, clip, r);
  }

  // ---- a sub-round in which everybody sends ----

  /** The server object runs round `r` of members whose parties are kept by id, the last of equal ids winning. */
  ghost predicate Hosts(agg: SecAggServer, r: Round, members: seq<Member>)
    reads agg
  {
    && agg.Valid() && agg.prims == r.prims && agg.roster == r.roster && agg.roundId == r.roundId && agg.dim == r.dim
    && r.roster == Ids(members) && forall id {:trigger r.key(id)} :: r.key(id) == Lookup(members, id).privateKey
  }

  /** The registration loop of such parties. */
  method RegisterParties(agg: SecAggServer, members: seq<Member>, ghost r: Round)
    requires Hosts(agg, r, members) && agg.keys == map[]
    modifies agg`keys
    ensures Hosts(agg, r, members) && agg.keys == r.PublicKeys()
  {
    for k := 0 to |members|
      invariant agg.Valid() && agg.keys == r.KeysOf(r.roster[..k])
    {
      var id := members[k].orgId;
      assert r.roster[k] == id && r.roster[..k + 1][..k] == r.roster[..k];
      var key := Lookup(members, id).privateKey;
      assert r.key(id) == key;
      var _ := agg.Register(id, agg.prims.publicKey(key));
    }
    assert r.roster[..|members|] == r.roster;
  }

  /** The masked vector the party of a member's id sends. */
  method MaskAs(agg: SecAggServer, members: seq<Member>, m: Member, ghost r: Round) returns (sent: Contribution)
    requires Hosts(agg, r, members) && agg.keys == r.PublicKeys() && m.orgId in agg.roster && |m.vector| == agg.dim
    ensures sent.orgId == m.orgId && |sent.maskedUpdate| == agg.dim
    ensures r.update(m.orgId) == Prepared(r.prims.sqrt, m.vector, None) ==> r.SentBy(m.orgId, sent)
  {
    var key := Lookup(members, m.orgId).privateKey;
    assert r.key(m.orgId) == key;
    var client := NewClient(m.orgId, agg.roundId, agg.roster, agg.dim, key).value;
    assert client == r.Client(m.orgId);
    r.KeysOfComplete(r.roster);
    var masked := MaskAndSend(agg.prims, client, m.vector, agg.keys, None);
    sent := masked.value;
  }

  /** One member sends; as long as ids are distinct its contribution is the honest one. */
  method SendAs(agg: SecAggServer, members: seq<Member>, m: Member, ghost r: Round)
    requires Hosts(agg, r, members) && agg.keys == r.PublicKeys() && m.orgId in agg.roster && |m.vector| == agg.dim
    modifies agg`contributions
    ensures Hosts(agg, r, members) && agg.contributions.Keys == old(agg.contributions.Keys) + {m.orgId}
    ensures PlaysAs(r, m, None) && old(r.Contributed(agg.contributions)) ==> r.Contributed(agg.contributions)
  {
    var sent := MaskAs(agg, members, m, r);
    if PlaysAs(r, m, None) && r.Contributed(agg.contributions) {
      ContributedGrows(r, agg.contributions, sent);
    }
    var _ := agg.Receive(sent);
  }

  lemma PrefixElements<T>(s: seq<T>, k: nat)
    requires k < |s|
    ensures Elements(s[..k + 1]) == Elements(s[..k]) + {s[k]}
  {
    assert s[..k + 1] == s[..k] + [s[k]];
  }

  /** Every member sends, so that nobody is missing afterwards. */
  method SendAll(agg: SecAggServer, members: seq<Member>, ghost r: Round)
    requires Hosts(agg, r, members) && agg.keys == r.PublicKeys() && agg.contributions == map[]
    requires forall m :: m in members ==> |m.vector| == agg.dim
    modifies agg`contributions
    ensures Hosts(agg, r, members) && agg.contributions.Keys == Elements(agg.roster)
    ensures Plays(r, members, None) ==> r.Contributed(agg.contributions)
  {
    for k := 0 to |members|
      invariant Hosts(agg, r, members) && agg.contributions.Keys == Elements(r.roster[..k])
      invariant Plays(r, members, None) ==> r.Contributed(agg.contributions)
    {
      var m := members[k];
      assert m in members && r.roster[k] == m.orgId;
      assert Plays(r, members, None) ==> PlaysAs(r, m, None);
      PrefixElements(r.roster, k);
      SendAs(agg, members, m, r);
    }
    assert r.roster[..|members|] == r.roster;
  }

  lemma NobodyMissing(agg: SecAggServer)
    requires agg.contributions.Keys == Elements(agg.roster)
    ensures agg.Dropped() == [] && !agg.SeedMissing()
  {
    RestrictNone(agg.roster, (set x | x in agg.roster) - agg.contributions.Keys);
  }

  lemma {:induction false} EverybodyActive(members: seq<Member>)
    ensures Active(members, []) == members
  {
    if members != [] {
      EverybodyActive(members[..|members| - 1]);
      assert members == members[..|members| - 1] + [members[|members| - 1]];
    }
  }

  lemma OpensAll(r: Round, members: seq<Member>, contributions: map<OrgId, Contribution>,
                 seeds: map<(OrgId, OrgId), Bytes>, dropped: seq<OrgId>)
    requires Lawful(r.prims) && Plays(r, members, None) && NoDuplicates(r.roster)
    requires r.Contributed(contributions) && contributions.Keys == Elements(r.roster)
    requires forall m :: m in members ==> |m.vector| == r.dim
    requires dropped == [] == r.DroppedFrom(contributions.Keys)
    ensures Enumerates(r.roster, contributions.Keys)
    ensures forall c {:trigger OpenedAt(r.prims, contributions, seeds, r.roster, dropped, c)} :: 0 <= c < r.dim ==>
              OpenedAt(r.prims, contributions, seeds, r.roster, dropped, c)
              == Wrap(PlainSum(r.prims.sqrt, None, members, c))
  {
    EverybodyActive(members);
    OpensPlainSums(r, members, [], None, contributions, seeds, r.roster, dropped);
  }

  /** Opening when nobody is missing. */
  method OpenComplete(agg: SecAggServer, members: seq<Member>, ghost r: Round) returns (res: seq<real>)
    requires Hosts(agg, r, members) && agg.contributions.Keys == Elements(agg.roster) && members != []
    requires Plays(r, members, None) ==> r.Contributed(agg.contributions)
    requires forall m :: m in members ==> |m.vector| == agg.dim
    ensures |res| == agg.dim
    ensures NoDuplicates(Ids(members)) && Plays(r, members, None) ==>
              forall c :: 0 <= c < agg.dim ==> res[c] == Dequantize(Wrap(PlainSum(r.prims.sqrt, None, members, c)))
  {
    assert Ids(members)[0] in agg.contributions;
    NobodyMissing(agg);
    var total := agg.Finalize();
    res := total.value;
    if NoDuplicates(Ids(members)) && Plays(r, members, None) {
      OpensAll(r, members, agg.contributions, agg.seeds, agg.Dropped());
      forall c | 0 <= c < agg.dim ensures res[c] == Dequantize(Wrap(PlainSum(r.prims.sqrt, None, members, c))) {
        assert OpenedAt(agg.prims, agg.contributions, agg.seeds, r.roster, agg.Dropped(), c)
            == Wrap(PlainSum(r.prims.sqrt, None, members, c));
      }
    }
  }

  /**
   * A sub-round without dropout: it never fails. For distinct ids it opens, at every coordinate, the (int64) sum of the
   * quantized vectors; members that share an id overwrite each other's contribution.
   */
  method SumAll(p: Primitives, roundId: string, members: seq<Member>, dim: nat) returns (res: seq<real>)
    requires Lawful(p) && members != [] && forall m :: m in members ==> |m.vector| == dim
    ensures |res| == dim
    ensures NoDuplicates(Ids(members)) ==>
              forall c :: 0 <= c < dim ==> res[c] == Dequantize(Wrap(PlainSum(p.sqrt, None, members, c)))
  {
    ghost var r := RoundOf(p, roundId, members, dim, None);
    if NoDuplicates(Ids(members)) {
      RoundOfPlays(p, roundId, members, dim, None);
    }
    var agg := new SecAggServer(p, roundId, Ids(members), dim);
    RegisterParties(agg, members, r);
    SendAll(agg, members, r);
    res := OpenComplete(agg, members, r);
  }
}
