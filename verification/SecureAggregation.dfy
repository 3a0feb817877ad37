/** Pairwise-mask secure aggregation (sentrylink/crypto/secure_aggregation.py). */
module SecureAggregation {
  import opened Foundations
  import opened Int64
  import opened Prg
  import opened RealVectors
  import opened Sums

  const QUANT_SCALE: int := 1_000_000
  const UPDATE_CLIP: real := 1.0

  /** The primitives the protocol is built from: X25519, HKDF over (secret, round, sorted pair), HMAC, sqrt. */
  datatype Primitives = Primitives(
    publicKey: Bytes -> Bytes,
    exchange: (Bytes, Bytes) -> Bytes,
    derive: (Bytes, string, OrgId, OrgId) -> Bytes,
    mac: Mac,
    word: MaskStream,
    sqrt: real -> real)

  /** Word `c` of the mask stream of a seed. */
  type MaskStream = (Bytes, nat) -> int

  /**
   * Both ends of an X25519 exchange obtain the same secret (section 6.1 of RFC 7748), and `word` names
   * the words that the counter-mode generator computes from the HMAC.
   */
  ghost predicate Lawful(p: Primitives) {
    && (forall a, b {:trigger p.exchange(a, p.publicKey(b))} ::
           p.exchange(a, p.publicKey(b)) == p.exchange(b, p.publicKey(a)))
    && (forall a :: |p.publicKey(a)| == 32)
    && IsMac(p.mac)
    && (forall seed, c: nat {:trigger MaskWord(p.mac, seed, c)} :: p.word(seed, c) == MaskWord(p.mac, seed, c))
    && IsSquareRoot(p.sqrt)
  }

  // ---- fixed point ----

  /** numpy.rint: nearest integer, halves to even. */
  function Rint(x: real): (r: int)
    ensures -0.5 <= x - r as real <= 0.5
    ensures x == x.Floor as real ==> r == x.Floor
    ensures x == x.Floor as real + 0.5 ==> r % 2 == 0
  {
    var f := x.Floor;
    var d := x - f as real;
    if d < 0.5 || (d == 0.5 && f % 2 == 0) then f else f + 1
  }

  function Quantize(v: seq<real>): (q: seq<int>)
    ensures |q| == |v| && forall c :: 0 <= c < |v| ==> q[c] == Rint(v[c] * QUANT_SCALE as real)
  {
    seq(|v|, c requires 0 <= c < |v| => Rint(v[c] * QUANT_SCALE as real))
  }

  function Dequantize(x: int): real {
    x as real / QUANT_SCALE as real
  }

  lemma DequantizeScales(x: int)
    ensures Times(Dequantize(x), QUANT_SCALE as real) == x as real
  {
  }

  function ClipL2(sqrt: real -> real, v: seq<real>, bound: real): (r: seq<real>)
    ensures |r| == |v|
  {
    var norm := Norm(sqrt, v);
    if norm > bound && norm > 0.0 then Scale(bound / norm, v) else v
  }

  /** The integer vector a client masks: optional clip, then quantization. */
  function Prepared(sqrt: real -> real, update: seq<real>, clip: Option<real>): (q: seq<int>)
    ensures |q| == |update|
  {
    Quantize(match clip case Some(bound) => ClipL2(sqrt, update, bound) case None => update)
  }

  lemma ClippedNorm(sqrt: real -> real, v: seq<real>, bound: real)
    requires IsSquareRoot(sqrt) && bound >= 0.0
    ensures SumSq(ClipL2(sqrt, v, bound)) <= bound * bound
    ensures SumSq(v) <= bound * bound ==> ClipL2(sqrt, v, bound) == v
  {
    var norm := Norm(sqrt, v);
    NormSquared(sqrt, v);
    if norm > bound {
      var k := bound / norm;
      SumSqOfScale(k, v);
      assert k * norm == bound;
      assert k * k * (norm * norm) == (k * norm) * (k * norm);
      if SumSq(v) <= bound * bound {
        SquareMonotone(norm, bound);
      }
    } else {
      ProductMonotone(norm, bound, norm, bound);
    }
  }

  /** What a vector outside the ball is clipped to: itself, scaled to the radius. */
  lemma ClipScales(sqrt: real -> real, v: seq<real>, bound: real, i: nat)
    requires IsSquareRoot(sqrt) && bound >= 0.0 && Norm(sqrt, v) > bound && i < |v|
    ensures Times(ClipL2(sqrt, v, bound)[i], Norm(sqrt, v)) == Times(bound, v[i])
  {
    var norm, x := Norm(sqrt, v), v[i];
    var k := bound / norm;
    assert k * norm == bound;
    assert (k * x) * norm == (k * norm) * x;
  }

  /** The distance of a vector of norm `n` to one of norm at most `b` is at least n - b. */
  lemma DistanceBelow(sqrt: real -> real, v: seq<real>, w: seq<real>, n: real, b: real)
    requires IsSquareRoot(sqrt) && |v| == |w| && n * n == SumSq(v) && 0.0 <= b <= n && SumSq(w) <= b * b
    ensures Times(n - b, n - b) <= SumSq(Subtract(v, w))
  {
    var q, D := Norm(sqrt, w), Dot(v, w);
    NormSquared(sqrt, w);
    SquareMonotone(q, b);
    CauchySchwarz(v, w);
    assert (n * n) * (q * q) == (n * q) * (n * q);
    ProductMonotone(0.0, n, 0.0, q);
    SquareMonotone(D, n * q);
    assert Subtract(v, w) == Combine(1.0, v, -1.0, w);
    SumSqOfCombination(1.0, v, -1.0, w);
    FormAtUnits(SumSq(v), D, SumSq(w));
    ProductMonotone(n - b, n - q, n - b, n - q);
    assert (n - q) * (n - q) == n * n - 2.0 * (n * q) + q * q;
  }

  lemma FormAtUnits(A: real, D: real, B: real)
    ensures Form(1.0, -1.0, A, D, B) == A - 2.0 * D + B
  {
  }

  lemma RemainderNorm(norm: real, bound: real, k: real, x: real)
    requires norm > 0.0 && k == bound / norm && x == norm * norm
    ensures (1.0 - k) * (1.0 - k) * x == Times(norm - bound, norm - bound)
  {
    assert k * norm == bound;
    assert (1.0 - k) * norm == norm - bound;
    assert (1.0 - k) * (1.0 - k) * (norm * norm) == ((1.0 - k) * norm) * ((1.0 - k) * norm);
  }

  lemma RemainderIsScaled(v: seq<real>, k: real)
    ensures Subtract(v, Scale(k, v)) == Scale(1.0 - k, v)
  {
    forall i | 0 <= i < |v| ensures Subtract(v, Scale(k, v))[i] == Scale(1.0 - k, v)[i] {
      assert v[i] - k * v[i] == (1.0 - k) * v[i];
    }
  }

  lemma ScaledDistance(v: seq<real>, norm: real, bound: real, k: real)
    requires norm > 0.0 && k == bound / norm && SumSq(v) == norm * norm
    ensures SumSq(Subtract(v, Scale(k, v))) == Times(norm - bound, norm - bound)
  {
    RemainderIsScaled(v, k);
    SumSqOfScale(1.0 - k, v);
    RemainderNorm(norm, bound, k, SumSq(v));
  }

  /** Clipping is the projection onto the ball: no vector of the ball is closer to the update. */
  lemma ClipIsProjection(sqrt: real -> real, v: seq<real>, bound: real, w: seq<real>)
    requires IsSquareRoot(sqrt) && bound >= 0.0 && |w| == |v| && SumSq(w) <= bound * bound
    ensures SumSq(Subtract(v, ClipL2(sqrt, v, bound))) <= SumSq(Subtract(v, w))
  {
    var norm := Norm(sqrt, v);
    NormSquared(sqrt, v);
    if norm > bound {
      ScaledDistance(v, norm, bound, bound / norm);
      DistanceBelow(sqrt, v, w, norm, bound);
    } else {
      DifferenceWithSelf(v);
      SumSqNonNegative(Subtract(v, w));
    }
  }

  lemma DifferenceWithSelf(v: seq<real>)
    ensures SumSq(Subtract(v, v)) == 0.0
  {
    DotZero(Subtract(v, v), Subtract(v, v));
  }

  /** Within half a step of the step count of x. */
  ghost predicate NearestSteps(q: int, x: real) {
    -0.5 <= q as real - Times(x, QUANT_SCALE as real) <= 0.5
  }

  /**
   * Every integer a client masks, in terms of its update: the nearest number of steps to the coordinate itself without
   * clipping or inside the ball, and outside it to the number that times the norm is the bound times the coordinate.
   */
  lemma PreparedValue(sqrt: real -> real, update: seq<real>, clip: Option<real>, c: nat)
    requires IsSquareRoot(sqrt) && c < |update| && (clip.Some? ==> clip.value >= 0.0)
    ensures clip.None? || SumSq(update) <= clip.value * clip.value ==>
              NearestSteps(Prepared(sqrt, update, clip)[c], update[c])
    ensures clip.Some? && Norm(sqrt, update) > clip.value ==>
              exists x :: Times(x, Norm(sqrt, update)) == Times(clip.value, update[c])
                          && NearestSteps(Prepared(sqrt, update, clip)[c], x)
  {
    if clip.Some? {
      ClippedNorm(sqrt, update, clip.value);
      if Norm(sqrt, update) > clip.value {
        ClipScales(sqrt, update, clip.value, c);
        assert NearestSteps(Prepared(sqrt, update, clip)[c], ClipL2(sqrt, update, clip.value)[c]);
      }
    }
  }

  // ---- pairwise seeds and signed mask terms ----

  function PairKey(i: OrgId, j: OrgId): (OrgId, OrgId) {
    if StrLess(j, i) then (j, i) else (i, j)
  }

  lemma PairKeySymmetric(i: OrgId, j: OrgId)
    ensures PairKey(i, j) == PairKey(j, i)
  {
    StrLessTotal(i, j);
  }

  /** The key of a pair lists its members in id order, and no two pairs share one. */
  lemma PairKeyNamesPair(i: OrgId, j: OrgId, k: OrgId, l: OrgId)
    ensures !StrLess(PairKey(i, j).1, PairKey(i, j).0)
    ensures PairKey(i, j) == PairKey(k, l) <==> (i == k && j == l) || (i == l && j == k)
  {
    StrLessTotal(i, j);
    StrLessTotal(k, l);
  }

  function PairwiseSeed(p: Primitives, privateKey: Bytes, peerKey: Bytes, roundId: string, i: OrgId, j: OrgId): Bytes {
    p.derive(p.exchange(privateKey, peerKey), roundId, PairKey(i, j).0, PairKey(i, j).1)
  }

  /** Both members of a pair derive one and the same seed. */
  lemma PairwiseSeedSymmetric(p: Primitives, a: Bytes, b: Bytes, roundId: string, i: OrgId, j: OrgId)
    requires Lawful(p)
    ensures PairwiseSeed(p, a, p.publicKey(b), roundId, i, j) == PairwiseSeed(p, b, p.publicKey(a), roundId, j, i)
  {
    PairKeySymmetric(i, j);
  }

  /** Key derivation without collisions. */
  ghost predicate CollisionFree(derive: (Bytes, string, OrgId, OrgId) -> Bytes) {
    forall x, r, i, j, x', r', i', j' {:trigger derive(x, r, i, j), derive(x', r', i', j')} ::
      derive(x, r, i, j) == derive(x', r', i', j') ==> x == x' && r == r' && i == i' && j == j'
  }

  /** Another shared secret, another round or another pair means another seed. */
  lemma SeedsDiffer(p: Primitives, a: Bytes, b: Bytes, round: string, i: OrgId, j: OrgId,
                    a': Bytes, b': Bytes, round': string, i': OrgId, j': OrgId)
    requires CollisionFree(p.derive)
    ensures PairwiseSeed(p, a, b, round, i, j) == PairwiseSeed(p, a', b', round', i', j') <==>
              && p.exchange(a, b) == p.exchange(a', b') && round == round'
              && ((i == i' && j == j') || (i == j' && j == i'))
  {
    PairKeyNamesPair(i, j, i', j');
  }

  /** The term `i` contributes for peer `j`: plus the stream for the smaller id, minus it for the larger. */
  function Signed(word: MaskStream, seed: Bytes, i: OrgId, j: OrgId, c: nat): int {
    if StrLess(i, j) then word(seed, c) else -word(seed, c)
  }

  // ---- int64 vectors, as numpy adds and subtracts them ----

  function AddVec(a: seq<int>, b: seq<int>): (r: seq<int>)
    requires |a| == |b|
    ensures |r| == |a| && forall c :: 0 <= c < |r| ==> r[c] == Wrap(a[c] + b[c])
  {
    seq(|a|, c requires 0 <= c < |a| => Wrap(a[c] + b[c]))
  }

  function SubVec(a: seq<int>, b: seq<int>): (r: seq<int>)
    requires |a| == |b|
    ensures |r| == |a| && forall c :: 0 <= c < |r| ==> r[c] == Wrap(a[c] - b[c])
  {
    seq(|a|, c requires 0 <= c < |a| => Wrap(a[c] - b[c]))
  }

  function Zeros(dim: nat): (r: seq<int>)
    ensures |r| == dim && forall c :: 0 <= c < dim ==> r[c] == 0
  {
    seq(dim, _ => 0)
  }

  // ---- client ----

  datatype Contribution = Contribution(orgId: OrgId, maskedUpdate: seq<int>, publicKey: Bytes)

  datatype SecAggClient = SecAggClient(orgId: OrgId, roundId: string, roster: seq<OrgId>, dim: nat, privateKey: Bytes)

  function NewClient(orgId: OrgId, roundId: string, roster: seq<OrgId>, dim: nat, privateKey: Bytes)
    : (r: Result<SecAggClient, Error>)
    ensures orgId !in roster ==> r == Err(NotInRoster)
    ensures orgId in roster ==> r == Ok(SecAggClient(orgId, roundId, roster, dim, privateKey))
  {
    if orgId !in roster then Err(NotInRoster) else Ok(SecAggClient(orgId, roundId, roster, dim, privateKey))
  }

  /** A term per coordinate and peer. */
  type PeerTerms = (nat, OrgId) -> int

  function PeerSlice(terms: PeerTerms, c: nat): OrgId -> int {
    peer => terms(c, peer)
  }

  /** The mask term of client `me` towards each roster peer, as an unbounded integer. */
  function ClientTerms(p: Primitives, me: SecAggClient, peerKeys: map<OrgId, Bytes>): PeerTerms {
    (c: nat, peer) =>
      if peer == me.orgId || peer !in peerKeys then 0
      else Signed(p.word, PairwiseSeed(p, me.privateKey, peerKeys[peer], me.roundId, me.orgId, peer), me.orgId, peer, c)
  }

  /**
   * `t` is what `me` carries for `peer`: the c-th word of the stream of the pair's seed, derived from shared secret,
   * round and the two ids in order; added by the member with the smaller id and subtracted by the other.
   */
  ghost predicate IsMaskTerm(p: Primitives, me: SecAggClient, peer: OrgId, peerKey: Bytes, c: nat, t: int)
    requires IsMac(p.mac)
  {
    var secret := p.exchange(me.privateKey, peerKey);
    if StrLess(me.orgId, peer) then
      var seed := p.derive(secret, me.roundId, me.orgId, peer);
      IsCentredWord(p.mac(seed, c / 4)[8 * (c % 4)..8 * (c % 4) + 8], t)
    else
      var seed := p.derive(secret, me.roundId, peer, me.orgId);
      IsCentredWord(p.mac(seed, c / 4)[8 * (c % 4)..8 * (c % 4) + 8], -t)
  }

  /** Every mask term, down to the bytes it is made of. */
  lemma ClientTermValue(p: Primitives, me: SecAggClient, peerKeys: map<OrgId, Bytes>, peer: OrgId, c: nat)
    requires Lawful(p) && peer in peerKeys
    ensures peer == me.orgId ==> ClientTerms(p, me, peerKeys)(c, peer) == 0
    ensures peer != me.orgId ==> IsMaskTerm(p, me, peer, peerKeys[peer], c, ClientTerms(p, me, peerKeys)(c, peer))
  {
    var seed := PairwiseSeed(p, me.privateKey, peerKeys[peer], me.roundId, me.orgId, peer);
    StrLessTotal(me.orgId, peer);
    MaskWordValue(p.mac, seed, c);
    assert p.word(seed, c) == MaskWord(p.mac, seed, c);
  }

  /** `mask` is the wrapped sum of the terms towards `peers`. */
  ghost predicate IsMask(mask: seq<int>, terms: PeerTerms, dim: nat, peers: seq<OrgId>) {
    |mask| == dim && forall c :: 0 <= c < dim ==> mask[c] == Wrap(Sum(peers, PeerSlice(terms, c)))
  }

  /** What a client sends: its quantized update plus all its mask terms, wrapped once. */
  ghost predicate IsMasked(masked: seq<int>, q: seq<int>, terms: PeerTerms, dim: nat, roster: seq<OrgId>) {
    && |masked| == |q| == dim
    && forall c :: 0 <= c < dim ==> masked[c] == Wrap(q[c] + Sum(roster, PeerSlice(terms, c)))
  }

  lemma SumOfLast<T>(s: seq<T>, x: T, f: T -> int)
    ensures Sum(s + [x], f) == Sum(s, f) + f(x)
  {
    assert (s + [x])[..|s|] == s;
  }

  /** One loop step on a wrapped accumulator: adding or subtracting a stream word adds the signed term. */
  lemma WrapStep(total: int, word: int, plus: bool, term: int, before: int, after: int)
    requires before == Wrap(total) && term == (if plus then word else -word)
    requires after == if plus then Wrap(before + word) else Wrap(before - word)
    ensures after == Wrap(total + term)
  {
    WrapAdd(total, term);
  }

  lemma MaskSkips(mask: seq<int>, terms: PeerTerms, dim: nat, peers: seq<OrgId>, peer: OrgId)
    requires IsMask(mask, terms, dim, peers)
    requires forall c: nat :: c < dim ==> terms(c, peer) == 0
    ensures IsMask(mask, terms, dim, peers + [peer])
  {
    forall c | 0 <= c < dim ensures mask[c] == Wrap(Sum(peers + [peer], PeerSlice(terms, c))) {
      SumOfLast(peers, peer, PeerSlice(terms, c));
    }
  }

  lemma MaskGrows(mask: seq<int>, stream: seq<int>, plus: bool, terms: PeerTerms, dim: nat, peers: seq<OrgId>,
                  peer: OrgId)
    requires IsMask(mask, terms, dim, peers) && |stream| == dim
    requires forall c: nat :: c < dim ==> terms(c, peer) == if plus then stream[c] else -stream[c]
    ensures IsMask(if plus then AddVec(mask, stream) else SubVec(mask, stream), terms, dim, peers + [peer])
  {
    var grown := if plus then AddVec(mask, stream) else SubVec(mask, stream);
    forall c | 0 <= c < dim ensures grown[c] == Wrap(Sum(peers + [peer], PeerSlice(terms, c))) {
      var f := PeerSlice(terms, c);
      SumOfLast(peers, peer, f);
      WrapStep(Sum(peers, f), stream[c], plus, f(peer), mask[c], grown[c]);
    }
  }

  lemma MaskedIsWrappedOnce(q: seq<int>, mask: seq<int>, terms: PeerTerms, dim: nat, roster: seq<OrgId>)
    requires IsMask(mask, terms, dim, roster) && |q| == dim
    ensures IsMasked(AddVec(q, mask), q, terms, dim, roster)
  {
    forall c | 0 <= c < dim
      ensures Wrap(q[c] + mask[c]) == Wrap(q[c] + Sum(roster, PeerSlice(terms, c)))
    {
      WrapAdd(Sum(roster, PeerSlice(terms, c)), q[c]);
    }
  }

  /** One iteration of the mask loop: derive the pair's seed, expand it, add or subtract it by id order. */
  method MaskTowards(p: Primitives, me: SecAggClient, peerKeys: map<OrgId, Bytes>, mask: seq<int>,
                     ghost peers: seq<OrgId>,
                     peer: OrgId)
    returns (grown: seq<int>)
    requires Lawful(p) && peer in peerKeys && IsMask(mask, ClientTerms(p, me, peerKeys), me.dim, peers)
    ensures IsMask(grown, ClientTerms(p, me, peerKeys), me.dim, peers + [peer])
  {
    if peer == me.orgId {
      MaskSkips(mask, ClientTerms(p, me, peerKeys), me.dim, peers, peer);
      return mask;
    }
    var stream := IntMasks(p.mac, PairwiseSeed(p, me.privateKey, peerKeys[peer], me.roundId, me.orgId, peer), me.dim);
    MaskGrows(mask, stream, StrLess(me.orgId, peer), ClientTerms(p, me, peerKeys), me.dim, peers, peer);
    grown := if StrLess(me.orgId, peer) then AddVec(mask, stream) else SubVec(mask, stream);
  }

  method MaskAndSend(p: Primitives, me: SecAggClient, update: seq<real>, peerKeys: map<OrgId, Bytes>,
                     clip: Option<real>)
    returns (r: Result<Contribution, Error>)
    requires Lawful(p)
    ensures peerKeys.Keys != Elements(me.roster) ==> r == Err(ProtocolError)
    ensures peerKeys.Keys == Elements(me.roster) && |update| != me.dim ==> r == Err(InvalidDataError)
    ensures peerKeys.Keys == Elements(me.roster) && |update| == me.dim ==>
              && r.Ok? && r.value.orgId == me.orgId && r.value.publicKey == p.publicKey(me.privateKey)
              && IsMasked(
                    r.value.maskedUpdate, Prepared(p.sqrt, update, clip), ClientTerms(p, me, peerKeys), me.dim,
                        me.roster)
  {
    if peerKeys.Keys != set x | x in me.roster {
      return Err(ProtocolError);
    }
    var q := Prepared(p.sqrt, update, clip);
    if |q| != me.dim {
      return Err(InvalidDataError);
    }
    var mask := Zeros(me.dim);
    for k := 0 to |me.roster|
      invariant IsMask(mask, ClientTerms(p, me, peerKeys), me.dim, me.roster[..k])
    {
      assert me.roster[..k + 1] == me.roster[..k] + [me.roster[k]];
      mask := MaskTowards(p, me, peerKeys, mask, me.roster[..k], me.roster[k]);
    }
    assert me.roster[..|me.roster|] == me.roster;
    MaskedIsWrappedOnce(q, mask, ClientTerms(p, me, peerKeys), me.dim, me.roster);
    return Ok(Contribution(me.orgId, AddVec(q, mask), p.publicKey(me.privateKey)));
  }

  function RevealSeed(p: Primitives, me: SecAggClient, dropped: OrgId, droppedKey: Bytes): Result<Bytes, Error> {
    if dropped !in me.roster || dropped == me.orgId then Err(ValueError)
    else Ok(PairwiseSeed(p, me.privateKey, droppedKey, me.roundId, me.orgId, dropped))
  }

  /** What a survivor reveals is the very seed the dropped peer used, and only for another roster member. */
  lemma RevealsSharedSeed(p: Primitives, me: SecAggClient, dropped: OrgId, droppedPrivate: Bytes)
    requires Lawful(p)
    ensures RevealSeed(p, me, dropped, p.publicKey(droppedPrivate))
         == if dropped in me.roster && dropped != me.orgId
            then Ok(PairwiseSeed(p, droppedPrivate, p.publicKey(me.privateKey), me.roundId, dropped, me.orgId))
            else Err(ValueError)
  {
    PairwiseSeedSymmetric(p, me.privateKey, droppedPrivate, me.roundId, me.orgId, dropped);
  }

  // ---- server ----

  function MaskedAt(contributions: map<OrgId, Contribution>, c: nat): OrgId -> int {
    id => if id in contributions && c < |contributions[id].maskedUpdate| then contributions[id].maskedUpdate[c] else 0
  }

  /** A pairwise term per coordinate: (c, i, j) ↦ what `i` carries for `j` at coordinate `c`. */
  type PairTerms = (nat, OrgId, OrgId) -> int

  function Slice(terms: PairTerms, c: nat): (OrgId, OrgId) -> int {
    (i, j) => terms(c, i, j)
  }

  /** Coordinate `c` of the residual term of a survivor and a dropped peer, from the revealed seeds. */
  function ServerTerms(p: Primitives, seeds: map<(OrgId, OrgId), Bytes>): PairTerms {
    (c: nat, i, j) => if PairKey(i, j) in seeds then Signed(p.word, seeds[PairKey(i, j)], i, j, c) else 0
  }

  /** What the server opens at coordinate `c` when it visits the contributions in `order`. */
  function OpenedAt(p: Primitives, contributions: map<OrgId, Contribution>, seeds: map<(OrgId, OrgId), Bytes>,
                    order: seq<OrgId>, dropped: seq<OrgId>, c: nat): int {
    Wrap(Sum(order, MaskedAt(contributions, c)) - Double(Slice(ServerTerms(p, seeds), c), order, dropped))
  }

  lemma OpenedOrderIrrelevant(p: Primitives, contributions: map<OrgId, Contribution>,
                              seeds: map<(OrgId, OrgId), Bytes>,
                              order: seq<OrgId>, order': seq<OrgId>, dropped: seq<OrgId>, c: nat)
    requires Enumerates(order, contributions.Keys) && Enumerates(order', contributions.Keys)
    ensures OpenedAt(p, contributions, seeds, order, dropped, c)
         == OpenedAt(p, contributions, seeds, order', dropped, c)
  {
    SumPermutation(order, order', MaskedAt(contributions, c));
    DoublePermutation(Slice(ServerTerms(p, seeds), c), order, order', dropped);
  }

  // ---- what the server's loops hold after visiting part of their input ----

  ghost predicate IsResidual(v: seq<int>, terms: PairTerms, dim: nat, order: seq<OrgId>, dropped: seq<OrgId>) {
    |v| == dim && forall c :: 0 <= c < dim ==> v[c] == Wrap(Double(Slice(terms, c), order, dropped))
  }

  ghost predicate IsPartialResidual(v: seq<int>, terms: PairTerms, dim: nat, order: seq<OrgId>, dropped: seq<OrgId>,
                                    survivor: OrgId, visited: seq<OrgId>) {
    |v| == dim && forall c :: 0 <= c < dim ==>
      v[c] == Wrap(Double(Slice(terms, c), order, dropped) + Row(Slice(terms, c), survivor, visited))
  }

  ghost predicate IsTotal(v: seq<int>, dim: nat, contributions: map<OrgId, Contribution>, order: seq<OrgId>) {
    |v| == dim && forall c :: 0 <= c < dim ==> v[c] == Wrap(Sum(order, MaskedAt(contributions, c)))
  }

  lemma StartRow(v: seq<int>, terms: PairTerms, dim: nat, order: seq<OrgId>, dropped: seq<OrgId>, survivor: OrgId)
    requires IsResidual(v, terms, dim, order, dropped)
    ensures IsPartialResidual(v, terms, dim, order, dropped, survivor, [])
  {
  }

  lemma GrowRow(v: seq<int>, stream: seq<int>, plus: bool, terms: PairTerms, dim: nat,
                order: seq<OrgId>, dropped: seq<OrgId>, survivor: OrgId, visited: seq<OrgId>, drop: OrgId)
    requires IsPartialResidual(v, terms, dim, order, dropped, survivor, visited) && |stream| == dim
    requires forall c :: 0 <= c < dim ==> terms(c, survivor, drop) == if plus then stream[c] else -stream[c]
    ensures IsPartialResidual(if plus then AddVec(v, stream) else SubVec(v, stream),
                              terms, dim, order, dropped, survivor, visited + [drop])
  {
    var grown := if plus then AddVec(v, stream) else SubVec(v, stream);
    forall c | 0 <= c < dim
      ensures grown[c]
           == Wrap(Double(Slice(terms, c), order, dropped) + Row(Slice(terms, c), survivor, visited + [drop]))
    {
      var m := Slice(terms, c);
      SumOfLast(visited, drop, RowOf(m, survivor));
      WrapStep(
          Double(m, order, dropped) + Row(m, survivor, visited), stream[c], plus, m(survivor, drop), v[c], grown[c]);
    }
  }

  lemma FinishRow(v: seq<int>, terms: PairTerms, dim: nat, order: seq<OrgId>, dropped: seq<OrgId>, survivor: OrgId)
    requires IsPartialResidual(v, terms, dim, order, dropped, survivor, dropped)
    ensures IsResidual(v, terms, dim, order + [survivor], dropped)
  {
    forall c | 0 <= c < dim
      ensures v[c] == Wrap(Double(Slice(terms, c), order + [survivor], dropped))
    {
      SumOfLast(order, survivor, RowsOver(Slice(terms, c), dropped));
    }
  }

  lemma TotalGrows(v: seq<int>, dim: nat, contributions: map<OrgId, Contribution>, order: seq<OrgId>, id: OrgId)
    requires IsTotal(v, dim, contributions, order)
    requires id in contributions && |contributions[id].maskedUpdate| == dim
    ensures IsTotal(AddVec(v, contributions[id].maskedUpdate), dim, contributions, order + [id])
  {
    forall c | 0 <= c < dim
      ensures Wrap(v[c] + contributions[id].maskedUpdate[c]) == Wrap(Sum(order + [id], MaskedAt(contributions, c)))
    {
      SumOfLast(order, id, MaskedAt(contributions, c));
      WrapAdd(Sum(order, MaskedAt(contributions, c)), contributions[id].maskedUpdate[c]);
    }
  }

  lemma OpenedFromParts(masked: seq<int>, residual: seq<int>, p: Primitives, dim: nat,
                        contributions: map<OrgId, Contribution>, seeds: map<(OrgId, OrgId), Bytes>,
                        visitOrder: seq<OrgId>, rowOrder: seq<OrgId>, order: seq<OrgId>, dropped: seq<OrgId>, c: nat)
    requires Enumerates(visitOrder, contributions.Keys) && Enumerates(rowOrder, contributions.Keys)
    requires Enumerates(order, contributions.Keys) && c < dim
    requires IsTotal(masked, dim, contributions, visitOrder)
    requires IsResidual(residual, ServerTerms(p, seeds), dim, rowOrder, dropped)
    ensures Wrap(masked[c] - residual[c]) == OpenedAt(p, contributions, seeds, order, dropped, c)
  {
    var m := Slice(ServerTerms(p, seeds), c);
    SumPermutation(visitOrder, order, MaskedAt(contributions, c));
    DoublePermutation(m, rowOrder, order, dropped);
    WrapDifference(Sum(visitOrder, MaskedAt(contributions, c)), Double(m, rowOrder, dropped));
  }

  class SecAggServer {
    const prims: Primitives
    const roundId: string
    const roster: seq<OrgId>
    const dim: nat
    var keys: map<OrgId, Bytes>
    var contributions: map<OrgId, Contribution>
    var seeds: map<(OrgId, OrgId), Bytes>

    ghost predicate Valid()
      reads this
    {
      && Lawful(prims)
      && keys.Keys <= Elements(roster)
      && contributions.Keys <= Elements(roster)
      && forall id :: id in contributions ==> |contributions[id].maskedUpdate| == dim
    }

    constructor (prims: Primitives, roundId: string, roster: seq<OrgId>, dim: nat)
      requires Lawful(prims)
      ensures Valid()
      ensures this.prims == prims && this.roundId == roundId && this.roster == roster && this.dim == dim
      ensures keys == map[] && contributions == map[] && seeds == map[]
    {
      this.prims, this.roundId, this.roster, this.dim := prims, roundId, roster, dim;
      keys, contributions, seeds := map[], map[], map[];
    }

    method Register(orgId: OrgId, publicKey: Bytes) returns (r: Result<(), Error>)
      requires Valid()
      modifies this`keys
      ensures Valid()
      ensures orgId !in roster ==> r == Err(NotInRoster)
      ensures orgId in roster && |publicKey| != 32 ==> r == Err(ValueError)
      ensures orgId in roster && |publicKey| == 32 ==> r == Ok(())
      ensures keys == if r.Ok? then old(keys)[orgId := publicKey] else old(keys)
    {
      if orgId !in roster {
        return Err(NotInRoster);
      }
      if |publicKey| != 32 {
        return Err(ValueError);
      }
      keys := keys[orgId := publicKey];
      return Ok(());
    }

    method Receive(contribution: Contribution) returns (r: Result<(), Error>)
      requires Valid()
      modifies this`contributions
      ensures Valid()
      ensures contribution.orgId !in roster ==> r == Err(NotInRoster)
      ensures contribution.orgId in roster && |contribution.maskedUpdate| != dim ==> r == Err(ValueError)
      ensures contribution.orgId in roster && |contribution.maskedUpdate| == dim ==> r == Ok(())
      ensures contributions
           == if r.Ok? then old(contributions)[contribution.orgId := contribution] else old(contributions)
    {
      if contribution.orgId !in roster {
        return Err(NotInRoster);
      }
      if |contribution.maskedUpdate| != dim {
        return Err(ValueError);
      }
      contributions := contributions[contribution.orgId := contribution];
      return Ok(());
    }

    method AddRecoverySeed(survivor: OrgId, dropped: OrgId, seed: Bytes) returns (r: Result<(), Error>)
      requires Valid()
      modifies this`seeds
      ensures Valid()
      ensures r == if survivor in roster && dropped in roster then Ok(()) else Err(ValueError)
      ensures seeds == if r.Ok? then old(seeds)[PairKey(survivor, dropped) := seed] else old(seeds)
    {
      if survivor !in roster || dropped !in roster {
        return Err(ValueError);
      }
      seeds := seeds[PairKey(survivor, dropped) := seed];
      return Ok(());
    }

    function Dropped(): seq<OrgId>
      reads this
    {
      Restrict(roster, (set x | x in roster) - contributions.Keys)
    }

    ghost predicate SeedMissing()
      reads this
    {
      exists i, j {:trigger PairKey(i, j)} :: i in contributions.Keys && j in Dropped() && PairKey(i, j) !in seeds
    }

    /** The terms of one survivor with every dropped peer, added to the residual. */
    method ResidualRow(residual: seq<int>, survivor: OrgId, dropped: seq<OrgId>, ghost order: seq<OrgId>)
      returns (r: Result<seq<int>, Error>)
      requires Valid() && IsResidual(residual, ServerTerms(prims, seeds), dim, order, dropped)
      ensures r.Err? ==> r == Err(ProtocolError)
      ensures r.Err? <==> exists j :: j in dropped && PairKey(survivor, j) !in seeds
      ensures r.Ok? ==> IsResidual(r.value, ServerTerms(prims, seeds), dim, order + [survivor], dropped)
    {
      ghost var terms := ServerTerms(prims, seeds);
      var acc := residual;
      StartRow(acc, terms, dim, order, dropped, survivor);
      for k := 0 to |dropped|
        invariant forall j :: j in dropped[..k] ==> PairKey(survivor, j) in seeds
        invariant IsPartialResidual(acc, terms, dim, order, dropped, survivor, dropped[..k])
      {
        var drop := dropped[k];
        assert dropped[..k + 1] == dropped[..k] + [drop];
        var key := PairKey(survivor, drop);
        if key !in seeds {
          return Err(ProtocolError);
        }
        var stream := IntMasks(prims.mac, seeds[key], dim);
        GrowRow(acc, stream, StrLess(survivor, drop), terms, dim, order, dropped, survivor, dropped[..k], drop);
        acc := if StrLess(survivor, drop) then AddVec(acc, stream) else SubVec(acc, stream);
      }
      assert dropped[..|dropped|] == dropped;
      FinishRow(acc, terms, dim, order, dropped, survivor);
      return Ok(acc);
    }

    /** Sum of the signed mask terms of every survivor with every dropped peer, survivors in any order. */
    method Residual(dropped: seq<OrgId>) returns (r: Result<seq<int>, Error>, ghost order: seq<OrgId>)
      requires Valid()
      ensures r.Err? ==> r == Err(ProtocolError)
      ensures r.Err? <==>
          exists i, j {:trigger PairKey(i, j)} :: i in contributions.Keys && j in dropped && PairKey(i, j) !in seeds
      ensures r.Ok? ==> Enumerates(order, contributions.Keys)
                        && IsResidual(r.value, ServerTerms(prims, seeds), dim, order, dropped)
    {
      var received := contributions.Keys;
      r := Ok(Zeros(dim));
      var todo := received;
      order := [];
      while todo != {}
        invariant todo <= received && Enumerates(order, received - todo)
        invariant r.Ok? && IsResidual(r.value, ServerTerms(prims, seeds), dim, order, dropped)
        invariant forall i, j :: i in received - todo && j in dropped ==> PairKey(i, j) in seeds
      {
        var survivor :| survivor in todo;
        r := ResidualRow(r.value, survivor, dropped, order);
        if r.Err? {
          return;
        }
        EnumerationExtends(order, received - todo, survivor);
        assert received - (todo - {survivor}) == (received - todo) + {survivor};
        order := order + [survivor];
        todo := todo - {survivor};
      }
      assert received - todo == received;
    }

    method TotalMasked() returns (total: seq<int>, ghost order: seq<OrgId>)
      requires Valid()
      ensures Enumerates(order, contributions.Keys) && IsTotal(total, dim, contributions, order)
    {
      var received := contributions.Keys;
      total := Zeros(dim);
      var todo := received;
      order := [];
      while todo != {}
        invariant todo <= received && Enumerates(order, received - todo)
        invariant IsTotal(total, dim, contributions, order)
      {
        var id :| id in todo;
        TotalGrows(total, dim, contributions, order, id);
        total := AddVec(total, contributions[id].maskedUpdate);
        EnumerationExtends(order, received - todo, id);
        assert received - (todo - {id}) == (received - todo) + {id};
        order := order + [id];
        todo := todo - {id};
      }
      assert received - todo == received;
    }

    method Finalize() returns (r: Result<seq<real>, Error>)
      requires Valid()
      ensures r.Err? ==> r == Err(ProtocolError)
      ensures r.Err? <==> contributions == map[] || SeedMissing()
      ensures r.Ok? ==>
                && |r.value| == dim
                && forall order, c {:trigger OpenedAt(prims, contributions, seeds, order, Dropped(), c)} ::
                     Enumerates(order, contributions.Keys) && 0 <= c < dim ==>
                     r.value[c] == Dequantize(OpenedAt(prims, contributions, seeds, order, Dropped(), c))
    {
      if contributions == map[] {
        return Err(ProtocolError);
      }
      var residual, rowOrder := Residual(Dropped());
      if residual.Err? {
        return Err(residual.error);
      }
      var masked, visitOrder := TotalMasked();
      var total := SubVec(masked, residual.value);
      forall order, c | Enumerates(order, contributions.Keys) && 0 <= c < dim
        ensures total[c] == OpenedAt(prims, contributions, seeds, order, Dropped(), c)
      {
        OpenedFromParts(
            masked, residual.value, prims, dim, contributions, seeds, visitOrder, rowOrder, order, Dropped(), c);
      }
      return Ok(seq(dim, c requires 0 <= c < dim => Dequantize(total[c])));
    }
  }
}
