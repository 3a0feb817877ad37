/** Sensitivity of the federated mean, and who a round result names (sentrylink/federated/server.py). */
module FederatedTheorems {
  import opened Foundations
  import opened Int64
  import opened RealVectors
  import opened SecureAggregation
  import opened MaskedSum
  import opened Sums
  import opened Federated
  import Sorting

  /** The clipped float vector a member's quantized contribution stands for. */
  function Clipped(sqrt: real -> real, m: Member): (v: seq<real>)
    ensures |v| == |m.vector|
  {
    ClipL2(sqrt, m.vector, UPDATE_CLIP)
  }

  lemma RintBounded(x: real, bound: int)
    requires -(bound as real) <= x <= bound as real
    ensures -bound <= Rint(x) <= bound
  {
  }

  lemma UnitInterval(x: real)
    requires Times(x, x) <= 1.0
    ensures -1.0 <= x <= 1.0
  {
    if x > 1.0 {
      PositiveProduct(x - 1.0, x + 1.0);
    } else if x < -1.0 {
      PositiveProduct(-x - 1.0, 1.0 - x);
    }
  }

  /** No coordinate of a clipped contribution exceeds the quantization scale. */
  lemma QuantizedBounded(sqrt: real -> real, m: Member, c: nat)
    requires IsSquareRoot(sqrt) && c < |m.vector|
    ensures -QUANT_SCALE <= QuantizedAt(sqrt, Some(UPDATE_CLIP), c)(m) <= QUANT_SCALE
  {
    ClippedNorm(sqrt, m.vector, UPDATE_CLIP);
    var v := Clipped(sqrt, m);
    CoordinateBelowNorm(v, c);
    UnitInterval(v[c]);
    RintBounded(v[c] * QUANT_SCALE as real, QUANT_SCALE);
  }

  lemma PlainSumFits(sqrt: real -> real, active: seq<Member>, dim: nat, c: nat)
    requires IsSquareRoot(sqrt) && c < dim && |active| * QUANT_SCALE < HALF
    requires forall m :: m in active ==> |m.vector| == dim
    ensures Fits(PlainSum(sqrt, Some(UPDATE_CLIP), active, c))
  {
    forall m | m in active
      ensures -QUANT_SCALE <= QuantizedAt(sqrt, Some(UPDATE_CLIP), c)(m) <= QUANT_SCALE
    {
      QuantizedBounded(sqrt, m, c);
    }
    SumBounded(active, QuantizedAt(sqrt, Some(UPDATE_CLIP), c), QUANT_SCALE);
  }

  /** Replacing one entry of a list moves a sum by the difference of the two terms. */
  lemma SumReplace<T>(s: seq<T>, t: seq<T>, j: nat, f: T -> int)
    requires j < |s| == |t| && s[..j] == t[..j] && s[j + 1..] == t[j + 1..]
    ensures Sum(s, f) - Sum(t, f) == f(s[j]) - f(t[j])
  {
    SumRemove(s, j, f);
    SumRemove(t, j, f);
  }

  /** The same survivors, one of them with another update. */
  ghost predicate ReplaceOne(active: seq<Member>, active': seq<Member>, j: nat, dim: nat) {
    && j < |active| == |active'|
    && active[..j] == active'[..j] && active[j + 1..] == active'[j + 1..]
    && (forall m :: m in active ==> |m.vector| == dim)
    && |active'[j].vector| == dim
  }

  /** The opened contribution of a member at one coordinate. */
  function OpenedShare(sqrt: real -> real, m: Member, c: nat): real {
    Dequantize(QuantizedAt(sqrt, Some(UPDATE_CLIP), c)(m))
  }

  /** A k-th of a difference. */
  function Share(x: real, y: real, k: nat): real
    requires k > 0
  {
    Times(1.0 / k as real, x - y)
  }

  lemma DifferenceOfMeans(a: int, b: int, x: int, y: int, k: nat)
    requires k > 0 && a - b == x - y && Fits(a) && Fits(b)
    ensures MeanOf(a, k) - MeanOf(b, k) == Share(Dequantize(x), Dequantize(y), k)
  {
    var p := 1.0 / k as real;
    assert Dequantize(a) / k as real == Dequantize(a) * p;
    assert Dequantize(b) / k as real == Dequantize(b) * p;
    assert Dequantize(a) - Dequantize(b) == Dequantize(x) - Dequantize(y);
    assert Dequantize(a) * p - Dequantize(b) * p == (Dequantize(a) - Dequantize(b)) * p;
  }

  lemma ReplacedLengths(active: seq<Member>, active': seq<Member>, j: nat, dim: nat)
    requires ReplaceOne(active, active', j, dim)
    ensures forall m :: m in active' ==> |m.vector| == dim
  {
    forall m | m in active' ensures |m.vector| == dim {
      var i :| 0 <= i < |active'| && active'[i] == m;
      assert i < j ==> active[..j][i] == active'[..j][i];
      assert i > j ==> active[j + 1..][i - j - 1] == active'[j + 1..][i - j - 1];
    }
  }

  lemma SumsDiffer(sqrt: real -> real, active: seq<Member>, active': seq<Member>, j: nat, dim: nat, c: nat)
    requires IsSquareRoot(sqrt) && ReplaceOne(active, active', j, dim) && c < dim
    requires |active| * QUANT_SCALE < HALF
    ensures Fits(PlainSum(sqrt, Some(UPDATE_CLIP), active, c)) && Fits(PlainSum(sqrt, Some(UPDATE_CLIP), active', c))
    ensures PlainSum(sqrt, Some(UPDATE_CLIP), active, c) - PlainSum(sqrt, Some(UPDATE_CLIP), active', c)
         == QuantizedAt(sqrt, Some(UPDATE_CLIP), c)(active[j]) - QuantizedAt(sqrt, Some(UPDATE_CLIP), c)(active'[j])
  {
    ReplacedLengths(active, active', j, dim);
    PlainSumFits(sqrt, active, dim, c);
    PlainSumFits(sqrt, active', dim, c);
    SumReplace(active, active', j, QuantizedAt(sqrt, Some(UPDATE_CLIP), c));
  }

  lemma MeansDiffer(sqrt: real -> real, active: seq<Member>, active': seq<Member>, j: nat, dim: nat, c: nat)
    requires IsSquareRoot(sqrt) && ReplaceOne(active, active', j, dim) && c < dim
    requires |active| * QUANT_SCALE < HALF
    ensures MeanAt(sqrt, active, c) - MeanAt(sqrt, active', c)
         == Share(OpenedShare(sqrt, active[j], c), OpenedShare(sqrt, active'[j], c), |active|)
  {
    SumsDiffer(sqrt, active, active', j, dim, c);
    var f := QuantizedAt(sqrt, Some(UPDATE_CLIP), c);
    DifferenceOfMeans(PlainSum(sqrt, Some(UPDATE_CLIP), active, c), PlainSum(sqrt, Some(UPDATE_CLIP), active', c),
                      f(active[j]), f(active'[j]), |active|);
  }

  /** What rounding adds to the difference of two clipped vectors at one coordinate. */
  function RoundingGap(sqrt: real -> real, m: Member, m': Member, c: nat): real
    requires c < |m.vector| == |m'.vector|
  {
    OpenedShare(sqrt, m, c) - OpenedShare(sqrt, m', c) - (Clipped(sqrt, m)[c] - Clipped(sqrt, m')[c])
  }

  lemma RoundingIsSmall(sqrt: real -> real, m: Member, m': Member, c: nat)
    requires c < |m.vector| == |m'.vector|
    ensures -(1.0 / QUANT_SCALE as real) <= RoundingGap(sqrt, m, m', c) <= 1.0 / QUANT_SCALE as real
  {
    var v, v' := Clipped(sqrt, m)[c], Clipped(sqrt, m')[c];
    var q, q' := Rint(v * QUANT_SCALE as real), Rint(v' * QUANT_SCALE as real);
    assert -1.0 <= (q - q') as real - (v - v') * QUANT_SCALE as real <= 1.0;
  }

  /** Two vectors inside the clipping ball differ by at most its diameter. */
  lemma BallDiameter(a: seq<real>, b: seq<real>)
    requires |a| == |b| && SumSq(a) <= UPDATE_CLIP * UPDATE_CLIP && SumSq(b) <= UPDATE_CLIP * UPDATE_CLIP
    ensures SumSq(Subtract(a, b)) <= (2.0 * UPDATE_CLIP) * (2.0 * UPDATE_CLIP)
  {
    SumSqOfScale(-1.0, b);
    assert Add(a, Scale(-1.0, b)) == Subtract(a, b);
    NormTriangle(a, Scale(-1.0, b), UPDATE_CLIP, UPDATE_CLIP);
  }

  /** √d / QUANT_SCALE: how far rounding can move the difference of two vectors. */
  function Granule(rootD: real): real {
    rootD / QUANT_SCALE as real
  }

  lemma GapNorm(sqrt: real -> real, m: Member, m': Member, gap: seq<real>, rootD: real)
    requires |gap| == |m.vector| == |m'.vector| && rootD * rootD == |gap| as real
    requires forall c :: 0 <= c < |gap| ==> gap[c] == RoundingGap(sqrt, m, m', c)
    ensures SumSq(gap) <= Granule(rootD) * Granule(rootD)
  {
    var bound := 1.0 / QUANT_SCALE as real;
    forall c | 0 <= c < |gap| ensures -bound <= gap[c] <= bound {
      RoundingIsSmall(sqrt, m, m', c);
    }
    SumSqBounded(gap, bound);
    assert Granule(rootD) == rootD * bound;
    assert (rootD * bound) * (rootD * bound) == (rootD * rootD) * (bound * bound);
  }

  /** Coordinate-wise difference of two members' opened contributions. */
  function ShareGap(sqrt: real -> real, m: Member, m': Member): (d: seq<real>)
    requires |m.vector| == |m'.vector|
    ensures |d| == |m.vector| && forall c :: 0 <= c < |d| ==> d[c] == OpenedShare(sqrt, m, c) - OpenedShare(sqrt, m', c)
  {
    seq(|m.vector|, c requires 0 <= c < |m.vector| => OpenedShare(sqrt, m, c) - OpenedShare(sqrt, m', c))
  }

  /** The rounding part of the difference, as a vector: difference of shares minus difference of clipped vectors. */
  lemma RoundingGaps(sqrt: real -> real, m: Member, m': Member) returns (gap: seq<real>)
    requires |m.vector| == |m'.vector|
    ensures |gap| == |m.vector|
    ensures forall c :: 0 <= c < |gap| ==> gap[c] == RoundingGap(sqrt, m, m', c)
    ensures forall c :: 0 <= c < |gap| ==>
              ShareGap(sqrt, m, m')[c] == Subtract(Clipped(sqrt, m), Clipped(sqrt, m'))[c] + gap[c]
  {
    gap := seq(|m.vector|, c requires 0 <= c < |m.vector| => RoundingGap(sqrt, m, m', c));
  }

  lemma NormOfSum(d: seq<real>, u: seq<real>, gap: seq<real>, p: real, q: real)
    requires |d| == |u| == |gap| && forall c :: 0 <= c < |d| ==> d[c] == u[c] + gap[c]
    requires p >= 0.0 && q >= 0.0 && SumSq(u) <= p * p && SumSq(gap) <= q * q
    ensures SumSq(d) <= Times(p + q, p + q)
  {
    assert d == Add(u, gap);
    NormTriangle(u, gap, p, q);
  }

  lemma SharesDiffer(sqrt: real -> real, m: Member, m': Member, rootD: real)
    requires IsSquareRoot(sqrt) && |m.vector| == |m'.vector|
    requires rootD >= 0.0 && rootD * rootD == |m.vector| as real
    ensures SumSq(ShareGap(sqrt, m, m')) <= Times(
        2.0 * UPDATE_CLIP + Granule(rootD), 2.0 * UPDATE_CLIP + Granule(rootD))
  {
    ClippedNorm(sqrt, m.vector, UPDATE_CLIP);
    ClippedNorm(sqrt, m'.vector, UPDATE_CLIP);
    BallDiameter(Clipped(sqrt, m), Clipped(sqrt, m'));
    var gap := RoundingGaps(sqrt, m, m');
    GapNorm(sqrt, m, m', gap, rootD);
    NormOfSum(
        ShareGap(sqrt, m, m'), Subtract(Clipped(sqrt, m), Clipped(sqrt, m')), gap, 2.0 * UPDATE_CLIP, Granule(rootD));
  }

  lemma MeanGap(sqrt: real -> real, active: seq<Member>, active': seq<Member>, j: nat, dim: nat)
    requires IsSquareRoot(sqrt) && ReplaceOne(active, active', j, dim) && |active| * QUANT_SCALE < HALF
    requires |active[j].vector| == dim
    ensures Subtract(MeanVector(sqrt, active, dim), MeanVector(sqrt, active', dim))
         == Scale(1.0 / |active| as real, ShareGap(sqrt, active[j], active'[j]))
  {
    var diff := Subtract(MeanVector(sqrt, active, dim), MeanVector(sqrt, active', dim));
    var scaled := Scale(1.0 / |active| as real, ShareGap(sqrt, active[j], active'[j]));
    forall c | 0 <= c < dim ensures diff[c] == scaled[c] {
      MeansDiffer(sqrt, active, active', j, dim, c);
      ShareOfGap(diff[c], 1.0 / |active| as real, ShareGap(sqrt, active[j], active'[j]), c,
                 OpenedShare(sqrt, active[j], c), OpenedShare(sqrt, active'[j], c), |active|);
    }
  }

  lemma ShareOfGap(diff: real, s: real, gap: seq<real>, c: nat, x: real, y: real, k: nat)
    requires k > 0 && s == 1.0 / k as real && diff == Share(x, y, k)
    requires c < |gap| && gap[c] == x - y
    ensures diff == Scale(s, gap)[c]
  {
  }

  lemma MeanGapNorm(sqrt: real -> real, active: seq<Member>, active': seq<Member>, j: nat, dim: nat, rootD: real)
    requires IsSquareRoot(sqrt) && ReplaceOne(active, active', j, dim) && |active| * QUANT_SCALE < HALF
    requires rootD >= 0.0 && rootD * rootD == dim as real
    ensures var bound := Times(1.0 / |active| as real, 2.0 * UPDATE_CLIP + Granule(rootD));
            SumSq(Subtract(MeanVector(sqrt, active, dim), MeanVector(sqrt, active', dim))) <= Times(bound, bound)
  {
    var m, m' := active[j], active'[j];
    assert m in active;
    SharesDiffer(sqrt, m, m', rootD);
    MeanGap(sqrt, active, active', j, dim);
    ScaledNorm(1.0 / |active| as real, ShareGap(sqrt, m, m'), 2.0 * UPDATE_CLIP + Granule(rootD));
  }

  /** The sensitivity the noise is calibrated to, and what rounding to granules can add. */
  ghost function CalibratedBound(k: nat, granule: real): real
    requires k > 0
  {
    MeanSensitivity(k) + granule / k as real
  }

  /**
   * Replace-one sensitivity of the released mean before noise, through clipping, rounding, masking, opening and
   * division: in L2 at most the sensitivity 2·C/k the noise is calibrated to plus √d / (k·QUANT_SCALE), for any
   * cohort the int64 accumulator can hold.
   */
  lemma ReplaceOneSensitivity(sqrt: real -> real, active: seq<Member>, active': seq<Member>, j: nat, dim: nat,
                              rootD: real)
    requires IsSquareRoot(sqrt) && ReplaceOne(active, active', j, dim) && |active| * QUANT_SCALE < HALF
    requires rootD >= 0.0 && rootD * rootD == dim as real
    ensures Times(MeanSensitivity(|active|), |active| as real) == 2.0 * UPDATE_CLIP
    ensures var bound := CalibratedBound(|active|, Granule(rootD));
            SumSq(Subtract(MeanVector(sqrt, active, dim), MeanVector(sqrt, active', dim))) <= Times(bound, bound)
  {
    MeanGapNorm(sqrt, active, active', j, dim, rootD);
    BoundInParts(|active|, Granule(rootD));
    SameBound(SumSq(Subtract(MeanVector(sqrt, active, dim), MeanVector(sqrt, active', dim))),
              Times(1.0 / |active| as real, 2.0 * UPDATE_CLIP + Granule(rootD)),
              CalibratedBound(|active|, Granule(rootD)));
  }

  lemma SameBound(x: real, p: real, q: real)
    requires x <= Times(p, p) && p == q
    ensures x <= Times(q, q)
  {
  }

  lemma BoundInParts(k: nat, granule: real)
    requires k > 0
    ensures Times(1.0 / k as real, 2.0 * UPDATE_CLIP + granule) == CalibratedBound(k, granule)
    ensures Times(MeanSensitivity(k), k as real) == 2.0 * UPDATE_CLIP
  {
    var s := 1.0 / k as real;
    assert granule / k as real == s * granule && MeanSensitivity(k) == s * (2.0 * UPDATE_CLIP);
    assert s * k as real == 1.0;
  }

  // ---- what the mean is a mean of ----

  /** Sum over the members of what their updates are clipped to, at one coordinate. */
  ghost function ClippedTotal(sqrt: real -> real, active: seq<Member>, c: nat): real
    requires forall m :: m in active ==> c < |m.vector|
  {
    if active == [] then 0.0
    else ClippedTotal(sqrt, active[..|active| - 1], c) + Clipped(sqrt, active[|active| - 1])[c]
  }

  /** `total` steps are within half a step per summand of `exact`. */
  ghost predicate RoundedSum(total: int, exact: real, k: nat) {
    -0.5 * k as real <= total as real - exact * QUANT_SCALE as real <= 0.5 * k as real
  }

  lemma NothingRounded()
    ensures RoundedSum(0, 0.0, 0)
  {
  }

  lemma OneMoreRounded(total: int, exact: real, q: int, x: real, k: nat)
    requires RoundedSum(total, exact, k) && q == Rint(x * QUANT_SCALE as real)
    ensures RoundedSum(total + q, exact + x, k + 1)
  {
  }

  lemma QuantizedUpdate(sqrt: real -> real, m: Member, c: nat)
    requires c < |m.vector|
    ensures QuantizedAt(sqrt, Some(UPDATE_CLIP), c)(m) == Rint(Clipped(sqrt, m)[c] * QUANT_SCALE as real)
  {
  }

  lemma {:induction false} PlainSumRounds(sqrt: real -> real, active: seq<Member>, c: nat)
    requires forall m :: m in active ==> c < |m.vector|
    ensures RoundedSum(PlainSum(sqrt, Some(UPDATE_CLIP), active, c), ClippedTotal(sqrt, active, c), |active|)
  {
    if active == [] {
      NothingRounded();
    } else {
      var init, last := active[..|active| - 1], active[|active| - 1];
      PlainSumRounds(sqrt, init, c);
      QuantizedUpdate(sqrt, last, c);
      OneMoreRounded(PlainSum(sqrt, Some(UPDATE_CLIP), init, c), ClippedTotal(sqrt, init, c),
                     QuantizedAt(sqrt, Some(UPDATE_CLIP), c)(last), Clipped(sqrt, last)[c], |init|);
    }
  }

  lemma MeanTimesCount(total: int, exact: real, k: nat)
    requires k > 0 && Fits(total) && RoundedSum(total, exact, k)
    ensures Within(Times(MeanOf(total, k), k as real), exact, Slack(k))
  {
    var d := Dequantize(total);
    assert Times(d / k as real, k as real) == d;
    LossWithinQuantum(total as real, exact, k);
  }

  /**
   * The mean before noise times the number of active members is the sum of their clipped updates, up to half a quantum
   * per member, at every coordinate and for any cohort the int64 accumulator can hold.
   */
  lemma MeanIsAverage(sqrt: real -> real, active: seq<Member>, dim: nat, c: nat)
    requires IsSquareRoot(sqrt) && active != [] && |active| * QUANT_SCALE < HALF && c < dim
    requires forall m :: m in active ==> |m.vector| == dim
    ensures Within(Times(MeanAt(sqrt, active, c), |active| as real), ClippedTotal(sqrt, active, c), Slack(|active|))
  {
    PlainSumFits(sqrt, active, dim, c);
    PlainSumRounds(sqrt, active, c);
    MeanTimesCount(PlainSum(sqrt, Some(UPDATE_CLIP), active, c), ClippedTotal(sqrt, active, c), |active|);
  }

  lemma ScaledNorm(s: real, d: seq<real>, p: real)
    requires SumSq(d) <= Times(p, p)
    ensures SumSq(Scale(s, d)) <= Times(Times(s, p), Times(s, p))
  {
    SumSqOfScale(s, d);
    assert s * s >= 0.0;
    assert s * s * SumSq(d) <= s * s * (p * p);
    assert Times(Times(s, p), Times(s, p)) == s * s * (p * p);
  }

  /** Participants and dropped members of a round are exactly its roster, each member once. */
  lemma RosterPartition(res: RoundResult, clients: seq<FederatedClient>, drop: seq<OrgId>)
    requires res.participants == Sorting.Sorted(ClientIds(ActiveClients(clients, drop)))
    requires res.dropped == Sorting.Sorted(Restrict(ClientIds(clients), DropSet(drop)))
    ensures multiset(res.participants) + multiset(res.dropped) == multiset(ClientIds(clients))
    ensures Sorting.Ascending(res.participants) && Sorting.Ascending(res.dropped)
    ensures forall id :: id in res.dropped <==> id in ClientIds(clients) && id in drop
  {
    SplitRoster(clients, drop);
    Sorting.SortedAscending(ClientIds(ActiveClients(clients, drop)));
    Sorting.SortedAscending(Restrict(ClientIds(clients), DropSet(drop)));
    forall id ensures id in res.dropped <==> id in ClientIds(clients) && id in drop {
      assert id in res.dropped <==> id in multiset(res.dropped);
      assert id in Restrict(ClientIds(clients), DropSet(drop)) <==>
          id in multiset(Restrict(ClientIds(clients), DropSet(drop)));
    }
  }

  lemma {:induction false} SplitRoster(clients: seq<FederatedClient>, drop: seq<OrgId>)
    ensures multiset(ClientIds(ActiveClients(clients, drop))) + multiset(Restrict(ClientIds(clients), DropSet(drop)))
         == multiset(ClientIds(clients))
  {
    if clients != [] {
      var init, last := clients[..|clients| - 1], clients[|clients| - 1];
      SplitRoster(init, drop);
      assert ClientIds(clients)[..|init|] == ClientIds(init);
      assert ClientIds(clients) == ClientIds(init) + [last.orgId];
      if last.orgId !in drop {
        assert ClientIds(ActiveClients(clients, drop)) == ClientIds(ActiveClients(init, drop)) + [last.orgId];
      }
    }
  }
}
