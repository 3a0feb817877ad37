/** The L2 cap on contributions (sentrylink/governance/policy.py) and the sensitivity it gives the joint histogram. */
module Contributions {
  import opened Foundations
  import opened MpcStats
  import opened RealVectors
  import opened SecretSharing
  import opened Sums

  const MAX_ORG_CONTRIB: real := 100.0

  function AsReals(v: seq<int>): (r: seq<real>)
    ensures |r| == |v| && forall i :: 0 <= i < |r| ==> r[i] == v[i] as real
  {
    seq(|v|, i requires 0 <= i < |v| => v[i] as real)
  }

  /** numpy.fix: truncation toward zero. */
  function Fix(x: real): (r: int)
    ensures 0.0 <= r as real <= x || x <= r as real <= 0.0
    ensures -1.0 < x - r as real < 1.0
    ensures x == x.Floor as real ==> r == x.Floor
  {
    if x >= 0.0 then x.Floor else -((-x).Floor)
  }

  function FixAll(v: seq<real>): (r: seq<int>)
    ensures |r| == |v| && forall i :: 0 <= i < |r| ==> r[i] == Fix(v[i])
  {
    seq(|v|, i requires 0 <= i < |v| => Fix(v[i]))
  }

  /** Projection of a count vector onto the L2 ball, rounded inward. */
  function CapContributions(sqrt: real -> real, values: seq<int>, radius: real): (r: seq<int>)
    ensures |r| == |values|
  {
    var v := AsReals(values);
    var norm := Norm(sqrt, v);
    FixAll(if norm > radius && norm > 0.0 then Scale(radius / norm, v) else v)
  }

  lemma FixShrinks(v: seq<real>)
    ensures SumSq(AsReals(FixAll(v))) <= SumSq(v)
  {
    SumSqShrinks(AsReals(FixAll(v)), v);
  }

  lemma FixKeepsIntegers(values: seq<int>)
    ensures FixAll(AsReals(values)) == values
  {
  }

  lemma RootOfZero(norm: real, radius: real, x: real)
    requires norm >= 0.0 && norm * norm == x
    ensures norm <= radius || norm == 0.0 ==> x <= radius * radius
  {
    if norm <= radius {
      ProductMonotone(norm, radius, norm, radius);
    } else if norm == 0.0 {
      SquarePositive(radius);
    }
  }

  lemma ScaledToRadius(v: seq<real>, norm: real, radius: real)
    requires norm > 0.0 && norm * norm == SumSq(v)
    ensures SumSq(Scale(radius / norm, v)) == radius * radius
  {
    var k := radius / norm;
    SumSqOfScale(k, v);
    assert k * norm == radius;
    assert k * k * (norm * norm) == (k * norm) * (k * norm);
  }

  /** Whatever the input, the capped vector stays inside the ball in spite of rounding. */
  lemma CapStaysInBall(sqrt: real -> real, values: seq<int>, radius: real)
    requires IsSquareRoot(sqrt)
    ensures SumSq(AsReals(CapContributions(sqrt, values, radius))) <= radius * radius
  {
    var v := AsReals(values);
    var norm := Norm(sqrt, v);
    NormSquared(sqrt, v);
    if norm > radius && norm > 0.0 {
      ScaledToRadius(v, norm, radius);
      FixShrinks(Scale(radius / norm, v));
    } else {
      RootOfZero(norm, radius, SumSq(v));
      FixShrinks(v);
    }
  }

  /** `r` is x / norm truncated toward zero. */
  ghost predicate TruncatesTo(r: int, x: real, norm: real) {
    if x >= 0.0 then r >= 0 && Times(r as real, norm) <= x < Times((r + 1) as real, norm)
    else r <= 0 && Times((r - 1) as real, norm) < x <= Times(r as real, norm)
  }

  lemma FixOfQuotient(q: real, x: real, norm: real)
    requires norm > 0.0 && q * norm == x
    ensures TruncatesTo(Fix(q), x, norm)
  {
    var r := Fix(q);
    if q < 0.0 {
      PositiveProduct(-q, norm);
      PositiveProduct(q - (r - 1) as real, norm);
      ProductMonotone(0.0, r as real - q, 0.0, norm);
    } else {
      ProductMonotone(0.0, q, 0.0, norm);
      PositiveProduct((r + 1) as real - q, norm);
      ProductMonotone(0.0, q - r as real, 0.0, norm);
    }
  }

  lemma ScaledCoordinate(v: seq<real>, norm: real, radius: real, i: nat)
    requires norm > 0.0 && i < |v|
    ensures Scale(radius / norm, v)[i] * norm == radius * v[i]
  {
    var k := radius / norm;
    assert k * norm == radius;
    assert (k * v[i]) * norm == (k * norm) * v[i];
  }

  /** Outside the ball every coordinate is v·radius/norm truncated toward zero: same direction, less than one off. */
  lemma CapTruncates(sqrt: real -> real, values: seq<int>, radius: real, i: nat)
    requires IsSquareRoot(sqrt) && i < |values|
    requires Norm(sqrt, AsReals(values)) > radius && Norm(sqrt, AsReals(values)) > 0.0
    ensures TruncatesTo(CapContributions(sqrt, values, radius)[i], radius * values[i] as real,
                        Norm(sqrt, AsReals(values)))
  {
    var v := AsReals(values);
    var norm := Norm(sqrt, v);
    ScaledCoordinate(v, norm, radius, i);
    FixOfQuotient(Scale(radius / norm, v)[i], radius * values[i] as real, norm);
  }

  /** An integer vector inside the ball is released unchanged. */
  lemma CapKeepsInBall(sqrt: real -> real, values: seq<int>, radius: real)
    requires IsSquareRoot(sqrt) && radius >= 0.0 && SumSq(AsReals(values)) <= radius * radius
    ensures CapContributions(sqrt, values, radius) == values
  {
    var v := AsReals(values);
    NormSquared(sqrt, v);
    SquareMonotone(Norm(sqrt, v), radius);
    FixKeepsIntegers(values);
  }

  lemma SquareInside(x: real, radius: real)
    requires radius >= 0.0 && Times(x, x) <= radius * radius
    ensures -radius <= x <= radius
  {
    SquareMonotone(x, radius);
    SquareMonotone(-x, radius);
  }

  lemma EntryInRadius(sqrt: real -> real, values: seq<int>, radius: real, i: nat)
    requires IsSquareRoot(sqrt) && radius >= 0.0 && i < |values|
    ensures -radius <= CapContributions(sqrt, values, radius)[i] as real <= radius
  {
    var capped := CapContributions(sqrt, values, radius);
    CapStaysInBall(sqrt, values, radius);
    CoordinateBelowNorm(AsReals(capped), i);
    SquareInside(capped[i] as real, radius);
  }

  // ---- the joint histogram ----

  function CapAll(sqrt: real -> real, raw: seq<seq<int>>, radius: real): (r: seq<seq<int>>)
    ensures |r| == |raw| && forall k :: 0 <= k < |r| ==> r[k] == CapContributions(sqrt, raw[k], radius)
  {
    seq(|raw|, k requires 0 <= k < |raw| => CapContributions(sqrt, raw[k], radius))
  }

  lemma CeilingBounds(x: int, radius: real, bound: nat)
    requires -radius <= x as real <= radius && radius <= bound as real
    ensures -(bound as int) <= x <= bound
  {
  }

  /** Capped totals cannot leave the signed range while cohort size times radius is below (p-1)/2. */
  lemma CappedTotalsInRange(sqrt: real -> real, raw: seq<seq<int>>, radius: real, bound: nat, i: nat)
    requires IsSquareRoot(sqrt) && 0.0 <= radius <= bound as real && |raw| * bound <= SIGNED_MAX
    ensures InRange(Sum(CapAll(sqrt, raw, radius), Entry(i)))
  {
    var capped := CapAll(sqrt, raw, radius);
    forall v | v in capped ensures -(bound as int) <= Entry(i)(v) <= bound {
      var k :| 0 <= k < |capped| && capped[k] == v;
      if i < |v| {
        EntryInRadius(sqrt, raw[k], radius, i);
        CeilingBounds(v[i], radius, bound);
      }
    }
    SumBounded(capped, Entry(i), bound);
  }

  function Without<T>(s: seq<T>, k: nat): seq<T>
    requires k < |s|
  {
    s[..k] + s[k + 1..]
  }

  lemma CapWithout(sqrt: real -> real, raw: seq<seq<int>>, radius: real, k: nat)
    requires k < |raw|
    ensures CapAll(sqrt, Without(raw, k), radius) == Without(CapAll(sqrt, raw, radius), k)
  {
  }

  /** Opened totals: the exact bucket sums as far as they stay in the signed range. */
  ghost predicate OpensTotals(total: seq<int>, capped: seq<seq<int>>, nodeIds: seq<string>) {
    NoDuplicates(nodeIds) ==>
      forall i :: 0 <= i < |total| && InRange(Sum(capped, Entry(i))) ==> total[i] == Sum(capped, Entry(i))
  }

  /** The joint histogram of these contributions: capped, shared, added and opened. */
  method JointHistogram(sqrt: real -> real, raw: seq<seq<int>>, radius: real, nodeIds: seq<string>, tapes: nat -> Tape)
    returns (r: Result<seq<int>, Error>)
    ensures r.Err? ==> r == Err(ValueError)
    ensures r.Ok? <==> raw != [] && |nodeIds| >= 2 && Shareable(CapAll(sqrt, raw, radius))
    ensures r.Ok? ==> |r.value| == |raw[0]| && OpensTotals(r.value, CapAll(sqrt, raw, radius), nodeIds)
  {
    r := RunHistogram(CapAll(sqrt, raw, radius), nodeIds, tapes);
  }

  /** `total` holds the exact bucket sums of the capped contributions. */
  ghost predicate OpensHistogram(total: seq<int>, sqrt: real -> real, raw: seq<seq<int>>, radius: real, buckets: nat) {
    |total| == buckets && forall i :: 0 <= i < buckets ==> total[i] == Sum(CapAll(sqrt, raw, radius), Entry(i))
  }

  /** While cohort size times radius is within the signed range, what is opened is exact in every bucket. */
  lemma OpenedIsExact(sqrt: real -> real, raw: seq<seq<int>>, radius: real, bound: nat, nodeIds: seq<string>,
                      total: seq<int>)
    requires IsSquareRoot(sqrt) && 0.0 <= radius <= bound as real && |raw| * bound <= SIGNED_MAX
    requires NoDuplicates(nodeIds) && OpensTotals(total, CapAll(sqrt, raw, radius), nodeIds)
    ensures OpensHistogram(total, sqrt, raw, radius, |total|)
  {
    forall i | 0 <= i < |total| ensures total[i] == Sum(CapAll(sqrt, raw, radius), Entry(i)) {
      CappedTotalsInRange(sqrt, raw, radius, bound, i);
    }
  }

  function Difference(a: seq<int>, b: seq<int>): (d: seq<int>)
    requires |a| == |b|
    ensures |d| == |a| && forall i :: 0 <= i < |d| ==> d[i] == a[i] - b[i]
  {
    seq(|a|, i requires 0 <= i < |a| => a[i] - b[i])
  }

  lemma ExactDifference(sqrt: real -> real, raw: seq<seq<int>>, k: nat, radius: real, buckets: nat, total: seq<int>,
                        without: seq<int>)
    requires IsSquareRoot(sqrt) && k < |raw| && |raw[k]| == buckets
    requires OpensHistogram(total, sqrt, raw, radius, buckets)
    requires OpensHistogram(without, sqrt, Without(raw, k), radius, buckets)
    ensures Difference(total, without) == CapContributions(sqrt, raw[k], radius)
  {
    var capped := CapAll(sqrt, raw, radius);
    CapWithout(sqrt, raw, radius, k);
    forall i | 0 <= i < buckets ensures Difference(total, without)[i] == capped[k][i] {
      SumRemove(capped, k, Entry(i));
    }
    assert Difference(total, without) == capped[k];
  }

  /**
   * Removing (or adding back) one organization moves the totals that are opened, on any tapes, by exactly its capped
   * contribution, hence by at most the radius in L2.
   */
  lemma HistogramSensitivity(sqrt: real -> real, raw: seq<seq<int>>, k: nat, radius: real, bound: nat,
                             nodeIds: seq<string>, total: seq<int>, without: seq<int>)
    requires IsSquareRoot(sqrt) && 0.0 <= radius <= bound as real && |raw| * bound <= SIGNED_MAX
    requires NoDuplicates(nodeIds) && k < |raw| && |raw[k]| == |total| == |without|
    requires OpensTotals(total, CapAll(sqrt, raw, radius), nodeIds)
    requires OpensTotals(without, CapAll(sqrt, Without(raw, k), radius), nodeIds)
    ensures Difference(total, without) == CapContributions(sqrt, raw[k], radius)
    ensures SumSq(AsReals(Difference(total, without))) <= radius * radius
  {
    OpenedIsExact(sqrt, raw, radius, bound, nodeIds, total);
    FewerInRange(|raw|, bound);
    OpenedIsExact(sqrt, Without(raw, k), radius, bound, nodeIds, without);
    ExactDifference(sqrt, raw, k, radius, |total|, total, without);
    CapStaysInBall(sqrt, raw[k], radius);
  }

  /** The same for the platform's cap of 100. */
  lemma CappedSensitivity(sqrt: real -> real, raw: seq<seq<int>>, k: nat, nodeIds: seq<string>, total: seq<int>,
                          without: seq<int>)
    requires IsSquareRoot(sqrt) && |raw| * 100 <= SIGNED_MAX
    requires NoDuplicates(nodeIds) && k < |raw| && |raw[k]| == |total| == |without|
    requires OpensTotals(total, CapAll(sqrt, raw, MAX_ORG_CONTRIB), nodeIds)
    requires OpensTotals(without, CapAll(sqrt, Without(raw, k), MAX_ORG_CONTRIB), nodeIds)
    ensures SumSq(AsReals(Difference(total, without))) <= MAX_ORG_CONTRIB * MAX_ORG_CONTRIB
  {
    HistogramSensitivity(sqrt, raw, k, MAX_ORG_CONTRIB, 100, nodeIds, total, without);
  }

  lemma FewerInRange(n: nat, bound: nat)
    requires n > 0
    ensures (n - 1) * bound <= n * bound
  {
  }
}
