/** Sums, centred vectors and moments of real rows, and of the integer rows that stand for them. */
module Moments {
  import opened RealVectors

  function RealSum(a: seq<real>): real {
    if a == [] then 0.0 else RealSum(a[..|a| - 1]) + a[|a| - 1]
  }

  function IntSum(q: seq<int>): int {
    if q == [] then 0 else IntSum(q[..|q| - 1]) + q[|q| - 1]
  }

  function IntDot(a: seq<int>, b: seq<int>): int
    requires |a| == |b|
  {
    if a == [] then 0 else IntDot(a[..|a| - 1], b[..|b| - 1]) + a[|a| - 1] * b[|b| - 1]
  }

  lemma {:induction false} IntSumAppend(a: seq<int>, b: seq<int>)
    ensures IntSum(a + b) == IntSum(a) + IntSum(b)
  {
    if b == [] {
      assert a + b == a;
    } else {
      assert (a + b)[..|a + b| - 1] == a + b[..|b| - 1];
      IntSumAppend(a, b[..|b| - 1]);
    }
  }

  lemma {:induction false} IntDotAppend(a: seq<int>, b: seq<int>, c: seq<int>, d: seq<int>)
    requires |a| == |c| && |b| == |d|
    ensures IntDot(a + b, c + d) == IntDot(a, c) + IntDot(b, d)
  {
    if b == [] {
      assert a + b == a && c + d == c;
    } else {
      assert (a + b)[..|a + b| - 1] == a + b[..|b| - 1];
      assert (c + d)[..|c + d| - 1] == c + d[..|d| - 1];
      IntDotAppend(a, b[..|b| - 1], c, d[..|d| - 1]);
    }
  }

  // ---- population moments ----

  function Mean(a: seq<real>): real
    requires a != []
  {
    RealSum(a) / |a| as real
  }

  function ShiftedBy(a: seq<real>, m: real): (r: seq<real>)
    ensures |r| == |a| && forall i :: 0 <= i < |r| ==> r[i] == a[i] - m
  {
    seq(|a|, i requires 0 <= i < |a| => a[i] - m)
  }

  function Centered(a: seq<real>): (r: seq<real>)
    requires a != []
    ensures |r| == |a|
  {
    ShiftedBy(a, Mean(a))
  }

  /** Population covariance: the average product of deviations from the means. */
  function PopulationCovariance(a: seq<real>, b: seq<real>): real
    requires |a| == |b| && a != []
  {
    Dot(Centered(a), Centered(b)) / |a| as real
  }

  function PopulationVariance(a: seq<real>): real
    requires a != []
  {
    PopulationCovariance(a, a)
  }

  /** The same from sufficient statistics: product sum, the two sums, the count. */
  function FromStatistics(dot: real, sa: real, sb: real, n: int): real
    requires n != 0
  {
    dot / n as real - (sa / n as real) * (sb / n as real)
  }

  function Expanded(dot: real, sa: real, sb: real, m: real, k: real, n: nat): real {
    dot - k * sa - m * sb + n as real * (m * k)
  }

  lemma ExpandedStep(dot: real, sa: real, sb: real, m: real, k: real, n: nat, x: real, y: real)
    ensures Expanded(dot + Times(x, y), sa + x, sb + y, m, k, n + 1)
         == Expanded(dot, sa, sb, m, k, n) + Times(x - m, y - k)
  {
    assert (n + 1) as real * (m * k) == n as real * (m * k) + m * k;
  }

  lemma {:induction false} DotShifted(a: seq<real>, m: real, b: seq<real>, k: real)
    requires |a| == |b|
    ensures Dot(ShiftedBy(a, m), ShiftedBy(b, k)) == Expanded(Dot(a, b), RealSum(a), RealSum(b), m, k, |a|)
  {
    if a != [] {
      var n := |a| - 1;
      assert ShiftedBy(a, m)[..n] == ShiftedBy(a[..n], m);
      assert ShiftedBy(b, k)[..n] == ShiftedBy(b[..n], k);
      DotShifted(a[..n], m, b[..n], k);
      ExpandedStep(Dot(a[..n], b[..n]), RealSum(a[..n]), RealSum(b[..n]), m, k, n, a[n], b[n]);
    }
  }

  lemma ExpandedAtMeans(dot: real, sa: real, sb: real, n: nat)
    requires n > 0
    ensures Expanded(dot, sa, sb, sa / n as real, sb / n as real, n) / n as real == FromStatistics(dot, sa, sb, n)
  {
    var r := n as real;
    var m, k := sa / r, sb / r;
    assert m * r == sa && k * r == sb;
    assert k * sa == (m * k) * r;
    assert m * sb == (m * k) * r;
    assert Expanded(dot, sa, sb, m, k, n) == dot - (m * k) * r;
    DivideDifference(dot, m * k, r);
  }

  lemma DivideDifference(dot: real, p: real, r: real)
    requires r > 0.0
    ensures (dot - p * r) / r == dot / r - p
  {
    var x, y := (dot - p * r) / r, dot / r;
    assert x * r == dot - p * r;
    assert y * r == dot;
    assert Times(x - y + p, r) == x * r - y * r + p * r;
    ZeroFactor(x - y + p, r);
  }

  lemma ZeroFactor(x: real, r: real)
    requires r > 0.0 && Times(x, r) == 0.0
    ensures x == 0.0
  {
    if x > 0.0 {
      PositiveProduct(x, r);
    } else if x < 0.0 {
      PositiveProduct(-x, r);
    }
  }

  /** The one-pass formula from sums is the covariance by its definition. */
  lemma StatisticsGiveCovariance(a: seq<real>, b: seq<real>)
    requires |a| == |b| && a != []
    ensures FromStatistics(Dot(a, b), RealSum(a), RealSum(b), |a|) == PopulationCovariance(a, b)
  {
    DotShifted(a, Mean(a), b, Mean(b));
    ExpandedAtMeans(Dot(a, b), RealSum(a), RealSum(b), |a|);
  }

  lemma QuotientNonNegative(x: real, n: nat)
    requires x >= 0.0 && n > 0
    ensures x / n as real >= 0.0
  {
  }

  lemma VarianceNonNegative(a: seq<real>)
    requires a != []
    ensures PopulationVariance(a) >= 0.0
  {
    SumSqNonNegative(Centered(a));
    QuotientNonNegative(SumSq(Centered(a)), |a|);
  }

  lemma QuotientProducts(d: real, x: real, y: real, n: nat)
    requires n > 0 && Times(d, d) <= Times(x, y)
    ensures Times(d / n as real, d / n as real) <= Times(x / n as real, y / n as real)
  {
    var r := 1.0 / n as real;
    assert d / n as real == d * r && x / n as real == x * r && y / n as real == y * r;
    assert Times(d * r, d * r) == Times(d, d) * (r * r);
    assert Times(x * r, y * r) == Times(x, y) * (r * r);
    assert r * r >= 0.0;
  }

  /** Cauchy–Schwarz over the pooled rows: the covariance never exceeds what the variances allow. */
  lemma CovarianceBound(a: seq<real>, b: seq<real>)
    requires |a| == |b| && a != []
    ensures Times(PopulationCovariance(a, b), PopulationCovariance(a, b)) <= Times(
        PopulationVariance(a), PopulationVariance(b))
  {
    CauchySchwarz(Centered(a), Centered(b));
    QuotientProducts(Dot(Centered(a), Centered(b)), SumSq(Centered(a)), SumSq(Centered(b)), |a|);
  }

  /** b is the column a, scaled and shifted. */
  ghost predicate IsAffine(a: seq<real>, b: seq<real>, s: real, t: real) {
    |a| == |b| && forall i :: 0 <= i < |a| ==> b[i] == s * a[i] + t
  }

  lemma AffineStep(s: real, t: real, sum: real, x: real, n: nat)
    ensures (s * sum + n as real * t) + (s * x + t) == s * (sum + x) + (n + 1) as real * t
  {
  }

  lemma {:induction false} AffineSum(a: seq<real>, b: seq<real>, s: real, t: real)
    requires IsAffine(a, b, s, t)
    ensures RealSum(b) == s * RealSum(a) + |a| as real * t
  {
    if a == [] {
      assert 0 as real * t == 0.0;
    } else {
      var n := |a| - 1;
      AffineSum(a[..n], b[..n], s, t);
      AffineStep(s, t, RealSum(a[..n]), a[n], n);
    }
  }

  lemma MeanOfAffine(sum: real, sum': real, s: real, t: real, r: real)
    requires r > 0.0 && sum' == s * sum + r * t
    ensures sum' / r == s * (sum / r) + t
  {
    var m, k := sum / r, sum' / r;
    assert m * r == sum && k * r == sum';
    assert Times(k - s * m - t, r) == k * r - s * (m * r) - t * r;
    ZeroFactor(k - s * m - t, r);
  }

  lemma AffineDeviation(x: real, m: real, k: real, s: real, t: real)
    requires k == s * m + t
    ensures (s * x + t) - k == s * (x - m)
  {
  }

  lemma AffineShifted(a: seq<real>, b: seq<real>, s: real, t: real, m: real, k: real)
    requires IsAffine(a, b, s, t) && k == s * m + t
    ensures ShiftedBy(b, k) == Scale(s, ShiftedBy(a, m))
  {
    forall i | 0 <= i < |a| ensures ShiftedBy(b, k)[i] == Scale(s, ShiftedBy(a, m))[i] {
      AffineDeviation(a[i], m, k, s, t);
    }
  }

  lemma AffineCentered(a: seq<real>, b: seq<real>, s: real, t: real)
    requires IsAffine(a, b, s, t) && a != []
    ensures Centered(b) == Scale(s, Centered(a))
  {
    AffineSum(a, b, s, t);
    MeanOfAffine(RealSum(a), RealSum(b), s, t, |a| as real);
    AffineShifted(a, b, s, t, Mean(a), Mean(b));
  }

  lemma ProductOfScaled(s: real, x: real, total: real)
    ensures s * total + Times(x, s * x) == s * (total + Times(x, x))
  {
  }

  lemma {:induction false} DotOfScale(a: seq<real>, b: seq<real>, s: real)
    requires b == Scale(s, a)
    ensures Dot(a, b) == Times(s, SumSq(a))
  {
    if a != [] {
      var n := |a| - 1;
      assert b[..n] == Scale(s, a[..n]);
      DotOfScale(a[..n], b[..n], s);
      ProductOfScaled(s, a[n], SumSq(a[..n]));
    }
  }

  lemma ScaledQuotient(x: real, y: real, s: real, n: nat)
    requires n > 0 && y == Times(s, x)
    ensures y / n as real == Times(s, x / n as real)
  {
    var r := 1.0 / n as real;
    assert y / n as real == y * r && x / n as real == x * r;
  }

  lemma ScaledCovariance(a: seq<real>, b: seq<real>, c: seq<real>, d: seq<real>, s: real)
    requires |a| == |b| && a != [] && c == Centered(a) && d == Centered(b) == Scale(s, c)
    ensures PopulationCovariance(a, b) == Times(s, PopulationVariance(a))
  {
    DotOfScale(c, d, s);
    ScaledQuotient(SumSq(c), Dot(c, d), s, |a|);
  }

  lemma ScaledVariance(a: seq<real>, b: seq<real>, c: seq<real>, s: real)
    requires |a| == |b| && a != [] && c == Centered(a) && Centered(b) == Scale(s, c)
    ensures PopulationVariance(b) == Times(s * s, PopulationVariance(a))
  {
    SumSqOfScale(s, c);
    ScaledQuotient(SumSq(c), SumSq(Centered(b)), s * s, |a|);
  }

  /** Scaling a column scales its covariance with the original once and its variance twice; shifting does nothing. */
  lemma AffineMoments(a: seq<real>, b: seq<real>, s: real, t: real)
    requires IsAffine(a, b, s, t) && a != []
    ensures PopulationCovariance(a, b) == Times(s, PopulationVariance(a))
    ensures PopulationVariance(b) == Times(s * s, PopulationVariance(a))
  {
    AffineCentered(a, b, s, t);
    ScaledCovariance(a, b, Centered(a), Centered(b), s);
    ScaledVariance(a, b, Centered(a), s);
  }

  // ---- integer rows as reals ----

  /** The real rows that fixed-point integers with the given scale stand for. */
  function Unscaled(q: seq<int>, scale: int): (r: seq<real>)
    requires scale > 0
    ensures |r| == |q| && forall i :: 0 <= i < |r| ==> r[i] == q[i] as real / scale as real
  {
    seq(|q|, i requires 0 <= i < |q| => q[i] as real / scale as real)
  }

  lemma SumOfQuotients(x: int, y: int, scale: int)
    requires scale > 0
    ensures x as real / scale as real + y as real / scale as real == (x + y) as real / scale as real
  {
    var r := 1.0 / scale as real;
    assert x as real / scale as real == x as real * r && y as real / scale as real == y as real * r;
    assert (x + y) as real / scale as real == (x as real + y as real) * r;
  }

  lemma ProductOfQuotients(x: int, y: int, scale: int)
    requires scale > 0
    ensures scale * scale > 0
    ensures Times(x as real / scale as real, y as real / scale as real) == (x * y) as real / (scale * scale) as real
  {
    var r := 1.0 / scale as real;
    var s := scale as real;
    assert (scale * scale) as real == s * s;
    assert (x * y) as real == x as real * y as real;
    assert r * s == 1.0;
    var p := Times(x as real / s, y as real / s);
    assert x as real / s == x as real * r && y as real / s == y as real * r;
    assert p == (x as real * y as real) * (r * r);
    assert (r * r) * (s * s) == (r * s) * (r * s) == 1.0;
    assert p * (s * s) == x as real * y as real;
  }

  lemma {:induction false} SumUnscaled(q: seq<int>, scale: int)
    requires scale > 0
    ensures RealSum(Unscaled(q, scale)) == IntSum(q) as real / scale as real
  {
    if q != [] {
      var init := q[..|q| - 1];
      assert Unscaled(q, scale)[..|init|] == Unscaled(init, scale);
      SumUnscaled(init, scale);
      SumOfQuotients(IntSum(init), q[|init|], scale);
    }
  }

  lemma {:induction false} DotUnscaled(a: seq<int>, b: seq<int>, scale: int)
    requires |a| == |b| && scale > 0
    ensures scale * scale > 0
    ensures Dot(Unscaled(a, scale), Unscaled(b, scale)) == IntDot(a, b) as real / (scale * scale) as real
  {
    if a != [] {
      var n := |a| - 1;
      assert Unscaled(a, scale)[..n] == Unscaled(a[..n], scale);
      assert Unscaled(b, scale)[..n] == Unscaled(b[..n], scale);
      DotUnscaled(a[..n], b[..n], scale);
      ProductOfQuotients(a[n], b[n], scale);
      SumOfQuotients(IntDot(a[..n], b[..n]), a[n] * b[n], scale * scale);
    } else {
      ProductOfQuotients(0, 0, scale);
    }
  }
}
