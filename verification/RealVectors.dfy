/** Real vectors with the L2 norm given by its square; no square root is computed here. */
module RealVectors {

  function Times(x: real, y: real): real {
    x * y
  }

  function Dot(a: seq<real>, b: seq<real>): real
    requires |a| == |b|
  {
    if a == [] then 0.0 else Dot(a[..|a| - 1], b[..|b| - 1]) + Times(a[|a| - 1], b[|b| - 1])
  }

  function SumSq(a: seq<real>): real {
    Dot(a, a)
  }

  function Blend(s: real, x: real, t: real, y: real): real {
    s * x + t * y
  }

  /** s·a + t·b, coordinate by coordinate. */
  function Combine(s: real, a: seq<real>, t: real, b: seq<real>): (r: seq<real>)
    requires |a| == |b|
    ensures |r| == |a| && forall i :: 0 <= i < |r| ==> r[i] == Blend(s, a[i], t, b[i])
  {
    seq(|a|, i requires 0 <= i < |a| => Blend(s, a[i], t, b[i]))
  }

  function Scale(s: real, a: seq<real>): (r: seq<real>)
    ensures |r| == |a| && forall i :: 0 <= i < |r| ==> r[i] == s * a[i]
  {
    seq(|a|, i requires 0 <= i < |a| => Blend(s, a[i], 0.0, a[i]))
  }

  function Add(a: seq<real>, b: seq<real>): (r: seq<real>)
    requires |a| == |b|
    ensures |r| == |a| && forall i :: 0 <= i < |r| ==> r[i] == a[i] + b[i]
  {
    seq(|a|, i requires 0 <= i < |a| => a[i] + b[i])
  }

  function Subtract(a: seq<real>, b: seq<real>): (r: seq<real>)
    requires |a| == |b|
    ensures |r| == |a| && forall i :: 0 <= i < |r| ==> r[i] == a[i] - b[i]
  {
    seq(|a|, i requires 0 <= i < |a| => a[i] - b[i])
  }

  lemma {:induction false} SumSqNonNegative(a: seq<real>)
    ensures SumSq(a) >= 0.0
  {
    if a != [] {
      SumSqNonNegative(a[..|a| - 1]);
      SquarePositive(a[|a| - 1]);
    }
  }

  /** No coordinate exceeds the norm. */
  lemma {:induction false} CoordinateBelowNorm(v: seq<real>, c: nat)
    requires c < |v|
    ensures Times(v[c], v[c]) <= SumSq(v)
  {
    SumSqNonNegative(v[..|v| - 1]);
    SquarePositive(v[|v| - 1]);
    if c < |v| - 1 {
      CoordinateBelowNorm(v[..|v| - 1], c);
    }
  }

  lemma SquarePositive(x: real)
    ensures Times(x, x) >= 0.0
    ensures x > 0.0 || x < 0.0 ==> Times(x, x) > 0.0
  {
    if x > 0.0 {
      PositiveProduct(x, x);
    } else if x < 0.0 {
      PositiveProduct(-x, -x);
    }
  }

  lemma {:induction false} SumSqZero(a: seq<real>)
    requires SumSq(a) == 0.0
    ensures forall i :: 0 <= i < |a| ==> a[i] == 0.0
  {
    if a != [] {
      var init, x := a[..|a| - 1], a[|a| - 1];
      SumSqNonNegative(init);
      SquarePositive(x);
      assert SumSq(a) == SumSq(init) + Times(x, x);
      assert !(x > 0.0) && !(x < 0.0);
      SumSqZero(init);
      assert forall i :: 0 <= i < |init| ==> init[i] == a[i];
    }
  }

  lemma {:induction false} DotZero(a: seq<real>, b: seq<real>)
    requires |a| == |b| && forall i :: 0 <= i < |a| ==> a[i] == 0.0
    ensures Dot(a, b) == 0.0
  {
    if a != [] {
      DotZero(a[..|a| - 1], b[..|b| - 1]);
    }
  }

  /** The quadratic form s²·A + 2st·D + t²·B. */
  function Form(s: real, t: real, A: real, D: real, B: real): real {
    s * s * A + 2.0 * s * t * D + t * t * B
  }

  lemma FormOfSquares(s: real, x: real, t: real, y: real)
    ensures Times(Blend(s, x, t, y), Blend(s, x, t, y)) == Form(s, t, Times(x, x), Times(x, y), Times(y, y))
  {
  }

  lemma FormAdditive(s: real, t: real, A: real, D: real, B: real, A': real, D': real, B': real)
    ensures Form(s, t, A + A', D + D', B + B') == Form(s, t, A, D, B) + Form(s, t, A', D', B')
  {
  }

  lemma {:induction false} SumSqOfCombination(s: real, a: seq<real>, t: real, b: seq<real>)
    requires |a| == |b|
    ensures SumSq(Combine(s, a, t, b)) == Form(s, t, SumSq(a), Dot(a, b), SumSq(b))
  {
    if a != [] {
      var n := |a| - 1;
      assert Combine(s, a, t, b)[..n] == Combine(s, a[..n], t, b[..n]);
      SumSqOfCombination(s, a[..n], t, b[..n]);
      FormOfSquares(s, a[n], t, b[n]);
      FormAdditive(s, t, SumSq(a[..n]), Dot(a[..n], b[..n]), SumSq(b[..n]),
                   Times(a[n], a[n]), Times(a[n], b[n]), Times(b[n], b[n]));
    }
  }

  lemma {:induction false} SumSqOfScale(s: real, a: seq<real>)
    ensures SumSq(Scale(s, a)) == s * s * SumSq(a)
  {
    assert Scale(s, a) == Combine(s, a, 0.0, a);
    SumSqOfCombination(s, a, 0.0, a);
  }

  lemma CancelPositive(p: real, x: real)
    requires p > 0.0 && p * x >= 0.0
    ensures x >= 0.0
  {
  }

  /** Cauchy–Schwarz, from the non-negative square of A·b − (a·b)·a. */
  lemma CauchySchwarz(a: seq<real>, b: seq<real>)
    requires |a| == |b|
    ensures Dot(a, b) * Dot(a, b) <= SumSq(a) * SumSq(b)
  {
    var A, B, D := SumSq(a), SumSq(b), Dot(a, b);
    SumSqNonNegative(a);
    if A == 0.0 {
      SumSqZero(a);
      DotZero(a, b);
    } else {
      SumSqOfCombination(-D, a, A, b);
      SumSqNonNegative(Combine(-D, a, A, b));
      Factor(A, B, D);
      CancelPositive(A, A * B - D * D);
    }
  }

  lemma Factor(A: real, B: real, D: real)
    ensures Form(-D, A, A, D, B) == A * (A * B - D * D)
  {
  }

  lemma PositiveProduct(x: real, y: real)
    requires x > 0.0 && y > 0.0
    ensures Times(x, y) > 0.0
  {
  }

  lemma SquareMonotone(x: real, y: real)
    requires 0.0 <= y && x * x <= y * y
    ensures x <= y
  {
    assert Times(x - y, x + y) == x * x - y * y;
    if x > y {
      PositiveProduct(x - y, x + y);
    }
  }

  /** Triangle inequality: norms bounded by p and q add to at most p + q. */
  lemma NormTriangle(a: seq<real>, b: seq<real>, p: real, q: real)
    requires |a| == |b| && p >= 0.0 && q >= 0.0
    requires SumSq(a) <= p * p && SumSq(b) <= q * q
    ensures SumSq(Add(a, b)) <= (p + q) * (p + q)
  {
    CauchySchwarz(a, b);
    SumSqNonNegative(a);
    SumSqNonNegative(b);
    var D := Dot(a, b);
    assert SumSq(a) * SumSq(b) <= (p * p) * (q * q) by {
      ProductMonotone(SumSq(a), p * p, SumSq(b), q * q);
    }
    assert (p * p) * (q * q) == (p * q) * (p * q);
    SquareMonotone(D, p * q);
    assert Add(a, b) == Combine(1.0, a, 1.0, b);
    SumSqOfCombination(1.0, a, 1.0, b);
    assert (p + q) * (p + q) == p * p + 2.0 * (p * q) + q * q;
  }

  lemma ProductMonotone(x: real, x': real, y: real, y': real)
    requires 0.0 <= x <= x' && 0.0 <= y <= y'
    ensures x * y <= x' * y'
  {
    assert x * y <= x' * y;
    assert x' * y <= x' * y';
  }

  lemma {:induction false} SumSqBounded(a: seq<real>, bound: real)
    requires forall i :: 0 <= i < |a| ==> -bound <= a[i] <= bound
    ensures SumSq(a) <= |a| as real * (bound * bound)
  {
    if a != [] {
      var x := a[|a| - 1];
      SumSqBounded(a[..|a| - 1], bound);
      assert (bound - x) * (bound + x) >= 0.0;
      assert |a| as real * (bound * bound) == (|a| - 1) as real * (bound * bound) + bound * bound;
    }
  }

  /** Coordinate-wise shrinking towards zero never raises the norm. */
  lemma {:induction false} SumSqShrinks(a: seq<real>, b: seq<real>)
    requires |a| == |b|
    requires forall i :: 0 <= i < |a| ==> 0.0 <= a[i] <= b[i] || b[i] <= a[i] <= 0.0
    ensures SumSq(a) <= SumSq(b)
  {
    if a != [] {
      var x, y := a[|a| - 1], b[|b| - 1];
      SumSqShrinks(a[..|a| - 1], b[..|b| - 1]);
      if 0.0 <= x <= y {
        ProductMonotone(x, y, x, y);
      } else {
        ProductMonotone(-x, -y, -x, -y);
      }
    }
  }

  /** `sqrt` is right at x. */
  ghost predicate RootAt(sqrt: real -> real, x: real) {
    sqrt(x) >= 0.0 && sqrt(x) * sqrt(x) == x
  }

  /** A square root, known only by its square. */
  ghost predicate IsSquareRoot(sqrt: real -> real) {
    forall x {:trigger RootAt(sqrt, x)} :: x >= 0.0 ==> RootAt(sqrt, x)
  }

  /** The norm of a vector squares to the sum of its squares. */
  lemma NormSquared(sqrt: real -> real, a: seq<real>)
    requires IsSquareRoot(sqrt)
    ensures Norm(sqrt, a) >= 0.0 && Norm(sqrt, a) * Norm(sqrt, a) == SumSq(a)
  {
    SumSqNonNegative(a);
    assert RootAt(sqrt, SumSq(a));
  }

  function Norm(sqrt: real -> real, a: seq<real>): real {
    sqrt(SumSq(a))
  }
}
