/** Privacy budgets, RDP costs and the accountant (sentrylink/crypto/differential_privacy.py). */
module DifferentialPrivacy {
  import opened Foundations
  import opened RealVectors

  datatype PrivacyBudget = PrivacyBudget(epsilon: real, delta: real)

  /** Renyi cost per order alpha. */
  type RdpCost = map<real, real>

  /** The slack of every admission comparison. */
  const TOLERANCE: real := 0.000000000001

  const RDP_ALPHAS: set<real> := {1.5, 1.75, 2.0, 2.5, 3.0, 4.0, 5.0, 6.0, 8.0, 16.0, 32.0, 64.0}

  /** Natural logarithm and exponential, known only by the facts the accounting needs. */
  datatype Analysis = Analysis(ln: real -> real, exp: real -> real, sqrt: real -> real)

  /** ln(w1 + w2·exp(-y)); for weights adding to 1 concavity of ln bounds it below by -w2·y. */
  function LogMix(m: Analysis, w1: real, w2: real, y: real): real {
    m.ln(w1 + Times(w2, m.exp(-y)))
  }

  /** Concavity of ln between 1 and exp(-y). */
  ghost predicate MixAt(m: Analysis, w1: real, w2: real, y: real) {
    LogMix(m, w1, w2, y) >= -Times(w2, y)
  }

  ghost predicate LawfulAnalysis(m: Analysis) {
    && (forall x :: x > 1.0 ==> m.ln(x) > 0.0)
    && (forall w1, w2, y {:trigger MixAt(m, w1, w2, y)} ::
           w1 >= 0.0 && w2 >= 0.0 && w1 + w2 == 1.0 ==> MixAt(m, w1, w2, y))
    && IsSquareRoot(m.sqrt)
  }

  // ---- calibration and per-release costs ----

  function GaussianSigma(m: Analysis, sensitivity: real, epsilon: real, delta: real): Result<real, Error> {
    if sensitivity <= 0.0 || epsilon <= 0.0 || !(0.0 < delta < 1.0) then Err(ValueError)
    else Ok(sensitivity * m.sqrt(2.0 * m.ln(1.25 / delta)) / epsilon)
  }

  function GaussianRho(sensitivity: real, sigma: real): real
    requires sigma > 0.0
  {
    (sensitivity / sigma) * (sensitivity / sigma) / 2.0
  }

  function GaussianRdpCost(sensitivity: real, sigma: real): Result<RdpCost, Error> {
    if sensitivity <= 0.0 || sigma <= 0.0 then Err(ValueError)
    else
      var rho := GaussianRho(sensitivity, sigma);
      Ok(map a | a in RDP_ALPHAS :: a * rho)
  }

  /** ln(w1 + w2·exp(-d·epsilon)) with weights a/d and (a-1)/d. */
  function LaplaceLog(m: Analysis, epsilon: real, a: real, d: real): real
    requires d > 0.0
  {
    LogMix(m, a / d, (a - 1.0) / d, d * epsilon)
  }

  function LaplaceRdpAt(m: Analysis, epsilon: real, a: real): real
    requires a > 1.0
  {
    var v := epsilon + LaplaceLog(m, epsilon, a, 2.0 * a - 1.0) / (a - 1.0);
    if v < epsilon then v else epsilon
  }

  lemma AlphasExceedOne(a: real)
    requires a in RDP_ALPHAS
    ensures a > 1.0
  {
  }

  function LaplaceRdpCost(m: Analysis, epsilon: real): Result<RdpCost, Error> {
    if epsilon <= 0.0 then Err(ValueError)
    else Ok(map a | a in RDP_ALPHAS :: AlphasExceedOne(a); LaplaceRdpAt(m, epsilon, a))
  }

  lemma QuotientOfProduct(s: real, r: real, e: real, sigma: real)
    requires s > 0.0 && r > 0.0 && e > 0.0 && sigma == s * r / e
    ensures sigma > 0.0 && s / sigma == e / r
  {
    PositiveProduct(s, r);
    assert sigma * e == s * r;
    var q := e / r;
    assert q * r == e;
    assert q * sigma * e == q * (s * r) == s * e;
    assert q * sigma == s;
  }

  /**
   * The RDP cost of a Gaussian release at its own calibrated noise does not depend on the sensitivity, hence
   * not on the cohort size: a preview with the full cohort prices the round with dropouts exactly.
   */
  lemma GaussianCostIgnoresCohort(m: Analysis, s1: real, s2: real, epsilon: real, delta: real)
    requires LawfulAnalysis(m) && s1 > 0.0 && s2 > 0.0 && epsilon > 0.0 && 0.0 < delta < 1.0
    ensures GaussianSigma(m, s1, epsilon, delta).Ok? && GaussianSigma(m, s2, epsilon, delta).Ok?
    ensures GaussianRdpCost(s1, GaussianSigma(m, s1, epsilon, delta).value)
         == GaussianRdpCost(s2, GaussianSigma(m, s2, epsilon, delta).value)
    ensures GaussianRdpCost(s1, GaussianSigma(m, s1, epsilon, delta).value).Ok?
  {
    var r := m.sqrt(2.0 * m.ln(1.25 / delta));
    CalibrationPositive(m, delta);
    QuotientOfProduct(s1, r, epsilon, GaussianSigma(m, s1, epsilon, delta).value);
    QuotientOfProduct(s2, r, epsilon, GaussianSigma(m, s2, epsilon, delta).value);
    assert GaussianRho(s1, GaussianSigma(m, s1, epsilon, delta).value) == (epsilon / r) * (epsilon / r) / 2.0;
    assert GaussianRho(s2, GaussianSigma(m, s2, epsilon, delta).value) == (epsilon / r) * (epsilon / r) / 2.0;
  }

  lemma SquaredRatio(e: real, r: real, l: real)
    requires r > 0.0 && r * r == 2.0 * l
    ensures l > 0.0 && (e / r) * (e / r) / 2.0 * (4.0 * l) == e * e
  {
    var q := e / r;
    assert q * r == e;
    assert (q * q) * (r * r) == (q * r) * (q * r);
    PositiveProduct(r, r);
  }

  lemma RhoClosedForm(s: real, sigma: real, epsilon: real, r: real, l: real)
    requires s > 0.0 && r > 0.0 && epsilon > 0.0 && sigma == s * r / epsilon && r * r == 2.0 * l
    ensures sigma > 0.0 && Times(GaussianRho(s, sigma), 4.0 * l) == epsilon * epsilon
  {
    QuotientOfProduct(s, r, epsilon, sigma);
    SquaredRatio(epsilon, r, l);
  }

  lemma CalibratedRho(m: Analysis, s: real, epsilon: real, delta: real, sigma: real)
    requires LawfulAnalysis(m) && s > 0.0 && epsilon > 0.0 && 0.0 < delta < 1.0
    requires GaussianSigma(m, s, epsilon, delta) == Ok(sigma)
    ensures sigma > 0.0 && Times(GaussianRho(s, sigma), 4.0 * m.ln(1.25 / delta)) == epsilon * epsilon
  {
    CalibrationPositive(m, delta);
    RootSquared(m, delta);
    RhoClosedForm(s, sigma, epsilon, m.sqrt(2.0 * m.ln(1.25 / delta)), m.ln(1.25 / delta));
  }

  lemma CostEntry(s: real, sigma: real, rdp: RdpCost, a: real)
    requires GaussianRdpCost(s, sigma) == Ok(rdp) && a in RDP_ALPHAS
    ensures sigma > 0.0 && a in rdp && rdp[a] == Times(a, GaussianRho(s, sigma))
  {
  }

  /** Closed form: at calibrated noise the cost at order a is a·ε² / (4·ln(1.25/δ)), whatever the sensitivity. */
  lemma GaussianCostClosedForm(m: Analysis, s: real, epsilon: real, delta: real, sigma: real, rdp: RdpCost, a: real)
    requires LawfulAnalysis(m) && s > 0.0 && epsilon > 0.0 && 0.0 < delta < 1.0 && a in RDP_ALPHAS
    requires GaussianSigma(m, s, epsilon, delta) == Ok(sigma) && GaussianRdpCost(s, sigma) == Ok(rdp)
    ensures a in rdp && Times(rdp[a], 4.0 * m.ln(1.25 / delta)) == Times(a, epsilon * epsilon)
  {
    CalibratedRho(m, s, epsilon, delta, sigma);
    CostEntry(s, sigma, rdp, a);
    ScaleEquation(a, GaussianRho(s, sigma), rdp[a], 4.0 * m.ln(1.25 / delta), epsilon * epsilon);
  }

  lemma CalibratedSquare(s: real, r: real, epsilon: real, sigma: real, l: real)
    requires s > 0.0 && r > 0.0 && epsilon > 0.0 && sigma == s * r / epsilon && r * r == l
    ensures sigma > 0.0 && Times(sigma * sigma, epsilon * epsilon) == Times(s * s, l)
  {
    QuotientOfProduct(s, r, epsilon, sigma);
    assert sigma * epsilon == s * r;
    assert (sigma * sigma) * (epsilon * epsilon) == (sigma * epsilon) * (sigma * epsilon);
    assert (s * r) * (s * r) == (s * s) * (r * r);
  }

  /** The calibrated scale: positive, and its square times ε² is twice the squared sensitivity times ln(1.25/δ). */
  lemma SigmaIsCalibrated(m: Analysis, s: real, epsilon: real, delta: real)
    requires LawfulAnalysis(m)
    ensures GaussianSigma(m, s, epsilon, delta) == Err(ValueError) <==>
              s <= 0.0 || epsilon <= 0.0 || delta <= 0.0 || delta >= 1.0
    ensures GaussianSigma(m, s, epsilon, delta).Ok? ==>
              var sigma := GaussianSigma(m, s, epsilon, delta).value;
              sigma > 0.0 && Times(sigma * sigma, epsilon * epsilon) == Times(s * s, 2.0 * m.ln(1.25 / delta))
  {
    if GaussianSigma(m, s, epsilon, delta).Ok? {
      CalibrationPositive(m, delta);
      RootSquared(m, delta);
      CalibratedSquare(s, m.sqrt(2.0 * m.ln(1.25 / delta)), epsilon, GaussianSigma(m, s, epsilon, delta).value,
                       2.0 * m.ln(1.25 / delta));
    }
  }

  lemma CostOfRatio(s: real, sigma: real, a: real, v: real)
    requires sigma > 0.0 && v == Times(a, GaussianRho(s, sigma))
    ensures Times(v, 2.0 * (sigma * sigma)) == Times(a, s * s)
  {
    var q := s / sigma;
    assert q * sigma == s;
    assert (q * q) * (sigma * sigma) == (q * sigma) * (q * sigma);
    assert v * 2.0 == a * (q * q);
    assert (v * 2.0) * (sigma * sigma) == a * ((q * q) * (sigma * sigma));
  }

  /** The Gaussian cost at order a, for any noise: a·s² / (2σ²), at exactly the fixed orders. */
  lemma GaussianCostAtOrder(s: real, sigma: real, a: real)
    ensures GaussianRdpCost(s, sigma) == Err(ValueError) <==> s <= 0.0 || sigma <= 0.0
    ensures GaussianRdpCost(s, sigma).Ok? ==> GaussianRdpCost(s, sigma).value.Keys == RDP_ALPHAS
    ensures GaussianRdpCost(s, sigma).Ok? && a in RDP_ALPHAS ==>
              Times(GaussianRdpCost(s, sigma).value[a], 2.0 * (sigma * sigma)) == Times(a, s * s)
  {
    if GaussianRdpCost(s, sigma).Ok? && a in RDP_ALPHAS {
      CostEntry(s, sigma, GaussianRdpCost(s, sigma).value, a);
      CostOfRatio(s, sigma, a, GaussianRdpCost(s, sigma).value[a]);
    }
  }

  lemma RootSquared(m: Analysis, delta: real)
    requires LawfulAnalysis(m) && 0.0 < delta < 1.0
    ensures var r := m.sqrt(2.0 * m.ln(1.25 / delta)); r * r == 2.0 * m.ln(1.25 / delta)
  {
    assert 1.25 / delta > 1.0;
    assert RootAt(m.sqrt, 2.0 * m.ln(1.25 / delta));
  }

  lemma ScaleEquation(a: real, rho: real, v: real, l: real, e: real)
    requires Times(rho, l) == e && v == Times(a, rho)
    ensures Times(v, l) == Times(a, e)
  {
  }

  lemma CalibrationPositive(m: Analysis, delta: real)
    requires LawfulAnalysis(m) && 0.0 < delta < 1.0
    ensures m.sqrt(2.0 * m.ln(1.25 / delta)) > 0.0
  {
    assert 1.25 / delta > 1.0;
    var x := 2.0 * m.ln(1.25 / delta);
    assert x > 0.0 && RootAt(m.sqrt, x);
    var r := m.sqrt(x);
    assert r * r == x;
  }

  lemma LaplaceWeights(a: real, epsilon: real, d: real)
    requires a > 1.0 && d == 2.0 * a - 1.0
    ensures a / d >= 0.0 && (a - 1.0) / d >= 0.0 && a / d + (a - 1.0) / d == 1.0
    ensures Times((a - 1.0) / d, d * epsilon) == (a - 1.0) * epsilon
  {
    var w1, w2 := a / d, (a - 1.0) / d;
    assert w1 * d == a && w2 * d == a - 1.0;
    assert (w1 + w2) * d == d;
    assert w2 * (d * epsilon) == (w2 * d) * epsilon;
  }

  lemma LaplaceLogBound(m: Analysis, epsilon: real, a: real, d: real)
    requires LawfulAnalysis(m) && a > 1.0 && d == 2.0 * a - 1.0
    ensures LaplaceLog(m, epsilon, a, d) >= -((a - 1.0) * epsilon)
  {
    LaplaceWeights(a, epsilon, d);
    assert MixAt(m, a / d, (a - 1.0) / d, d * epsilon);
  }

  /** Laplace costs lie between 0 and the pure epsilon, for every order. */
  lemma LaplaceCostInRange(m: Analysis, epsilon: real, a: real)
    requires LawfulAnalysis(m) && epsilon > 0.0 && a > 1.0
    ensures 0.0 <= LaplaceRdpAt(m, epsilon, a) <= epsilon
  {
    LaplaceLogBound(m, epsilon, a, 2.0 * a - 1.0);
    DivideBound(LaplaceLog(m, epsilon, a, 2.0 * a - 1.0), a - 1.0, epsilon);
  }

  lemma QuotientSign(l: real, k: real)
    requires k > 0.0
    ensures Times(l / k, k) == l && (l < 0.0 <==> l / k < 0.0)
  {
    var q := l / k;
    if q < 0.0 {
      PositiveProduct(-q, k);
    } else if q > 0.0 {
      PositiveProduct(q, k);
    }
  }

  lemma SameMix(m: Analysis, epsilon: real, a: real, d: real, w1: real, w2: real, y: real)
    requires d > 0.0 && Times(w1, d) == a && Times(w2, d) == a - 1.0 && y == d * epsilon
    ensures LaplaceLog(m, epsilon, a, d) == m.ln(w1 + Times(w2, m.exp(-y)))
  {
    assert w1 == a / d && w2 == (a - 1.0) / d;
    assert LaplaceLog(m, epsilon, a, d) == LogMix(m, w1, w2, y);
  }

  /**
   * The Laplace cost at order a in closed form: with the weights w1 = a/(2a-1) and w2 = (a-1)/(2a-1), the excess over
   * ε times a-1 is the logarithm of w1 + w2·exp(-(2a-1)·ε), unless that is not negative and ε is the cost.
   */
  lemma LaplaceClosedForm(m: Analysis, epsilon: real, a: real, w1: real, w2: real, y: real)
    requires a in RDP_ALPHAS && y == (2.0 * a - 1.0) * epsilon
    requires Times(w1, 2.0 * a - 1.0) == a && Times(w2, 2.0 * a - 1.0) == a - 1.0
    ensures LaplaceRdpCost(m, epsilon) == Err(ValueError) <==> epsilon <= 0.0
    ensures epsilon > 0.0 ==> LaplaceRdpCost(m, epsilon).value.Keys == RDP_ALPHAS
    ensures epsilon > 0.0 ==>
            var l, cost := m.ln(w1 + Times(w2, m.exp(-y))), LaplaceRdpCost(m, epsilon).value[a];
            if l < 0.0 then Times(cost - epsilon, a - 1.0) == l else cost == epsilon
  {
    AlphasExceedOne(a);
    SameMix(m, epsilon, a, 2.0 * a - 1.0, w1, w2, y);
    LaplaceExcess(m, epsilon, a);
  }

  lemma LaplaceExcess(m: Analysis, epsilon: real, a: real)
    requires a > 1.0
    ensures var l, cost := LaplaceLog(m, epsilon, a, 2.0 * a - 1.0), LaplaceRdpAt(m, epsilon, a);
            if l < 0.0 then Times(cost - epsilon, a - 1.0) == l else cost == epsilon
  {
    QuotientSign(LaplaceLog(m, epsilon, a, 2.0 * a - 1.0), a - 1.0);
  }

  lemma DivideBound(l: real, k: real, epsilon: real)
    requires k > 0.0 && l >= -(k * epsilon)
    ensures l / k >= -epsilon
  {
    var q := l / k;
    assert q * k == l;
    if q < -epsilon {
      PositiveProduct(-epsilon - q, k);
    }
  }

  // ---- conversion ----

  function Converted(m: Analysis, a: real, v: real, delta: real): real
    requires a > 1.0 && delta > 0.0
  {
    v + m.ln(1.0 / delta) / (a - 1.0)
  }

  ghost predicate ValidOrders(rdp: RdpCost) {
    forall a :: a in rdp ==> a > 1.0
  }

  /** The cost `v` at order a converts within the bound: the rest of the bound times a-1 covers ln(1/δ). */
  ghost predicate FitsAt(m: Analysis, v: real, a: real, delta: real, bound: real)
    requires delta > 0.0
  {
    Times(bound - v, a - 1.0) >= m.ln(1.0 / delta)
  }

  lemma ConvertedFits(m: Analysis, a: real, v: real, delta: real, bound: real)
    requires a > 1.0 && delta > 0.0
    ensures Converted(m, a, v, delta) <= bound <==> FitsAt(m, v, a, delta, bound)
    ensures Converted(m, a, v, delta) == bound <==> Times(bound - v, a - 1.0) == m.ln(1.0 / delta)
  {
    QuotientBelow(m.ln(1.0 / delta), a - 1.0, bound - v);
  }

  lemma QuotientBelow(l: real, k: real, x: real)
    requires k > 0.0
    ensures l / k <= x <==> l <= Times(x, k)
    ensures l / k == x <==> l == Times(x, k)
  {
    var q := l / k;
    assert q * k == l;
    assert Times(x - q, k) == x * k - l;
    if x > q {
      PositiveProduct(x - q, k);
    } else if x < q {
      PositiveProduct(q - x, k);
      assert Times(q - x, k) == l - x * k;
    }
  }

  /** Some order converts within the bound: what `rdp_to_epsilon(rdp, delta) <= bound` decides. */
  ghost predicate RdpFits(m: Analysis, rdp: RdpCost, delta: real, bound: real)
    requires delta > 0.0
  {
    exists a :: a in rdp && FitsAt(m, rdp[a], a, delta, bound)
  }

  /** `e` is the least epsilon the costs convert to: at no order is it more, and at one it is met. */
  ghost predicate IsConversion(m: Analysis, rdp: RdpCost, delta: real, e: real)
    requires delta > 0.0
  {
    && (forall a :: a in rdp ==> Times(e - rdp[a], a - 1.0) <= m.ln(1.0 / delta))
    && exists a :: a in rdp && Times(e - rdp[a], a - 1.0) == m.ln(1.0 / delta)
  }

  lemma LeastConverts(m: Analysis, rdp: RdpCost, delta: real, e: real)
    requires ValidOrders(rdp) && delta > 0.0
    requires forall a :: a in rdp ==> e <= Converted(m, a, rdp[a], delta)
    requires exists a :: a in rdp && e == Converted(m, a, rdp[a], delta)
    ensures IsConversion(m, rdp, delta, e)
  {
    forall a | a in rdp ensures Times(e - rdp[a], a - 1.0) <= m.ln(1.0 / delta) {
      ConvertedFits(m, a, rdp[a], delta, e);
    }
    var a :| a in rdp && e == Converted(m, a, rdp[a], delta);
    ConvertedFits(m, a, rdp[a], delta, e);
  }

  lemma RaisedBound(x: real, y: real, k: real, l: real)
    requires k > 0.0
    ensures x <= y && Times(x, k) >= l ==> Times(y, k) >= l
    ensures Times(x, k) <= l <= Times(y, k) ==> x <= y
    ensures Times(x, k) < Times(y, k) ==> x < y
  {
    assert Times(y - x, k) == y * k - x * k;
    if y > x {
      PositiveProduct(y - x, k);
    } else if y < x {
      PositiveProduct(x - y, k);
      assert Times(x - y, k) == x * k - y * k;
    }
  }

  /** A bound covers the conversion exactly if some order converts within it. */
  lemma ConversionFits(m: Analysis, rdp: RdpCost, delta: real, e: real, bound: real)
    requires ValidOrders(rdp) && delta > 0.0 && IsConversion(m, rdp, delta, e)
    ensures e <= bound <==> RdpFits(m, rdp, delta, bound)
  {
    if e <= bound {
      var a :| a in rdp && Times(e - rdp[a], a - 1.0) == m.ln(1.0 / delta);
      RaisedBound(e - rdp[a], bound - rdp[a], a - 1.0, m.ln(1.0 / delta));
      assert FitsAt(m, rdp[a], a, delta, bound);
    } else if RdpFits(m, rdp, delta, bound) {
      var a :| a in rdp && FitsAt(m, rdp[a], a, delta, bound);
      RaisedBound(e - rdp[a], bound - rdp[a], a - 1.0, m.ln(1.0 / delta));
    }
  }

  ghost predicate MonotoneLn(m: Analysis) {
    forall x, y {:trigger m.ln(x), m.ln(y)} :: 0.0 < x <= y ==> m.ln(x) <= m.ln(y)
  }

  /** A smaller delta never converts to a smaller epsilon. */
  lemma SmallerDeltaCostsMore(m: Analysis, rdp: RdpCost, delta: real, delta': real, e: real, e': real)
    requires MonotoneLn(m) && ValidOrders(rdp) && 0.0 < delta' <= delta
    requires IsConversion(m, rdp, delta, e) && IsConversion(m, rdp, delta', e')
    ensures e <= e'
  {
    assert 1.0 / delta <= 1.0 / delta' by {
      QuotientBelow(1.0, delta, 1.0 / delta');
      QuotientBelow(1.0, delta', 1.0 / delta');
      RaisedBound(delta', delta, 1.0 / delta', 1.0);
    }
    var a :| a in rdp && Times(e' - rdp[a], a - 1.0) == m.ln(1.0 / delta');
    RaisedBound(e - rdp[a], e' - rdp[a], a - 1.0, m.ln(1.0 / delta));
  }

  method RdpToEpsilon(m: Analysis, rdp: RdpCost, delta: real) returns (r: Result<real, Error>)
    requires ValidOrders(rdp)
    ensures r.Ok? <==> 0.0 < delta < 1.0 && rdp.Keys != {}
    ensures r.Err? ==> r == Err(ValueError)
    ensures r.Ok? ==> IsConversion(m, rdp, delta, r.value)
  {
    if !(0.0 < delta < 1.0) || rdp.Keys == {} {
      return Err(ValueError);
    }
    var best: Option<real> := None;
    var todo := rdp.Keys;
    while todo != {}
      invariant todo <= rdp.Keys && (best.None? ==> todo == rdp.Keys)
      invariant best.Some? ==> forall b :: b in rdp && b !in todo ==> best.value <= Converted(m, b, rdp[b], delta)
      invariant best.Some? ==> exists b :: b in rdp && best.value == Converted(m, b, rdp[b], delta)
    {
      var b := Pick(todo);
      var v := Converted(m, b, rdp[b], delta);
      if best.None? || v < best.value {
        best := Some(v);
      }
      todo := todo - {b};
    }
    LeastConverts(m, rdp, delta, best.value);
    return Ok(best.value);
  }

  // ---- accountant ----

  datatype Event = Event(
    id: string,
    cost: PrivacyBudget,
    rdpTracked: bool,
    before: PrivacyBudget,
    after: PrivacyBudget)

  datatype Accountant = Accountant(
    limit: PrivacyBudget,
    spent: PrivacyBudget,
    events: seq<Event>,
    rdpTotals: RdpCost,
    rdpComplete: bool)

  function Fresh(limit: PrivacyBudget): Accountant {
    Accountant(limit, PrivacyBudget(0.0, 0.0), [], map[], true)
  }

  function Plus(a: PrivacyBudget, b: PrivacyBudget): PrivacyBudget {
    PrivacyBudget(a.epsilon + b.epsilon, a.delta + b.delta)
  }

  function At(rdp: RdpCost, a: real): real {
    if a in rdp then rdp[a] else 0.0
  }

  /** Pointwise sum; an order missing on one side counts as 0 there. */
  function Merge(totals: RdpCost, rdp: RdpCost): (r: RdpCost)
    ensures r.Keys == totals.Keys + rdp.Keys
    ensures forall a :: a in r ==>
              r[a] == (if a in totals then totals[a] else 0.0) + (if a in rdp then rdp[a] else 0.0)
  {
    map a | a in totals.Keys + rdp.Keys :: At(totals, a) + At(rdp, a)
  }

  /** One call of `charge`: a cost, an optional RDP cost, the id the event will carry. */
  datatype Request = Request(cost: PrivacyBudget, rdp: Option<RdpCost>, id: string)

  ghost predicate WellFormed(acc: Accountant, req: Request) {
    ValidOrders(acc.rdpTotals) && (req.rdp.Some? ==> ValidOrders(req.rdp.value))
  }

  datatype Regime = Rdp | Basic

  datatype Verdict = Admitted(regime: Regime) | Denied(regime: Regime) | Invalid

  /** The admission rule: delta first, then either regime while RDP is complete, else the basic sum. */
  ghost function Decide(m: Analysis, acc: Accountant, req: Request): Verdict
    requires WellFormed(acc, req)
  {
    var projected := Plus(acc.spent, req.cost);
    var basicFits := projected.epsilon <= acc.limit.epsilon + TOLERANCE;
    if req.cost.epsilon < 0.0 || req.cost.delta < 0.0 then Invalid
    else if projected.delta > acc.limit.delta + TOLERANCE then Denied(Basic)
    else if req.rdp.Some? && acc.rdpComplete then
      var totals := Merge(acc.rdpTotals, req.rdp.value);
      if !(0.0 < acc.limit.delta < 1.0) || totals.Keys == {} then Invalid
      else if basicFits || RdpFits(m, totals, acc.limit.delta, acc.limit.epsilon + TOLERANCE) then Admitted(Rdp)
      else Denied(Rdp)
    else if basicFits then Admitted(Basic)
    else Denied(Basic)
  }

  /** Both totals of the costs after the request are within the limit's delta, and within its epsilon. */
  ghost predicate DeltaFits(acc: Accountant, req: Request) {
    acc.spent.delta + req.cost.delta <= acc.limit.delta + TOLERANCE
  }

  ghost predicate EpsilonFits(acc: Accountant, req: Request) {
    acc.spent.epsilon + req.cost.epsilon <= acc.limit.epsilon + TOLERANCE
  }

  /** RDP enforcement applies: the request brings RDP costs and so did every one before it. */
  ghost predicate Tracked(acc: Accountant, req: Request) {
    req.rdp.Some? && acc.rdpComplete
  }

  /** The summed costs at order a convert within the limit; an order missing on one side counts as 0 there. */
  ghost predicate OrderFits(m: Analysis, acc: Accountant, req: Request, a: real)
    requires req.rdp.Some? && acc.limit.delta > 0.0
  {
    && (a in acc.rdpTotals || a in req.rdp.value)
    && FitsAt(m, (if a in acc.rdpTotals then acc.rdpTotals[a] else 0.0)
                 + (if a in req.rdp.value then req.rdp.value[a] else 0.0),
              a, acc.limit.delta, acc.limit.epsilon + TOLERANCE)
  }

  lemma MergedFits(m: Analysis, acc: Accountant, req: Request)
    requires req.rdp.Some? && acc.limit.delta > 0.0
    ensures RdpFits(m, Merge(acc.rdpTotals, req.rdp.value), acc.limit.delta, acc.limit.epsilon + TOLERANCE) <==>
              exists a :: OrderFits(m, acc, req, a)
  {
    var totals := Merge(acc.rdpTotals, req.rdp.value);
    var bound := acc.limit.epsilon + TOLERANCE;
    forall a
      ensures OrderFits(m, acc, req, a) <==> a in totals && FitsAt(m, totals[a], a, acc.limit.delta, bound)
    {
      assert a in totals <==> a in acc.rdpTotals.Keys + req.rdp.value.Keys;
    }
  }

  /**
   * The admission rule on the numbers themselves. A charge is admitted if no cost is negative, delta fits, and epsilon
   * fits or, while RDP is enforced, the summed costs convert within the limit at some order; and RDP enforcement needs
   * a usable delta and an order.
   */
  lemma AdmissionRule(m: Analysis, acc: Accountant, req: Request)
    requires WellFormed(acc, req)
    ensures Decide(m, acc, req).Admitted? <==>
              && req.cost.epsilon >= 0.0 && req.cost.delta >= 0.0 && DeltaFits(acc, req)
              && if Tracked(acc, req) then
                   && 0.0 < acc.limit.delta < 1.0 && (acc.rdpTotals != map[] || req.rdp.value != map[])
                   && (EpsilonFits(acc, req) || exists a :: OrderFits(m, acc, req, a))
                 else EpsilonFits(acc, req)
    ensures Decide(m, acc, req).Invalid? <==>
              || req.cost.epsilon < 0.0 || req.cost.delta < 0.0
              || (&& DeltaFits(acc, req) && Tracked(acc, req)
                  && (!(0.0 < acc.limit.delta < 1.0) || (acc.rdpTotals == map[] && req.rdp.value == map[])))
  {
    if Tracked(acc, req) {
      var totals := Merge(acc.rdpTotals, req.rdp.value);
      assert totals.Keys == {} <==> acc.rdpTotals == map[] && req.rdp.value == map[] by {
        assert acc.rdpTotals.Keys == {} <==> acc.rdpTotals == map[];
        assert req.rdp.value.Keys == {} <==> req.rdp.value == map[];
      }
      if acc.limit.delta > 0.0 {
        MergedFits(m, acc, req);
      }
    }
  }

  /** The state after an admitted charge. */
  function Charged(acc: Accountant, req: Request): Accountant {
    var projected := Plus(acc.spent, req.cost);
    acc.(spent := projected,
         events := acc.events + [Event(req.id, req.cost, req.rdp.Some?, acc.spent, projected)],
         rdpTotals := if req.rdp.Some? then Merge(acc.rdpTotals, req.rdp.value) else acc.rdpTotals,
         rdpComplete := acc.rdpComplete && req.rdp.Some?)
  }

  /** An admitted charge adds its cost to every total, drops the flag if it is untracked, and appends its event. */
  lemma ChargedTotals(acc: Accountant, req: Request, a: real)
    ensures var after := Charged(acc, req);
            && after.limit == acc.limit
            && after.spent.epsilon == acc.spent.epsilon + req.cost.epsilon
            && after.spent.delta == acc.spent.delta + req.cost.delta
            && after.events == acc.events + [Event(req.id, req.cost, req.rdp.Some?, acc.spent, after.spent)]
            && (after.rdpComplete <==> acc.rdpComplete && req.rdp.Some?)
            && (req.rdp.None? ==> after.rdpTotals == acc.rdpTotals)
            && (req.rdp.Some? ==>
                  && (a in after.rdpTotals <==> a in acc.rdpTotals || a in req.rdp.value)
                  && (a in acc.rdpTotals && a in req.rdp.value ==>
                        after.rdpTotals[a] == acc.rdpTotals[a] + req.rdp.value[a])
                  && (a in acc.rdpTotals && a !in req.rdp.value ==> after.rdpTotals[a] == acc.rdpTotals[a])
                  && (a !in acc.rdpTotals && a in req.rdp.value ==> after.rdpTotals[a] == req.rdp.value[a]))
  {
    if req.rdp.Some? {
      assert a in acc.rdpTotals.Keys + req.rdp.value.Keys <==> a in acc.rdpTotals || a in req.rdp.value;
    }
  }

  /** What is left of each component of the limit, never negative. */
  function Left(acc: Accountant): (l: PrivacyBudget)
    ensures l.epsilon >= 0.0 && acc.spent.epsilon + l.epsilon >= acc.limit.epsilon
    ensures l.delta >= 0.0 && acc.spent.delta + l.delta >= acc.limit.delta
    ensures l.epsilon > 0.0 ==> acc.spent.epsilon + l.epsilon == acc.limit.epsilon
    ensures l.delta > 0.0 ==> acc.spent.delta + l.delta == acc.limit.delta
  {
    PrivacyBudget(Positive(acc.limit.epsilon - acc.spent.epsilon), Positive(acc.limit.delta - acc.spent.delta))
  }

  function Positive(x: real): real {
    if x < 0.0 then 0.0 else x
  }

  /** Within the limit, whatever does not exceed the remaining budget is admitted, tracked by RDP or not. */
  lemma RemainingIsAffordable(m: Analysis, acc: Accountant, req: Request)
    requires WellFormed(acc, req) && acc.spent.delta <= acc.limit.delta + TOLERANCE
    requires acc.spent.epsilon <= acc.limit.epsilon + TOLERANCE && 0.0 < acc.limit.delta < 1.0
    requires 0.0 <= req.cost.epsilon <= Left(acc).epsilon && 0.0 <= req.cost.delta <= Left(acc).delta
    requires req.rdp.Some? ==> req.rdp.value.Keys != {}
    ensures Decide(m, acc, req).Admitted?
  {
    if req.rdp.Some? {
      var a := Outside(req.rdp.value.Keys, {});
      assert a in Merge(acc.rdpTotals, req.rdp.value).Keys;
    }
  }

  /** The live object: fields updated in place by `charge`, read by `preview`. */
  class PrivacyAccountant {
    const m: Analysis
    const limit: PrivacyBudget
    var spent: PrivacyBudget
    var events: seq<Event>
    var rdpTotals: RdpCost
    var rdpComplete: bool

    function State(): Accountant
      reads this
    {
      Accountant(limit, spent, events, rdpTotals, rdpComplete)
    }

    constructor (m: Analysis, acc: Accountant)
      ensures this.m == m && State() == acc
    {
      this.m, limit, spent, events := m, acc.limit, acc.spent, acc.events;
      rdpTotals, rdpComplete := acc.rdpTotals, acc.rdpComplete;
    }

    /** The converted RDP spend so far; 0 while nothing was RDP-tracked. */
    method RdpEpsilon(delta: Option<real>) returns (r: Result<real, Error>)
      requires ValidOrders(rdpTotals)
      ensures rdpTotals.Keys == {} ==> r == Ok(0.0)
      ensures var d := if delta.Some? then delta.value else limit.delta;
              rdpTotals.Keys != {} ==>
                && (r.Ok? <==> 0.0 < d < 1.0)
                && (r.Ok? ==> IsConversion(m, rdpTotals, d, r.value))
    {
      if rdpTotals.Keys == {} {
        return Ok(0.0);
      }
      r := RdpToEpsilon(m, rdpTotals, if delta.Some? then delta.value else limit.delta);
    }

    /** Non-mutating admission check. */
    method Preview(cost: PrivacyBudget, rdp: Option<RdpCost>) returns (v: Verdict)
      requires WellFormed(State(), Request(cost, rdp, ""))
      ensures v == Decide(m, State(), Request(cost, rdp, ""))
    {
      if cost.epsilon < 0.0 || cost.delta < 0.0 {
        return Invalid;
      }
      var projected := Plus(spent, cost);
      if projected.delta > limit.delta + TOLERANCE {
        return Denied(Basic);
      }
      if rdp.Some? && rdpComplete {
        var totals := Merge(rdpTotals, rdp.value);
        var converted := RdpToEpsilon(m, totals, limit.delta);
        if converted.Err? {
          return Invalid;
        }
        ConversionFits(m, totals, limit.delta, converted.value, limit.epsilon + TOLERANCE);
        var basicFits := projected.epsilon <= limit.epsilon + TOLERANCE;
        if converted.value <= limit.epsilon + TOLERANCE || basicFits {
          return Admitted(Rdp);
        }
        return Denied(Rdp);
      }
      return if projected.epsilon <= limit.epsilon + TOLERANCE then Admitted(Basic) else Denied(Basic);
    }

    /** Admits and records, or raises and changes nothing: exactly what the preview of the same cost announces. */
    method Charge(cost: PrivacyBudget, rdp: Option<RdpCost>, id: string) returns (r: Result<Event, Error>)
      requires WellFormed(State(), Request(cost, rdp, id))
      modifies this
      ensures Decide(m, old(State()), Request(cost, rdp, id)).Invalid? ==> r == Err(ValueError)
      ensures Decide(m, old(State()), Request(cost, rdp, id)).Denied? ==> r == Err(PrivacyBudgetError)
      ensures Decide(m, old(State()), Request(cost, rdp, id)).Admitted? ==> r.Ok?
      ensures State() == if r.Ok? then Charged(old(State()), Request(cost, rdp, id)) else old(State())
      ensures r.Ok? ==> events == old(events) + [r.value]
    {
      if cost.epsilon < 0.0 || cost.delta < 0.0 {
        return Err(ValueError);
      }
      var projected := Plus(spent, cost);
      var before := spent;
      if projected.delta > limit.delta + TOLERANCE {
        return Err(PrivacyBudgetError);
      }
      if rdp.Some? && rdpComplete {
        var totals := Merge(rdpTotals, rdp.value);
        var converted := RdpToEpsilon(m, totals, limit.delta);
        if converted.Err? {
          return Err(ValueError);
        }
        ConversionFits(m, totals, limit.delta, converted.value, limit.epsilon + TOLERANCE);
        var basicFits := projected.epsilon <= limit.epsilon + TOLERANCE;
        if converted.value > limit.epsilon + TOLERANCE && !basicFits {
          return Err(PrivacyBudgetError);
        }
        rdpTotals := totals;
      } else {
        if projected.epsilon > limit.epsilon + TOLERANCE {
          return Err(PrivacyBudgetError);
        }
        if rdp.Some? {
          rdpTotals := Merge(rdpTotals, rdp.value);
        } else {
          rdpComplete := false;
        }
      }
      spent := projected;
      var record := Event(id, cost, rdp.Some?, before, spent);
      events := events + [record];
      return Ok(record);
    }
  }
}
