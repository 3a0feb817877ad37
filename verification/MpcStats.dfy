/** Joint statistics over secret-shared sufficient statistics (sentrylink/mpc/stats.py). */
module MpcStats {
  import opened Foundations
  import opened Moments
  import opened RealVectors
  import opened SecretSharing
  import opened SharingTheorems
  import opened Sums
  import opened SecureAggregation

  /** Largest magnitude that survives the signed lift of a field element. */
  const SIGNED_MAX: int := (FIELD_P - 1) / 2

  function SignedMod(v: int): int {
    var r := Reduce(v);
    if r > FIELD_P / 2 then r - FIELD_P else r
  }

  /** The signed lift recovers a value exactly when its magnitude is at most (p-1)/2. */
  lemma SignedModExact(x: int, congruent: int)
    requires Reduce(congruent) == Reduce(x)
    ensures SignedMod(congruent) == x <==> -SIGNED_MAX <= x <= SIGNED_MAX
  {
    assert x == FIELD_P * (x / FIELD_P) + Reduce(x);
  }

  /** Each organization's numbers, reduced into the field before sharing. */
  function ReduceAll(v: seq<int>): (r: seq<int>)
    ensures |r| == |v| && InField(r) && forall i :: 0 <= i < |r| ==> r[i] == Reduce(v[i])
  {
    seq(|v|, i requires 0 <= i < |v| => Reduce(v[i]) as int)
  }

  // ---- adding share dicts ----

  function ElementwiseAdd(x: map<string, Share>, y: map<string, Share>, nodeIds: seq<string>)
    : Result<map<string, Share>, Error>
  {
    if !Holds(x, nodeIds) || !Holds(y, nodeIds) then Err(KeyError)
    else if exists n :: n in nodeIds && !Compatible(x[n], y[n]) then Err(ValueError)
    else Ok(map n | n in nodeIds :: AddShares(x[n], y[n]).value)
  }

  function AddInts(a: seq<int>, b: seq<int>): (r: seq<int>)
    requires |a| == |b|
    ensures |r| == |a| && forall i :: 0 <= i < |r| ==> r[i] == a[i] + b[i]
  {
    seq(|a|, i requires 0 <= i < |a| => a[i] + b[i])
  }

  lemma ElementwiseAddLabels(x: map<string, Share>, y: map<string, Share>, nodeIds: seq<string>, k: nat, l: nat)
    requires Labelled(x, nodeIds, k) && Labelled(y, nodeIds, l) && nodeIds != []
    ensures k != l ==> ElementwiseAdd(x, y, nodeIds) == Err(ValueError)
    ensures k == l ==> ElementwiseAdd(x, y, nodeIds).Ok? && Labelled(ElementwiseAdd(x, y, nodeIds).value, nodeIds, k)
  {
    if k != l {
      assert nodeIds[0] in nodeIds;
    }
  }

  /** The node-wise sum of two share dicts opens to the sum of what they open. */
  lemma ElementwiseAddOpens(x: map<string, Share>, y: map<string, Share>, nodeIds: seq<string>, a: seq<int>,
                            b: seq<int>)
    requires Opens(x, nodeIds, a) && Opens(y, nodeIds, b) && |a| == |b| && nodeIds != []
    ensures ElementwiseAdd(x, y, nodeIds).Ok? && Opens(ElementwiseAdd(x, y, nodeIds).value, nodeIds, AddInts(a, b))
  {
    ElementwiseAddLabels(x, y, nodeIds, |a|, |b|);
    var z := ElementwiseAdd(x, y, nodeIds).value;
    forall i | 0 <= i < |a| ensures Reduce(Sum(nodeIds, NodeValue(z, i))) == Reduce(AddInts(a, b)[i]) {
      GatheredTotals(x, y, z, nodeIds, |a|, i);
      CongruentAdd(Sum(nodeIds, NodeValue(x, i)), a[i], Sum(nodeIds, NodeValue(y, i)), b[i]);
    }
  }

  lemma GatheredTotals(x: map<string, Share>, y: map<string, Share>, z: map<string, Share>, nodeIds: seq<string>,
                       len: nat, i: nat)
    requires Labelled(x, nodeIds, len) && Labelled(y, nodeIds, len) && i < len
    requires ElementwiseAdd(x, y, nodeIds) == Ok(z)
    ensures Reduce(Sum(nodeIds, NodeValue(z, i)))
         == Reduce(Sum(nodeIds, NodeValue(x, i)) + Sum(nodeIds, NodeValue(y, i)))
  {
    GatheredSums(x, y, z, nodeIds, len);
    SumsOfLists(x, y, z, nodeIds, Gather(x, nodeIds), Gather(y, nodeIds), Gather(z, nodeIds), i);
  }

  lemma SumsOfLists(x: map<string, Share>, y: map<string, Share>, z: map<string, Share>, nodeIds: seq<string>,
                    xs: seq<Share>, ys: seq<Share>, zs: seq<Share>, i: nat)
    requires Holds(x, nodeIds) && Holds(y, nodeIds) && Holds(z, nodeIds)
    requires xs == Gather(x, nodeIds) && ys == Gather(y, nodeIds) && zs == Gather(z, nodeIds)
    requires AreSums(xs, ys, zs) && forall k :: 0 <= k < |xs| ==> i < |xs[k].values|
    ensures Reduce(Sum(nodeIds, NodeValue(z, i)))
         == Reduce(Sum(nodeIds, NodeValue(x, i)) + Sum(nodeIds, NodeValue(y, i)))
  {
    GatheredSum(x, nodeIds, i);
    GatheredSum(y, nodeIds, i);
    GatheredSum(z, nodeIds, i);
    AddTotals(xs, ys, zs, ValueAt(i), i);
  }

  lemma GatheredSums(x: map<string, Share>, y: map<string, Share>, z: map<string, Share>, nodeIds: seq<string>,
                     len: nat)
    requires Labelled(x, nodeIds, len) && Labelled(y, nodeIds, len)
    requires ElementwiseAdd(x, y, nodeIds) == Ok(z)
    ensures Holds(x, nodeIds) && Holds(y, nodeIds) && Holds(z, nodeIds)
    ensures AreSums(Gather(x, nodeIds), Gather(y, nodeIds), Gather(z, nodeIds))
    ensures forall k :: 0 <= k < |nodeIds| ==> |Gather(x, nodeIds)[k].values| == len
  {
    forall k | 0 <= k < |nodeIds|
      ensures AddShares(x[nodeIds[k]], y[nodeIds[k]]) == Ok(z[nodeIds[k]]) && |x[nodeIds[k]].values| == len
    {
      assert nodeIds[k] in nodeIds;
    }
  }

  // ---- pooling the shared vectors of all organizations ----

  function Entry(i: nat): seq<int> -> int {
    (v: seq<int>) => if i < |v| then v[i] else 0
  }

  function Totals(vectors: seq<seq<int>>, len: nat): (t: seq<int>)
    ensures |t| == len && forall i :: 0 <= i < len ==> t[i] == Sum(vectors, Entry(i))
  {
    seq(len, i requires 0 <= i < len => Sum(vectors, Entry(i)))
  }

  /** Field vectors of one length. */
  predicate Shareable(vectors: seq<seq<int>>) {
    forall k :: 0 <= k < |vectors| ==> InField(vectors[k]) && |vectors[k]| == |vectors[0]|
  }

  lemma TotalsGrow(vectors: seq<seq<int>>, k: nat, len: nat)
    requires k < |vectors| && |vectors[k]| == len
    ensures Totals(vectors[..k + 1], len) == AddInts(Totals(vectors[..k], len), vectors[k])
  {
    assert vectors[..k + 1][..k] == vectors[..k];
    assert Totals(vectors[..k + 1], len) == AddInts(Totals(vectors[..k], len), vectors[k]);
  }

  lemma FirstTotals(vectors: seq<seq<int>>)
    requires vectors != []
    ensures Totals(vectors[..1], |vectors[0]|) == vectors[0]
  {
    var totals := Totals(vectors[..1], |vectors[0]|);
    forall i | 0 <= i < |vectors[0]| ensures totals[i] == vectors[0][i] {
      assert vectors[..1] == [] + [vectors[0]];
      SumOfLast([], vectors[0], Entry(i));
    }
  }

  /** The accumulator after the first k organizations. */
  ghost predicate Pooled(acc: Option<map<string, Share>>, vectors: seq<seq<int>>, nodeIds: seq<string>, k: nat)
    requires k <= |vectors|
  {
    && (k == 0 <==> acc.None?)
    && (k > 0 ==>
          && Shareable(vectors[..k]) && |nodeIds| >= 2
          && Labelled(acc.value, nodeIds, |vectors[0]|)
          && (NoDuplicates(nodeIds) ==> Opens(acc.value, nodeIds, Totals(vectors[..k], |vectors[0]|))))
  }

  lemma PooledGrows(acc: Option<map<string, Share>>, vectors: seq<seq<int>>, nodeIds: seq<string>, k: nat, tape: Tape)
    requires 0 < k < |vectors| && Pooled(acc, vectors, nodeIds, k) && InField(vectors[k])
    ensures var sum := ElementwiseAdd(acc.value, SharesOf(vectors[k], nodeIds, tape), nodeIds);
            if |vectors[k]| != |vectors[0]| then sum == Err(ValueError)
            else sum.Ok? && Pooled(Some(sum.value), vectors, nodeIds, k + 1)
  {
    var y := SharesOf(vectors[k], nodeIds, tape);
    ShareLabels(vectors[k], nodeIds, tape);
    ElementwiseAddLabels(acc.value, y, nodeIds, |vectors[0]|, |vectors[k]|);
    if |vectors[k]| == |vectors[0]| {
      assert forall j :: 0 <= j < k ==> vectors[..k][j] == vectors[j];
      assert Shareable(vectors[..k + 1]);
      if NoDuplicates(nodeIds) {
        ShareOpens(vectors[k], nodeIds, tape);
        ElementwiseAddOpens(acc.value, y, nodeIds, Totals(vectors[..k], |vectors[0]|), vectors[k]);
        TotalsGrow(vectors, k, |vectors[0]|);
      }
    }
  }

  lemma PooledStarts(vectors: seq<seq<int>>, nodeIds: seq<string>, tape: Tape)
    requires vectors != [] && |nodeIds| >= 2 && InField(vectors[0])
    ensures Pooled(Some(SharesOf(vectors[0], nodeIds, tape)), vectors, nodeIds, 1)
  {
    ShareLabels(vectors[0], nodeIds, tape);
    FirstTotals(vectors);
    if NoDuplicates(nodeIds) {
      ShareOpens(vectors[0], nodeIds, tape);
    }
  }

  /** The loop of every query: share each organization's vector and add it to the running share dict. */
  method Pool(vectors: seq<seq<int>>, nodeIds: seq<string>, tapes: nat -> Tape)
    returns (r: Result<Option<map<string, Share>>, Error>)
    ensures r.Err? ==> r == Err(ValueError)
    ensures r.Ok? <==> vectors == [] || (|nodeIds| >= 2 && Shareable(vectors))
    ensures r.Ok? ==> Pooled(r.value, vectors, nodeIds, |vectors|)
  {
    var acc: Option<map<string, Share>> := None;
    for k := 0 to |vectors|
      invariant Pooled(acc, vectors, nodeIds, k)
    {
      var shares := ShareVector(vectors[k], nodeIds, tapes(k));
      if shares.Err? {
        return Err(ValueError);
      }
      if acc.None? {
        PooledStarts(vectors, nodeIds, tapes(k));
        acc := Some(shares.value);
      } else {
        PooledGrows(acc, vectors, nodeIds, k, tapes(k));
        var sum := ElementwiseAdd(acc.value, shares.value, nodeIds);
        if sum.Err? {
          return Err(ValueError);
        }
        acc := Some(sum.value);
      }
    }
    assert vectors[..|vectors|] == vectors;
    return Ok(acc);
  }

  /** Opens a pooled dict and lifts every entry to a signed integer. */
  method Open(acc: map<string, Share>, nodeIds: seq<string>, ghost vectors: seq<seq<int>>) returns (r: seq<int>)
    requires vectors != [] && Pooled(Some(acc), vectors, nodeIds, |vectors|)
    ensures |r| == |vectors[0]|
    ensures NoDuplicates(nodeIds) ==> forall i :: 0 <= i < |r| ==> r[i] == SignedMod(Sum(vectors, Entry(i)))
  {
    assert vectors[..|vectors|] == vectors;
    OpensLength(acc, nodeIds, |vectors[0]|);
    var v := Reconstruct(Gather(acc, nodeIds)).value;
    if NoDuplicates(nodeIds) {
      ReconstructOpens(acc, nodeIds, nodeIds, Totals(vectors, |vectors[0]|));
    }
    return seq(|v|, i requires 0 <= i < |v| => SignedMod(v[i]));
  }

  lemma OpensLength(acc: map<string, Share>, nodeIds: seq<string>, len: nat)
    requires Labelled(acc, nodeIds, len) && nodeIds != []
    ensures Holds(acc, nodeIds) && Reconstruct(Gather(acc, nodeIds)).Ok?
    ensures |Reconstruct(Gather(acc, nodeIds)).value| == len
  {
    assert nodeIds[0] in nodeIds;
    forall s | s in Gather(acc, nodeIds) ensures |s.values| == len {
      var k :| 0 <= k < |nodeIds| && Gather(acc, nodeIds)[k] == s;
      assert nodeIds[k] in nodeIds;
    }
  }

  lemma ShareLabels(v: seq<int>, nodeIds: seq<string>, tape: Tape)
    ensures Labelled(SharesOf(v, nodeIds, tape), nodeIds, |v|)
  {
    forall id | id in nodeIds
      ensures id in SharesOf(v, nodeIds, tape)
      ensures SharesOf(v, nodeIds, tape)[id].nodeId == id && |SharesOf(v, nodeIds, tape)[id].values| == |v|
    {
      var j := LastHolder(v, nodeIds, tape, id);
    }
  }

  // ---- histogram ----

  /** Joint bucket totals: exactly the sums of the organizations' buckets while those fit the signed range. */
  method RunHistogram(contributions: seq<seq<int>>, nodeIds: seq<string>, tapes: nat -> Tape)
    returns (r: Result<seq<int>, Error>)
    ensures r.Err? ==> r == Err(ValueError)
    ensures r.Ok? <==> contributions != [] && |nodeIds| >= 2 && Shareable(contributions)
    ensures r.Ok? ==> |r.value| == |contributions[0]|
    ensures r.Ok? && NoDuplicates(nodeIds) ==> forall i :: 0 <= i < |r.value| ==>
              (r.value[i] == Sum(contributions, Entry(i)) <==>
               -SIGNED_MAX <= Sum(contributions, Entry(i)) <= SIGNED_MAX)
  {
    if contributions == [] {
      return Err(ValueError);
    }
    var pooled := Pool(contributions, nodeIds, tapes);
    if pooled.Err? {
      return Err(ValueError);
    }
    var totals := Open(pooled.value.value, nodeIds, contributions);
    forall i | 0 <= i < |totals| && NoDuplicates(nodeIds)
      ensures totals[i] == Sum(contributions, Entry(i)) <==> -SIGNED_MAX <= Sum(contributions, Entry(i)) <= SIGNED_MAX
    {
      SignedModExact(Sum(contributions, Entry(i)), Sum(contributions, Entry(i)));
    }
    return Ok(totals);
  }

  // ---- sufficient statistics of fixed-point rows ----

  function Concat(rows: seq<seq<int>>): seq<int> {
    if rows == [] then [] else Concat(rows[..|rows| - 1]) + rows[|rows| - 1]
  }

  function QuantizedRows(orgValues: seq<seq<real>>): (rows: seq<seq<int>>)
    ensures |rows| == |orgValues| && forall k :: 0 <= k < |rows| ==> rows[k] == Quantize(orgValues[k])
  {
    seq(|orgValues|, k requires 0 <= k < |orgValues| => Quantize(orgValues[k]))
  }

  function TotalLength(orgValues: seq<seq<real>>): nat {
    if orgValues == [] then 0 else TotalLength(orgValues[..|orgValues| - 1]) + |orgValues[|orgValues| - 1]|
  }

  lemma {:induction false} ConcatLength(orgValues: seq<seq<real>>)
    ensures |Concat(QuantizedRows(orgValues))| == TotalLength(orgValues)
  {
    if orgValues != [] {
      var init := orgValues[..|orgValues| - 1];
      assert QuantizedRows(orgValues)[..|init|] == QuantizedRows(init);
      ConcatLength(init);
    }
  }

  /** Entry i of every organization's statistics is the sum of its row. */
  ghost predicate AreRowSums(exact: seq<seq<int>>, rows: seq<seq<int>>, i: nat) {
    |rows| == |exact| && forall k :: 0 <= k < |rows| ==> i < |exact[k]| && exact[k][i] == IntSum(rows[k])
  }

  ghost predicate AreRowProducts(exact: seq<seq<int>>, xs: seq<seq<int>>, ys: seq<seq<int>>, i: nat) {
    && |xs| == |ys| == |exact|
    && forall k :: 0 <= k < |xs| ==> i < |exact[k]| && |xs[k]| == |ys[k]| && exact[k][i] == IntDot(xs[k], ys[k])
  }

  ghost predicate AreRowLengths(exact: seq<seq<int>>, rows: seq<seq<int>>, i: nat) {
    |rows| == |exact| && forall k :: 0 <= k < |rows| ==> i < |exact[k]| && exact[k][i] == |rows[k]|
  }

  lemma {:induction false} SumsPool(exact: seq<seq<int>>, rows: seq<seq<int>>, i: nat)
    requires AreRowSums(exact, rows, i)
    ensures Sum(exact, Entry(i)) == IntSum(Concat(rows))
  {
    if rows != [] {
      var n := |rows| - 1;
      SumsPool(exact[..n], rows[..n], i);
      IntSumAppend(Concat(rows[..n]), rows[n]);
    }
  }

  lemma {:induction false} ProductsPool(exact: seq<seq<int>>, xs: seq<seq<int>>, ys: seq<seq<int>>, i: nat)
    requires AreRowProducts(exact, xs, ys, i)
    ensures |Concat(xs)| == |Concat(ys)|
    ensures Sum(exact, Entry(i)) == IntDot(Concat(xs), Concat(ys))
  {
    if xs != [] {
      var n := |xs| - 1;
      ProductsPool(exact[..n], xs[..n], ys[..n], i);
      IntDotAppend(Concat(xs[..n]), xs[n], Concat(ys[..n]), ys[n]);
    }
  }

  lemma {:induction false} LengthsPool(exact: seq<seq<int>>, rows: seq<seq<int>>, i: nat)
    requires AreRowLengths(exact, rows, i)
    ensures Sum(exact, Entry(i)) == |Concat(rows)|
  {
    if rows != [] {
      var n := |rows| - 1;
      LengthsPool(exact[..n], rows[..n], i);
    }
  }

  lemma {:induction false} ReducedTotal(vectors: seq<seq<int>>, exact: seq<seq<int>>, i: nat)
    requires |vectors| == |exact| && forall k :: 0 <= k < |exact| ==> vectors[k] == ReduceAll(exact[k])
    ensures Reduce(Sum(vectors, Entry(i))) == Reduce(Sum(exact, Entry(i)))
  {
    if vectors != [] {
      var n := |vectors| - 1;
      ReducedTotal(vectors[..n], exact[..n], i);
      CongruentAdd(Sum(vectors[..n], Entry(i)), Sum(exact[..n], Entry(i)), Entry(i)(vectors[n]), Entry(i)(exact[n]));
    }
  }

  predicate InRange(x: int) {
    -SIGNED_MAX <= x <= SIGNED_MAX
  }

  /** An opened statistic that stays in range is the pooled plaintext statistic. */
  lemma OpenedStatistic(vectors: seq<seq<int>>, exact: seq<seq<int>>, i: nat, total: int)
    requires |vectors| == |exact| && forall k :: 0 <= k < |exact| ==> vectors[k] == ReduceAll(exact[k])
    requires Sum(exact, Entry(i)) == total && InRange(total)
    ensures SignedMod(Sum(vectors, Entry(i))) == total
  {
    ReducedTotal(vectors, exact, i);
    SignedModExact(total, Sum(vectors, Entry(i)));
  }

  /** The pooled rows as the reals their fixed-point integers stand for. */
  function PooledRows(orgValues: seq<seq<real>>): seq<real> {
    Unscaled(Concat(QuantizedRows(orgValues)), QUANT_SCALE)
  }

  /** The one-pass formula on opened integers. */
  function OnePass(dot: int, sa: int, sb: int, n: int): real
    requires n != 0
  {
    FromStatistics(dot as real / (QUANT_SCALE * QUANT_SCALE) as real,
                   sa as real / QUANT_SCALE as real, sb as real / QUANT_SCALE as real, n)
  }

  lemma CovarianceOfInts(a: seq<int>, b: seq<int>)
    requires |a| == |b| && a != []
    ensures OnePass(IntDot(a, b), IntSum(a), IntSum(b), |a|)
         == PopulationCovariance(Unscaled(a, QUANT_SCALE), Unscaled(b, QUANT_SCALE))
  {
    DotUnscaled(a, b, QUANT_SCALE);
    SumUnscaled(a, QUANT_SCALE);
    SumUnscaled(b, QUANT_SCALE);
    StatisticsGiveCovariance(Unscaled(a, QUANT_SCALE), Unscaled(b, QUANT_SCALE));
  }

  // ---- variance ----

  function VarianceStats(q: seq<int>): seq<int> {
    [IntSum(q), IntDot(q, q)]
  }

  function VarianceVectors(rows: seq<seq<int>>): (v: seq<seq<int>>)
    ensures |v| == |rows| && forall k :: 0 <= k < |v| ==> v[k] == ReduceAll(VarianceStats(rows[k]))
  {
    seq(|rows|, k requires 0 <= k < |rows| => ReduceAll(VarianceStats(rows[k])))
  }

  lemma VarianceStatistics(rows: seq<seq<int>>)
    ensures var q := Concat(rows);
            && (InRange(IntSum(q)) ==> SignedMod(Sum(VarianceVectors(rows), Entry(0))) == IntSum(q))
            && (InRange(IntDot(q, q)) ==> SignedMod(Sum(VarianceVectors(rows), Entry(1))) == IntDot(q, q))
  {
    var exact := seq(|rows|, k requires 0 <= k < |rows| => VarianceStats(rows[k]));
    SumsPool(exact, rows, 0);
    ProductsPool(exact, rows, rows, 1);
    if InRange(IntSum(Concat(rows))) {
      OpenedStatistic(VarianceVectors(rows), exact, 0, IntSum(Concat(rows)));
    }
    if InRange(IntDot(Concat(rows), Concat(rows))) {
      OpenedStatistic(VarianceVectors(rows), exact, 1, IntDot(Concat(rows), Concat(rows)));
    }
  }

  function Max(a: real, b: real): (r: real)
    ensures r >= a && r >= b && (r == a || r == b)
  {
    if a < b then b else a
  }

  ghost predicate VarianceInRange(orgValues: seq<seq<real>>) {
    var q := Concat(QuantizedRows(orgValues));
    InRange(IntSum(q)) && InRange(IntDot(q, q))
  }

  /** Population variance of the pooled fixed-point rows; the final max changes nothing. */
  method RunVariance(orgValues: seq<seq<real>>, nodeIds: seq<string>, tapes: nat -> Tape)
    returns (r: Result<real, Error>)
    ensures r.Err? ==> r == Err(ValueError)
    ensures r.Ok? <==> TotalLength(orgValues) < 2 || |nodeIds| >= 2
    ensures TotalLength(orgValues) < 2 ==> r == Ok(0.0)
    ensures r.Ok? ==> r.value >= 0.0
    ensures TotalLength(orgValues) >= 2 && |nodeIds| >= 2 && NoDuplicates(nodeIds) && VarianceInRange(orgValues) ==>
              PooledRows(orgValues) != [] && r == Ok(PopulationVariance(PooledRows(orgValues)))
  {
    var n := TotalLength(orgValues);
    if n < 2 {
      return Ok(0.0);
    }
    var vectors := VarianceVectors(QuantizedRows(orgValues));
    var pooled := Pool(vectors, nodeIds, tapes);
    if pooled.Err? {
      return Err(ValueError);
    }
    var lifted := Open(pooled.value.value, nodeIds, vectors);
    var raw := OnePass(lifted[1], lifted[0], lifted[0], n);
    if NoDuplicates(nodeIds) && VarianceInRange(orgValues) {
      VarianceIsPopulation(orgValues, lifted[0], lifted[1]);
    }
    return Ok(Max(0.0, raw));
  }

  lemma VarianceIsPopulation(orgValues: seq<seq<real>>, sx: int, sxx: int)
    requires TotalLength(orgValues) >= 2 && VarianceInRange(orgValues)
    requires sx == SignedMod(Sum(VarianceVectors(QuantizedRows(orgValues)), Entry(0)))
    requires sxx == SignedMod(Sum(VarianceVectors(QuantizedRows(orgValues)), Entry(1)))
    ensures PooledRows(orgValues) != []
    ensures OnePass(sxx, sx, sx, TotalLength(orgValues)) == PopulationVariance(PooledRows(orgValues))
    ensures PopulationVariance(PooledRows(orgValues)) >= 0.0
  {
    var rows := QuantizedRows(orgValues);
    ConcatLength(orgValues);
    VarianceStatistics(rows);
    CovarianceOfInts(Concat(rows), Concat(rows));
    VarianceNonNegative(PooledRows(orgValues));
  }

  // ---- correlation ----

  /** An organization's paired columns. */
  datatype Columns = Columns(xs: seq<real>, ys: seq<real>)

  function XRows(pairs: seq<Columns>): (r: seq<seq<real>>)
    ensures |r| == |pairs| && forall k :: 0 <= k < |r| ==> r[k] == pairs[k].xs
  {
    seq(|pairs|, k requires 0 <= k < |pairs| => pairs[k].xs)
  }

  function YRows(pairs: seq<Columns>): (r: seq<seq<real>>)
    ensures |r| == |pairs| && forall k :: 0 <= k < |r| ==> r[k] == pairs[k].ys
  {
    seq(|pairs|, k requires 0 <= k < |pairs| => pairs[k].ys)
  }

  function CorrelationStats(qx: seq<int>, qy: seq<int>): (v: seq<int>)
    requires |qx| == |qy|
    ensures |v| == 6
  {
    [IntSum(qx), IntSum(qy), IntDot(qx, qx), IntDot(qy, qy), IntDot(qx, qy), |qx|]
  }

  /** What an organization shares: five reduced sums and its unreduced row count. */
  function CorrelationVector(qx: seq<int>, qy: seq<int>): (v: seq<int>)
    requires |qx| == |qy|
    ensures |v| == 6
  {
    ReduceAll(CorrelationStats(qx, qy)[..5]) + [|qx|]
  }

  lemma CountInField(qx: seq<int>, qy: seq<int>)
    requires |qx| == |qy|
    ensures InField(CorrelationVector(qx, qy)) <==> |qx| < FIELD_P
    ensures |qx| < FIELD_P ==> CorrelationVector(qx, qy) == ReduceAll(CorrelationStats(qx, qy))
  {
    var v := CorrelationVector(qx, qy);
    assert v[5] == |qx|;
    forall i | 0 <= i < 5 ensures v[i] == Reduce(CorrelationStats(qx, qy)[i]) {
      assert CorrelationStats(qx, qy)[..5][i] == CorrelationStats(qx, qy)[i];
    }
  }

  predicate Paired(pairs: seq<Columns>) {
    forall k :: 0 <= k < |pairs| ==> |pairs[k].xs| == |pairs[k].ys|
  }

  predicate CountsFit(pairs: seq<Columns>) {
    forall k :: 0 <= k < |pairs| ==> |pairs[k].xs| < FIELD_P
  }

  /** The plaintext totals of the six statistics over the pooled rows. */
  function PooledStats(pairs: seq<Columns>): (v: seq<int>)
    requires |Concat(QuantizedRows(XRows(pairs)))| == |Concat(QuantizedRows(YRows(pairs)))|
    ensures |v| == 6
  {
    CorrelationStats(Concat(QuantizedRows(XRows(pairs))), Concat(QuantizedRows(YRows(pairs))))
  }

  lemma PairedConcat(pairs: seq<Columns>)
    requires Paired(pairs)
    ensures |Concat(QuantizedRows(XRows(pairs)))| == |Concat(QuantizedRows(YRows(pairs)))|
  {
    SameLengths(QuantizedRows(XRows(pairs)), QuantizedRows(YRows(pairs)));
  }

  /** Every statistic stays within the signed range. */
  ghost predicate CorrelationInRange(pairs: seq<Columns>)
    requires Paired(pairs)
  {
    PairedConcat(pairs);
    forall i :: 0 <= i < 6 ==> InRange(PooledStats(pairs)[i])
  }

  function ExactStats(rowsX: seq<seq<int>>, rowsY: seq<seq<int>>): (v: seq<seq<int>>)
    requires |rowsX| == |rowsY| && forall k :: 0 <= k < |rowsX| ==> |rowsX[k]| == |rowsY[k]|
    ensures |v| == |rowsX| && forall k :: 0 <= k < |v| ==> v[k] == CorrelationStats(rowsX[k], rowsY[k])
  {
    seq(|rowsX|, k requires 0 <= k < |rowsX| => CorrelationStats(rowsX[k], rowsY[k]))
  }

  lemma {:induction false} SameLengths(rowsX: seq<seq<int>>, rowsY: seq<seq<int>>)
    requires |rowsX| == |rowsY| && forall k :: 0 <= k < |rowsX| ==> |rowsX[k]| == |rowsY[k]|
    ensures |Concat(rowsX)| == |Concat(rowsY)|
  {
    if rowsX != [] {
      SameLengths(rowsX[..|rowsX| - 1], rowsY[..|rowsY| - 1]);
    }
  }

  lemma ExactTotals(rowsX: seq<seq<int>>, rowsY: seq<seq<int>>, i: nat)
    requires |rowsX| == |rowsY| && forall k :: 0 <= k < |rowsX| ==> |rowsX[k]| == |rowsY[k]|
    requires i < 6
    ensures |Concat(rowsX)| == |Concat(rowsY)|
    ensures Sum(ExactStats(rowsX, rowsY), Entry(i)) == CorrelationStats(Concat(rowsX), Concat(rowsY))[i]
  {
    var exact := ExactStats(rowsX, rowsY);
    SameLengths(rowsX, rowsY);
    if i == 0 {
      SumsPool(exact, rowsX, 0);
    } else if i == 1 {
      SumsPool(exact, rowsY, 1);
    } else if i == 2 {
      ProductsPool(exact, rowsX, rowsX, 2);
    } else if i == 3 {
      ProductsPool(exact, rowsY, rowsY, 3);
    } else if i == 4 {
      ProductsPool(exact, rowsX, rowsY, 4);
    } else {
      LengthsPool(exact, rowsX, 5);
    }
  }

  /** The six opened values are the six pooled plaintext statistics. */
  lemma OpenedCorrelation(pairs: seq<Columns>, vectors: seq<seq<int>>, i: nat)
    requires Paired(pairs) && CountsFit(pairs) && CorrelationInRange(pairs) && i < 6
    requires AreVectorsOf(vectors, pairs)
    ensures |Concat(QuantizedRows(XRows(pairs)))| == |Concat(QuantizedRows(YRows(pairs)))|
    ensures SignedMod(Sum(vectors, Entry(i))) == PooledStats(pairs)[i]
  {
    PairedConcat(pairs);
    var rowsX, rowsY := QuantizedRows(XRows(pairs)), QuantizedRows(YRows(pairs));
    var exact := ExactStats(rowsX, rowsY);
    forall k | 0 <= k < |pairs| ensures vectors[k] == ReduceAll(exact[k]) {
      CountInField(rowsX[k], rowsY[k]);
    }
    ExactTotals(rowsX, rowsY, i);
    OpenedStatistic(vectors, exact, i, PooledStats(pairs)[i]);
  }

  function Clip(x: real): (r: real)
    ensures -1.0 <= r <= 1.0
    ensures -1.0 <= x <= 1.0 ==> r == x
    ensures (x > 1.0 ==> r == 1.0) && (x < -1.0 ==> r == -1.0)
  {
    if x < -1.0 then -1.0 else if x > 1.0 then 1.0 else x
  }

  function Quotient(sqrt: real -> real, cov: real, vx: real, vy: real): real {
    if vx <= 0.0 || vy <= 0.0 || sqrt(vx * vy) == 0.0 then 0.0 else cov / sqrt(vx * vy)
  }

  /** Pearson's coefficient of two columns; 0 for fewer than two rows or a constant column. */
  function Pearson(sqrt: real -> real, x: seq<real>, y: seq<real>): real
    requires |x| == |y|
  {
    if |x| < 2 then 0.0
    else Quotient(sqrt, PopulationCovariance(x, y), PopulationVariance(x), PopulationVariance(y))
  }

  /** `r` is the covariance over the root of both variances, and 0 when one of them is not positive. */
  ghost predicate IsCoefficient(r: real, sqrt: real -> real, cov: real, vx: real, vy: real) {
    if vx > 0.0 && vy > 0.0 then Times(r, sqrt(vx * vy)) == cov else r == 0.0
  }

  /** Pearson's coefficient of two columns by its defining equation; 0 for fewer than two rows. */
  ghost predicate IsPearson(r: real, sqrt: real -> real, x: seq<real>, y: seq<real>)
    requires |x| == |y|
  {
    if |x| < 2 then r == 0.0
    else IsCoefficient(r, sqrt, PopulationCovariance(x, y), PopulationVariance(x), PopulationVariance(y))
  }

  lemma QuotientIsCoefficient(sqrt: real -> real, cov: real, vx: real, vy: real)
    requires IsSquareRoot(sqrt)
    ensures IsCoefficient(Quotient(sqrt, cov, vx, vy), sqrt, cov, vx, vy)
  {
    if vx > 0.0 && vy > 0.0 {
      PositiveProduct(vx, vy);
      PositiveRoot(sqrt, vx * vy);
    }
  }

  lemma PearsonIsPearson(sqrt: real -> real, x: seq<real>, y: seq<real>)
    requires IsSquareRoot(sqrt) && |x| == |y|
    ensures IsPearson(Pearson(sqrt, x, y), sqrt, x, y)
  {
    if |x| >= 2 {
      QuotientIsCoefficient(sqrt, PopulationCovariance(x, y), PopulationVariance(x), PopulationVariance(y));
    }
  }

  /** The coefficient has the sign of the covariance, and its square is the covariance squared over both variances. */
  lemma CoefficientSign(r: real, sqrt: real -> real, cov: real, vx: real, vy: real)
    requires IsSquareRoot(sqrt) && vx > 0.0 && vy > 0.0 && IsCoefficient(r, sqrt, cov, vx, vy)
    ensures Times(r * r, vx * vy) == Times(cov, cov)
    ensures (r > 0.0 <==> cov > 0.0) && (r < 0.0 <==> cov < 0.0)
  {
    PositiveProduct(vx, vy);
    PositiveRoot(sqrt, vx * vy);
    var root := sqrt(vx * vy);
    assert (r * r) * (root * root) == (r * root) * (r * root);
    if r > 0.0 {
      PositiveProduct(r, root);
    } else if r < 0.0 {
      PositiveProduct(-r, root);
    }
  }

  lemma UnitCoefficient(r: real, sqrt: real -> real, s: real, cov: real, vx: real, vy: real)
    requires IsSquareRoot(sqrt) && vx > 0.0 && s != 0.0 && cov == s * vx && vy == s * s * vx
    requires IsCoefficient(r, sqrt, cov, vx, vy)
    ensures r == if s > 0.0 then 1.0 else -1.0
  {
    var x := if s > 0.0 then cov else -cov;
    SquarePositive(s);
    PositiveProduct(Times(s, s), vx);
    PositiveProduct(if s > 0.0 then s else -s, vx);
    PositiveProduct(vx, vy);
    PositiveRoot(sqrt, vx * vy);
    assert x * x == vx * vy;
    SquareMonotone(sqrt(vx * vy), x);
    SquareMonotone(x, sqrt(vx * vy));
    ZeroFactor(if s > 0.0 then r - 1.0 else r + 1.0, x);
  }

  /** An affine column correlates perfectly: 1 with an increasing relation, -1 with a decreasing one. */
  lemma PearsonOfAffine(r: real, sqrt: real -> real, x: seq<real>, y: seq<real>, s: real, t: real)
    requires IsSquareRoot(sqrt) && IsAffine(x, y, s, t) && |x| >= 2 && PopulationVariance(x) > 0.0 && s != 0.0
    requires IsPearson(r, sqrt, x, y)
    ensures r == if s > 0.0 then 1.0 else -1.0
  {
    AffineMoments(x, y, s, t);
    UnitCoefficient(r, sqrt, s, PopulationCovariance(x, y), PopulationVariance(x), PopulationVariance(y));
  }

  lemma PositiveRoot(sqrt: real -> real, x: real)
    requires IsSquareRoot(sqrt) && x > 0.0
    ensures sqrt(x) > 0.0 && sqrt(x) * sqrt(x) == x
  {
    assert RootAt(sqrt, x);
  }

  lemma QuotientBounded(sqrt: real -> real, cov: real, vx: real, vy: real)
    requires IsSquareRoot(sqrt) && Times(cov, cov) <= Times(vx, vy)
    ensures -1.0 <= Quotient(sqrt, cov, vx, vy) <= 1.0
  {
    if vx > 0.0 && vy > 0.0 {
      PositiveProduct(vx, vy);
      PositiveRoot(sqrt, vx * vy);
      var r := sqrt(vx * vy);
      SquareMonotone(cov, r);
      SquareMonotone(-cov, r);
      var q := cov / r;
      assert q * r == cov;
      assert cov <= r && -cov <= r;
      UnitQuotient(q, r, cov);
    }
  }

  lemma UnitQuotient(q: real, r: real, c: real)
    requires r > 0.0 && q * r == c && -r <= c <= r
    ensures -1.0 <= q <= 1.0
  {
    if q > 1.0 {
      PositiveProduct(q - 1.0, r);
    } else if q < -1.0 {
      PositiveProduct(-1.0 - q, r);
    }
  }

  /** By Cauchy–Schwarz Pearson's coefficient lies between -1 and 1, so clipping it changes nothing. */
  lemma PearsonBounded(sqrt: real -> real, x: seq<real>, y: seq<real>)
    requires IsSquareRoot(sqrt) && |x| == |y|
    ensures -1.0 <= Pearson(sqrt, x, y) <= 1.0
  {
    if |x| >= 2 {
      CovarianceBound(x, y);
      QuotientBounded(sqrt, PopulationCovariance(x, y), PopulationVariance(x), PopulationVariance(y));
    }
  }

  /** The closing arithmetic on the six opened integers. */
  function FromOpened(sqrt: real -> real, v: seq<int>): real
    requires |v| == 6
  {
    if v[5] < 2 then 0.0
    else Clip(Quotient(
        sqrt, OnePass(v[4], v[0], v[1], v[5]), OnePass(v[2], v[0], v[0], v[5]), OnePass(v[3], v[1], v[1], v[5])))
  }

  lemma FromOpenedIsPearson(sqrt: real -> real, a: seq<int>, b: seq<int>)
    requires IsSquareRoot(sqrt) && |a| == |b|
    ensures FromOpened(sqrt, CorrelationStats(a, b))
         == Pearson(sqrt, Unscaled(a, QUANT_SCALE), Unscaled(b, QUANT_SCALE))
  {
    PearsonBounded(sqrt, Unscaled(a, QUANT_SCALE), Unscaled(b, QUANT_SCALE));
    if |a| >= 2 {
      CovarianceOfInts(a, b);
      CovarianceOfInts(a, a);
      CovarianceOfInts(b, b);
    }
  }

  /** Builds the vectors to share; stops at the first organization whose columns differ in length. */
  method CorrelationVectors(pairs: seq<Columns>) returns (r: Result<seq<seq<int>>, Error>)
    ensures r.Err? ==> r == Err(ValueError)
    ensures r.Ok? <==> Paired(pairs)
    ensures r.Ok? ==> AreVectorsOf(r.value, pairs)
  {
    var vectors: seq<seq<int>> := [];
    for k := 0 to |pairs|
      invariant |vectors| == k && forall j :: 0 <= j < k ==> |pairs[j].xs| == |pairs[j].ys|
      invariant forall j :: 0 <= j < k ==> vectors[j] == CorrelationVector(Quantize(pairs[j].xs), Quantize(pairs[j].ys))
    {
      if |pairs[k].xs| != |pairs[k].ys| {
        return Err(ValueError);
      }
      vectors := vectors + [CorrelationVector(Quantize(pairs[k].xs), Quantize(pairs[k].ys))];
    }
    return Ok(vectors);
  }

  /** Pearson correlation of the pooled fixed-point rows; the final clip changes nothing. */
  method RunCorrelation(sqrt: real -> real, pairs: seq<Columns>, nodeIds: seq<string>, tapes: nat -> Tape)
    returns (r: Result<real, Error>)
    requires IsSquareRoot(sqrt)
    ensures pairs == [] ==> r == Err(AssertionFailed)
    ensures pairs != [] && r.Err? ==> r == Err(ValueError)
    ensures r.Ok? <==> pairs != [] && Paired(pairs) && CountsFit(pairs) && |nodeIds| >= 2
    ensures r.Ok? ==> -1.0 <= r.value <= 1.0
    ensures r.Ok? && NoDuplicates(nodeIds) && CorrelationInRange(pairs) ==>
              && |PooledRows(XRows(pairs))| == |PooledRows(YRows(pairs))|
              && IsPearson(r.value, sqrt, PooledRows(XRows(pairs)), PooledRows(YRows(pairs)))
  {
    var vectors := CorrelationVectors(pairs);
    if vectors.Err? {
      return Err(ValueError);
    }
    if pairs == [] {
      return Err(AssertionFailed);
    }
    ShareableIffCountsFit(pairs, vectors.value);
    var pooled := Pool(vectors.value, nodeIds, tapes);
    if pooled.Err? {
      return Err(ValueError);
    }
    var v := Open(pooled.value.value, nodeIds, vectors.value);
    if NoDuplicates(nodeIds) && CorrelationInRange(pairs) {
      CorrelationIsPearson(sqrt, pairs, vectors.value, v);
      PearsonIsPearson(sqrt, PooledRows(XRows(pairs)), PooledRows(YRows(pairs)));
    }
    return Ok(FromOpened(sqrt, v));
  }

  lemma ShareableIffCountsFit(pairs: seq<Columns>, vectors: seq<seq<int>>)
    requires Paired(pairs) && AreVectorsOf(vectors, pairs)
    ensures Shareable(vectors) <==> CountsFit(pairs)
  {
    forall k | 0 <= k < |pairs| ensures InField(vectors[k]) <==> |pairs[k].xs| < FIELD_P {
      CountInField(Quantize(pairs[k].xs), Quantize(pairs[k].ys));
    }
  }

  /** `vectors` are the vectors the organizations share for these columns. */
  ghost predicate AreVectorsOf(vectors: seq<seq<int>>, pairs: seq<Columns>)
    requires Paired(pairs)
  {
    && |vectors| == |pairs|
    && forall k :: 0 <= k < |pairs| ==> vectors[k] == CorrelationVector(Quantize(pairs[k].xs), Quantize(pairs[k].ys))
  }

  lemma OpenedStats(pairs: seq<Columns>, vectors: seq<seq<int>>, v: seq<int>)
    requires Paired(pairs) && CountsFit(pairs) && CorrelationInRange(pairs) && AreVectorsOf(vectors, pairs) && |v| == 6
    requires forall i :: 0 <= i < 6 ==> v[i] == SignedMod(Sum(vectors, Entry(i)))
    ensures |Concat(QuantizedRows(XRows(pairs)))| == |Concat(QuantizedRows(YRows(pairs)))|
    ensures v == PooledStats(pairs)
  {
    PairedConcat(pairs);
    forall i | 0 <= i < 6 ensures v[i] == PooledStats(pairs)[i] {
      OpenedCorrelation(pairs, vectors, i);
    }
  }

  lemma CorrelationIsPearson(sqrt: real -> real, pairs: seq<Columns>, vectors: seq<seq<int>>, v: seq<int>)
    requires IsSquareRoot(sqrt) && Paired(pairs) && CountsFit(pairs) && CorrelationInRange(pairs)
    requires AreVectorsOf(vectors, pairs) && |v| == 6
    requires forall i :: 0 <= i < 6 ==> v[i] == SignedMod(Sum(vectors, Entry(i)))
    ensures |PooledRows(XRows(pairs))| == |PooledRows(YRows(pairs))|
    ensures FromOpened(sqrt, v) == Pearson(sqrt, PooledRows(XRows(pairs)), PooledRows(YRows(pairs)))
  {
    OpenedStats(pairs, vectors, v);
    FromOpenedIsPearson(sqrt, Concat(QuantizedRows(XRows(pairs))), Concat(QuantizedRows(YRows(pairs))));
  }
}
