/** Sharing is correct, linear and hiding (sentrylink/crypto/secret_sharing.py). */
module SharingTheorems {
  import opened Foundations
  import opened Sums
  import opened SecretSharing

  // ---- opening a dict of shares ----

  predicate Holds(m: map<string, Share>, order: seq<string>) {
    forall n :: n in order ==> n in m
  }

  /** The shares of the listed nodes, in list order. */
  function Gather(m: map<string, Share>, order: seq<string>): (shares: seq<Share>)
    requires Holds(m, order)
    ensures |shares| == |order| && forall k :: 0 <= k < |order| ==> shares[k] == m[order[k]]
  {
    seq(|order|, k requires 0 <= k < |order| => m[order[k]])
  }

  function NodeValue(m: map<string, Share>, i: nat): string -> int {
    n => if n in m && i < |m[n].values| then m[n].values[i] else 0
  }

  lemma {:induction false} GatheredSum(m: map<string, Share>, order: seq<string>, i: nat)
    requires Holds(m, order)
    ensures Sum(Gather(m, order), ValueAt(i)) == Sum(order, NodeValue(m, i))
  {
    if order != [] {
      var init := order[..|order| - 1];
      assert Gather(m, order)[..|order| - 1] == Gather(m, init);
      GatheredSum(m, init, i);
    }
  }

  /** The nodes hold well-labelled shares of one length that add up to `v` modulo the field size. */
  ghost predicate Opens(m: map<string, Share>, nodeIds: seq<string>, v: seq<int>) {
    && Labelled(m, nodeIds, |v|)
    && forall i {:trigger NodeValue(m, i)} :: 0 <= i < |v| ==> Reduce(Sum(nodeIds, NodeValue(m, i))) == Reduce(v[i])
  }

  ghost predicate Labelled(m: map<string, Share>, nodeIds: seq<string>, len: nat) {
    forall n :: n in nodeIds ==> n in m && m[n].nodeId == n && |m[n].values| == len
  }

  /** Reconstruction opens the vector whatever order the nodes are listed in. */
  lemma ReconstructOpens(m: map<string, Share>, nodeIds: seq<string>, order: seq<string>, v: seq<int>)
    requires Opens(m, nodeIds, v) && nodeIds != [] && multiset(order) == multiset(nodeIds)
    ensures Holds(m, order) && Reconstruct(Gather(m, order)).Ok?
    ensures |Reconstruct(Gather(m, order)).value| == |v|
    ensures forall i :: 0 <= i < |v| ==> Reconstruct(Gather(m, order)).value[i] == Reduce(v[i])
  {
    forall n | n in order ensures n in nodeIds {
      assert n in multiset(order);
    }
    assert |order| == |multiset(order)| == |nodeIds|;
    assert order[0] in order;
    forall i | 0 <= i < |v| ensures OpenedAt(Gather(m, order), i) == Reduce(v[i]) {
      GatheredSum(m, order, i);
      SumPermutation(order, nodeIds, NodeValue(m, i));
    }
  }

  // ---- correctness ----

  /** Among the first k node ids, position j is the last one with its id. */
  ghost predicate LastAt(nodeIds: seq<string>, j: nat, k: nat) {
    j < k <= |nodeIds| && forall l :: j < l < k ==> nodeIds[l] != nodeIds[j]
  }

  lemma DistinctLastAt(nodeIds: seq<string>, j: nat)
    requires NoDuplicates(nodeIds) && j < |nodeIds|
    ensures LastAt(nodeIds, j, |nodeIds|)
  {
    DistinctIndices(nodeIds);
  }

  lemma {:induction false} StoredShare(v: seq<int>, nodeIds: seq<string>, tape: Tape, k: nat, j: nat)
    requires LastAt(nodeIds, j, k)
    ensures nodeIds[j] in SharesUpTo(v, nodeIds, tape, k)
    ensures SharesUpTo(v, nodeIds, tape, k)[nodeIds[j]] == ShareOf(v, nodeIds, tape, j)
  {
    if j < k - 1 {
      StoredShare(v, nodeIds, tape, k - 1, j);
    }
  }

  lemma ValueOfHeld(m: map<string, Share>, id: string, i: nat, share: Share)
    requires id in m && m[id] == share && i < |share.values|
    ensures NodeValue(m, i)(id) == share.values[i]
  {
  }

  lemma StoredValue(v: seq<int>, nodeIds: seq<string>, tape: Tape, k: nat, i: nat)
    requires NoDuplicates(nodeIds) && k < |nodeIds| && i < |v|
    ensures NodeValue(SharesOf(v, nodeIds, tape), i)(nodeIds[k]) == ShareEntry(v, |nodeIds|, tape, k, i)
  {
    DistinctLastAt(nodeIds, k);
    StoredShare(v, nodeIds, tape, |nodeIds|, k);
    ValueOfHeld(SharesOf(v, nodeIds, tape), nodeIds[k], i, ShareOf(v, nodeIds, tape, k));
  }

  lemma {:induction false} DrawnSum(v: seq<int>, nodeIds: seq<string>, tape: Tape, f: string -> int, k: nat, i: nat)
    requires NoDuplicates(nodeIds) && k < |nodeIds| && i < |v| && f == NodeValue(SharesOf(v, nodeIds, tape), i)
    ensures Sum(nodeIds[..k], f) == Drawn(tape, k, i)
  {
    if k > 0 {
      DrawnSum(v, nodeIds, tape, f, k - 1, i);
      StoredValue(v, nodeIds, tape, k - 1, i);
      assert nodeIds[..k][..k - 1] == nodeIds[..k - 1];
    }
  }

  lemma LastTakesDifference(drawn: int, x: int, last: int, total: int)
    requires last == Reduce(x - drawn) && total == drawn + last
    ensures Reduce(total) == Reduce(x)
  {
    ReduceAdd(x - drawn, drawn);
  }

  lemma LastEntry(v: seq<int>, n: nat, tape: Tape, k: nat, i: nat)
    requires i < |v| && k + 1 == n
    ensures ShareEntry(v, n, tape, k, i) == Reduce(v[i] - Drawn(tape, k, i))
  {
  }

  lemma SumSplits(ids: seq<string>, f: string -> int, k: nat)
    requires k + 1 == |ids|
    ensures Sum(ids, f) == Sum(ids[..k], f) + f(ids[k])
  {
  }

  lemma ShareTotal(v: seq<int>, nodeIds: seq<string>, tape: Tape, f: string -> int, i: nat)
    requires NoDuplicates(nodeIds) && nodeIds != [] && i < |v| && f == NodeValue(SharesOf(v, nodeIds, tape), i)
    ensures Reduce(Sum(nodeIds, f)) == Reduce(v[i])
  {
    var k := |nodeIds| - 1;
    DrawnSum(v, nodeIds, tape, f, k, i);
    StoredValue(v, nodeIds, tape, k, i);
    LastEntry(v, |nodeIds|, tape, k, i);
    SumSplits(nodeIds, f, k);
    LastTakesDifference(Drawn(tape, k, i), v[i], f(nodeIds[k]), Sum(nodeIds, f));
  }

  lemma ShareOpens(v: seq<int>, nodeIds: seq<string>, tape: Tape)
    requires NoDuplicates(nodeIds) && nodeIds != []
    ensures Opens(SharesOf(v, nodeIds, tape), nodeIds, v)
  {
    var m, n := SharesOf(v, nodeIds, tape), |nodeIds|;
    forall id | id in nodeIds ensures id in m && m[id].nodeId == id && |m[id].values| == |v| {
      var j := LastHolder(v, nodeIds, tape, id);
    }
    forall i | 0 <= i < |v| ensures Reduce(Sum(nodeIds, NodeValue(m, i))) == Reduce(v[i]) {
      ShareTotal(v, nodeIds, tape, NodeValue(m, i), i);
    }
  }

  lemma ReduceInField(v: seq<int>)
    requires InField(v)
    ensures forall i :: 0 <= i < |v| ==> Reduce(v[i]) == v[i]
  {
  }

  /** Sharing a vector and reconstructing from any arrangement of the nodes returns it. */
  lemma ReconstructInverts(v: seq<int>, nodeIds: seq<string>, order: seq<string>, tape: Tape)
    requires InField(v) && NoDuplicates(nodeIds) && nodeIds != [] && multiset(order) == multiset(nodeIds)
    ensures Holds(SharesOf(v, nodeIds, tape), order)
    ensures Reconstruct(Gather(SharesOf(v, nodeIds, tape), order)) == Ok(v)
  {
    ShareOpens(v, nodeIds, tape);
    ReconstructOpens(SharesOf(v, nodeIds, tape), nodeIds, order, v);
    ReduceInField(v);
    assert Reconstruct(Gather(SharesOf(v, nodeIds, tape), order)).value == v;
  }

  // ---- exactly when sharing is correct ----

  ghost predicate Recovers(v: seq<int>, nodeIds: seq<string>, tape: Tape) {
    Reconstruct(Gather(SharesOf(v, nodeIds, tape), nodeIds)) == Ok(v)
  }

  lemma LastHolder(v: seq<int>, nodeIds: seq<string>, tape: Tape, id: string) returns (j: nat)
    requires id in nodeIds
    ensures LastAt(nodeIds, j, |nodeIds|) && nodeIds[j] == id
    ensures SharesOf(v, nodeIds, tape)[id] == ShareOf(v, nodeIds, tape, j)
  {
    j := |nodeIds| - 1;
    while nodeIds[j] != id
      invariant j < |nodeIds| && forall l :: j < l < |nodeIds| ==> nodeIds[l] != id
      decreases j
    {
      if j == 0 {
        assert forall l :: 0 <= l < |nodeIds| ==> nodeIds[l] != id;
      }
      j := j - 1;
    }
    StoredShare(v, nodeIds, tape, |nodeIds|, j);
  }

  /** The tape that gives 1 to node position a and 0 to all others. */
  function UnitTape(a: nat): Tape {
    (k: nat, i: nat) => if k == a then 1 else 0
  }

  lemma {:induction false} UnitDrawn(a: nat, k: nat, i: nat)
    ensures Drawn(UnitTape(a), k, i) == if a < k then 1 else 0
  {
    if k > 0 {
      UnitDrawn(a, k - 1, i);
    }
  }

  /** With a repeated id the share of the first occurrence is lost, and the value 1 opens as 0. */
  lemma RepeatedNodeLosesShare(nodeIds: seq<string>, a: nat, b: nat)
    requires a < b < |nodeIds| && nodeIds[a] == nodeIds[b]
    ensures !Recovers([1], nodeIds, UnitTape(a))
  {
    var m := SharesOf([1], nodeIds, UnitTape(a));
    forall id | id in nodeIds ensures NodeValue(m, 0)(id) == 0 {
      RepeatedNodeHoldsZero(nodeIds, a, b, id);
    }
    SumCongruent(nodeIds, NodeValue(m, 0), x => 0);
    SumZero(nodeIds);
    GatheredSum(m, nodeIds, 0);
    assert OpenedAt(Gather(m, nodeIds), 0) == 0;
  }

  lemma RepeatedNodeHoldsZero(nodeIds: seq<string>, a: nat, b: nat, id: string)
    requires a < b < |nodeIds| && nodeIds[a] == nodeIds[b] && id in nodeIds
    ensures NodeValue(SharesOf([1], nodeIds, UnitTape(a)), 0)(id) == 0
  {
    var j := LastHolder([1], nodeIds, UnitTape(a), id);
    UnitDrawn(a, |nodeIds| - 1, 0);
    assert nodeIds[b] == nodeIds[a];
    ValueOfHeld(SharesOf([1], nodeIds, UnitTape(a)), id, 0, ShareOf([1], nodeIds, UnitTape(a), j));
  }

  /** Every vector survives sharing on every tape exactly when the node ids are distinct. */
  lemma SharingCorrectIffDistinctNodes(nodeIds: seq<string>)
    requires nodeIds != []
    ensures (forall v, tape :: InField(v) ==> Recovers(v, nodeIds, tape)) <==> NoDuplicates(nodeIds)
  {
    if NoDuplicates(nodeIds) {
      forall v, tape | InField(v) ensures Recovers(v, nodeIds, tape) {
        ReconstructInverts(v, nodeIds, nodeIds, tape);
      }
    } else {
      DistinctIndices(nodeIds);
      var a, b :| 0 <= a < b < |nodeIds| && nodeIds[a] == nodeIds[b];
      RepeatedNodeLosesShare(nodeIds, a, b);
      assert InField([1]);
    }
  }

  // ---- linearity ----

  /** zs[k] is the node-wise sum, difference or multiple of the given shares. */
  ghost predicate AreSums(xs: seq<Share>, ys: seq<Share>, zs: seq<Share>) {
    |xs| == |ys| == |zs| && forall k :: 0 <= k < |zs| ==> AddShares(xs[k], ys[k]) == Ok(zs[k])
  }

  ghost predicate AreDifferences(xs: seq<Share>, ys: seq<Share>, zs: seq<Share>) {
    |xs| == |ys| == |zs| && forall k :: 0 <= k < |zs| ==> SubShares(xs[k], ys[k]) == Ok(zs[k])
  }

  /** One more node: congruences of the prefix totals and of the last values add up. */
  lemma OneMoreNode(c: int, z: int, total: int, term: int)
    requires Reduce(c) == Reduce(total) && z == Reduce(term)
    ensures Reduce(c + z) == Reduce(total + term)
  {
    CongruentAdd(c, total, z, term);
  }

  lemma {:induction false} AddTotals(xs: seq<Share>, ys: seq<Share>, zs: seq<Share>, f: Share -> int, i: nat)
    requires AreSums(xs, ys, zs) && f == ValueAt(i) && forall k :: 0 <= k < |xs| ==> i < |xs[k].values|
    ensures Reduce(Sum(zs, f)) == Reduce(Sum(xs, f) + Sum(ys, f))
  {
    var n := |xs| - 1;
    if xs != [] {
      AddTotals(xs[..n], ys[..n], zs[..n], f, i);
      OneMoreNode(Sum(zs[..n], f), f(zs[n]), Sum(xs[..n], f) + Sum(ys[..n], f), f(xs[n]) + f(ys[n]));
    }
  }

  lemma {:induction false} SubtractTotals(xs: seq<Share>, ys: seq<Share>, zs: seq<Share>, f: Share -> int, i: nat)
    requires AreDifferences(xs, ys, zs) && f == ValueAt(i) && forall k :: 0 <= k < |xs| ==> i < |xs[k].values|
    ensures Reduce(Sum(zs, f)) == Reduce(Sum(xs, f) - Sum(ys, f))
  {
    var n := |xs| - 1;
    if xs != [] {
      SubtractTotals(xs[..n], ys[..n], zs[..n], f, i);
      OneMoreNode(Sum(zs[..n], f), f(zs[n]), Sum(xs[..n], f) - Sum(ys[..n], f), f(xs[n]) - f(ys[n]));
    }
  }

  lemma {:induction false} ScaleTotals(c: int, xs: seq<Share>, zs: seq<Share>, f: Share -> int, i: nat)
    requires |xs| == |zs| && forall k :: 0 <= k < |xs| ==> i < |xs[k].values| && zs[k] == ScaleShare(c, xs[k])
    requires f == ValueAt(i)
    ensures Reduce(Sum(zs, f)) == Reduce(c * Sum(xs, f))
  {
    var n := |xs| - 1;
    if xs != [] {
      ScaleTotals(c, xs[..n], zs[..n], f, i);
      OneMoreNode(Sum(zs[..n], f), f(zs[n]), c * Sum(xs[..n], f), c * f(xs[n]));
      assert c * Sum(xs, f) == c * Sum(xs[..n], f) + c * f(xs[n]);
    }
  }

  /**
   * Opening node-wise sums, differences and multiples gives the sum, difference and multiple of what the shares open.
   */
  lemma AddCommutes(xs: seq<Share>, ys: seq<Share>, zs: seq<Share>, i: nat)
    requires AreSums(xs, ys, zs) && forall k :: 0 <= k < |xs| ==> i < |xs[k].values|
    ensures OpenedAt(zs, i) == Reduce(OpenedAt(xs, i) + OpenedAt(ys, i))
  {
    var a, b := Sum(xs, ValueAt(i)), Sum(ys, ValueAt(i));
    AddTotals(xs, ys, zs, ValueAt(i), i);
    CongruentAdd(Reduce(a), a, Reduce(b), b);
  }

  lemma SubtractCommutes(xs: seq<Share>, ys: seq<Share>, zs: seq<Share>, i: nat)
    requires AreDifferences(xs, ys, zs) && forall k :: 0 <= k < |xs| ==> i < |xs[k].values|
    ensures OpenedAt(zs, i) == Reduce(OpenedAt(xs, i) - OpenedAt(ys, i))
  {
    var a, b := Sum(xs, ValueAt(i)), Sum(ys, ValueAt(i));
    SubtractTotals(xs, ys, zs, ValueAt(i), i);
    CongruentAdd(Reduce(a), a, Reduce(b), b);
  }

  lemma ScaleCommutes(c: int, xs: seq<Share>, zs: seq<Share>, i: nat)
    requires |xs| == |zs| && forall k :: 0 <= k < |xs| ==> i < |xs[k].values| && zs[k] == ScaleShare(c, xs[k])
    ensures OpenedAt(zs, i) == Reduce(c * OpenedAt(xs, i))
  {
    ScaleTotals(c, xs, zs, ValueAt(i), i);
    ReduceTimes(c, Sum(xs, ValueAt(i)));
  }

  // ---- hiding ----

  /** The tape under which secret v' looks to every node except `missing` as v looks under `tape`. */
  function Shift(v: seq<int>, v': seq<int>, missing: nat, tape: Tape): Tape
    requires |v| == |v'|
  {
    (k: nat, i: nat) => if k == missing && i < |v| then Reduce(tape(k, i) + v'[i] - v[i]) else tape(k, i)
  }

  function ShiftGap(v: seq<int>, v': seq<int>, missing: nat, k: nat, i: nat): int
    requires i < |v| == |v'|
  {
    if missing < k then v'[i] - v[i] else 0
  }

  lemma {:induction false} ShiftDrawn(v: seq<int>, v': seq<int>, missing: nat, tape: Tape, k: nat, i: nat)
    requires |v| == |v'| && i < |v|
    ensures Reduce(Drawn(Shift(v, v', missing, tape), k, i))
         == Reduce(Drawn(tape, k, i) + ShiftGap(v, v', missing, k, i))
  {
    if k > 0 {
      ShiftDrawn(v, v', missing, tape, k - 1, i);
      var step := if missing == k - 1 then v'[i] - v[i] else 0;
      OneMoreNode(Drawn(Shift(v, v', missing, tape), k - 1, i), Shift(v, v', missing, tape)(k - 1, i),
                  Drawn(tape, k - 1, i) + ShiftGap(v, v', missing, k - 1, i), tape(k - 1, i) + step);
    }
  }

  /** All nodes but one see the same values for both secrets. */
  lemma OthersSeeTheSame(v: seq<int>, v': seq<int>, nodeIds: seq<string>, missing: nat, tape: Tape, k: nat)
    requires |v| == |v'| && missing < |nodeIds| && k < |nodeIds| && k != missing
    ensures ShareOf(v', nodeIds, Shift(v, v', missing, tape), k) == ShareOf(v, nodeIds, tape, k)
  {
    var n, tape' := |nodeIds|, Shift(v, v', missing, tape);
    forall i | 0 <= i < |v| ensures ShareEntry(v', n, tape', k, i) == ShareEntry(v, n, tape, k, i) {
      if k == n - 1 {
        ShiftDrawn(v, v', missing, tape, n - 1, i);
        CongruentAdd(v'[i], v'[i], Drawn(tape', n - 1, i), Drawn(tape, n - 1, i) + ShiftGap(v, v', missing, n - 1, i));
      }
    }
    assert ShareOf(v', nodeIds, tape', k).values == ShareOf(v, nodeIds, tape, k).values;
  }

  /** Shifting back restores the tape, so the correspondence of tapes is one to one. */
  lemma ShiftInverts(v: seq<int>, v': seq<int>, missing: nat, tape: Tape, k: nat, i: nat)
    requires |v| == |v'|
    ensures Shift(v', v, missing, Shift(v, v', missing, tape))(k, i) == tape(k, i)
  {
    if k == missing && i < |v| {
      ReduceAdd(tape(k, i) + v'[i] - v[i], v[i] - v'[i]);
    }
  }

  /** The view of all nodes except the one at position `missing`. */
  function ViewWithout(v: seq<int>, nodeIds: seq<string>, tape: Tape, missing: nat): (view: seq<Share>)
    requires missing < |nodeIds|
    ensures |view| == |nodeIds| - 1
    ensures forall k :: 0 <= k < |view| ==>
              view[k] == ShareOf(v, nodeIds, tape, if k < missing then k else k + 1)
  {
    seq(|nodeIds| - 1, k requires 0 <= k < |nodeIds| - 1 =>
      ShareOf(v, nodeIds, tape, if k < missing then k else k + 1))
  }

  /** Tape `t` under v and tape `t'` under v' look the same to everyone but `missing`. */
  ghost predicate Indistinguishable(v: seq<int>, v': seq<int>, nodeIds: seq<string>, missing: nat, t: Tape, t': Tape)
    requires missing < |nodeIds|
  {
    ViewWithout(v, nodeIds, t, missing) == ViewWithout(v', nodeIds, t', missing)
  }

  /**
   * Hiding: for any two secrets and any n-1 of the n nodes, shifting is a bijection on random tapes (its inverse is
   * the shift back) that leaves the joint view of those nodes unchanged.
   */
  lemma SharingHides(v: seq<int>, v': seq<int>, nodeIds: seq<string>, missing: nat)
    requires |v| == |v'| && missing < |nodeIds|
    ensures forall t :: Indistinguishable(v, v', nodeIds, missing, t, Shift(v, v', missing, t))
    ensures forall t, k, i :: Shift(v', v, missing, Shift(v, v', missing, t))(k, i) == t(k, i)
    ensures forall t, k, i :: Shift(v, v', missing, Shift(v', v, missing, t))(k, i) == t(k, i)
  {
    forall t ensures Indistinguishable(v, v', nodeIds, missing, t, Shift(v, v', missing, t)) {
      forall k | 0 <= k < |nodeIds| - 1
        ensures ViewWithout(v, nodeIds, t, missing)[k] == ViewWithout(v', nodeIds, Shift(v, v', missing, t), missing)[k]
      {
        OthersSeeTheSame(v, v', nodeIds, missing, t, if k < missing then k else k + 1);
      }
    }
    forall t, k, i ensures Shift(v', v, missing, Shift(v, v', missing, t))(k, i) == t(k, i) {
      ShiftInverts(v, v', missing, t, k, i);
    }
    forall t, k, i ensures Shift(v, v', missing, Shift(v', v, missing, t))(k, i) == t(k, i) {
      ShiftInverts(v', v, missing, t, k, i);
    }
  }
}
