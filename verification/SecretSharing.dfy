/** Additive secret sharing over a prime field (sentrylink/crypto/secret_sharing.py). */
module SecretSharing {
  import opened Foundations
  import opened Sums

  /** The Mersenne prime 2^127 - 1. */
  const FIELD_P: int := 0x7fff_ffff_ffff_ffff_ffff_ffff_ffff_ffff

  type Elem = x: int | 0 <= x < FIELD_P

  function Reduce(x: int): Elem {
    x % FIELD_P
  }

  lemma ReduceShift(x: int, k: int)
    ensures Reduce(x + k * FIELD_P) == Reduce(x)
  {
    var q, q' := x / FIELD_P, (x + k * FIELD_P) / FIELD_P;
    assert -FIELD_P < FIELD_P * (q' - q - k) < FIELD_P;
  }

  lemma ReduceAdd(a: int, b: int)
    ensures Reduce(Reduce(a) + b) == Reduce(a + b)
    ensures Reduce(b - Reduce(a)) == Reduce(b - a)
  {
    var k := a / FIELD_P;
    ReduceShift(Reduce(a) + b, k);
    ReduceShift(b - a, k);
  }

  lemma ReduceTimes(k: int, a: int)
    ensures Reduce(k * Reduce(a)) == Reduce(k * a)
  {
    var q := a / FIELD_P;
    assert k * a == k * Reduce(a) + (k * q) * FIELD_P;
    ReduceShift(k * Reduce(a), k * q);
  }

  lemma CongruentAdd(a: int, a': int, b: int, b': int)
    requires Reduce(a) == Reduce(a') && Reduce(b) == Reduce(b')
    ensures Reduce(a + b) == Reduce(a' + b')
    ensures Reduce(a - b) == Reduce(a' - b')
  {
    var k, l := a / FIELD_P - a' / FIELD_P, b / FIELD_P - b' / FIELD_P;
    ReduceShift(a' + b', k + l);
    ReduceShift(a' - b', k - l);
  }

  // ---- shares ----

  datatype Share = Share(nodeId: string, values: seq<int>)

  predicate Compatible(x: Share, y: Share) {
    x.nodeId == y.nodeId && |x.values| == |y.values|
  }

  function AddShares(x: Share, y: Share): (r: Result<Share, Error>)
    ensures r.Ok? <==> x.nodeId == y.nodeId && |x.values| == |y.values|
  {
    if !Compatible(x, y) then Err(ValueError)
    else Ok(Share(x.nodeId, seq(|x.values|, i requires 0 <= i < |x.values| => Reduce(x.values[i] + y.values[i]))))
  }

  function SubShares(x: Share, y: Share): (r: Result<Share, Error>)
    ensures r.Ok? <==> x.nodeId == y.nodeId && |x.values| == |y.values|
  {
    if !Compatible(x, y) then Err(ValueError)
    else Ok(Share(x.nodeId, seq(|x.values|, i requires 0 <= i < |x.values| => Reduce(x.values[i] - y.values[i]))))
  }

  function ScaleShare(k: int, x: Share): Share {
    Share(x.nodeId, seq(|x.values|, i requires 0 <= i < |x.values| => Reduce(k * x.values[i])))
  }

  function ValueAt(i: nat): Share -> int {
    (s: Share) => if i < |s.values| then s.values[i] else 0
  }

  /** The value a list of shares opens to at position `i`. */
  function OpenedAt(shares: seq<Share>, i: nat): Elem {
    Reduce(Sum(shares, ValueAt(i)))
  }

  function Reconstruct(shares: seq<Share>): Result<seq<int>, Error> {
    if shares == [] then Err(ValueError)
    else if exists s :: s in shares && |s.values| != |shares[0].values| then Err(ValueError)
    else Ok(seq(|shares[0].values|, i requires 0 <= i < |shares[0].values| => OpenedAt(shares, i)))
  }

  /** Shares open to something exactly if there are any and no two differ in length. */
  lemma ReconstructFails(shares: seq<Share>)
    ensures Reconstruct(shares).Err? <==>
              shares == [] || exists s, t :: s in shares && t in shares && |s.values| != |t.values|
    ensures Reconstruct(shares).Err? ==> Reconstruct(shares) == Err(ValueError)
    ensures Reconstruct(shares).Ok? ==> forall s :: s in shares ==> |Reconstruct(shares).value| == |s.values|
  {
    if shares != [] {
      assert shares[0] in shares;
    }
  }

  // ---- sharing ----

  /** The random values drawn for one vector: entry (k, i) goes to node k at position i. */
  type Tape = (nat, nat) -> Elem

  predicate InField(v: seq<int>) {
    forall i :: 0 <= i < |v| ==> 0 <= v[i] < FIELD_P
  }

  function Drawn(tape: Tape, k: nat, i: nat): int {
    if k == 0 then 0 else Drawn(tape, k - 1, i) + tape(k - 1, i)
  }

  /** Node k's value at position i: random for all but the last node, which takes the difference. */
  function ShareEntry(v: seq<int>, n: nat, tape: Tape, k: nat, i: nat): Elem
    requires i < |v| && k < n
  {
    if k < n - 1 then tape(k, i) else Reduce(v[i] - Drawn(tape, n - 1, i))
  }

  function ShareOf(v: seq<int>, nodeIds: seq<string>, tape: Tape, k: nat): Share
    requires k < |nodeIds|
  {
    Share(nodeIds[k], seq(|v|, i requires 0 <= i < |v| => ShareEntry(v, |nodeIds|, tape, k, i)))
  }

  /** The dict after the first k nodes were written; a repeated id overwrites. */
  function SharesUpTo(v: seq<int>, nodeIds: seq<string>, tape: Tape, k: nat): (m: map<string, Share>)
    requires k <= |nodeIds|
    ensures m.Keys == Elements(nodeIds[..k])
  {
    if k == 0 then map[]
    else
      assert nodeIds[..k] == nodeIds[..k - 1] + [nodeIds[k - 1]];
      SharesUpTo(v, nodeIds, tape, k - 1)[nodeIds[k - 1] := ShareOf(v, nodeIds, tape, k - 1)]
  }

  function SharesOf(v: seq<int>, nodeIds: seq<string>, tape: Tape): (m: map<string, Share>)
    ensures m.Keys == Elements(nodeIds)
  {
    assert nodeIds[..|nodeIds|] == nodeIds;
    SharesUpTo(v, nodeIds, tape, |nodeIds|)
  }

  /** One node's random vector is stored and added to the running sum, position by position. */
  method DrawFor(acc: array<int>, v: seq<int>, nodeIds: seq<string>, tape: Tape, k: nat) returns (share: Share)
    requires k < |nodeIds| - 1 && acc.Length == |v|
    requires forall i :: 0 <= i < |v| ==> acc[i] == Reduce(Drawn(tape, k, i))
    modifies acc
    ensures forall i :: 0 <= i < |v| ==> acc[i] == Reduce(Drawn(tape, k + 1, i))
    ensures share == ShareOf(v, nodeIds, tape, k)
  {
    var vals := seq(|v|, i requires 0 <= i < |v| => tape(k, i) as int);
    for i := 0 to |v|
      invariant forall j :: 0 <= j < i ==> acc[j] == Reduce(Drawn(tape, k + 1, j))
      invariant forall j :: i <= j < |v| ==> acc[j] == Reduce(Drawn(tape, k, j))
    {
      ReduceAdd(Drawn(tape, k, i), vals[i]);
      acc[i] := Reduce(acc[i] + vals[i]);
    }
    share := Share(nodeIds[k], vals);
    assert share.values == ShareOf(v, nodeIds, tape, k).values;
  }

  method ShareVector(v: seq<int>, nodeIds: seq<string>, tape: Tape) returns (r: Result<map<string, Share>, Error>)
    ensures r.Ok? <==> |nodeIds| >= 2 && forall i :: 0 <= i < |v| ==> 0 <= v[i] < FIELD_P
    ensures r.Err? ==> r == Err(ValueError)
    ensures r.Ok? ==> r.value == SharesOf(v, nodeIds, tape)
  {
    if |nodeIds| < 2 {
      return Err(ValueError);
    }
    if exists i :: 0 <= i < |v| && !(0 <= v[i] < FIELD_P) {
      return Err(ValueError);
    }
    var n := |nodeIds|;
    var shares: map<string, Share> := map[];
    var acc := new int[|v|](_ => 0);
    for k := 0 to n - 1
      invariant shares == SharesUpTo(v, nodeIds, tape, k)
      invariant forall i :: 0 <= i < |v| ==> acc[i] == Reduce(Drawn(tape, k, i))
    {
      var share := DrawFor(acc, v, nodeIds, tape, k);
      shares := shares[nodeIds[k] := share];
    }
    var last := LastShare(acc, v, nodeIds, tape);
    return Ok(shares[nodeIds[n - 1] := last]);
  }

  method LastShare(acc: array<int>, v: seq<int>, nodeIds: seq<string>, tape: Tape) returns (share: Share)
    requires |nodeIds| >= 2 && acc.Length == |v|
    requires forall i :: 0 <= i < |v| ==> acc[i] == Reduce(Drawn(tape, |nodeIds| - 1, i))
    ensures share == ShareOf(v, nodeIds, tape, |nodeIds| - 1)
  {
    share := Share(nodeIds[|nodeIds| - 1], seq(|v|, i requires 0 <= i < |v| reads acc => Reduce(v[i] - acc[i])));
    forall i | 0 <= i < |v| ensures share.values[i] == ShareEntry(v, |nodeIds|, tape, |nodeIds| - 1, i) {
      ReduceAdd(Drawn(tape, |nodeIds| - 1, i), v[i]);
    }
    assert share.values == ShareOf(v, nodeIds, tape, |nodeIds| - 1).values;
  }
}
