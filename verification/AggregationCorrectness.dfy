/** The aggregate opened by an honest round: mask cancellation, dropout recovery, int64 range. */
module AggregationCorrectness {
  import opened Foundations
  import opened Int64
  import opened Prg
  import opened SecureAggregation
  import opened Sums

  // ---- cancellation, for any antisymmetric pairwise terms ----

  /** Each contribution is the update plus the whole row of terms, wrapped. */
  ghost predicate Masked(roster: seq<OrgId>, f: OrgId -> int, u: OrgId -> int, m: (OrgId, OrgId) -> int, i: OrgId) {
    f(i) == Wrap(u(i) + Row(m, i, roster))
  }

  ghost predicate RowMasked(order: seq<OrgId>, roster: seq<OrgId>, f: OrgId -> int, u: OrgId -> int,
                            m: (OrgId, OrgId) -> int) {
    forall i :: i in order ==> Masked(roster, f, u, m, i)
  }

  /** The server reconstructs every survivor × dropped term. */
  ghost predicate Recovered(order: seq<OrgId>, dropped: seq<OrgId>, s: (OrgId, OrgId) -> int,
                            m: (OrgId, OrgId) -> int) {
    forall i, j :: i in order && j in dropped ==> s(i, j) == m(i, j)
  }

  lemma MaskedTotal(roster: seq<OrgId>, order: seq<OrgId>, f: OrgId -> int, u: OrgId -> int, m: (OrgId, OrgId) -> int)
    requires RowMasked(order, roster, f, u, m)
    ensures Wrap(Sum(order, f)) == Wrap(Sum(order, u) + Double(m, order, roster))
  {
    var g := i => u(i) + Row(m, i, roster);
    forall i | i in order ensures f(i) == Wrap(g(i)) {
      assert Masked(roster, f, u, m, i);
    }
    WrapSum(order, f, g);
    SumAdditive(order, g, u, RowsOver(m, roster));
  }

  lemma ResidualAgrees(order: seq<OrgId>, dropped: seq<OrgId>, s: (OrgId, OrgId) -> int, m: (OrgId, OrgId) -> int)
    requires Recovered(order, dropped, s, m)
    ensures Double(s, order, dropped) == Double(m, order, dropped)
  {
    forall i | i in order ensures RowsOver(s, dropped)(i) == RowsOver(m, dropped)(i) {
      SumCongruent(dropped, RowOf(s, i), RowOf(m, i));
    }
    SumCongruent(order, RowsOver(s, dropped), RowsOver(m, dropped));
  }

  lemma ResidualCancels(masked: int, plain: int, residual: int)
    requires Wrap(masked) == Wrap(plain + residual)
    ensures Wrap(masked - residual) == Wrap(plain)
  {
    WrapAdd(masked, -residual);
    WrapAdd(plain + residual, -residual);
  }

  /** Survivor pairs cancel among themselves; what is left is exactly the survivor × dropped residual. */
  lemma MasksCancel(roster: seq<OrgId>, order: seq<OrgId>, dropped: seq<OrgId>, f: OrgId -> int, u: OrgId -> int,
                    m: (OrgId, OrgId) -> int, s: (OrgId, OrgId) -> int)
    requires Antisymmetric(m) && multiset(roster) == multiset(order) + multiset(dropped)
    requires RowMasked(order, roster, f, u, m)
    requires Recovered(order, dropped, s, m)
    ensures Wrap(Sum(order, f) - Double(s, order, dropped)) == Wrap(Sum(order, u))
  {
    MaskedTotal(roster, order, f, u, m);
    DoubleSplitsColumns(m, order, roster, order, dropped);
    DoubleCancels(m, order);
    ResidualAgrees(order, dropped, s, m);
    ResidualCancels(Sum(order, f), Sum(order, u), Double(m, order, dropped));
  }

  // ---- honest rounds ----

  /** One round of honest clients: who is on the roster, their private keys, their quantized updates. */
  datatype Round = Round(prims: Primitives, roundId: string, roster: seq<OrgId>, dim: nat,
                         key: OrgId -> Bytes, update: OrgId -> seq<int>)
  {
    function Client(i: OrgId): SecAggClient {
      SecAggClient(i, roundId, roster, dim, key(i))
    }

    function KeysOf(ids: seq<OrgId>): map<OrgId, Bytes> {
      if ids == [] then map[] else KeysOf(ids[..|ids| - 1])[ids[|ids| - 1] := prims.publicKey(key(ids[|ids| - 1]))]
    }

    /** The key directory the server publishes once the whole roster has registered. */
    function PublicKeys(): map<OrgId, Bytes> {
      KeysOf(roster)
    }

    lemma {:induction false} KeysOfComplete(ids: seq<OrgId>)
      ensures KeysOf(ids).Keys == Elements(ids)
      ensures forall i :: i in ids ==> KeysOf(ids)[i] == prims.publicKey(key(i))
    {
      if ids != [] {
        KeysOfComplete(ids[..|ids| - 1]);
        ElementsOfLast(ids);
        assert forall i :: i in ids <==> i in Elements(ids);
      }
    }

    function Seed(i: OrgId, j: OrgId): Bytes {
      PairwiseSeed(prims, key(i), prims.publicKey(key(j)), roundId, i, j)
    }

    /** The term `i` carries for `j`: zero on the diagonal, a signed stream word off it. */
    function Term(c: nat, i: OrgId, j: OrgId): int {
      if i == j then 0 else Signed(prims.word, Seed(i, j), i, j, c)
    }

    function TermsAt(c: nat): (OrgId, OrgId) -> int {
      (i, j) => Term(c, i, j)
    }

    function UpdateAt(c: nat): OrgId -> int {
      i => if c < |update(i)| then update(i)[c] else 0
    }

    /** `sent` is what the mask loop of client `i` produces. */
    ghost predicate SentBy(i: OrgId, sent: Contribution) {
      IsMasked(sent.maskedUpdate, update(i), ClientTerms(prims, Client(i), PublicKeys()), dim, roster)
    }

    /** Every received contribution comes out of its client's mask loop. */
    ghost predicate Contributed(contributions: map<OrgId, Contribution>) {
      && contributions.Keys <= Elements(roster)
      && forall i {:trigger SentBy(i, contributions[i])} :: i in contributions ==> SentBy(i, contributions[i])
    }

    function DroppedFrom(received: set<OrgId>): seq<OrgId> {
      Restrict(roster, (set x | x in roster) - received)
    }

    /** Every survivor has revealed its seed with every dropped peer. */
    ghost predicate Revealed(received: set<OrgId>, seeds: map<(OrgId, OrgId), Bytes>) {
      forall i, j {:trigger PairKey(i, j)} :: i in received && j in DroppedFrom(received) ==>
        PairKey(i, j) in seeds && seeds[PairKey(i, j)] == Seed(i, j)
    }
  }

  lemma SignedFlips(word: MaskStream, seed: Bytes, i: OrgId, j: OrgId, c: nat)
    requires i != j
    ensures Signed(word, seed, i, j, c) == -Signed(word, seed, j, i, c)
  {
    StrLessTotal(i, j);
  }

  /** Opposite signs on one shared stream: the pairwise terms are antisymmetric. */
  lemma TermsAntisymmetric(r: Round, c: nat)
    requires Lawful(r.prims)
    ensures Antisymmetric(r.TermsAt(c))
  {
    forall i, j ensures r.TermsAt(c)(i, j) == -r.TermsAt(c)(j, i) {
      PairwiseSeedSymmetric(r.prims, r.key(i), r.key(j), r.roundId, i, j);
      assert r.Seed(i, j) == r.Seed(j, i);
      if i != j {
        SignedFlips(r.prims.word, r.Seed(i, j), i, j, c);
      }
    }
  }

  lemma ClientTermAgrees(r: Round, i: OrgId, j: OrgId, c: nat)
    requires j in r.roster
    ensures ClientTerms(r.prims, r.Client(i), r.PublicKeys())(c, j) == r.Term(c, i, j)
  {
    r.KeysOfComplete(r.roster);
  }

  lemma ClientRow(r: Round, i: OrgId, c: nat)
    ensures Sum(r.roster, PeerSlice(ClientTerms(r.prims, r.Client(i), r.PublicKeys()), c))
         == Row(r.TermsAt(c), i, r.roster)
  {
    var terms, m := ClientTerms(r.prims, r.Client(i), r.PublicKeys()), r.TermsAt(c);
    forall j | j in r.roster ensures PeerSlice(terms, c)(j) == RowOf(m, i)(j) {
      ClientTermAgrees(r, i, j, c);
      assert terms(c, j) == m(i, j);
    }
    SumCongruent(r.roster, PeerSlice(terms, c), RowOf(m, i));
  }

  lemma RosterSplits(r: Round, received: set<OrgId>, order: seq<OrgId>)
    requires NoDuplicates(r.roster) && received <= Elements(r.roster) && Enumerates(order, received)
    ensures multiset(r.roster) == multiset(order) + multiset(r.DroppedFrom(received))
  {
    RestrictSplits(r.roster, received, Elements(r.roster) - received);
    RestrictDistinct(r.roster, received);
    DistinctListEnumerates(Restrict(r.roster, received));
    assert Elements(Restrict(r.roster, received)) == received;
  }

  lemma ServerTermAgrees(r: Round, seeds: map<(OrgId, OrgId), Bytes>, received: set<OrgId>, i: OrgId, j: OrgId, c: nat)
    requires r.Revealed(received, seeds) && i in received && j in r.DroppedFrom(received)
    ensures ServerTerms(r.prims, seeds)(c, i, j) == r.Term(c, i, j)
  {
    assert i != j;
  }

  lemma MaskedCoordinate(masked: seq<int>, q: seq<int>, terms: PeerTerms, dim: nat, roster: seq<OrgId>, c: nat)
    requires IsMasked(masked, q, terms, dim, roster) && c < dim
    ensures masked[c] == Wrap(q[c] + Sum(roster, PeerSlice(terms, c)))
  {
  }

  lemma MaskedValue(roster: seq<OrgId>, f: OrgId -> int, u: OrgId -> int, m: (OrgId, OrgId) -> int, i: OrgId,
                    sent: int, q: int, row: int)
    requires f(i) == sent && u(i) == q && Row(m, i, roster) == row && sent == Wrap(q + row)
    ensures Masked(roster, f, u, m, i)
  {
  }

  lemma MaskedPoint(r: Round, contributions: map<OrgId, Contribution>, i: OrgId, c: nat)
    requires r.Contributed(contributions) && i in contributions && c < r.dim
    ensures Masked(r.roster, MaskedAt(contributions, c), r.UpdateAt(c), r.TermsAt(c), i)
  {
    var terms := ClientTerms(r.prims, r.Client(i), r.PublicKeys());
    assert r.SentBy(i, contributions[i]);
    MaskedCoordinate(contributions[i].maskedUpdate, r.update(i), terms, r.dim, r.roster, c);
    ClientRow(r, i, c);
    MaskedValue(r.roster, MaskedAt(contributions, c), r.UpdateAt(c), r.TermsAt(c), i,
                contributions[i].maskedUpdate[c], r.update(i)[c], Sum(r.roster, PeerSlice(terms, c)));
  }

  lemma MaskedPoints(r: Round, contributions: map<OrgId, Contribution>, order: seq<OrgId>,
                     f: OrgId -> int, u: OrgId -> int, m: (OrgId, OrgId) -> int, c: nat)
    requires r.Contributed(contributions) && Enumerates(order, contributions.Keys) && c < r.dim
    requires f == MaskedAt(contributions, c) && u == r.UpdateAt(c) && m == r.TermsAt(c)
    ensures RowMasked(order, r.roster, f, u, m)
  {
    EnumerationMembers(order, contributions.Keys);
    forall i | i in contributions ensures Masked(r.roster, f, u, m, i) {
      MaskedPoint(r, contributions, i, c);
    }
    assert forall i :: i in order ==> Masked(r.roster, f, u, m, i);
  }

  lemma ServerPoints(r: Round, seeds: map<(OrgId, OrgId), Bytes>, received: set<OrgId>, order: seq<OrgId>,
                     s: (OrgId, OrgId) -> int, m: (OrgId, OrgId) -> int, c: nat)
    requires r.Revealed(received, seeds) && Enumerates(order, received)
    requires s == Slice(ServerTerms(r.prims, seeds), c) && m == r.TermsAt(c)
    ensures Recovered(order, r.DroppedFrom(received), s, m)
  {
    EnumerationMembers(order, received);
    forall i, j | i in order && j in r.DroppedFrom(received) ensures s(i, j) == m(i, j) {
      ServerTermAgrees(r, seeds, received, i, j, c);
    }
  }

  /**
   * Correctness of the protocol for every roster, every received subset, every iteration order and any
   * symmetric seeds: the masks cancel and the server opens the wrapped sum of the survivors' updates.
   */
  lemma AggregateIsExact(r: Round, contributions: map<OrgId, Contribution>, seeds: map<(OrgId, OrgId), Bytes>,
                         order: seq<OrgId>, c: nat)
    requires Lawful(r.prims) && NoDuplicates(r.roster)
    requires r.Contributed(contributions) && r.Revealed(contributions.Keys, seeds)
    requires Enumerates(order, contributions.Keys) && c < r.dim
    ensures OpenedAt(r.prims, contributions, seeds, order, r.DroppedFrom(contributions.Keys), c)
         == Wrap(Sum(order, r.UpdateAt(c)))
  {
    var received := contributions.Keys;
    var dropped := r.DroppedFrom(received);
    var f, u, m, s := MaskedAt(contributions, c), r.UpdateAt(c), r.TermsAt(c), Slice(ServerTerms(r.prims, seeds), c);
    MaskedPoints(r, contributions, order, f, u, m, c);
    ServerPoints(r, seeds, received, order, s, m, c);
    RosterSplits(r, received, order);
    TermsAntisymmetric(r, c);
    MasksCancel(r.roster, order, dropped, f, u, m, s);
  }

  // ---- int64 range ----

  const ROSTER_BOUND: nat := 2048
  const UPDATE_BOUND: nat := 0x4_0000_0000_0000
  const CONTRIBUTION_BOUND: nat := 0xC_0000_0000_0000

  ghost predicate Bounded(m: (OrgId, OrgId) -> int) {
    forall i, j :: -MASK_BOUND <= m(i, j) <= MASK_BOUND
  }

  lemma TermsBounded(r: Round, c: nat)
    requires Lawful(r.prims)
    ensures Bounded(r.TermsAt(c))
  {
    forall i, j ensures -MASK_BOUND <= r.TermsAt(c)(i, j) <= MASK_BOUND {
      MaskInRange(r.prims.mac, r.Seed(i, j), c);
      assert r.prims.word(r.Seed(i, j), c) == MaskWord(r.prims.mac, r.Seed(i, j), c);
    }
  }

  lemma RowInRange(m: (OrgId, OrgId) -> int, i: OrgId, t: seq<OrgId>)
    requires Bounded(m)
    ensures -(|t| * MASK_BOUND) <= Row(m, i, t) <= |t| * MASK_BOUND
  {
    SumBounded(t, RowOf(m, i), MASK_BOUND);
  }

  lemma DoubleInRange(m: (OrgId, OrgId) -> int, s: seq<OrgId>, t: seq<OrgId>)
    requires Bounded(m) && |s| + |t| <= ROSTER_BOUND
    ensures -0x1000_0000_0000_0000 <= Double(m, s, t) <= 0x1000_0000_0000_0000
  {
    var bound := |t| * MASK_BOUND;
    forall i | i in s ensures -bound <= RowsOver(m, t)(i) <= bound {
      RowInRange(m, i, t);
    }
    SumBounded(s, RowsOver(m, t), bound);
    ProductOfParts(|s|, |t|);
  }

  lemma ProductOfParts(a: nat, b: nat)
    requires a + b <= 2048
    ensures a * (b * MASK_BOUND) <= 0x1000_0000_0000_0000
  {
    MulLeft(a, b, 2048 - a);
    assert a * (2048 - a) == 0x10_0000 - (a - 1024) * (a - 1024);
    SquareNonNegative(a - 1024);
    assert a * (b * MASK_BOUND) == (a * b) * MASK_BOUND;
  }

  lemma MulLeft(a: nat, b: int, b': int)
    requires b <= b'
    ensures a * b <= a * b'
  {
  }

  lemma SquareNonNegative(x: int)
    ensures x * x >= 0
  {
  }

  /**
   * Up to 2048 organizations, a client's mask after any number of peers fits int64, and with |q| <= 2^50
   * so does the contribution it sends: the client loop never wraps.
   */
  lemma ClientAccumulatorFits(m: (OrgId, OrgId) -> int, q: int, i: OrgId, roster: seq<OrgId>, peers: seq<OrgId>)
    requires Bounded(m) && |peers| <= |roster| <= ROSTER_BOUND && -(UPDATE_BOUND as int) <= q <= UPDATE_BOUND
    ensures Fits(Row(m, i, peers))
    ensures -(CONTRIBUTION_BOUND as int) <= q + Row(m, i, roster) <= CONTRIBUTION_BOUND
    ensures Fits(q + Row(m, i, roster))
  {
    RowInRange(m, i, peers);
    RowInRange(m, i, roster);
  }

  /** Under the same bounds the server's running total and running residual never wrap either. */
  lemma ServerAccumulatorsFit(m: (OrgId, OrgId) -> int, f: OrgId -> int, survivor: OrgId,
                              order: seq<OrgId>, dropped: seq<OrgId>, visited: seq<OrgId>)
    requires Bounded(m) && |order| + |dropped| <= ROSTER_BOUND && |visited| <= |dropped|
    requires forall j :: j in order ==> -(CONTRIBUTION_BOUND as int) <= f(j) <= CONTRIBUTION_BOUND
    ensures Fits(Sum(order, f))
    ensures Fits(Double(m, order, dropped) + Row(m, survivor, visited))
  {
    SumBounded(order, f, CONTRIBUTION_BOUND);
    MulLeft(CONTRIBUTION_BOUND, |order|, ROSTER_BOUND);
    DoubleInRange(m, order, dropped);
    RowInRange(m, survivor, visited);
  }

  lemma ContributionsInRange(r: Round, contributions: map<OrgId, Contribution>, order: seq<OrgId>,
                             f: OrgId -> int, u: OrgId -> int, m: (OrgId, OrgId) -> int, c: nat)
    requires r.Contributed(contributions) && Enumerates(order, contributions.Keys) && c < r.dim
    requires f == MaskedAt(contributions, c) && u == r.UpdateAt(c) && m == r.TermsAt(c)
    requires Lawful(r.prims) && |r.roster| <= ROSTER_BOUND
    requires forall j :: j in order ==> -(UPDATE_BOUND as int) <= u(j) <= UPDATE_BOUND
    ensures Bounded(m)
    ensures forall j :: j in order ==> Fits(Row(m, j, r.roster)) && f(j) == u(j) + Row(m, j, r.roster)
    ensures forall j :: j in order ==> -(CONTRIBUTION_BOUND as int) <= f(j) <= CONTRIBUTION_BOUND
  {
    TermsBounded(r, c);
    MaskedPoints(r, contributions, order, f, u, m, c);
    forall j | j in order
      ensures Fits(Row(m, j, r.roster)) && f(j) == u(j) + Row(m, j, r.roster)
      ensures -(CONTRIBUTION_BOUND as int) <= f(j) <= CONTRIBUTION_BOUND
    {
      assert Masked(r.roster, f, u, m, j);
      ClientAccumulatorFits(m, u(j), j, r.roster, r.roster);
    }
  }

  /**
   * Within those bounds no sum in the round wraps: masks and contributions of every client, total and residual
   * of the server over any part of the visit; and the opened integer is the plain sum of the updates.
   */
  lemma AggregateInRange(r: Round, contributions: map<OrgId, Contribution>, seeds: map<(OrgId, OrgId), Bytes>,
                         order: seq<OrgId>, part: seq<OrgId>, visited: seq<OrgId>, i: OrgId, c: nat)
    requires Lawful(r.prims) && NoDuplicates(r.roster) && |r.roster| <= ROSTER_BOUND
    requires r.Contributed(contributions) && r.Revealed(contributions.Keys, seeds)
    requires Enumerates(order, contributions.Keys) && c < r.dim && i in order
    requires part <= order && |visited| <= |r.DroppedFrom(contributions.Keys)|
    requires forall j :: j in order ==> -(UPDATE_BOUND as int) <= r.UpdateAt(c)(j) <= UPDATE_BOUND
    ensures MaskedAt(contributions, c)(i) == r.UpdateAt(c)(i) + Row(r.TermsAt(c), i, r.roster)
    ensures Fits(Row(r.TermsAt(c), i, r.roster))
    ensures Fits(Sum(part, MaskedAt(contributions, c)))
    ensures Fits(Double(r.TermsAt(c), part, r.DroppedFrom(contributions.Keys)) + Row(r.TermsAt(c), i, visited))
    ensures OpenedAt(r.prims, contributions, seeds, order, r.DroppedFrom(contributions.Keys), c)
         == Sum(order, r.UpdateAt(c))
  {
    var dropped, f, u, m := r.DroppedFrom(contributions.Keys), MaskedAt(contributions, c), r.UpdateAt(c), r.TermsAt(c);
    AggregateIsExact(r, contributions, seeds, order, c);
    RosterSplits(r, contributions.Keys, order);
    assert |multiset(r.roster)| == |multiset(order)| + |multiset(dropped)|;
    UpdateSumFits(order, u);
    ContributionsInRange(r, contributions, order, f, u, m, c);
    assert forall j :: j in part ==> j in order;
    ServerAccumulatorsFit(m, f, i, part, dropped, visited);
  }

  lemma UpdateSumFits(order: seq<OrgId>, u: OrgId -> int)
    requires |order| <= ROSTER_BOUND && forall j :: j in order ==> -(UPDATE_BOUND as int) <= u(j) <= UPDATE_BOUND
    ensures Fits(Sum(order, u))
  {
    SumBounded(order, u, UPDATE_BOUND);
    MulLeft(UPDATE_BOUND, |order|, ROSTER_BOUND);
  }
}
