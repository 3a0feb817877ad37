/** Bytes and text that stand for vectors, budgets, servers and rounds (sentrylink/storage/codec.py). */
module Codec {
  import opened Foundations
  import opened DifferentialPrivacy
  import opened Storage
  import Federated

  /**
   * How numbers are written: eight bytes each in a vector, decimal text as a JSON key. Only the numbers that `float`
   * admits can be told apart by finitely many bytes, so only for them do the readers invert the writers.
   */
  datatype Format = Format(
    float: real -> bool,
    pack: real -> Bytes,
    unpack: Bytes -> real,
    text: real -> string,
    number: string -> real)

  ghost predicate Faithful(f: Format, x: real) {
    |f.pack(x)| == 8 && f.unpack(f.pack(x)) == x && f.number(f.text(x)) == x
  }

  ghost predicate LawfulFormat(f: Format) {
    forall x {:trigger Faithful(f, x)} :: f.float(x) ==> Faithful(f, x)
  }

  ghost predicate Floats(f: Format, v: seq<real>) {
    forall k :: 0 <= k < |v| ==> f.float(v[k])
  }

  // ---- vectors ----

  function EncodeVector(f: Format, v: seq<real>): Bytes {
    if v == [] then [] else EncodeVector(f, v[..|v| - 1]) + f.pack(v[|v| - 1])
  }

  /** Raises unless the bytes hold exactly `dim` numbers. */
  function DecodeVector(f: Format, raw: Bytes, dim: nat): Result<seq<real>, Error> {
    if |raw| != 8 * dim then Err(ValueError)
    else Ok(seq(dim, k requires 0 <= k < dim => f.unpack(raw[8 * k..8 * k + 8])))
  }

  /** Number k of a vector is bytes 8k to 8k + 7. */
  lemma {:induction false} EncodedAt(f: Format, v: seq<real>, k: nat)
    requires LawfulFormat(f) && Floats(f, v)
    ensures |EncodeVector(f, v)| == 8 * |v|
    ensures k < |v| ==> EncodeVector(f, v)[8 * k..8 * k + 8] == f.pack(v[k])
  {
    if v != [] {
      var init, last := v[..|v| - 1], v[|v| - 1];
      EncodedAt(f, init, k);
      assert Faithful(f, last);
      if k < |init| {
        assert EncodeVector(f, v)[8 * k..8 * k + 8] == EncodeVector(f, init)[8 * k..8 * k + 8];
      } else if k == |init| {
        assert EncodeVector(f, v)[8 * k..] == f.pack(last);
      }
    }
  }

  /** A stored vector is read back at its own length and rejected at every other. */
  lemma VectorRoundTrip(f: Format, v: seq<real>, dim: nat)
    requires LawfulFormat(f) && Floats(f, v)
    ensures DecodeVector(f, EncodeVector(f, v), dim) == if dim == |v| then Ok(v) else Err(ValueError)
  {
    EncodedAt(f, v, 0);
    if dim == |v| {
      var decoded := DecodeVector(f, EncodeVector(f, v), dim).value;
      forall k | 0 <= k < dim ensures decoded[k] == v[k] {
        EncodedAt(f, v, k);
        assert Faithful(f, v[k]);
      }
      assert decoded == v;
    }
  }

  // ---- budgets ----

  datatype BudgetBlob = BudgetBlob(
    limit: PrivacyBudget,
    spent: PrivacyBudget,
    events: seq<Event>,
    rdpTotals: map<string, real>,
    rdpComplete: bool)

  /** Different orders have different texts. */
  ghost predicate Keyed(f: Format, totals: RdpCost) {
    forall a, b {:trigger f.text(a), f.text(b)} :: a in totals && b in totals && f.text(a) == f.text(b) ==> a == b
  }

  ghost predicate Readable(f: Format, totals: map<string, real>) {
    forall k, l {:trigger f.number(k), f.number(l)} ::
      k in totals && l in totals && f.number(k) == f.number(l) ==> k == l
  }

  ghost function EncodeTotals(f: Format, totals: RdpCost): map<string, real>
    requires Keyed(f, totals)
  {
    map a | a in totals :: f.text(a) := totals[a]
  }

  ghost function DecodeTotals(f: Format, totals: map<string, real>): RdpCost
    requires Readable(f, totals)
  {
    map k | k in totals :: f.number(k) := totals[k]
  }

  ghost predicate FloatOrders(f: Format, totals: RdpCost) {
    forall a :: a in totals ==> f.float(a)
  }

  lemma TotalsKeyed(f: Format, totals: RdpCost)
    requires LawfulFormat(f) && FloatOrders(f, totals)
    ensures Keyed(f, totals)
  {
    forall a, b | a in totals && b in totals && f.text(a) == f.text(b) ensures a == b {
      assert Faithful(f, a) && Faithful(f, b);
    }
  }

  /** Every stored key is the text of the order it is read back as. */
  lemma StoredKey(f: Format, totals: RdpCost, k: string)
    requires LawfulFormat(f) && FloatOrders(f, totals) && Keyed(f, totals) && k in EncodeTotals(f, totals)
    ensures f.number(k) in totals && f.text(f.number(k)) == k && EncodeTotals(f, totals)[k] == totals[f.number(k)]
  {
    var a :| a in totals && f.text(a) == k;
    assert Faithful(f, a);
  }

  lemma StoredTotalsReadable(f: Format, totals: RdpCost, blob: map<string, real>)
    requires LawfulFormat(f) && FloatOrders(f, totals) && Keyed(f, totals) && blob == EncodeTotals(f, totals)
    ensures Readable(f, blob)
  {
    forall k, l | k in blob && l in blob && f.number(k) == f.number(l) ensures k == l {
      StoredKey(f, totals, k);
      StoredKey(f, totals, l);
    }
  }

  lemma ReadBack(f: Format, totals: RdpCost, blob: map<string, real>, a: real)
    requires LawfulFormat(f) && FloatOrders(f, totals) && Keyed(f, totals) && blob == EncodeTotals(f, totals)
    requires Readable(f, blob)
    ensures a in DecodeTotals(f, blob) <==> a in totals
    ensures a in totals ==> DecodeTotals(f, blob)[a] == totals[a]
  {
    if a in totals {
      assert Faithful(f, a) && f.text(a) in blob;
      StoredKey(f, totals, f.text(a));
    }
    if a in DecodeTotals(f, blob) {
      var k :| k in blob && f.number(k) == a;
      StoredKey(f, totals, k);
    }
  }

  ghost predicate SameAt(m: RdpCost, n: RdpCost, a: real) {
    (a in m <==> a in n) && (a in m ==> m[a] == n[a])
  }

  lemma SameMaps(m: RdpCost, n: RdpCost)
    requires forall a {:trigger SameAt(m, n, a)} :: SameAt(m, n, a)
    ensures m == n
  {
    forall a ensures a in m <==> a in n {
      assert SameAt(m, n, a);
    }
    forall a | a in m ensures m[a] == n[a] {
      assert SameAt(m, n, a);
    }
  }

  lemma AllReadBack(f: Format, totals: RdpCost, blob: map<string, real>)
    requires LawfulFormat(f) && FloatOrders(f, totals) && Keyed(f, totals) && blob == EncodeTotals(f, totals)
    requires Readable(f, blob)
    ensures DecodeTotals(f, blob) == totals
  {
    var back := DecodeTotals(f, blob);
    forall a ensures SameAt(back, totals, a) {
      ReadBack(f, totals, blob, a);
    }
    SameMaps(back, totals);
  }

  /** Orders survive their text form: what is read back are the same totals at the same orders. */
  lemma TotalsRoundTrip(f: Format, totals: RdpCost)
    requires LawfulFormat(f) && FloatOrders(f, totals)
    ensures Keyed(f, totals) && Readable(f, EncodeTotals(f, totals))
    ensures DecodeTotals(f, EncodeTotals(f, totals)) == totals
  {
    TotalsKeyed(f, totals);
    StoredTotalsReadable(f, totals, EncodeTotals(f, totals));
    AllReadBack(f, totals, EncodeTotals(f, totals));
  }

  ghost function EncodeBudget(f: Format, acc: Accountant): BudgetBlob
    requires Keyed(f, acc.rdpTotals)
  {
    BudgetBlob(acc.limit, acc.spent, acc.events, EncodeTotals(f, acc.rdpTotals), acc.rdpComplete)
  }

  ghost function DecodeBudget(f: Format, blob: BudgetBlob): Accountant
    requires Readable(f, blob.rdpTotals)
  {
    Accountant(blob.limit, blob.spent, blob.events, DecodeTotals(f, blob.rdpTotals), blob.rdpComplete)
  }

  /** A stored accountant is read back unchanged. */
  lemma BudgetRoundTrip(f: Format, acc: Accountant)
    requires LawfulFormat(f) && FloatOrders(f, acc.rdpTotals)
    ensures Keyed(f, acc.rdpTotals) && Readable(f, EncodeBudget(f, acc).rdpTotals)
    ensures DecodeBudget(f, EncodeBudget(f, acc)) == acc
  {
    TotalsRoundTrip(f, acc.rdpTotals);
  }

  // ---- servers and their rounds ----

  datatype ServerBlob = ServerBlob(dim: nat, bias: real, weights: Bytes, rounds: int)

  /** A round row: everything but the two vectors is stored as it is. */
  datatype RoundBlob = RoundBlob(rest: Federated.RoundResult, aggregateDelta: Bytes, weights: Bytes)

  function EncodeRound(f: Format, r: Federated.RoundResult): RoundBlob {
    RoundBlob(r.(aggregate := [], model := []), EncodeVector(f, r.aggregate), EncodeVector(f, r.model))
  }

  function DecodeRound(f: Format, blob: RoundBlob, dim: nat): Result<Federated.RoundResult, Error> {
    var weights := DecodeVector(f, blob.weights, dim + 1);
    var aggregate := DecodeVector(f, blob.aggregateDelta, dim + 1);
    if weights.Err? then Err(weights.error)
    else if aggregate.Err? then Err(aggregate.error)
    else Ok(blob.rest.(aggregate := aggregate.value, model := weights.value))
  }

  function EncodeRounds(f: Format, rounds: seq<Federated.RoundResult>): seq<RoundBlob> {
    if rounds == [] then [] else EncodeRounds(f, rounds[..|rounds| - 1]) + [EncodeRound(f, rounds[|rounds| - 1])]
  }

  /** The first row that cannot be read stops the others. */
  function DecodeRounds(f: Format, blobs: seq<RoundBlob>, dim: nat): Result<seq<Federated.RoundResult>, Error> {
    if blobs == [] then Ok([])
    else
      var init := DecodeRounds(f, blobs[..|blobs| - 1], dim);
      var last := DecodeRound(f, blobs[|blobs| - 1], dim);
      if init.Err? then init
      else if last.Err? then Err(last.error)
      else Ok(init.value + [last.value])
  }

  function EncodeLive(f: Format, server: LiveServer): ServerBlob
    requires server.model != []
  {
    ServerBlob(server.dim, server.model[0], EncodeVector(f, server.model), |server.history|)
  }

  /** Rebuilding a server from its rows; the bias is part of the weights and not read again. */
  function DecodeLive(f: Format, blob: ServerBlob, rounds: seq<RoundBlob>): Result<LiveServer, Error> {
    var model := DecodeVector(f, blob.weights, blob.dim + 1);
    var history := DecodeRounds(f, rounds, blob.dim);
    if model.Err? then Err(model.error)
    else if history.Err? then Err(history.error)
    else if |history.value| != blob.rounds then Err(AssertionFailed)
    else Ok(LiveServer(blob.dim, model.value, history.value))
  }

  ghost predicate FloatRounds(f: Format, rounds: seq<Federated.RoundResult>) {
    forall k :: 0 <= k < |rounds| ==> Floats(f, rounds[k].aggregate) && Floats(f, rounds[k].model)
  }

  lemma RoundRoundTrip(f: Format, r: Federated.RoundResult, dim: nat)
    requires LawfulFormat(f) && Floats(f, r.aggregate) && Floats(f, r.model)
    ensures DecodeRound(f, EncodeRound(f, r), dim) == if SizedRound(r, dim) then Ok(r) else Err(ValueError)
  {
    VectorRoundTrip(f, r.aggregate, dim + 1);
    VectorRoundTrip(f, r.model, dim + 1);
  }

  /** Round rows are read back in order, unless one of them has vectors of another size. */
  lemma {:induction false} RoundsRoundTrip(f: Format, rounds: seq<Federated.RoundResult>, dim: nat)
    requires LawfulFormat(f) && FloatRounds(f, rounds)
    ensures |EncodeRounds(f, rounds)| == |rounds|
    ensures DecodeRounds(f, EncodeRounds(f, rounds), dim)
         == if SizedRounds(rounds, dim) then Ok(rounds) else Err(ValueError)
  {
    if rounds != [] {
      var init, last := rounds[..|rounds| - 1], rounds[|rounds| - 1];
      RoundsRoundTrip(f, init, dim);
      RoundRoundTrip(f, last, dim);
      assert EncodeRounds(f, rounds)[..|init|] == EncodeRounds(f, init);
      assert rounds == init + [last];
      assert SizedRounds(rounds, dim) <==> SizedRounds(init, dim) && SizedRound(last, dim) by {
        assert rounds[|init|] == last && forall k :: 0 <= k < |init| ==> rounds[k] == init[k];
      }
    }
  }

  /**
   * Reading the bytes of any server row with any round rows gives exactly what the store's own rows decode to, the
   * exceptions included, so the store may be thought of as holding vectors.
   */
  lemma BytesStandForVectors(f: Format, row: ServerRow, rounds: seq<Federated.RoundResult>, bias: real)
    requires LawfulFormat(f) && Floats(f, row.model) && FloatRounds(f, rounds)
    ensures DecodeLive(f, ServerBlob(row.dim, bias, EncodeVector(f, row.model), row.rounds), EncodeRounds(f, rounds))
         == DecodeServer(row, rounds)
  {
    VectorRoundTrip(f, row.model, row.dim + 1);
    RoundsRoundTrip(f, rounds, row.dim);
  }

  /** A live server whose vectors have its dimension survives encoding with its whole history. */
  lemma LiveRoundTrip(f: Format, server: LiveServer)
    requires LawfulFormat(f) && Floats(f, server.model) && FloatRounds(f, server.history)
    requires |server.model| == server.dim + 1 && SizedRounds(server.history, server.dim)
    ensures DecodeLive(f, EncodeLive(f, server), EncodeRounds(f, server.history)) == Ok(server)
  {
    BytesStandForVectors(f, EncodeServer(server), server.history, server.model[0]);
  }
}
