/** Federated rounds and masked evaluation (sentrylink/federated/server.py). */
module Federated {
  import opened Foundations
  import opened Int64
  import opened RealVectors
  import opened SecureAggregation
  import opened MaskedSum
  import Dp = DifferentialPrivacy
  import Sorting

  /** What a client reports about its own rows. */
  datatype Tally = Tally(n: nat, lossSum: real, correct: nat)

  /**
   * A client as the server sees it: an id, its dimension, the keys of its two sub-rounds, and two local computations. A
   * tally that is not finite (an overflowing loss, say) is no real vector; `finite` says on which models there is none.
   */
  datatype FederatedClient = FederatedClient(
    orgId: OrgId,
    dim: nat,
    roundKey: Bytes,
    evalKey: Bytes,
    localTrain: seq<real> -> seq<real>,
    evalStats: seq<real> -> Tally,
    finite: seq<real> -> bool)

  datatype EvalStats = EvalStats(n: int, meanLoss: Option<real>, nCorrect: int, accuracy: Option<real>)

  datatype RoundResult = RoundResult(
    roundId: string,
    participants: seq<OrgId>,
    dropped: seq<OrgId>,
    aggregate: seq<real>,
    model: seq<real>,
    evaluation: EvalStats,
    dpApplied: bool,
    epsilonUsed: real,
    dpSigma: real,
    deltaUsed: real)

  function TrainingMembers(clients: seq<FederatedClient>, model: seq<real>): (r: seq<Member>)
    ensures |r| == |clients|
    ensures forall k :: 0 <= k < |r| ==>
              && r[k].orgId == clients[k].orgId && r[k].privateKey == clients[k].roundKey
              && r[k].vector == clients[k].localTrain(model)
  {
    seq(|clients|, k requires 0 <= k < |clients| =>
      Member(clients[k].orgId, clients[k].roundKey, clients[k].localTrain(model)))
  }

  function EvalMembers(clients: seq<FederatedClient>, model: seq<real>): (r: seq<Member>)
    ensures |r| == |clients|
    ensures forall k :: 0 <= k < |r| ==> r[k].orgId == clients[k].orgId && r[k].privateKey == clients[k].evalKey
  {
    seq(|clients|, k requires 0 <= k < |clients| =>
      var t := clients[k].evalStats(model);
      Member(clients[k].orgId, clients[k].evalKey, [t.n as real, t.lossSum, t.correct as real]))
  }

  function ClientIds(clients: seq<FederatedClient>): seq<OrgId> {
    seq(|clients|, k requires 0 <= k < |clients| => clients[k].orgId)
  }

  function ActiveClients(clients: seq<FederatedClient>, drop: seq<OrgId>): (r: seq<FederatedClient>) {
    if clients == [] then []
    else
      var rest := ActiveClients(clients[..|clients| - 1], drop);
      var last := clients[|clients| - 1];
      if last.orgId in drop then rest else rest + [last]
  }

  /** An int64 total, opened and divided by the cohort size. */
  function MeanOf(total: int, k: nat): real
    requires k > 0
  {
    Dequantize(Wrap(total)) / k as real
  }

  /** FedAvg before noise at coordinate `c`: the opened sum of the active clients' clipped updates over their number. */
  function MeanAt(sqrt: real -> real, active: seq<Member>, c: nat): real
    requires active != []
  {
    MeanOf(PlainSum(sqrt, Some(UPDATE_CLIP), active, c), |active|)
  }

  function MeanVector(sqrt: real -> real, active: seq<Member>, dim: nat): (r: seq<real>)
    requires active != []
    ensures |r| == dim && forall c :: 0 <= c < dim ==> r[c] == MeanAt(sqrt, active, c)
  {
    seq(dim, c requires 0 <= c < dim => MeanAt(sqrt, active, c))
  }

  // ---- masked evaluation ----

  function CountSum(clients: seq<FederatedClient>, model: seq<real>): nat {
    if clients == [] then 0
    else CountSum(clients[..|clients| - 1], model) + clients[|clients| - 1].evalStats(model).n
  }

  function CorrectSum(clients: seq<FederatedClient>, model: seq<real>): nat {
    if clients == [] then 0
    else CorrectSum(clients[..|clients| - 1], model) + clients[|clients| - 1].evalStats(model).correct
  }

  function LossSum(clients: seq<FederatedClient>, model: seq<real>): real {
    if clients == [] then 0.0
    else LossSum(clients[..|clients| - 1], model) + clients[|clients| - 1].evalStats(model).lossSum
  }

  /** The three tally sums fit the int64 accumulator. */
  ghost predicate TalliesFit(sqrt: real -> real, clients: seq<FederatedClient>, model: seq<real>) {
    forall c :: 0 <= c < 3 ==> Fits(PlainSum(sqrt, None, EvalMembers(clients, model), c))
  }

  lemma RintOfInteger(n: int)
    ensures Rint(n as real) == n && Rint((n * QUANT_SCALE) as real) == n * QUANT_SCALE
    ensures n as real * QUANT_SCALE as real == (n * QUANT_SCALE) as real
  {
  }

  lemma TallyQuantized(sqrt: real -> real, m: Member, n: nat, loss: real, correct: nat)
    requires m.vector == [n as real, loss, correct as real]
    ensures QuantizedAt(sqrt, None, 0)(m) == n * QUANT_SCALE
    ensures QuantizedAt(sqrt, None, 2)(m) == correct * QUANT_SCALE
    ensures -0.5 <= QuantizedAt(sqrt, None, 1)(m) as real - loss * QUANT_SCALE as real <= 0.5
  {
    RintOfInteger(n);
    RintOfInteger(correct);
  }

  /** Counts survive quantization exactly; the loss moves by at most half a quantum per client. */
  lemma {:induction false} TallySums(sqrt: real -> real, clients: seq<FederatedClient>, model: seq<real>)
    ensures PlainSum(sqrt, None, EvalMembers(clients, model), 0) == CountSum(clients, model) * QUANT_SCALE
    ensures PlainSum(sqrt, None, EvalMembers(clients, model), 2) == CorrectSum(clients, model) * QUANT_SCALE
    ensures var loss := PlainSum(sqrt, None, EvalMembers(clients, model), 1) as real;
            -0.5 * |clients| as real <= loss - LossSum(clients, model) * QUANT_SCALE as real <= 0.5 * |clients| as real
  {
    if clients != [] {
      var init, last := clients[..|clients| - 1], clients[|clients| - 1];
      TallySums(sqrt, init, model);
      var members := EvalMembers(clients, model);
      assert members[..|members| - 1] == EvalMembers(init, model);
      var t := last.evalStats(model);
      TallyQuantized(sqrt, members[|members| - 1], t.n, t.lossSum, t.correct);
    }
  }

  lemma DequantizeExact(n: int)
    ensures Dequantize(n * QUANT_SCALE) == n as real
  {
  }

  function Ratio(x: real, n: int): real
    requires n != 0
  {
    x / n as real
  }

  /** The statistics computed from the three opened totals; Python's round on the counts, NaN when no rows. */
  function Summarize(total: seq<real>): EvalStats
    requires |total| == 3
  {
    var n, correct := Rint(total[0]), Rint(total[2]);
    EvalStats(n, if n != 0 then Some(Ratio(total[1], n)) else None,
              correct, if n != 0 then Some(Ratio(correct as real, n)) else None)
  }

  /** The totals a masked evaluation opens when no tally sum leaves int64. */
  ghost predicate OpensTallies(total: seq<real>, sqrt: real -> real, clients: seq<FederatedClient>, model: seq<real>) {
    |total| == 3 && forall c :: 0 <= c < 3 ==>
        total[c] == Dequantize(PlainSum(sqrt, None, EvalMembers(clients, model), c))
  }

  /** Half a quantum per client. */
  function Slack(k: nat): real {
    k as real / (2.0 * QUANT_SCALE as real)
  }

  predicate Within(x: real, y: real, slack: real) {
    -slack <= x - y <= slack
  }

  lemma LossWithinQuantum(loss: real, sum: real, k: nat)
    requires -0.5 * k as real <= loss - sum * QUANT_SCALE as real <= 0.5 * k as real
    ensures Within(loss / QUANT_SCALE as real, sum, Slack(k))
  {
  }

  lemma OpenedCount(total: real, sum: int, n: nat)
    requires total == Dequantize(sum) && sum == n * QUANT_SCALE
    ensures Rint(total) == n
  {
    DequantizeExact(n);
    RintOfInteger(n);
  }

  /** Both counts are exact. */
  lemma CountsExact(total: seq<real>, sqrt: real -> real, clients: seq<FederatedClient>, model: seq<real>)
    requires OpensTallies(total, sqrt, clients, model)
    ensures Rint(total[0]) == CountSum(clients, model) && Rint(total[2]) == CorrectSum(clients, model)
  {
    TallySums(sqrt, clients, model);
    OpenedCount(total[0], PlainSum(sqrt, None, EvalMembers(clients, model), 0), CountSum(clients, model));
    OpenedCount(total[2], PlainSum(sqrt, None, EvalMembers(clients, model), 2), CorrectSum(clients, model));
  }

  /** The summed loss is off by at most half a quantum per client. */
  lemma LossNearlyExact(total: seq<real>, sqrt: real -> real, clients: seq<FederatedClient>, model: seq<real>)
    requires OpensTallies(total, sqrt, clients, model)
    ensures Within(total[1], LossSum(clients, model), Slack(|clients|))
  {
    TallySums(sqrt, clients, model);
    LossWithinQuantum(PlainSum(sqrt, None, EvalMembers(clients, model), 1) as real, LossSum(clients, model), |clients|);
  }

  lemma RatioTimesCount(x: real, n: int)
    requires n != 0
    ensures Times(Ratio(x, n), n as real) == x
  {
  }

  /** What a reader of the statistics recovers: the counts, and both totals as mean times count. */
  ghost predicate Faithful(e: EvalStats, clients: seq<FederatedClient>, model: seq<real>) {
    && e.n == CountSum(clients, model) && e.nCorrect == CorrectSum(clients, model)
    && (e.n != 0 ==>
          && e.meanLoss.Some? && e.accuracy.Some?
          && Times(e.accuracy.value, e.n as real) == e.nCorrect as real
          && Within(Times(e.meanLoss.value, e.n as real), LossSum(clients, model), Slack(|clients|)))
    && (e.n == 0 ==> e.meanLoss.None? && e.accuracy.None?)
  }

  /** The evaluation is exact on both counts, and within k/(2·QUANT_SCALE) on the summed loss. */
  lemma EvaluationExact(total: seq<real>, sqrt: real -> real, clients: seq<FederatedClient>, model: seq<real>)
    requires OpensTallies(total, sqrt, clients, model)
    ensures Faithful(Summarize(total), clients, model)
  {
    CountsExact(total, sqrt, clients, model);
    LossNearlyExact(total, sqrt, clients, model);
    SummaryFaithful(total, clients, model);
  }

  lemma SummaryFaithful(total: seq<real>, clients: seq<FederatedClient>, model: seq<real>)
    requires |total| == 3
    requires Rint(total[0]) == CountSum(clients, model) && Rint(total[2]) == CorrectSum(clients, model)
    requires Within(total[1], LossSum(clients, model), Slack(|clients|))
    ensures Faithful(Summarize(total), clients, model)
  {
    var n := Rint(total[0]);
    if n != 0 {
      RatioTimesCount(total[1], n);
      RatioTimesCount(Rint(total[2]) as real, n);
    }
  }

  predicate AllFinite(clients: seq<FederatedClient>, model: seq<real>) {
    forall k :: 0 <= k < |clients| ==> clients[k].finite(model)
  }

  /**
   * Masked evaluation of any client list: raises exactly for a tally that is not finite. For distinct ids the outcome
   * is faithful; clients that share an id overwrite each other's tally.
   */
  method SecureEval(p: Primitives, roundId: string, clients: seq<FederatedClient>, model: seq<real>)
    returns (r: Result<EvalStats, Error>)
    requires Lawful(p)
    ensures clients == [] ==> r == Ok(EvalStats(0, None, 0, None))
    ensures r.Ok? <==> forall k :: 0 <= k < |clients| ==> clients[k].finite(model)
    ensures r.Err? ==> r == Err(InvalidDataError)
    ensures r.Ok? && clients != [] && NoDuplicates(ClientIds(clients)) && TalliesFit(p.sqrt, clients, model) ==>
              Faithful(r.value, clients, model)
  {
    if clients == [] {
      return Ok(EvalStats(0, None, 0, None));
    }
    if !AllFinite(clients, model) {
      return Err(InvalidDataError);
    }
    var members := EvalMembers(clients, model);
    assert Ids(members) == ClientIds(clients);
    var total := SumAll(p, roundId, members, 3);
    if NoDuplicates(ClientIds(clients)) && TalliesFit(p.sqrt, clients, model) {
      assert OpensTallies(total, p.sqrt, clients, model);
      EvaluationExact(total, p.sqrt, clients, model);
    }
    return Ok(Summarize(total));
  }

  // ---- the round ----

  lemma {:induction false} ActiveTrainers(clients: seq<FederatedClient>, model: seq<real>, drop: seq<OrgId>)
    ensures Active(TrainingMembers(clients, model), drop) == TrainingMembers(ActiveClients(clients, drop), model)
  {
    if clients != [] {
      var init := clients[..|clients| - 1];
      var members := TrainingMembers(clients, model);
      assert members[..|members| - 1] == TrainingMembers(init, model);
      ActiveTrainers(init, model, drop);
    }
  }

  /** An active client's update of the wrong length stops the round when it is masked. */
  predicate WrongLength(active: seq<Member>, dim: nat) {
    exists m :: m in active && |m.vector| != dim
  }

  /** Local training raises for a client of another dimension than the model's. */
  predicate WrongDimension(active: seq<FederatedClient>, model: seq<real>) {
    exists k :: 0 <= k < |active| && active[k].dim + 1 != |model|
  }

  /** The exception a round raises before its model has moved, if any; the checks come in this order. */
  ghost function RoundError(clients: seq<FederatedClient>, model: seq<real>, drop: seq<OrgId>,
                            applyDp: bool, epsilon: real, delta: real): Option<Error> {
    var active := TrainingMembers(ActiveClients(clients, drop), model);
    if !NoDuplicates(ClientIds(clients)) then Some(DuplicateRosterError)
    else if active == [] then Some(ProtocolError)
    else if WrongDimension(ActiveClients(clients, drop), model) then Some(ModelDimensionMismatchError)
    else if WrongLength(active, |model|) then Some(InvalidDataError)
    else if applyDp && (epsilon <= 0.0 || !(0.0 < delta < 1.0)) then Some(ValueError)
    else None
  }

  /** The client takes part: it is not among those that drop out. */
  predicate TakesPart(clients: seq<FederatedClient>, drop: seq<OrgId>, k: nat)
    requires k < |clients|
  {
    clients[k].orgId !in drop
  }

  lemma {:induction false} ActiveComesFrom(clients: seq<FederatedClient>, drop: seq<OrgId>, j: nat) returns (k: nat)
    requires j < |ActiveClients(clients, drop)|
    ensures k < |clients| && TakesPart(clients, drop, k) && ActiveClients(clients, drop)[j] == clients[k]
  {
    var init := clients[..|clients| - 1];
    if j < |ActiveClients(init, drop)| {
      k := ActiveComesFrom(init, drop, j);
    } else {
      k := |init|;
    }
  }

  lemma {:induction false} ActiveIncludes(clients: seq<FederatedClient>, drop: seq<OrgId>, k: nat) returns (j: nat)
    requires k < |clients| && TakesPart(clients, drop, k)
    ensures j < |ActiveClients(clients, drop)| && ActiveClients(clients, drop)[j] == clients[k]
  {
    var init := clients[..|clients| - 1];
    if k < |init| {
      j := ActiveIncludes(init, drop, k);
    } else {
      j := |ActiveClients(init, drop)|;
    }
  }

  lemma SomeActive(clients: seq<FederatedClient>, drop: seq<OrgId>)
    ensures ActiveClients(clients, drop) != [] <==> exists k :: 0 <= k < |clients| && TakesPart(clients, drop, k)
  {
    if ActiveClients(clients, drop) != [] {
      var k := ActiveComesFrom(clients, drop, 0);
    } else if k :| 0 <= k < |clients| && TakesPart(clients, drop, k) {
      var j := ActiveIncludes(clients, drop, k);
    }
  }

  lemma SomeWrongDimension(clients: seq<FederatedClient>, model: seq<real>, drop: seq<OrgId>)
    ensures WrongDimension(ActiveClients(clients, drop), model) <==>
              exists k :: 0 <= k < |clients| && TakesPart(clients, drop, k) && clients[k].dim + 1 != |model|
  {
    var active := ActiveClients(clients, drop);
    if WrongDimension(active, model) {
      var j :| 0 <= j < |active| && active[j].dim + 1 != |model|;
      var k := ActiveComesFrom(clients, drop, j);
    } else if k :| 0 <= k < |clients| && TakesPart(clients, drop, k) && clients[k].dim + 1 != |model| {
      var j := ActiveIncludes(clients, drop, k);
    }
  }

  lemma SomeWrongLength(clients: seq<FederatedClient>, model: seq<real>, drop: seq<OrgId>)
    ensures WrongLength(TrainingMembers(ActiveClients(clients, drop), model), |model|) <==>
              exists k :: 0 <= k < |clients| && TakesPart(clients, drop, k)
                          && |clients[k].localTrain(model)| != |model|
  {
    var active := ActiveClients(clients, drop);
    var members := TrainingMembers(active, model);
    if WrongLength(members, |model|) {
      var m :| m in members && |m.vector| != |model|;
      var j :| 0 <= j < |members| && members[j] == m;
      var k := ActiveComesFrom(clients, drop, j);
      assert m.vector == clients[k].localTrain(model);
    } else if k :| 0 <= k < |clients| && TakesPart(clients, drop, k) && |clients[k].localTrain(model)| != |model| {
      var j := ActiveIncludes(clients, drop, k);
      assert members[j] in members;
    }
  }

  /** Two clients share an id. */
  predicate IdShared(clients: seq<FederatedClient>) {
    exists i, j :: 0 <= i < j < |clients| && clients[i].orgId == clients[j].orgId
  }

  lemma IdsDistinct(clients: seq<FederatedClient>)
    ensures NoDuplicates(ClientIds(clients)) <==> !IdShared(clients)
  {
    var ids := ClientIds(clients);
    DistinctIndices(ids);
    assert forall k :: 0 <= k < |clients| ==> ids[k] == clients[k].orgId;
  }

  /** When a round raises before its model has moved, and with what, in terms of the clients themselves. */
  lemma RoundErrorMeans(clients: seq<FederatedClient>, model: seq<real>, drop: seq<OrgId>, applyDp: bool, epsilon: real,
                        delta: real)
    ensures var e := RoundError(clients, model, drop, applyDp, epsilon, delta);
            && (e == Some(DuplicateRosterError) <==> IdShared(clients))
            && (e == Some(ProtocolError) ==> forall k :: 0 <= k < |clients| ==> !TakesPart(clients, drop, k))
            && (e == Some(ModelDimensionMismatchError) ==>
                  exists k :: 0 <= k < |clients| && TakesPart(clients, drop, k) && clients[k].dim + 1 != |model|)
            && (e == Some(InvalidDataError) ==>
                  exists k :: 0 <= k < |clients| && TakesPart(clients, drop, k)
                              && |clients[k].localTrain(model)| != |model|)
            && (e == Some(ValueError) ==> applyDp && (epsilon <= 0.0 || delta <= 0.0 || delta >= 1.0))
            && (e == None ==>
                  && !IdShared(clients) && (exists k :: 0 <= k < |clients| && TakesPart(clients, drop, k))
                  && (forall k :: 0 <= k < |clients| && TakesPart(clients, drop, k) ==>
                        clients[k].dim + 1 == |model| == |clients[k].localTrain(model)|)
                  && (applyDp ==> epsilon > 0.0 && 0.0 < delta < 1.0))
            && e in {None, Some(DuplicateRosterError), Some(ProtocolError), Some(ModelDimensionMismatchError),
                     Some(InvalidDataError), Some(ValueError)}
  {
    IdsDistinct(clients);
    SomeActive(clients, drop);
    SomeWrongDimension(clients, model, drop);
    SomeWrongLength(clients, model, drop);
  }

  function DropSet(drop: seq<OrgId>): set<OrgId> {
    set x | x in drop
  }

  /** Replace-one sensitivity the server calibrates its noise to. */
  function MeanSensitivity(k: nat): real
    requires k > 0
  {
    2.0 * UPDATE_CLIP / k as real
  }

  /** The mean with the noise of the calibrated Gaussian added, when privacy is on. */
  function WithNoise(mean: seq<real>, applyDp: bool, noise: nat -> real): (r: seq<real>)
    ensures |r| == |mean|
    ensures forall c :: 0 <= c < |r| ==> r[c] == mean[c] + (if applyDp then noise(c) else 0.0)
  {
    seq(|mean|, c requires 0 <= c < |mean| => mean[c] + (if applyDp then noise(c) else 0.0))
  }

  /** The mean of the active clients' clipped updates, with noise when privacy is on. */
  ghost predicate IsAggregate(aggregate: seq<real>, sqrt: real -> real, clients: seq<FederatedClient>,
                              model: seq<real>, drop: seq<OrgId>, noise: nat -> real, applyDp: bool) {
    var active := TrainingMembers(ActiveClients(clients, drop), model);
    && active != [] && |aggregate| == |model|
    && forall c :: 0 <= c < |model| ==>
         aggregate[c] == MeanAt(sqrt, active, c) + (if applyDp then noise(c) else 0.0)
  }

  /** The scale is calibrated to the sensitivity of a mean of k updates; 0 without privacy. */
  ghost predicate IsScale(sigma: real, m: Dp.Analysis, k: nat, applyDp: bool, epsilon: real, delta: real) {
    if applyDp then k > 0 && Dp.GaussianSigma(m, MeanSensitivity(k), epsilon, delta) == Ok(sigma) else sigma == 0.0
  }

  /** The model a round moves to: the old one plus such an aggregate. */
  ghost predicate IsNext(next: seq<real>, sqrt: real -> real, clients: seq<FederatedClient>, model: seq<real>,
                         drop: seq<OrgId>, noise: nat -> real, applyDp: bool) {
    exists aggregate ::
      IsAggregate(aggregate, sqrt, clients, model, drop, noise, applyDp) && next == Add(model, aggregate)
  }

  function NewResult(roundId: string, clients: seq<FederatedClient>, drop: seq<OrgId>, aggregate: seq<real>,
                     model: seq<real>, evaluation: EvalStats, applyDp: bool, epsilon: real, sigma: real, delta: real)
    : RoundResult
  {
    RoundResult(roundId, Sorting.Sorted(ClientIds(ActiveClients(clients, drop))),
                Sorting.Sorted(Restrict(ClientIds(clients), DropSet(drop))), aggregate, model, evaluation, applyDp,
                if applyDp then epsilon else 0.0, sigma, delta)
  }

  /** What a successful round on `model` reports. */
  ghost predicate IsRound(res: RoundResult, sqrt: real -> real, m: Dp.Analysis, clients: seq<FederatedClient>,
                          model: seq<real>, drop: seq<OrgId>, noise: nat -> real,
                          applyDp: bool, epsilon: real, delta: real) {
    var active := ActiveClients(clients, drop);
    && active != [] && IsAggregate(res.aggregate, sqrt, clients, model, drop, noise, applyDp)
    && res.model == Add(model, res.aggregate)
    && res.participants == Sorting.Sorted(ClientIds(active))
    && res.dropped == Sorting.Sorted(Restrict(ClientIds(clients), DropSet(drop)))
    && (TalliesFit(sqrt, active, res.model) ==> Faithful(res.evaluation, active, res.model))
    && res.dpApplied == applyDp && res.deltaUsed == delta
    && res.epsilonUsed == (if applyDp then epsilon else 0.0)
    && IsScale(res.dpSigma, m, |active|, applyDp, epsilon, delta)
  }

  function Divide(v: seq<real>, k: nat): (r: seq<real>)
    requires k > 0
    ensures |r| == |v| && forall c :: 0 <= c < |r| ==> r[c] == v[c] / k as real
  {
    seq(|v|, c requires 0 <= c < |v| => v[c] / k as real)
  }

  lemma MeanIsQuotient(sqrt: real -> real, active: seq<Member>, sum: seq<real>)
    requires active != []
    requires forall c :: 0 <= c < |sum| ==> sum[c] == Dequantize(Wrap(PlainSum(sqrt, Some(UPDATE_CLIP), active, c)))
    ensures Divide(sum, |active|) == MeanVector(sqrt, active, |sum|)
  {
    forall c | 0 <= c < |sum| ensures Divide(sum, |active|)[c] == MeanVector(sqrt, active, |sum|)[c] {
    }
  }

  class FederatedServer {
    const dim: nat
    var model: seq<real>
    var history: seq<RoundResult>

    ghost predicate Valid()
      reads this
    {
      |model| == dim + 1
    }

    constructor (dim: nat)
      ensures Valid() && this.dim == dim && history == []
      ensures forall c :: 0 <= c < |model| ==> model[c] == 0.0
    {
      this.dim := dim;
      model, history := seq(dim + 1, _ => 0.0), [];
    }

    /** The summed updates of the active clients divided by their number, before noise. */
    method Mean(p: Primitives, roundId: string, clients: seq<FederatedClient>, drop: seq<OrgId>)
      returns (r: Result<seq<real>, Error>)
      requires Valid() && Lawful(p)
      ensures r.Err? ==> RoundError(clients, model, drop, false, 0.0, 0.0) == Some(r.error)
      ensures r.Ok? ==>
                && RoundError(clients, model, drop, false, 0.0, 0.0) == None
                && r.value == MeanVector(p.sqrt, TrainingMembers(ActiveClients(clients, drop), model), |model|)
    {
      if !Distinct(ClientIds(clients)) {
        return Err(DuplicateRosterError);
      }
      var active := ActiveClients(clients, drop);
      if active == [] {
        return Err(ProtocolError);
      }
      if WrongDimension(active, model) {
        return Err(ModelDimensionMismatchError);
      }
      var members := TrainingMembers(clients, model);
      assert Ids(members) == ClientIds(clients);
      ActiveTrainers(clients, model, drop);
      var sum := Run(p, roundId, members, drop, |model|, Some(UPDATE_CLIP));
      if sum.Err? {
        return Err(sum.error);
      }
      MeanIsQuotient(p.sqrt, TrainingMembers(ActiveClients(clients, drop), model), sum.value);
      return Ok(Divide(sum.value, |ActiveClients(clients, drop)|));
    }

    /** The noisy mean and the noise scale it was calibrated to; nothing is changed yet. */
    method Release(p: Primitives, m: Dp.Analysis, roundId: string, clients: seq<FederatedClient>, drop: seq<OrgId>,
                   noise: nat -> real, applyDp: bool, epsilon: real, delta: real)
      returns (r: Result<(seq<real>, real), Error>)
      requires Valid() && Lawful(p)
      ensures r.Err? ==> RoundError(clients, model, drop, applyDp, epsilon, delta) == Some(r.error)
      ensures r.Ok? ==>
                && RoundError(clients, model, drop, applyDp, epsilon, delta) == None
                && IsAggregate(r.value.0, p.sqrt, clients, model, drop, noise, applyDp)
                && IsScale(r.value.1, m, |ActiveClients(clients, drop)|, applyDp, epsilon, delta)
    {
      var mean := Mean(p, roundId, clients, drop);
      if mean.Err? {
        return Err(mean.error);
      }
      var aggregate := WithNoise(mean.value, applyDp, noise);
      if !applyDp {
        return Ok((aggregate, 0.0));
      }
      var calibrated := Dp.GaussianSigma(m, MeanSensitivity(|ActiveClients(clients, drop)|), epsilon, delta);
      if calibrated.Err? {
        return Err(calibrated.error);
      }
      return Ok((aggregate, calibrated.value));
    }

    /** What the released mean has already changed stays changed when the evaluation raises. */
    method RunRound(p: Primitives, m: Dp.Analysis, roundId: string, evalId: string, clients: seq<FederatedClient>,
                    drop: seq<OrgId>, noise: nat -> real, applyDp: bool, epsilon: real, delta: real)
      returns (r: Result<RoundResult, Error>)
      requires Valid() && Lawful(p)
      modifies this
      ensures Valid()
      ensures match RoundError(clients, old(model), drop, applyDp, epsilon, delta)
              case Some(e) => r == Err(e) && model == old(model) && history == old(history)
              case None =>
                && IsNext(model, p.sqrt, clients, old(model), drop, noise, applyDp)
                && (r.Ok? <==> AllFinite(ActiveClients(clients, drop), model))
                && (r.Err? ==> r == Err(InvalidDataError) && history == old(history))
                && (r.Ok? ==>
                      && IsRound(r.value, p.sqrt, m, clients, old(model), drop, noise, applyDp, epsilon, delta)
                      && model == r.value.model && history == old(history) + [r.value])
    {
      var released := Release(p, m, roundId, clients, drop, noise, applyDp, epsilon, delta);
      if released.Err? {
        return Err(released.error);
      }
      var (aggregate, sigma) := released.value;
      model := Add(model, aggregate);
      var active := ActiveClients(clients, drop);
      ActiveClientsDistinct(clients, drop);
      var evaluation := SecureEval(p, evalId, active, model);
      if evaluation.Err? {
        return Err(evaluation.error);
      }
      var result := NewResult(
          roundId, clients, drop, aggregate, model, evaluation.value, applyDp, epsilon, sigma, delta);
      history := history + [result];
      return Ok(result);
    }
  }

  lemma ActiveClientsDistinct(clients: seq<FederatedClient>, drop: seq<OrgId>)
    requires NoDuplicates(ClientIds(clients))
    ensures NoDuplicates(ClientIds(ActiveClients(clients, drop)))
  {
    var members := TrainingMembers(clients, []);
    assert Ids(members) == ClientIds(clients);
    ActiveTrainers(clients, [], drop);
    ActiveDistinct(members, drop);
    assert Ids(TrainingMembers(ActiveClients(clients, drop), [])) == ClientIds(ActiveClients(clients, drop));
  }
}
