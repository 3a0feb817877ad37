# SentryLink: a verified model

SentryLink lets organizations compute joint statistics and train joint models without showing each other their rows.
This project models the parts of it that carry unbounded properties and proves them with Dafny 4.11:

- secure aggregation with dropout recovery, and the federated rounds and masked evaluations built on it;
- additive secret sharing and the linear statistics opened from it;
- the privacy accountant and the contribution caps it relies on;
- consent policy decisions;
- the store that many platforms share under optimistic concurrency, the audit chain that serializes their commits, and
  the platform calls that charge, log and commit;
- the sliding-window rate limiter.

`dafny verify dfyconfig.toml` checks everything.

## How the model is laid out

| file | models |
|---|---|
| Foundations, Sums, Int64, Sorting, RealVectors, Moments | results and errors, sums over lists, two's-complement words, Python's `sorted`, L2 norms, moments |
| Prg, SecureAggregation, AggregationCorrectness, MaskedSum | mask generator, clients and server of a round, mask cancellation, a whole masked sum |
| FederatedServer, FederatedTheorems | `run_round`, `_secure_eval`; sensitivity of the mean |
| SecretSharing, SharingTheorems, MpcStats | sharing, linearity and hiding; histogram, variance, correlation |
| DifferentialPrivacy, AccountantTheorems, Contributions | costs, `charge`, `preview`; every run of charges; the L2 cap and histogram sensitivity |
| Policy, AuditLog, RateLimit | decisions, hash chain, limiter |
| Approvals, Storage, Codec, PlatformOps, StoreSerial | decisions in any registry order and the charge of each release, rows and loading, the bytes and text behind the rows, what each platform call does to memory and asks to write, one bundle on the state it was computed from |
| StoreProtocol, StoreTheorems, StoreGuarantees | the transition system of many platforms, its inductive invariant, what follows for users |
| BudgetLineage, BudgetHistory | which stored budget a committed charge was computed from, and when the stored budget is the sum of its events |
| ServerLineage, StoreEdges, GovernanceTerms | which server a committed round builds on, what a commit leaves loadable, under which consents releases are committed |
| ThreeMembers, StoreRuns, StoreWitnesses, TornLoads | three consenting members, and reachable runs in which store and users part ways |
| InMemoryTx, Platform | the in-memory backend; the platform object |

Code that updates objects in place is a class whose methods are proved against functions of the old state; pure code is
functions and lemmas. Cryptographic primitives, `sqrt`, `log` and `exp` are function-valued parameters with named laws:
`SecureAggregation.Lawful` (commuting key exchange, 32-byte MAC blocks), `RealVectors.IsSquareRoot`,
`DifferentialPrivacy.LawfulAnalysis` (`ln` positive above 1; concavity of `ln` for the Laplace cost), and `Audit.Ideal`
(the entry hash is injective and never the genesis value). Random draws, fresh identifiers, clocks and noise are inputs.

The store protocol is a function of the interleaving: a run is a list of moves, each naming a platform and one of
start, begin a call, read the budget row, read the server row, finish, abort, reload, or lose a call between its
mutation and its commit. A load reads each of the six tables at a time of its own, and a platform whose reload raises
goes on with the half it has loaded and its old servers. Theorems quantify over all such lists and any number of
platforms; the loads query the tables in the order of the code (`StoreProtocol.CodeOrder`), and any number of commits may
fall into a load. Each platform carries records on which no step depends: whether its last load saw one single state and
nothing was lost since, the keys whose server has unsaved work, the organizations whose consents it loaded in another
version than its log implies, the charges in its memory that were never stored, and whether it loaded another budget row
than its log implies. The results say in terms of these records exactly when a commit does what the code's comments
promise.

## Where the code is narrower than its comments

- `sentrylink/storage/store.py:153-154` says one guard makes in-memory bundles atomic. A bundle whose budget proof is
  fresh but whose audit tip is stale leaves its budget written, and a stale `join` or consent update leaves its rows.
  `InMemoryTransactions.AtomicIff` gives the exact condition, `InMemoryTransactions.StaleTipLeavesBudget` a witness. The
  SQLite path has no such case.
- `sentrylink/storage/store.py:14-17` says memory and store cannot silently diverge. A round moves model and history
  before its charge may be refused (`sentrylink/platform.py:299-305`). If that was the first round of its key, the next
  accepted round stores a counter of 2 beside one row, and no platform can load that store again:
  `StoreWitnesses.RefusedRoundBreaksReload`. `StoreEdges.CommitKeepsStoreLoadable` says exactly when a commit keeps the
  store loadable.
- `sentrylink/storage/store.py:70-72` says a bundle computed from stale state fails loudly. It does as far as the audit
  log and the freshness proofs go (`StoreGuarantees.CommitsSerialize`), but not for servers:
  - a reload that raises (`sentrylink/platform.py:146-149`) leaves the platform running with the stored budget and tip
    and its own servers; its next round is committed as soon as the round counters happen to be equal and replaces a
    model it was not computed from: `StoreWitnesses.FailedReloadOverwrites`;
  - an evaluation that raises (`sentrylink/federated/server.py:107-109`) leaves the model moved and the counter alone, so
    the next round is committed on top of an aggregate that was neither charged nor recorded:
    `StoreWitnesses.FailedEvaluationOverwrites`.

  `ServerLineage.RoundBuildsIff` says exactly which committed rounds build on the stored server.
- `sentrylink/storage/store.py:321-326` says the conditional insert serializes all bundles. It orders them, but `load`
  (`sentrylink/storage/store.py:376-444`) reads the audit table last, so a load into which others commit pairs older rows
  with the new tip:
  - a consent withdrawn between the queries for the policies and for the audit table lets a release pass the gate that
    the stored consents forbid: `TornLoads.TornLoadReleases`. A committing transaction was computed from the governance
    it overwrites if and only if no organization is recorded as stale (`GovernanceTerms.GovernanceIsCurrentIff`), and a
    release is allowed by the stored consents unless a member of its own cohort is
    (`GovernanceTerms.ReleasesUnderConsent`);
  - a charge committed between the queries for the budget and for the audit table, followed by a call that this platform
    charges and then loses, lets its next charge replace the row: budget proof and audit insert both pass, a charge is
    lost, and a limit and a refusal may be undone with it: `TornLoads.TornLoadLosesCharge`. A commit charges the row
    exactly once if and only if it does not replace a row with charges adrift (`BudgetHistory.CommitChargesOnce`), and
    the stored spend is the sum of the stored events if and only if no earlier commit did
    (`BudgetHistory.StoredBudgetConserved`). With budget and audit table read from one state none ever does
    (`BudgetHistory.TogetherNeverAstray`).
- `sentrylink/governance/policy.py:137-140` answers a request without positive epsilon or with a bad delta by a denial.
  For a negative epsilon or delta the decision's own budget cannot be built and the call raises instead:
  `Policy.DenialCodes`.
- An aborted charge is undone by the reload only if a budget row exists or the store is empty
  (`sentrylink/platform.py:115-116`); otherwise it stays counted: `StoreEdges.AbortedChargeOutcome`.
- Treating a missing RDP order as 0 (`sentrylink/crypto/differential_privacy.py:162-165`) lets a refused charge become
  admissible later. Refusals are final exactly when all charges use one order set:
  `AccountantTheorems.RefusalsFinalIffOneOrderSet`. The platform's charges do (`Approvals.LaplaceOverAlphas`,
  `Approvals.GaussianOverAlphas`), so its denials are permanent as long as no charge is lost in the way above:
  `BudgetHistory.RefusedForever`.
- `share_vector` does not reject repeated node ids, and loses a share if there are any:
  `SharingTheorems.SharingCorrectIffDistinctNodes`.
- `sentrylink/platform.py:483-484` and `578-579` check that every participant supplied its values; the comprehension in
  the line before has raised KeyError by then: `Platforms.VarianceInputsMean`, `Platforms.CorrelationInputsMean`.

## Model

| member | source | states |
|---|---|---|
| Prg.ExpandSeed | sentrylink/crypto/prg.py:13-22 | byte k of the output is byte k mod 32 of the MAC block with counter k/32; a negative length raises |
| Prg.IntMasks | sentrylink/crypto/prg.py:25-33 | coordinate c lies in [-MASK_BOUND, MASK_BOUND] and is congruent modulo SPAN, after adding MASK_BOUND, to the big-endian value of the eight bytes of MAC block c/4 from offset 8(c mod 4) on; nothing for a non-positive length |
| Prg.MaskInRange | sentrylink/crypto/prg.py:25-33 | every mask lies in [-MASK_BOUND, MASK_BOUND] |
| Prg.EveryMaskOccurs | sentrylink/crypto/prg.py:25-33 | every value in that range is the mask of some stream, at every coordinate |
| SecureAggregation.Rint | sentrylink/crypto/secure_aggregation.py:45-46 | quantization moves a value by at most half a step, fixes integers, and rounds halves to even |
| SecureAggregation.ClippedNorm | sentrylink/crypto/secure_aggregation.py:53-58 | a clipped vector lies in the ball; a vector already in it is unchanged |
| SecureAggregation.ClipScales | sentrylink/crypto/secure_aggregation.py:53-58 | outside the ball each clipped coordinate times the norm is the bound times the coordinate |
| SecureAggregation.ClipIsProjection | sentrylink/crypto/secure_aggregation.py:53-58 | clipping is the Euclidean projection: no vector of the ball is closer to the update |
| SecureAggregation.PreparedValue | sentrylink/crypto/secure_aggregation.py:109-115 | every integer a client masks is within half a step of its coordinate, or, outside the ball, of the coordinate scaled to the bound |
| SecureAggregation.DequantizeScales | sentrylink/crypto/secure_aggregation.py:49-50 | an opened integer divided by the scale, times the scale, is the integer |
| Foundations.StrLessAtFirstDifference | sentrylink/crypto/secure_aggregation.py:125 | the order on ids is lexicographic: decided where two ids first differ, or where one of them ends |
| SecureAggregation.PairKeyNamesPair | sentrylink/crypto/secure_aggregation.py:65 | the key of a pair lists its members in order; two pairs share one only if they have the same members |
| SecureAggregation.PairwiseSeedSymmetric | sentrylink/crypto/secure_aggregation.py:61-71 | both members of a pair derive the same seed |
| SecureAggregation.SeedsDiffer | sentrylink/crypto/secure_aggregation.py:61-71 | with a collision-free derivation seeds agree if and only if shared secret, round and unordered pair agree |
| SecureAggregation.ClientTermValue | sentrylink/crypto/secure_aggregation.py:117-128 | each term of a mask down to the MAC bytes it is made of: added by the member with the smaller id, subtracted by the other, zero for oneself |
| SecureAggregation.MaskAndSend | sentrylink/crypto/secure_aggregation.py:94-129 | error cases by key set and dimension; otherwise each sent coordinate is the quantized update plus all signed mask terms, wrapped once |
| SecureAggregation.RevealsSharedSeed | sentrylink/crypto/secure_aggregation.py:131-139 | a revealed seed is the very seed the dropped peer used; only another roster member has one |
| SecureAggregation.SecAggServer.Register | sentrylink/crypto/secure_aggregation.py:157-162 | outsiders and malformed keys raise and change nothing; otherwise exactly one key is set |
| SecureAggregation.SecAggServer.Receive | sentrylink/crypto/secure_aggregation.py:167-175 | outsiders and wrong dimensions raise and change nothing; otherwise exactly one contribution is set |
| SecureAggregation.SecAggServer.AddRecoverySeed | sentrylink/crypto/secure_aggregation.py:177-181 | the seed is stored under the unordered pair, only for roster members |
| SecureAggregation.SecAggServer.Residual | sentrylink/crypto/secure_aggregation.py:190-204 | fails exactly when some survivor and dropped pair has no seed; otherwise the signed double sum of the revealed streams, in any survivor order |
| SecureAggregation.SecAggServer.Finalize | sentrylink/crypto/secure_aggregation.py:183-210 | raises exactly when nothing was received or a seed is missing; otherwise opens, for every iteration order, total minus residual |
| SecureAggregation.OpenedOrderIrrelevant | sentrylink/crypto/secure_aggregation.py:187-209 | the opened value does not depend on set or dict iteration order |
| AggregationCorrectness.MasksCancel | sentrylink/crypto/secure_aggregation.py:117-129 | over a roster split into survivors and dropped, an antisymmetric mask matrix cancels up to the survivor-dropped residual |
| AggregationCorrectness.TermsAntisymmetric | sentrylink/crypto/secure_aggregation.py:121-128 | the terms clients add are antisymmetric |
| AggregationCorrectness.AggregateIsExact | sentrylink/crypto/secure_aggregation.py:183-210 | for any duplicate-free roster, any received subset and any order, the opened coordinate is the survivors' sum of quantized updates, modulo the word |
| AggregationCorrectness.ClientAccumulatorFits | sentrylink/crypto/secure_aggregation.py:117-129 | with at most 2048 members and updates up to 2^50 no partial mask sum of a client leaves int64 |
| AggregationCorrectness.ServerAccumulatorsFit | sentrylink/crypto/secure_aggregation.py:190-209 | nor does any partial residual or total of the server |
| AggregationCorrectness.AggregateInRange | sentrylink/config.py:10-12 | under those bounds nothing wraps anywhere and the opened value is the exact integer sum |
| MaskedSum.Run | sentrylink/federated/server.py:57-84 | a whole masked sum fails exactly for no active member or a wrong dimension, and otherwise opens the active members' sum at every coordinate |
| MaskedSum.RecoverAll | sentrylink/federated/server.py:77-82 | after the recovery loop every survivor-dropped pair has its true seed |
| MaskedSum.SumAll | sentrylink/federated/server.py:147-155 | a sub-round in which everybody sends never fails, and for distinct ids opens the sum of all members at every coordinate |
| Federated.FederatedServer.Mean | sentrylink/federated/server.py:57-88 | the mean before noise, or the first error in the code's order |
| FederatedTheorems.MeanIsAverage | sentrylink/federated/server.py:84-88 | the mean times the number of active clients is the sum of their clipped updates, up to half a quantum per client |
| Federated.RoundErrorMeans | sentrylink/federated/server.py:45-96 | each exception of a round before its model moves, and what holds when there is none, in terms of ids, dimensions, updates and budget of the clients |
| Federated.FederatedServer.Release | sentrylink/federated/server.py:86-105 | the noisy mean and its calibrated scale, or the first error, before anything is changed |
| Federated.FederatedServer.RunRound | sentrylink/federated/server.py:45-123 | an error before the release leaves model and history unchanged; otherwise the model moves by the noisy mean of the active clients, and the history follows only if the evaluation goes through, with a result that names the clients and records the calibrated noise |
| Federated.SecureEval | sentrylink/federated/server.py:126-172 | for any client list: raises exactly for a tally that is not finite; for distinct ids both counts are exact and the summed loss is off by at most half a quantum per client; clients that share an id overwrite each other |
| Federated.TallySums | sentrylink/federated/server.py:133-136 | integer tallies survive quantization exactly, the loss up to half a quantum per client |
| Federated.EvaluationExact | sentrylink/federated/server.py:156-166 | what a reader recovers from the reported statistics equals the true cohort sums, up to that loss error |
| FederatedTheorems.ReplaceOneSensitivity | sentrylink/federated/server.py:86-99 | replacing one survivor's update moves the mean in L2 by at most the sensitivity 2C/k the noise is calibrated to plus sqrt(d)/QUANT_SCALE/k |
| FederatedTheorems.PlainSumFits | sentrylink/crypto/secure_aggregation.py:111-113 | clipped contributions cannot overflow for fewer than 2^63/10^6 members |
| FederatedTheorems.RosterPartition | sentrylink/federated/server.py:107-108 | participants and dropped are sorted and together are the roster, each member once |
| SecretSharing.ShareVector | sentrylink/crypto/secret_sharing.py:57-72 | raises exactly for fewer than two nodes or a value outside the field; otherwise random shares for all but the last node, which takes the difference |
| SharingTheorems.ReconstructInverts | sentrylink/crypto/secret_sharing.py:79-85 | reconstruction inverts sharing for any arrangement of distinct nodes |
| SecretSharing.ReconstructFails | sentrylink/crypto/secret_sharing.py:79-85 | reconstruction raises exactly for no shares or two of different length |
| SharingTheorems.SharingCorrectIffDistinctNodes | sentrylink/crypto/secret_sharing.py:57-72 | every vector survives sharing on every tape if and only if node ids are distinct |
| SharingTheorems.AddCommutes | sentrylink/crypto/secret_sharing.py:25-31 | node-wise sums open to the sum modulo p |
| SharingTheorems.SubtractCommutes | sentrylink/crypto/secret_sharing.py:33-39 | node-wise differences open to the difference modulo p |
| SharingTheorems.ScaleCommutes | sentrylink/crypto/secret_sharing.py:41-42 | node-wise multiples open to the multiple modulo p |
| SharingTheorems.SharingHides | sentrylink/crypto/secret_sharing.py:57-72 | for any two secrets and any n-1 nodes a bijection on random tapes leaves their joint view unchanged |
| MpcStats.SignedModExact | sentrylink/mpc/stats.py:30-32 | the signed lift recovers a value exactly when its magnitude is at most (p-1)/2 |
| MpcStats.ElementwiseAddOpens | sentrylink/mpc/stats.py:55-56 | adding share dicts opens to the sum of what they open |
| MpcStats.Pool | sentrylink/mpc/stats.py:68-71 | the accumulation loop fails exactly for unshareable vectors, and its shares open to the coordinate totals |
| MpcStats.RunHistogram | sentrylink/mpc/stats.py:59-74 | error cases; each opened bucket equals the organizations' sum if and only if that sum fits the signed range |
| MpcStats.RunVariance | sentrylink/mpc/stats.py:84-111 | the population variance of the pooled fixed-point rows; 0 below two rows; the final max changes nothing |
| MpcStats.RunCorrelation | sentrylink/mpc/stats.py:114-152 | the result times the root of both variances is the covariance of the pooled rows, 0 below two rows or for a constant column, always within [-1, 1]; error cases; the final clip changes nothing |
| MpcStats.OpenedStats | sentrylink/mpc/stats.py:125-140 | the six opened values are the six pooled plaintext statistics |
| MpcStats.PearsonBounded | sentrylink/mpc/stats.py:147-152 | Cauchy-Schwarz keeps the coefficient within [-1, 1] before clipping |
| MpcStats.CoefficientSign | sentrylink/mpc/stats.py:147-152 | the coefficient has the sign of the covariance, and its square times both variances is the squared covariance |
| MpcStats.PearsonOfAffine | sentrylink/mpc/stats.py:147-152 | a column correlates with any affine image of itself by 1 or -1, by the sign of the slope |
| Moments.StatisticsGiveCovariance | sentrylink/mpc/stats.py:108-111 | the one-pass formula from sums is the average product of deviations |
| Moments.AffineMoments | sentrylink/mpc/stats.py:144-146 | scaling a column scales covariance once and variance twice, shifting it changes neither |
| Moments.CovarianceBound | sentrylink/mpc/stats.py:147-152 | the squared covariance is at most the product of the variances |
| DifferentialPrivacy.RdpToEpsilon | sentrylink/crypto/differential_privacy.py:99-105 | the result exceeds no cost by more than ln(1/delta)/(a-1) and meets that at one order, stated as products; errors for a bad delta or no orders |
| DifferentialPrivacy.ConversionFits | sentrylink/crypto/differential_privacy.py:99-105 | a bound covers the conversion if and only if at some order the rest of the bound times a-1 covers ln(1/delta) |
| DifferentialPrivacy.SmallerDeltaCostsMore | sentrylink/crypto/differential_privacy.py:99-105 | with a monotone logarithm a smaller delta never converts to a smaller epsilon |
| DifferentialPrivacy.SigmaIsCalibrated | sentrylink/crypto/differential_privacy.py:24-32 | errors; otherwise a positive scale whose square times epsilon squared is 2 ln(1.25/delta) times the squared sensitivity |
| DifferentialPrivacy.GaussianCostAtOrder | sentrylink/crypto/differential_privacy.py:66-75 | for any noise the cost at order a times twice the variance is a times the squared sensitivity, at exactly the fixed orders |
| DifferentialPrivacy.GaussianCostIgnoresCohort | sentrylink/crypto/differential_privacy.py:24-32 | at its own calibrated noise the Gaussian RDP cost is the same for every sensitivity |
| DifferentialPrivacy.GaussianCostClosedForm | sentrylink/crypto/differential_privacy.py:66-75 | at calibrated noise the cost at order a times 4 ln(1.25/delta) is a times epsilon squared |
| DifferentialPrivacy.LaplaceCostInRange | sentrylink/crypto/differential_privacy.py:78-96 | every Laplace cost lies between 0 and epsilon |
| DifferentialPrivacy.LaplaceClosedForm | sentrylink/crypto/differential_privacy.py:78-96 | the closed form as an equation in ln and exp, cut off at epsilon |
| DifferentialPrivacy.AdmissionRule | sentrylink/crypto/differential_privacy.py:184-215 | which charges are admitted and which are rejected, on the numbers themselves: delta, then epsilon or, while RDP is enforced, the summed costs at some order |
| DifferentialPrivacy.ChargedTotals | sentrylink/crypto/differential_privacy.py:213-232 | what an admitted charge leaves: both spent sums, the flag, the appended event, and at every order the sum of old and new cost, a missing one counting 0 |
| DifferentialPrivacy.PrivacyAccountant.Preview | sentrylink/crypto/differential_privacy.py:148-171 | the verdict of the admission rule, without any change |
| DifferentialPrivacy.PrivacyAccountant.Charge | sentrylink/crypto/differential_privacy.py:173-232 | admits, refuses or rejects exactly as the preview announces; a refusal changes nothing, an admission appends one event and updates all totals |
| DifferentialPrivacy.PrivacyAccountant.RdpEpsilon | sentrylink/crypto/differential_privacy.py:234-240 | 0 without RDP totals; otherwise the conversion of the totals, with the errors of a bad delta |
| DifferentialPrivacy.RemainingIsAffordable | sentrylink/crypto/differential_privacy.py:243-247 | a request within the remaining budget is admitted, tracked by RDP or not |
| AccountantTheorems.RunIsAccounted | sentrylink/crypto/differential_privacy.py:184-232 | after every run of charges totals, flag and events are those of the admitted requests and one of the two regimes fits the limit, with a single tolerance |
| AccountantTheorems.EventsChain | sentrylink/crypto/differential_privacy.py:216-232 | each event starts where its predecessor ended, the first at zero, the last at spent |
| AccountantTheorems.DenialIsPermanent | sentrylink/crypto/differential_privacy.py:184-215 | over one order set a refused charge stays refused after any further charges, fallback included |
| AccountantTheorems.RefusalsFinalIffOneOrderSet | sentrylink/crypto/differential_privacy.py:192-195 | refusals are final if and only if all order sets in use are equal |
| AccountantTheorems.MixedOrdersUndoRefusal | sentrylink/crypto/differential_privacy.py:192-195 | with a second order set a free charge turns a refusal into an admission |
| Contributions.CapStaysInBall | sentrylink/governance/policy.py:208-225 | the capped integer vector never leaves the ball, whatever radius and input |
| Contributions.CapTruncates | sentrylink/governance/policy.py:208-225 | outside the ball each coordinate is radius times value over the norm, truncated toward zero: same sign, and off by less than one |
| Contributions.CapKeepsInBall | sentrylink/governance/policy.py:208-225 | an integer vector inside the ball is unchanged |
| Contributions.JointHistogram | sentrylink/mpc/stats.py:59-74 | error cases; capped, shared and opened, every bucket is the exact sum as far as it stays in the signed range |
| Contributions.HistogramSensitivity | sentrylink/platform.py:371-386 | adding or removing one organization moves what is opened, on any tapes, by exactly its capped vector, hence by at most the radius in L2 |
| Policy.PolicyEngine.SetPolicy | sentrylink/governance/policy.py:99-101 | unknown organizations raise and change nothing; otherwise exactly one policy is set |
| Policy.PolicyEngine.CohortOf | sentrylink/governance/registry.py:103-111 | the loop selects exactly the active organizations of the group, and of the domain if given |
| Policy.PolicyEngine.Evaluate | sentrylink/governance/policy.py:103-206 | the loops and early exits reach the decision of the specification, and raise ValueError exactly for a negative epsilon or delta |
| Policy.AllowedMeansConsented | sentrylink/governance/policy.py:153-206 | allowed if and only if the request is well formed and the consenting cohort reaches the minimum and every member's floor; then the participants are exactly that cohort, sorted |
| Policy.EpsilonCodeMeansEveryCap | sentrylink/governance/policy.py:163-172 | the epsilon codes are returned if and only if every cohort member allows the metric and caps epsilon below the request |
| Policy.DenialCodes | sentrylink/governance/policy.py:123-196 | the ValueError of a negative budget, and each denial code or pair of codes, by a condition on registry, consent and request alone; healthcare variants exactly for healthcare; a denial names nobody |
| Policy.SnapshotMeans | sentrylink/governance/policy.py:109-121 | the snapshot of every decision: how many active organizations the request reaches; once takers are counted the least floor that meets the minimum and each taker's own, and the takers' least cap; the minimum and no cap before |
| Policy.DefaultTerms | sentrylink/verticals.py:70-95 | the four metrics; healthcare starts without variance, at four participants and cap 10, everyone else with all metrics, at three and 25 |
| Policy.PolicyInForce | sentrylink/governance/policy.py:155 | an organization without a policy has the terms of any domain but healthcare |
| Policy.DecisionIgnoresOrder | sentrylink/storage/store.py:389 | reloading the registry in another order changes no part of any decision |
| Policy.FloorIsLeast | sentrylink/governance/policy.py:181-184 | the required floor is the least number that meets the minimum and every participant's floor |
| Audit.AuditLog.Record | sentrylink/governance/audit.py:22-33 | appends exactly one entry linked to the previous head and keeps a verifying chain verifying |
| Audit.AuditLog.VerifyChain | sentrylink/governance/audit.py:35-43 | true if and only if every entry continues its predecessor and carries its own hash |
| Audit.AuditLog.Restore | sentrylink/governance/audit.py:48-51 | the log is the stored one and the next entry will continue its head |
| Audit.RunVerifies | sentrylink/governance/audit.py:22-51 | a restored log extended by any records verifies if and only if the stored one did |
| Audit.SameHeadSameLog | sentrylink/governance/audit.py:12-14 | two verifying logs with the same head are identical |
| Audit.OnlyPrefixesVerify | sentrylink/governance/audit.py:35-43 | of all logs made of entries of a verifying log exactly its prefixes verify |
| Audit.SuffixIsNoPrefix | sentrylink/governance/audit.py:35-43 | no proper suffix verifies |
| Audit.ReorderingDetected | sentrylink/governance/audit.py:35-43 | a rearrangement verifies only if it is the log itself |
| RateLimit.InMemoryTokenBucket.Allow | sentrylink/ratelimit.py:42-51 | under a clock that never runs backwards the pruned lists decide exactly as a log of all admissions would; other keys keep their lists |
| RateLimit.NewBucket | sentrylink/ratelimit.py:32-35 | bad limits and windows raise |
| RateLimit.RegionBound | sentrylink/ratelimit.py:45-51 | no key is admitted more than limit times in any region shorter than the window |
| RateLimit.WindowBound | sentrylink/ratelimit.py:45-51 | in particular in every half-open window of the configured length |
| RateLimit.AdmittedIffRoom | sentrylink/ratelimit.py:45-51 | a call is admitted if and only if fewer than limit earlier calls of its key were admitted later than one window ago |
| RateLimit.DeniedConsumesNothing | sentrylink/ratelimit.py:46-48 | removing a denied call from a run changes no admission of any key |
| RateLimit.OtherKeysIrrelevant | sentrylink/ratelimit.py:45-50 | what a key is granted depends only on its own calls |
| Storage.MergeOfExtension | sentrylink/storage/store.py:39-44 | events that extend the stored list are merged without loss or repetition |
| Storage.MergeCounts | sentrylink/storage/store.py:39-44 | of any two event lists: the stored one is a prefix of the union, and every other event is added as often as it comes unless its id is stored |
| Storage.OrgRoundTrip | sentrylink/storage/codec.py:41-75 | an organization is read back unchanged but for its plaintext key |
| Codec.VectorRoundTrip | sentrylink/storage/codec.py:30-38 | a stored vector is read back at its own length and raises at every other |
| Codec.BudgetRoundTrip | sentrylink/storage/codec.py:96-116 | an accountant is read back unchanged, its orders through their text form |
| Codec.BytesStandForVectors | sentrylink/storage/codec.py:146-170 | reading the bytes of any server row with any round rows gives what the model of the store decodes, exceptions included |
| Codec.LiveRoundTrip | sentrylink/storage/codec.py:119-170 | a live server with its whole history survives encoding |
| PlatformOps.ExecuteKeepsMem | sentrylink/platform.py:259-344 | every call keeps the accountant within its limit over one order set, with distinct known ids and positive costs, and every server's vectors sized |
| PlatformOps.SpoilKeepsMem | sentrylink/platform.py:299-305 | so does a call that raises after mutating memory: a mislabelled histogram, a refused round, a failed evaluation |
| PlatformOps.JoinEffect | sentrylink/platform.py:219-235 | joining raises exactly for a known id; otherwise default terms, one row each without the plaintext key, one chained entry, and nothing else |
| PlatformOps.ConsentEffect | sentrylink/platform.py:237-256 | a consent update raises exactly for an unknown id; otherwise the organization consents to exactly the given metrics within its cap, on its old terms, and no other organization is affected |
| PlatformOps.RoundEffect | sentrylink/platform.py:291-343 | a round that goes through adds its aggregate to the model of its cohort, zero at first, appends its result to that history, and writes exactly that server; every other server stays |
| PlatformOps.SpoilEffect | sentrylink/platform.py:299-305 | what a call that raises leaves behind: a query its charge at most; an approved round a server whose model has moved if it trained in vain, its history only if it was evaluated |
| StoreSerial.LoadExact | sentrylink/platform.py:99-124 | loading a decodable store gives memory equal to it |
| StoreSerial.HalfLoadTracks | sentrylink/platform.py:117-124 | a load that raises while rebuilding servers has still replaced governance, budget and audit log by the stored ones |
| BudgetLineage.MatchedWrite | sentrylink/storage/store.py:265-274 | the write of an accountant that has everything of the row, but perhaps not all its events, leaves the row charged exactly once |
| BudgetLineage.AdriftWrite | sentrylink/storage/store.py:265-274 | the write of an accountant with a charge the row lacks adds more events than the one charged, and they cost more than was spent |
| StoreSerial.WriteKeepsStore | sentrylink/storage/store.py:242-343 | a bundle applied to the state its proofs hold in keeps the store well formed and its audit chain verifying |
| StoreSerial.WriteKnows | sentrylink/platform.py:136-145 | afterwards the committing platform's log is the store's, its organizations are stored as it has them, and the consents it wrote are stale no longer |
| StoreSerial.NothingStaleIff | sentrylink/platform.py:99-111 | what a platform has of organizations and policies is the stored governance if and only if no stored organization is missing or has other consents in memory |
| StoreSerial.WriteExact | sentrylink/platform.py:335-343 | a platform whose memory equalled the store still equals it after its commit |
| StoreSerial.StaysDecodableIff | sentrylink/storage/codec.py:146-154 | a commit keeps a loadable store loadable if and only if it is no round, or its server has the stored dimension, or its server is neither stored nor has a history |
| StoreTheorems.TipDeterminesState | sentrylink/storage/store.py:321-326 | a transaction whose expected tip is current started from the log of the current state |
| StoreTheorems.CommitIsFresh | sentrylink/storage/store.py:321-343 | at its commit all proofs of a bundle hold in the current state, whenever the rows were read |
| StoreTheorems.LoadKnows | sentrylink/storage/store.py:376-444 | whatever is committed during a load, every organization it has seen it has with a policy on its own terms, and the state whose log it read has the organization unchanged |
| StoreTheorems.StepKeepsInv | sentrylink/platform.py:136-155 | every action of every platform keeps the system invariant: lost calls, conflicts, loads that raise midway and loads into which others commit included |
| StoreTheorems.RunKeepsInv | sentrylink/platform.py:136-155 | the invariant holds after every interleaving of any number of platforms |
| StoreGuarantees.CommitsSerialize | sentrylink/storage/store.py:321-343 | whatever was read when, and whatever was lost or half loaded before, a transaction that commits carries the log of the state it overwrites, all its proofs hold there, and the result is its bundle applied to that state alone |
| StoreGuarantees.HistoryIsSerial | sentrylink/storage/store.py:355-363 | the committed states form a serial run from the empty store, each with a verifying log of its own length |
| StoreGuarantees.CleanConflictMeansOvertaken | sentrylink/platform.py:146-149 | a platform whose last load saw one single state and that has lost no call since sees a conflict only if another bundle was committed since |
| StoreGuarantees.StoredBudgetKept | sentrylink/storage/store.py:265-274 | in every committed state of every run the stored event ids are unique, every event costs something, and the admission invariant holds against the stored limit |
| StoreGuarantees.ProofsIdentifyRows | sentrylink/storage/store.py:242-301 | the freshness proofs are version numbers in every run: stored events stay in place, spend never goes back, equal spent means the same budget row, an equal counter the same server and rounds |
| StoreGuarantees.RestartReplays | sentrylink/platform.py:94-124 | in any run, where an idle platform carries the latest log and has lost no call since a load that saw one single state, a new platform loads and holds the same live state, up to plaintext keys, unused servers and a never stored budget |
| StoreGuarantees.WholeCommitReplays | sentrylink/platform.py:335-343 | so it does right after the commit of such a platform, and every stored counter equals the number of its rows |
| BudgetHistory.RunKeepsBooks | sentrylink/storage/store.py:242-274 | in every run each platform's charges are stored ones or its own, never another platform's, and each accountant without charges adrift is that of some committed row or unused |
| BudgetHistory.CommitChargesOnce | sentrylink/platform.py:387-434 | a committed call charges the row it overwrites exactly once with its own admissible request if and only if it does not replace a row with charges adrift; the other commits lose a charge, and come from a platform that loaded another budget row than its log implies |
| BudgetHistory.StoredBudgetConserved | sentrylink/storage/store.py:268-274 | the stored spend is the sum of the stored event costs if and only if no state so far was written with charges adrift, and never more than that sum |
| BudgetHistory.SerialBudget | sentrylink/storage/store.py:242-274 | from one committed state to the next the budget is untouched, charged once by an admissible request, or created as the sum of its events, if and only if the next state was not written with charges adrift |
| BudgetHistory.TogetherNeverAstray | sentrylink/storage/store.py:376-444 | if every load reads budget and audit table from one committed state, no charge is ever lost, whatever calls and commits fail |
| BudgetHistory.EventsStayForever | sentrylink/storage/store.py:274 | a stored event stays in place in every later state and spend never goes back; limit, delta and RDP totals neither, unless a state in between was written with charges adrift |
| BudgetHistory.RefusedForever | sentrylink/crypto/differential_privacy.py:184-215 | over every run a release refused against one committed budget is refused against every later one that no commit with charges adrift separates from it |
| ServerLineage.RunLineage | sentrylink/platform.py:117-124 | in every run, whatever the order of reads in loads, a live server without unsaved work is unused or a version that was committed |
| ServerLineage.RoundBuildsIff | sentrylink/platform.py:294-343 | a committed round moves the stored model by its own aggregate if and only if its key holds no unsaved work or the unsaved server happens to agree with the stored one |
| ServerLineage.UnspoiledRoundBuilds | sentrylink/platform.py:294-343 | so does every round of a platform that has lost no call since its last complete load, whatever was committed during that load |
| ServerLineage.RoundAfterFailedReload | sentrylink/platform.py:146-149 | after a reload that raised the store accepts the next round if and only if the counters are equal or the server is not stored, and the round then builds on the stored server if and only if the two agree |
| StoreEdges.CommitKeepsStoreLoadable | sentrylink/platform.py:299-305 | over all reachable systems, exactly when a commit leaves a loadable store loadable |
| StoreWitnesses.RefusedRoundBreaksReload | sentrylink/platform.py:299-305 | a reachable store that cannot be loaded: three organizations join, one round is refused its charge, the next is accepted |
| StoreWitnesses.FailedReloadOverwrites | sentrylink/platform.py:146-149 | a reachable run in which a platform whose reload raised is about to replace the stored model by one computed from a server never stored |
| StoreWitnesses.FailedEvaluationOverwrites | sentrylink/federated/server.py:107-122 | a reachable run of one platform in which a failed evaluation makes the next round do the same |
| TornLoads.TornLoadReleases | sentrylink/storage/store.py:376-444 | a reachable run in which a consent is withdrawn during a load and a release that the stored consents forbid can commit |
| TornLoads.TornLoadLosesCharge | sentrylink/storage/store.py:376-444 | a reachable run in which a charge is committed during a load and later lost: the row has spent 2 for events that cost 3, and a release the previous row refused is admitted |
| StoreEdges.AbortedChargeOutcome | sentrylink/platform.py:115-116 | the accountant after a failed commit and its reload, complete or not: the loaded one, a new one, or still the charged one |
| GovernanceTerms.TermsNeverChange | sentrylink/platform.py:242-248 | over every run every organization keeps the floor and the epsilon cap of its domain, whatever consent was updated |
| GovernanceTerms.GovernanceIsCurrentIff | sentrylink/storage/store.py:321-326 | a committing transaction was computed from the registry and the consents it overwrites if and only if no organization is recorded as stale |
| GovernanceTerms.ReleasesUnderConsent | sentrylink/platform.py:281-282 | a query or round commits only if the registry and the consents of exactly the state it overwrites allow its request, or a member of the request's own cohort there is recorded as stale |
| GovernanceTerms.SpendingIsApproved | sentrylink/platform.py:387-434 | over every run each change of the stored budget is one release, spends its request's epsilon, ends with its event, and was approved by the governance of a platform that knew the state: in the state itself unless a member of the cohort was stale there |
| GovernanceTerms.HealthcareStaysStrict | sentrylink/verticals.py:73-84 | in every committed state, whatever consent was updated before, an approved healthcare request has epsilon at most 10 and at least four participants |
| GovernanceTerms.HealthcareReleasesStrict | sentrylink/verticals.py:73-84 | so has every healthcare release any platform ever starts to commit, on the consents it decided on, however stale they are |
| InMemoryTransactions.InMemoryTx.Exit | sentrylink/storage/store.py:149-190 | an exception discards the queue; otherwise operations apply in order up to the first failed check, and what was written stays |
| InMemoryTransactions.Transact | sentrylink/storage/store.py:115-144 | a bundle queued operation by operation is applied on leaving the transaction, with the outcome of its queue |
| InMemoryTransactions.QueueApplied | sentrylink/storage/store.py:157-190 | accepted exactly when all proofs hold, and then with the effect of the SQLite bundle; the exact remains of a rejected bundle |
| InMemoryTransactions.AtomicIff | sentrylink/storage/store.py:153-190 | exactly when a bundle is applied wholly or not at all |
| InMemoryTransactions.StaleTipLeavesBudget | sentrylink/storage/store.py:165-187 | a run of two platforms on one in-memory store that ends in a rejected bundle whose budget stays written |
| Platforms.SqlStore.Transact | sentrylink/storage/store.py:346-363 | commits exactly the bundles whose proofs hold, and changes nothing otherwise |
| Platforms.Platform.Restore | sentrylink/platform.py:99-124 | empty store, loadable store and failing load, with the memory each leaves |
| Platforms.Start | sentrylink/platform.py:87-96 | a new platform holds the constructor's objects on an empty store and the stored state otherwise |
| Platforms.Platform.Commit | sentrylink/platform.py:136-155 | success keeps memory; a conflict leaves the store alone and rebuilds memory from it, or, if that raises, leaves the loaded half with the old servers |
| Platforms.Platform.Join | sentrylink/platform.py:219-235 | memory, store and outcome are those of the call in the transition system |
| Platforms.Platform.SetConsent | sentrylink/platform.py:237-256 | likewise, other policy terms preserved |
| Platforms.Platform.Evaluate | sentrylink/platform.py:281-282 | the answer is the same for every iteration order of the registry; ValueError exactly for a negative epsilon or delta |
| Approvals.OrderIrrelevant | sentrylink/governance/registry.py:103-111 | any two iteration orders of one registry give the same decision |
| Approvals.OutsidersIrrelevant | sentrylink/governance/policy.py:154-184 | whether a request is approved depends on the active organizations of its group and domain and on their policies alone |
| Approvals.DecisionMeansApproved | sentrylink/platform.py:281-282 | the engine allows a request if and only if governance approves it |
| Platforms.Platform.Histogram | sentrylink/platform.py:347-434 | which failures leave memory alone, which one leaves it charged, and otherwise one charge, one commit and the noisy exact totals |
| Platforms.OpenedSensitivity | sentrylink/platform.py:371-386 | whether one organization takes part moves the totals a histogram query opens by at most the cap in L2 |
| Platforms.HistogramInputsMean | sentrylink/platform.py:368-382 | when a histogram stops before its charge and with what, and that it shares every participant's own capped buckets in order |
| Platforms.VarianceInputsMean | sentrylink/platform.py:480-489 | likewise for a variance and the participants' values |
| Platforms.CorrelationInputsMean | sentrylink/platform.py:575-584 | likewise for a correlation and the participants' columns |
| Platforms.RosterMeans | sentrylink/platform.py:281-289 | likewise for a round and the participants' clients |
| Platforms.Platform.Variance | sentrylink/platform.py:461-529 | likewise for the pooled population variance, floored at 0 |
| Platforms.Platform.Correlation | sentrylink/platform.py:556-624 | likewise for the pooled Pearson coefficient, clipped to [-1, 1] |
| Platforms.Platform.RunFederatedRound | sentrylink/platform.py:259-344 | which failures change what, a failed evaluation included; otherwise training on the cohort's server, created with the first client's dimension, charge at the survivors' number and commit are those of the transition system |
| Platforms.Platform.Preview | sentrylink/platform.py:651-723 | the verdict of policy and accountant on the previewed charge, or the ValueError of a negative budget, changing nothing |
| Approvals.GaussianChargeIgnoresDropouts | sentrylink/platform.py:206-216 | a round's charge does not depend on how many members dropped out |
| Approvals.LaplaceOverAlphas | sentrylink/crypto/differential_privacy.py:78-96 | a Laplace charge costs between 0 and epsilon at exactly the fixed orders |
| Approvals.GaussianOverAlphas | sentrylink/crypto/differential_privacy.py:66-75 | a round's charge has a non-negative cost at exactly the fixed orders |
| Approvals.PreviewPredictsCharge | sentrylink/platform.py:676-723 | the previewed charge and the real one get the same verdict on the same accountant |
| Approvals.ReleaseChargeMeans | sentrylink/platform.py:304-309 | what a release is charged: the request's epsilon, its delta for rounds only, and the closed-form cost at every order |
| Approvals.SameServerIff | sentrylink/platform.py:291 | two requests share a server if and only if group and domain agree, for groups without a colon |
| Approvals.ColonGroupsShare | sentrylink/platform.py:291 | with a colon in a group different cohorts can share one |
| Platforms.PreviewMatchesExecution | sentrylink/platform.py:676-723 | a preview says yes if and only if the executed call gets past its charge |

## Left out

- Floating point: numbers are reals; overflow, NaN, rounding of sums and the int64 cast of out-of-range floats are not modelled. Comparisons with 1e-12 are exact.
- Randomness: keys, tapes, noise, identifiers and the audit payload are inputs. The identifiers a call draws for its budget event or the organization it registers are taken to be new. Only sensitivity and accounting are claimed, not differential privacy of the mechanisms.
- X25519, HKDF, HMAC, SHA-256 and key hashing are abstract functions; credentials are not modelled.
- SQLite: an unlocked row read, a conditional insert with its commit, a rollback and the query of one table are atomic steps. Locking and WAL are not modelled; an insert that finds its row present fails at the commit instead of at the flush. The platform class meets a store whose transactions and loads run one at a time.
- BudgetHistory.RefusedForever: whether a refusal survives a commit that loses a charge depends on the limit and the RDP totals that come with it; only the direction without such commits is stated.
- SecureAggregation.SeedsDiffer: the derivation takes the two ids as separate inputs; the code joins them with a slash, which keeps pairs apart as long as ids have none.
- Approvals.SameServerIff: only the direction from equal group and domain to one server holds for groups with a colon; Approvals.ColonGroupsShare is a witness.
- The registry and the server table are maps in the transition system; Policy.DecisionIgnoresOrder covers the iteration order that this hides.
- Local training, the logistic model and gradients: a client's update is an arbitrary vector.
- A round in the transition system carries any result that continues its server and names a participant; Platforms.Platform.RunFederatedRound ties it to the round that was run.
- Audit details are an opaque string, so strict JSON normalization of entries is not modelled.
- run_mean and share_scalar are one-coordinate instances of modelled operations; the compute nodes' inboxes only pass shares on, and filters such as by_action only select entries.
- The codec of organizations and policies is field by field; of it only the dropped plaintext key is modelled.
- Ledger entries, privacy cards, timelines, release metadata, the HTTP interface, settings and drivers are display or plumbing.
- Policy purposes and decision reasons are texts without effect on decisions.
- MpcStats.RunVariance: exactness is stated for distinct node ids and sums in the signed range; the code checks neither.
- MpcStats.RunCorrelation: likewise.
- Contributions.HistogramSensitivity: stated for distinct node ids and cohorts whose size times radius is within the signed range.
- Federated.SecureEval: exactness is stated for distinct ids, which its only caller ensures, and when the three tally sums fit int64, which the code does not check.
- Codec.BytesStandForVectors: stated for numbers that the format can write, as floats are.
- FederatedTheorems.ReplaceOneSensitivity: stated for fewer than 2^63/10^6 survivors, beyond which the opened sum may wrap.
- RateLimit.InMemoryTokenBucket.Allow: the clock is read outside the lock in the code, so concurrent callers may present readings out of order; equality with the full log is stated for readings that do not decrease.
- InMemoryTransactions.InMemoryTx.Exit: the queue is not cleared when a check fails, as in the code; the transaction object is not used again.
