# rllab sample post-processing, modelled in Dafny

This project models `BaseSampler.process_samples` from rllab (`rllab/sampler/base.py`).
This is the step that turns the trajectories ("paths") collected by a sampler into one
training batch for a policy-gradient algorithm. It does four things:

- **The per-path loop.** It runs over the paths in place. It appends a terminal value 0 to
  the baseline predictions and forms the TD residuals
  `rewards[t] + discount * v[t+1] - v[t]`. It writes three fields into each path:
  - `advantages`: the generalized advantage estimates, the reverse discounted cumulative
    sum of the residuals with factor `discount * gae_lambda`;
  - `returns`: the reverse discounted cumulative sum of the rewards;
  - `env_returns`: the same sum over `env_rewards`, when the path has them.
- **The flat batch**, built for a non-recurrent policy. Every per-step sequence of every path
  is concatenated in path order.
- **The padded batch**, built for a recurrent policy. Every per-step sequence is right-padded
  with zeros to `max_path_length`, and a `valids` mask marks the real steps. If `center_adv`
  is set, the advantages are first normalised with the mean and standard deviation (plus
  1e-8) of the unpadded concatenation.
- **The summary numbers.** These are:
  - the mean over paths of `returns[0]`;
  - the undiscounted returns, with their analogues for the env channel;
  - the policy entropy. It is a plain mean in the flat case and a `valids`-masked mean in
    the padded case.

The project is split into these modules:

| file | module | contents |
|---|---|---|
| `wrappers.dfy` | `Wrappers` | `Option` and `Result` |
| `numeric.dfy` | `Numeric` | sums, means (`None` stands for numpy's NaN), elementwise operations, normalisation |
| `cumsum.dfy` | `DiscountedCumSum` | the discounted cumulative sum: a recursive function and a verified reverse loop over an array |
| `tensor_ops.dfy` | `TensorOps` | concatenation, padding, the valids mask, per-key dictionary concatenation and padding |
| `paths.dfy` | `Paths` | the path record and its well-formedness |
| `estimator.dfy` | `AdvantageEstimator` | the per-path loop, as a method over an `array<Path>` |
| `diagnostics.dfy` | `Diagnostics` | summary means, sums and the masked entropy |
| `assembler.dfy` | `BatchAssembler` | flat and padded assembly, errors, `ProcessSamples`, an end-to-end scenario |

### How the model represents the system

- Real numbers are Dafny `real`, which is exact arithmetic. Observations and actions are one
  number per step.
- A path is a `Path` datatype. The fields that process_samples writes are `Option`s that it
  sets to `Some`.
- The dictionary key `returns` is the field `discountedReturns`, because `returns` is a
  Dafny keyword.

### Failure cases

The model covers three ways process_samples raises, and returns each as `Result.Failure`:

| error | cause | source line |
|---|---|---|
| `NoPaths` | an empty path list: `np.concatenate` of no arrays | 77 |
| `EmptyPath` | a path of length 0: `returns[0]` | 110 and 182 |
| `MissingEnvReturns` | a recurrent batch where some path lacks `env_returns` | 185 |

`BatchAssembler.Failing` gives the precedence among them. The code at line 185 reads
`env_returns[0]` for every path, with no filter. So in the recurrent branch, any path without
the `env_returns` key makes the call raise. A fresh path gets that key only from
`env_rewards` (lines 71-74), but a path that kept `env_returns` from an earlier call does
not raise, even without `env_rewards`. `BatchAssembler.ScenarioRunRecurrent` shows the
failure on the two-path scenario.

### Recurrent centring

Recurrent centring (lines 139-145) subtracts the mean of the unpadded concatenation of the
advantages and divides by `np.std` of it plus 1e-8. The model does both, with the standard
deviation as the input `advStd` (see Left out), and the centred real advantages still sum
to zero.

## Model

| member | source | states |
|---|---|---|
| DiscountedCumSum.DiscountCumsum | rllab/sampler/base.py:65-68 | the reverse discounted cumulative sum; it has the input's length |
| DiscountedCumSum.DiscountCumsumLast | rllab/sampler/base.py:65-68 | the last entry of the cumsum is the last input |
| DiscountedCumSum.DiscountCumsumStep | rllab/sampler/base.py:65-68 | y[t] = x[t] + g * y[t+1] for every t before the last |
| DiscountedCumSum.RecurrenceDetermines | rllab/sampler/base.py:65-68 | any sequence satisfying the backward recurrence and its end condition is the cumsum, so the recurrence is a complete specification |
| DiscountedCumSum.DiscountCumsumSuffix | rllab/sampler/base.py:65-68 | the cumsum of a suffix is the suffix of the cumsum |
| DiscountedCumSum.DiscountCumsumIsSuffixReturn | rllab/sampler/base.py:65-68 | entry t is the discounted return x[t] + g x[t+1] + g^2 x[t+2] + ... of the suffix from t |
| DiscountedCumSum.StartIsDiscountedReturn | rllab/sampler/base.py:67-68 | the first entry is the discounted return of the whole sequence (0 when empty) |
| DiscountedCumSum.UndiscountedIsIdentity | rllab/sampler/base.py:65-66 | with factor 0 the cumsum is the input itself |
| DiscountedCumSum.DiscountCumsumUnfold | rllab/sampler/base.py:65-68 | one backward step on the suffix from t, as the reverse loop takes it |
| DiscountedCumSum.DiscountCumsumLoop | rllab/sampler/base.py:65-68 | the reverse loop over an array computes exactly the recursive cumsum |
| AdvantageEstimator.Bootstrap | rllab/sampler/base.py:61 | T+1 bootstrapped values, the last one 0, the first T the predictions |
| AdvantageEstimator.Deltas | rllab/sampler/base.py:62-64 | the residuals have the path's length T |
| AdvantageEstimator.DeltasAt | rllab/sampler/base.py:62-64 | residual t is rewards[t] + discount * vb[t+1] - vb[t] |
| AdvantageEstimator.GaeAdvantages | rllab/sampler/base.py:65-66 | the advantages of a path have its length T |
| AdvantageEstimator.AdvantageLast | rllab/sampler/base.py:61-66 | the last advantage is the last reward minus the last prediction, because the bootstrapped next value is 0 |
| AdvantageEstimator.AdvantageStep | rllab/sampler/base.py:62-66 | advantage t is residual t plus discount * gae_lambda times advantage t+1 |
| AdvantageEstimator.EstimatePath | rllab/sampler/base.py:60-74 | advantages and returns are written with length T; env_returns is written, with the env_rewards' length, exactly when env_rewards is present, and is otherwise left as it was |
| AdvantageEstimator.EstimatePathFields | rllab/sampler/base.py:65-73 | the values written are the GAE advantages, the cumsum of the rewards and the cumsum of the env rewards, and no other field of the path changes |
| AdvantageEstimator.EstimatePreservesWellFormed | rllab/sampler/base.py:60-74 | a well-formed path stays well formed and carries advantages and returns |
| AdvantageEstimator.EnvReturnsIffEnvRewards | rllab/sampler/base.py:71-74 | on a fresh path, env_returns is attached if and only if the path has env_rewards |
| AdvantageEstimator.EstimateOne | rllab/sampler/base.py:61-73 | one loop iteration yields EstimatePath of the path, and the kept baselines (bootstrap without its last value) are the predictions |
| AdvantageEstimator.EstimateAll | rllab/sampler/base.py:60-74 | after the loop every path i is EstimatePath of its old value and prediction i; the baselines list is the predictions and the returns list is every path's returns, in order |
| AdvantageEstimator.AdvantagesRecurrence | rllab/sampler/base.py:62-66 | adv[T-1] = rewards[T-1] - v[T-1] and adv[t] = delta[t] + discount * gae_lambda * adv[t+1] |
| AdvantageEstimator.ReturnsRecurrence | rllab/sampler/base.py:67-68 | ret[T-1] = rewards[T-1], ret[t] = rewards[t] + discount * ret[t+1], and ret[0] is the discounted return of the path |
| AdvantageEstimator.ResidualsTelescope | rllab/sampler/base.py:62-66 | with factor equal to the discount the cumsum of the residuals telescopes to the cumsum of the rewards minus the baseline |
| AdvantageEstimator.AdvantagesAtLambdaOne | rllab/sampler/base.py:62-68 | with gae_lambda = 1, advantage t = return t - prediction t |
| AdvantageEstimator.ZeroBaselineAdvantagesAreReturns | rllab/sampler/base.py:62-68 | a zero baseline with gae_lambda = 1 makes the advantages equal the returns |
| AdvantageEstimator.AdvantagesAtLambdaZero | rllab/sampler/base.py:62-66 | with gae_lambda = 0 the advantages are the one-step residuals |
| AdvantageEstimator.BootstrappedResiduals | rllab/sampler/base.py:61-64 | residual t of the bootstrapped predictions is rewards[t] + discount * v[t+1] - v[t], with v[T] = 0 |
| TensorOps.Concat | rllab/sampler/base.py:85-94 | the concatenation has the total length of the rows |
| TensorOps.ConcatAppend | rllab/sampler/base.py:85-94 | concatenation keeps the order of the rows: it distributes over appending row lists |
| TensorOps.ConcatBlock | rllab/sampler/base.py:85-94 | row i's entry t sits at the total length of rows before i, plus t |
| TensorOps.SumConcat | rllab/sampler/base.py:140-142 | the sum of a concatenation is the sum of the row sums |
| TensorOps.MaxLength | rllab/sampler/base.py:133 | no row is longer, and with rows some row has exactly that length |
| TensorOps.Pad | rllab/sampler/base.py:149-150 | a padded row has length n, keeps the row as its prefix and is 0 after it |
| TensorOps.PadN | rllab/sampler/base.py:136-159 | entry (i, t) is row i's value below its length and 0 beyond, every row of length n |
| TensorOps.Valids | rllab/sampler/base.py:178-179 | valids[i][t] is 1 exactly when t is below row i's length, else 0 |
| TensorOps.PadNRoundTrip | rllab/sampler/base.py:136-159 | padding loses nothing: cutting the rows back to their lengths gives the rows |
| TensorOps.ConcatInfos | rllab/sampler/base.py:95-98 | the concatenated dictionary has the first dictionary's keys, each value of the total length |
| TensorOps.ConcatInfosLayout | rllab/sampler/base.py:95-98 | under every key, dictionary i's values fill the block that starts at the total length of the values before it, step t at that start plus t |
| TensorOps.ConcatRowBlock | rllab/sampler/base.py:85-98 | row i fills the block of the concatenation that starts at the total length of the rows before it |
| TensorOps.PadStackInfos | rllab/sampler/base.py:166-176 | the padded, stacked dictionary has the first dictionary's keys, one padded row per path, zero beyond each path's length |
| Diagnostics.StartReturnsAreDiscountedReturns | rllab/sampler/base.py:109-110 | the first returns of the paths are their discounted returns, so their mean is the mean discounted return |
| Diagnostics.UndiscountedReturns | rllab/sampler/base.py:116 | one entry per path, entry i the sum of path i's rewards (the same list at line 187) |
| Diagnostics.SumIsUndiscountedReturn | rllab/sampler/base.py:116 | the plain sum of rewards is the discounted return at discount 1 |
| Diagnostics.UndiscountedMatchesUnitDiscount | rllab/sampler/base.py:109-116 | with discount 1 the undiscounted returns are the discounted ones |
| Diagnostics.EnvStartReturns | rllab/sampler/base.py:112-114 | the filtered list is empty exactly when no path carries env_returns, so its mean is NaN exactly then |
| Diagnostics.EnvStartReturnsWhenAllPresent | rllab/sampler/base.py:112-114 | when every path carries env_returns, the filtered (flat) and unfiltered (recurrent, line 185) lists agree |
| Diagnostics.UndiscountedEnvReturns | rllab/sampler/base.py:117-118 | the list is empty exactly when no path has env_rewards |
| Diagnostics.UndiscountedEnvReturnsAreSums | rllab/sampler/base.py:117-118 | each present env_rewards contributes its sum |
| Diagnostics.EnvStartReturnsAppend | rllab/sampler/base.py:112-114 | the filtered list of a + b is that of a followed by that of b, so it keeps path order |
| Diagnostics.EnvStartReturnsOne | rllab/sampler/base.py:112-114 | one path contributes env_returns[0] when it has env_returns, and nothing otherwise |
| Diagnostics.UndiscountedEnvReturnsAppend | rllab/sampler/base.py:117-118 | the filtered list of a + b is that of a followed by that of b |
| Diagnostics.UndiscountedEnvReturnsOne | rllab/sampler/base.py:117-118 | one path contributes the sum of its env_rewards when it has them, and nothing otherwise |
| Diagnostics.PathDiscountedEnvReturns | rllab/sampler/base.py:71-74 | reference list: the discounted return of each present env_rewards, in path order, at most one per path |
| Diagnostics.EnvStartReturnsAreDiscountedEnvReturns | rllab/sampler/base.py:71-114 | when env_returns holds the cumsum of env_rewards exactly on the paths that have them, the filtered first env returns are the discounted returns of the env rewards |
| Diagnostics.UndiscountedEnvMatchesUnitDiscount | rllab/sampler/base.py:117-118 | the undiscounted env returns are the discounted returns of the env rewards at discount 1 |
| Diagnostics.MaskedEntropy | rllab/sampler/base.py:191-192 | defined exactly when the mask is not all zero, and then it times the mask total is the masked sum |
| Diagnostics.MaskedRowSum | rllab/sampler/base.py:191-192 | a row times a k-ones mask sums the first k entries |
| Diagnostics.MaskedEntropyIsRealStepMean | rllab/sampler/base.py:191-192 | the masked entropy is the mean over real steps only, whatever the padded entries hold |
| Diagnostics.MaskedEntropyMatchesFlat | rllab/sampler/base.py:191-192 | padded entropies that agree with the per-path ones on real steps give the mean of the concatenated per-path entropies |
| Diagnostics.MaskedEntropyExample | rllab/sampler/base.py:191-192 | entropies [1,1,1] and [2,2,pad] give 1.4, for any pad value |
| BatchAssembler.AssembleFlat | rllab/sampler/base.py:84-98 | every flat sequence has the total path length; the info dictionaries keep the first path's keys |
| BatchAssembler.FlatLayout | rllab/sampler/base.py:85-94 | entry t of path i sits at Offset(i) + t in every flat sequence, so path order and within-path order are kept |
| BatchAssembler.OffsetStep | rllab/sampler/base.py:85-94 | block i + 1 starts where block i ends |
| BatchAssembler.PaddedLength | rllab/sampler/base.py:133 | max_path_length, taken over the advantages: no path's advantages are longer, and with paths one has exactly that length |
| BatchAssembler.PaddedLengthIsMaxPathLength | rllab/sampler/base.py:133 | max_path_length bounds every path and is reached by one |
| BatchAssembler.CenteredAdvantages | rllab/sampler/base.py:139-145 | every row is normalised with the mean of the unpadded concatenation and std + 1e-8 |
| BatchAssembler.CenteredAdvantagesSumToZero | rllab/sampler/base.py:139-145 | after centring the real advantages sum to 0 |
| BatchAssembler.PadKeepsSum | rllab/sampler/base.py:149-150 | padding keeps a row's sum |
| BatchAssembler.AssemblePadded | rllab/sampler/base.py:133-179 | one mask row per path, each of length max_path_length |
| BatchAssembler.PaddedLayout | rllab/sampler/base.py:133-179 | every padded row of observations, actions, rewards, returns and advantages has length max_path_length, holds the path's values on real steps and 0 after (advantages: without centring); valids is 1 exactly on real steps; padded advantage slots are 0 |
| BatchAssembler.CenteredPaddedAdvantages | rllab/sampler/base.py:139-150 | with centring, a real padded advantage is (adv - mean over real steps) / (std + 1e-8), and the padded array sums to 0 |
| BatchAssembler.LayoutsAgree | rllab/sampler/base.py:84-159 | the flat entry at Offset(i) + t and the padded entry [i][t] coincide |
| BatchAssembler.RecurrentEntropyIsFlatEntropy | rllab/sampler/base.py:191-192 | the masked entropy over the assembled valids equals the plain mean of line 120 over the concatenated per-path entropies when the padded entropies agree with the per-path ones on real steps |
| BatchAssembler.AverageDiscountedReturnIsMean | rllab/sampler/base.py:181-182 | average_discounted_return (here and at lines 109-110) is the mean of the paths' discounted returns |
| BatchAssembler.AverageEnvReturnsAreMeans | rllab/sampler/base.py:112-118 | on paths whose env_returns the loop wrote, average_discounted_env_return (flat, and the recurrent form of lines 184-185) is the mean of the env rewards' discounted returns over the paths that have them, and average_env_return is that mean at discount 1 |
| BatchAssembler.LoopWritesEnvReturns | rllab/sampler/base.py:60-74 | fresh well-formed paths leave the loop with env_returns equal to the cumsum of env_rewards exactly where env_rewards is present |
| BatchAssembler.AverageEnvStartReturn | rllab/sampler/base.py:112-114 | NaN (None) exactly when the policy is not recurrent and no path carries env_returns; the recurrent form of lines 184-185 averages over every path, so it is never NaN |
| BatchAssembler.PolicyEntropy | rllab/sampler/base.py:191-192 | the flat entropy (line 120) is NaN exactly when there are no steps, and the masked one exactly when the mask is all zero |
| BatchAssembler.Summaries | rllab/sampler/base.py:109-120 | one entry per path; the average discounted return is the mean of the first returns; the undiscounted returns are the reward sums and the average return their mean; the env averages are NaN (None) exactly when no path has env_returns (flat branch; the recurrent branch requires all) or env_rewards; the flat entropy is the mean of the per-step entropies and is never NaN, since a batch that assembles has steps; concat_returns has the total path length |
| BatchAssembler.SummariesLists | rllab/sampler/base.py:117-131 | the undiscounted env returns are the filtered list of lines 117-118, and concat_returns and concat_baselines are the per-path returns and baselines concatenated in path order |
| BatchAssembler.Failing | rllab/sampler/base.py:77-185 | NoPaths on no paths, else EmptyPath when some path has no steps, else MissingEnvReturns when the policy is recurrent and some path lacks env_returns; no error exactly when none of these holds |
| BatchAssembler.Assemble | rllab/sampler/base.py:76-204 | fails exactly on the errors Failing names, with that error; otherwise gives the padded batch exactly for a recurrent policy |
| BatchAssembler.NotFailing | rllab/sampler/base.py:77-185 | with no error there are paths, none empty, and for a recurrent policy all carry env_returns |
| BatchAssembler.AssembleRecurrent | rllab/sampler/base.py:132-204 | the recurrent branch gives a padded batch |
| BatchAssembler.AssembleNonRecurrent | rllab/sampler/base.py:84-131 | the non-recurrent branch gives a flat batch |
| BatchAssembler.ProcessSamples | rllab/sampler/base.py:48-204 | the paths are processed in place (even when assembly then raises), stay well formed, keep their rewards, and the result is the assembly of the processed paths |
| BatchAssembler.ScenarioFlat | rllab/sampler/base.py:84-110 | two paths [1,1,1] and [2,0] with zero baseline: flat rewards [1,1,1,2,0], returns and advantages [3,2,1,2,0], average discounted return 2.5 |
| BatchAssembler.ScenarioFlatBatch | rllab/sampler/base.py:89-94 | the scenario's flat rewards are [1,1,1,2,0], and its flat returns and advantages are [3,2,1,2,0] |
| BatchAssembler.ScenarioAverage | rllab/sampler/base.py:109-110 | the scenario's average discounted return is (3 + 2) / 2 = 2.5 |
| BatchAssembler.ScenarioPadded | rllab/sampler/base.py:133-179 | the same paths padded: rewards [[1,1,1],[2,0,0]], valids [[1,1,1],[1,1,0]] |
| BatchAssembler.ScenarioRun | rllab/sampler/base.py:48-131 | the scenario through ProcessSamples with a non-recurrent policy succeeds with those values, and per-step entropies 0.5 give entropy 0.5 |
| BatchAssembler.ScenarioRunRecurrent | rllab/sampler/base.py:184-185 | the scenario with a recurrent policy raises MissingEnvReturns, since its paths carry no env_returns |
| BatchAssembler.ScenarioLoop | rllab/sampler/base.py:60-74 | the loop turns the scenario's paths into returns [3,2,1] and [2,0] with equal advantages |

## Left out

- The `Sampler` stubs `start_worker`, `obtain_samples` and `shutdown_worker` (lines 10-38). They only raise.
- Obtaining the baseline predictions through `predict_n`/`predict` and the `hasattr` probe (lines 54-58). The predictions are an input, and each must have its path's length.
- The baseline refit through `fit_with_samples`/`fit` (lines 206-211). It is an external call.
- `policy.distribution.entropy` (lines 120, 191). Its per-step values are inputs to `Summaries` and `Assemble`: a flat sequence with one entry per step of the batch, and a padded one of the batch's shape.
- `special.explained_variance_1d` (lines 79-82). It is a variance-based helper outside this model. `np.exp` perplexity and `np.std`/`np.max`/`np.min` reporting (lines 227-240) are also floating-point reporting and are not modelled.
- The `logger` calls and the NaN checks that guard them (lines 206-240). The model returns the numbers in `Stats`, with `None` for NaN.
- `CenteredAdvantages`: the standard deviation `np.std(raw_adv)` is an input `advStd` (required to be non-negative), not computed from the advantages.
- `AssembleFlat`: the flat advantages are the concatenation before `util.center_advantages` and `util.shift_advantages_to_positive` (lines 103-107). Those helpers are not part of this model, so flat centring and `positive_adv` are not modelled.
- The `env_returns` list built in the loop (line 74) and rebound at lines 100-101 and 161-164. It is never read afterwards, so it is not modelled.
- `special.discount_cumsum`, `tensor_utils` and `util` are not part of this model. They are modelled from how process_samples uses them: a reverse discounted sum, in-order concatenation, right-padding with zeros, per-key dictionary concatenation and padding. The cumsum of an empty sequence is taken to be empty. A zero-length path then fails at `returns[0]`.
- `Paths.SameInfoKeys`: `Assemble` and `ProcessSamples` require every path to carry the same `agent_infos` keys and the same `env_infos` keys. `tensor_utils` is not part of this model, so what it does with differing keys is not modelled.
- `Paths.WellFormed` also requires `advantages`, `returns` and `env_returns` that a path already carries to have the path's length, although the loop overwrites the first two (and `env_returns` when there are `env_rewards`). Paths with stale fields of another length are outside the model.
- Multi-dimensional observations, actions and info values, and numpy broadcasting. Each step holds one number, and sequences that must align are required to have equal lengths (`Paths.WellFormed`).
- The `itr` argument, which only feeds the logger.
- Floating point. All arithmetic is exact over the reals, so the zero-sum of centred advantages holds exactly rather than within rounding.
