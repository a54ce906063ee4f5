/** process_samples end to end: run the per-path loop, then lay the batch
    out flat (non-recurrent policy) or padded with a valids mask (recurrent
    policy), and compute the summary numbers. */
module BatchAssembler {
  import opened Wrappers
  import opened Numeric
  import opened DiscountedCumSum
  import opened TensorOps
  import opened Paths
  import opened AdvantageEstimator
  import opened Diagnostics

  /** The algorithm settings process_samples reads. */
  datatype Config = Config(discount: real, gaeLambda: real, centerAdv: bool, recurrent: bool)

  /** Why process_samples raises instead of returning a batch. */
  datatype Error =
    | NoPaths            // np.concatenate of an empty list of baselines
    | EmptyPath          // returns[0] of a path with no steps
    | MissingEnvReturns  // recurrent branch: a path without env_returns

  /** The non-recurrent batch: every per-step sequence concatenated in path
      order. */
  datatype FlatBatch = FlatBatch(
    observations: seq<real>,
    actions: seq<real>,
    rewards: seq<real>,
    discountedReturns: seq<real>,
    advantages: seq<real>,
    envInfos: Info,
    agentInfos: Info,
    paths: seq<Path>)

  /** The recurrent batch: one zero-padded row per path, plus the mask. */
  datatype PaddedBatch = PaddedBatch(
    observations: seq<seq<real>>,
    actions: seq<seq<real>>,
    advantages: seq<seq<real>>,
    rewards: seq<seq<real>>,
    discountedReturns: seq<seq<real>>,
    valids: seq<seq<real>>,
    agentInfos: StackedInfo,
    envInfos: StackedInfo,
    paths: seq<Path>)

  datatype SamplesData = Flat(flat: FlatBatch) | Padded(padded: PaddedBatch)

  /** The numbers handed to the logger. None stands for numpy's NaN of a
      mean over nothing, which the logger suppresses. */
  datatype Stats = Stats(
    averageDiscountedReturn: real,
    averageDiscountedEnvReturn: Option<real>,
    undiscountedReturns: seq<real>,
    undiscountedEnvReturns: seq<real>,
    averageReturn: real,
    averageEnvReturn: Option<real>,
    entropy: Option<real>,
    numTrajs: nat,
    concatReturns: seq<real>,
    concatBaselines: seq<real>)

  datatype Samples = Samples(data: SamplesData, stats: Stats)

  /** The flat layout of processed paths. */
  function AssembleFlat(ps: seq<Path>): (b: FlatBatch)
    requires |ps| > 0 && AllProcessed(ps) && SameInfoKeys(ps)
    ensures |b.rewards| == |b.advantages| == |b.discountedReturns| == SumLengths(RewardsOf(ps))
    ensures |b.observations| == |b.actions| == SumLengths(RewardsOf(ps))
    ensures b.agentInfos.Keys == ps[0].agentInfos.Keys && b.envInfos.Keys == ps[0].envInfos.Keys
  {
    var rs := RewardsOf(ps);
    SumLengthsSameShape(AdvantagesOf(ps), rs);
    SumLengthsSameShape(ReturnsOf(ps), rs);
    SumLengthsSameShape(ObservationsOf(ps), rs);
    SumLengthsSameShape(ActionsOf(ps), rs);
    FlatBatch(
      Concat(ObservationsOf(ps)),
      Concat(ActionsOf(ps)),
      Concat(RewardsOf(ps)),
      Concat(ReturnsOf(ps)),
      Concat(AdvantagesOf(ps)),
      ConcatInfos(EnvInfosOf(ps)),
      ConcatInfos(AgentInfosOf(ps)),
      ps)
  }

  /** max_path_length, taken over the advantages as the code does. */
  function PaddedLength(ps: seq<Path>): (n: nat)
    requires AllProcessed(ps)
    ensures forall i :: 0 <= i < |ps| ==> |ps[i].advantages.value| <= n
    ensures |ps| > 0 ==> exists i :: 0 <= i < |ps| && |ps[i].advantages.value| == n
  {
    MaxLength(AdvantagesOf(ps))
  }

  /** max_path_length is the length of the longest path: no path is longer
      and, when there are paths, one has exactly that length. */
  lemma PaddedLengthIsMaxPathLength(ps: seq<Path>)
    requires AllProcessed(ps)
    ensures forall i :: 0 <= i < |ps| ==> |ps[i].rewards| <= PaddedLength(ps)
    ensures |ps| > 0 ==> exists i :: 0 <= i < |ps| && |ps[i].rewards| == PaddedLength(ps)
    ensures PaddedLength(ps) == MaxLength(RewardsOf(ps))
  {
    var advs := AdvantagesOf(ps);
    assert forall i :: 0 <= i < |ps| ==> |advs[i]| == |ps[i].rewards|;
    MaxLengthSameShape(advs, RewardsOf(ps));
  }

  lemma {:induction false} MaxLengthSameShape(xs: seq<seq<real>>, ys: seq<seq<real>>)
    requires |xs| == |ys|
    requires forall i :: 0 <= i < |xs| ==> |xs[i]| == |ys[i]|
    ensures MaxLength(xs) == MaxLength(ys)
    decreases |xs|
  {
    if xs != [] {
      MaxLengthSameShape(xs[1..], ys[1..]);
    }
  }

  /** Every per-step sequence of every path fits in max_path_length. */
  lemma FitsPaddedLength(ps: seq<Path>)
    requires AllProcessed(ps)
    ensures forall i :: 0 <= i < |ps| ==>
              && |ps[i].observations| <= PaddedLength(ps)
              && |ps[i].actions| <= PaddedLength(ps)
              && |ps[i].rewards| <= PaddedLength(ps)
              && |ps[i].advantages.value| <= PaddedLength(ps)
              && |ps[i].discountedReturns.value| <= PaddedLength(ps)
    ensures forall i, k :: 0 <= i < |ps| && k in ps[i].agentInfos ==> |ps[i].agentInfos[k]| <= PaddedLength(ps)
    ensures forall i, k :: 0 <= i < |ps| && k in ps[i].envInfos ==> |ps[i].envInfos[k]| <= PaddedLength(ps)
    ensures SameInfoKeys(ps) ==> var n := PaddedLength(ps);
            && (forall i :: 0 <= i < |ObservationsOf(ps)| ==> |ObservationsOf(ps)[i]| <= n)
            && (forall i :: 0 <= i < |ActionsOf(ps)| ==> |ActionsOf(ps)[i]| <= n)
            && (forall i :: 0 <= i < |RewardsOf(ps)| ==> |RewardsOf(ps)[i]| <= n)
            && (forall i :: 0 <= i < |ReturnsOf(ps)| ==> |ReturnsOf(ps)[i]| <= n)
            && (forall i :: 0 <= i < |AdvantagesOf(ps)| ==> |AdvantagesOf(ps)[i]| <= n)
            && SameKeys(AgentInfosOf(ps)) && SameKeys(EnvInfosOf(ps))
            && (forall i, k :: 0 <= i < |AgentInfosOf(ps)| && k in AgentInfosOf(ps)[i] ==> |AgentInfosOf(ps)[i][k]| <= n)
            && (forall i, k :: 0 <= i < |EnvInfosOf(ps)| && k in EnvInfosOf(ps)[i] ==> |EnvInfosOf(ps)[i][k]| <= n)
  {
    PaddedLengthIsMaxPathLength(ps);
  }

  /** 1e-8, the floor added to the standard deviation. */
  const StdFloor: real := 0.00000001

  /** Recurrent centring: subtract the mean of the unpadded concatenation
      of all advantages and divide by its standard deviation plus 1e-8.
      The standard deviation is an input. */
  function CenteredAdvantages(advs: seq<seq<real>>, std: real): (c: seq<seq<real>>)
    requires std >= 0.0 && SumLengths(advs) > 0
    ensures |c| == |advs|
    ensures forall i :: 0 <= i < |advs| ==> |c[i]| == |advs[i]|
    ensures forall i :: 0 <= i < |advs| ==>
              c[i] == Normalize(advs[i], Mean(Concat(advs)).value, std + StdFloor)
  {
    var m := Mean(Concat(advs)).value;
    seq(|advs|, i requires 0 <= i < |advs| => Normalize(advs[i], m, std + StdFloor))
  }

  /** Normalising row by row is normalising the concatenation. */
  lemma {:induction false} ConcatNormalize(advs: seq<seq<real>>, m: real, s: real, c: seq<seq<real>>)
    requires s != 0.0 && |c| == |advs|
    requires forall i :: 0 <= i < |advs| ==> c[i] == Normalize(advs[i], m, s)
    ensures Concat(c) == Normalize(Concat(advs), m, s)
    decreases |advs|
  {
    if advs != [] {
      ConcatNormalize(advs[1..], m, s, c[1..]);
      NormalizeAppend(advs[0], Concat(advs[1..]), m, s);
    }
  }

  lemma ZeroFactor(x: real, s: real)
    requires x * s == 0.0 && s != 0.0
    ensures x == 0.0
  {
  }

  /** Normalising by its own mean leaves a vector summing to 0. */
  lemma NormalizedByMeanSumsToZero(flat: seq<real>, s: real)
    requires s != 0.0 && |flat| > 0
    ensures Sum(Normalize(flat, Mean(flat).value, s)) == 0.0
  {
    var m := Mean(flat).value;
    SumNormalize(flat, m, s);
    assert (|flat| as real) * m == Sum(flat);
    ZeroFactor(Sum(Normalize(flat, m, s)), s);
  }

  /** After centring the real advantages sum to 0 over the whole batch. */
  lemma CenteredAdvantagesSumToZero(advs: seq<seq<real>>, std: real)
    requires std >= 0.0 && SumLengths(advs) > 0
    ensures Sum(Concat(CenteredAdvantages(advs, std))) == 0.0
  {
    var c := CenteredAdvantages(advs, std);
    ConcatNormalize(advs, Mean(Concat(advs)).value, std + StdFloor, c);
    NormalizedByMeanSumsToZero(Concat(advs), std + StdFloor);
  }

  /** Padding adds only zeros, so it keeps a row's sum. */
  lemma PadKeepsSum(x: seq<real>, n: nat)
    requires |x| <= n
    ensures Sum(Pad(x, n)) == Sum(x)
  {
    SumAppend(x, Zeros(n - |x|));
    SumZeros(n - |x|);
  }

  /** The recurrent layout of processed paths. */
  function AssemblePadded(ps: seq<Path>, centerAdv: bool, advStd: real): (b: PaddedBatch)
    requires |ps| > 0 && AllProcessed(ps) && SameInfoKeys(ps) && advStd >= 0.0
    requires forall i :: 0 <= i < |ps| ==> |ps[i].rewards| > 0
    ensures |b.valids| == |ps|
    ensures forall i :: 0 <= i < |ps| ==> |b.valids[i]| == PaddedLength(ps)
  {
    var n := PaddedLength(ps);
    FitsPaddedLength(ps);
    var raw := AdvantagesOf(ps);
    var adv := if centerAdv then SumLengthsPositive(raw, 0); CenteredAdvantages(raw, advStd) else raw;
    PaddedBatch(
      PadN(ObservationsOf(ps), n),
      PadN(ActionsOf(ps), n),
      PadN(adv, n),
      PadN(RewardsOf(ps), n),
      PadN(ReturnsOf(ps), n),
      Valids(ReturnsOf(ps), n),
      PadStackInfos(AgentInfosOf(ps), n),
      PadStackInfos(EnvInfosOf(ps), n),
      ps)
  }

  lemma {:induction false} SumLengthsPositive(xs: seq<seq<real>>, i: nat)
    requires i < |xs| && |xs[i]| > 0
    ensures SumLengths(xs) > 0
    decreases i
  {
    if i > 0 {
      SumLengthsPositive(xs[1..], i - 1);
    }
  }

  /** average_discounted_env_return: the flat branch averages over the
      paths that carry env_returns, the recurrent branch over all paths. */
  function AverageEnvStartReturn(ps: seq<Path>, recurrent: bool): (m: Option<real>)
    requires |ps| > 0 && AllProcessed(ps)
    requires recurrent ==> forall i :: 0 <= i < |ps| ==> ps[i].envReturns.Some?
    requires forall i :: 0 <= i < |ps| ==> |ps[i].rewards| > 0
    ensures m.None? <==> !recurrent && forall i :: 0 <= i < |ps| ==> ps[i].envReturns.None?
  {
    if recurrent then Mean(Heads(AllEnvReturns(ps))) else Mean(EnvStartReturns(ps))
  }

  /** The policy entropy: a plain mean over the flat steps, or the
      valids-masked mean over the padded ones. */
  function PolicyEntropy(recurrent: bool, flatEntropy: seq<real>,
                         paddedEntropy: seq<seq<real>>, valids: seq<seq<real>>): (e: Option<real>)
    requires recurrent ==>
               |paddedEntropy| == |valids| && forall i :: 0 <= i < |valids| ==> |paddedEntropy[i]| == |valids[i]|
    ensures !recurrent ==> (e.Some? <==> |flatEntropy| > 0)
    ensures recurrent ==> (e.Some? <==> SumRows(valids) != 0.0)
  {
    if recurrent then MaskedEntropy(paddedEntropy, valids) else Mean(flatEntropy)
  }

  /** The summary numbers of a batch that assembles without error. */
  function Summaries(ps: seq<Path>, baselines: seq<seq<real>>, cfg: Config,
                     flatEntropy: seq<real>, paddedEntropy: seq<seq<real>>, valids: seq<seq<real>>): (s: Stats)
    requires |ps| > 0 && AllProcessed(ps)
    requires forall i :: 0 <= i < |ps| ==> |ps[i].rewards| > 0
    requires cfg.recurrent ==> forall i :: 0 <= i < |ps| ==> ps[i].envReturns.Some?
    requires cfg.recurrent ==>
               |paddedEntropy| == |valids| && forall i :: 0 <= i < |valids| ==> |paddedEntropy[i]| == |valids[i]|
    requires !cfg.recurrent ==> |flatEntropy| == SumLengths(RewardsOf(ps))
    ensures s.numTrajs == |ps|
    ensures Some(s.averageDiscountedReturn) == Mean(Heads(ReturnsOf(ps)))
    ensures s.averageDiscountedEnvReturn.None? <==>
              !cfg.recurrent && forall i :: 0 <= i < |ps| ==> ps[i].envReturns.None?
    ensures |s.undiscountedReturns| == |ps|
    ensures forall i :: 0 <= i < |ps| ==> s.undiscountedReturns[i] == Sum(ps[i].rewards)
    ensures Some(s.averageReturn) == Mean(s.undiscountedReturns)
    ensures s.averageEnvReturn == Mean(s.undiscountedEnvReturns)
    ensures s.averageEnvReturn.None? <==> forall i :: 0 <= i < |ps| ==> ps[i].envRewards.None?
    ensures !cfg.recurrent ==> s.entropy.Some? && s.entropy == Mean(flatEntropy)
    ensures |s.concatReturns| == SumLengths(RewardsOf(ps))
  {
    SumLengthsSameShape(ReturnsOf(ps), RewardsOf(ps));
    SumLengthsPositive(RewardsOf(ps), 0);
    var starts := Heads(ReturnsOf(ps));
    Stats(
      Mean(starts).value,
      AverageEnvStartReturn(ps, cfg.recurrent),
      UndiscountedReturns(ps),
      UndiscountedEnvReturns(ps),
      Mean(UndiscountedReturns(ps)).value,
      Mean(UndiscountedEnvReturns(ps)),
      PolicyEntropy(cfg.recurrent, flatEntropy, paddedEntropy, valids),
      |ps|,
      Concat(ReturnsOf(ps)),
      Concat(baselines))
  }

  /** The lists Summaries hands on: the undiscounted env returns, and the
      returns and baselines concatenated in path order. */
  lemma SummariesLists(ps: seq<Path>, baselines: seq<seq<real>>, cfg: Config,
                       flatEntropy: seq<real>, paddedEntropy: seq<seq<real>>, valids: seq<seq<real>>)
    requires |ps| > 0 && AllProcessed(ps)
    requires forall i :: 0 <= i < |ps| ==> |ps[i].rewards| > 0
    requires cfg.recurrent ==> forall i :: 0 <= i < |ps| ==> ps[i].envReturns.Some?
    requires cfg.recurrent ==>
               |paddedEntropy| == |valids| && forall i :: 0 <= i < |valids| ==> |paddedEntropy[i]| == |valids[i]|
    requires !cfg.recurrent ==> |flatEntropy| == SumLengths(RewardsOf(ps))
    ensures var s := Summaries(ps, baselines, cfg, flatEntropy, paddedEntropy, valids);
            && s.undiscountedEnvReturns == UndiscountedEnvReturns(ps)
            && s.concatReturns == Concat(ReturnsOf(ps))
            && s.concatBaselines == Concat(baselines)
  {
  }

  /** Whether process_samples raises, and which error it raises first. */
  function Failing(ps: seq<Path>, recurrent: bool): (f: Option<Error>)
    ensures f == Some(NoPaths) <==> |ps| == 0
    ensures f == Some(EmptyPath) <==> |ps| > 0 && exists i :: 0 <= i < |ps| && |ps[i].rewards| == 0
    ensures f == Some(MissingEnvReturns) <==>
              && |ps| > 0 && (forall i :: 0 <= i < |ps| ==> |ps[i].rewards| > 0)
              && recurrent && exists i :: 0 <= i < |ps| && ps[i].envReturns.None?
    ensures f.None? <==>
              && |ps| > 0 && (forall i :: 0 <= i < |ps| ==> |ps[i].rewards| > 0)
              && (recurrent ==> forall i :: 0 <= i < |ps| ==> ps[i].envReturns.Some?)
  {
    if |ps| == 0 then Some(NoPaths)
    else if exists i :: 0 <= i < |ps| && |ps[i].rewards| == 0 then Some(EmptyPath)
    else if recurrent && exists i :: 0 <= i < |ps| && ps[i].envReturns.None? then Some(MissingEnvReturns)
    else None
  }

  /** Everything after the per-path loop (lines 76-204 and the summary
      numbers logged after them). */
  function Assemble(ps: seq<Path>, baselines: seq<seq<real>>, cfg: Config, advStd: real,
                    flatEntropy: seq<real>, paddedEntropy: seq<seq<real>>): (r: Result<Samples, Error>)
    requires AllProcessed(ps) && SameInfoKeys(ps) && advStd >= 0.0
    requires cfg.recurrent ==>
               |paddedEntropy| == |ps| && forall i :: 0 <= i < |ps| ==> |paddedEntropy[i]| == MaxLength(RewardsOf(ps))
    requires !cfg.recurrent ==> |flatEntropy| == SumLengths(RewardsOf(ps))
    ensures r.Failure? <==> Failing(ps, cfg.recurrent).Some?
    ensures r.Failure? ==> r.error == Failing(ps, cfg.recurrent).value
    ensures r.Success? ==> (r.value.data.Padded? <==> cfg.recurrent)
  {
    match Failing(ps, cfg.recurrent)
    case Some(e) => Failure(e)
    case None =>
      if cfg.recurrent then Success(AssembleRecurrent(ps, baselines, cfg, advStd, flatEntropy, paddedEntropy))
      else Success(AssembleNonRecurrent(ps, baselines, cfg, flatEntropy))
  }

  /** What the absence of an error guarantees about the paths. */
  lemma NotFailing(ps: seq<Path>, recurrent: bool)
    requires Failing(ps, recurrent).None?
    ensures |ps| > 0
    ensures forall i :: 0 <= i < |ps| ==> |ps[i].rewards| > 0
    ensures recurrent ==> forall i :: 0 <= i < |ps| ==> ps[i].envReturns.Some?
  {
  }

  /** The recurrent branch of a batch that raises no error. */
  function AssembleRecurrent(ps: seq<Path>, baselines: seq<seq<real>>, cfg: Config, advStd: real,
                             flatEntropy: seq<real>, paddedEntropy: seq<seq<real>>): (s: Samples)
    requires AllProcessed(ps) && SameInfoKeys(ps) && advStd >= 0.0
    requires cfg.recurrent && Failing(ps, true).None?
    requires |paddedEntropy| == |ps| && forall i :: 0 <= i < |ps| ==> |paddedEntropy[i]| == MaxLength(RewardsOf(ps))
    ensures s.data.Padded? && s.stats.numTrajs == |ps|
  {
    NotFailing(ps, true);
    PaddedLengthIsMaxPathLength(ps);
    var b := AssemblePadded(ps, cfg.centerAdv, advStd);
    Samples(Padded(b), Summaries(ps, baselines, cfg, flatEntropy, paddedEntropy, b.valids))
  }

  /** The non-recurrent branch of a batch that raises no error. */
  function AssembleNonRecurrent(ps: seq<Path>, baselines: seq<seq<real>>, cfg: Config,
                                flatEntropy: seq<real>): (s: Samples)
    requires AllProcessed(ps) && SameInfoKeys(ps)
    requires !cfg.recurrent && Failing(ps, false).None?
    requires |flatEntropy| == SumLengths(RewardsOf(ps))
    ensures s.data.Flat? && s.stats.numTrajs == |ps|
  {
    NotFailing(ps, false);
    Samples(Flat(AssembleFlat(ps)), Summaries(ps, baselines, cfg, flatEntropy, [], []))
  }

  /** Where path i's block starts in the flat layout: the total length of
      the paths before it. */
  function Offset(ps: seq<Path>, i: nat): nat
    requires i <= |ps|
  {
    SumLengths(RewardsOf(ps[..i]))
  }

  /** Block i + 1 starts where block i ends. */
  lemma OffsetStep(ps: seq<Path>, i: nat)
    requires i < |ps|
    ensures Offset(ps, i + 1) == Offset(ps, i) + |ps[i].rewards|
  {
    OffsetNext(RewardsOf(ps), i);
    assert RewardsOf(ps)[..i] == RewardsOf(ps[..i]);
    assert RewardsOf(ps)[..i + 1] == RewardsOf(ps[..i + 1]);
  }

  /** Entry t of block i of a concatenation, where the rows have the shape
      of the paths. */
  lemma BlockOf(ps: seq<Path>, xs: seq<seq<real>>, i: nat, t: nat)
    requires |xs| == |ps| && i < |ps| && t < |ps[i].rewards|
    requires forall j :: 0 <= j < |ps| ==> |xs[j]| == |ps[j].rewards|
    ensures Offset(ps, i) + t < |Concat(xs)|
    ensures Concat(xs)[Offset(ps, i) + t] == xs[i][t]
  {
    var rs := RewardsOf(ps);
    assert rs[..i] == RewardsOf(ps[..i]);
    SumLengthsSameShape(xs[..i], rs[..i]);
    ConcatBlock(xs, i, t);
  }

  /** Flat layout: each sequence has the total length of the paths, and
      block i, starting at the total length of the paths before it, holds
      path i's steps in order. */
  lemma FlatLayout(ps: seq<Path>, i: nat, t: nat)
    requires |ps| > 0 && AllProcessed(ps) && SameInfoKeys(ps)
    requires i < |ps| && t < |ps[i].rewards|
    ensures Offset(ps, i) + t < SumLengths(RewardsOf(ps))
    ensures var b := AssembleFlat(ps);
            && b.rewards[Offset(ps, i) + t] == ps[i].rewards[t]
            && b.advantages[Offset(ps, i) + t] == ps[i].advantages.value[t]
            && b.discountedReturns[Offset(ps, i) + t] == ps[i].discountedReturns.value[t]
            && b.observations[Offset(ps, i) + t] == ps[i].observations[t]
            && b.actions[Offset(ps, i) + t] == ps[i].actions[t]
  {
    BlockOf(ps, RewardsOf(ps), i, t);
    BlockOf(ps, AdvantagesOf(ps), i, t);
    BlockOf(ps, ReturnsOf(ps), i, t);
    BlockOf(ps, ObservationsOf(ps), i, t);
    BlockOf(ps, ActionsOf(ps), i, t);
  }

  /** Padded layout: one row per path, each max_path_length long, holding
      the path's values on its real steps and 0 after them; valids is 1
      exactly on the real steps. */
  lemma PaddedLayout(ps: seq<Path>, centerAdv: bool, advStd: real)
    requires |ps| > 0 && AllProcessed(ps) && SameInfoKeys(ps) && advStd >= 0.0
    requires forall i :: 0 <= i < |ps| ==> |ps[i].rewards| > 0
    ensures var b := AssemblePadded(ps, centerAdv, advStd);
            |b.rewards| == |b.discountedReturns| == |b.advantages| == |b.valids| == |ps|
    ensures forall i, t :: 0 <= i < |ps| && 0 <= t < PaddedLength(ps) ==>
              var b := AssemblePadded(ps, centerAdv, advStd);
              && |b.rewards[i]| == |b.discountedReturns[i]| == |b.advantages[i]| == |b.valids[i]| == PaddedLength(ps)
              && b.rewards[i][t] == (if t < |ps[i].rewards| then ps[i].rewards[t] else 0.0)
              && b.discountedReturns[i][t] == (if t < |ps[i].rewards| then ps[i].discountedReturns.value[t] else 0.0)
              && b.valids[i][t] == (if t < |ps[i].rewards| then 1.0 else 0.0)
              && (t >= |ps[i].rewards| ==> b.advantages[i][t] == 0.0)
              && (!centerAdv ==> b.advantages[i][t] == (if t < |ps[i].rewards| then ps[i].advantages.value[t] else 0.0))
    ensures forall i, t :: 0 <= i < |ps| && 0 <= t < PaddedLength(ps) ==>
              var b := AssemblePadded(ps, centerAdv, advStd);
              && |b.observations| == |b.actions| == |ps|
              && |b.observations[i]| == |b.actions[i]| == PaddedLength(ps)
              && b.observations[i][t] == (if t < |ps[i].rewards| then ps[i].observations[t] else 0.0)
              && b.actions[i][t] == (if t < |ps[i].rewards| then ps[i].actions[t] else 0.0)
  {
    FitsPaddedLength(ps);
  }

  /** With centring, a padded advantage is the path's advantage less the
      mean over the real steps of all paths, divided by the standard
      deviation plus 1e-8; padding comes after, so its zeros take no part
      in the mean, and the whole padded array still sums to 0. */
  lemma CenteredPaddedAdvantages(ps: seq<Path>, advStd: real)
    requires |ps| > 0 && AllProcessed(ps) && SameInfoKeys(ps) && advStd >= 0.0
    requires forall i :: 0 <= i < |ps| ==> |ps[i].rewards| > 0
    ensures SumLengths(AdvantagesOf(ps)) > 0
    ensures forall i, t :: 0 <= i < |ps| && 0 <= t < |ps[i].rewards| ==>
              AssemblePadded(ps, true, advStd).advantages[i][t]
              == Standardize(ps[i].advantages.value[t], Mean(Concat(AdvantagesOf(ps))).value, advStd + StdFloor)
    ensures SumRows(AssemblePadded(ps, true, advStd).advantages) == 0.0
  {
    var raw := AdvantagesOf(ps);
    SumLengthsPositive(raw, 0);
    FitsPaddedLength(ps);
    var c := CenteredAdvantages(raw, advStd);
    var n := PaddedLength(ps);
    var b := AssemblePadded(ps, true, advStd);
    assert b.advantages == PadN(c, n);
    CenteredAdvantagesSumToZero(raw, advStd);
    SumConcat(c);
    forall i | 0 <= i < |ps|
      ensures Sum(b.advantages[i]) == Sum(c[i])
    {
      PadKeepsSum(c[i], n);
    }
    SumRowsPointwise(b.advantages, c);
  }

  /** The two layouts hold the same values: entry t of path i sits at
      Offset(i) + t in the flat batch and at [i][t] in the padded one. */
  lemma LayoutsAgree(ps: seq<Path>, advStd: real, i: nat, t: nat)
    requires |ps| > 0 && AllProcessed(ps) && SameInfoKeys(ps) && advStd >= 0.0
    requires forall j :: 0 <= j < |ps| ==> |ps[j].rewards| > 0
    requires i < |ps| && t < |ps[i].rewards|
    ensures Offset(ps, i) + t < SumLengths(RewardsOf(ps))
    ensures var f := AssembleFlat(ps);
            var p := AssemblePadded(ps, false, advStd);
            && t < PaddedLength(ps)
            && f.rewards[Offset(ps, i) + t] == p.rewards[i][t]
            && f.discountedReturns[Offset(ps, i) + t] == p.discountedReturns[i][t]
            && f.advantages[Offset(ps, i) + t] == p.advantages[i][t]
  {
    FlatLayout(ps, i, t);
    PaddedLayout(ps, false, advStd);
    FitsPaddedLength(ps);
  }

  /** Padded entropies equal to the per-path entropies on the real steps
      give the recurrent branch the entropy of the flat branch: the mean
      of the concatenated per-path entropies. */
  lemma RecurrentEntropyIsFlatEntropy(ps: seq<Path>, centerAdv: bool, advStd: real,
                                      ents: seq<seq<real>>, paddedEntropy: seq<seq<real>>)
    requires |ps| > 0 && AllProcessed(ps) && SameInfoKeys(ps) && advStd >= 0.0
    requires forall i :: 0 <= i < |ps| ==> |ps[i].rewards| > 0
    requires |ents| == |ps| && |paddedEntropy| == |ps|
    requires forall i :: 0 <= i < |ps| ==> |ents[i]| == |ps[i].rewards| && |paddedEntropy[i]| == PaddedLength(ps)
    requires forall i, t :: 0 <= i < |ps| && 0 <= t < |ents[i]| && t < |paddedEntropy[i]| ==>
               paddedEntropy[i][t] == ents[i][t]
    ensures PolicyEntropy(true, Concat(ents), paddedEntropy, AssemblePadded(ps, centerAdv, advStd).valids)
            == PolicyEntropy(false, Concat(ents), paddedEntropy, [])
  {
    FitsPaddedLength(ps);
    var n := PaddedLength(ps);
    var b := AssemblePadded(ps, centerAdv, advStd);
    assert b.valids == Valids(ReturnsOf(ps), n);
    var v := Valids(ents, n);
    assert b.valids == v;
    MaskedEntropyMatchesFlat(paddedEntropy, ents, n);
  }

  /** average_discounted_return is the mean over paths of the discounted
      return of each path's rewards. */
  lemma AverageDiscountedReturnIsMean(ps: seq<Path>, baselines: seq<seq<real>>, cfg: Config,
                                      flatEntropy: seq<real>, paddedEntropy: seq<seq<real>>, valids: seq<seq<real>>)
    requires |ps| > 0 && AllProcessed(ps)
    requires forall i :: 0 <= i < |ps| ==>
               |ps[i].rewards| > 0 && ps[i].discountedReturns == Some(DiscountCumsum(ps[i].rewards, cfg.discount))
    requires cfg.recurrent ==> forall i :: 0 <= i < |ps| ==> ps[i].envReturns.Some?
    requires cfg.recurrent ==>
               |paddedEntropy| == |valids| && forall i :: 0 <= i < |valids| ==> |paddedEntropy[i]| == |valids[i]|
    requires !cfg.recurrent ==> |flatEntropy| == SumLengths(RewardsOf(ps))
    ensures Some(Summaries(ps, baselines, cfg, flatEntropy, paddedEntropy, valids).averageDiscountedReturn)
            == Mean(PathDiscountedReturns(ps, cfg.discount))
  {
    StartReturnsAreDiscountedReturns(ps, cfg.discount);
  }

  /** average_discounted_env_return is the mean, over the paths that have
      env_rewards, of the discounted return of those env rewards, in both
      branches; average_env_return is the same mean at discount 1. */
  lemma AverageEnvReturnsAreMeans(ps: seq<Path>, baselines: seq<seq<real>>, cfg: Config,
                                  flatEntropy: seq<real>, paddedEntropy: seq<seq<real>>, valids: seq<seq<real>>)
    requires |ps| > 0 && AllProcessed(ps)
    requires forall i :: 0 <= i < |ps| ==> |ps[i].rewards| > 0
    requires cfg.recurrent ==> forall i :: 0 <= i < |ps| ==> ps[i].envReturns.Some?
    requires cfg.recurrent ==>
               |paddedEntropy| == |valids| && forall i :: 0 <= i < |valids| ==> |paddedEntropy[i]| == |valids[i]|
    requires !cfg.recurrent ==> |flatEntropy| == SumLengths(RewardsOf(ps))
    requires EnvReturnsWritten(ps, cfg.discount)
    ensures Summaries(ps, baselines, cfg, flatEntropy, paddedEntropy, valids).averageDiscountedEnvReturn
            == Mean(PathDiscountedEnvReturns(ps, cfg.discount))
    ensures Summaries(ps, baselines, cfg, flatEntropy, paddedEntropy, valids).averageEnvReturn
            == Mean(PathDiscountedEnvReturns(ps, 1.0))
  {
    EnvStartReturnsAreDiscountedEnvReturns(ps, cfg.discount);
    if cfg.recurrent {
      EnvStartReturnsWhenAllPresent(ps);
    }
    UndiscountedEnvMatchesUnitDiscount(ps);
  }

  /** Fresh paths (no env_returns yet) leave the per-path loop with the
      env returns EnvReturnsWritten describes. */
  lemma LoopWritesEnvReturns(before: seq<Path>, after: seq<Path>, predictions: seq<seq<real>>,
                             discount: real, gaeLambda: real)
    requires |before| == |after| == |predictions|
    requires forall i :: 0 <= i < |before| ==>
               && WellFormed(before[i]) && |before[i].rewards| > 0 && before[i].envReturns.None?
               && |predictions[i]| == |before[i].rewards|
               && after[i] == EstimatePath(before[i], predictions[i], discount, gaeLambda)
    ensures EnvReturnsWritten(after, discount)
  {
    forall i | 0 <= i < |after|
      ensures if after[i].envRewards.Some?
              then |after[i].envRewards.value| > 0
                   && after[i].envReturns == Some(DiscountCumsum(after[i].envRewards.value, discount))
              else after[i].envReturns.None?
    {
      EstimatePathFields(before[i], predictions[i], discount, gaeLambda);
    }
  }

  /** process_samples: the per-path loop writes advantages and returns into
      the paths (even when assembly then raises), and the result is the
      assembly of the processed paths. Baseline predictions and the policy
      entropies are inputs, as is the standard deviation of the raw
      advantages used by recurrent centring. */
  method ProcessSamples(paths: array<Path>, predictions: seq<seq<real>>, cfg: Config, advStd: real,
                        flatEntropy: seq<real>, paddedEntropy: seq<seq<real>>)
    returns (r: Result<Samples, Error>)
    requires |predictions| == paths.Length
    requires forall i :: 0 <= i < paths.Length ==> |predictions[i]| == |paths[i].rewards|
    requires AllWellFormed(paths[..]) && SameInfoKeys(paths[..]) && advStd >= 0.0
    requires cfg.recurrent ==>
               |paddedEntropy| == paths.Length &&
               forall i :: 0 <= i < paths.Length ==> |paddedEntropy[i]| == MaxLength(RewardsOf(paths[..]))
    requires !cfg.recurrent ==> |flatEntropy| == SumLengths(RewardsOf(paths[..]))
    modifies paths
    ensures forall i :: 0 <= i < paths.Length ==>
              paths[i] == EstimatePath(old(paths[i]), predictions[i], cfg.discount, cfg.gaeLambda)
    ensures AllProcessed(paths[..]) && SameInfoKeys(paths[..])
    ensures RewardsOf(paths[..]) == old(RewardsOf(paths[..]))
    ensures r == Assemble(paths[..], predictions, cfg, advStd, flatEntropy, paddedEntropy)
  {
    ghost var before := paths[..];
    var baselines, pathReturns := EstimateAll(paths, predictions, cfg.discount, cfg.gaeLambda);
    forall i | 0 <= i < paths.Length
      ensures Processed(paths[i]) && paths[i].rewards == before[i].rewards
      ensures paths[i].agentInfos == before[i].agentInfos && paths[i].envInfos == before[i].envInfos
    {
      EstimatePreservesWellFormed(before[i], predictions[i], cfg.discount, cfg.gaeLambda);
    }
    assert RewardsOf(paths[..]) == RewardsOf(before);
    r := Assemble(paths[..], baselines, cfg, advStd, flatEntropy, paddedEntropy);
  }

  /** A freshly collected path with the given rewards, zero observations
      and actions, no infos and no env_rewards. */
  function ScenarioPath(rewards: seq<real>): Path
  {
    Path(Zeros(|rewards|), Zeros(|rewards|), rewards, map[], map[], None, None, None, None)
  }

  lemma ScenarioCumsums()
    ensures DiscountCumsum([1.0, 1.0, 1.0], 1.0) == [3.0, 2.0, 1.0]
    ensures DiscountCumsum([2.0, 0.0], 1.0) == [2.0, 0.0]
  {
    var one := DiscountCumsum([1.0], 1.0);
    assert [1.0][1..] == [];
    assert one == [Backup(1.0, 1.0, 0.0)];
    var two := DiscountCumsum([1.0, 1.0], 1.0);
    assert [1.0, 1.0][1..] == [1.0];
    assert two == [Backup(1.0, 1.0, 1.0)] + one;
    assert [1.0, 1.0, 1.0][1..] == [1.0, 1.0];
    assert DiscountCumsum([1.0, 1.0, 1.0], 1.0) == [Backup(1.0, 1.0, 2.0)] + two;
    var zero := DiscountCumsum([0.0], 1.0);
    assert [0.0][1..] == [];
    assert zero == [Backup(0.0, 1.0, 0.0)];
    assert [2.0, 0.0][1..] == [0.0];
    assert DiscountCumsum([2.0, 0.0], 1.0) == [Backup(2.0, 1.0, 0.0)] + zero;
  }

  /** A fresh path under a zero baseline, discount 1 and gae_lambda 1:
      the returns are the undiscounted suffix sums and the advantages
      equal them. */
  lemma ZeroBaselinePath(p: Path, prediction: seq<real>, expected: seq<real>)
    requires |prediction| == |p.rewards| && p.envRewards.None?
    requires forall t :: 0 <= t < |prediction| ==> prediction[t] == 0.0
    requires DiscountCumsum(p.rewards, 1.0) == expected
    ensures var q := EstimatePath(p, prediction, 1.0, 1.0);
            && q.rewards == p.rewards && q.envReturns == p.envReturns
            && q.discountedReturns == Some(expected) && q.advantages == q.discountedReturns
  {
    ZeroBaselineAdvantagesAreReturns(p, prediction, 1.0);
  }

  /** The two paths of the scenario after the per-path loop. */
  predicate ScenarioProcessed(ps: seq<Path>)
  {
    && |ps| == 2 && AllProcessed(ps) && SameInfoKeys(ps)
    && ps[0].rewards == [1.0, 1.0, 1.0] && ps[1].rewards == [2.0, 0.0]
    && ps[0].discountedReturns == Some([3.0, 2.0, 1.0]) && ps[1].discountedReturns == Some([2.0, 0.0])
    && ps[0].advantages == ps[0].discountedReturns && ps[1].advantages == ps[1].discountedReturns
    && ps[0].envReturns.None? && ps[1].envReturns.None?
  }

  lemma ConcatPair(a: seq<real>, b: seq<real>)
    ensures Concat([a, b]) == a + b
  {
    assert [a, b][1..] == [b];
    assert [b][1..] == [];
  }

  /** Non-recurrent batch of the scenario: rewards [1, 1, 1, 2, 0], returns
      and advantages [3, 2, 1, 2, 0], average discounted return 2.5. */
  lemma ScenarioFlat(ps: seq<Path>, baselines: seq<seq<real>>, cfg: Config, flatEntropy: seq<real>)
    requires ScenarioProcessed(ps) && !cfg.recurrent && !cfg.centerAdv
    requires |flatEntropy| == SumLengths(RewardsOf(ps))
    ensures var r := Assemble(ps, baselines, cfg, 0.0, flatEntropy, []);
            && r.Success? && r.value.data.Flat?
            && r.value.data.flat.rewards == [1.0, 1.0, 1.0, 2.0, 0.0]
            && r.value.data.flat.discountedReturns == [3.0, 2.0, 1.0, 2.0, 0.0]
            && r.value.data.flat.advantages == [3.0, 2.0, 1.0, 2.0, 0.0]
            && r.value.stats.averageDiscountedReturn == 2.5
            && r.value.stats.entropy == Mean(flatEntropy)
  {
    assert Failing(ps, false).None?;
    ScenarioFlatBatch(ps);
    ScenarioAverage(ps, baselines, cfg, flatEntropy);
  }

  /** The flat sequences of the scenario. */
  lemma ScenarioFlatBatch(ps: seq<Path>)
    requires ScenarioProcessed(ps)
    ensures var b := AssembleFlat(ps);
            && b.rewards == [1.0, 1.0, 1.0, 2.0, 0.0]
            && b.discountedReturns == [3.0, 2.0, 1.0, 2.0, 0.0]
            && b.advantages == [3.0, 2.0, 1.0, 2.0, 0.0]
  {
    assert RewardsOf(ps) == [[1.0, 1.0, 1.0], [2.0, 0.0]];
    assert ReturnsOf(ps) == [[3.0, 2.0, 1.0], [2.0, 0.0]];
    assert AdvantagesOf(ps) == [[3.0, 2.0, 1.0], [2.0, 0.0]];
    ConcatPair([1.0, 1.0, 1.0], [2.0, 0.0]);
    ConcatPair([3.0, 2.0, 1.0], [2.0, 0.0]);
  }

  /** The average discounted return of the scenario, (3 + 2) / 2. */
  lemma ScenarioAverage(ps: seq<Path>, baselines: seq<seq<real>>, cfg: Config, flatEntropy: seq<real>)
    requires ScenarioProcessed(ps) && !cfg.recurrent
    requires |flatEntropy| == SumLengths(RewardsOf(ps))
    ensures Summaries(ps, baselines, cfg, flatEntropy, [], []).averageDiscountedReturn == 2.5
  {
    assert Heads(ReturnsOf(ps)) == [3.0, 2.0];
    assert Sum([3.0, 2.0]) == 5.0 by {
      assert [3.0, 2.0][1..] == [2.0];
      assert [2.0][1..] == [];
    }
  }

  /** Recurrent layout of the scenario: padded rewards [[1, 1, 1], [2, 0, 0]]
      with valids [[1, 1, 1], [1, 1, 0]]. */
  lemma ScenarioPadded(ps: seq<Path>)
    requires ScenarioProcessed(ps)
    ensures var b := AssemblePadded(ps, false, 0.0);
            && b.rewards == [[1.0, 1.0, 1.0], [2.0, 0.0, 0.0]]
            && b.valids == [[1.0, 1.0, 1.0], [1.0, 1.0, 0.0]]
  {
    assert AdvantagesOf(ps) == [[3.0, 2.0, 1.0], [2.0, 0.0]];
    assert [[3.0, 2.0, 1.0], [2.0, 0.0]][1..] == [[2.0, 0.0]];
    assert MaxLength([[2.0, 0.0]]) == 2;
    assert PaddedLength(ps) == 3;
    PaddedLayout(ps, false, 0.0);
    var b := AssemblePadded(ps, false, 0.0);
    assert b.rewards[0] == [1.0, 1.0, 1.0];
    assert b.rewards[1] == [2.0, 0.0, 0.0];
    assert b.valids[0] == [1.0, 1.0, 1.0];
    assert b.valids[1] == [1.0, 1.0, 0.0];
  }

  /** Per-step policy entropies of the scenario's five steps. */
  const Entropies: seq<real> := [0.5, 0.5, 0.5, 0.5, 0.5]

  lemma EntropiesMean()
    ensures Mean(Entropies) == Some(0.5)
  {
    assert Sum(Entropies) == 2.5 by {
      assert Entropies[1..] == [0.5, 0.5, 0.5, 0.5];
      assert Entropies[2..] == [0.5, 0.5, 0.5];
      assert Entropies[3..] == [0.5, 0.5];
      assert Entropies[4..] == [0.5];
      assert Entropies[5..] == [];
    }
  }

  /** The scenario through process_samples with a non-recurrent policy. */
  method ScenarioRun() returns (r: Result<Samples, Error>)
    ensures r.Success? && r.value.data.Flat?
    ensures r.value.data.flat.rewards == [1.0, 1.0, 1.0, 2.0, 0.0]
    ensures r.value.data.flat.discountedReturns == [3.0, 2.0, 1.0, 2.0, 0.0]
    ensures r.value.data.flat.advantages == r.value.data.flat.discountedReturns
    ensures r.value.stats.averageDiscountedReturn == 2.5
    ensures r.value.stats.entropy == Some(0.5)
  {
    var paths := ScenarioArray();
    ghost var fresh0, fresh1 := paths[0], paths[1];
    r := ProcessSamples(paths, [[0.0, 0.0, 0.0], [0.0, 0.0]], Config(1.0, 1.0, false, false), 0.0, Entropies, []);
    ScenarioLoop(paths[..], fresh0, fresh1);
    ScenarioFailing(paths[..]);
    ScenarioFlat(paths[..], [[0.0, 0.0, 0.0], [0.0, 0.0]], Config(1.0, 1.0, false, false), Entropies);
    EntropiesMean();
  }

  /** The same paths with a recurrent policy: the padded layout is built,
      but the recurrent branch raises because the paths carry no
      env_returns. */
  method ScenarioRunRecurrent() returns (r: Result<Samples, Error>)
    ensures r == Failure(MissingEnvReturns)
  {
    var paths := ScenarioArray();
    ghost var fresh0, fresh1 := paths[0], paths[1];
    r := ProcessSamples(paths, [[0.0, 0.0, 0.0], [0.0, 0.0]], Config(1.0, 1.0, false, true), 0.0, [],
                        [[0.0, 0.0, 0.0], [0.0, 0.0, 0.0]]);
    ScenarioLoop(paths[..], fresh0, fresh1);
    ScenarioFailing(paths[..]);
  }

  /** The scenario raises only in the recurrent branch, on the missing
      env_returns. */
  lemma ScenarioFailing(ps: seq<Path>)
    requires ScenarioProcessed(ps)
    ensures Failing(ps, false) == None
    ensures Failing(ps, true) == Some(MissingEnvReturns)
  {
    assert |ps[0].rewards| == 3 && |ps[1].rewards| == 2;
  }

  method ScenarioArray() returns (paths: array<Path>)
    ensures fresh(paths) && paths.Length == 2
    ensures paths[0] == ScenarioPath([1.0, 1.0, 1.0]) && paths[1] == ScenarioPath([2.0, 0.0])
    ensures AllWellFormed(paths[..]) && SameInfoKeys(paths[..])
    ensures MaxLength(RewardsOf(paths[..])) == 3
    ensures SumLengths(RewardsOf(paths[..])) == 5
  {
    paths := new Path[2];
    paths[0] := ScenarioPath([1.0, 1.0, 1.0]);
    paths[1] := ScenarioPath([2.0, 0.0]);
    assert RewardsOf(paths[..]) == [[1.0, 1.0, 1.0], [2.0, 0.0]];
    assert [[1.0, 1.0, 1.0], [2.0, 0.0]][1..] == [[2.0, 0.0]];
    assert MaxLength([[2.0, 0.0]]) == 2;
    assert [[2.0, 0.0]][1..] == [];
  }

  /** What the per-path loop makes of the scenario's two fresh paths. */
  lemma ScenarioLoop(ps: seq<Path>, a: Path, b: Path)
    requires a.rewards == [1.0, 1.0, 1.0] && a.envRewards.None? && a.envReturns.None?
    requires b.rewards == [2.0, 0.0] && b.envRewards.None? && b.envReturns.None?
    requires |ps| == 2 && AllProcessed(ps) && SameInfoKeys(ps)
    requires ps[0] == EstimatePath(a, [0.0, 0.0, 0.0], 1.0, 1.0)
    requires ps[1] == EstimatePath(b, [0.0, 0.0], 1.0, 1.0)
    ensures ScenarioProcessed(ps)
  {
    ScenarioPathA(a);
    ScenarioPathB(b);
  }

  lemma ScenarioPathA(a: Path)
    requires a.rewards == [1.0, 1.0, 1.0] && a.envRewards.None?
    ensures var q := EstimatePath(a, [0.0, 0.0, 0.0], 1.0, 1.0);
            && q.rewards == a.rewards && q.envReturns == a.envReturns
            && q.discountedReturns == Some([3.0, 2.0, 1.0]) && q.advantages == q.discountedReturns
  {
    assert DiscountCumsum(a.rewards, 1.0) == [3.0, 2.0, 1.0] by {
      ScenarioCumsums();
    }
    ZeroBaselinePath(a, [0.0, 0.0, 0.0], [3.0, 2.0, 1.0]);
  }

  lemma ScenarioPathB(b: Path)
    requires b.rewards == [2.0, 0.0] && b.envRewards.None?
    ensures var q := EstimatePath(b, [0.0, 0.0], 1.0, 1.0);
            && q.rewards == b.rewards && q.envReturns == b.envReturns
            && q.discountedReturns == Some([2.0, 0.0]) && q.advantages == q.discountedReturns
  {
    assert DiscountCumsum(b.rewards, 1.0) == [2.0, 0.0] by {
      ScenarioCumsums();
    }
    ZeroBaselinePath(b, [0.0, 0.0], [2.0, 0.0]);
  }
}
