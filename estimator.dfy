/** The per-path estimation loop of process_samples: bootstrap the baseline
    predictions with a terminal 0, form the TD residuals, and write the GAE
    advantages, the discounted returns and, when the path has env_rewards,
    the discounted env returns into the path. */
module AdvantageEstimator {
  import opened Wrappers
  import opened DiscountedCumSum
  import opened Paths

  /** np.append(prediction, 0): the value after the last step is taken to
      be 0. */
  function Bootstrap(v: seq<real>): (vb: seq<real>)
    ensures |vb| == |v| + 1
    ensures vb[|v|] == 0.0
    ensures vb[..|v|] == v
  {
    v + [0.0]
  }

  /** The TD residuals rewards + discount * vb[1:] - vb[:-1], one step at a
      time: the reward plus the discounted next value, minus this value. */
  function Deltas(rewards: seq<real>, vb: seq<real>, discount: real): (d: seq<real>)
    requires |vb| == |rewards| + 1
    ensures |d| == |rewards|
    decreases |rewards|
  {
    if rewards == [] then []
    else [Backup(rewards[0], discount, vb[1]) - vb[0]] + Deltas(rewards[1..], vb[1..], discount)
  }

  /** Residual t is rewards[t] + discount * vb[t+1] - vb[t]. */
  lemma {:induction false} DeltasAt(rewards: seq<real>, vb: seq<real>, discount: real, t: nat)
    requires |vb| == |rewards| + 1 && t < |rewards|
    ensures Deltas(rewards, vb, discount)[t] == rewards[t] + discount * vb[t + 1] - vb[t]
    decreases t
  {
    if t > 0 {
      DeltasAt(rewards[1..], vb[1..], discount, t - 1);
      assert vb[1..][t] == vb[t + 1];
    }
  }

  /** The factor of the advantage cumsum, discount * gae_lambda. */
  function GaeFactor(discount: real, gaeLambda: real): real
  {
    discount * gaeLambda
  }

  /** The GAE advantages of one path: the cumsum of its residuals with
      factor discount * gae_lambda. */
  function GaeAdvantages(rewards: seq<real>, prediction: seq<real>, discount: real, gaeLambda: real): (adv: seq<real>)
    requires |prediction| == |rewards|
    ensures |adv| == |rewards|
  {
    DiscountCumsum(Deltas(rewards, Bootstrap(prediction), discount), GaeFactor(discount, gaeLambda))
  }

  /** The body of the loop for one path and its baseline prediction. */
  function EstimatePath(p: Path, prediction: seq<real>, discount: real, gaeLambda: real): (q: Path)
    requires |prediction| == |p.rewards|
    ensures q.advantages.Some? && |q.advantages.value| == |p.rewards|
    ensures q.discountedReturns.Some? && |q.discountedReturns.value| == |p.rewards|
    // env_returns is written exactly when the path has env_rewards
    ensures p.envRewards.Some? ==>
              q.envReturns.Some? && |q.envReturns.value| == |p.envRewards.value|
    ensures p.envRewards.None? ==> q.envReturns == p.envReturns
  {
    p.(advantages := Some(GaeAdvantages(p.rewards, prediction, discount, gaeLambda)),
       discountedReturns := Some(DiscountCumsum(p.rewards, discount)),
       envReturns := if p.envRewards.Some? then Some(DiscountCumsum(p.envRewards.value, discount))
                     else p.envReturns)
  }

  /** What the loop writes into a path, field by field: the advantages, the
      returns, env_returns when there are env_rewards, and nothing else. */
  lemma EstimatePathFields(p: Path, prediction: seq<real>, discount: real, gaeLambda: real)
    requires |prediction| == |p.rewards|
    ensures var q := EstimatePath(p, prediction, discount, gaeLambda);
            && q.advantages == Some(GaeAdvantages(p.rewards, prediction, discount, gaeLambda))
            && q.discountedReturns == Some(DiscountCumsum(p.rewards, discount))
            && (p.envRewards.Some? ==> q.envReturns == Some(DiscountCumsum(p.envRewards.value, discount)))
            && q.(advantages := p.advantages, discountedReturns := p.discountedReturns,
                  envReturns := p.envReturns) == p
  {
  }

  /** Processing keeps a well-formed path well formed and gives it
      advantages and returns. */
  lemma EstimatePreservesWellFormed(p: Path, prediction: seq<real>, discount: real, gaeLambda: real)
    requires |prediction| == |p.rewards|
    requires WellFormed(p)
    ensures Processed(EstimatePath(p, prediction, discount, gaeLambda))
  {
  }

  /** One iteration of the loop: the processed path, and the baselines kept
      for the diagnostics (the bootstrapped values without the final 0). */
  method EstimateOne(p: Path, prediction: seq<real>, discount: real, gaeLambda: real)
    returns (q: Path, pathBaselines: seq<real>)
    requires |prediction| == |p.rewards|
    ensures q == EstimatePath(p, prediction, discount, gaeLambda)
    ensures pathBaselines == prediction
  {
    var bootstrapped := Bootstrap(prediction);
    var deltas := Deltas(p.rewards, bootstrapped, discount);
    var adv := DiscountCumsumLoop(deltas, GaeFactor(discount, gaeLambda));
    var ret := DiscountCumsumLoop(p.rewards, discount);
    q := p.(advantages := Some(adv), discountedReturns := Some(ret));
    if p.envRewards.Some? {
      var envRet := DiscountCumsumLoop(p.envRewards.value, discount);
      q := q.(envReturns := Some(envRet));
    }
    pathBaselines := bootstrapped[..|bootstrapped| - 1];
  }

  lemma ReturnsOfSnoc(ps: seq<Path>, q: Path)
    requires forall i :: 0 <= i < |ps| ==> ps[i].discountedReturns.Some?
    requires q.discountedReturns.Some?
    ensures ReturnsOf(ps + [q]) == ReturnsOf(ps) + [q.discountedReturns.value]
  {
  }

  /** The loop over the paths (process_samples lines 60-74). Path i is
      replaced by its processed form; the lists handed to the diagnostics
      are the baselines without the bootstrap value and the returns. */
  method EstimateAll(paths: array<Path>, predictions: seq<seq<real>>, discount: real, gaeLambda: real)
    returns (baselines: seq<seq<real>>, pathReturns: seq<seq<real>>)
    requires |predictions| == paths.Length
    requires forall i :: 0 <= i < paths.Length ==> |predictions[i]| == |paths[i].rewards|
    modifies paths
    ensures forall i :: 0 <= i < paths.Length ==>
              paths[i] == EstimatePath(old(paths[i]), predictions[i], discount, gaeLambda)
    ensures forall i :: 0 <= i < paths.Length ==> paths[i].discountedReturns.Some?
    ensures baselines == predictions
    ensures pathReturns == ReturnsOf(paths[..])
  {
    baselines, pathReturns := [], [];
    ghost var orig := paths[..];
    ghost var target := seq(paths.Length, j requires 0 <= j < paths.Length =>
                              EstimatePath(orig[j], predictions[j], discount, gaeLambda));
    var i := 0;
    while i < paths.Length
      invariant 0 <= i <= paths.Length
      invariant paths[..i] == target[..i]
      invariant paths[i..] == orig[i..]
      invariant baselines == predictions[..i]
      invariant pathReturns == ReturnsOf(target[..i])
    {
      var q, pathBaselines := EstimateOne(paths[i], predictions[i], discount, gaeLambda);
      assert paths[i] == orig[i];
      assert q == target[i];
      baselines := baselines + [pathBaselines];
      pathReturns := pathReturns + [q.discountedReturns.value];
      paths[i] := q;
      assert target[..i + 1] == target[..i] + [q];
      assert paths[..i + 1] == target[..i + 1];
      assert paths[i + 1..] == orig[i + 1..];
      ReturnsOfSnoc(target[..i], q);
      assert predictions[..i + 1] == predictions[..i] + [predictions[i]];
      i := i + 1;
    }
    assert paths[..] == target;
    assert predictions[..paths.Length] == predictions;
  }

  /** One step of the GAE recurrence, at t before the last step. */
  lemma AdvantageStep(rewards: seq<real>, prediction: seq<real>, discount: real, gaeLambda: real, t: nat)
    requires |prediction| == |rewards| && t + 1 < |rewards|
    ensures GaeAdvantages(rewards, prediction, discount, gaeLambda)[t]
            == (rewards[t] + discount * prediction[t + 1] - prediction[t])
               + discount * gaeLambda * GaeAdvantages(rewards, prediction, discount, gaeLambda)[t + 1]
  {
    var vb := Bootstrap(prediction);
    var deltas := Deltas(rewards, vb, discount);
    DiscountCumsumStep(deltas, GaeFactor(discount, gaeLambda), t);
    DeltasAt(rewards, vb, discount, t);
    assert vb[t] == prediction[t] && vb[t + 1] == prediction[t + 1];
  }

  /** The last advantage is the last residual, whose next value is 0. */
  lemma AdvantageLast(rewards: seq<real>, prediction: seq<real>, discount: real, gaeLambda: real)
    requires |prediction| == |rewards| > 0
    ensures GaeAdvantages(rewards, prediction, discount, gaeLambda)[|rewards| - 1]
            == rewards[|rewards| - 1] - prediction[|rewards| - 1]
  {
    var n := |rewards|;
    var vb := Bootstrap(prediction);
    var deltas := Deltas(rewards, vb, discount);
    DiscountCumsumLast(deltas, GaeFactor(discount, gaeLambda));
    DeltasAt(rewards, vb, discount, n - 1);
    assert vb[n - 1] == prediction[n - 1] && vb[n] == 0.0;
    assert discount * vb[n] == 0.0;
  }

  /** Advantages follow the GAE backward recurrence: the last one is the
      last residual rewards[T-1] - v[T-1], and each earlier one adds
      discount * gae_lambda times the next. */
  lemma AdvantagesRecurrence(rewards: seq<real>, prediction: seq<real>, discount: real, gaeLambda: real)
    requires |prediction| == |rewards| > 0
    ensures var adv := GaeAdvantages(rewards, prediction, discount, gaeLambda);
            var n := |rewards|;
            && adv[n - 1] == rewards[n - 1] - prediction[n - 1]
            && forall t :: 0 <= t < n - 1 ==>
                 adv[t] == (rewards[t] + discount * prediction[t + 1] - prediction[t])
                           + discount * gaeLambda * adv[t + 1]
  {
    var adv := GaeAdvantages(rewards, prediction, discount, gaeLambda);
    AdvantageLast(rewards, prediction, discount, gaeLambda);
    forall t | 0 <= t < |rewards| - 1
      ensures adv[t] == (rewards[t] + discount * prediction[t + 1] - prediction[t])
                        + discount * gaeLambda * adv[t + 1]
    {
      AdvantageStep(rewards, prediction, discount, gaeLambda, t);
    }
  }

  /** Returns follow the discounted backward recurrence over the rewards,
      and the first return is the discounted return of the whole path. */
  lemma ReturnsRecurrence(rewards: seq<real>, discount: real)
    requires |rewards| > 0
    ensures DiscountCumsum(rewards, discount)[|rewards| - 1] == rewards[|rewards| - 1]
    ensures forall t {:trigger rewards[t]} :: 0 <= t < |rewards| - 1 ==>
              DiscountCumsum(rewards, discount)[t]
              == rewards[t] + discount * DiscountCumsum(rewards, discount)[t + 1]
    ensures DiscountCumsum(rewards, discount)[0] == DiscountedReturn(rewards, discount)
  {
    var ret := DiscountCumsum(rewards, discount);
    DiscountCumsumLast(rewards, discount);
    ReturnsStep(rewards, discount);
    StartIsDiscountedReturn(rewards, discount);
    assert HeadOrZero(ret) == ret[0];
  }

  /** Every step before the last of the returns recurrence. */
  lemma ReturnsStep(rewards: seq<real>, discount: real)
    ensures forall t {:trigger rewards[t]} :: 0 <= t < |rewards| - 1 ==>
              DiscountCumsum(rewards, discount)[t]
              == rewards[t] + discount * DiscountCumsum(rewards, discount)[t + 1]
  {
    forall t {:trigger rewards[t]} | 0 <= t < |rewards| - 1
      ensures DiscountCumsum(rewards, discount)[t]
              == rewards[t] + discount * DiscountCumsum(rewards, discount)[t + 1]
    {
      DiscountCumsumStep(rewards, discount, t);
    }
  }

  /** With gae_lambda = 1 the discounted residuals telescope: the cumsum of
      the residuals is the cumsum of the rewards minus the baseline. */
  lemma {:induction false} ResidualsTelescope(r: seq<real>, vb: seq<real>, g: real)
    requires |vb| == |r| + 1 && vb[|r|] == 0.0
    ensures forall t :: 0 <= t < |r| ==>
              DiscountCumsum(Deltas(r, vb, g), g)[t] == DiscountCumsum(r, g)[t] - vb[t]
    decreases |r|
  {
    if r != [] {
      var d := Deltas(r, vb, g);
      var d' := Deltas(r[1..], vb[1..], g);
      assert d == [Backup(r[0], g, vb[1]) - vb[0]] + d';
      ResidualsTelescope(r[1..], vb[1..], g);
      var hd := HeadOrZero(DiscountCumsum(d', g));
      var hr := HeadOrZero(DiscountCumsum(r[1..], g));
      assert hd == hr - vb[1] by {
        if |r| > 1 {
          assert hd == DiscountCumsum(d', g)[0];
        }
      }
      assert d[1..] == d';
      assert DiscountCumsum(d, g) == [Backup(d[0], g, hd)] + DiscountCumsum(d', g);
      assert DiscountCumsum(r, g) == [Backup(r[0], g, hr)] + DiscountCumsum(r[1..], g);
      TelescopeHead(r[0], vb[0], vb[1], g, hd, hr);
      forall t | 0 <= t < |r|
        ensures DiscountCumsum(d, g)[t] == DiscountCumsum(r, g)[t] - vb[t]
      {
        if t > 0 {
          assert DiscountCumsum(d, g)[t] == DiscountCumsum(d', g)[t - 1];
          assert DiscountCumsum(r, g)[t] == DiscountCumsum(r[1..], g)[t - 1];
        }
      }
    }
  }

  /** The first step of the telescoping: the residual's backup of the next
      value minus its baseline is the reward's backup minus this baseline. */
  lemma TelescopeHead(r0: real, v0: real, v1: real, g: real, hd: real, hr: real)
    requires hd == hr - v1
    ensures Backup(Backup(r0, g, v1) - v0, g, hd) == Backup(r0, g, hr) - v0
  {
    assert g * (hr - v1) == g * hr - g * v1;
  }

  /** With gae_lambda = 1 each advantage is the return minus the baseline
      prediction at that step. */
  lemma AdvantagesAtLambdaOne(rewards: seq<real>, prediction: seq<real>, discount: real)
    requires |prediction| == |rewards|
    ensures forall t :: 0 <= t < |rewards| ==>
              GaeAdvantages(rewards, prediction, discount, 1.0)[t]
              == DiscountCumsum(rewards, discount)[t] - prediction[t]
  {
    var vb := Bootstrap(prediction);
    assert GaeFactor(discount, 1.0) == discount;
    ResidualsTelescope(rewards, vb, discount);
    forall t | 0 <= t < |rewards|
      ensures vb[t] == prediction[t]
    {
    }
  }

  /** A zero baseline with gae_lambda = 1 makes the advantages the returns. */
  lemma ZeroBaselineAdvantagesAreReturns(p: Path, prediction: seq<real>, discount: real)
    requires |prediction| == |p.rewards|
    requires forall t :: 0 <= t < |prediction| ==> prediction[t] == 0.0
    ensures var q := EstimatePath(p, prediction, discount, 1.0);
            q.advantages == q.discountedReturns
  {
    AdvantagesAtLambdaOne(p.rewards, prediction, discount);
    assert GaeAdvantages(p.rewards, prediction, discount, 1.0) == DiscountCumsum(p.rewards, discount);
  }

  /** With gae_lambda = 0 the advantages are the one-step residuals. */
  lemma AdvantagesAtLambdaZero(rewards: seq<real>, prediction: seq<real>, discount: real)
    requires |prediction| == |rewards|
    ensures var adv := GaeAdvantages(rewards, prediction, discount, 0.0);
            forall t :: 0 <= t < |rewards| ==>
              adv[t] == rewards[t] + discount * Bootstrap(prediction)[t + 1] - prediction[t]
  {
    var d := Deltas(rewards, Bootstrap(prediction), discount);
    assert GaeFactor(discount, 0.0) == 0.0;
    UndiscountedIsIdentity(d);
    BootstrappedResiduals(rewards, prediction, discount);
  }

  /** Residual t of the bootstrapped predictions, at every step. */
  lemma BootstrappedResiduals(rewards: seq<real>, prediction: seq<real>, discount: real)
    requires |prediction| == |rewards|
    ensures var vb := Bootstrap(prediction);
            forall t :: 0 <= t < |rewards| ==>
              Deltas(rewards, vb, discount)[t] == rewards[t] + discount * vb[t + 1] - prediction[t]
  {
    var vb := Bootstrap(prediction);
    forall t | 0 <= t < |rewards|
      ensures Deltas(rewards, vb, discount)[t] == rewards[t] + discount * vb[t + 1] - prediction[t]
    {
      DeltasAt(rewards, vb, discount, t);
      assert vb[t] == prediction[t];
    }
  }

  /** On a freshly collected path (no env_returns yet), env_returns is
      attached if and only if the path has env_rewards. */
  lemma EnvReturnsIffEnvRewards(p: Path, prediction: seq<real>, discount: real, gaeLambda: real)
    requires |prediction| == |p.rewards|
    requires p.envReturns.None?
    ensures EstimatePath(p, prediction, discount, gaeLambda).envReturns.Some? <==> p.envRewards.Some?
  {
  }
}
