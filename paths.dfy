/** One trajectory as process_samples sees it: the fields the rollout
    collects, plus the fields process_samples writes into it. */
module Paths {
  import opened Wrappers
  import opened TensorOps

  /** A path dictionary. Observations and actions are taken one number per
      step; envRewards is the optional second reward channel (env_rewards);
      advantages, discountedReturns (the dictionary's "returns") and
      envReturns (env_returns) are absent until the path is processed. */
  datatype Path = Path(
    observations: seq<real>,
    actions: seq<real>,
    rewards: seq<real>,
    agentInfos: Info,
    envInfos: Info,
    envRewards: Option<seq<real>>,
    advantages: Option<seq<real>>,
    discountedReturns: Option<seq<real>>,
    envReturns: Option<seq<real>>)

  predicate Shaped(info: Info, n: nat)
  {
    forall k :: k in info ==> |info[k]| == n
  }

  predicate HasLength(s: Option<seq<real>>, n: nat)
  {
    s.Some? ==> |s.value| == n
  }

  /** Every sequence attached to the path has the path's own length T, the
      length of its rewards. */
  predicate WellFormed(p: Path)
  {
    var n := |p.rewards|;
    && |p.observations| == n
    && |p.actions| == n
    && Shaped(p.agentInfos, n)
    && Shaped(p.envInfos, n)
    && HasLength(p.envRewards, n)
    && HasLength(p.advantages, n)
    && HasLength(p.discountedReturns, n)
    && HasLength(p.envReturns, n)
  }

  /** A well-formed path that carries advantages and returns. */
  predicate Processed(p: Path)
  {
    WellFormed(p) && p.advantages.Some? && p.discountedReturns.Some?
  }

  predicate AllWellFormed(ps: seq<Path>)
  {
    forall i :: 0 <= i < |ps| ==> WellFormed(ps[i])
  }

  predicate AllProcessed(ps: seq<Path>)
  {
    forall i :: 0 <= i < |ps| ==> Processed(ps[i])
  }

  /** All paths carry the same agent_infos keys and the same env_infos keys. */
  predicate SameInfoKeys(ps: seq<Path>)
  {
    forall i :: 0 <= i < |ps| ==>
      ps[i].agentInfos.Keys == ps[0].agentInfos.Keys && ps[i].envInfos.Keys == ps[0].envInfos.Keys
  }

  /** [path[field] for path in paths], for the per-step fields. */
  function ObservationsOf(ps: seq<Path>): (r: seq<seq<real>>)
    ensures |r| == |ps| && forall i :: 0 <= i < |ps| ==> r[i] == ps[i].observations
  {
    seq(|ps|, i requires 0 <= i < |ps| => ps[i].observations)
  }

  function ActionsOf(ps: seq<Path>): (r: seq<seq<real>>)
    ensures |r| == |ps| && forall i :: 0 <= i < |ps| ==> r[i] == ps[i].actions
  {
    seq(|ps|, i requires 0 <= i < |ps| => ps[i].actions)
  }

  function RewardsOf(ps: seq<Path>): (r: seq<seq<real>>)
    ensures |r| == |ps| && forall i :: 0 <= i < |ps| ==> r[i] == ps[i].rewards
  {
    seq(|ps|, i requires 0 <= i < |ps| => ps[i].rewards)
  }

  function AdvantagesOf(ps: seq<Path>): (r: seq<seq<real>>)
    requires AllProcessed(ps)
    ensures |r| == |ps| && forall i :: 0 <= i < |ps| ==> r[i] == ps[i].advantages.value
  {
    seq(|ps|, i requires 0 <= i < |ps| && Processed(ps[i]) => ps[i].advantages.value)
  }

  function ReturnsOf(ps: seq<Path>): (r: seq<seq<real>>)
    requires forall i :: 0 <= i < |ps| ==> ps[i].discountedReturns.Some?
    ensures |r| == |ps| && forall i :: 0 <= i < |ps| ==> r[i] == ps[i].discountedReturns.value
  {
    seq(|ps|, i requires 0 <= i < |ps| && ps[i].discountedReturns.Some? => ps[i].discountedReturns.value)
  }

  function AgentInfosOf(ps: seq<Path>): (r: seq<Info>)
    ensures |r| == |ps| && forall i :: 0 <= i < |ps| ==> r[i] == ps[i].agentInfos
  {
    seq(|ps|, i requires 0 <= i < |ps| => ps[i].agentInfos)
  }

  function EnvInfosOf(ps: seq<Path>): (r: seq<Info>)
    ensures |r| == |ps| && forall i :: 0 <= i < |ps| ==> r[i] == ps[i].envInfos
  {
    seq(|ps|, i requires 0 <= i < |ps| => ps[i].envInfos)
  }
}
