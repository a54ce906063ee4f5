/** The summary numbers process_samples reports: the mean discounted return
    from the start state, the undiscounted returns, their env-channel
    analogues, and the policy entropy averaged over real time steps. */
module Diagnostics {
  import opened Wrappers
  import opened Numeric
  import opened DiscountedCumSum
  import opened TensorOps
  import opened Paths

  /** [row[0] for row in rows]. */
  function Heads(rows: seq<seq<real>>): (h: seq<real>)
    requires forall i :: 0 <= i < |rows| ==> |rows[i]| > 0
    ensures |h| == |rows|
    ensures forall i :: 0 <= i < |rows| ==> h[i] == rows[i][0]
  {
    seq(|rows|, i requires 0 <= i < |rows| => rows[i][0])
  }

  /** The discounted return of each path's rewards, from its first step. */
  function PathDiscountedReturns(ps: seq<Path>, discount: real): (r: seq<real>)
    ensures |r| == |ps|
    ensures forall i :: 0 <= i < |ps| ==> r[i] == DiscountedReturn(ps[i].rewards, discount)
  {
    seq(|ps|, i requires 0 <= i < |ps| => DiscountedReturn(ps[i].rewards, discount))
  }

  /** The first entry of each path's returns is the discounted return of
      the whole path, so average_discounted_return is the mean of the
      paths' discounted returns. */
  lemma StartReturnsAreDiscountedReturns(ps: seq<Path>, discount: real)
    requires forall i :: 0 <= i < |ps| ==>
               && ps[i].discountedReturns == Some(DiscountCumsum(ps[i].rewards, discount))
               && |DiscountCumsum(ps[i].rewards, discount)| > 0
    ensures Heads(ReturnsOf(ps)) == PathDiscountedReturns(ps, discount)
    ensures Mean(Heads(ReturnsOf(ps))) == Mean(PathDiscountedReturns(ps, discount))
  {
    forall i | 0 <= i < |ps|
      ensures Heads(ReturnsOf(ps))[i] == PathDiscountedReturns(ps, discount)[i]
    {
      StartIsDiscountedReturn(ps[i].rewards, discount);
    }
  }

  /** [sum(path["rewards"]) for path in paths]. */
  function UndiscountedReturns(ps: seq<Path>): (u: seq<real>)
    ensures |u| == |ps|
    ensures forall i :: 0 <= i < |ps| ==> u[i] == Sum(ps[i].rewards)
  {
    seq(|ps|, i requires 0 <= i < |ps| => Sum(ps[i].rewards))
  }

  /** The plain sum of rewards is the discounted return with discount 1. */
  lemma {:induction false} SumIsUndiscountedReturn(x: seq<real>)
    ensures Sum(x) == DiscountedReturn(x, 1.0)
    decreases |x|
  {
    if x != [] {
      SumIsUndiscountedReturn(x[1..]);
    }
  }

  /** With discount 1 the average discounted return and the average
      undiscounted return coincide. */
  lemma UndiscountedMatchesUnitDiscount(ps: seq<Path>)
    ensures UndiscountedReturns(ps) == PathDiscountedReturns(ps, 1.0)
  {
    forall i | 0 <= i < |ps|
      ensures UndiscountedReturns(ps)[i] == PathDiscountedReturns(ps, 1.0)[i]
    {
      SumIsUndiscountedReturn(ps[i].rewards);
    }
  }

  /** [path["env_returns"][0] for path in paths if path has env_returns]. */
  function EnvStartReturns(ps: seq<Path>): (r: seq<real>)
    requires forall i :: 0 <= i < |ps| && ps[i].envReturns.Some? ==> |ps[i].envReturns.value| > 0
    ensures |r| <= |ps|
    ensures r == [] <==> forall i :: 0 <= i < |ps| ==> ps[i].envReturns.None?
    decreases |ps|
  {
    if ps == [] then []
    else
      var rest := EnvStartReturns(ps[1..]);
      assert rest == [] <==> forall i :: 1 <= i < |ps| ==> ps[i].envReturns.None? by {
        assert forall i :: 1 <= i < |ps| ==> ps[1..][i - 1] == ps[i];
      }
      (if ps[0].envReturns.Some? then [ps[0].envReturns.value[0]] else []) + rest
  }

  /** The env returns of all paths, each of which must carry them. */
  function AllEnvReturns(ps: seq<Path>): (r: seq<seq<real>>)
    requires forall i :: 0 <= i < |ps| ==> ps[i].envReturns.Some?
    ensures |r| == |ps|
    ensures forall i :: 0 <= i < |ps| ==> r[i] == ps[i].envReturns.value
  {
    seq(|ps|, i requires 0 <= i < |ps| && ps[i].envReturns.Some? => ps[i].envReturns.value)
  }

  /** When every path carries env_returns, the filtered list of the flat
      branch and the unfiltered one of the recurrent branch agree. */
  lemma {:induction false} EnvStartReturnsWhenAllPresent(ps: seq<Path>)
    requires forall i :: 0 <= i < |ps| ==> ps[i].envReturns.Some? && |ps[i].envReturns.value| > 0
    ensures EnvStartReturns(ps) == Heads(AllEnvReturns(ps))
    decreases |ps|
  {
    if ps != [] {
      EnvStartReturnsWhenAllPresent(ps[1..]);
      assert Heads(AllEnvReturns(ps)) == [ps[0].envReturns.value[0]] + Heads(AllEnvReturns(ps[1..]));
    }
  }

  /** [sum(path["env_rewards"]) for path in paths if path has env_rewards]. */
  function UndiscountedEnvReturns(ps: seq<Path>): (r: seq<real>)
    ensures |r| <= |ps|
    ensures r == [] <==> forall i :: 0 <= i < |ps| ==> ps[i].envRewards.None?
    decreases |ps|
  {
    if ps == [] then []
    else
      var rest := UndiscountedEnvReturns(ps[1..]);
      assert rest == [] <==> forall i :: 1 <= i < |ps| ==> ps[i].envRewards.None? by {
        assert forall i :: 1 <= i < |ps| ==> ps[1..][i - 1] == ps[i];
      }
      (if ps[0].envRewards.Some? then [Sum(ps[0].envRewards.value)] else []) + rest
  }

  /** The undiscounted env returns are exactly the sums of the env rewards
      that are present, in path order. */
  lemma {:induction false} UndiscountedEnvReturnsAreSums(ps: seq<Path>, i: nat)
    requires i < |ps| && ps[i].envRewards.Some?
    ensures Sum(ps[i].envRewards.value) in UndiscountedEnvReturns(ps)
    decreases i
  {
    if i > 0 {
      UndiscountedEnvReturnsAreSums(ps[1..], i - 1);
    }
  }

  /** Filtering distributes over a split of the batch: the start env
      returns of a + b are those of a followed by those of b. */
  lemma {:induction false} EnvStartReturnsAppend(a: seq<Path>, b: seq<Path>)
    requires forall i :: 0 <= i < |a| && a[i].envReturns.Some? ==> |a[i].envReturns.value| > 0
    requires forall i :: 0 <= i < |b| && b[i].envReturns.Some? ==> |b[i].envReturns.value| > 0
    ensures EnvStartReturns(a + b) == EnvStartReturns(a) + EnvStartReturns(b)
    decreases |a|
  {
    if a == [] {
      assert a + b == b;
    } else {
      var rest := a[1..];
      assert forall i :: 0 <= i < |rest| ==> rest[i] == a[i + 1];
      assert (a + b)[0] == a[0] && (a + b)[1..] == rest + b;
      EnvStartReturnsAppend(rest, b);
    }
  }

  /** One path contributes its first env return when it carries
      env_returns, and nothing otherwise. */
  lemma EnvStartReturnsOne(p: Path)
    requires p.envReturns.Some? ==> |p.envReturns.value| > 0
    ensures EnvStartReturns([p]) == if p.envReturns.Some? then [p.envReturns.value[0]] else []
  {
    assert [p][1..] == [];
  }

  /** The same two facts for the undiscounted env returns. */
  lemma {:induction false} UndiscountedEnvReturnsAppend(a: seq<Path>, b: seq<Path>)
    ensures UndiscountedEnvReturns(a + b) == UndiscountedEnvReturns(a) + UndiscountedEnvReturns(b)
    decreases |a|
  {
    if a == [] {
      assert a + b == b;
    } else {
      assert (a + b)[1..] == a[1..] + b;
      UndiscountedEnvReturnsAppend(a[1..], b);
    }
  }

  lemma UndiscountedEnvReturnsOne(p: Path)
    ensures UndiscountedEnvReturns([p]) == if p.envRewards.Some? then [Sum(p.envRewards.value)] else []
  {
    assert [p][1..] == [];
  }

  /** Reference list: the discounted return of the env rewards of every
      path that has env_rewards, in path order. */
  function PathDiscountedEnvReturns(ps: seq<Path>, discount: real): (r: seq<real>)
    ensures |r| <= |ps|
    decreases |ps|
  {
    if ps == [] then []
    else
      (if ps[0].envRewards.Some? then [DiscountedReturn(ps[0].envRewards.value, discount)] else [])
      + PathDiscountedEnvReturns(ps[1..], discount)
  }

  /** The env returns the per-path loop writes into fresh paths: the
      discounted cumulative sums of the env rewards, exactly on the paths
      that have them. */
  predicate EnvReturnsWritten(ps: seq<Path>, discount: real)
  {
    forall i :: 0 <= i < |ps| ==>
      if ps[i].envRewards.Some?
      then |ps[i].envRewards.value| > 0 && ps[i].envReturns == Some(DiscountCumsum(ps[i].envRewards.value, discount))
      else ps[i].envReturns.None?
  }

  /** On such paths the start env returns are the discounted returns of
      the env rewards. */
  lemma {:induction false} EnvStartReturnsAreDiscountedEnvReturns(ps: seq<Path>, discount: real)
    requires EnvReturnsWritten(ps, discount)
    ensures forall i :: 0 <= i < |ps| && ps[i].envReturns.Some? ==> |ps[i].envReturns.value| > 0
    ensures EnvStartReturns(ps) == PathDiscountedEnvReturns(ps, discount)
    decreases |ps|
  {
    if ps != [] {
      assert EnvReturnsWritten(ps[1..], discount) by {
        assert forall i :: 1 <= i < |ps| ==> ps[1..][i - 1] == ps[i];
      }
      EnvStartReturnsAreDiscountedEnvReturns(ps[1..], discount);
      if ps[0].envRewards.Some? {
        StartIsDiscountedReturn(ps[0].envRewards.value, discount);
      }
    }
  }

  /** With discount 1 the undiscounted env returns and the discounted ones
      coincide. */
  lemma {:induction false} UndiscountedEnvMatchesUnitDiscount(ps: seq<Path>)
    ensures UndiscountedEnvReturns(ps) == PathDiscountedEnvReturns(ps, 1.0)
    decreases |ps|
  {
    if ps != [] {
      UndiscountedEnvMatchesUnitDiscount(ps[1..]);
      if ps[0].envRewards.Some? {
        SumIsUndiscountedReturn(ps[0].envRewards.value);
      }
    }
  }

  /** Entry by entry product of the entropies with the mask. */
  function MulRows(e: seq<seq<real>>, v: seq<seq<real>>): (r: seq<seq<real>>)
    requires |e| == |v| && forall i :: 0 <= i < |e| ==> |e[i]| == |v[i]|
    ensures |r| == |e|
  {
    seq(|e|, i requires 0 <= i < |e| => Mul(e[i], v[i]))
  }

  /** np.sum(ent * valids) / np.sum(valids); None for the NaN of an empty
      mask. */
  function MaskedEntropy(e: seq<seq<real>>, valids: seq<seq<real>>): (r: Option<real>)
    requires |e| == |valids| && forall i :: 0 <= i < |e| ==> |e[i]| == |valids[i]|
    ensures r.Some? <==> SumRows(valids) != 0.0
    ensures r.Some? ==> r.value * SumRows(valids) == SumRows(MulRows(e, valids))
  {
    Ratio(SumRows(MulRows(e, valids)), SumRows(valids))
  }

  /** A row times a mask of k ones then zeros sums the first k entries. */
  lemma {:induction false} MaskedRowSum(row: seq<real>, mask: seq<real>, k: nat)
    requires |row| == |mask| && k <= |row|
    requires forall t :: 0 <= t < |mask| ==> mask[t] == if t < k then 1.0 else 0.0
    ensures Sum(Mul(row, mask)) == Sum(row[..k])
    decreases |row|
  {
    if row != [] {
      var k' := if k > 0 then k - 1 else 0;
      assert Mul(row, mask)[1..] == Mul(row[1..], mask[1..]);
      MaskedRowSum(row[1..], mask[1..], k');
      if k > 0 {
        assert row[..k] == [row[0]] + row[1..][..k'];
      } else {
        assert row[1..][..k'] == [];
      }
    }
  }

  /** A mask of k ones then zeros sums to k. */
  lemma {:induction false} MaskSum(mask: seq<real>, k: nat)
    requires k <= |mask|
    requires forall t :: 0 <= t < |mask| ==> mask[t] == if t < k then 1.0 else 0.0
    ensures Sum(mask) == k as real
    decreases |mask|
  {
    if mask != [] {
      MaskSum(mask[1..], if k > 0 then k - 1 else 0);
    }
  }

  /** Rows with equal sums have equal SumRows. */
  lemma {:induction false} SumRowsPointwise(a: seq<seq<real>>, b: seq<seq<real>>)
    requires |a| == |b|
    requires forall i :: 0 <= i < |a| ==> Sum(a[i]) == Sum(b[i])
    ensures SumRows(a) == SumRows(b)
    decreases |a|
  {
    if a != [] {
      SumRowsPointwise(a[1..], b[1..]);
    }
  }

  /** Rows whose sums are the lengths of xs sum to the total length of xs. */
  lemma {:induction false} SumRowsCounts(rows: seq<seq<real>>, xs: seq<seq<real>>)
    requires |rows| == |xs|
    requires forall i :: 0 <= i < |rows| ==> Sum(rows[i]) == |xs[i]| as real
    ensures SumRows(rows) == SumLengths(xs) as real
    decreases |rows|
  {
    if rows != [] {
      SumRowsCounts(rows[1..], xs[1..]);
    }
  }

  /** The masked entropy is the plain mean of the entropies over the real
      steps: padded steps contribute neither to the sum nor to the count,
      whatever value the entropy takes there. */
  lemma MaskedEntropyIsRealStepMean(e: seq<seq<real>>, xs: seq<seq<real>>, n: nat)
    requires |e| == |xs|
    requires forall i :: 0 <= i < |xs| ==> |xs[i]| <= n && |e[i]| == n
    ensures MaskedEntropy(e, Valids(xs, n)) == Mean(Concat(Unpad(e, xs)))
  {
    var v := Valids(xs, n);
    var u := Unpad(e, xs);
    forall i | 0 <= i < |e|
      ensures Sum(MulRows(e, v)[i]) == Sum(u[i])
      ensures Sum(v[i]) == |xs[i]| as real
    {
      MaskedRowSum(e[i], v[i], |xs[i]|);
      MaskSum(v[i], |xs[i]|);
    }
    SumRowsPointwise(MulRows(e, v), u);
    SumRowsCounts(v, xs);
    SumConcat(u);
    SumLengthsSameShape(u, xs);
  }

  /** The recurrent entropy equals the flat one: if the padded entropies
      agree with the per-path entropies on the real steps, the masked
      average is the mean of the concatenated per-path entropies. */
  lemma MaskedEntropyMatchesFlat(e: seq<seq<real>>, ents: seq<seq<real>>, n: nat)
    requires |e| == |ents|
    requires forall i :: 0 <= i < |ents| ==> |ents[i]| <= n && |e[i]| == n
    requires forall i, t :: 0 <= i < |ents| && 0 <= t < |ents[i]| ==> e[i][t] == ents[i][t]
    ensures MaskedEntropy(e, Valids(ents, n)) == Mean(Concat(ents))
  {
    MaskedEntropyIsRealStepMean(e, ents, n);
    var u := Unpad(e, ents);
    forall i | 0 <= i < |ents|
      ensures u[i] == ents[i]
    {
    }
    assert u == ents;
  }

  /** Two paths of lengths 3 and 2 with entropies 1, 1, 1 and 2, 2: the
      masked average is 7 / 5 = 1.4, whatever the entropy of the padded
      step; with a zero pad the unmasked mean would be 7 / 6, and the mean
      of the two per-path means 1.5. */
  lemma MaskedEntropyExample(pad: real)
    ensures MaskedEntropy([[1.0, 1.0, 1.0], [2.0, 2.0, pad]], Valids([[1.0, 1.0, 1.0], [2.0, 2.0]], 3))
            == Some(1.4)
  {
    var ents := [[1.0, 1.0, 1.0], [2.0, 2.0]];
    MaskedEntropyMatchesFlat([[1.0, 1.0, 1.0], [2.0, 2.0, pad]], ents, 3);
    assert Concat(ents) == [1.0, 1.0, 1.0, 2.0, 2.0];
    assert Sum([1.0, 1.0, 1.0, 2.0, 2.0]) == 7.0;
  }
}
