/** Batch layouts of per-path sequences, as process_samples uses them:
    end-to-end concatenation (non-recurrent policies) and right zero-padding
    to a common length with a validity mask (recurrent policies). The
    per-key versions act on dictionaries of per-step values. */
module TensorOps {
  import opened Numeric

  /** Total number of steps over all rows. */
  function SumLengths(xs: seq<seq<real>>): nat
    decreases |xs|
  {
    if xs == [] then 0 else |xs[0]| + SumLengths(xs[1..])
  }

  /** Rows laid end to end, first row first. */
  function Concat(xs: seq<seq<real>>): (r: seq<real>)
    ensures |r| == SumLengths(xs)
    decreases |xs|
  {
    if xs == [] then [] else xs[0] + Concat(xs[1..])
  }

  lemma {:induction false} SumLengthsAppend(a: seq<seq<real>>, b: seq<seq<real>>)
    ensures SumLengths(a + b) == SumLengths(a) + SumLengths(b)
    decreases |a|
  {
    if a == [] {
      assert a + b == b;
    } else {
      assert (a + b)[1..] == a[1..] + b;
      SumLengthsAppend(a[1..], b);
    }
  }

  lemma {:induction false} ConcatAppend(a: seq<seq<real>>, b: seq<seq<real>>)
    ensures Concat(a + b) == Concat(a) + Concat(b)
    decreases |a|
  {
    if a == [] {
      assert a + b == b;
    } else {
      assert (a + b)[1..] == a[1..] + b;
      ConcatAppend(a[1..], b);
    }
  }

  /** The block of row i starts at the total length of the rows before it,
      and the next block starts right after it. */
  lemma OffsetNext(xs: seq<seq<real>>, i: nat)
    requires i < |xs|
    ensures SumLengths(xs[..i + 1]) == SumLengths(xs[..i]) + |xs[i]|
  {
    assert xs[..i + 1] == xs[..i] + [xs[i]];
    SumLengthsAppend(xs[..i], [xs[i]]);
  }

  /** Step t of row i sits at offset SumLengths(xs[..i]) + t of the
      concatenation. */
  lemma {:induction false} ConcatBlock(xs: seq<seq<real>>, i: nat, t: nat)
    requires i < |xs| && t < |xs[i]|
    ensures SumLengths(xs[..i]) + t < |Concat(xs)|
    ensures Concat(xs)[SumLengths(xs[..i]) + t] == xs[i][t]
    decreases i
  {
    if i > 0 {
      ConcatBlock(xs[1..], i - 1, t);
      assert xs[..i] == [xs[0]] + xs[1..][..i - 1];
      assert xs[..i][1..] == xs[1..][..i - 1];
    } else {
      assert xs[..i] == [];
    }
  }

  /** Rows of the same lengths have the same total length. */
  lemma {:induction false} SumLengthsSameShape(xs: seq<seq<real>>, ys: seq<seq<real>>)
    requires |xs| == |ys|
    requires forall i :: 0 <= i < |xs| ==> |xs[i]| == |ys[i]|
    ensures SumLengths(xs) == SumLengths(ys)
    decreases |xs|
  {
    if xs != [] {
      SumLengthsSameShape(xs[1..], ys[1..]);
    }
  }

  /** The sum of a concatenation is the sum of the row sums. */
  lemma {:induction false} SumConcat(xs: seq<seq<real>>)
    ensures Sum(Concat(xs)) == SumRows(xs)
    decreases |xs|
  {
    if xs != [] {
      SumAppend(xs[0], Concat(xs[1..]));
      SumConcat(xs[1..]);
    }
  }

  function SumRows(xs: seq<seq<real>>): real
    decreases |xs|
  {
    if xs == [] then 0.0 else Sum(xs[0]) + SumRows(xs[1..])
  }

  /** max(len(row)) over the rows; 0 for no rows. */
  function MaxLength(xs: seq<seq<real>>): (m: nat)
    ensures forall i :: 0 <= i < |xs| ==> |xs[i]| <= m
    ensures |xs| > 0 ==> exists i :: 0 <= i < |xs| && |xs[i]| == m
    ensures |xs| == 0 ==> m == 0
    decreases |xs|
  {
    if xs == [] then 0
    else
      var rest := MaxLength(xs[1..]);
      if |xs[0]| >= rest then |xs[0]|
      else
        assert exists j :: 0 <= j < |xs[1..]| && |xs[1..][j]| == rest;
        var j :| 0 <= j < |xs[1..]| && |xs[1..][j]| == rest;
        assert |xs[j + 1]| == rest;
        rest
  }

  /** Right-pad a row with zeros to length n. */
  function Pad(x: seq<real>, n: nat): (r: seq<real>)
    requires |x| <= n
    ensures |r| == n
    ensures r[..|x|] == x
    ensures forall t :: |x| <= t < n ==> r[t] == 0.0
  {
    x + Zeros(n - |x|)
  }

  /** Pad every row to length n: entry (i, t) is the row's value for t below
      its length and 0 beyond. */
  function PadN(xs: seq<seq<real>>, n: nat): (r: seq<seq<real>>)
    requires forall i :: 0 <= i < |xs| ==> |xs[i]| <= n
    ensures |r| == |xs|
    ensures forall i :: 0 <= i < |xs| ==> |r[i]| == n
    ensures forall i, t :: 0 <= i < |xs| && 0 <= t < n ==>
              r[i][t] == if t < |xs[i]| then xs[i][t] else 0.0
  {
    seq(|xs|, i requires 0 <= i < |xs| => Pad(xs[i], n))
  }

  /** The mask of ones_like(row) padded to n: 1 on a real step, 0 on padding. */
  function Valids(xs: seq<seq<real>>, n: nat): (v: seq<seq<real>>)
    requires forall i :: 0 <= i < |xs| ==> |xs[i]| <= n
    ensures |v| == |xs|
    ensures forall i :: 0 <= i < |xs| ==> |v[i]| == n
    ensures forall i, t :: 0 <= i < |xs| && 0 <= t < n ==>
              v[i][t] == if t < |xs[i]| then 1.0 else 0.0
  {
    PadN(seq(|xs|, i requires 0 <= i < |xs| => Ones(|xs[i]|)), n)
  }

  /** The real steps of each padded row: row i cut back to the length of
      xs[i]. */
  function Unpad(rows: seq<seq<real>>, xs: seq<seq<real>>): (r: seq<seq<real>>)
    requires |rows| == |xs|
    requires forall i :: 0 <= i < |xs| ==> |xs[i]| <= |rows[i]|
    ensures |r| == |xs|
    ensures forall i :: 0 <= i < |xs| ==> |r[i]| == |xs[i]|
  {
    seq(|xs|, i requires 0 <= i < |xs| => rows[i][..|xs[i]|])
  }

  /** Padding loses nothing: cutting the padded rows back gives the rows. */
  lemma PadNRoundTrip(xs: seq<seq<real>>, n: nat)
    requires forall i :: 0 <= i < |xs| ==> |xs[i]| <= n
    ensures Unpad(PadN(xs, n), xs) == xs
  {
    var p := PadN(xs, n);
    forall i | 0 <= i < |xs|
      ensures Unpad(p, xs)[i] == xs[i]
    {
      assert p[i] == Pad(xs[i], n);
    }
  }

  /** A dictionary of per-step values, e.g. agent_infos or env_infos. */
  type Info = map<string, seq<real>>

  /** The same dictionary for every path, each value padded and stacked. */
  type StackedInfo = map<string, seq<seq<real>>>

  predicate SameKeys(ds: seq<Info>)
  {
    forall i :: 0 <= i < |ds| ==> ds[i].Keys == ds[0].Keys
  }

  /** The values under key k, one per dictionary. */
  function Column(ds: seq<Info>, k: string): (c: seq<seq<real>>)
    requires forall i :: 0 <= i < |ds| ==> k in ds[i]
    ensures |c| == |ds|
    ensures forall i :: 0 <= i < |ds| ==> c[i] == ds[i][k]
  {
    seq(|ds|, i requires 0 <= i < |ds| => ds[i][k])
  }

  /** Per-key concatenation, keyed like the first dictionary. */
  function ConcatInfos(ds: seq<Info>): (r: Info)
    requires |ds| > 0 && SameKeys(ds)
    ensures r.Keys == ds[0].Keys
    ensures forall k :: k in r ==> |r[k]| == SumLengths(Column(ds, k))
  {
    map k | k in ds[0].Keys :: Concat(Column(ds, k))
  }

  /** Under every key, the values of dictionary i fill the block that
      starts at offset SumLengths(Column(ds, k)[..i]) of the
      concatenation: step t sits at that offset plus t. */
  lemma ConcatInfosLayout(ds: seq<Info>)
    requires |ds| > 0 && SameKeys(ds)
    ensures forall k, i :: k in ConcatInfos(ds) && 0 <= i < |ds| ==>
              SumLengths(Column(ds, k)[..i]) + |ds[i][k]| <= |ConcatInfos(ds)[k]|
    ensures forall k, i, t :: k in ConcatInfos(ds) && 0 <= i < |ds| && 0 <= t < |ds[i][k]| ==>
              ConcatInfos(ds)[k][SumLengths(Column(ds, k)[..i]) + t] == ds[i][k][t]
  {
    forall k, i | k in ConcatInfos(ds) && 0 <= i < |ds|
      ensures SumLengths(Column(ds, k)[..i]) + |ds[i][k]| <= |ConcatInfos(ds)[k]|
      ensures forall t :: 0 <= t < |ds[i][k]| ==>
                ConcatInfos(ds)[k][SumLengths(Column(ds, k)[..i]) + t] == ds[i][k][t]
    {
      ConcatRowBlock(Column(ds, k), i);
    }
  }

  /** Row i of a concatenation fills the block that starts at the total
      length of the rows before it. */
  lemma ConcatRowBlock(xs: seq<seq<real>>, i: nat)
    requires i < |xs|
    ensures SumLengths(xs[..i]) + |xs[i]| <= |Concat(xs)|
    ensures forall t :: 0 <= t < |xs[i]| ==> Concat(xs)[SumLengths(xs[..i]) + t] == xs[i][t]
  {
    OffsetNext(xs, i);
    SumLengthsAppend(xs[..i + 1], xs[i + 1..]);
    assert xs == xs[..i + 1] + xs[i + 1..];
    forall t | 0 <= t < |xs[i]|
      ensures Concat(xs)[SumLengths(xs[..i]) + t] == xs[i][t]
    {
      ConcatBlock(xs, i, t);
    }
  }

  /** Per-key padding to n, stacked over the dictionaries, keyed like the
      first one. */
  function PadStackInfos(ds: seq<Info>, n: nat): (r: StackedInfo)
    requires |ds| > 0 && SameKeys(ds)
    requires forall i, k :: 0 <= i < |ds| && k in ds[i] ==> |ds[i][k]| <= n
    ensures r.Keys == ds[0].Keys
    ensures forall k, i, t :: k in r && 0 <= i < |ds| && 0 <= t < n ==>
              |r[k]| == |ds| && |r[k][i]| == n &&
              r[k][i][t] == if t < |ds[i][k]| then ds[i][k][t] else 0.0
  {
    map k | k in ds[0].Keys :: PadN(Column(ds, k), n)
  }
}
