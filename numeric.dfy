/** Exact-arithmetic stand-ins for the numpy reductions and elementwise
    vector operations used by process_samples. */
module Numeric {
  import opened Wrappers

  /** Python's sum / np.sum over a vector. */
  function Sum(xs: seq<real>): real
    decreases |xs|
  {
    if xs == [] then 0.0 else xs[0] + Sum(xs[1..])
  }

  lemma {:induction false} SumAppend(a: seq<real>, b: seq<real>)
    ensures Sum(a + b) == Sum(a) + Sum(b)
    decreases |a|
  {
    if a == [] {
      assert a + b == b;
    } else {
      assert (a + b)[1..] == a[1..] + b;
      SumAppend(a[1..], b);
    }
  }

  /** np.mean: the average of the entries, or None (numpy's NaN) when there
      are none. */
  function Mean(xs: seq<real>): (m: Option<real>)
    ensures m.Some? <==> |xs| > 0
    ensures m.Some? ==> m.value * (|xs| as real) == Sum(xs)
  {
    if |xs| == 0 then None else Some(Sum(xs) / (|xs| as real))
  }

  /** a / b as numpy computes it for a non-negative denominator: None stands
      for the NaN of 0 / 0. */
  function Ratio(a: real, b: real): (r: Option<real>)
    ensures r.Some? <==> b != 0.0
    ensures r.Some? ==> r.value * b == a
  {
    if b == 0.0 then None else Some(a / b)
  }

  /** The product of two entries. */
  function Product(x: real, y: real): real
  {
    x * y
  }

  /** Elementwise product, as in ent * valids. */
  function Mul(a: seq<real>, b: seq<real>): seq<real>
    requires |a| == |b|
  {
    seq(|a|, t requires 0 <= t < |a| => Product(a[t], b[t]))
  }

  function Zeros(n: nat): (z: seq<real>)
    ensures |z| == n
  {
    seq(n, _ => 0.0)
  }

  function Ones(n: nat): (o: seq<real>)
    ensures |o| == n
  {
    seq(n, _ => 1.0)
  }

  lemma {:induction false} SumZeros(n: nat)
    ensures Sum(Zeros(n)) == 0.0
    decreases n
  {
    if n > 0 {
      assert Zeros(n)[1..] == Zeros(n - 1);
      SumZeros(n - 1);
    }
  }

  lemma {:induction false} SumOnes(n: nat)
    ensures Sum(Ones(n)) == n as real
    decreases n
  {
    if n > 0 {
      assert Ones(n)[1..] == Ones(n - 1);
      SumOnes(n - 1);
    }
  }

  /** (x - m) / s for one entry. */
  function Standardize(x: real, m: real, s: real): real
    requires s != 0.0
  {
    (x - m) / s
  }

  lemma StandardizeScaled(x: real, m: real, s: real)
    requires s != 0.0
    ensures Standardize(x, m, s) * s == x - m
  {
  }

  /** (x - m) / s entry by entry: the normalisation of one path's advantages. */
  function Normalize(x: seq<real>, m: real, s: real): (r: seq<real>)
    requires s != 0.0
    ensures |r| == |x|
  {
    seq(|x|, t requires 0 <= t < |x| => Standardize(x[t], m, s))
  }

  lemma {:induction false} SumNormalize(x: seq<real>, m: real, s: real)
    requires s != 0.0
    ensures Sum(Normalize(x, m, s)) * s == Sum(x) - (|x| as real) * m
    decreases |x|
  {
    if x != [] {
      assert Normalize(x, m, s)[1..] == Normalize(x[1..], m, s);
      SumNormalize(x[1..], m, s);
      var head := Standardize(x[0], m, s);
      StandardizeScaled(x[0], m, s);
      var rest := Sum(Normalize(x[1..], m, s));
      assert (head + rest) * s == head * s + rest * s;
      assert (|x| as real) * m == m + (|x[1..]| as real) * m;
    }
  }

  /** Normalisation works entry by entry, so it distributes over +. */
  lemma NormalizeAppend(a: seq<real>, b: seq<real>, m: real, s: real)
    requires s != 0.0
    ensures Normalize(a + b, m, s) == Normalize(a, m, s) + Normalize(b, m, s)
  {
  }
}
