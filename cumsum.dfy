/** The reverse-discounted cumulative sum that process_samples applies to the
    TD residuals (factor discount * gae_lambda) and to the rewards (factor
    discount): y[T-1] = x[T-1] and y[t] = x[t] + g * y[t+1]. */
module DiscountedCumSum {

  /** The first entry of y, or 0 past the end of the path. */
  function HeadOrZero(y: seq<real>): real
  {
    if y == [] then 0.0 else y[0]
  }

  /** One step of the backward recurrence: the value at t from x[t] and the
      value at t + 1. */
  function Backup(xt: real, g: real, next: real): real
  {
    xt + g * next
  }

  /** The backward recurrence, one step per recursive call. */
  function DiscountCumsum(x: seq<real>, g: real): (y: seq<real>)
    ensures |y| == |x|
    decreases |x|
  {
    if x == [] then []
    else
      var rest := DiscountCumsum(x[1..], g);
      [Backup(x[0], g, HeadOrZero(rest))] + rest
  }

  /** Reference definition: the discounted return of a whole sequence,
      x[0] + g * x[1] + g^2 * x[2] + ... */
  function DiscountedReturn(x: seq<real>, g: real): real
    decreases |x|
  {
    if x == [] then 0.0 else x[0] + g * DiscountedReturn(x[1..], g)
  }

  lemma {:induction false} DiscountCumsumLast(x: seq<real>, g: real)
    requires |x| > 0
    ensures DiscountCumsum(x, g)[|x| - 1] == x[|x| - 1]
    decreases |x|
  {
    if |x| > 1 {
      DiscountCumsumLast(x[1..], g);
    }
  }

  lemma {:induction false} DiscountCumsumStep(x: seq<real>, g: real, t: nat)
    requires t + 1 < |x|
    ensures DiscountCumsum(x, g)[t] == x[t] + g * DiscountCumsum(x, g)[t + 1]
    decreases |x|
  {
    if t > 0 {
      DiscountCumsumStep(x[1..], g, t - 1);
    }
  }

  /** The cumsum of a suffix is the suffix of the cumsum. */
  lemma {:induction false} DiscountCumsumSuffix(x: seq<real>, g: real, t: nat)
    requires t <= |x|
    ensures DiscountCumsum(x[t..], g) == DiscountCumsum(x, g)[t..]
    decreases t
  {
    if t > 0 {
      DiscountCumsumSuffix(x[1..], g, t - 1);
      assert x[1..][t - 1..] == x[t..];
    }
  }

  /** Entry t of the cumsum is the discounted return of the suffix from t. */
  lemma {:induction false} DiscountCumsumIsSuffixReturn(x: seq<real>, g: real, t: nat)
    requires t < |x|
    ensures DiscountCumsum(x, g)[t] == DiscountedReturn(x[t..], g)
    decreases |x|
  {
    if t > 0 {
      DiscountCumsumIsSuffixReturn(x[1..], g, t - 1);
      assert x[1..][t - 1..] == x[t..];
    } else {
      StartIsDiscountedReturn(x, g);
    }
  }

  lemma {:induction false} StartIsDiscountedReturn(x: seq<real>, g: real)
    ensures HeadOrZero(DiscountCumsum(x, g)) == DiscountedReturn(x, g)
    decreases |x|
  {
    if x != [] {
      StartIsDiscountedReturn(x[1..], g);
    }
  }

  /** With no discount the cumsum is the input itself. */
  lemma {:induction false} UndiscountedIsIdentity(x: seq<real>)
    ensures DiscountCumsum(x, 0.0) == x
    decreases |x|
  {
    if x != [] {
      UndiscountedIsIdentity(x[1..]);
      assert [x[0]] + x[1..] == x;
    }
  }

  /** The recurrence determines the cumsum: any sequence that satisfies it is
      the cumsum. */
  lemma {:induction false} RecurrenceDetermines(x: seq<real>, g: real, y: seq<real>)
    requires |y| == |x|
    requires |x| > 0 ==> y[|x| - 1] == x[|x| - 1]
    requires forall t :: 0 <= t < |x| - 1 ==> y[t] == Backup(x[t], g, y[t + 1])
    ensures y == DiscountCumsum(x, g)
    decreases |x|
  {
    if x != [] {
      var rest := DiscountCumsum(x[1..], g);
      assert forall t :: 0 <= t < |x| - 2 ==> y[1..][t] == Backup(x[1..][t], g, y[1..][t + 1]);
      RecurrenceDetermines(x[1..], g, y[1..]);
      assert y[0] == Backup(x[0], g, HeadOrZero(rest)) by {
        if |x| > 1 {
          assert y[0] == Backup(x[0], g, y[1]);
        }
      }
      assert y == [y[0]] + y[1..];
    }
  }

  /** One backward step of the recurrence, read on the suffix from t. */
  lemma DiscountCumsumUnfold(x: seq<real>, g: real, t: nat)
    requires t < |x|
    ensures DiscountCumsum(x[t..], g)
         == [Backup(x[t], g, HeadOrZero(DiscountCumsum(x[t + 1..], g)))] + DiscountCumsum(x[t + 1..], g)
  {
    assert x[t..][1..] == x[t + 1..];
  }

  /** The reverse loop of the cumsum: walk from the last step to the first,
      carrying the running discounted sum. */
  method DiscountCumsumLoop(x: seq<real>, g: real) returns (y: seq<real>)
    ensures y == DiscountCumsum(x, g)
  {
    var out := new real[|x|];
    var acc := 0.0;
    var t := |x|;
    while t > 0
      invariant 0 <= t <= |x|
      invariant out[t..] == DiscountCumsum(x[t..], g)
      invariant acc == HeadOrZero(out[t..])
    {
      t := t - 1;
      ghost var done := out[t + 1..];
      assert x[t..][1..] == x[t + 1..];
      DiscountCumsumUnfold(x, g, t);
      acc := Backup(x[t], g, acc);
      out[t] := acc;
      assert out[t + 1..] == done;
      assert out[t..] == [acc] + done;
    }
    assert x[0..] == x;
    y := out[..];
  }
}
