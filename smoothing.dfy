/**
 * The exponential moving average of backend/analysis/smoothing.py: a smoother holds one value,
 * starts at 0, and each update mixes the new input into it with factor `SmoothingAlpha`.
 */
module Smoothing {
  import opened Config

  function Min(a: real, b: real): real { if a <= b then a else b }
  function Max(a: real, b: real): real { if a <= b then b else a }

  /** One smoothing step from value `v` with input `x`: a convex combination of the two. */
  function Ema(v: real, x: real): (r: real)
    ensures Min(x, v) <= r <= Max(x, v)
    ensures x == v ==> r == v
  {
    SmoothingAlpha * x + (1.0 - SmoothingAlpha) * v
  }

  /** The value after feeding `xs`, in order, to a smoother holding `v`. */
  function Smoothed(v: real, xs: seq<real>): real
    decreases |xs|
  {
    if xs == [] then v else Smoothed(Ema(v, xs[0]), xs[1..])
  }

  /** `r` raised to the power `n`. */
  function Pow(r: real, n: nat): real {
    if n == 0 then 1.0 else r * Pow(r, n - 1)
  }

  /**
   * The closed form of a run from 0: the sum over i of alpha * (1 - alpha)^(n-1-i) * xs[i],
   * an independent description of the same value.
   */
  function Geometric(xs: seq<real>): real
    decreases |xs|
  {
    if xs == [] then 0.0
    else SmoothingAlpha * Pow(1.0 - SmoothingAlpha, |xs| - 1) * xs[0] + Geometric(xs[1..])
  }

  /** The recurrence of the smoothed values: one more input is one more `Ema` step. */
  lemma {:induction false} SmoothedSnoc(v: real, xs: seq<real>, x: real)
    ensures Smoothed(v, xs + [x]) == Ema(Smoothed(v, xs), x)
    decreases |xs|
  {
    if xs == [] {
      assert [] + [x] == [x];
      assert Smoothed(Ema(v, x), []) == Ema(v, x);
    } else {
      assert (xs + [x])[0] == xs[0];
      assert (xs + [x])[1..] == xs[1..] + [x];
      SmoothedSnoc(Ema(v, xs[0]), xs[1..], x);
    }
  }

  /**
   * After inputs x0..xn, a fresh smoother holds value0 = alpha * x0 and
   * value_i = alpha * x_i + (1 - alpha) * value_(i-1).
   */
  lemma FreshRecurrence(xs: seq<real>, i: nat)
    requires i < |xs|
    ensures i == 0 ==> Smoothed(0.0, xs[..1]) == SmoothingAlpha * xs[0]
    ensures i > 0 ==> Smoothed(0.0, xs[..i + 1])
                      == SmoothingAlpha * xs[i] + (1.0 - SmoothingAlpha) * Smoothed(0.0, xs[..i])
  {
    assert xs[..i + 1] == xs[..i] + [xs[i]];
    SmoothedSnoc(0.0, xs[..i], xs[i]);
    if i == 0 {
      assert xs[..0] == [];
    }
  }

  /** The smoothed value equals the decayed start value plus the closed-form weighted sum. */
  lemma {:induction false} SmoothedClosedForm(v: real, xs: seq<real>)
    ensures Smoothed(v, xs) == Pow(1.0 - SmoothingAlpha, |xs|) * v + Geometric(xs)
    decreases |xs|
  {
    if xs != [] {
      var p := Pow(1.0 - SmoothingAlpha, |xs| - 1);
      SmoothedClosedForm(Ema(v, xs[0]), xs[1..]);
      assert Smoothed(v, xs) == p * (SmoothingAlpha * xs[0] + (1.0 - SmoothingAlpha) * v) + Geometric(xs[1..]);
      assert p * (SmoothingAlpha * xs[0] + (1.0 - SmoothingAlpha) * v)
          == SmoothingAlpha * p * xs[0] + ((1.0 - SmoothingAlpha) * p) * v;
    }
  }

  /** A fresh smoother's value is the closed-form weighted sum of its inputs. */
  lemma FreshClosedForm(xs: seq<real>)
    ensures Smoothed(0.0, xs) == Geometric(xs)
  {
    SmoothedClosedForm(0.0, xs);
  }

  /** If every input and the start value lie in [0, m], so does the smoothed value. */
  lemma {:induction false} SmoothedBounded(v: real, xs: seq<real>, m: real)
    requires 0.0 <= v <= m
    requires forall i :: 0 <= i < |xs| ==> 0.0 <= xs[i] <= m
    ensures 0.0 <= Smoothed(v, xs) <= m
    decreases |xs|
  {
    if xs != [] {
      SmoothedBounded(Ema(v, xs[0]), xs[1..], m);
    }
  }

  /** `EngagementSmoother`: the running value of one moving average. */
  class EngagementSmoother {
    var value: real

    /** `__init__`: the value starts at 0. */
    constructor ()
      ensures value == 0.0
    {
      value := 0.0;
    }

    /** `update(x)`: store and return the next moving-average value; total. */
    method Update(x: real) returns (r: real)
      modifies this
      ensures value == Ema(old(value), x)
      ensures r == value
    {
      value := SmoothingAlpha * x + (1.0 - SmoothingAlpha) * value;
      r := value;
    }
  }
}
