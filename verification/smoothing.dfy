/** The exponential smoothing recurrence behind both Wilder's RMA (used by RSI)
    and the EMA (used by MACD):

      s[seedAt] = seed
      s[i]      = alpha * values[i] + (1 - alpha) * s[i - 1]      for i > seedAt

    RSI uses alpha = 1/period and a simple-mean seed of the gains or losses;
    the EMA uses alpha = 2/(period + 1) and a simple-mean seed of the data. */
module Smoothing {

  /** One smoothing step: the new value `v` weighted by `alpha`, the previous smoothed
      value `p` by `1 - alpha`. */
  function Step(alpha: real, v: real, p: real): real
  {
    alpha * v + (1.0 - alpha) * p
  }

  function Smooth(values: seq<real>, alpha: real, seedAt: nat, seed: real, i: nat): real
    requires seedAt <= i < |values|
    decreases i
  {
    if i == seedAt then seed
    else Step(alpha, values[i], Smooth(values, alpha, seedAt, seed, i - 1))
  }

  lemma MulNonNegative(a: real, b: real)
    requires 0.0 <= a && 0.0 <= b
    ensures 0.0 <= a * b
  {
  }

  /** With 0 <= alpha <= 1 a step is a convex combination: it lies between the value fed
      in and the previous smoothed value. */
  lemma StepBetween(alpha: real, v: real, p: real)
    requires 0.0 <= alpha <= 1.0
    ensures v <= p ==> v <= Step(alpha, v, p) <= p
    ensures p <= v ==> p <= Step(alpha, v, p) <= v
  {
    var s := alpha * v + (1.0 - alpha) * p;
    if v <= p {
      MulNonNegative(alpha, p - v);
      MulNonNegative(1.0 - alpha, p - v);
      assert p - s == alpha * (p - v);
      assert s - v == (1.0 - alpha) * (p - v);
    } else {
      MulNonNegative(alpha, v - p);
      MulNonNegative(1.0 - alpha, v - p);
      assert s - p == alpha * (v - p);
      assert v - s == (1.0 - alpha) * (v - p);
    }
  }

  /** A smoothed value never leaves a band that holds the seed and every value fed in
      after the seed. */
  lemma {:induction false} SmoothWithin(values: seq<real>, alpha: real, seedAt: nat, seed: real, i: nat, lo: real, hi: real)
    requires seedAt <= i < |values|
    requires 0.0 <= alpha <= 1.0
    requires lo <= seed <= hi
    requires forall j :: seedAt < j <= i ==> lo <= values[j] <= hi
    ensures lo <= Smooth(values, alpha, seedAt, seed, i) <= hi
    decreases i
  {
    if i > seedAt {
      SmoothWithin(values, alpha, seedAt, seed, i - 1, lo, hi);
      StepBetween(alpha, values[i], Smooth(values, alpha, seedAt, seed, i - 1));
    }
  }

  /** A positive seed followed by positive values keeps the smoothed value positive. */
  lemma {:induction false} SmoothPositive(values: seq<real>, alpha: real, seedAt: nat, seed: real, i: nat)
    requires seedAt <= i < |values|
    requires 0.0 <= alpha <= 1.0
    requires 0.0 < seed
    requires forall j :: seedAt < j <= i ==> 0.0 < values[j]
    ensures 0.0 < Smooth(values, alpha, seedAt, seed, i)
    decreases i
  {
    if i > seedAt {
      SmoothPositive(values, alpha, seedAt, seed, i - 1);
      StepBetween(alpha, values[i], Smooth(values, alpha, seedAt, seed, i - 1));
    }
  }

  /** The smoothed value at `i` reads only the seed and `values[seedAt+1..i]`:
      two inputs that agree there give the same value. */
  lemma {:induction false} SmoothLocal(a: seq<real>, b: seq<real>, alpha: real, seedAt: nat, seed: real, i: nat)
    requires seedAt <= i < |a| && i < |b|
    requires forall j :: seedAt < j <= i ==> a[j] == b[j]
    ensures Smooth(a, alpha, seedAt, seed, i) == Smooth(b, alpha, seedAt, seed, i)
    decreases i
  {
    if i > seedAt {
      SmoothLocal(a, b, alpha, seedAt, seed, i - 1);
    }
  }

  /** The distance `d` shrunk `n` times by the factor `keep`: keep^n * d. With
      0 <= keep <= 1 it never leaves the interval between 0 and `d`. */
  function Shrink(keep: real, n: nat, d: real): (r: real)
    ensures 0.0 <= keep <= 1.0 && 0.0 <= d ==> 0.0 <= r <= d
    ensures 0.0 <= keep <= 1.0 && d <= 0.0 ==> d <= r <= 0.0
  {
    if n == 0 then d
    else
      var p := Shrink(keep, n - 1, d);
      assert 0.0 <= keep <= 1.0 ==> (0.0 <= p ==> 0.0 <= keep * p <= p) && (p <= 0.0 ==> p <= keep * p <= 0.0) by {
        if 0.0 <= keep <= 1.0 {
          StepBetween(1.0 - keep, 0.0, p);
          assert Step(1.0 - keep, 0.0, p) == keep * p;
        }
      }
      keep * p
  }

  /** Fed a constant `c` after the seed, the smoothed value closes the gap to `c`
      geometrically: after `n` steps the seed's distance from `c` has shrunk `n` times
      by the factor 1 - alpha. */
  lemma {:induction false} SmoothDecays(values: seq<real>, alpha: real, seedAt: nat, seed: real, i: nat, c: real)
    requires seedAt <= i < |values|
    requires forall j :: seedAt < j <= i ==> values[j] == c
    ensures Smooth(values, alpha, seedAt, seed, i) - c == Shrink(1.0 - alpha, i - seedAt, seed - c)
    decreases i
  {
    if i > seedAt {
      var n := i - 1 - seedAt;
      var prev := Smooth(values, alpha, seedAt, seed, i - 1);
      assert prev - c == Shrink(1.0 - alpha, n, seed - c) by {
        SmoothDecays(values, alpha, seedAt, seed, i - 1, c);
      }
      assert Smooth(values, alpha, seedAt, seed, i) == Step(alpha, c, prev);
      StepTowards(alpha, c, prev, n, seed - c);
    }
  }

  /** A step fed `c` shrinks the distance to `c` once more by the factor 1 - alpha. */
  lemma StepTowards(alpha: real, c: real, prev: real, n: nat, d: real)
    requires prev - c == Shrink(1.0 - alpha, n, d)
    ensures Step(alpha, c, prev) - c == Shrink(1.0 - alpha, n + 1, d)
  {
    assert Step(alpha, c, prev) - c == (1.0 - alpha) * (prev - c);
  }
}
