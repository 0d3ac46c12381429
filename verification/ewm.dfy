/**
  The exponential moving average pandas computes for
  `x.ewm(span=s, adjust=False).mean()` on a series without NaN:
  `ema[0] = x[0]` and `ema[t] = a * x[t] + (1 - a) * ema[t-1]` with
  smoothing factor `a = 2 / (s + 1)`.
 */
module Ewm {

  /** Smoothing factor pandas derives from `span`. */
  function Alpha(span: nat): (a: real)
    ensures span >= 1 ==> 0.0 < a <= 1.0
  {
    2.0 / (span as real + 1.0)
  }

  /** The EMA value at position `t`, defined by the recurrence. */
  function EmaAt(xs: seq<real>, a: real, t: nat): real
    requires t < |xs|
    decreases t
  {
    if t == 0 then xs[0] else a * xs[t] + (1.0 - a) * EmaAt(xs, a, t - 1)
  }

  /** The whole EMA series: same length as its input, seeded with the first
      sample. */
  function Ewm(xs: seq<real>, a: real): (r: seq<real>)
    ensures |r| == |xs|
    ensures |xs| > 0 ==> r[0] == xs[0]
  {
    seq(|xs|, t requires 0 <= t < |xs| => EmaAt(xs, a, t))
  }

  /** The series follows the `adjust=False` recurrence. (Kept out of `Ewm`'s
      own contract: every entry it mentions would name the one before.) */
  lemma EwmRecurrence(xs: seq<real>, a: real)
    ensures forall t :: 1 <= t < |xs| ==> Ewm(xs, a)[t] == a * xs[t] + (1.0 - a) * Ewm(xs, a)[t - 1]
  {
  }

  /** `x.ewm(span=span, adjust=False).mean()`. */
  function Ema(xs: seq<real>, span: nat): (r: seq<real>)
    ensures |r| == |xs|
  {
    Ewm(xs, Alpha(span))
  }

  /** The EMA computed the way a streaming implementation does, carrying the
      previous average forward one sample at a time. */
  method StreamEwm(xs: seq<real>, a: real) returns (r: seq<real>)
    ensures |r| == |xs|
    ensures |xs| > 0 ==> r[0] == xs[0]
    ensures forall t :: 1 <= t < |xs| ==> r[t] == a * xs[t] + (1.0 - a) * r[t - 1]
    ensures r == Ewm(xs, a)
  {
    r := [];
    var i := 0;
    while i < |xs|
      invariant 0 <= i <= |xs| && |r| == i
      invariant i > 0 ==> r[0] == xs[0]
      invariant forall t :: 1 <= t < i ==> r[t] == a * xs[t] + (1.0 - a) * r[t - 1]
    {
      var next := if i == 0 then xs[0] else a * xs[i] + (1.0 - a) * r[i - 1];
      r := r + [next];
      i := i + 1;
    }
    RecurrenceDeterminesEwm(xs, a, r);
  }

  /** The recurrence determines the series: any series that starts at
      `xs[0]` and follows it is `Ewm(xs, a)`; `StreamEwm` uses it to show
      that the streaming EMA and the batch EMA agree. */
  lemma {:induction false} RecurrenceDeterminesEwm(xs: seq<real>, a: real, r: seq<real>)
    requires |r| == |xs|
    requires |xs| > 0 ==> r[0] == xs[0]
    requires forall t :: 1 <= t < |xs| ==> r[t] == a * xs[t] + (1.0 - a) * r[t - 1]
    ensures r == Ewm(xs, a)
  {
    var e := Ewm(xs, a);
    EwmRecurrence(xs, a);
    var t := 0;
    while t < |xs|
      invariant 0 <= t <= |xs|
      invariant forall j :: 0 <= j < t ==> r[j] == e[j]
    {
      if t > 0 {
        assert r[t] == a * xs[t] + (1.0 - a) * r[t - 1] == a * xs[t] + (1.0 - a) * e[t - 1];
      }
      t := t + 1;
    }
  }

  /** The EMA is causal: the average at position `t` depends only on the
      samples up to `t`, so appending later samples never changes it. */
  lemma {:induction false} EmaAtPrefix(xs: seq<real>, ys: seq<real>, a: real, t: nat)
    requires t < |xs| && t < |ys|
    requires xs[..t + 1] == ys[..t + 1]
    ensures EmaAt(xs, a, t) == EmaAt(ys, a, t)
    decreases t
  {
    assert xs[t] == xs[..t + 1][t] == ys[..t + 1][t] == ys[t];
    if t > 0 {
      assert xs[..t] == xs[..t + 1][..t];
      assert ys[..t] == ys[..t + 1][..t];
      EmaAtPrefix(xs, ys, a, t - 1);
    }
  }

  /** Computing the EMA on a shorter history gives a prefix of the EMA on
      the longer one. */
  lemma EwmPrefix(xs: seq<real>, a: real, n: nat)
    requires n <= |xs|
    ensures Ewm(xs[..n], a) == Ewm(xs, a)[..n]
  {
    forall t | 0 <= t < n
      ensures EmaAt(xs[..n], a, t) == EmaAt(xs, a, t)
    {
      assert xs[..n][..t + 1] == xs[..t + 1];
      EmaAtPrefix(xs[..n], xs, a, t);
    }
  }

  lemma MulNonNegative(p: real, q: real)
    requires p >= 0.0 && q >= 0.0
    ensures p * q >= 0.0
  {
  }

  /** A convex combination of two values in `[lo, hi]` stays in `[lo, hi]`. */
  lemma ConvexStep(a: real, x: real, e: real, lo: real, hi: real)
    requires 0.0 <= a <= 1.0
    requires lo <= x <= hi && lo <= e <= hi
    ensures lo <= a * x + (1.0 - a) * e <= hi
  {
    var b := 1.0 - a;
    MulNonNegative(a, x - lo);
    MulNonNegative(b, e - lo);
    MulNonNegative(a, hi - x);
    MulNonNegative(b, hi - e);
    assert a * x + b * e - lo == a * (x - lo) + b * (e - lo);
    assert hi - (a * x + b * e) == a * (hi - x) + b * (hi - e);
  }

  /** With `0 <= a <= 1` the EMA never leaves the range of the samples seen
      so far: if every sample lies in `[lo, hi]`, so does every average. */
  lemma {:induction false} EmaAtBounded(xs: seq<real>, a: real, lo: real, hi: real, t: nat)
    requires 0.0 <= a <= 1.0 && t < |xs|
    requires forall i :: 0 <= i < |xs| ==> lo <= xs[i] <= hi
    ensures lo <= EmaAt(xs, a, t) <= hi
    decreases t
  {
    if t > 0 {
      EmaAtBounded(xs, a, lo, hi, t - 1);
      ConvexStep(a, xs[t], EmaAt(xs, a, t - 1), lo, hi);
    }
  }

  /** The series form of `EmaAtBounded`, for every span pandas accepts. */
  lemma EmaBounded(xs: seq<real>, span: nat, lo: real, hi: real)
    requires span >= 1
    requires forall i :: 0 <= i < |xs| ==> lo <= xs[i] <= hi
    ensures forall t :: 0 <= t < |xs| ==> lo <= Ema(xs, span)[t] <= hi
  {
    forall t | 0 <= t < |xs|
      ensures lo <= Ema(xs, span)[t] <= hi
    {
      EmaAtBounded(xs, Alpha(span), lo, hi, t);
    }
  }

  /** A flat price history has a flat EMA at the same level, for any span. */
  lemma EmaOfConstant(xs: seq<real>, span: nat, c: real)
    requires span >= 1
    requires forall i :: 0 <= i < |xs| ==> xs[i] == c
    ensures forall t :: 0 <= t < |xs| ==> Ema(xs, span)[t] == c
  {
    EmaBounded(xs, span, c, c);
  }
}
