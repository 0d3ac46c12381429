/**
  The pandas series primitives the indicator code is built from: the trailing
  slice `iloc[-k:]`, the first difference `diff()`, element-wise arithmetic on
  index-aligned series, and rolling windows with a `min_periods` rule. A series
  is a sequence of `Value`s; `None` is NaN. Python's list slicing with possibly
  negative bounds is here too, because the offline cache relies on it.
 */
module Series {
  import opened Outcomes

  /** One series entry; `None` is NaN. */
  type Value = Option<real>

  /** A series with no NaN entry. */
  function Defined(xs: seq<real>): (r: seq<Value>)
    ensures |r| == |xs|
    ensures forall i :: 0 <= i < |xs| ==> r[i] == Some(xs[i])
  {
    seq(|xs|, i requires 0 <= i < |xs| => Some(xs[i]))
  }

  predicate AllDefined(s: seq<Value>) {
    forall i :: 0 <= i < |s| ==> s[i].Some?
  }

  // ---------------------------------------------------------------------
  // Trailing slice
  // ---------------------------------------------------------------------

  /** Length of `s.iloc[-k:]` for a series of length `n`. Since `-0 == 0`,
      `iloc[-0:]` is the whole series, so `k == 0` keeps everything. */
  function TailLen(n: nat, k: nat): nat {
    if k == 0 || k >= n then n else k
  }

  /** Number of leading entries `iloc[-k:]` drops. */
  function TailOffset(n: nat, k: nat): nat {
    n - TailLen(n, k)
  }

  /** `s.iloc[-k:]` (and `s[-k:]`): the last `TailLen(|s|, k)` entries. */
  function Tail<T>(s: seq<T>, k: nat): (r: seq<T>)
    ensures |r| == TailLen(|s|, k) <= |s|
    ensures k >= 1 ==> |r| == if k < |s| then k else |s|
    ensures forall i :: 0 <= i < |r| ==> r[i] == s[TailOffset(|s|, k) + i]
  {
    seq(TailLen(|s|, k), i requires 0 <= i < TailLen(|s|, k) => s[TailOffset(|s|, k) + i])
  }

  /** Trimming twice to the same length changes nothing: `x.iloc[-k:].iloc[-k:]`
      is `x.iloc[-k:]`. */
  lemma TailIdempotent<T>(s: seq<T>, k: nat)
    ensures Tail(Tail(s, k), k) == Tail(s, k)
  {
  }

  /** Trimming a series that already fits in the window changes nothing. */
  lemma TailOfShort<T>(s: seq<T>, k: nat)
    requires |s| <= k
    ensures Tail(s, k) == s
  {
  }

  /** Trimming commutes with taking a defined series. */
  lemma TailDefined(xs: seq<real>, k: nat)
    ensures Tail(Defined(xs), k) == Defined(Tail(xs, k))
  {
  }

  // ---------------------------------------------------------------------
  // Element-wise arithmetic on aligned series (NaN in, NaN out)
  // ---------------------------------------------------------------------

  function SubValue(a: Value, b: Value): Value {
    if a.Some? && b.Some? then Some(a.value - b.value) else None
  }

  /** `a - b` on two series with the same index. */
  function Sub(a: seq<Value>, b: seq<Value>): (r: seq<Value>)
    requires |a| == |b|
    ensures |r| == |a|
    ensures forall i :: 0 <= i < |a| ==> r[i] == SubValue(a[i], b[i])
  {
    seq(|a|, i requires 0 <= i < |a| => SubValue(a[i], b[i]))
  }

  /** `a - b` on two series without NaN. */
  function Minus(a: seq<real>, b: seq<real>): (r: seq<real>)
    requires |a| == |b|
    ensures |r| == |a|
    ensures forall i :: 0 <= i < |a| ==> r[i] == a[i] - b[i]
  {
    seq(|a|, i requires 0 <= i < |a| => a[i] - b[i])
  }

  /** Entry `j` of a trimmed defined series. */
  lemma TailDefinedAt(a: seq<real>, k: nat, j: nat)
    requires j < TailLen(|a|, k)
    ensures Tail(Defined(a), k)[j] == Some(a[TailOffset(|a|, k) + j])
  {
  }

  /** Entry `j` of a trimmed difference. */
  lemma TailMinusAt(a: seq<real>, b: seq<real>, k: nat, j: nat)
    requires |a| == |b| && j < TailLen(|a|, k)
    ensures Defined(Tail(Minus(a, b), k))[j] == Some(a[TailOffset(|a|, k) + j] - b[TailOffset(|a|, k) + j])
  {
    var m := Minus(a, b);
    var o := TailOffset(|a|, k);
    assert Tail(m, k)[j] == m[o + j];
    assert m[o + j] == a[o + j] - b[o + j];
  }

  /** Entry `j` of a difference of two entries that are both defined. */
  lemma SubAt(x: seq<Value>, y: seq<Value>, j: nat, p: real, q: real)
    requires |x| == |y| && j < |x| && x[j] == Some(p) && y[j] == Some(q)
    ensures Sub(x, y)[j] == Some(p - q)
  {
  }

  /** Entry `j` of a difference whose left side is defined there: defined
      exactly where the right side is. */
  lemma SubLeftDefinedAt(x: seq<Value>, y: seq<Value>, j: nat, p: real)
    requires |x| == |y| && j < |x| && x[j] == Some(p)
    ensures Sub(x, y)[j].Some? <==> y[j].Some?
    ensures y[j].Some? ==> Sub(x, y)[j].value == p - y[j].value
  {
  }

  /** `a + c * b` for one pair of entries. */
  function AddScaledValue(a: Value, c: real, b: Value): Value {
    if a.Some? && b.Some? then Some(a.value + c * b.value) else None
  }

  /** `a + c * b` on two series with the same index. */
  function AddScaled(a: seq<Value>, c: real, b: seq<Value>): (r: seq<Value>)
    requires |a| == |b|
    ensures |r| == |a|
    ensures forall i :: 0 <= i < |a| ==> r[i] == AddScaledValue(a[i], c, b[i])
  {
    seq(|a|, i requires 0 <= i < |a| => AddScaledValue(a[i], c, b[i]))
  }

  /** `x.diff()`: the first entry has no predecessor and is NaN. */
  function Diff(xs: seq<real>): (r: seq<Value>)
    ensures |r| == |xs|
  {
    seq(|xs|, i requires 0 <= i < |xs| => if i == 0 then None else Some(xs[i] - xs[i - 1]))
  }

  /** `x.diff().abs()`. */
  function AbsDiff(xs: seq<real>): (r: seq<Value>)
    ensures |r| == |xs|
  {
    seq(|xs|, i requires 0 <= i < |xs| =>
      if i == 0 then None
      else if xs[i] >= xs[i - 1] then Some(xs[i] - xs[i - 1])
      else Some(xs[i - 1] - xs[i]))
  }

  /** The first difference is NaN exactly at position 0 and is the change
      from the previous sample everywhere else. */
  lemma DiffEntries(xs: seq<real>)
    ensures forall i :: 0 <= i < |xs| ==>
      (Diff(xs)[i].None? <==> i == 0)
    ensures forall i :: 1 <= i < |xs| ==> Diff(xs)[i].value + xs[i - 1] == xs[i]
  {
  }

  /** Every defined absolute difference is the magnitude of the difference. */
  lemma AbsDiffIsMagnitude(xs: seq<real>, i: nat)
    requires 1 <= i < |xs|
    ensures AbsDiff(xs)[i].Some? && AbsDiff(xs)[i].value >= 0.0
    ensures AbsDiff(xs)[i].value == Diff(xs)[i].value || AbsDiff(xs)[i].value == -Diff(xs)[i].value
  {
  }

  // ---------------------------------------------------------------------
  // Rolling windows
  // ---------------------------------------------------------------------

  /** First position of the length-`w` window that ends at position `i`,
      i.e. `max(0, i - w + 1)`. */
  function WindowStart(i: nat, w: nat): nat {
    if i + 1 >= w then i + 1 - w else 0
  }

  /** The value NaN-skipping aggregates add for one entry. */
  function Weight(v: Value): real {
    if v.Some? then v.value else 0.0
  }

  /** Sum of the non-NaN entries of `s[lo..hi]`. */
  function DefinedSum(s: seq<Value>, lo: nat, hi: nat): real
    requires lo <= hi <= |s|
    decreases hi - lo
  {
    if lo == hi then 0.0 else Weight(s[lo]) + DefinedSum(s, lo + 1, hi)
  }

  /** Number of non-NaN entries of `s[lo..hi]` (pandas' observation count). */
  function DefinedCount(s: seq<Value>, lo: nat, hi: nat): (c: nat)
    requires lo <= hi <= |s|
    ensures c <= hi - lo
    decreases hi - lo
  {
    if lo == hi then 0 else (if s[lo].Some? then 1 else 0) + DefinedCount(s, lo + 1, hi)
  }

  /** `s.rolling(window=w, min_periods=m).sum()`: the sum of the non-NaN
      entries of the window ending at each position, or NaN when the window
      holds fewer than `m` observations. pandas rejects `m > w`. */
  function RollingSum(s: seq<Value>, w: nat, m: nat): (r: seq<Value>)
    requires 1 <= m <= w
    ensures |r| == |s|
  {
    seq(|s|, i requires 0 <= i < |s| =>
      if DefinedCount(s, WindowStart(i, w), i + 1) >= m
      then Some(DefinedSum(s, WindowStart(i, w), i + 1))
      else None)
  }

  /** `s.rolling(window=w, min_periods=m).mean()`: as `RollingSum`, divided
      by the number of observations. */
  function RollingMean(s: seq<Value>, w: nat, m: nat): (r: seq<Value>)
    requires 1 <= m <= w
    ensures |r| == |s|
  {
    seq(|s|, i requires 0 <= i < |s| =>
      if DefinedCount(s, WindowStart(i, w), i + 1) >= m
      then Some(DefinedSum(s, WindowStart(i, w), i + 1) / DefinedCount(s, WindowStart(i, w), i + 1) as real)
      else None)
  }

  /** Plain sum of `xs[lo..hi]`, the reference the rolling lemmas compare with. */
  function Sum(xs: seq<real>, lo: nat, hi: nat): real
    requires lo <= hi <= |xs|
    decreases hi - lo
  {
    if lo == hi then 0.0 else xs[lo] + Sum(xs, lo + 1, hi)
  }

  /** Plain mean of the non-empty range `xs[lo..hi]`. */
  function Mean(xs: seq<real>, lo: nat, hi: nat): real
    requires lo < hi <= |xs|
  {
    Sum(xs, lo, hi) / (hi - lo) as real
  }

  /** On a series without NaN the NaN-skipping aggregates are the plain ones. */
  lemma {:induction false} DefinedAggregates(xs: seq<real>, lo: nat, hi: nat)
    requires lo <= hi <= |xs|
    ensures DefinedSum(Defined(xs), lo, hi) == Sum(xs, lo, hi)
    ensures DefinedCount(Defined(xs), lo, hi) == hi - lo
    decreases hi - lo
  {
    if lo < hi {
      DefinedAggregates(xs, lo + 1, hi);
    }
  }

  /** A rolling window over a NaN-free series holds `min(i + 1, w)` samples,
      so it is defined exactly from position `m - 1` on, and its value is the
      plain sum over `max(0, i - w + 1) .. i`. */
  lemma RollingSumDefined(xs: seq<real>, w: nat, m: nat, i: nat)
    requires 1 <= m <= w && i < |xs|
    ensures RollingSum(Defined(xs), w, m)[i].Some? <==> i + 1 >= m
    ensures i + 1 >= m ==> RollingSum(Defined(xs), w, m)[i].value == Sum(xs, WindowStart(i, w), i + 1)
  {
    DefinedAggregates(xs, WindowStart(i, w), i + 1);
  }

  /** The mean counterpart of `RollingSumDefined`. */
  lemma RollingMeanDefined(xs: seq<real>, w: nat, m: nat, i: nat)
    requires 1 <= m <= w && i < |xs|
    ensures RollingMean(Defined(xs), w, m)[i].Some? <==> i + 1 >= m
    ensures i + 1 >= m ==> RollingMean(Defined(xs), w, m)[i].value == Mean(xs, WindowStart(i, w), i + 1)
  {
    DefinedAggregates(xs, WindowStart(i, w), i + 1);
  }

  /** With `min_periods=1` a rolling mean over a NaN-free series is never
      NaN: every window holds at least its own last sample. */
  lemma RollingMeanAllDefined(xs: seq<real>, w: nat)
    requires w >= 1
    ensures forall i :: 0 <= i < |xs| ==> RollingMean(Defined(xs), w, 1)[i].Some?
  {
    forall i | 0 <= i < |xs|
      ensures RollingMean(Defined(xs), w, 1)[i].Some?
    {
      RollingMeanDefined(xs, w, 1, i);
    }
  }

  /** Extending a window by one entry at the back adds that entry's weight. */
  lemma {:induction false} DefinedSumSnoc(s: seq<Value>, lo: nat, hi: nat)
    requires lo < hi <= |s|
    ensures DefinedSum(s, lo, hi) == DefinedSum(s, lo, hi - 1) + Weight(s[hi - 1])
    ensures DefinedCount(s, lo, hi) == DefinedCount(s, lo, hi - 1) + (if s[hi - 1].Some? then 1 else 0)
    decreases hi - lo
  {
    if lo + 1 < hi {
      DefinedSumSnoc(s, lo + 1, hi);
    }
  }

  /** The sum of first differences telescopes: over positions `lo .. hi-1`
      it is the last sample minus the sample just before the first defined
      difference (position 0 of `diff()` is NaN and adds nothing). */
  lemma {:induction false} DiffTelescopes(xs: seq<real>, lo: nat, hi: nat)
    requires lo < hi <= |xs|
    ensures DefinedSum(Diff(xs), lo, hi) == xs[hi - 1] - xs[if lo == 0 then 0 else lo - 1]
    decreases hi - lo
  {
    DefinedSumSnoc(Diff(xs), lo, hi);
    if lo + 1 < hi {
      DiffTelescopes(xs, lo, hi - 1);
    }
  }

  /** `Diff(xs)` has a defined entry in `lo .. hi-1` unless that range is just position 0. */
  lemma {:induction false} DiffCount(xs: seq<real>, lo: nat, hi: nat)
    requires lo <= hi <= |xs|
    ensures DefinedCount(Diff(xs), lo, hi) == if lo == 0 && hi > 0 then hi - 1 else hi - lo
    decreases hi - lo
  {
    if lo < hi {
      DiffCount(xs, lo + 1, hi);
    }
  }

  /** Sliding a window one step to the right removes the weight of the entry
      that leaves and adds the weight of the entry that enters; the
      incremental update the rolling methods below rely on. */
  lemma SlideWindow(s: seq<Value>, lo: nat, hi: nat)
    requires lo < hi < |s|
    ensures DefinedSum(s, lo + 1, hi + 1) == DefinedSum(s, lo, hi) - Weight(s[lo]) + Weight(s[hi])
    ensures DefinedCount(s, lo + 1, hi + 1) + (if s[lo].Some? then 1 else 0)
         == DefinedCount(s, lo, hi) + (if s[hi].Some? then 1 else 0)
  {
    DefinedSumSnoc(s, lo, hi + 1);
    DefinedSumSnoc(s, lo + 1, hi + 1);
  }

  /** The rolling sum computed in one left-to-right pass that keeps a running
      window sum and observation count, as pandas' rolling kernels do. It
      agrees with the from-scratch window sum at every position. */
  method SlidingRollingSum(s: seq<Value>, w: nat, m: nat) returns (r: seq<Value>)
    requires 1 <= m <= w
    ensures |r| == |s|
    ensures forall i :: 0 <= i < |s| ==>
      (r[i].Some? <==> DefinedCount(s, WindowStart(i, w), i + 1) >= m)
    ensures forall i :: 0 <= i < |s| && r[i].Some? ==>
      r[i].value == DefinedSum(s, WindowStart(i, w), i + 1)
  {
    r := [];
    var total := 0.0;
    var count := 0;
    var i := 0;
    while i < |s|
      invariant 0 <= i <= |s| && |r| == i
      invariant i > 0 ==> total == DefinedSum(s, WindowStart(i - 1, w), i)
      invariant i > 0 ==> count == DefinedCount(s, WindowStart(i - 1, w), i)
      invariant forall j :: 0 <= j < i ==>
        (r[j].Some? <==> DefinedCount(s, WindowStart(j, w), j + 1) >= m)
      invariant forall j :: 0 <= j < i && r[j].Some? ==>
        r[j].value == DefinedSum(s, WindowStart(j, w), j + 1)
    {
      if i == 0 {
        total := Weight(s[0]);
        count := if s[0].Some? then 1 else 0;
      } else if i + 1 > w {
        // the window ending at i drops position i - w and gains position i
        SlideWindow(s, i - w, i);
        total := total - Weight(s[i - w]) + Weight(s[i]);
        count := count - (if s[i - w].Some? then 1 else 0) + (if s[i].Some? then 1 else 0);
      } else {
        DefinedSumSnoc(s, 0, i + 1);
        total := total + Weight(s[i]);
        count := count + (if s[i].Some? then 1 else 0);
      }
      r := r + [if count >= m then Some(total) else None];
      i := i + 1;
    }
  }

  /** The one-pass method and the from-scratch definition are the same series. */
  lemma SlidingMatchesRolling(s: seq<Value>, w: nat, m: nat, r: seq<Value>)
    requires 1 <= m <= w && |r| == |s|
    requires forall i :: 0 <= i < |s| ==>
      (r[i].Some? <==> DefinedCount(s, WindowStart(i, w), i + 1) >= m)
    requires forall i :: 0 <= i < |s| && r[i].Some? ==>
      r[i].value == DefinedSum(s, WindowStart(i, w), i + 1)
    ensures r == RollingSum(s, w, m)
  {
  }

  // ---------------------------------------------------------------------
  // Python list slicing
  // ---------------------------------------------------------------------

  /** How Python normalises one slice bound for a list of length `n`:
      a negative bound counts from the end, then it is clamped to `0 .. n`. */
  function SliceBound(x: int, n: nat): (b: nat)
    ensures b <= n
  {
    if x < 0 then (if x + n < 0 then 0 else x + n)
    else if x > n then n
    else x
  }

  /** `s[a:b]` in Python, for any integers `a` and `b`. */
  function PySlice<T>(s: seq<T>, a: int, b: int): (r: seq<T>)
    ensures |r| <= |s|
  {
    var lo := SliceBound(a, |s|);
    var hi := SliceBound(b, |s|);
    if lo < hi then s[lo..hi] else []
  }

  /** With bounds already inside the list, Python slicing is Dafny slicing. */
  lemma PySliceInRange<T>(s: seq<T>, a: int, b: int)
    requires 0 <= a <= b <= |s|
    ensures PySlice(s, a, b) == s[a..b]
  {
  }

  /** The slice `s[e-n:e]` of a list with `e < |s|` has exactly `n` elements
      when `n <= e`; when `n > e` the negative start wraps around to the end
      of the list and the slice comes out shorter than `n`. */
  lemma TrailingSliceLength<T>(s: seq<T>, e: nat, n: nat)
    requires e < |s|
    ensures n <= e ==> |PySlice(s, e - n, e)| == n
    ensures n > e ==> |PySlice(s, e - n, e)| < n
  {
  }
}
