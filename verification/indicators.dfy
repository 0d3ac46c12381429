/**
  Indicator building blocks shared by both versions of the feature code:
  MACD, the Gain/Loss split of the daily change, relative strength and RSI,
  Momentum as a rolling sum of the change, and TRAMA. Each is a pure
  function of series; which series it is applied to, and where the trailing
  slice happens, is decided by the two assembly modules (`PastNumDays` for
  `indicators_past_num_days`, `TodayInfo` for `getInfoToday`).
 */
module Indicators {
  import opened Outcomes
  import opened Series
  import opened Ewm

  const FastSpan: nat := 12
  const SlowSpan: nat := 26
  const TrendSpan: nat := 200
  const SignalWindow: nat := 9
  const MomentumWindow: nat := 10
  const RsiWindow: nat := 14
  const TramaWindow: nat := 14
  const VolatilityWeight: real := 0.1

  /** Raw daily history as fetched: one close and one volume per trading day. */
  datatype History = History(close: seq<real>, volume: seq<real>)

  /** Helpers defined in files that are not part of this model, taken as
      given functions: the two liquidity-spike transforms of Volume, the
      momentum oscillator of Close, and the cross-over detector. */
  datatype Helpers = Helpers(
    gradualSpikes: seq<real> -> seq<Value>,
    sharpSpikes: seq<real> -> seq<Value>,
    oscillator: seq<real> -> seq<Value>,
    flips: (seq<Value>, seq<Value>) -> seq<Value>)

  /** Earnings history from the earnings collaborator: announcement dates (as
      day numbers) and the surprise recorded for each. */
  datatype Earnings = Earnings(dates: seq<int>, diffs: seq<real>)

  /** A date as the code holds it: a `"%Y-%m-%d"` string or a `datetime`.
      Python never finds a string equal to a `datetime`, whatever days the
      two name. */
  datatype Stamp = Text(day: int) | Moment(day: int)

  /** Which earnings lookup a model of a whole method performs: the intended
      one, on dates of one type, or the code as written, with the stored
      earnings dates strings (`text`) or `datetime`s. */
  datatype DateHandling = Intended | AsWritten(text: bool)

  /** Day `d` as a string (`text`) or as a `datetime`. */
  function StampOf(d: int, text: bool): Stamp {
    if text then Text(d) else Moment(d)
  }

  /** The earnings dates as the earnings collaborator hands them over: all
      strings when `text`, all `datetime`s otherwise. */
  function Stamped(dates: seq<int>, text: bool): (r: seq<Stamp>)
    ensures |r| == |dates|
    ensures forall i :: 0 <= i < |r| ==> r[i].day == dates[i] && r[i].Text? == text
  {
    seq(|dates|, i requires 0 <= i < |dates| => StampOf(dates[i], text))
  }

  /** Looking a day up among dates of its own kind finds it exactly when it
      is an earnings date, at the same position; a day of the other kind is
      never found. */
  lemma {:induction false} StampedIndex(dates: seq<int>, text: bool, d: int)
    ensures StampOf(d, text) in Stamped(dates, text) <==> d in dates
    ensures StampOf(d, !text) !in Stamped(dates, text)
    ensures d in dates ==> IndexOf(Stamped(dates, text), StampOf(d, text)) == IndexOf(dates, d)
  {
    var st := Stamped(dates, text);
    forall k | 0 <= k < |st|
      ensures st[k] != StampOf(d, !text)
    {
      assert st[k].Text? == text;
    }
    if StampOf(d, text) in st {
      var k :| 0 <= k < |st| && st[k] == StampOf(d, text);
      assert dates[k] == d;
    }
    if d in dates {
      var i := IndexOf(dates, d);
      assert st[i] == StampOf(d, text);
      var k := IndexOf(st, StampOf(d, text));
      assert dates[k] == d;
      assert st[i] == StampOf(d, text);
    }
  }

  /** One pass of either earnings loop (models.py:485-488, Models.py:254-258)
      for any pair of dates: `None` (the loop appends 0) when `tested` is not
      among the earnings dates; otherwise the surprise stored at the first
      occurrence of `looked`. `list.index` raises ValueError for a missing
      date, and a surprise list shorter than the date list raises IndexError. */
  function Lookup(dates: seq<Stamp>, diffs: seq<real>, tested: Stamp, looked: Stamp): (r: Result<Option<real>>)
    ensures (r.Ok? && r.value.None?) <==> tested !in dates
    ensures r == Raise(ValueFault) <==> tested in dates && looked !in dates
    ensures r.Raise? ==> r.fault == ValueFault || r.fault == IndexFault
    ensures r.Ok? && r.value.Some? ==>
      looked in dates && IndexOf(dates, looked) < |diffs| && r.value.value == diffs[IndexOf(dates, looked)]
  {
    if tested !in dates then Ok(None)
    else if looked !in dates then Raise(ValueFault)
    else
      var i := IndexOf(dates, looked);
      if i < |diffs| then Ok(Some(diffs[i])) else Raise(IndexFault)
  }

  /** MACD: the 12-span EMA minus the 26-span EMA, position by position. */
  function Macd(close: seq<real>): (r: seq<real>)
    ensures |r| == |close|
  {
    Minus(Ema(close, FastSpan), Ema(close, SlowSpan))
  }

  /** Subtracting two series trimmed to the same window is the same as
      trimming their difference. */
  lemma TrimThenSubtract(a: seq<real>, b: seq<real>, k: nat)
    requires |a| == |b|
    ensures Sub(Tail(Defined(a), k), Tail(Defined(b), k)) == Defined(Tail(Minus(a, b), k))
  {
    forall j | 0 <= j < TailLen(|a|, k)
      ensures Sub(Tail(Defined(a), k), Tail(Defined(b), k))[j] == Defined(Tail(Minus(a, b), k))[j]
    {
      TrimThenSubtractAt(a, b, k, j);
    }
  }

  lemma TrimThenSubtractAt(a: seq<real>, b: seq<real>, k: nat, j: nat)
    requires |a| == |b| && j < TailLen(|a|, k)
    ensures Sub(Tail(Defined(a), k), Tail(Defined(b), k))[j] == Defined(Tail(Minus(a, b), k))[j]
  {
    var o := TailOffset(|a|, k);
    TailDefinedAt(a, k, j);
    TailDefinedAt(b, k, j);
    SubAt(Tail(Defined(a), k), Tail(Defined(b), k), j, a[o + j], b[o + j]);
    TailMinusAt(a, b, k, j);
  }

  /** A flat price history has a zero MACD. */
  lemma MacdOfConstant(close: seq<real>, c: real)
    requires forall i :: 0 <= i < |close| ==> close[i] == c
    ensures forall i :: 0 <= i < |close| ==> Macd(close)[i] == 0.0
  {
    EmaOfConstant(close, FastSpan, c);
    EmaOfConstant(close, SlowSpan, c);
  }

  /** MACD is the pointwise difference of the two EMAs at every position. */
  lemma MacdIsEmaDifference(close: seq<real>, i: nat)
    requires i < |close|
    ensures Macd(close)[i] + EmaAt(close, Alpha(SlowSpan), i) == EmaAt(close, Alpha(FastSpan), i)
  {
  }

  // ---------------------------------------------------------------------
  // Gain / Loss
  // ---------------------------------------------------------------------

  /** `x if x > 0 else 0`. For NaN the comparison is false, so NaN gives 0. */
  function GainOf(v: Value): real {
    if v.Some? && v.value > 0.0 then v.value else 0.0
  }

  /** `abs(x) if x < 0 else 0`. NaN gives 0 as well. */
  function LossOf(v: Value): real {
    if v.Some? && v.value < 0.0 then -v.value else 0.0
  }

  /** `change.apply(lambda x: x if x > 0 else 0)`: a NaN-free series. */
  function Gains(change: seq<Value>): (r: seq<real>)
    ensures |r| == |change|
  {
    seq(|change|, i requires 0 <= i < |change| => GainOf(change[i]))
  }

  /** `change.apply(lambda x: abs(x) if x < 0 else 0)`. */
  function Losses(change: seq<Value>): (r: seq<real>)
    ensures |r| == |change|
  {
    seq(|change|, i requires 0 <= i < |change| => LossOf(change[i]))
  }

  /** Gain and Loss are non-negative, at most one of them is non-zero, their
      difference is the change wherever the change is defined, and both are
      zero where the change is NaN. */
  lemma GainLossSplit(change: seq<Value>)
    ensures forall i :: 0 <= i < |change| ==>
      Gains(change)[i] >= 0.0 && Losses(change)[i] >= 0.0
    ensures forall i :: 0 <= i < |change| ==>
      Gains(change)[i] == 0.0 || Losses(change)[i] == 0.0
    ensures forall i :: 0 <= i < |change| && change[i].Some? ==>
      Gains(change)[i] - Losses(change)[i] == change[i].value
    ensures forall i :: 0 <= i < |change| && change[i].None? ==>
      Gains(change)[i] == 0.0 && Losses(change)[i] == 0.0
  {
  }

  /** The mean of non-negative samples is non-negative. */
  lemma {:induction false} SumNonNegative(xs: seq<real>, lo: nat, hi: nat)
    requires lo <= hi <= |xs|
    requires forall i :: lo <= i < hi ==> xs[i] >= 0.0
    ensures Sum(xs, lo, hi) >= 0.0
    decreases hi - lo
  {
    if lo < hi {
      SumNonNegative(xs, lo + 1, hi);
    }
  }

  /** Every defined rolling mean of Gains or Losses is non-negative. */
  lemma RollingMeanNonNegative(xs: seq<real>, w: nat, m: nat, i: nat)
    requires 1 <= m <= w && i < |xs|
    requires forall j :: 0 <= j < |xs| ==> xs[j] >= 0.0
    ensures RollingMean(Defined(xs), w, m)[i].Some? ==> RollingMean(Defined(xs), w, m)[i].value >= 0.0
  {
    RollingMeanDefined(xs, w, m, i);
    if i + 1 >= m {
      SumNonNegative(xs, WindowStart(i, w), i + 1);
    }
  }

  // ---------------------------------------------------------------------
  // Relative strength and RSI
  // ---------------------------------------------------------------------

  /** `avg_gain / avg_loss` for one entry. pandas gives inf or NaN when the
      average loss is 0; both are kept as undefined here. */
  function RsValue(gain: Value, loss: Value): Value {
    if gain.Some? && loss.Some? && loss.value != 0.0 then Some(gain.value / loss.value) else None
  }

  /** `100 - 100 / (1 + rs)` for one entry. */
  function RsiValue(rs: Value): Value {
    if rs.Some? && 1.0 + rs.value != 0.0 then Some(100.0 - 100.0 / (1.0 + rs.value)) else None
  }

  /** The relative-strength series of two aligned average series. */
  function RelativeStrength(avgGain: seq<Value>, avgLoss: seq<Value>): (r: seq<Value>)
    requires |avgGain| == |avgLoss|
    ensures |r| == |avgGain|
  {
    seq(|avgGain|, i requires 0 <= i < |avgGain| => RsValue(avgGain[i], avgLoss[i]))
  }

  /** The RSI series of a relative-strength series. */
  function Rsi(rs: seq<Value>): (r: seq<Value>)
    ensures |r| == |rs|
  {
    seq(|rs|, i requires 0 <= i < |rs| => RsiValue(rs[i]))
  }

  /** With a non-negative average gain and a positive average loss, RSI is
      defined, equals `100 * gain / (gain + loss)`, and lies in `[0, 100)`.
      It is undefined when the average loss is 0 (no clamping to 100). */
  lemma RsiRange(gain: real, loss: real)
    requires gain >= 0.0 && loss > 0.0
    ensures RsiValue(RsValue(Some(gain), Some(loss))).Some?
    ensures RsiValue(RsValue(Some(gain), Some(loss))).value == 100.0 * gain / (gain + loss)
    ensures 0.0 <= RsiValue(RsValue(Some(gain), Some(loss))).value < 100.0
  {
    var rs := gain / loss;
    assert rs >= 0.0;
    assert (1.0 + rs) * loss == gain + loss;
    var rsi := 100.0 - 100.0 / (1.0 + rs);
    assert 100.0 / (1.0 + rs) == 100.0 * loss / (gain + loss);
    assert rsi == 100.0 * gain / (gain + loss);
    assert 100.0 / (1.0 + rs) > 0.0;
    assert 100.0 / (1.0 + rs) <= 100.0;
  }

  /** A zero average loss leaves RSI undefined whatever the gain. */
  lemma RsiUndefinedWithoutLoss(gain: Value)
    ensures RsiValue(RsValue(gain, Some(0.0))).None?
  {
  }

  // ---------------------------------------------------------------------
  // Momentum and TRAMA
  // ---------------------------------------------------------------------

  /** `change.rolling(window=10, min_periods=1).sum()`. */
  function Momentum(change: seq<Value>): (r: seq<Value>)
    ensures |r| == |change|
  {
    RollingSum(change, MomentumWindow, 1)
  }

  /** NaN-skipping aggregates over a suffix `s[o..]` are aggregates over `s`
      shifted by `o`. */
  lemma {:induction false} ShiftAggregates(s: seq<Value>, o: nat, lo: nat, hi: nat)
    requires o <= |s| && lo <= hi <= |s| - o
    ensures DefinedSum(s[o..], lo, hi) == DefinedSum(s, o + lo, o + hi)
    ensures DefinedCount(s[o..], lo, hi) == DefinedCount(s, o + lo, o + hi)
    decreases hi - lo
  {
    if lo < hi {
      ShiftAggregates(s, o, lo + 1, hi);
    }
  }

  /** Position in the full history of the close just before the first change
      that the momentum window ending at trimmed position `j` adds up
      (position 0 when the window reaches back to the NaN first difference). */
  function MomentumBase(o: nat, j: nat): nat {
    var first := o + WindowStart(j, MomentumWindow);
    if first == 0 then 0 else first - 1
  }

  /** Momentum of the trimmed change telescopes into a price difference:
      when the change is trimmed to the last `k` days before the rolling sum,
      the entry at window position `j` is the close at `j` minus the close
      just before the window start, where the window never reaches back past
      the trimmed series. It is NaN only at the very first history day. */
  lemma MomentumOfTrimmedChange(close: seq<real>, k: nat, j: nat)
    requires j < TailLen(|close|, k)
    ensures Momentum(Tail(Diff(close), k))[j].Some? <==> TailOffset(|close|, k) + j >= 1
    ensures Momentum(Tail(Diff(close), k))[j].Some? ==>
      Momentum(Tail(Diff(close), k))[j].value
        == close[TailOffset(|close|, k) + j] - close[MomentumBase(TailOffset(|close|, k), j)]
  {
    var o := TailOffset(|close|, k);
    var d := Diff(close);
    var t := d[o..];
    var lo := WindowStart(j, MomentumWindow);
    assert Momentum(Tail(d, k))[j] ==
      if DefinedCount(t, lo, j + 1) >= 1 then Some(DefinedSum(t, lo, j + 1)) else None by {
      assert Tail(d, k) == t;
    }
    TrimmedChangeCount(close, o, j);
    if o + j >= 1 {
      TrimmedChangeSum(close, o, j);
    }
  }

  /** The momentum window ending at trimmed position `j` holds a defined
      change unless it is the very first history day. */
  lemma TrimmedChangeCount(close: seq<real>, o: nat, j: nat)
    requires o + j < |close|
    ensures DefinedCount(Diff(close)[o..], WindowStart(j, MomentumWindow), j + 1) >= 1 <==> o + j >= 1
  {
    var lo := WindowStart(j, MomentumWindow);
    ShiftAggregates(Diff(close), o, lo, j + 1);
    DiffCount(close, o + lo, o + j + 1);
  }

  /** The changes in that window add up to the close minus the close just
      before the window. */
  lemma TrimmedChangeSum(close: seq<real>, o: nat, j: nat)
    requires 1 <= o + j < |close|
    ensures DefinedSum(Diff(close)[o..], WindowStart(j, MomentumWindow), j + 1)
      == close[o + j] - close[MomentumBase(o, j)]
  {
    var lo := WindowStart(j, MomentumWindow);
    ShiftAggregates(Diff(close), o, lo, j + 1);
    DiffTelescopes(close, o + lo, o + j + 1);
  }

  /** The same rolling sum taken over the full history and trimmed afterwards
      is a genuine 10-day momentum; so the place of the trim matters: with
      close `[0, 1, 2, 3]` and `k = 2` the trimmed-first momentum is `[1, 2]`
      while the trimmed-after momentum is `[2, 3]`. */
  lemma TrimBeforeRollingDiffers()
    ensures Momentum(Tail(Diff([0.0, 1.0, 2.0, 3.0]), 2)) == [Some(1.0), Some(2.0)]
    ensures Tail(Momentum(Diff([0.0, 1.0, 2.0, 3.0])), 2) == [Some(2.0), Some(3.0)]
  {
    var close := [0.0, 1.0, 2.0, 3.0];
    var d := Diff(close);
    assert d == [None, Some(1.0), Some(1.0), Some(1.0)];
    var t := Tail(d, 2);
    assert t == [Some(1.0), Some(1.0)];
    assert DefinedSum(t, 0, 1) == 1.0;
    assert DefinedSum(t, 0, 2) == 2.0;
    assert DefinedCount(t, 0, 1) == 1;
    assert DefinedCount(t, 0, 2) == 2;
    assert DefinedSum(d, 0, 3) == 2.0;
    assert DefinedSum(d, 0, 4) == 3.0;
    assert DefinedCount(d, 0, 3) == 2;
    assert DefinedCount(d, 0, 4) == 3;
  }

  /** TRAMA on the trailing `k` days: the `w`-day rolling mean of Close
      (defined only for full windows) plus 0.1 times that day's absolute
      change. Both parts are trimmed to the same tail before they are added. */
  function Trama(close: seq<real>, w: nat, k: nat): (r: seq<Value>)
    ensures |r| == TailLen(|close|, k)
  {
    AddScaled(Tail(FullWindowMean(close, w), k), VolatilityWeight, Tail(AbsDiff(close), k))
  }

  /** `close.rolling(window=w).mean()`: the default `min_periods` asks for a
      full window. pandas accepts a window of 0, which holds no observation,
      so then every entry is NaN. */
  function FullWindowMean(close: seq<real>, w: nat): (r: seq<Value>)
    ensures |r| == |close|
    ensures w == 0 ==> forall i :: 0 <= i < |r| ==> r[i].None?
  {
    if w == 0 then seq(|close|, i => None) else RollingMean(Defined(close), w, w)
  }

  /** TRAMA at window position `j` is defined exactly when the full history
      holds a complete `w`-day window and a previous day at that position, and
      then equals the window mean plus 0.1 times the absolute daily change. */
  lemma TramaEntry(close: seq<real>, w: nat, k: nat, j: nat)
    requires j < TailLen(|close|, k)
    ensures Trama(close, w, k)[j].Some? <==>
      (w >= 1 && TailOffset(|close|, k) + j + 1 >= w && TailOffset(|close|, k) + j >= 1)
    ensures Trama(close, w, k)[j].Some? ==>
      var p := TailOffset(|close|, k) + j;
      Trama(close, w, k)[j].value
        == Mean(close, p + 1 - w, p + 1) + VolatilityWeight * AbsDiff(close)[p].value
  {
    var p := TailOffset(|close|, k) + j;
    var m := FullWindowMean(close, w);
    assert Trama(close, w, k)[j] == AddScaledValue(m[p], VolatilityWeight, AbsDiff(close)[p]);
    if p >= 1 {
      AbsDiffIsMagnitude(close, p);
    }
    if w >= 1 {
      RollingMeanDefined(close, w, w, p);
    }
  }
}
