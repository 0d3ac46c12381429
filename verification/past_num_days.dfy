/**
  `BaseModel.indicators_past_num_days` of Stock-Bot-Predicter-AI/models.py:
  from the cached Close/Volume history it derives every column the model's
  information keys ask for, trims each to the trailing `num_days` window,
  adds the earnings columns when asked, and scales every requested column
  that is not in the exclusion set with its stored `(min, diff)` entry.

  The window alignment rules, as the code has them:
  - Close, the EMAs, MACD, the Signal Line, TRAMA's mean and the helpers'
    outputs are computed on the full history and trimmed afterwards;
  - the Change series is trimmed first, and Momentum and RSI are computed on
    the trimmed Change, so their windows never reach back before the
    trailing window;
  - the Histogram subtracts the trimmed Signal Line from the untrimmed MACD,
    which pandas aligns on the index.
 */
module PastNumDays {
  import opened Outcomes
  import opened Series
  import opened Ewm
  import opened Indicators
  import opened Scaling

  const CloseKey := "Close"
  const Ema12Key := "12-day EMA"
  const Ema26Key := "26-day EMA"
  const MacdKey := "MACD"
  const SignalKey := "Signal Line"
  const HistogramKey := "Histogram"
  const Ema200Key := "200-day EMA"
  const ChangeKey := "Change"
  const MomentumKey := "Momentum"
  const RsiKey := "RSI"
  const TramaKey := "TRAMA"
  const GradualSpikeKey := "gradual-liquidity spike"
  const SharpSpikeKey := "3-liquidity spike"
  const OscillatorKey := "momentum_oscillator"
  const EmaFlipsKey := "ema_flips"
  const SignalFlipsKey := "signal_flips"
  const EarningDiffsKey := "earning diffs"
  const EarningsDatesKey := "earnings dates"

  /** The built-in keys are pairwise distinct; stated once so that proofs
      about one column need not compare string literals. */
  lemma BuiltinKeysDistinct()
    ensures |CloseKey| == 5 && |Ema12Key| == 10 && |Ema26Key| == 10 && |MacdKey| == 4
    ensures |SignalKey| == 11 && |HistogramKey| == 9 && |Ema200Key| == 11 && |ChangeKey| == 6
    ensures |MomentumKey| == 8 && |RsiKey| == 3 && |TramaKey| == 5 && |GradualSpikeKey| == 23
    ensures |SharpSpikeKey| == 17 && |OscillatorKey| == 19 && |EmaFlipsKey| == 9 && |SignalFlipsKey| == 12
    ensures CloseKey != TramaKey && Ema12Key != Ema26Key && SignalKey != Ema200Key && HistogramKey != EmaFlipsKey
  {
    assert CloseKey[0] != TramaKey[0];
    assert Ema12Key[0] != Ema26Key[0];
    assert SignalKey[0] != Ema200Key[0];
    assert HistogramKey[0] != EmaFlipsKey[0];
  }

  /** Columns derived from Close alone; each one is trimmed to the window. */
  const CloseDerived: set<string> :=
    {CloseKey, Ema12Key, Ema26Key, MacdKey, SignalKey, HistogramKey, Ema200Key,
     ChangeKey, MomentumKey, RsiKey, TramaKey}

  /** The two earnings names are not Close-derived columns: their lengths
      (13 and 14) differ from every name in that set. */
  lemma EarningsKeysNotDerived()
    ensures EarningDiffsKey !in CloseDerived && EarningsDatesKey !in CloseDerived
  {
    BuiltinKeysDistinct();
    assert |EarningDiffsKey| == 13 && |EarningsDatesKey| == 14;
  }

  /** `macd.rolling(window=9, min_periods=1).mean().iloc[-num_days:]`. */
  function SignalLine(close: seq<real>, n: nat): (r: seq<Value>)
    ensures |r| == TailLen(|close|, n)
    ensures forall j :: 0 <= j < |r| ==> r[j].Some?
  {
    RollingMeanAllDefined(Macd(close), SignalWindow);
    Tail(RollingMean(Defined(Macd(close)), SignalWindow, 1), n)
  }

  /** `cached_info['Close'].diff().iloc[-num_days:]`. */
  function TrimmedChange(close: seq<real>, n: nat): (r: seq<Value>)
    ensures |r| == TailLen(|close|, n)
  {
    Tail(Diff(close), n)
  }

  /** `full - trimmed` where `trimmed` carries the last `|trimmed|` index
      labels of `full`: pandas aligns the two on the index, so every label
      that only `full` has becomes NaN. */
  function AlignedSub(full: seq<Value>, trimmed: seq<Value>): (r: seq<Value>)
    requires |trimmed| <= |full|
    ensures |r| == |full|
    ensures forall i :: 0 <= i < |full| - |trimmed| ==> r[i].None?
    ensures forall j :: 0 <= j < |trimmed| ==> r[|full| - |trimmed| + j] == SubValue(full[|full| - |trimmed| + j], trimmed[j])
  {
    var o := |full| - |trimmed|;
    seq(|full|, i requires 0 <= i < |full| => if i < o then None else SubValue(full[i], trimmed[i - o]))
  }

  /** `(macd - signal_line).iloc[-num_days:]`. */
  function Histogram(close: seq<real>, n: nat): (r: seq<Value>)
    ensures |r| == TailLen(|close|, n)
  {
    Tail(AlignedSub(Defined(Macd(close)), SignalLine(close, n)), n)
  }

  /** `gain.rolling(window=14).mean().iloc[-num_days:]`: no `min_periods`,
      so pandas requires a full 14-sample window. */
  function AvgGain(close: seq<real>, n: nat): (r: seq<Value>)
    ensures |r| == TailLen(|close|, n)
  {
    Tail(RollingMean(Defined(Gains(TrimmedChange(close, n))), RsiWindow, RsiWindow), n)
  }

  /** `loss.rolling(window=14).mean().iloc[-num_days:]`. */
  function AvgLoss(close: seq<real>, n: nat): (r: seq<Value>)
    ensures |r| == TailLen(|close|, n)
  {
    Tail(RollingMean(Defined(Losses(TrimmedChange(close, n))), RsiWindow, RsiWindow), n)
  }

  /** `100 - (100 / (1 + avg_gain / avg_loss))`. */
  function RsiColumn(close: seq<real>, n: nat): (r: seq<Value>)
    ensures |r| == TailLen(|close|, n)
  {
    Rsi(RelativeStrength(AvgGain(close, n), AvgLoss(close, n)))
  }

  /** The column the code stores under `name` when `name` is requested (Close
      is always stored), or `None` for a name it does not compute. */
  function BuiltinColumn(name: string, h: History, n: nat, helpers: Helpers): (r: Option<seq<Value>>)
    ensures name in CloseDerived ==> r.Some? && |r.value| == TailLen(|h.close|, n)
  {
    var close := h.close;
    if name == CloseKey then Some(Tail(Defined(close), n))
    else if name == Ema12Key then Some(Tail(Defined(Ema(close, FastSpan)), n))
    else if name == Ema26Key then Some(Tail(Defined(Ema(close, SlowSpan)), n))
    else if name == MacdKey then Some(Tail(Defined(Macd(close)), n))
    else if name == SignalKey then Some(SignalLine(close, n))
    else if name == HistogramKey then Some(Histogram(close, n))
    else if name == Ema200Key then Some(Tail(Defined(Ema(close, TrendSpan)), n))
    else if name == ChangeKey then Some(Tail(TrimmedChange(close, n), n))
    else if name == MomentumKey then Some(Tail(Momentum(TrimmedChange(close, n)), n))
    else if name == RsiKey then Some(RsiColumn(close, n))
    else if name == TramaKey then Some(Trama(close, TramaWindow, n))
    else if name == GradualSpikeKey then Some(Tail(helpers.gradualSpikes(h.volume), n))
    else if name == SharpSpikeKey then Some(Tail(helpers.sharpSpikes(h.volume), n))
    else if name == OscillatorKey then Some(Tail(helpers.oscillator(close), n))
    else if name == EmaFlipsKey then
      Some(helpers.flips(Tail(Defined(Ema(close, FastSpan)), n), Tail(Defined(Ema(close, SlowSpan)), n)))
    else if name == SignalFlipsKey then
      Some(helpers.flips(Tail(Defined(Macd(close)), n), Tail(SignalLine(close, n), n)))
    else None
  }

  /** `stock_data` after the `if key in information_keys` blocks: Close plus
      every requested column the code knows how to compute. */
  function Features(h: History, keys: seq<string>, n: nat, helpers: Helpers): (m: map<string, ColumnData>)
    ensures CloseKey in m
    ensures forall k :: k in m ==> (k == CloseKey || k in keys) && BuiltinColumn(k, h, n, helpers).Some?
    ensures forall k :: k in keys && BuiltinColumn(k, h, n, helpers).Some? ==> k in m
    ensures forall k :: k in m ==> m[k] == Column(BuiltinColumn(k, h, n, helpers).value)
  {
    map k | k in [CloseKey] + keys && BuiltinColumn(k, h, n, helpers).Some? ::
      Column(BuiltinColumn(k, h, n, helpers).value)
  }

  // ---------------------------------------------------------------------
  // Earnings
  // ---------------------------------------------------------------------

  /** One pass of the earnings loop: 0 when the end date is not an earnings
      date; otherwise the stored surprise at the earnings date `num_days`
      days before the end, scaled with the `earning diffs` entry. The lookup
      raises ValueError when that date is absent. */
  function EarningsEntry(e: Earnings, endDate: int, n: nat, entry: ScalerEntry): (r: Result<real>)
    ensures endDate !in e.dates ==> r == Ok(0.0)
    ensures endDate in e.dates && endDate - n !in e.dates ==> r == Raise(ValueFault)
    ensures r.Ok? && endDate in e.dates ==>
      var i := IndexOf(e.dates, endDate - n);
      i < |e.diffs| && e.dates[i] == endDate - n && Some(r.value) == ScaleValue(Some(e.diffs[i]), entry)
    ensures r.Raise? ==> endDate in e.dates && (r.fault == ValueFault || r.fault == IndexFault || r.fault == ZeroDivisionFault)
  {
    if endDate !in e.dates then Ok(0.0)
    else if endDate - n !in e.dates then Raise(ValueFault)
    else
      var i := IndexOf(e.dates, endDate - n);
      if i >= |e.diffs| then Raise(IndexFault)
      else if entry.diff == 0.0 then Raise(ZeroDivisionFault)
      else Ok((e.diffs[i] - entry.low) / entry.diff)
  }

  /** Line 490 after a lookup: 0 off an earnings date, otherwise the surprise
      scaled by hand, where a zero range is a Python ZeroDivisionError. */
  function ScaledEntry(found: Result<Option<real>>, entry: ScalerEntry): (r: Result<real>)
    ensures found.Raise? ==> r == Raise(found.fault)
    ensures found == Ok(None) ==> r == Ok(0.0)
    ensures found.Ok? && found.value.Some? ==>
      (r.Ok? <==> entry.diff != 0.0) && (r.Ok? ==> Some(r.value) == ScaleValue(found.value, entry))
  {
    match found
    case Raise(f) => Raise(f)
    case Ok(None) => Ok(0.0)
    case Ok(Some(v)) => if entry.diff == 0.0 then Raise(ZeroDivisionFault) else Ok((v - entry.low) / entry.diff)
  }

  /** When the earnings dates and both looked-up days have one type, the
      code computes exactly `EarningsEntry`. */
  lemma EarningsEntryOfOneKind(e: Earnings, text: bool, endDate: int, n: nat, entry: ScalerEntry)
    ensures EarningsEntry(e, endDate, n, entry)
         == ScaledEntry(Lookup(Stamped(e.dates, text), e.diffs, StampOf(endDate, text), StampOf(endDate - n, text)), entry)
  {
    StampedIndex(e.dates, text, endDate);
    StampedIndex(e.dates, text, endDate - n);
  }

  /** Lines 484-490 as written. `end_date` is still the string parsed at line
      476 while `date` is the `datetime` built at line 477, so the test looks
      for a string and the lookup for a `datetime`; `text` says which of the
      two the earnings dates are. Either way no surprise is ever read:
      string dates make every earnings day raise ValueError, `datetime`
      dates make every entry 0. */
  function EarningsEntryAsWritten(e: Earnings, text: bool, endDate: int, n: nat, entry: ScalerEntry): (r: Result<real>)
    ensures text ==> r == (if endDate in e.dates then Raise(ValueFault) else Ok(0.0))
    ensures !text ==> r == Ok(0.0)
  {
    StampedIndex(e.dates, text, endDate);
    StampedIndex(e.dates, text, endDate - n);
    ScaledEntry(Lookup(Stamped(e.dates, text), e.diffs, Text(endDate), Moment(endDate - n)), entry)
  }

  /** An earnings day whose `num_days`-earlier date has a surprise: the
      intended entry scales it, while the code as written raises for string
      dates and appends 0 for `datetime` dates. */
  lemma EarningsSurpriseLost()
    ensures EarningsEntry(Earnings([30, 1], [2.0, 5.0]), 30, 29, ScalerEntry(1.0, 2.0)) == Ok(2.0)
    ensures EarningsEntryAsWritten(Earnings([30, 1], [2.0, 5.0]), true, 30, 29, ScalerEntry(1.0, 2.0)) == Raise(ValueFault)
    ensures EarningsEntryAsWritten(Earnings([30, 1], [2.0, 5.0]), false, 30, 29, ScalerEntry(1.0, 2.0)) == Ok(0.0)
  {
    assert IndexOf([30, 1], 1) == 1;
  }

  /** One pass of the earnings loop, intended or as written. */
  function EarningsEntryUnder(d: DateHandling, e: Earnings, endDate: int, n: nat, entry: ScalerEntry): (r: Result<real>)
    ensures endDate !in e.dates ==> r == Ok(0.0)
  {
    match d
    case Intended => EarningsEntry(e, endDate, n, entry)
    case AsWritten(text) => EarningsEntryAsWritten(e, text, endDate, n, entry)
  }

  /** The loop `for i in range(num_days)` appending one earnings entry per
      pass. Neither the end date it compares against nor the looked-up date changes
      between passes, so every pass appends the same value. */
  function EarningsDiffs(d: DateHandling, e: Earnings, endDate: int, n: nat, entry: ScalerEntry, count: nat)
    : (r: Result<seq<real>>)
    ensures r.Ok? <==> count == 0 || EarningsEntryUnder(d, e, endDate, n, entry).Ok?
    ensures r.Ok? ==> |r.value| == count
    ensures r.Ok? ==> forall i :: 0 <= i < count ==> r.value[i] == EarningsEntryUnder(d, e, endDate, n, entry).value
    ensures count > 0 && r.Raise? ==> r.fault == EarningsEntryUnder(d, e, endDate, n, entry).fault
    decreases count
  {
    if count == 0 then Ok([])
    else
      match EarningsDiffs(d, e, endDate, n, entry, count - 1)
      case Raise(f) => Raise(f)
      case Ok(prefix) =>
        match EarningsEntryUnder(d, e, endDate, n, entry)
        case Raise(f) => Raise(f)
        case Ok(v) => Ok(prefix + [v])
  }

  /** When the end date is not an earnings date the column is `num_days`
      zeros, intended or as written. */
  lemma EarningsZerosOffEarningsDates(d: DateHandling, e: Earnings, endDate: int, n: nat, entry: ScalerEntry)
    requires endDate !in e.dates
    ensures EarningsDiffs(d, e, endDate, n, entry, n).Ok?
    ensures forall i :: 0 <= i < n ==> EarningsDiffs(d, e, endDate, n, entry, n).value[i] == 0.0
  {
  }

  /** The column as written: `datetime` earnings dates give `num_days` zeros
      whatever the dates hold; string earnings dates give ValueError on every
      earnings day and zeros elsewhere. */
  lemma EarningsColumnAsWritten(e: Earnings, text: bool, endDate: int, n: nat, entry: ScalerEntry)
    ensures !text || endDate !in e.dates ==>
      var r := EarningsDiffs(AsWritten(text), e, endDate, n, entry, n);
      r.Ok? && |r.value| == n && forall i :: 0 <= i < n ==> r.value[i] == 0.0
    ensures text && endDate in e.dates && n > 0 ==>
      EarningsDiffs(AsWritten(text), e, endDate, n, entry, n) == Raise(ValueFault)
  {
  }

  // ---------------------------------------------------------------------
  // The whole method
  // ---------------------------------------------------------------------

  /** The parameter lookup of the scaling loop: `scaler_data[column]`. */
  function StoredParams(scaler: map<string, ScalerEntry>): string -> Result<ScalerEntry> {
    k => if k in scaler then Ok(scaler[k]) else Raise(KeyFault)
  }

  /** `stock_data` just before scaling: the features plus, when
      `earning diffs` is requested, both earnings columns, built with the
      lookup `d` says. */
  function Unscaled(h: History, endDate: int, keys: seq<string>, scaler: map<string, ScalerEntry>,
                    n: nat, helpers: Helpers, earnings: Earnings, d: DateHandling)
    : (r: Result<map<string, ColumnData>>)
    ensures r.Ok? ==> Features(h, keys, n, helpers).Keys <= r.value.Keys
    ensures r.Ok? ==> forall k :: k in Features(h, keys, n, helpers) ==> r.value[k] == Features(h, keys, n, helpers)[k]
    ensures r.Ok? ==> forall k :: k in r.value ==> k in Features(h, keys, n, helpers) || k == EarningDiffsKey || k == EarningsDatesKey
  {
    var features := Features(h, keys, n, helpers);
    if EarningDiffsKey !in keys then Ok(features)
    else if EarningDiffsKey !in scaler then Raise(KeyFault)
    else
      match EarningsDiffs(d, earnings, endDate, n, scaler[EarningDiffsKey], n)
      case Raise(f) => Raise(f)
      case Ok(diffs) => Ok(features[EarningsDatesKey := PlainList([])][EarningDiffsKey := PlainList(diffs)])
  }

  /** `indicators_past_num_days`: on success the result holds Close and every
      requested column outside the exclusion set, every Close-derived column
      is a series of exactly the trailing-window length, and nothing else is
      added except the earnings columns. With `AsWritten(text)` this is the
      method as written; with `Intended`, the method with line 488 corrected. */
  function IndicatorsPastNumDays(h: History, endDate: int, keys: seq<string>, scaler: map<string, ScalerEntry>,
                                 excluded: set<string>, n: nat, helpers: Helpers, earnings: Earnings,
                                 d: DateHandling)
    : (r: Result<map<string, ColumnData>>)
    ensures r.Ok? ==> CloseKey in r.value
    ensures r.Ok? ==> forall k :: k in keys && k !in excluded ==> k in r.value
    ensures r.Ok? ==> forall k :: k in r.value ==> k == CloseKey || k in keys || k == EarningsDatesKey
    ensures r.Ok? ==> forall k :: k in r.value && k in CloseDerived ==>
      r.value[k].Column? && |r.value[k].values| == TailLen(|h.close|, n)
  {
    match Unscaled(h, endDate, keys, scaler, n, helpers, earnings, d)
    case Raise(f) => Raise(f)
    case Ok(stock) =>
      EarningsKeysNotDerived();
      var r := ScaleColumns(stock, keys, excluded, StoredParams(scaler));
      assert r.Ok? ==> forall i :: 0 <= i < |keys| && keys[i] !in excluded ==> keys[i] in stock;
      r
  }

  /** A requested column outside the exclusion set that the code does not
      compute (such as `Bollinger Middle`) makes the method raise KeyError. */
  lemma UnknownRequestedKeyRaises(h: History, endDate: int, keys: seq<string>, scaler: map<string, ScalerEntry>,
                                  excluded: set<string>, n: nat, helpers: Helpers, earnings: Earnings,
                                  d: DateHandling, k: string)
    requires k in keys && k !in excluded
    requires BuiltinColumn(k, h, n, helpers).None? && k != EarningDiffsKey && k != EarningsDatesKey
    ensures IndicatorsPastNumDays(h, endDate, keys, scaler, excluded, n, helpers, earnings, d).Raise?
  {
  }

  /** A requested column that appears once and is not excluded comes out as
      its computed series scaled with its stored entry. */
  lemma RequestedColumnIsScaled(h: History, endDate: int, keys: seq<string>, scaler: map<string, ScalerEntry>,
                                excluded: set<string>, n: nat, helpers: Helpers, earnings: Earnings,
                                  d: DateHandling, k: string)
    requires NoDuplicates(keys) && k in keys && k !in excluded
    requires IndicatorsPastNumDays(h, endDate, keys, scaler, excluded, n, helpers, earnings, d).Ok?
    requires k != EarningDiffsKey && k != EarningsDatesKey
    ensures k in scaler && BuiltinColumn(k, h, n, helpers).Some?
    ensures IndicatorsPastNumDays(h, endDate, keys, scaler, excluded, n, helpers, earnings, d).value[k]
         == Column(ScaleSeries(BuiltinColumn(k, h, n, helpers).value, scaler[k]))
  {
    var stock := Unscaled(h, endDate, keys, scaler, n, helpers, earnings, d).value;
    ScaleColumnsScalesRequested(stock, keys, excluded, StoredParams(scaler), k);
  }

  /** Earnings day 30 with one surprise, end date 30, `num_days` 29, and
      only the excluded `earning diffs` requested: as written with
      `datetime` earnings dates the method appends 29 zeros and succeeds,
      while with line 488 corrected the missing day 1 raises ValueError. */
  lemma DatetimeEarningsDatesHideMissingDay(h: History, scaler: map<string, ScalerEntry>, excluded: set<string>,
                                            helpers: Helpers)
    requires EarningDiffsKey in scaler && EarningDiffsKey in excluded
    ensures IndicatorsPastNumDays(h, 30, [EarningDiffsKey], scaler, excluded, 29, helpers,
                                  Earnings([30], [2.0]), AsWritten(false)).Ok?
    ensures IndicatorsPastNumDays(h, 30, [EarningDiffsKey], scaler, excluded, 29, helpers,
                                  Earnings([30], [2.0]), Intended) == Raise(ValueFault)
  {
    var e, entry := Earnings([30], [2.0]), scaler[EarningDiffsKey];
    assert Unscaled(h, 30, [EarningDiffsKey], scaler, 29, helpers, e, Intended) == Raise(ValueFault) by {
      assert EarningsEntryUnder(Intended, e, 30, 29, entry) == Raise(ValueFault) by { assert 1 !in e.dates; }
    }
    assert Unscaled(h, 30, [EarningDiffsKey], scaler, 29, helpers, e, AsWritten(false)).Ok? by {
      EarningsColumnAsWritten(e, false, 30, 29, entry);
    }
    var stock := Unscaled(h, 30, [EarningDiffsKey], scaler, 29, helpers, e, AsWritten(false)).value;
    assert ScaleColumns(stock, [EarningDiffsKey], excluded, StoredParams(scaler)) == Ok(stock);
  }

  // ---------------------------------------------------------------------
  // Column-by-column properties
  // ---------------------------------------------------------------------

  /** The Signal Line entry at window position `j` is the mean of MACD over
      the full-history positions `max(0, p - 8) .. p`, with `p` the history
      position of `j`; early entries are means of the fewer values available,
      never NaN. */
  lemma SignalLineEntry(close: seq<real>, n: nat, j: nat)
    requires j < TailLen(|close|, n)
    ensures var p := TailOffset(|close|, n) + j;
      SignalLine(close, n)[j] == Some(Mean(Macd(close), WindowStart(p, SignalWindow), p + 1))
  {
    var p := TailOffset(|close|, n) + j;
    RollingMeanDefined(Macd(close), SignalWindow, 1, p);
  }

  /** Subtracting a trimmed series from the full one and trimming the
      result is the same, on the window, as subtracting it from the trimmed
      full series: index alignment pairs equal positions. */
  lemma AlignedTailAt(xs: seq<real>, t: seq<Value>, n: nat, j: nat, len: nat)
    requires |xs| == len && |t| == TailLen(len, n) && j < |t| && t[j].Some?
    ensures Tail(AlignedSub(Defined(xs), t), n)[j] == Sub(Tail(Defined(xs), n), t)[j]
    ensures Tail(AlignedSub(Defined(xs), t), n)[j] == Some(xs[TailOffset(len, n) + j] - t[j].value)
  {
    var o := TailOffset(len, n);
    var full := Defined(xs);
    var v := SubValue(full[o + j], t[j]);
    assert Tail(AlignedSub(full, t), n)[j] == v by {
      var aligned := AlignedSub(full, t);
      assert |full| - |t| == o;
      assert Tail(aligned, n)[j] == aligned[o + j];
    }
    assert Sub(Tail(full, n), t)[j] == v by {
      assert Tail(full, n)[j] == full[o + j];
    }
    assert full[o + j] == Some(xs[o + j]);
  }

  /** The whole window of an index-aligned difference, for any full series
      `m` and any trimmed, NaN-free series `t`. */
  lemma AlignedWindow(m: seq<real>, t: seq<Value>, n: nat, len: nat)
    requires |m| == len && |t| == TailLen(len, n) && forall j :: 0 <= j < |t| ==> t[j].Some?
    ensures Tail(AlignedSub(Defined(m), t), n) == Sub(Tail(Defined(m), n), t)
    ensures forall j :: 0 <= j < TailLen(len, n) ==>
      Tail(AlignedSub(Defined(m), t), n)[j] == Some(m[TailOffset(len, n) + j] - t[j].value)
  {
    forall j | 0 <= j < |t|
      ensures Tail(AlignedSub(Defined(m), t), n)[j] == Sub(Tail(Defined(m), n), t)[j]
      ensures Tail(AlignedSub(Defined(m), t), n)[j] == Some(m[TailOffset(len, n) + j] - t[j].value)
    {
      AlignedTailAt(m, t, n, j, len);
    }
  }

  /** The index-aligned Histogram is, on the window, the trimmed MACD minus
      the Signal Line position by position, and it is defined everywhere. */
  lemma HistogramAligned(close: seq<real>, n: nat)
    ensures Histogram(close, n) == Sub(Tail(Defined(Macd(close)), n), SignalLine(close, n))
    ensures forall j :: 0 <= j < |Histogram(close, n)| ==> Histogram(close, n)[j].Some?
  {
    AlignedWindow(Macd(close), SignalLine(close, n), n, |close|);
  }

  /** The Momentum column: at window position `j` it is the close at `j`
      minus the close just before the start of its (at most 10-day) window,
      and that window never reaches back before the trailing window, because
      Change is trimmed before the rolling sum. */
  lemma MomentumColumn(close: seq<real>, n: nat, j: nat)
    requires j < TailLen(|close|, n)
    ensures var m := Tail(Momentum(TrimmedChange(close, n)), n);
      var o := TailOffset(|close|, n);
      (m[j].Some? <==> o + j >= 1) &&
      (m[j].Some? ==> m[j].value == close[o + j] - close[MomentumBase(o, j)])
  {
    MomentumOfTrimmedChange(close, n, j);
  }

  /** Avg Gain and Avg Loss need a full 14-sample window of the trimmed
      change, so the first 13 window positions have no RSI; from position 13
      on, RSI is defined whenever the average loss is non-zero and then lies
      in `[0, 100)`. */
  lemma RsiColumnDefinedFrom13(close: seq<real>, n: nat, j: nat)
    requires j < TailLen(|close|, n)
    ensures j < 13 ==> RsiColumn(close, n)[j].None?
    ensures j >= 13 ==> AvgGain(close, n)[j].Some? && AvgLoss(close, n)[j].Some?
    ensures RsiColumn(close, n)[j].Some? ==> 0.0 <= RsiColumn(close, n)[j].value < 100.0
  {
    var change := TrimmedChange(close, n);
    var gains := Gains(change);
    var losses := Losses(change);
    GainLossSplit(change);
    RollingMeanDefined(gains, RsiWindow, RsiWindow, j);
    RollingMeanDefined(losses, RsiWindow, RsiWindow, j);
    RollingMeanNonNegative(gains, RsiWindow, RsiWindow, j);
    RollingMeanNonNegative(losses, RsiWindow, RsiWindow, j);
    var g := AvgGain(close, n)[j];
    var l := AvgLoss(close, n)[j];
    if g.Some? && l.Some? && l.value != 0.0 {
      RsiRange(g.value, l.value);
    }
  }

  /** TRAMA: the 14-day mean of Close (full windows only, over the full
      history) plus 0.1 times that day's absolute change. */
  lemma TramaColumn(close: seq<real>, n: nat, j: nat)
    requires j < TailLen(|close|, n)
    ensures var p := TailOffset(|close|, n) + j;
      var t := BuiltinColumn(TramaKey, History(close, []), n, Helpers(_ => [], _ => [], _ => [], (_, _) => [])).value;
      (t[j].Some? <==> p >= 13) &&
      (t[j].Some? ==> t[j].value == Mean(close, p - 13, p + 1) + VolatilityWeight * AbsDiff(close)[p].value)
  {
    BuiltinKeysDistinct();
    TramaEntry(close, TramaWindow, n, j);
  }

  /** The Change column is the trailing window of the full-history diff:
      trimming the already trimmed change again changes nothing. */
  lemma ChangeColumnIsTail(h: History, n: nat, helpers: Helpers)
    ensures BuiltinColumn(ChangeKey, h, n, helpers) == Some(Tail(Diff(h.close), n))
  {
    BuiltinKeysDistinct();
    TailIdempotent(Diff(h.close), n);
  }

  /** The Change column is the full-history diff at the same day. */
  lemma ChangeColumnAt(h: History, n: nat, helpers: Helpers, j: nat)
    requires j < TailLen(|h.close|, n)
    ensures BuiltinColumn(ChangeKey, h, n, helpers).value[j] == Diff(h.close)[TailOffset(|h.close|, n) + j]
  {
    ChangeColumnIsTail(h, n, helpers);
    TailEntry(BuiltinColumn(ChangeKey, h, n, helpers), Diff(h.close), n, j, |h.close|);
  }

  /** Entry `j` of a column known to be a trailing window. */
  lemma TailEntry(col: Option<seq<Value>>, xs: seq<Value>, n: nat, j: nat, len: nat)
    requires col == Some(Tail(xs, n)) && |xs| == len && j < TailLen(len, n)
    ensures col.value[j] == xs[TailOffset(len, n) + j]
  {
  }

  /** Close, the EMAs and MACD columns are the trailing windows of their
      full-history series. */
  lemma CloseDerivedColumns(h: History, n: nat, helpers: Helpers)
    ensures BuiltinColumn(CloseKey, h, n, helpers) == Some(Tail(Defined(h.close), n))
    ensures BuiltinColumn(Ema12Key, h, n, helpers) == Some(Tail(Defined(Ema(h.close, FastSpan)), n))
    ensures BuiltinColumn(Ema26Key, h, n, helpers) == Some(Tail(Defined(Ema(h.close, SlowSpan)), n))
    ensures BuiltinColumn(Ema200Key, h, n, helpers) == Some(Tail(Defined(Ema(h.close, TrendSpan)), n))
    ensures BuiltinColumn(MacdKey, h, n, helpers) == Some(Tail(Defined(Macd(h.close)), n))
  {
    BuiltinKeysDistinct();
  }

  /** Entry `j` of a column that is the trailing window of a NaN-free series
      of length `len`. */
  lemma DefinedTailEntry(col: Option<seq<Value>>, xs: seq<real>, n: nat, j: nat, len: nat)
    requires col == Some(Tail(Defined(xs), n)) && |xs| == len && j < TailLen(len, n)
    ensures col.value[j] == Some(xs[TailOffset(len, n) + j])
  {
    TailDefinedAt(xs, n, j);
  }

  /** Close, the EMAs and MACD are trailing slices of their full-history
      series: each window entry is the full-history entry at the same day. */
  lemma CloseDerivedAreTails(h: History, n: nat, helpers: Helpers, j: nat)
    requires j < TailLen(|h.close|, n)
    ensures var p := TailOffset(|h.close|, n) + j;
      && BuiltinColumn(CloseKey, h, n, helpers).value[j] == Some(h.close[p])
      && BuiltinColumn(Ema12Key, h, n, helpers).value[j] == Some(Ema(h.close, FastSpan)[p])
      && BuiltinColumn(Ema26Key, h, n, helpers).value[j] == Some(Ema(h.close, SlowSpan)[p])
      && BuiltinColumn(Ema200Key, h, n, helpers).value[j] == Some(Ema(h.close, TrendSpan)[p])
      && BuiltinColumn(MacdKey, h, n, helpers).value[j] == Some(Macd(h.close)[p])
      && BuiltinColumn(ChangeKey, h, n, helpers).value[j] == Diff(h.close)[p]
  {
    var len := |h.close|;
    CloseDerivedColumns(h, n, helpers);
    DefinedTailEntry(BuiltinColumn(CloseKey, h, n, helpers), h.close, n, j, len);
    DefinedTailEntry(BuiltinColumn(Ema12Key, h, n, helpers), Ema(h.close, FastSpan), n, j, len);
    DefinedTailEntry(BuiltinColumn(Ema26Key, h, n, helpers), Ema(h.close, SlowSpan), n, j, len);
    DefinedTailEntry(BuiltinColumn(Ema200Key, h, n, helpers), Ema(h.close, TrendSpan), n, j, len);
    DefinedTailEntry(BuiltinColumn(MacdKey, h, n, helpers), Macd(h.close), n, j, len);
    ChangeColumnAt(h, n, helpers, j);
  }
}
