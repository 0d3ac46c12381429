/**
  The indicator and scaling block of `BaseModel.getInfoToday` in Models.py.

  Unlike `indicators_past_num_days`, this version computes every column
  whatever the information keys are, trims with a fixed `iloc[-60:]`, builds
  MACD from the two trimmed EMAs, applies the Signal Line's 9-day window with
  no `min_periods` to the trimmed MACD, averages gains and losses with
  `min_periods=1`, attaches three earnings entries, scales the requested
  columns with the min and max of the stored training column, and returns
  one list per requested key.

  The cached Close/Volume history is a parameter here. The fetch before
  line 189 is modelled separately, in `TodayFetch`.
 */
module TodayInfo {
  import opened Outcomes
  import opened Series
  import opened Ewm
  import opened Indicators
  import opened Scaling
  import opened PastNumDays

  /** The hard-coded trailing window of every `.iloc[-60:]`. */
  const TodayWindow: nat := 60
  /** `days_before`. */
  const DaysBefore: nat := 3

  const GainKey := "Gain"
  const LossKey := "Loss"
  const AvgGainKey := "Avg Gain"
  const AvgLossKey := "Avg Loss"
  const RsKey := "RS"
  const FlipsKey := "flips"
  const EarningsDiffKey := "earnings diff"
  const DateKey := "Date"

  /** `excluded_values`. */
  const TodayExcluded: set<string> := {DateKey, EarningsDiffKey, EarningsDatesKey}

  /** Columns that are 60-row windows of the Close history once Close itself
      is trimmed like the others. */
  const TodayWindowed: set<string> := CloseDerived + {GainKey, LossKey, AvgGainKey, AvgLossKey, RsKey}

  /** `stock_data['12-day EMA'] - stock_data['26-day EMA']`: both share the
      same 60 index labels, so the subtraction is positional. */
  function TodayMacd(close: seq<real>): (r: seq<Value>)
    ensures |r| == TailLen(|close|, TodayWindow)
  {
    Sub(Tail(Defined(Ema(close, FastSpan)), TodayWindow), Tail(Defined(Ema(close, SlowSpan)), TodayWindow))
  }

  /** `MACD.rolling(window=9).mean().iloc[-60:]`: a full window is required. */
  function TodaySignal(close: seq<real>): (r: seq<Value>)
    ensures |r| == TailLen(|close|, TodayWindow)
  {
    Tail(RollingMean(TodayMacd(close), SignalWindow, SignalWindow), TodayWindow)
  }

  function TodayChange(close: seq<real>): (r: seq<Value>)
    ensures |r| == TailLen(|close|, TodayWindow)
  {
    Tail(Diff(close), TodayWindow)
  }

  /** `Gain.rolling(window=14, min_periods=1).mean().iloc[-60:]`. */
  function TodayAvgGain(close: seq<real>): (r: seq<Value>)
    ensures |r| == TailLen(|close|, TodayWindow)
  {
    Tail(RollingMean(Defined(Gains(TodayChange(close))), RsiWindow, 1), TodayWindow)
  }

  function TodayAvgLoss(close: seq<real>): (r: seq<Value>)
    ensures |r| == TailLen(|close|, TodayWindow)
  {
    Tail(RollingMean(Defined(Losses(TodayChange(close))), RsiWindow, 1), TodayWindow)
  }

  // ---------------------------------------------------------------------
  // Earnings
  // ---------------------------------------------------------------------

  /** `all_dates`, built by the loop that appends the day `i + 1` days before
      the end date for each `i` below `count`. */
  function AllDates(endDate: int, count: nat): (r: seq<int>)
    ensures |r| == count
    ensures forall i :: 0 <= i < count ==> r[i] == endDate - (i + 1)
    decreases count
  {
    if count == 0 then [] else AllDates(endDate, count - 1) + [endDate - count]
  }

  /** One pass of the earnings loop: 0 when the end date is not an earnings
      date, otherwise the stored surprise at `date` (ValueError when `date`
      is not an earnings date, IndexError past the end of the surprises). */
  function EarningsAt(e: Earnings, endDate: int, date: int): (r: Result<real>)
    ensures endDate !in e.dates ==> r == Ok(0.0)
    ensures endDate in e.dates ==> (r.Ok? <==> HasSurprise(e, date))
    ensures endDate in e.dates && r.Ok? ==> r.value == e.diffs[IndexOf(e.dates, date)]
    ensures r.Raise? ==> r.fault == (if date in e.dates then IndexFault else ValueFault)
  {
    if endDate !in e.dates then Ok(0.0)
    else if date !in e.dates then Raise(ValueFault)
    else
      var i := IndexOf(e.dates, date);
      if i < |e.diffs| then Ok(e.diffs[i]) else Raise(IndexFault)
  }

  /** `stock_data['earnings diff']`: one entry per date, in order; the first
      date whose lookup fails decides the error. */
  function EarningsDiffList(e: Earnings, endDate: int, dates: seq<int>): (r: Result<seq<real>>)
    ensures r.Ok? <==> forall i :: 0 <= i < |dates| ==> EarningsAt(e, endDate, dates[i]).Ok?
    ensures r.Ok? ==> |r.value| == |dates|
    ensures r.Ok? ==> forall i :: 0 <= i < |dates| ==> r.value[i] == EarningsAt(e, endDate, dates[i]).value
    decreases |dates|
  {
    if |dates| == 0 then Ok([])
    else
      match EarningsAt(e, endDate, dates[0])
      case Raise(f) => Raise(f)
      case Ok(v) =>
        var rest := EarningsDiffList(e, endDate, dates[1..]);
        assert forall i :: 1 <= i < |dates| ==> dates[i] == dates[1..][i - 1];
        match rest
        case Raise(f) => Raise(f)
        case Ok(vs) => Ok([v] + vs)
  }

  /** `date` is an earnings date with a stored surprise. */
  predicate HasSurprise(e: Earnings, date: int) {
    date in e.dates && IndexOf(e.dates, date) < |e.diffs|
  }

  /** Off an earnings day the list is three zeros; on one, the loop succeeds
      exactly when each of the three preceding days is an earnings date with
      a stored surprise, and then lists those surprises, nearest day first. */
  lemma EarningsDiffsOfAllDates(e: Earnings, endDate: int)
    ensures var r := EarningsDiffList(e, endDate, AllDates(endDate, DaysBefore));
      && (r.Ok? ==> |r.value| == DaysBefore)
      && (endDate !in e.dates ==> r == Ok([0.0, 0.0, 0.0]))
      && (endDate in e.dates ==>
            (r.Ok? <==> HasSurprise(e, endDate - 1) && HasSurprise(e, endDate - 2) && HasSurprise(e, endDate - 3)))
      && (endDate in e.dates && r.Ok? ==>
            r.value == [e.diffs[IndexOf(e.dates, endDate - 1)], e.diffs[IndexOf(e.dates, endDate - 2)],
                        e.diffs[IndexOf(e.dates, endDate - 3)]])
  {
    var dates := AllDates(endDate, DaysBefore);
    assert dates == [endDate - 1, endDate - 2, endDate - 3];
    var r := EarningsDiffList(e, endDate, dates);
    if endDate !in e.dates {
      assert r.Ok?;
      assert r.value == [r.value[0], r.value[1], r.value[2]];
    }
  }

  /** The value one pass appends after a lookup: 0 off an earnings date,
      otherwise the surprise found. */
  function Appended(found: Result<Option<real>>): (r: Result<real>)
    ensures found.Raise? ==> r == Raise(found.fault)
    ensures found.Ok? ==> r == Ok(if found.value.Some? then found.value.value else 0.0)
  {
    match found
    case Raise(f) => Raise(f)
    case Ok(None) => Ok(0.0)
    case Ok(Some(v)) => Ok(v)
  }

  /** When the earnings dates and both compared days have one type, the
      loop body computes exactly `EarningsAt`. */
  lemma EarningsAtOfOneKind(e: Earnings, text: bool, endDate: int, date: int)
    ensures EarningsAt(e, endDate, date)
         == Appended(Lookup(Stamped(e.dates, text), e.diffs, StampOf(endDate, text), StampOf(date, text)))
  {
    StampedIndex(e.dates, text, endDate);
    StampedIndex(e.dates, text, date);
  }

  /** Lines 254-258 as written, for one date: `end_date` is the `datetime`
      parsed at line 180 or 185, while `date` is a string made by `strftime`
      at line 250. The test looks for a `datetime` and the lookup for a
      string, so no surprise is ever read: `datetime` earnings dates make
      every earnings day raise ValueError, string ones make every entry 0. */
  function EarningsAtAsWritten(e: Earnings, text: bool, endDate: int, date: int): (r: Result<real>)
    ensures text ==> r == Ok(0.0)
    ensures !text ==> r == (if endDate in e.dates then Raise(ValueFault) else Ok(0.0))
  {
    StampedIndex(e.dates, text, endDate);
    StampedIndex(e.dates, text, date);
    Appended(Lookup(Stamped(e.dates, text), e.diffs, Moment(endDate), Text(date)))
  }

  /** `stock_data['earnings diff']` as written: all zeros, or ValueError at
      the first date whenever the end date is a `datetime` earnings date. */
  function EarningsDiffListAsWritten(e: Earnings, text: bool, endDate: int, dates: seq<int>): (r: Result<seq<real>>)
    ensures text || endDate !in e.dates ==> r.Ok? && |r.value| == |dates|
    ensures r.Ok? ==> |r.value| == |dates|
    ensures r.Ok? ==> forall i :: 0 <= i < |r.value| ==> r.value[i] == 0.0
    ensures !text && endDate in e.dates && |dates| > 0 ==> r == Raise(ValueFault)
    decreases |dates|
  {
    if |dates| == 0 then Ok([])
    else
      match EarningsAtAsWritten(e, text, endDate, dates[0])
      case Raise(f) => Raise(f)
      case Ok(v) =>
        match EarningsDiffListAsWritten(e, text, endDate, dates[1..])
        case Raise(f) => Raise(f)
        case Ok(vs) => Ok([v] + vs)
  }

  /** On an earnings day where the intended list succeeds, and so lists the
      three previous days' surprises, the list as written is three zeros for
      string earnings dates and ValueError for `datetime` ones. */
  lemma EarningsSurprisesLost(e: Earnings, text: bool, endDate: int)
    requires endDate in e.dates && EarningsDiffList(e, endDate, AllDates(endDate, DaysBefore)).Ok?
    ensures text ==> EarningsDiffListAsWritten(e, text, endDate, AllDates(endDate, DaysBefore)) == Ok([0.0, 0.0, 0.0])
    ensures !text ==> EarningsDiffListAsWritten(e, text, endDate, AllDates(endDate, DaysBefore)) == Raise(ValueFault)
  {
    if text {
      var w := EarningsDiffListAsWritten(e, text, endDate, AllDates(endDate, DaysBefore));
      assert |w.value| == 3;
      assert w.value == [w.value[0], w.value[1], w.value[2]];
    }
  }

  /** The earnings list over the three previous days, intended or as
      written. */
  function EarningsListUnder(d: DateHandling, e: Earnings, endDate: int): (r: Result<seq<real>>)
    ensures r.Ok? ==> |r.value| == DaysBefore
    ensures d.AsWritten? && d.text ==> r == Ok([0.0, 0.0, 0.0])
  {
    var dates := AllDates(endDate, DaysBefore);
    match d
    case Intended => EarningsDiffList(e, endDate, dates)
    case AsWritten(text) =>
      var r := EarningsDiffListAsWritten(e, text, endDate, dates);
      assert text ==> r.Ok? && r.value == [r.value[0], r.value[1], r.value[2]];
      r
  }

  // ---------------------------------------------------------------------
  // The feature dictionary
  // ---------------------------------------------------------------------

  /** Every name the indicator block stores a series under. */
  const TodaySeriesNames: set<string> :=
    TodayWindowed + {GradualSpikeKey, SharpSpikeKey, OscillatorKey, FlipsKey}

  /** Membership in the stored names, spelled out name by name. */
  lemma TodaySeriesNamesMembers(name: string)
    ensures name in TodaySeriesNames <==>
      name == CloseKey || name == Ema12Key || name == Ema26Key || name == MacdKey || name == SignalKey
      || name == HistogramKey || name == Ema200Key || name == ChangeKey || name == MomentumKey
      || name == GainKey || name == LossKey || name == AvgGainKey || name == AvgLossKey || name == RsKey
      || name == RsiKey || name == TramaKey || name == GradualSpikeKey || name == SharpSpikeKey
      || name == OscillatorKey || name == FlipsKey
    ensures name in TodayWindowed - {CloseKey} <==>
      name != CloseKey && (name == Ema12Key || name == Ema26Key || name == MacdKey || name == SignalKey
      || name == HistogramKey || name == Ema200Key || name == ChangeKey || name == MomentumKey
      || name == GainKey || name == LossKey || name == AvgGainKey || name == AvgLossKey || name == RsKey
      || name == RsiKey || name == TramaKey)
  {
  }

  /** The series the indicator block stores under `name`, with `closeColumn`
      standing for whatever line 189 stores under Close. */
  function TodayColumn(name: string, closeColumn: seq<Value>, h: History, period: nat, n: nat, helpers: Helpers)
    : (r: Option<seq<Value>>)
    ensures name in TodaySeriesNames <==> r.Some?
    ensures name == CloseKey ==> r == Some(closeColumn)
    ensures name in TodayWindowed - {CloseKey} ==> |r.value| == TailLen(|h.close|, TodayWindow)
  {
    TodaySeriesNamesMembers(name);
    var close := h.close;
    if name == CloseKey then Some(closeColumn)
    else if name == Ema12Key then Some(Tail(Defined(Ema(close, FastSpan)), TodayWindow))
    else if name == Ema26Key then Some(Tail(Defined(Ema(close, SlowSpan)), TodayWindow))
    else if name == MacdKey then Some(TodayMacd(close))
    else if name == SignalKey then Some(TodaySignal(close))
    else if name == HistogramKey then Some(Sub(TodayMacd(close), TodaySignal(close)))
    else if name == Ema200Key then Some(Tail(Defined(Ema(close, TrendSpan)), TodayWindow))
    else if name == ChangeKey then Some(TodayChange(close))
    else if name == MomentumKey then Some(Tail(Momentum(TodayChange(close)), TodayWindow))
    else if name == GainKey then Some(Defined(Gains(TodayChange(close))))
    else if name == LossKey then Some(Defined(Losses(TodayChange(close))))
    else if name == AvgGainKey then Some(TodayAvgGain(close))
    else if name == AvgLossKey then Some(TodayAvgLoss(close))
    else if name == RsKey then Some(RelativeStrength(TodayAvgGain(close), TodayAvgLoss(close)))
    else if name == RsiKey then Some(Rsi(RelativeStrength(TodayAvgGain(close), TodayAvgLoss(close))))
    else if name == TramaKey then Some(Trama(close, period, TodayWindow))
    else if name == GradualSpikeKey then Some(Tail(helpers.gradualSpikes(h.volume), TodayWindow))
    else if name == SharpSpikeKey then Some(Tail(helpers.sharpSpikes(h.volume), TodayWindow))
    else if name == OscillatorKey then Some(Tail(helpers.oscillator(close), TodayWindow))
    else if name == FlipsKey then
      Some(helpers.flips(Tail(Defined(Ema(close, FastSpan)), n), Tail(Defined(Ema(close, SlowSpan)), n)))
    else None
  }

  /** The earnings names are not series names: `earnings diff` and
      `earnings dates` are 13 and 14 characters long, and no series name is. */
  lemma EarningsNamesNotSeries()
    ensures EarningsDiffKey !in TodaySeriesNames && EarningsDatesKey !in TodaySeriesNames
  {
    BuiltinKeysDistinct();
    TodaySeriesNamesMembers(EarningsDiffKey);
    TodaySeriesNamesMembers(EarningsDatesKey);
    assert |EarningsDiffKey| == 13 && |EarningsDatesKey| == 14;
    assert |GainKey| == 4 && |LossKey| == 4 && |AvgGainKey| == 8 && |AvgLossKey| == 8;
    assert |RsKey| == 2 && |FlipsKey| == 5;
  }

  /** `stock_data` after the indicator block: every series, plus the
      earnings list built with the lookup `d` says, whose loop may raise. */
  function TodayColumns(closeColumn: seq<Value>, h: History, period: nat, n: nat,
                        helpers: Helpers, earnings: Earnings, endDate: int, d: DateHandling)
    : (r: Result<map<string, ColumnData>>)
    ensures r.Ok? <==> EarningsListUnder(d, earnings, endDate).Ok?
    ensures r.Ok? ==> r.value.Keys == TodaySeriesNames + {EarningsDiffKey}
    ensures r.Ok? ==> forall k :: k in TodaySeriesNames ==>
      r.value[k] == Column(TodayColumn(k, closeColumn, h, period, n, helpers).value)
    ensures r.Ok? ==> r.value[EarningsDiffKey].PlainList?
  {
    match EarningsListUnder(d, earnings, endDate)
    case Raise(f) => Raise(f)
    case Ok(diffs) =>
      EarningsNamesNotSeries();
      var series := map k | k in TodaySeriesNames :: Column(TodayColumn(k, closeColumn, h, period, n, helpers).value);
      Ok(series[EarningsDiffKey := PlainList(diffs)])
  }

  /** `[stock_data[key].values.tolist() for key in information_keys]`: a
      missing key raises KeyError and a plain list (which has no `.values`)
      raises AttributeError. */
  function ColumnLists(stock: map<string, ColumnData>, keys: seq<string>): (r: Result<seq<seq<Value>>>)
    ensures r.Ok? <==> forall i :: 0 <= i < |keys| ==> keys[i] in stock && stock[keys[i]].Column?
    ensures r.Ok? ==> |r.value| == |keys|
    ensures r.Ok? ==> forall i :: 0 <= i < |keys| ==> r.value[i] == stock[keys[i]].values
    decreases |keys|
  {
    if |keys| == 0 then Ok([])
    else if keys[0] !in stock then Raise(KeyFault)
    else if stock[keys[0]].PlainList? then Raise(AttributeFault)
    else
      var rest := ColumnLists(stock, keys[1..]);
      assert forall i :: 1 <= i < |keys| ==> keys[i] == keys[1..][i - 1];
      match rest
      case Raise(f) => Raise(f)
      case Ok(vs) => Ok([stock[keys[0]].values] + vs)
  }

  /** The scaling loop: `min(self.data[column])` and `max(...)` of the stored
      training column. */
  function TrainingParams(data: map<string, seq<real>>): string -> Result<ScalerEntry> {
    k => FitEntry(data, k)
  }

  /** What the scaling loop and the final listing need of a dictionary:
      every key is a stored series, and every key outside the exclusion set
      has a non-empty stored training column. */
  ghost predicate Listable(stock: map<string, ColumnData>, keys: seq<string>, data: map<string, seq<real>>) {
    forall i :: 0 <= i < |keys| ==>
      keys[i] in stock && stock[keys[i]].Column? &&
      (keys[i] !in TodayExcluded ==> keys[i] in data && |data[keys[i]]| > 0)
  }

  /** Scale and list the columns of an already built dictionary: it
      succeeds exactly on a listable dictionary, and returns one list per
      key, as long as the stored series. */
  function ScaleAndList(stock: map<string, ColumnData>, keys: seq<string>, data: map<string, seq<real>>)
    : (r: Result<seq<seq<Value>>>)
    ensures r.Ok? <==> Listable(stock, keys, data)
    ensures r.Ok? ==> |r.value| == |keys|
    ensures r.Ok? ==> forall i :: 0 <= i < |keys| ==> |r.value[i]| == |stock[keys[i]].values|
  {
    match ScaleColumns(stock, keys, TodayExcluded, TrainingParams(data))
    case Raise(f) =>
      assert !Listable(stock, keys, data) by {
        if Listable(stock, keys, data) {
          assert Scalable(stock, keys, TodayExcluded, TrainingParams(data));
        }
      }
      Raise(f)
    case Ok(scaled) =>
      var r := ColumnLists(scaled, keys);
      assert r.Ok? ==> forall i :: 0 <= i < |keys| ==> keys[i] in stock;
      assert Listable(stock, keys, data) ==> r.Ok? by {
        if Listable(stock, keys, data) {
          assert forall i :: 0 <= i < |keys| ==> keys[i] in scaled && scaled[keys[i]].Column?;
        }
      }
      r
  }

  /** Lines 189-271 as written: Close is stored untrimmed, and the earnings
      lookup at lines 254-257 compares a `datetime` with strings; `text`
      says whether the stored earnings dates are strings. */
  function InfoTodayAsWritten(h: History, keys: seq<string>, data: map<string, seq<real>>, period: nat, n: nat,
                              helpers: Helpers, earnings: Earnings, endDate: int, text: bool)
    : (r: Result<seq<seq<Value>>>)
    ensures r.Ok? ==> |r.value| == |keys|
    ensures r.Ok? ==> forall i :: 0 <= i < |keys| && keys[i] == CloseKey ==> |r.value[i]| == |h.close|
  {
    match TodayColumns(Defined(h.close), h, period, n, helpers, earnings, endDate, AsWritten(text))
    case Raise(f) => Raise(f)
    case Ok(stock) => ScaleAndList(stock, keys, data)
  }

  /** When Close has the window length too, every windowed column is a
      series of that length; the earnings list is the only plain list and
      `earnings dates` is never stored. */
  lemma TodayColumnsShape(closeColumn: seq<Value>, h: History, period: nat, n: nat,
                          helpers: Helpers, earnings: Earnings, endDate: int, d: DateHandling)
    requires |closeColumn| == TailLen(|h.close|, TodayWindow)
    requires TodayColumns(closeColumn, h, period, n, helpers, earnings, endDate, d).Ok?
    ensures var stock := TodayColumns(closeColumn, h, period, n, helpers, earnings, endDate, d).value;
      forall k :: k in TodayWindowed ==>
        k in stock && stock[k].Column? && |stock[k].values| == TailLen(|h.close|, TodayWindow)
    ensures var stock := TodayColumns(closeColumn, h, period, n, helpers, earnings, endDate, d).value;
      EarningsDatesKey !in stock && stock[EarningsDiffKey].PlainList?
  {
    var stock := TodayColumns(closeColumn, h, period, n, helpers, earnings, endDate, d).value;
    forall k | k in TodayWindowed
      ensures k in stock && stock[k].Column? && |stock[k].values| == TailLen(|h.close|, TodayWindow)
    {
      assert k in TodaySeriesNames;
      if k != CloseKey {
        assert k in TodayWindowed - {CloseKey};
      }
    }
    EarningsNamesNotSeries();
    assert EarningsDatesKey !in TodaySeriesNames + {EarningsDiffKey};
  }

  /** Lines 189-271 with Close trimmed to the 60-row window like every other
      column, and the earnings lookup `d` says (`Intended` corrects line 257
      too): on success every Close-derived column the keys ask for is a
      window of the same length, and `earnings diff` (a plain list) is never
      among the keys. */
  function InfoToday(h: History, keys: seq<string>, data: map<string, seq<real>>, period: nat, n: nat,
                     helpers: Helpers, earnings: Earnings, endDate: int, d: DateHandling)
    : (r: Result<seq<seq<Value>>>)
    ensures r.Ok? ==> |r.value| == |keys|
    ensures r.Ok? ==> forall i :: 0 <= i < |keys| && keys[i] in TodayWindowed ==>
      |r.value[i]| == TailLen(|h.close|, TodayWindow)
    ensures r.Ok? ==> forall i :: 0 <= i < |keys| ==> keys[i] != EarningsDiffKey && keys[i] != EarningsDatesKey
  {
    var closeColumn := Tail(Defined(h.close), TodayWindow);
    match TodayColumns(closeColumn, h, period, n, helpers, earnings, endDate, d)
    case Raise(f) => Raise(f)
    case Ok(stock) =>
      TodayColumnsShape(closeColumn, h, period, n, helpers, earnings, endDate, d);
      ScaleAndList(stock, keys, data)
  }

  /** Close and Change as the indicator block stores them. */
  lemma CloseAndChange(closeColumn: seq<Value>, h: History, period: nat, n: nat,
                       helpers: Helpers, earnings: Earnings, endDate: int, d: DateHandling)
    requires TodayColumns(closeColumn, h, period, n, helpers, earnings, endDate, d).Ok?
    ensures var stock := TodayColumns(closeColumn, h, period, n, helpers, earnings, endDate, d).value;
      && CloseKey in stock && stock[CloseKey] == Column(closeColumn)
      && ChangeKey in stock && stock[ChangeKey] == Column(TodayChange(h.close))
  {
    assert CloseKey in TodaySeriesNames && ChangeKey in TodaySeriesNames;
  }

  /** With more than 60 days of history, the as-written block returns a Close
      list longer than the Change list next to it, so the rows are ragged;
      the same block with only Close trimmed (line 189 corrected, the
      earnings lookup still as written) returns both with 60 entries. */
  lemma UntrimmedCloseIsRagged(h: History, data: map<string, seq<real>>, period: nat, n: nat,
                               helpers: Helpers, earnings: Earnings, endDate: int, text: bool)
    requires |h.close| > TodayWindow
    requires InfoTodayAsWritten(h, [CloseKey, ChangeKey], data, period, n, helpers, earnings, endDate, text).Ok?
    ensures var r := InfoTodayAsWritten(h, [CloseKey, ChangeKey], data, period, n, helpers, earnings, endDate, text).value;
      |r[0]| > |r[1]| == TodayWindow
    ensures var c := InfoToday(h, [CloseKey, ChangeKey], data, period, n, helpers, earnings, endDate, AsWritten(text));
      c.Ok? && |c.value[0]| == |c.value[1]| == TodayWindow
  {
    var keys := [CloseKey, ChangeKey];
    var d := AsWritten(text);
    var trimmed := Tail(Defined(h.close), TodayWindow);
    var written := TodayColumns(Defined(h.close), h, period, n, helpers, earnings, endDate, d);
    var fixed := TodayColumns(trimmed, h, period, n, helpers, earnings, endDate, d);
    assert written.Ok?;
    assert fixed.Ok?;
    CloseAndChange(Defined(h.close), h, period, n, helpers, earnings, endDate, d);
    CloseAndChange(trimmed, h, period, n, helpers, earnings, endDate, d);
    ListsOfCloseAndChange(written.value, fixed.value, data);
  }

  /** Listing Close and Change from two dictionaries that agree on Change:
      when the first succeeds so does the second, and each list is as long
      as its stored series. */
  lemma ListsOfCloseAndChange(a: map<string, ColumnData>, b: map<string, ColumnData>, data: map<string, seq<real>>)
    requires CloseKey in a && a[CloseKey].Column? && ChangeKey in a && a[ChangeKey].Column?
    requires CloseKey in b && b[CloseKey].Column? && ChangeKey in b && b[ChangeKey] == a[ChangeKey]
    requires ScaleAndList(a, [CloseKey, ChangeKey], data).Ok?
    ensures var r := ScaleAndList(a, [CloseKey, ChangeKey], data).value;
      |r[0]| == |a[CloseKey].values| && |r[1]| == |a[ChangeKey].values|
    ensures var c := ScaleAndList(b, [CloseKey, ChangeKey], data);
      c.Ok? && |c.value[0]| == |b[CloseKey].values| && |c.value[1]| == |a[ChangeKey].values|
  {
    SameListable(a, b, [CloseKey, ChangeKey], data);
  }

  /** Two dictionaries whose requested keys are series in both are listable
      together. */
  lemma SameListable(a: map<string, ColumnData>, b: map<string, ColumnData>, keys: seq<string>,
                     data: map<string, seq<real>>)
    requires Listable(a, keys, data)
    requires forall i :: 0 <= i < |keys| ==> keys[i] in b && b[keys[i]].Column?
    ensures Listable(b, keys, data)
  {
  }

  /** A requested, non-excluded column that appears once in the keys comes
      back as its computed series scaled by the stored column's min and
      `max - min`. */
  lemma InfoTodayScalesWithTrainingRange(h: History, keys: seq<string>, data: map<string, seq<real>>, period: nat,
                                         n: nat, helpers: Helpers, earnings: Earnings, endDate: int, d: DateHandling,
                                         i: nat)
    requires NoDuplicates(keys) && i < |keys| && keys[i] !in TodayExcluded
    requires InfoToday(h, keys, data, period, n, helpers, earnings, endDate, d).Ok?
    ensures var stock := TodayColumns(Tail(Defined(h.close), TodayWindow), h, period, n, helpers, earnings, endDate, d).value;
      && keys[i] in stock && stock[keys[i]].Column? && FitEntry(data, keys[i]).Ok?
      && InfoToday(h, keys, data, period, n, helpers, earnings, endDate, d).value[i]
         == ScaleSeries(stock[keys[i]].values, FitEntry(data, keys[i]).value)
  {
    var stock := TodayColumns(Tail(Defined(h.close), TodayWindow), h, period, n, helpers, earnings, endDate, d).value;
    ScaleColumnsScalesRequested(stock, keys, TodayExcluded, TrainingParams(data), keys[i]);
  }

  /** Any request for `earnings diff` fails: it is excluded from scaling and
      kept as a plain list, which has no `.values`. */
  lemma EarningsDiffRequestRaises(h: History, keys: seq<string>, data: map<string, seq<real>>, period: nat, n: nat,
                                  helpers: Helpers, earnings: Earnings, endDate: int, text: bool, d: DateHandling)
    requires EarningsDiffKey in keys
    ensures InfoTodayAsWritten(h, keys, data, period, n, helpers, earnings, endDate, text).Raise?
    ensures InfoToday(h, keys, data, period, n, helpers, earnings, endDate, d).Raise?
  {
    var i :| 0 <= i < |keys| && keys[i] == EarningsDiffKey;
    assert InfoTodayAsWritten(h, keys, data, period, n, helpers, earnings, endDate, text).Raise? by {
      var written := TodayColumns(Defined(h.close), h, period, n, helpers, earnings, endDate, AsWritten(text));
      if written.Ok? {
        assert written.value[keys[i]].PlainList?;
      }
    }
  }

  /** Earnings day 10 with no stored surprise, end date 10, nothing
      requested: as written with string earnings dates the block lists three
      zeros and returns an empty list, while with line 257 corrected the
      lookup of day 9 raises ValueError. */
  lemma StringEarningsDatesHideMissingDays(h: History, data: map<string, seq<real>>, period: nat, n: nat,
                                           helpers: Helpers)
    ensures InfoTodayAsWritten(h, [], data, period, n, helpers, Earnings([10], []), 10, true) == Ok([])
    ensures InfoToday(h, [], data, period, n, helpers, Earnings([10], []), 10, Intended) == Raise(ValueFault)
  {
    var e := Earnings([10], []);
    assert EarningsListUnder(Intended, e, 10) == Raise(ValueFault) by {
      assert AllDates(10, DaysBefore) == [9, 8, 7];
      assert 9 !in e.dates;
    }
    var stock := TodayColumns(Defined(h.close), h, period, n, helpers, e, 10, AsWritten(true)).value;
    assert ScaleAndList(stock, [], data) == Ok([]);
  }


  // ---------------------------------------------------------------------
  // Column-by-column properties
  // ---------------------------------------------------------------------

  /** MACD built from the two trimmed EMAs is the trimmed full-history MACD. */
  lemma TodayMacdIsTrimmedMacd(close: seq<real>)
    ensures TodayMacd(close) == Defined(Tail(Macd(close), TodayWindow))
  {
    TrimThenSubtract(Ema(close, FastSpan), Ema(close, SlowSpan), TodayWindow);
  }

  /** The Signal Line is the full-window rolling mean of the trimmed MACD
      (the outer `iloc[-60:]` has nothing left to trim). */
  lemma TodaySignalIsRolling(close: seq<real>)
    ensures TodaySignal(close) == RollingMean(Defined(Tail(Macd(close), TodayWindow)), SignalWindow, SignalWindow)
  {
    TodayMacdIsTrimmedMacd(close);
    TailOfShort(RollingMean(TodayMacd(close), SignalWindow, SignalWindow), TodayWindow);
  }

  /** The Signal Line needs 9 MACD values: its first 8 window positions are
      NaN, and from position 8 on it is the mean of the last 9 window MACD
      values. */
  lemma TodaySignalEntry(close: seq<real>, j: nat)
    requires j < TailLen(|close|, TodayWindow)
    ensures TodaySignal(close)[j].Some? <==> j >= 8
    ensures j >= 8 ==> TodaySignal(close)[j].value == Mean(Tail(Macd(close), TodayWindow), j - 8, j + 1)
  {
    TodaySignalIsRolling(close);
    RollingMeanDefined(Tail(Macd(close), TodayWindow), SignalWindow, SignalWindow, j);
  }

  /** The Histogram is NaN wherever the Signal Line is, and from position 8
      on it is MACD minus the Signal Line. */
  lemma TodayHistogramEntry(close: seq<real>, j: nat)
    requires j < TailLen(|close|, TodayWindow)
    ensures Sub(TodayMacd(close), TodaySignal(close))[j].Some? <==> j >= 8
    ensures j >= 8 ==> Sub(TodayMacd(close), TodaySignal(close))[j].value
                       == Macd(close)[TailOffset(|close|, TodayWindow) + j] - TodaySignal(close)[j].value
  {
    TodaySignalDefined(close, j);
    TodayMacdAt(close, j);
    SubLeftDefinedAt(TodayMacd(close), TodaySignal(close), j, Macd(close)[TailOffset(|close|, TodayWindow) + j]);
  }

  /** Row `j` of the 60-row MACD is the MACD of the matching day. */
  lemma TodayMacdAt(close: seq<real>, j: nat)
    requires j < TailLen(|close|, TodayWindow)
    ensures TodayMacd(close)[j] == Some(Macd(close)[TailOffset(|close|, TodayWindow) + j])
  {
    TodayMacdIsTrimmedMacd(close);
  }

  /** Where the 60-row Signal Line is defined. */
  lemma TodaySignalDefined(close: seq<real>, j: nat)
    requires j < TailLen(|close|, TodayWindow)
    ensures TodaySignal(close)[j].Some? <==> j >= 8
  {
    TodaySignalEntry(close, j);
  }

  /** Momentum at window position `j` sums the 60-row trailing Change over
      positions `max(0, j - 9) .. j`: the close at `j` minus the close before
      that window, or undefined only at the very first day of the history. */
  lemma TodayMomentum(close: seq<real>, j: nat)
    requires j < TailLen(|close|, TodayWindow)
    ensures var m := Tail(Momentum(TodayChange(close)), TodayWindow);
      var o := TailOffset(|close|, TodayWindow);
      (m[j].Some? <==> o + j >= 1) &&
      (m[j].Some? ==> m[j].value == close[o + j] - close[MomentumBase(o, j)])
  {
    MomentumOfTrimmedChange(close, TodayWindow, j);
  }

  /** With `min_periods=1` the averages are defined at every window position
      and are the plain means of the last (at most) 14 gains or losses; RSI
      is defined exactly where the average loss is non-zero, and lies in
      `[0, 100)` there. */
  lemma TodayRsi(close: seq<real>, j: nat)
    requires j < TailLen(|close|, TodayWindow)
    ensures var g := Gains(TodayChange(close));
      TodayAvgGain(close)[j] == Some(Mean(g, WindowStart(j, RsiWindow), j + 1))
    ensures var l := Losses(TodayChange(close));
      TodayAvgLoss(close)[j] == Some(Mean(l, WindowStart(j, RsiWindow), j + 1))
    ensures var rsi := Rsi(RelativeStrength(TodayAvgGain(close), TodayAvgLoss(close)));
      (rsi[j].Some? <==> TodayAvgLoss(close)[j].value != 0.0) &&
      (rsi[j].Some? ==> 0.0 <= rsi[j].value < 100.0)
  {
    var change := TodayChange(close);
    var gains := Gains(change);
    var losses := Losses(change);
    GainLossSplit(change);
    TailIdempotent(RollingMean(Defined(gains), RsiWindow, 1), TodayWindow);
    TailIdempotent(RollingMean(Defined(losses), RsiWindow, 1), TodayWindow);
    RollingMeanDefined(gains, RsiWindow, 1, j);
    RollingMeanDefined(losses, RsiWindow, 1, j);
    RollingMeanNonNegative(gains, RsiWindow, 1, j);
    RollingMeanNonNegative(losses, RsiWindow, 1, j);
    var g := TodayAvgGain(close)[j].value;
    var l := TodayAvgLoss(close)[j].value;
    if l != 0.0 {
      RsiRange(g, l);
    } else {
      RsiUndefinedWithoutLoss(Some(g));
    }
  }
}
