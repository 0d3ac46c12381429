/**
  Per-column min-max scaling, `(v - low) / diff`, as both versions of the
  feature code apply it to the columns a model asks for, skipping the
  columns named in an exclusion set. The two versions differ only in where
  `(low, diff)` comes from: stored scaler entries (`scaler_data[column]`
  with keys `min` and `diff`) or the minimum and maximum of the column's
  stored training values.
 */
module Scaling {
  import opened Outcomes
  import opened Series

  /** One column of the feature dictionary: a pandas series, or a plain Python
      list (the earnings columns), which does not support `list - float`. */
  datatype ColumnData = Column(values: seq<Value>) | PlainList(items: seq<real>)

  /** A stored scaler entry: the column minimum and its range. */
  datatype ScalerEntry = ScalerEntry(low: real, diff: real)

  /** `(v - low) / diff` for one entry; NaN stays NaN, and a zero range gives
      pandas' inf/NaN, kept as undefined. */
  function ScaleValue(v: Value, e: ScalerEntry): Value {
    if v.Some? && e.diff != 0.0 then Some((v.value - e.low) / e.diff) else None
  }

  /** `(column_values - low) / diff` on a whole series. */
  function ScaleSeries(s: seq<Value>, e: ScalerEntry): (r: seq<Value>)
    ensures |r| == |s|
  {
    seq(|s|, i requires 0 <= i < |s| => ScaleValue(s[i], e))
  }

  /** Scaling is an affine bijection when the range is non-zero: it maps
      `low` to 0 and `low + diff` to 1, and `low + diff * scaled` recovers
      the original value. */
  lemma ScaleRoundTrip(v: real, e: ScalerEntry)
    requires e.diff != 0.0
    ensures ScaleValue(Some(e.low), e) == Some(0.0)
    ensures ScaleValue(Some(e.low + e.diff), e) == Some(1.0)
    ensures ScaleValue(Some(v), e).Some?
    ensures e.low + e.diff * ScaleValue(Some(v), e).value == v
  {
    assert e.low + e.diff - e.low == e.diff;
    assert e.diff / e.diff == 1.0;
  }

  /** With a positive range scaling preserves order. */
  lemma ScaleMonotone(v: real, w: real, e: ScalerEntry)
    requires e.diff > 0.0 && v <= w
    ensures ScaleValue(Some(v), e).value <= ScaleValue(Some(w), e).value
  {
    assert (w - e.low) / e.diff - (v - e.low) / e.diff == (w - v) / e.diff;
  }

  /** Stored parameters `{min: 10, diff: 10}` scale 15 to 0.5, 10 to 0 and 20 to 1. */
  lemma ScaleExample()
    ensures ScaleValue(Some(15.0), ScalerEntry(10.0, 10.0)) == Some(0.5)
    ensures ScaleValue(Some(10.0), ScalerEntry(10.0, 10.0)) == Some(0.0)
    ensures ScaleValue(Some(20.0), ScalerEntry(10.0, 10.0)) == Some(1.0)
  {
  }

  /** Every requested column outside the exclusion set has parameters, is in
      the feature dictionary, and is a series. */
  ghost predicate Scalable(stock: map<string, ColumnData>, keys: seq<string>, excluded: set<string>,
                           params: string -> Result<ScalerEntry>)
  {
    forall i :: 0 <= i < |keys| && keys[i] !in excluded ==>
      params(keys[i]).Ok? && keys[i] in stock && stock[keys[i]].Column?
  }

  /** The loop `for column in information_keys: if column in excluded_values:
      continue; ...; stock_data[column] = (column_values - low) / diff`.
      It raises the error of the first requested column that lacks
      parameters, is missing, or is a plain list; otherwise it keeps the set of
      columns and leaves every column it was not asked to scale untouched. */
  function ScaleColumns(stock: map<string, ColumnData>, keys: seq<string>, excluded: set<string>,
                        params: string -> Result<ScalerEntry>): (r: Result<map<string, ColumnData>>)
    ensures r.Ok? <==> Scalable(stock, keys, excluded, params)
    ensures r.Ok? ==> r.value.Keys == stock.Keys
    ensures r.Ok? ==> forall k :: k in stock && (k in excluded || k !in keys) ==> r.value[k] == stock[k]
    ensures r.Ok? ==> forall k :: k in stock && stock[k].Column? ==> r.value[k].Column?
    ensures r.Ok? ==> forall k :: k in stock && stock[k].Column? ==> |r.value[k].values| == |stock[k].values|
    decreases |keys|
  {
    if |keys| == 0 then Ok(stock)
    else
      var k := keys[0];
      if k in excluded then
        var r := ScaleColumns(stock, keys[1..], excluded, params);
        assert Scalable(stock, keys, excluded, params) <==> Scalable(stock, keys[1..], excluded, params) by {
          if Scalable(stock, keys[1..], excluded, params) {
            forall i | 0 <= i < |keys| && keys[i] !in excluded
              ensures params(keys[i]).Ok? && keys[i] in stock && stock[keys[i]].Column?
            {
              assert i > 0 && keys[i] == keys[1..][i - 1];
            }
          }
        }
        r
      else if params(k).Raise? then Raise(params(k).fault)
      else if k !in stock then Raise(KeyFault)
      else if stock[k].PlainList? then Raise(TypeFault)
      else
        var next := stock[k := Column(ScaleSeries(stock[k].values, params(k).value))];
        var r := ScaleColumns(next, keys[1..], excluded, params);
        assert Scalable(stock, keys, excluded, params) <==> Scalable(next, keys[1..], excluded, params) by {
          if Scalable(next, keys[1..], excluded, params) {
            forall i | 0 <= i < |keys| && keys[i] !in excluded
              ensures params(keys[i]).Ok? && keys[i] in stock && stock[keys[i]].Column?
            {
              if i > 0 {
                assert keys[i] == keys[1..][i - 1];
              }
            }
          }
          if Scalable(stock, keys, excluded, params) {
            forall i | 0 <= i < |keys[1..]| && keys[1..][i] !in excluded
              ensures params(keys[1..][i]).Ok? && keys[1..][i] in next && next[keys[1..][i]].Column?
            {
              assert keys[1..][i] == keys[i + 1];
            }
          }
        }
        r
  }

  predicate NoDuplicates<T(==)>(s: seq<T>) {
    forall i, j :: 0 <= i < j < |s| ==> s[i] != s[j]
  }

  /** A requested, non-excluded column that appears once among the keys is
      replaced by its scaled series (`(v - low) / diff` entry by entry). */
  lemma {:induction false} ScaleColumnsScalesRequested(stock: map<string, ColumnData>, keys: seq<string>,
                                                      excluded: set<string>, params: string -> Result<ScalerEntry>,
                                                      k: string)
    requires NoDuplicates(keys)
    requires ScaleColumns(stock, keys, excluded, params).Ok?
    requires k in keys && k !in excluded
    ensures params(k).Ok? && k in stock && stock[k].Column?
    ensures ScaleColumns(stock, keys, excluded, params).value[k]
         == Column(ScaleSeries(stock[k].values, params(k).value))
    decreases |keys|
  {
    var i :| 0 <= i < |keys| && keys[i] == k;
    assert params(keys[i]).Ok? && keys[i] in stock && stock[keys[i]].Column?;
    var rest := keys[1..];
    assert NoDuplicates(rest) by {
      forall a, b | 0 <= a < b < |rest| ensures rest[a] != rest[b] {
        assert rest[a] == keys[a + 1] && rest[b] == keys[b + 1];
      }
    }
    if keys[0] == k {
      assert k !in rest by {
        forall a | 0 <= a < |rest| ensures rest[a] != k {
          assert rest[a] == keys[a + 1];
        }
      }
      var next := stock[k := Column(ScaleSeries(stock[k].values, params(k).value))];
      assert ScaleColumns(stock, keys, excluded, params) == ScaleColumns(next, rest, excluded, params);
    } else {
      assert k in rest by {
        assert i > 0 && rest[i - 1] == k;
      }
      if keys[0] in excluded {
        ScaleColumnsScalesRequested(stock, rest, excluded, params, k);
      } else {
        var k0 := keys[0];
        var next := stock[k0 := Column(ScaleSeries(stock[k0].values, params(k0).value))];
        assert ScaleColumns(stock, keys, excluded, params) == ScaleColumns(next, rest, excluded, params);
        ScaleColumnsScalesRequested(next, rest, excluded, params, k);
        assert next[k] == stock[k];
      }
    }
  }

  // ---------------------------------------------------------------------
  // Parameters fitted from stored training values
  // ---------------------------------------------------------------------

  /** Python's `min` of a non-empty list. */
  function MinOf(xs: seq<real>): (m: real)
    requires |xs| > 0
    ensures forall i :: 0 <= i < |xs| ==> m <= xs[i]
    ensures exists i :: 0 <= i < |xs| && xs[i] == m
  {
    if |xs| == 1 then xs[0]
    else
      var rest := MinOf(xs[1..]);
      assert forall i :: 1 <= i < |xs| ==> xs[i] == xs[1..][i - 1];
      if xs[0] <= rest then xs[0] else rest
  }

  /** Python's `max` of a non-empty list. */
  function MaxOf(xs: seq<real>): (m: real)
    requires |xs| > 0
    ensures forall i :: 0 <= i < |xs| ==> xs[i] <= m
    ensures exists i :: 0 <= i < |xs| && xs[i] == m
  {
    if |xs| == 1 then xs[0]
    else
      var rest := MaxOf(xs[1..]);
      assert forall i :: 1 <= i < |xs| ==> xs[i] == xs[1..][i - 1];
      if xs[0] >= rest then xs[0] else rest
  }

  /** `low, high = min(self.data[column]), max(self.data[column])` turned into
      a scaler entry with `diff = high - low`: a missing column raises
      KeyError and an empty one ValueError (`min` of an empty list). */
  function FitEntry(data: map<string, seq<real>>, column: string): (r: Result<ScalerEntry>)
    ensures r.Ok? <==> column in data && |data[column]| > 0
    ensures column !in data ==> r == Raise(KeyFault)
    ensures column in data && |data[column]| == 0 ==> r == Raise(ValueFault)
    ensures r.Ok? ==> forall i :: 0 <= i < |data[column]| ==>
      r.value.low <= data[column][i] <= r.value.low + r.value.diff
    ensures r.Ok? ==> (exists i :: 0 <= i < |data[column]| && data[column][i] == r.value.low)
    ensures r.Ok? ==> (exists i :: 0 <= i < |data[column]| && data[column][i] == r.value.low + r.value.diff)
  {
    if column !in data then Raise(KeyFault)
    else if |data[column]| == 0 then Raise(ValueFault)
    else
      var low := MinOf(data[column]);
      var high := MaxOf(data[column]);
      Ok(ScalerEntry(low, high - low))
  }

  /** A value between `low` and `low + diff` scales into `[0, 1]`. */
  lemma UnitRange(v: real, e: ScalerEntry)
    requires e.diff > 0.0 && e.low <= v <= e.low + e.diff
    ensures ScaleValue(Some(v), e).Some? && 0.0 <= ScaleValue(Some(v), e).value <= 1.0
  {
    QuotientBounds(v - e.low, e.diff - (v - e.low), e.diff);
  }

  /** A non-negative part `x` of a positive whole `d` (the rest `y` being
      non-negative too) is a fraction of it between 0 and 1. */
  lemma QuotientBounds(x: real, y: real, d: real)
    requires d > 0.0 && x >= 0.0 && y >= 0.0 && x + y == d
    ensures 0.0 <= x / d <= 1.0
  {
    var q := x / d;
    assert q * d == x;
    assert (1.0 - q) * d == y;
  }

  /** Scaling with parameters fitted on the stored training column maps that
      column's minimum to 0, its maximum to 1, and every stored value into
      `[0, 1]`, provided the column is not constant. */
  lemma FittedScaleUnitRange(data: map<string, seq<real>>, column: string, i: nat)
    requires column in data && i < |data[column]|
    requires FitEntry(data, column).value.diff != 0.0
    ensures var e := FitEntry(data, column).value;
      ScaleValue(Some(e.low), e) == Some(0.0) && ScaleValue(Some(e.low + e.diff), e) == Some(1.0)
    ensures var e := FitEntry(data, column).value;
      0.0 <= ScaleValue(Some(data[column][i]), e).value <= 1.0
  {
    var e := FitEntry(data, column).value;
    var v := data[column][i];
    ScaleRoundTrip(v, e);
    assert e.low <= v <= e.low + e.diff;
    UnitRange(v, e);
  }
}
