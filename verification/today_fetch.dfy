/**
  The price fetch at the top of `BaseModel.getInfoToday` in Models.py
  (lines 177-187). It is meant to work in one of two ways:
  - with a cached frame, drop its oldest bar and append the newly
    downloaded day;
  - without one, download the last 260 days.

  The downloads are parameters: `history` is what the 260-day request
  returns, and `day` is what the one-day request returns. A cached frame is
  `Some(bars)`.

  Models.py itself never stores a frame in `self.cached`: line 41 sets it to
  `None`, and `getInfoToday` reads it at line 174 without writing the
  fetched frame back. So the cached branch runs only when a caller assigns
  `model.cached` a frame; this holds for the code as written and for the
  intended fetch alike.
 */
module TodayFetch {
  import opened Outcomes
  import opened OfflineCache

  /** The fetch as written. The file never imports `yf`, so the first
      statement raises `NameError` whatever the inputs are. */
  function FetchAsWritten(cached: Option<seq<Bar>>, history: seq<Bar>, day: seq<Bar>): (r: Result<seq<Bar>>)
    ensures r.Raise? && r.fault == NameFault
  {
    Raise(NameFault)
  }

  /** The fetch with the missing imports added, and otherwise as written.
      Line 179 asks a DataFrame for its truth value, which pandas refuses
      with `ValueError`, so only the uncached branch can succeed. */
  function FetchWithImports(cached: Option<seq<Bar>>, history: seq<Bar>, day: seq<Bar>): (r: Result<seq<Bar>>)
    ensures cached.Some? ==> r == Raise(ValueFault)
    ensures cached.None? ==> r == Ok(history)
  {
    match cached
    case None => Ok(history)
    case Some(_) => Raise(ValueFault)
  }

  /** Lines 182-183 as written, on a pandas before 2.0. `drop` drops the
      oldest bar, but the frame that `append` returns is thrown away, so the
      new day never arrives. An empty frame has no first index to drop. */
  function ShiftDiscardingAppend(frame: seq<Bar>, day: seq<Bar>): (r: Result<seq<Bar>>)
    ensures |frame| == 0 <==> r == Raise(IndexFault)
    ensures r.Ok? ==> r.value == frame[1..]
  {
    if |frame| == 0 then Raise(IndexFault) else Ok(frame[1..])
  }

  /** Lines 182-183 as written, on pandas 2.0 or later, where
      `DataFrame.append` no longer exists: the `drop` succeeds and the call
      of `append` raises `AttributeError`. */
  function ShiftWithoutAppend(frame: seq<Bar>, day: seq<Bar>): (r: Result<seq<Bar>>)
    ensures |frame| == 0 <==> r == Raise(IndexFault)
    ensures |frame| > 0 <==> r == Raise(AttributeFault)
  {
    if |frame| == 0 then Raise(IndexFault) else Raise(AttributeFault)
  }

  /** The fetch as intended. A cached frame is shifted by the downloaded
      day, and otherwise the downloaded history is used. */
  function FetchToday(cached: Option<seq<Bar>>, history: seq<Bar>, day: seq<Bar>): (r: Result<seq<Bar>>)
    ensures cached.None? ==> r == Ok(history)
    ensures cached.Some? && |cached.value| > 0 ==>
      r.Ok? && |r.value| == |cached.value| - 1 + |day| && r.value[..|cached.value| - 1] == cached.value[1..] && r.value[|cached.value| - 1..] == day
  {
    match cached
    case None => Ok(history)
    case Some(frame) => if |frame| == 0 then Raise(IndexFault) else Ok(frame[1..] + day)
  }

  /** No call of the fetch as written ever reaches the indicator block. The
      intended fetch hands it the downloaded history when there is no
      cache. */
  lemma FetchAsWrittenAlwaysRaises(cached: Option<seq<Bar>>, history: seq<Bar>, day: seq<Bar>)
    ensures FetchAsWritten(cached, history, day) == Raise(NameFault)
    ensures cached.None? ==> FetchToday(cached, history, day) == Ok(history)
  {
  }

  /** With a cached frame, even the fetch with the imports added fails at
      the truth test, while the intended fetch shifts the frame. */
  lemma CachedFrameFailsTruthTest(frame: seq<Bar>, history: seq<Bar>, day: seq<Bar>)
    requires |frame| > 0
    ensures FetchWithImports(Some(frame), history, day) == Raise(ValueFault)
    ensures FetchToday(Some(frame), history, day).Ok?
  {
  }

  /** The discarded append makes the frame one bar shorter on every call,
      without the new day. The intended shift keeps the length and ends with
      that day. */
  lemma DiscardedAppendLosesTheDay(frame: seq<Bar>, bar: Bar)
    requires |frame| > 0
    ensures ShiftDiscardingAppend(frame, [bar]) == Ok(frame[1..])
    ensures |ShiftDiscardingAppend(frame, [bar]).value| == |frame| - 1
    ensures |FetchToday(Some(frame), [], [bar]).value| == |frame|
    ensures FetchToday(Some(frame), [], [bar]).value[|frame| - 1] == bar
  {
  }

  /** Whichever pandas runs lines 182-183, the shift as written never yields
      the intended frame: before 2.0 it loses the day, from 2.0 on it raises. */
  lemma NoPandasKeepsTheDay(frame: seq<Bar>, bar: Bar)
    requires |frame| > 0
    ensures ShiftDiscardingAppend(frame, [bar]) != FetchToday(Some(frame), [], [bar])
    ensures ShiftWithoutAppend(frame, [bar]) != FetchToday(Some(frame), [], [bar])
  {
    DiscardedAppendLosesTheDay(frame, bar);
  }

  /** The intended fetch shifts a cached frame exactly as the online refresh
      in Stock-Bot-Predicter-AI/models.py does, whenever the download
      returned something. */
  lemma FetchTodayIsOnlineShift(frame: seq<Bar>, history: seq<Bar>, day: seq<Bar>)
    requires |day| > 0
    ensures FetchToday(Some(frame), history, day) == UpdateCachedInfoOnline(OnlineFrame(frame), day)
  {
  }
}
