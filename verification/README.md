# Stock-Bot feature windows in Dafny

This project models the part of the Stock-Bot predictor that turns a daily
price history into the fixed-length, scaled feature window the sequence model
consumes, and keeps that window current as days pass. It covers:

- the indicator arithmetic: EMA with `adjust=False`, MACD, Signal Line,
  Histogram, Change, Momentum, the Gain/Loss split, RSI, TRAMA, and the
  `iloc[-n:]` trailing windows, including pandas' NaN and index-alignment
  rules. It is modelled once for `indicators_past_num_days`
  (Stock-Bot-Predicter-AI/models.py) and once for `getInfoToday`
  (Models.py), because the two differ in window sizes and `min_periods`;
- the per-column min/diff scaling, which skips the excluded keys;
- the offline cache window in `update_cached_offline`: populate from a
  date-indexed snapshot, then advance by "drop the oldest row, append the end
  date's row". Also the online one-day shift of the downloaded frame;
- the online-to-offline fallback of `get_info_today`, with the date advance
  and the final reshape;
- the two agreement scores: `calculate_percentage_movement_together`, and
  the sign tally in `run_loop`;
- the size guard of `train` and the 80/20 split.

Modelling conventions:

- pandas NaN is `Option.None` and a raised Python exception is
  `Result.Raise(fault)` (module `Outcomes`).
- Prices are exact reals.
- Dates are integer day numbers, so "one day later" is `+ 1`. Where the
  code compares a date string with a `datetime`, a date is a `Stamp`
  (`Text(day)` or `Moment(day)`), and the two kinds never compare equal.
- Methods that mutate the model object are functions from the old state to
  `(outcome, new state)`. The new state is kept even on failure, because
  several failures happen after fields were already assigned.

Modules, one file each:

| file | module | what it holds |
|---|---|---|
| outcomes.dfy | `Outcomes` | `Option`, `Fault`, `Result`, `IndexOf` (Python's `list.index`) |
| series.dfy | `Series` | trailing windows, diff, NaN-aware rolling sum/mean, Python slicing |
| ewm.dfy | `Ewm` | the `adjust=False` exponential moving average |
| indicators.dfy | `Indicators` | MACD, Gain/Loss, RSI, Momentum, TRAMA |
| scaling.dfy | `Scaling` | min/diff scaling of the requested columns |
| past_num_days.dfy | `PastNumDays` | `indicators_past_num_days` |
| today_fetch.dfy | `TodayFetch` | the price fetch at the top of `getInfoToday` |
| today_info.dfy | `TodayInfo` | the indicator, earnings and scaling block of `getInfoToday` |
| training.dfy | `Training` | the `train` size guard and the 80/20 split |
| offline_cache.dfy | `OfflineCache` | `update_cached_offline` and `update_cached_info_online` |
| get_info.dfy | `GetInfo` | `get_info_today` |
| scoring.dfy | `Scoring` | `calculate_percentage_movement_together` and the `run_loop` tally |

Notes on the code's behaviour that the model makes explicit:

- The first call of `update_cached_offline` both populates and advances,
  because the advance at models.py:571 sits outside the populate branch.
  Populating cuts rows `e - n .. e - 1` (where `e` is the end date's position
  and `n` is `num_days`), and the advance that follows appends row `e`. So the
  first window is rows `e - n + 1 .. e`, the same shape every later advance
  keeps. `OfflineCache.FirstLoadWindow` proves this, and
  `OfflineCache.FirstLoadShortWindow` shows that the window comes out short
  when fewer than `n` days precede the end date.
- TRAMA's volatility term is `0.1 ×` that day's absolute change
  (models.py:449, Models.py:224): `diff().abs()` is taken entry by entry,
  with no rolling window over it.
- The two feature builders use different `min_periods`.
  `indicators_past_num_days` averages gains and losses with pandas' default,
  so a full 14-day window is needed (models.py:443-444), while `getInfoToday`
  passes `min_periods=1` (Models.py:218-219). For the Signal Line it is the
  other way round: `min_periods=1` on the full MACD in models.py:416, the
  default on the 60-row MACD in Models.py:202.
- `calculate_percentage_movement_together` divides by `total - 1`
  (models.py:334). On empty lists that is `0 / -1`, which returns `-0.0`;
  only a single element divides by zero.
- `train` checks `size < num_days` only after choosing the rows it builds
  sequences from (models.py:187-203). In test mode it can admit data whose
  80% slice is shorter than `num_days` (`Training.GuardAdmitsShortTestRows`).
  What `create_sequences` makes of such a slice is outside the model.

## Model

| member | source | states |
|---|---|---|
| Series.Tail | Stock-Bot-Predicter-AI/models.py:410 | `iloc[-k:]` keeps the last `min(k, n)` entries, in order; `k = 0` keeps the whole series |
| Series.TailOfShort | Stock-Bot-Predicter-AI/models.py:410 | a history no longer than `num_days` is kept whole by the trailing window |
| Series.TailIdempotent | Stock-Bot-Predicter-AI/models.py:434-436 | trimming the already trimmed Change again with the same window changes nothing |
| Series.DiffEntries | Stock-Bot-Predicter-AI/models.py:418 | `diff()` is NaN exactly at position 0, and each later entry added to its predecessor gives the current value |
| Series.AbsDiffIsMagnitude | Stock-Bot-Predicter-AI/models.py:449 | `diff().abs()` is defined from position 1, is non-negative, and is plus or minus the diff |
| Series.RollingSumDefined | Stock-Bot-Predicter-AI/models.py:438 | `rolling(w, min_periods=m).sum()` on a NaN-free series is defined iff at least `m` samples exist, and then sums positions `max(0, i-w+1) .. i` |
| Series.RollingMeanDefined | Stock-Bot-Predicter-AI/models.py:416 | the rolling mean obeys the same rule and averages the same positions |
| Series.RollingMeanAllDefined | Stock-Bot-Predicter-AI/models.py:416 | with `min_periods=1`, no entry of the rolling mean of a NaN-free series is NaN |
| Series.DiffTelescopes | Stock-Bot-Predicter-AI/models.py:438 | summing a window of first differences gives the last close minus the close just before the window |
| Series.SlidingRollingSum | Stock-Bot-Predicter-AI/models.py:438 | a one-pass sliding computation gives, at every position, the NaN-skipping window sum, defined iff the window holds `min_periods` observations |
| Series.SlidingMatchesRolling | Stock-Bot-Predicter-AI/models.py:438 | any series meeting that description is the rolling sum, so the sliding and the batch rolling sums agree |
| Series.PySliceInRange | Stock-Bot-Predicter-AI/models.py:563 | Python slicing with in-range bounds is ordinary slicing |
| Series.TrailingSliceLength | Stock-Bot-Predicter-AI/models.py:563 | `col[e-n:e]` has exactly `n` entries iff `n <= e`; otherwise the negative start wraps and the slice is shorter |
| Ewm.Alpha | Stock-Bot-Predicter-AI/models.py:412 | the smoothing factor `2/(span+1)` lies in `(0, 1]` for every span of at least 1 |
| Ewm.EwmRecurrence | Stock-Bot-Predicter-AI/models.py:412-413 | the EMA starts at the first close and follows `ema[t] = a*x[t] + (1-a)*ema[t-1]` |
| Ewm.StreamEwm | Stock-Bot-Predicter-AI/models.py:412-413 | a streaming EMA that carries the previous average forward satisfies the same recurrence and equals the batch EMA |
| Ewm.RecurrenceDeterminesEwm | Stock-Bot-Predicter-AI/models.py:412-413 | the recurrence has exactly one solution, so the streaming and batch EMAs are equal |
| Ewm.EwmPrefix | Stock-Bot-Predicter-AI/models.py:412-413 | the EMA is causal: extending the history never changes earlier averages |
| Ewm.EmaAtBounded | Stock-Bot-Predicter-AI/models.py:412-413 | every average lies between the smallest and the largest close |
| Ewm.EmaBounded | Stock-Bot-Predicter-AI/models.py:412-413 | the same bound for the whole EMA series, for every span of at least 1 |
| Ewm.EmaOfConstant | Stock-Bot-Predicter-AI/models.py:412-413 | a flat history has a flat EMA at the same level |
| Indicators.MacdOfConstant | Stock-Bot-Predicter-AI/models.py:412-414 | a flat history has MACD zero everywhere |
| Indicators.TrimThenSubtract | Models.py:192-198 | subtracting the two 60-row EMA windows equals trimming the full MACD to 60 rows |
| Indicators.GainLossSplit | Stock-Bot-Predicter-AI/models.py:441-442 | Gain and Loss are non-negative, at most one is non-zero, Gain − Loss is the change, and a NaN change gives 0 for both |
| Indicators.RollingMeanNonNegative | Stock-Bot-Predicter-AI/models.py:443-444 | the average gain and average loss are never negative |
| Indicators.RsiRange | Stock-Bot-Predicter-AI/models.py:445-446 | with a positive average loss, RSI is `100*g/(g+l)`, in `[0, 100)` |
| Indicators.RsiUndefinedWithoutLoss | Stock-Bot-Predicter-AI/models.py:445-446 | a zero average loss gives no finite RSI |
| Indicators.MomentumOfTrimmedChange | Stock-Bot-Predicter-AI/models.py:434-438 | Momentum on the trimmed Change is the close minus the close before its window inside the trimmed range, and is NaN only at the very first day of the history |
| Indicators.TrimBeforeRollingDiffers | Stock-Bot-Predicter-AI/models.py:434-438 | trimming Change before the rolling sum gives different values from trimming after it |
| Indicators.FullWindowMean | Models.py:225 | `rolling(window=period).mean()` with a window of 0 holds no observation, so every entry is NaN |
| Indicators.TramaEntry | Stock-Bot-Predicter-AI/models.py:449-451 | TRAMA is the rolling close mean plus `0.1 ×` that day's absolute change, defined iff the window is at least 1 and full, and a previous day exists |
| Scaling.ScaleRoundTrip | Stock-Bot-Predicter-AI/models.py:496-500 | scaling maps `min` to 0 and `min + diff` to 1, and `min + diff * scaled` recovers the value |
| Scaling.ScaleMonotone | Stock-Bot-Predicter-AI/models.py:499 | with a positive range, scaling preserves order |
| Scaling.ScaleColumns | Stock-Bot-Predicter-AI/models.py:493-501 | scaling succeeds iff every requested, non-excluded key has stored parameters and a series column. It keeps the key set, and it leaves excluded and unrequested columns untouched |
| Scaling.ScaleColumnsScalesRequested | Stock-Bot-Predicter-AI/models.py:493-501 | each requested, non-excluded column becomes its own series scaled with its own parameters |
| Scaling.FitEntry | Models.py:266 | the scaling range of a column is its training minimum and maximum. A missing column raises `KeyError`, an empty one `ValueError` |
| Scaling.FittedScaleUnitRange | Models.py:266-268 | scaling with a column's training range maps that column into `[0, 1]`, its minimum to 0 and its maximum to 1 |
| PastNumDays.SignalLine | Stock-Bot-Predicter-AI/models.py:415-416 | the Signal Line has `TailLen(n, num_days)` rows: the last `num_days`, or all `n` when `num_days` is 0 or at least `n`, with no NaN entries |
| PastNumDays.SignalLineEntry | Stock-Bot-Predicter-AI/models.py:415-416 | row `j` of the Signal Line is the mean of the full MACD over the last up to 9 positions ending at the row's history position |
| PastNumDays.HistogramAligned | Stock-Bot-Predicter-AI/models.py:427-429 | the Histogram window equals MACD minus Signal Line row by row, and every row is defined |
| PastNumDays.MomentumColumn | Stock-Bot-Predicter-AI/models.py:434-439 | the Momentum column's rows telescope to close differences within the trimmed range |
| PastNumDays.RsiColumnDefinedFrom13 | Stock-Bot-Predicter-AI/models.py:440-446 | the first 13 RSI rows are NaN (a full 14-row window of the trimmed Change is needed), and defined rows lie in `[0, 100)` |
| PastNumDays.TramaColumn | Stock-Bot-Predicter-AI/models.py:447-451 | a TRAMA row is the 14-day close mean plus 0.1 × that day's absolute change, defined from history position 13 |
| PastNumDays.ChangeColumnIsTail | Stock-Bot-Predicter-AI/models.py:434-436 | trimming the already trimmed change again is a no-op: the Change column is the trailing window of the full-history diff |
| PastNumDays.CloseDerivedAreTails | Stock-Bot-Predicter-AI/models.py:410-436 | Close, the EMAs, MACD and Change in the dictionary are the trailing windows of their full-history series |
| PastNumDays.BuiltinColumn | Stock-Bot-Predicter-AI/models.py:410-471 | every Close-derived column exists and has `TailLen(n, num_days)` rows: the last `num_days`, or all `n` when `num_days` is 0 or at least `n` |
| PastNumDays.Features | Stock-Bot-Predicter-AI/models.py:408-471 | the dictionary holds Close and exactly the requested keys the method knows how to build, each with its column |
| Indicators.Lookup | Stock-Bot-Predicter-AI/models.py:485-488 | a membership test followed by `list.index`: no value iff the tested date is absent; `ValueError` iff it is present and the looked-up date is not; a value read is the surprise at the looked-up date's first position |
| Indicators.StampedIndex | Stock-Bot-Predicter-AI/models.py:485-488 | a day is found among dates of its own type exactly when it is an earnings date, at the same position as among the day numbers; a day of the other type is never found |
| PastNumDays.EarningsEntry | Stock-Bot-Predicter-AI/models.py:484-490 | intended entry, with the test and the lookup on dates of one type: 0 off an earnings date; on one, a missing `end − num_days` date raises `ValueError`, and a success is the surprise at that date scaled with the stored range |
| PastNumDays.ScaledEntry | Stock-Bot-Predicter-AI/models.py:486-490 | 0 off an earnings date; a found surprise is scaled, and a zero range raises `ZeroDivisionError` |
| PastNumDays.EarningsEntryOfOneKind | Stock-Bot-Predicter-AI/models.py:484-490 | with the earnings dates and both compared days of one type, the loop body computes exactly the intended entry |
| PastNumDays.EarningsEntryAsWritten | Stock-Bot-Predicter-AI/models.py:476-490 | as written the test uses the string `end_date` and the lookup the `datetime` `date`: string earnings dates make every earnings day raise `ValueError`, `datetime` ones make every entry 0, so no surprise is ever read |
| PastNumDays.EarningsSurpriseLost | Stock-Bot-Predicter-AI/models.py:476-490 | earnings days 30 and 1 with surprises 2 and 5, end 30, `num_days` 29: the intended entry is 2.0, the code as written raises for string dates and gives 0 for `datetime` dates |
| PastNumDays.EarningsDiffs | Stock-Bot-Predicter-AI/models.py:484-490 | the earnings list, intended or as written, has `num_days` copies of the same entry, or the first entry's exception |
| PastNumDays.EarningsZerosOffEarningsDates | Stock-Bot-Predicter-AI/models.py:485-487 | off an earnings date the earnings list is `num_days` zeros, intended and as written alike |
| PastNumDays.EarningsColumnAsWritten | Stock-Bot-Predicter-AI/models.py:476-490 | as written, `datetime` earnings dates always give `num_days` zeros; string ones give `ValueError` on every earnings day (for `num_days >= 1`) and zeros elsewhere |
| PastNumDays.Unscaled | Stock-Bot-Predicter-AI/models.py:408-490 | before scaling, the dictionary is the feature columns plus, at most, the two earnings entries, built with the as-written or the corrected lookup |
| PastNumDays.IndicatorsPastNumDays | Stock-Bot-Predicter-AI/models.py:389-502 | the method as written (`AsWritten`) or with line 488 corrected (`Intended`). On success: Close and every requested non-excluded key are present, and nothing else except the earnings dates. Close-derived columns have `TailLen(n, num_days)` rows: the last `num_days`, or all `n` when `num_days` is 0 or at least `n` |
| PastNumDays.DatetimeEarningsDatesHideMissingDay | Stock-Bot-Predicter-AI/models.py:476-490 | earnings day 30 alone, end 30, `num_days` 29, only `earning diffs` requested and excluded: as written with `datetime` dates the method succeeds, with line 488 corrected it raises `ValueError` |
| PastNumDays.UnknownRequestedKeyRaises | Stock-Bot-Predicter-AI/models.py:493-498 | a requested, non-excluded key the method cannot build makes the call raise |
| PastNumDays.RequestedColumnIsScaled | Stock-Bot-Predicter-AI/models.py:493-501 | every requested column in the result is its built column scaled with its stored parameters |
| TodayInfo.TodayMacdIsTrimmedMacd | Models.py:192-198 | MACD from the two 60-row EMAs equals the last 60 rows of the full MACD |
| TodayInfo.TodaySignalIsRolling | Models.py:201-203 | the Signal Line is the 9-row rolling mean, without `min_periods`, of the 60-row MACD |
| TodayInfo.TodaySignalEntry | Models.py:201-203 | the first 8 Signal Line rows are NaN; row `j >= 8` is the mean of MACD rows `j-8 .. j` |
| TodayInfo.TodayHistogramEntry | Models.py:206 | the Histogram is NaN on the first 8 rows and MACD minus Signal Line after |
| TodayInfo.TodayMomentum | Models.py:212-213 | Momentum over the 60-row Change telescopes to close differences inside the window |
| TodayInfo.TodayRsi | Models.py:216-221 | with `min_periods=1`, Avg Gain and Avg Loss are means over the last up to 14 rows, and RSI is defined iff Avg Loss is non-zero, then in `[0, 100)` |
| TodayInfo.AllDates | Models.py:247-250 | `all_dates` has exactly 3 entries, entry `i` being `i + 1` days before the end date |
| TodayInfo.EarningsAt | Models.py:254-258 | intended pass, with the test and the lookup on dates of one type: 0 off an earnings date; on one, success iff the date has a recorded surprise, which is returned, and otherwise `ValueError` or `IndexError` |
| TodayInfo.EarningsAtOfOneKind | Models.py:254-258 | with the earnings dates and both compared days of one type, the loop body computes exactly the intended pass |
| TodayInfo.EarningsDiffList | Models.py:252-258 | the earnings list has one entry per date, or raises the first entry's exception |
| TodayInfo.EarningsDiffsOfAllDates | Models.py:243-258 | intended list: off an earnings date it is three zeros. On one, it succeeds iff the three previous days all have recorded surprises, and then lists them |
| TodayInfo.EarningsAtAsWritten | Models.py:180-258 | as written the test uses the `datetime` `end_date` and the lookup a `strftime` string: string earnings dates make every entry 0, `datetime` ones make every earnings day raise `ValueError` |
| TodayInfo.EarningsDiffListAsWritten | Models.py:247-258 | the list as written holds only zeros, and raises `ValueError` whenever the end date is a `datetime` earnings date |
| TodayInfo.EarningsSurprisesLost | Models.py:243-258 | wherever the intended list reads the three surprises of an earnings day, the list as written is three zeros or `ValueError` |
| TodayInfo.TodayColumn | Models.py:189-240 | exactly the series names of the block have a column, Close is what line 189 stores, and every other windowed column has 60 rows |
| TodayInfo.TodayColumns | Models.py:189-258 | the dictionary has exactly the block's series plus the earnings list (as-written or corrected lookup), and succeeds iff that list does |
| TodayInfo.TodayColumnsShape | Models.py:192-240 | with Close trimmed like the rest, every windowed column has the same 60 rows |
| TodayInfo.ColumnLists | Models.py:271 | one list per requested key, in order; a missing key raises `KeyError`, and a plain list has no `.values` |
| TodayInfo.ScaleAndList | Models.py:260-271 | scaling and listing succeeds iff every requested key has a series column and, unless excluded, a non-empty training column |
| TodayInfo.InfoTodayAsWritten | Models.py:189-271 | the block as written, Close untrimmed and the earnings lookup of lines 254-257 as written, returns one list per key, with Close as long as the whole fetched history |
| TodayInfo.InfoToday | Models.py:189-271 | with Close trimmed (and the earnings lookup as written, or with line 257 corrected), every windowed list has the same 60 rows, and the earnings keys are never requested successfully |
| TodayInfo.UntrimmedCloseIsRagged | Models.py:189 | with more than 60 days of history the Close list is longer than the 60-row Change list; trimming Close, and changing nothing else, makes them equal |
| TodayInfo.InfoTodayScalesWithTrainingRange | Models.py:263-269 | each returned non-excluded list is its column scaled with the training column's min and max |
| TodayInfo.EarningsDiffRequestRaises | Models.py:252-271 | requesting `earnings diff` always fails, as written and corrected, because its plain list has no `.values` |
| TodayInfo.StringEarningsDatesHideMissingDays | Models.py:243-271 | earnings day 10 with no surprise, end 10, nothing requested: as written with string dates the block returns an empty list, with line 257 corrected it raises `ValueError` |
| TodayFetch.FetchAsWritten | Models.py:178 | the fetch as written raises `NameError` on every call |
| TodayFetch.FetchWithImports | Models.py:179-187 | with the imports added, a cached frame still raises `ValueError` at the truth test; without one the downloaded history is used |
| TodayFetch.ShiftDiscardingAppend | Models.py:182-183 | on a pandas before 2.0, the shift as written drops the oldest bar and loses the new day |
| TodayFetch.ShiftWithoutAppend | Models.py:182-183 | on pandas 2.0 or later, where `DataFrame.append` is gone, the shift as written raises `AttributeError` after the drop, and `IndexError` on an empty frame |
| TodayFetch.FetchToday | Models.py:177-187 | the intended fetch shifts a cached frame by the new day, and otherwise uses the downloaded history |
| TodayFetch.FetchAsWrittenAlwaysRaises | Models.py:178 | no call of the fetch as written reaches the indicator block, while the intended fetch does |
| TodayFetch.CachedFrameFailsTruthTest | Models.py:179 | a cached frame fails the truth test as written and is shifted by the intended fetch |
| TodayFetch.DiscardedAppendLosesTheDay | Models.py:182-183 | on a pandas before 2.0 the frame shrinks by one bar per call as written; the intended shift keeps its length and ends with the new day |
| TodayFetch.NoPandasKeepsTheDay | Models.py:182-183 | whichever pandas runs it, the shift as written never gives the intended frame: it loses the day or raises |
| TodayFetch.FetchTodayIsOnlineShift | Models.py:179-183 | the intended shift is the one models.py's online refresh performs |
| Training.TrainSize | Models.py:66 | `int(len(data) * 0.8)` is the floor of `4n/5` |
| Training.TrainTestSplit | Models.py:66-68 | the training part followed by the testing part is the data, and the training part has `int(0.8 n)` rows |
| Training.SplitPartsNonEmpty | Models.py:66-68 | the training part is non-empty iff there are at least 2 rows, the testing part iff there is at least 1 |
| Training.SequenceRows | Stock-Bot-Predicter-AI/models.py:187-191 | test mode builds sequences from the first 80% of the rows, otherwise from all of them |
| Training.TrainGuard | Stock-Bot-Predicter-AI/models.py:187-203 | training raises `ValueError` iff there are fewer rows than `num_days`, and otherwise uses the chosen rows |
| Training.GuardAdmitsShortTestRows | Stock-Bot-Predicter-AI/models.py:187-203 | in test mode the guard admits data whose 80% slice is shorter than `num_days` |
| OfflineCache.KeptKeys | Stock-Bot-Predicter-AI/models.py:560-561 | the window keys are the requested keys that are not excluded, and all of them when none is |
| OfflineCache.KeptKeysShorter | Stock-Bot-Predicter-AI/models.py:560-561 | requesting an excluded key makes the window narrower than the key list |
| OfflineCache.SliceColumns | Stock-Bot-Predicter-AI/models.py:558-564 | the slices are taken in key order; a key the snapshot lacks raises `KeyError` |
| OfflineCache.Transpose | Stock-Bot-Predicter-AI/models.py:565 | transposing succeeds iff the columns have equal lengths, and then row `i` entry `j` is column `j` entry `i` |
| OfflineCache.ReadRow | Stock-Bot-Predicter-AI/models.py:572-573 | the day's row holds one entry per key; a missing key or a short column raises |
| OfflineCache.Populate | Stock-Bot-Predicter-AI/models.py:549-570 | an unknown start or end date raises `ValueError` and changes nothing; an empty window raises `RuntimeError` after the fields are set; success loads the snapshot and a non-empty window |
| OfflineCache.Advance | Stock-Bot-Predicter-AI/models.py:571-576 | every failure leaves the state unchanged. A missing window raises `TypeError`, and a batched one always fails. Success requires the end date's row to have the window's width |
| OfflineCache.UpdateCachedOfflineAsWritten | Stock-Bot-Predicter-AI/models.py:543-576 | the method as written: a downloaded frame in `cached_info` raises `ValueError`, and the dates never change |
| OfflineCache.UpdateCachedOffline | Stock-Bot-Predicter-AI/models.py:543-576 | unknown dates on the first call raise `ValueError` without change, failures on a loaded snapshot leave the state unchanged, and a first-call success loads the snapshot |
| OfflineCache.AdvanceSlidesWindow | Stock-Bot-Predicter-AI/models.py:571-576 | on a loaded snapshot a successful call maps the window `W` to `W[1..] + [row(end)]`, preserving the row count |
| OfflineCache.SlicedWindow | Stock-Bot-Predicter-AI/models.py:557-565 | when `n <= e` and every kept column reaches day `e`, a sliced and transposed window holds, row by row, the kept columns' values for days `e-n .. e-1` |
| OfflineCache.SlideWindowOf | Stock-Bot-Predicter-AI/models.py:571-576 | dropping the first row of the window of days `f .. f+n-1` and appending day `f+n` gives the window of days `f+1 .. f+n` |
| OfflineCache.FirstLoadWindow | Stock-Bot-Predicter-AI/models.py:553-576 | after the first call the window is rows `e-n+1 .. e` of the kept columns, when `n <= e` |
| OfflineCache.FirstLoadShortWindow | Stock-Bot-Predicter-AI/models.py:558-565 | when fewer than `num_days` days precede the end date, the first window is short |
| OfflineCache.AsWrittenAgreesWithoutExcludedKeys | Stock-Bot-Predicter-AI/models.py:560-573 | when no requested key is excluded, the code as written and the intended code agree |
| OfflineCache.ExcludedKeyBreaksAdvance | Stock-Bot-Predicter-AI/models.py:573-576 | an advance reading every requested key fails whenever one of them is excluded |
| OfflineCache.ExcludedKeyBreaksOfflineUpdate | Stock-Bot-Predicter-AI/models.py:560-576 | with an excluded key requested, the method as written fails whenever the intended method succeeds |
| OfflineCache.UpdateCachedInfoOnline | Stock-Bot-Predicter-AI/models.py:504-529 | an empty download raises `ConnectionError`, and only then. A frame loses its first bar and gains the download; a snapshot raises `AttributeError` |
| OfflineCache.ShiftDaysKeepsLatest | Stock-Bot-Predicter-AI/models.py:527-528 | one-day shifts keep the frame's length and always hold the latest days |
| GetInfo.Reshape | Stock-Bot-Predicter-AI/models.py:630 | the reshape succeeds iff the window has exactly the requested number of rows, and keeps the rows |
| GetInfo.ReshapeAsWritten | Stock-Bot-Predicter-AI/models.py:630 | the reshape as written succeeds only for a 60-row window |
| GetInfo.HardCodedReshapeRejectsFullWindow | Stock-Bot-Predicter-AI/models.py:630 | for `num_days` other than 60, the full window is rejected as written and accepted as intended |
| GetInfo.TryOnline | Stock-Bot-Predicter-AI/models.py:602-606 | a loaded snapshot or an empty download is a `ConnectionError` with nothing changed; success leaves a downloaded frame and a window |
| GetInfo.TryOnlineAsWritten | Stock-Bot-Predicter-AI/models.py:602-606 | line 603 as written, with line 605 corrected: a loaded snapshot reaches the online refresh and raises `AttributeError` |
| GetInfo.SnapshotReachesOnlineRefresh | Stock-Bot-Predicter-AI/models.py:603 | line 603 as written, with line 605 corrected: with a snapshot and a working download the call raises an uncaught `AttributeError`, where the intended code falls back offline |
| GetInfo.Fallback | Stock-Bot-Predicter-AI/models.py:607-616 | the handler never lets a `ValueError` escape, and a success leaves a window |
| GetInfo.Conclude | Stock-Bot-Predicter-AI/models.py:618-631 | a returned batch is the window with `num_days` rows, both dates one day later, and the batch stored back |
| GetInfo.GetInfoToday | Stock-Bot-Predicter-AI/models.py:578-631 | a closed day returns `None` and changes nothing. A batch has `num_days` rows, both dates move together by one, and after the dates move only the reshape can fail |
| GetInfo.GetInfoTodayAsWritten | Stock-Bot-Predicter-AI/models.py:599-605 | as written every trading-day call raises `TypeError` and changes nothing |
| GetInfo.AsWrittenNeverBatches | Stock-Bot-Predicter-AI/models.py:605 | where the intended code returns a batch, the code as written raises `TypeError` |
| GetInfo.SnapshotIgnoresNetwork | Stock-Bot-Predicter-AI/models.py:602-612 | once a snapshot is loaded, the reply does not depend on the network |
| GetInfo.FailedDownloadFallsBackOffline | Stock-Bot-Predicter-AI/models.py:607-612 | a failed download behaves like the offline path started from scratch |
| GetInfo.UnknownOfflineDateRaisesRuntimeError | Stock-Bot-Predicter-AI/models.py:553-616 | after a failed download, dates unknown to the snapshot raise `RuntimeError`, and only a downloaded frame is dropped |
| GetInfo.OnlineRefreshKeepsFrameLength | Stock-Bot-Predicter-AI/models.py:524-541 | in the online steady state the frame keeps its length, and the batch comes from the refreshed frame |
| GetInfo.OfflineBatchIsAdvancedWindow | Stock-Bot-Predicter-AI/models.py:571-631 | an offline batch is the previous window advanced by the end date's row |
| Scoring.Percentage | Stock-Bot-Predicter-AI/models.py:334-335 | the percentage divides by zero iff there is exactly one element |
| Scoring.MovementTogether | Stock-Bot-Predicter-AI/models.py:323-336 | the one-pass loop computes the two counted percentages, which lie in `[0, 100]`, and fails iff there is one element |
| Scoring.CountsBounded | Stock-Bot-Predicter-AI/models.py:328-332 | both counts are at most `total - 1` |
| Scoring.PercentageBounded | Stock-Bot-Predicter-AI/models.py:334-335 | a count of at most `total - 1` gives a percentage in `[0, 100]` |
| Scoring.DirectionCountSymmetric | Stock-Bot-Predicter-AI/models.py:329 | direction agreement is symmetric in the two series |
| Scoring.PerfectPredictionCountsMoves | Stock-Bot-Predicter-AI/models.py:328-332 | a prediction equal to the actual series agrees exactly on the days the price moved |
| Scoring.PerfectPredictionScoresFull | Stock-Bot-Predicter-AI/models.py:323-336 | a perfect prediction of a series with no flat day scores 100% on both measures |
| Scoring.Together | Loop_Implementation.py:51-58 | one flag per `zip` pair, so `min` of the two lengths; each is 0 or 1, and 1 iff both are strictly positive or both strictly negative |
| Scoring.TallyTogether | Loop_Implementation.py:51-58 | the loop builds exactly those flags |
| Scoring.SumOfTogether | Loop_Implementation.py:51-59 | the flag sum counts the agreeing pairs and is at most the number of pairs |
| Scoring.Agreement | Loop_Implementation.py:59 | the ratio divides by zero iff either list is empty |
| Scoring.AgreementIsShare | Loop_Implementation.py:59 | the ratio is the share of agreeing pairs, in `[0, 1]` |
| Scoring.AgreeCountSymmetric | Loop_Implementation.py:53-56 | sign agreement does not depend on which list is the prediction |

## Left out

- Model construction and training (Keras layers, `fit`, `predict`, the custom losses, noise and scaling augmentation): machine learning, with no behaviour to state.
- Network and disk I/O (the price service, the exchange calendar, JSON reads and writes, `save`/`load`): these become parameters. `fetched` is what a download returns, `trading` says whether the end date is an exchange day, and a `Snapshot` is the parsed `info.json`.
- The `Thread` and driver loop of `run_loop`, plotting, RMSE printing, `warn` and `print`: orchestration and reporting.
- Helpers defined in files this model does not include (`process_flips`, `get_liquidity_spikes`, `calculate_momentum_oscillator`, `get_earnings_history`, `create_sequences`, `get_relavant_values`, `is_floats`, `check_for_holidays`): the ones that return a column are function parameters (`Indicators.Helpers`), and the earnings history is data. The others are left out.
- The excluded-key set that models.py imports is not part of this model, so it is a parameter (`Config.excluded`, and `excluded` in `PastNumDays`). Models.py's own list (Models.py:261) is the constant `TodayInfo.TodayExcluded`.
- GetInfo.UpdateCachedOnline: the feature columns are the parameter `features`, not a call of `PastNumDays.IndicatorsPastNumDays` followed by `is_floats`, because `is_floats` is not part of this model.
- Floating point: values are exact reals, so IEEE rounding, `inf` and NaN payloads are not modelled. A zero divisor inside a pandas expression gives an undefined entry.
- Indicators.RsiUndefinedWithoutLoss: pandas gives `RS = inf` and RSI 100 when the average loss is 0 and the average gain is positive. The model marks the entry undefined instead of clamping it to 100.
- Scaling.ScaleRoundTrip: a zero range gives pandas' `inf`/NaN, and the model marks such entries undefined.
- Training.TrainSize: the exact floor of `4n/5` equals `int(n * 0.8)` in doubles only for lengths far below `2^50`. Larger data is not modelled.
- OfflineCache.Transpose: a ragged list raises `ValueError`, as numpy 1.24 and later do. Older numpy built an object array with a warning.
- GetInfo.Conclude: a batched window that reaches line 618 passes the `None` test and moves the dates; reshaping the already batched array at line 630 is not modelled and is reported as `ValueError`. No successful update leaves a batch, so `GetInfo.GetInfoToday` never reaches this case.
- GetInfo.Reshape: an empty window is always rejected. numpy raises `IndexError` for the 1-D empty array and `ValueError` for an empty 2-D one, and with `num_days = 0` it would accept the latter.
- TodayFetch.ShiftDiscardingAppend: models `DataFrame.append` as pandas before 2.0 has it, returning a new frame. pandas 2.0 removed the method, so there line 183 raises `AttributeError`; that outcome is `TodayFetch.ShiftWithoutAppend`. The code does not pin a pandas version.
- Date arithmetic (`strptime`, `relativedelta`, `timedelta`): dates are integer day numbers, so "one day later" is `+ 1`, and a weekend is simply a day number missing from `Dates`.
- `train`'s remaining body in Models.py (the `zip` of keys with data rows at line 59, sequence creation, fitting) and `test_model`'s slicing before the score: outside the indicator, cache and scoring core.
- TodayInfo.TodayColumn: the `flips` column assumes that `process_flips` returns a pandas Series, because its definition is not part of this model. models.py:467-468 wraps the same helper's result in `pd.Series`, which suggests it returns a list or an array; then a request for `flips` would fail at Models.py:268 (a list minus a float is a `TypeError`) or at line 271 (an array has no `.values`), and the model does not carry that failure.
- A negative TRAMA `period`, which pandas rejects with `ValueError`, cannot be expressed: `period` is a `nat`. `getInfoToday`'s only caller (Models.py:276) uses the default 14.

## Findings

| source | as written | input that shows it | evidently intended | confidence | as-written member | corrected member |
|---|---|---|---|---|---|---|
| Stock-Bot-Predicter-AI/models.py:573 | the advance reads the new day for every requested key, including the excluded keys the window left out (`ExcludedKeyBreaksOfflineUpdate`) | any requested key in the excluded set, with a snapshot holding its column: the row is wider than the window and `np.concatenate` raises `ValueError` | read the row for the same kept keys as line 561 | not executed; high | OfflineCache.UpdateCachedOfflineAsWritten | OfflineCache.UpdateCachedOffline |
| Stock-Bot-Predicter-AI/models.py:603 | `type(self.cached_info) is Dict` compares with `typing.Dict`, which is never an object's type (`SnapshotReachesOnlineRefresh`, with line 605 corrected: as written, line 605's `TypeError` comes first) | a loaded snapshot and a working download, with line 605 corrected: `.index` on a dict raises an uncaught `AttributeError` | `is dict`, so a loaded snapshot goes straight to the offline path | not executed; high | GetInfo.TryOnlineAsWritten | GetInfo.TryOnline |
| Stock-Bot-Predicter-AI/models.py:605 | `update_cached_info_online(self.information_keys)` passes an argument the method does not take (`AsWrittenNeverBatches`) | any trading day: `TypeError`, which the `except ConnectionError` does not catch | call it without the argument | not executed; high | GetInfo.GetInfoTodayAsWritten | GetInfo.GetInfoToday |
| Stock-Bot-Predicter-AI/models.py:630 | the reshape hard-codes 60 rows (`HardCodedReshapeRejectsFullWindow`) | with line 605 corrected (as written, its `TypeError` comes first on every trading day), `num_days = 30` with a full 30-row window: `ValueError` | reshape to `num_days` rows | not executed; medium | GetInfo.ReshapeAsWritten | GetInfo.Reshape |
| Models.py:178 | `yf` is never imported in Models.py (`FetchAsWrittenAlwaysRaises`) | any call of `getInfoToday`: `NameError` | import the price library | not executed; high | TodayFetch.FetchAsWritten | TodayFetch.FetchToday |
| Models.py:179 | `if cached_data:` asks a DataFrame for its truth value (`CachedFrameFailsTruthTest`) | with the imports of line 178 added, a caller assigns `model.cached` a frame (Models.py itself only sets it to `None`, at line 41): `ValueError` | `if cached_data is not None:` | not executed; high | TodayFetch.FetchWithImports | TodayFetch.FetchToday |
| Models.py:183 | the frame returned by `append` is discarded on a pandas before 2.0, and `DataFrame.append` does not exist from pandas 2.0 on (`NoPandasKeepsTheDay`) | with lines 178-179 corrected, a caller assigns `model.cached` a frame of `k` bars (Models.py never stores one), and one new day: before pandas 2.0, `k - 1` bars and the day is lost; from 2.0 on, `AttributeError` | assign the concatenation back | not executed; high | TodayFetch.ShiftDiscardingAppend | TodayFetch.FetchToday |
| Models.py:189 | Close is stored untrimmed while every other column is cut to 60 rows (`UntrimmedCloseIsRagged`) | with the imports of line 178 added, more than 60 days of history and keys `Close`, `Change`: lists of different lengths | `cached_data['Close'].iloc[-60:]` | not executed; high | TodayInfo.InfoTodayAsWritten | TodayInfo.InfoToday |
| Stock-Bot-Predicter-AI/models.py:488 | the test at line 485 looks for `end_date`, a string, while `.index` looks for `date`, a `datetime` built at line 477 (`EarningsSurpriseLost`) | earnings days 30 and 1 with surprises 2 and 5, end date 30, `num_days` 29: string earnings dates raise `ValueError`, `datetime` ones give 0, where the surprise at day 1 was meant | test and look up dates of one type | not executed; medium, since the type `get_earnings_history` returns is not part of this model, but no single type reaches the surprise | PastNumDays.EarningsEntryAsWritten | PastNumDays.EarningsEntry |
| Models.py:257 | the test at line 254 looks for `end_date`, a `datetime` since line 180 or 185, while `.index` looks for a string made by `strftime` at line 250 (`EarningsSurprisesLost`) | with the imports of line 178 added, an earnings day whose three previous days have surprises: string earnings dates give three zeros, `datetime` ones raise `ValueError` | test and look up dates of one type | not executed; medium, since the type `get_earnings_history` returns is not part of this model, but no single type reaches the surprise | TodayInfo.EarningsDiffListAsWritten | TodayInfo.EarningsDiffList |
