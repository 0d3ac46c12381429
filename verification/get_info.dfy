/**
  `get_info_today`: produce the model input for the current end date, then
  move the date window forward one calendar day.

  Steps:
  - On a day the exchange is closed, nothing happens and `None` comes back.
  - Otherwise the price frame is refreshed online and the window is rebuilt
    from it.
  - If that raises `ConnectionError`, a downloaded frame is discarded and the
    offline snapshot path is tried instead. Its `ValueError` becomes
    `RuntimeError`.
  - A successful update moves both dates forward one day and reshapes the
    window into a single batch of `num_days` rows.

  The exchange calendar, the downloads and the online feature computation
  are parameters:
  - `trading` says whether the end date is an exchange day;
  - `fetched` is what the price service returns;
  - `features` maps a refreshed frame to the numeric feature columns
    `update_cached_online` keeps, or to the exception computing them raises.
 */
module GetInfo {
  import opened Outcomes
  import opened OfflineCache

  /** What one call returns, and the object state it leaves behind. */
  datatype Reply = Reply(result: Result<Option<seq<seq<real>>>>, state: CacheState)

  /** The number of rows the code as written reshapes to. */
  const HardCodedDays: nat := 60

  /** `np.reshape(cached, (1, days, cached.shape[1]))` of a 2-D window. The
      element count only matches when the window has exactly `days` rows.
      The single batch is returned by its rows. */
  function Reshape(rows: seq<seq<real>>, days: nat): (r: Result<seq<seq<real>>>)
    ensures r.Ok? <==> |rows| == days && days > 0
    ensures r.Ok? ==> r.value == rows
    ensures r.Raise? ==> r.fault == ValueFault
  {
    if |rows| > 0 && |rows| == days then Ok(rows) else Raise(ValueFault)
  }

  /** The reshape as written, with the row count fixed at 60 whatever
      `num_days` is. */
  function ReshapeAsWritten(rows: seq<seq<real>>): (r: Result<seq<seq<real>>>)
    ensures r.Ok? <==> |rows| == HardCodedDays
  {
    Reshape(rows, HardCodedDays)
  }

  /** Only a window of exactly `num_days` rows can be batched. Whenever
      `num_days` is not 60, the code as written rejects the full window that
      the intended code batches. */
  lemma HardCodedReshapeRejectsFullWindow(rows: seq<seq<real>>, numDays: nat)
    requires |rows| == numDays && numDays > 0 && numDays != HardCodedDays
    ensures ReshapeAsWritten(rows) == Raise(ValueFault)
    ensures Reshape(rows, numDays) == Ok(rows)
  {
  }

  /** `update_cached_online`: the rows of the refreshed frame's features. */
  function UpdateCachedOnline(frame: seq<Bar>, features: seq<Bar> -> Result<seq<seq<real>>>): (r: Result<seq<seq<real>>>)
    ensures features(frame).Raise? ==> r == features(frame)
    ensures features(frame).Ok? ==> r == Transpose(features(frame).value)
  {
    match features(frame)
    case Raise(f) => Raise(f)
    case Ok(cols) => Transpose(cols)
  }

  /** The body of the `try` block with the snapshot test at line 603 as the
      code intends it: a loaded snapshot is treated like a failed download.
      Otherwise `cached_info` is refreshed first, and then the window is
      rebuilt from it. */
  function TryOnline(st: CacheState, fetched: seq<Bar>, features: seq<Bar> -> Result<seq<seq<real>>>): (s: Step)
    ensures st.info.OfflineSnapshot? ==> s == Step(Failed(ConnectionFault), st)
    ensures !st.info.OfflineSnapshot? && |fetched| == 0 ==> s == Step(Failed(ConnectionFault), st)
    ensures s.outcome.Done? ==> s.state.cached.Window? && s.state.info.OnlineFrame?
    ensures s.state.startDate == st.startDate && s.state.endDate == st.endDate
  {
    if st.info.OfflineSnapshot? then Step(Failed(ConnectionFault), st)
    else TryOnlineAsWritten(st, fetched, features)
  }

  /** The `try` block with line 603 as written and line 605 corrected (the
      call without its extra argument; as written, line 605 raises TypeError
      before anything else happens, see `GetInfoTodayAsWritten`).
      `type(x) is Dict` compares with the `typing.Dict` alias, which is never
      the type of any object, so a loaded snapshot is handed to the online
      refresh. */
  function TryOnlineAsWritten(st: CacheState, fetched: seq<Bar>, features: seq<Bar> -> Result<seq<seq<real>>>): (s: Step)
    ensures s.outcome.Done? ==> s.state.cached.Window? && s.state.info.OnlineFrame?
    ensures |fetched| == 0 ==> s == Step(Failed(ConnectionFault), st)
    ensures st.info.OfflineSnapshot? && |fetched| > 0 ==> s == Step(Failed(AttributeFault), st)
    ensures s.state.startDate == st.startDate && s.state.endDate == st.endDate
  {
    match UpdateCachedInfoOnline(st.info, fetched)
    case Raise(f) => Step(Failed(f), st)
    case Ok(frame) =>
      var refreshed := st.(info := OnlineFrame(frame));
      match UpdateCachedOnline(frame, features)
      case Raise(f) => Step(Failed(f), refreshed)
      case Ok(rows) => Step(Done, refreshed.(cached := Window(rows)))
  }

  /** With line 603 as written and line 605 corrected: with a snapshot loaded
      and the network up, the online refresh raises `AttributeError`. The
      `except` does not catch it, so the call fails. The intended test
      routes the same call to the offline path instead. */
  lemma SnapshotReachesOnlineRefresh(st: CacheState, fetched: seq<Bar>, features: seq<Bar> -> Result<seq<seq<real>>>)
    requires st.info.OfflineSnapshot? && |fetched| > 0
    ensures TryOnlineAsWritten(st, fetched, features) == Step(Failed(AttributeFault), st)
    ensures TryOnline(st, fetched, features) == Step(Failed(ConnectionFault), st)
  {
  }

  /** The `except ConnectionError` handler. A downloaded frame is dropped, and
      the offline update runs on what is left. Its `ValueError` is re-raised
      as `RuntimeError`; every other exception passes through. */
  function Fallback(cfg: Config, st: CacheState, file: Snapshot): (s: Step)
    ensures s.outcome.Done? ==> s.state.cached.Window?
    ensures s.outcome.Failed? ==> s.outcome.fault != ValueFault
    ensures s.state.startDate == st.startDate && s.state.endDate == st.endDate
  {
    var cleared := if st.info.OnlineFrame? then st.(info := NoInfo) else st;
    var s := UpdateCachedOffline(cfg, cleared, file);
    if s.outcome == Failed(ValueFault) then Step(Failed(RuntimeFault), s.state) else s
  }

  /** Lines 618-631, once one of the two updates has succeeded. A missing
      window (`self.cached is None`) is a `RuntimeError`. Otherwise both dates
      move one day forward, and then the window is reshaped into a batch. */
  function Conclude(cfg: Config, after: Step): (r: Reply)
    ensures after.outcome.Failed? ==> r == Reply(Raise(after.outcome.fault), after.state)
    ensures r.result.Ok? ==>
      after.outcome.Done? && after.state.cached.Window? && r.result.value.Some?
      && r.result.value.value == after.state.cached.rows && |r.result.value.value| == cfg.numDays
      && r.state == after.state.(startDate := after.state.startDate + 1, endDate := after.state.endDate + 1,
                                 cached := Batched(after.state.cached.rows))
  {
    match after.outcome
    case Failed(f) => Reply(Raise(f), after.state)
    case Done =>
      match after.state.cached
      case Window(rows) =>
        var moved := after.state.(startDate := after.state.startDate + 1, endDate := after.state.endDate + 1);
        (match Reshape(rows, cfg.numDays)
         case Raise(f) => Reply(Raise(f), moved)
         case Ok(batch) => Reply(Ok(Some(batch)), moved.(cached := Batched(batch))))
      case NoWindow => Reply(Raise(RuntimeFault), after.state)
      case Batched(_) =>
        // Not `None`, so line 618 lets it through and the dates move. No
        // successful update leaves a batch behind (`TryOnline` and
        // `Fallback` both end with a window), so only a direct call gets
        // here; reshaping an already batched array is reported as the
        // reshape's ValueError.
        Reply(Raise(ValueFault), after.state.(startDate := after.state.startDate + 1, endDate := after.state.endDate + 1))
  }

  /** `get_info_today` with the four defects corrected: the type test of
      line 603, the extra argument of line 605, the hard-coded reshape of
      line 630, and (inside `UpdateCachedOffline`) the row of line 573 read
      for the kept keys only. */
  function GetInfoToday(cfg: Config, st: CacheState, trading: bool, fetched: seq<Bar>,
                        features: seq<Bar> -> Result<seq<seq<real>>>, file: Snapshot): (r: Reply)
    ensures !trading ==> r == Reply(Ok(None), st)
    ensures trading && r.result.Ok? ==>
      r.result.value.Some? && |r.result.value.value| == cfg.numDays
      && r.state.startDate == st.startDate + 1 && r.state.endDate == st.endDate + 1
      && r.state.cached == Batched(r.result.value.value)
    ensures r.result.Raise? && r.state.endDate != st.endDate ==> r.result.fault == ValueFault
    ensures r.state.endDate - st.endDate == r.state.startDate - st.startDate
  {
    if !trading then Reply(Ok(None), st)
    else
      var tried := TryOnline(st, fetched, features);
      var after := if tried.outcome == Failed(ConnectionFault) then Fallback(cfg, tried.state, file) else tried;
      Conclude(cfg, after)
  }

  /** `get_info_today` as written. Line 605 passes an argument that
      `update_cached_info_online` does not take, so every call on a trading
      day raises `TypeError`. The handler only catches `ConnectionError`,
      and the raise happens before anything is assigned. */
  function GetInfoTodayAsWritten(cfg: Config, st: CacheState, trading: bool): (r: Reply)
    ensures r.state == st
    ensures r.result.Ok? <==> !trading
  {
    if !trading then Reply(Ok(None), st) else Reply(Raise(TypeFault), st)
  }

  /** The code as written never produces a batch. The intended code produces
      one whenever the online refresh works and the window has `num_days`
      rows. */
  lemma AsWrittenNeverBatches(cfg: Config, st: CacheState, fetched: seq<Bar>,
                              features: seq<Bar> -> Result<seq<seq<real>>>, file: Snapshot)
    requires st.info.NoInfo? && |fetched| > 0 && cfg.numDays > 0
    requires features(fetched).Ok? && |features(fetched).value| > 0
    requires Rectangular(features(fetched).value) && |features(fetched).value[0]| == cfg.numDays
    ensures GetInfoTodayAsWritten(cfg, st, true).result == Raise(TypeFault)
    ensures GetInfoToday(cfg, st, true, fetched, features, file).result.Ok?
  {
  }

  // ---------------------------------------------------------------------
  // Properties of the intended flow
  // ---------------------------------------------------------------------

  /** Once a snapshot is loaded, the network is never consulted. The reply
      does not depend on what a download would return or on the online
      feature computation. */
  lemma SnapshotIgnoresNetwork(cfg: Config, st: CacheState, trading: bool, file: Snapshot,
                               fetched1: seq<Bar>, features1: seq<Bar> -> Result<seq<seq<real>>>,
                               fetched2: seq<Bar>, features2: seq<Bar> -> Result<seq<seq<real>>>)
    requires st.info.OfflineSnapshot?
    ensures GetInfoToday(cfg, st, trading, fetched1, features1, file)
         == GetInfoToday(cfg, st, trading, fetched2, features2, file)
  {
  }

  /** A failed download gives the same reply as starting the offline path
      from scratch, whether or not a frame had been downloaded earlier. */
  lemma FailedDownloadFallsBackOffline(cfg: Config, st: CacheState, file: Snapshot,
                                       features: seq<Bar> -> Result<seq<seq<real>>>)
    requires st.info.NoInfo? || st.info.OnlineFrame?
    ensures GetInfoToday(cfg, st, true, [], features, file)
         == Conclude(cfg, Fallback(cfg, st.(info := NoInfo), file))
  {
  }

  /** Offline dates the snapshot does not know make the call fail with
      `RuntimeError`. The object is left as it was, apart from a downloaded
      frame, which is dropped. */
  lemma UnknownOfflineDateRaisesRuntimeError(cfg: Config, st: CacheState, file: Snapshot,
                                             features: seq<Bar> -> Result<seq<seq<real>>>)
    requires st.info.NoInfo? || st.info.OnlineFrame?
    requires st.startDate !in file.dates || st.endDate !in file.dates
    ensures GetInfoToday(cfg, st, true, [], features, file) == Reply(Raise(RuntimeFault), st.(info := NoInfo))
  {
    FailedDownloadFallsBackOffline(cfg, st, file, features);
  }

  /** In the online steady state each call shifts the frame by the one new
      bar, keeping its length, and leaves a batch built from the refreshed
      frame. */
  lemma OnlineRefreshKeepsFrameLength(cfg: Config, st: CacheState, bar: Bar,
                                      features: seq<Bar> -> Result<seq<seq<real>>>, file: Snapshot)
    requires st.info.OnlineFrame? && |st.info.bars| > 0
    requires features(st.info.bars[1..] + [bar]).Ok?
    requires GetInfoToday(cfg, st, true, [bar], features, file).result.Ok?
    ensures var frame := st.info.bars[1..] + [bar];
      var r := GetInfoToday(cfg, st, true, [bar], features, file);
      r.state.info == OnlineFrame(frame) && |frame| == |st.info.bars|
      && Transpose(features(frame).value) == Ok(r.result.value.value)
  {
    var frame := st.info.bars[1..] + [bar];
    assert UpdateCachedInfoOnline(st.info, [bar]) == Ok(frame);
  }

  /** After a successful offline call on a loaded snapshot, the batch is the
      advanced window. It is the previous window minus its oldest row, plus
      the end date's row. */
  lemma OfflineBatchIsAdvancedWindow(cfg: Config, st: CacheState, fetched: seq<Bar>,
                                     features: seq<Bar> -> Result<seq<seq<real>>>, file: Snapshot)
    requires st.info.OfflineSnapshot? && st.cached.Window? && |st.cached.rows| > 0
    requires GetInfoToday(cfg, st, true, fetched, features, file).result.Ok?
    ensures var snap := st.info.snapshot;
      var kept := KeptKeys(cfg.keys, cfg.excluded);
      st.endDate in snap.dates
      && GetInfoToday(cfg, st, true, fetched, features, file).result.value.value
         == st.cached.rows[1..] + [ReadRow(snap.columns, kept, IndexOf(snap.dates, st.endDate)).value]
  {
    AdvanceSlidesWindow(cfg, st);
  }
}
