/**
  The model's two ways of keeping its input window current.

  Offline (`update_cached_offline`): on the first call a stored `info.json`
  snapshot is loaded. The `num_days` days before the end date are cut out of
  every numeric column and transposed into a window with one row per day.
  After that, each call drops the oldest row and appends the row of the end
  date.

  Online (`update_cached_info_online`): the downloaded price frame is shifted
  by one day. Its oldest bar is dropped and the newly fetched bar is
  appended.

  Dates are day numbers. The downloads and the file read are parameters:
  `fetched` is whatever the price service returned, and `file` is the
  parsed snapshot.
 */
module OfflineCache {
  import opened Outcomes
  import opened Series

  /** A parsed `info.json`: its `Dates` list and one numeric column per key. */
  datatype Snapshot = Snapshot(dates: seq<int>, columns: map<string, seq<real>>)

  /** One daily bar as the price service returns it. */
  datatype Bar = Bar(date: int, close: real, volume: real)

  /** What `cached_info` holds: nothing yet, a downloaded price frame, or a
      loaded snapshot (a plain dictionary). */
  datatype Info = NoInfo | OnlineFrame(bars: seq<Bar>) | OfflineSnapshot(snapshot: Snapshot)

  /** What `cached` holds.
      - `NoWindow` is `None`.
      - `Window` is a 2-D array with one row per day and one column per feature.
      - `Batched` is the 3-D array `(1, days, features)` that `get_info_today`
        leaves behind, recorded by its rows. */
  datatype Cached = NoWindow | Window(rows: seq<seq<real>>) | Batched(rows: seq<seq<real>>)

  /** The mutable part of the model object that these operations touch. */
  datatype CacheState = CacheState(info: Info, cached: Cached, startDate: int, endDate: int)

  /** The fixed settings of one model. `excluded` is the program's set of
      non-numeric keys (`excluded_values`). It is defined in a module this
      model does not include, so it is a parameter here. */
  datatype Config = Config(keys: seq<string>, numDays: nat, excluded: set<string>)

  /** A call either returns normally or raises. `Step` also carries the object
      state afterwards, because some failures happen after fields were already
      assigned. */
  datatype Outcome = Done | Failed(fault: Fault)
  datatype Step = Step(outcome: Outcome, state: CacheState)

  // ---------------------------------------------------------------------
  // Building blocks
  // ---------------------------------------------------------------------

  /** The requested keys that are not excluded, in request order. */
  function KeptKeys(keys: seq<string>, excluded: set<string>): (r: seq<string>)
    ensures |r| <= |keys|
    ensures forall k :: k in r <==> k in keys && k !in excluded
    ensures (forall i :: 0 <= i < |keys| ==> keys[i] !in excluded) ==> r == keys
  {
    if |keys| == 0 then []
    else (if keys[0] in excluded then [] else [keys[0]]) + KeptKeys(keys[1..], excluded)
  }

  /** Requesting an excluded key makes the kept list strictly shorter. */
  lemma {:induction false} KeptKeysShorter(keys: seq<string>, excluded: set<string>, i: nat)
    requires i < |keys| && keys[i] in excluded
    ensures |KeptKeys(keys, excluded)| < |keys|
  {
    if i > 0 {
      assert keys[1..][i - 1] == keys[i];
      KeptKeysShorter(keys[1..], excluded, i - 1);
    }
  }

  /** `[columns[k][lo:hi] for k in keys]`, raising `KeyError` at the first
      key the snapshot lacks. */
  function SliceColumns(columns: map<string, seq<real>>, keys: seq<string>, lo: int, hi: int): (r: Result<seq<seq<real>>>)
    ensures r.Ok? <==> forall k :: k in keys ==> k in columns
    ensures r.Raise? ==> r.fault == KeyFault
    ensures r.Ok? ==> |r.value| == |keys|
    ensures r.Ok? ==> forall j :: 0 <= j < |keys| ==> r.value[j] == PySlice(columns[keys[j]], lo, hi)
  {
    if |keys| == 0 then Ok([])
    else if keys[0] !in columns then Raise(KeyFault)
    else match SliceColumns(columns, keys[1..], lo, hi)
      case Raise(f) => Raise(f)
      case Ok(rest) => Ok([PySlice(columns[keys[0]], lo, hi)] + rest)
  }

  /** Every key names a column long enough to have an entry at day `i`. */
  predicate HasRow(columns: map<string, seq<real>>, keys: seq<string>, i: nat)
  {
    forall k :: k in keys ==> k in columns && i < |columns[k]|
  }

  /** `[columns[k][i] for k in keys]`. A missing key raises `KeyError`; a
      column that ends before day `i` raises `IndexError`. */
  function ReadRow(columns: map<string, seq<real>>, keys: seq<string>, i: nat): (r: Result<seq<real>>)
    ensures r.Ok? <==> HasRow(columns, keys, i)
    ensures r.Raise? ==> r.fault == KeyFault || r.fault == IndexFault
    ensures r.Ok? ==> |r.value| == |keys|
    ensures r.Ok? ==> forall j :: 0 <= j < |keys| ==> r.value[j] == columns[keys[j]][i]
  {
    if |keys| == 0 then Ok([])
    else if keys[0] !in columns then Raise(KeyFault)
    else if i >= |columns[keys[0]]| then Raise(IndexFault)
    else match ReadRow(columns, keys[1..], i)
      case Raise(f) => Raise(f)
      case Ok(rest) => Ok([columns[keys[0]][i]] + rest)
  }

  /** All columns have the length of the first one. */
  predicate Rectangular(cols: seq<seq<real>>)
  {
    forall j :: 0 <= j < |cols| ==> |cols[j]| == |cols[0]|
  }

  /** `np.transpose` of a list of columns. A ragged list has no 2-D shape,
      so numpy raises `ValueError`. An empty list transposes to an empty
      array. */
  function Transpose(cols: seq<seq<real>>): (r: Result<seq<seq<real>>>)
    ensures r.Ok? <==> Rectangular(cols)
    ensures r.Raise? ==> r.fault == ValueFault
    ensures r.Ok? ==> |r.value| == (if |cols| == 0 then 0 else |cols[0]|)
    ensures r.Ok? ==> forall i :: 0 <= i < |r.value| ==> |r.value[i]| == |cols|
    ensures r.Ok? ==> forall i, j :: 0 <= i < |r.value| && 0 <= j < |cols| ==> r.value[i][j] == cols[j][i]
  {
    if !Rectangular(cols) then Raise(ValueFault)
    else if |cols| == 0 then Ok([])
    else Ok(seq(|cols[0]|, i requires 0 <= i < |cols[0]| => seq(|cols|, j requires 0 <= j < |cols| => cols[j][i])))
  }

  // ---------------------------------------------------------------------
  // update_cached_offline
  // ---------------------------------------------------------------------

  /** `np.transpose` of the `[e - n : e]` slices of the `keys` columns. */
  function CutWindow(columns: map<string, seq<real>>, keys: seq<string>, e: int, n: nat): (r: Result<seq<seq<real>>>)
    ensures r.Raise? ==> r.fault == KeyFault || r.fault == ValueFault
  {
    match SliceColumns(columns, keys, e - n, e)
    case Raise(f) => Raise(f)
    case Ok(cols) => Transpose(cols)
  }

  /** First-call branch: load the snapshot and cut the window out of it.
      Unknown dates raise `ValueError` before anything is assigned. Once the
      window is built, `cached` and `cached_info` are set, and only then is an
      empty window reported as `RuntimeError`. */
  function Populate(cfg: Config, st: CacheState, file: Snapshot): (s: Step)
    ensures st.startDate !in file.dates || st.endDate !in file.dates ==> s == Step(Failed(ValueFault), st)
    ensures s.outcome.Failed? && s.outcome.fault != RuntimeFault ==> s.state == st
    ensures s.outcome.Done? ==> s.state.info == OfflineSnapshot(file) && s.state.cached.Window? && |s.state.cached.rows| > 0
    ensures s.state.startDate == st.startDate && s.state.endDate == st.endDate
  {
    if st.startDate !in file.dates || st.endDate !in file.dates then Step(Failed(ValueFault), st)
    else
      match CutWindow(file.columns, KeptKeys(cfg.keys, cfg.excluded), IndexOf(file.dates, st.endDate), cfg.numDays)
      case Raise(f) => Step(Failed(f), st)
      case Ok(rows) =>
        var loaded := st.(info := OfflineSnapshot(file), cached := Window(rows));
        if |rows| == 0 then Step(Failed(RuntimeFault), loaded) else Step(Done, loaded)
  }

  /** The steady-state branch: drop the oldest row and append the end date's
      row, read for `rowKeys`. The new row must have the window's width,
      otherwise `np.concatenate` raises `ValueError`. It always raises
      `ValueError` against a 3-D batch. An empty window is left alone. */
  function Advance(st: CacheState, snap: Snapshot, rowKeys: seq<string>): (s: Step)
    ensures s.outcome.Failed? ==> s.state == st
    ensures s.state.info == st.info && s.state.startDate == st.startDate && s.state.endDate == st.endDate
    ensures st.cached.NoWindow? ==> s == Step(Failed(TypeFault), st)
    ensures st.cached.Batched? ==> s.outcome.Failed?
    ensures st.cached.Window? && |st.cached.rows| > 0 && st.endDate !in snap.dates ==> s == Step(Failed(ValueFault), st)
    ensures s.outcome.Done? && st.cached.Window? && |st.cached.rows| > 0 ==>
      st.endDate in snap.dates && HasRow(snap.columns, rowKeys, IndexOf(snap.dates, st.endDate))
      && |rowKeys| == |st.cached.rows[0]|
  {
    match st.cached
    case NoWindow => Step(Failed(TypeFault), st)
    case Window(rows) =>
      if |rows| == 0 then Step(Done, st)
      else if st.endDate !in snap.dates then Step(Failed(ValueFault), st)
      else
        (match ReadRow(snap.columns, rowKeys, IndexOf(snap.dates, st.endDate))
         case Raise(f) => Step(Failed(f), st)
         case Ok(row) =>
           if |row| != |rows[0]| then Step(Failed(ValueFault), st)
           else Step(Done, st.(cached := Window(rows[1..] + [row]))))
    case Batched(_) =>
      if st.endDate !in snap.dates then Step(Failed(ValueFault), st)
      else
        match ReadRow(snap.columns, rowKeys, IndexOf(snap.dates, st.endDate))
        case Raise(f) => Step(Failed(f), st)
        case Ok(_) => Step(Failed(ValueFault), st)
  }

  /** The whole method, with the advance reading `rowKeys`. A downloaded
      frame in `cached_info` makes `not self.cached_info` raise `ValueError`,
      because a DataFrame has no truth value. */
  function UpdateWith(cfg: Config, st: CacheState, file: Snapshot, rowKeys: seq<string>): (s: Step)
    ensures st.info.OnlineFrame? ==> s == Step(Failed(ValueFault), st)
    ensures st.info.OfflineSnapshot? ==> s == Advance(st, st.info.snapshot, rowKeys)
    ensures s.state.startDate == st.startDate && s.state.endDate == st.endDate
  {
    match st.info
    case OnlineFrame(_) => Step(Failed(ValueFault), st)
    case OfflineSnapshot(snap) => Advance(st, snap, rowKeys)
    case NoInfo =>
      var p := Populate(cfg, st, file);
      if p.outcome.Failed? then p else Advance(p.state, file, rowKeys)
  }

  /** `update_cached_offline` as written: the new day's row is read for
      every requested key, including the excluded ones the window left out. */
  function UpdateCachedOfflineAsWritten(cfg: Config, st: CacheState, file: Snapshot): (s: Step)
    ensures st.info.OnlineFrame? ==> s == Step(Failed(ValueFault), st)
    ensures s.state.startDate == st.startDate && s.state.endDate == st.endDate
  {
    UpdateWith(cfg, st, file, cfg.keys)
  }

  /** `update_cached_offline` with the new day's row read for the same keys
      the window was built from. */
  function UpdateCachedOffline(cfg: Config, st: CacheState, file: Snapshot): (s: Step)
    ensures st.info.OnlineFrame? ==> s == Step(Failed(ValueFault), st)
    ensures st.info.NoInfo? && (st.startDate !in file.dates || st.endDate !in file.dates) ==> s == Step(Failed(ValueFault), st)
    ensures st.info.OfflineSnapshot? && s.outcome.Failed? ==> s.state == st
    ensures st.info.NoInfo? && s.outcome.Done? ==> s.state.info == OfflineSnapshot(file) && s.state.cached.Window?
    ensures s.state.startDate == st.startDate && s.state.endDate == st.endDate
  {
    UpdateWith(cfg, st, file, KeptKeys(cfg.keys, cfg.excluded))
  }

  // ---------------------------------------------------------------------
  // Properties of the offline update
  // ---------------------------------------------------------------------

  /** One call on a loaded snapshot slides the window by one day. The oldest
      row goes, the end date's row of every kept column is appended, and the
      number of rows does not change. */
  lemma AdvanceSlidesWindow(cfg: Config, st: CacheState)
    requires st.info.OfflineSnapshot? && st.cached.Window? && |st.cached.rows| > 0
    requires UpdateCachedOffline(cfg, st, st.info.snapshot).outcome.Done?
    ensures var snap := st.info.snapshot;
      var kept := KeptKeys(cfg.keys, cfg.excluded);
      var rows := st.cached.rows;
      var after := UpdateCachedOffline(cfg, st, snap).state;
      st.endDate in snap.dates
      && after == st.(cached := Window(rows[1..] + [ReadRow(snap.columns, kept, IndexOf(snap.dates, st.endDate)).value]))
      && |after.cached.rows| == |rows|
      && forall j :: 0 <= j < |kept| ==> after.cached.rows[|rows| - 1][j] == snap.columns[kept[j]][IndexOf(snap.dates, st.endDate)]
  {
  }

  /** `r` is day `d` of the `keys` columns, one entry per key. */
  predicate RowIsDay(r: seq<real>, columns: map<string, seq<real>>, keys: seq<string>, d: int)
  {
    && |r| == |keys|
    && forall j :: 0 <= j < |keys| ==> keys[j] in columns && 0 <= d < |columns[keys[j]]| && r[j] == columns[keys[j]][d]
  }

  /** `rows` holds `n` consecutive days of the `keys` columns, starting at
      day `first`. */
  predicate WindowOf(rows: seq<seq<real>>, columns: map<string, seq<real>>, keys: seq<string>, first: int, n: nat)
  {
    |rows| == n && forall i :: 0 <= i < n ==> RowIsDay(rows[i], columns, keys, first + i)
  }

  /** Dropping the first row of a window of days `first ..` and appending
      the row of the day after its last gives the window one day later. */
  lemma SlideWindowOf(rows: seq<seq<real>>, row: seq<real>, columns: map<string, seq<real>>, keys: seq<string>, first: int, n: nat)
    requires n > 0 && WindowOf(rows, columns, keys, first, n)
    requires RowIsDay(row, columns, keys, first + n)
    ensures WindowOf(rows[1..] + [row], columns, keys, first + 1, n)
  {
    var next := rows[1..] + [row];
    forall i | 0 <= i < n
      ensures RowIsDay(next[i], columns, keys, first + 1 + i)
    {
      if i < n - 1 {
        assert next[i] == rows[i + 1];
        assert first + 1 + i == first + (i + 1);
      } else {
        assert next[i] == row;
      }
    }
  }

  /** A first call that succeeds went through a successful populate and
      then the advance. */
  lemma FirstCallSteps(cfg: Config, st: CacheState, file: Snapshot)
    requires st.info.NoInfo? && UpdateCachedOffline(cfg, st, file).outcome.Done?
    ensures Populate(cfg, st, file).outcome.Done?
    ensures UpdateCachedOffline(cfg, st, file) == Advance(Populate(cfg, st, file).state, file, KeptKeys(cfg.keys, cfg.excluded))
  {
  }

  /** A successful populate stores the snapshot and the cut window. */
  lemma PopulateSteps(cfg: Config, st: CacheState, file: Snapshot) returns (rows: seq<seq<real>>)
    requires Populate(cfg, st, file).outcome.Done?
    ensures st.endDate in file.dates && |rows| > 0
    ensures CutWindow(file.columns, KeptKeys(cfg.keys, cfg.excluded), IndexOf(file.dates, st.endDate), cfg.numDays) == Ok(rows)
    ensures Populate(cfg, st, file).state == st.(info := OfflineSnapshot(file), cached := Window(rows))
  {
    rows := CutWindow(file.columns, KeptKeys(cfg.keys, cfg.excluded), IndexOf(file.dates, st.endDate), cfg.numDays).value;
  }

  /** A window that was cut is the transpose of the slices. */
  lemma CutWindowSteps(columns: map<string, seq<real>>, keys: seq<string>, e: int, n: nat, rows: seq<seq<real>>)
    returns (cols: seq<seq<real>>)
    requires CutWindow(columns, keys, e, n) == Ok(rows)
    ensures SliceColumns(columns, keys, e - n, e) == Ok(cols) && Transpose(cols) == Ok(rows)
  {
    cols := SliceColumns(columns, keys, e - n, e).value;
  }

  /** A successful advance of a non-empty window appends the end date's row. */
  lemma AdvanceSteps(st: CacheState, snap: Snapshot, keys: seq<string>) returns (row: seq<real>)
    requires st.cached.Window? && |st.cached.rows| > 0 && Advance(st, snap, keys).outcome.Done?
    ensures st.endDate in snap.dates && ReadRow(snap.columns, keys, IndexOf(snap.dates, st.endDate)) == Ok(row)
    ensures Advance(st, snap, keys).state == st.(cached := Window(st.cached.rows[1..] + [row]))
  {
    row := ReadRow(snap.columns, keys, IndexOf(snap.dates, st.endDate)).value;
  }

  /** The window cut at the first call, for any key list: the transposed
      slices `e - n .. e - 1` are those days of the columns, when `n <= e`
      and every column reaches day `e`. */
  lemma SlicedWindow(columns: map<string, seq<real>>, keys: seq<string>, e: nat, n: nat,
                     cols: seq<seq<real>>, rows: seq<seq<real>>)
    requires n <= e && |keys| > 0 && HasRow(columns, keys, e)
    requires SliceColumns(columns, keys, e - n, e) == Ok(cols) && Transpose(cols) == Ok(rows)
    ensures WindowOf(rows, columns, keys, e - n, n)
  {
    assert keys[0] in keys;
    PySliceInRange(columns[keys[0]], e - n, e);
    assert |rows| == n;
    forall i | 0 <= i < n
      ensures RowIsDay(rows[i], columns, keys, e - n + i)
    {
      forall j | 0 <= j < |keys|
        ensures keys[j] in columns && 0 <= e - n + i < |columns[keys[j]]|
          && rows[i][j] == columns[keys[j]][e - n + i]
      {
        assert keys[j] in keys;
        PySliceInRange(columns[keys[j]], e - n, e);
        assert rows[i][j] == cols[j][i];
      }
    }
  }

  /** The window after the first call, from its parts: the transposed
      slices advanced by the end date's row are days `e - n + 1 .. e`. */
  lemma FirstWindowFromParts(columns: map<string, seq<real>>, keys: seq<string>, e: nat, n: nat,
                             cols: seq<seq<real>>, rows: seq<seq<real>>, row: seq<real>)
    requires n <= e && |rows| > 0
    requires SliceColumns(columns, keys, e - n, e) == Ok(cols) && Transpose(cols) == Ok(rows)
    requires ReadRow(columns, keys, e) == Ok(row)
    ensures WindowOf(rows[1..] + [row], columns, keys, e - n + 1, n)
  {
    assert |keys| > 0 && keys[0] in keys;
    PySliceInRange(columns[keys[0]], e - n, e);
    SlicedWindow(columns, keys, e, n, cols, rows);
    assert RowIsDay(row, columns, keys, e - n + n);
    SlideWindowOf(rows, row, columns, keys, e - n, n);
  }

  /** Window rows after the first call, in terms of the snapshot: row `i` is
      day `e - n + 1 + i`, where `e` is the end date's position and `n` is
      `num_days`. This holds whenever the end date has at least `n` days
      before it. */
  lemma {:induction false} FirstLoadWindow(cfg: Config, st: CacheState, file: Snapshot)
    requires st.info.NoInfo?
    requires st.endDate in file.dates && cfg.numDays <= IndexOf(file.dates, st.endDate)
    requires UpdateCachedOffline(cfg, st, file).outcome.Done?
    ensures var after := UpdateCachedOffline(cfg, st, file).state;
      after.info == OfflineSnapshot(file) && after.cached.Window?
      && WindowOf(after.cached.rows, file.columns, KeptKeys(cfg.keys, cfg.excluded),
                  IndexOf(file.dates, st.endDate) - cfg.numDays + 1, cfg.numDays)
  {
    var e := IndexOf(file.dates, st.endDate);
    var n := cfg.numDays;
    var kept := KeptKeys(cfg.keys, cfg.excluded);
    FirstCallSteps(cfg, st, file);
    var rows := PopulateSteps(cfg, st, file);
    var cols := CutWindowSteps(file.columns, kept, e, n, rows);
    var row := AdvanceSteps(Populate(cfg, st, file).state, file, kept);
    FirstWindowFromParts(file.columns, kept, e, n, cols, rows, row);
  }

  /** Close to the start of the snapshot the window comes out short: when
      fewer than `num_days` days precede the end date, the negative slice
      start wraps around and the first call yields fewer than `num_days`
      rows. Together with `FirstLoadWindow`, the window is full exactly when
      `num_days` days precede the end date. */
  lemma {:induction false} FirstLoadShortWindow(cfg: Config, st: CacheState, file: Snapshot)
    requires st.info.NoInfo?
    requires st.endDate in file.dates && cfg.numDays > IndexOf(file.dates, st.endDate)
    requires UpdateCachedOffline(cfg, st, file).outcome.Done?
    ensures |UpdateCachedOffline(cfg, st, file).state.cached.rows| < cfg.numDays
  {
    var e := IndexOf(file.dates, st.endDate);
    var kept := KeptKeys(cfg.keys, cfg.excluded);
    var cols := SliceColumns(file.columns, kept, e - cfg.numDays, e).value;
    assert HasRow(file.columns, kept, e);
    assert |kept| > 0 && kept[0] in kept;
    TrailingSliceLength(file.columns[kept[0]], e, cfg.numDays);
    assert |cols[0]| < cfg.numDays;
  }

  /** When no requested key is excluded, the row the method appends has the
      same keys as the window, and the code as written behaves as intended. */
  lemma AsWrittenAgreesWithoutExcludedKeys(cfg: Config, st: CacheState, file: Snapshot)
    requires forall i :: 0 <= i < |cfg.keys| ==> cfg.keys[i] !in cfg.excluded
    ensures UpdateCachedOfflineAsWritten(cfg, st, file) == UpdateCachedOffline(cfg, st, file)
  {
  }

  /** A steady-state advance that reads every requested key fails whenever one
      of them is excluded, even if the intended advance succeeds. The row then
      has more entries than the window has columns. */
  lemma {:induction false} ExcludedKeyBreaksAdvance(st: CacheState, snap: Snapshot, cfg: Config, i: nat)
    requires st.cached.Window? && |st.cached.rows| > 0
    requires i < |cfg.keys| && cfg.keys[i] in cfg.excluded
    requires Advance(st, snap, KeptKeys(cfg.keys, cfg.excluded)).outcome.Done?
    ensures Advance(st, snap, cfg.keys).outcome.Failed?
  {
    KeptKeysShorter(cfg.keys, cfg.excluded, i);
  }

  /** The same at the level of the whole method. Whether the snapshot was
      just loaded or was loaded earlier and the window is non-empty, the code
      as written never completes a call that the intended code completes, if
      any requested key is excluded. */
  lemma {:induction false} ExcludedKeyBreaksOfflineUpdate(cfg: Config, st: CacheState, file: Snapshot, i: nat)
    requires st.info.NoInfo? || (st.info.OfflineSnapshot? && st.cached.Window? && |st.cached.rows| > 0)
    requires i < |cfg.keys| && cfg.keys[i] in cfg.excluded
    requires UpdateCachedOffline(cfg, st, file).outcome.Done?
    ensures UpdateCachedOfflineAsWritten(cfg, st, file).outcome.Failed?
  {
    var kept := KeptKeys(cfg.keys, cfg.excluded);
    if st.info.NoInfo? {
      var p := Populate(cfg, st, file);
      assert !p.outcome.Failed?;
      ExcludedKeyBreaksAdvance(p.state, file, cfg, i);
    } else {
      ExcludedKeyBreaksAdvance(st, st.info.snapshot, cfg, i);
    }
  }

  // ---------------------------------------------------------------------
  // update_cached_info_online: the one-day shift
  // ---------------------------------------------------------------------

  /** `update_cached_info_online`. `fetched` is what the price service
      returned: the 280-day history on the first call, and the new day
      afterwards. An empty download raises `ConnectionError`. A frame that
      is already there loses its oldest bar and gains the download. A loaded
      snapshot is a dictionary, so asking for its `.index` raises
      `AttributeError`. */
  function UpdateCachedInfoOnline(info: Info, fetched: seq<Bar>): (r: Result<seq<Bar>>)
    ensures |fetched| == 0 ==> r == Raise(ConnectionFault)
    ensures r.Raise? && r.fault == ConnectionFault ==> |fetched| == 0
    ensures info.NoInfo? && |fetched| > 0 ==> r == Ok(fetched)
    ensures info.OnlineFrame? && |info.bars| > 0 && |fetched| > 0 ==>
      r.Ok? && |r.value| == |info.bars| - 1 + |fetched|
      && r.value[..|info.bars| - 1] == info.bars[1..] && r.value[|info.bars| - 1..] == fetched
    ensures info.OnlineFrame? && |info.bars| == 0 && |fetched| > 0 ==> r == Raise(IndexFault)
    ensures info.OfflineSnapshot? && |fetched| > 0 ==> r == Raise(AttributeFault)
  {
    if |fetched| == 0 then Raise(ConnectionFault)
    else match info
      case NoInfo => Ok(fetched)
      case OnlineFrame(bars) => if |bars| == 0 then Raise(IndexFault) else Ok(bars[1..] + fetched)
      case OfflineSnapshot(_) => Raise(AttributeFault)
  }

  /** Feeding the downloaded days one call at a time, starting from a frame. */
  function ShiftDays(bars: seq<Bar>, days: seq<Bar>): (r: Result<seq<Bar>>)
    decreases |days|
  {
    if |days| == 0 then Ok(bars)
    else match UpdateCachedInfoOnline(OnlineFrame(bars), [days[0]])
      case Raise(f) => Raise(f)
      case Ok(next) => ShiftDays(next, days[1..])
  }

  /** A non-empty frame fed one day per call stays the same size. It always
      holds the latest `|bars|` days of the concatenated history. */
  lemma {:induction false} ShiftDaysKeepsLatest(bars: seq<Bar>, days: seq<Bar>)
    requires |bars| > 0
    ensures ShiftDays(bars, days) == Ok((bars + days)[|days|..])
    ensures |ShiftDays(bars, days).value| == |bars|
    decreases |days|
  {
    if |days| > 0 {
      var next := bars[1..] + [days[0]];
      assert UpdateCachedInfoOnline(OnlineFrame(bars), [days[0]]) == Ok(next);
      assert ShiftDays(bars, days) == ShiftDays(next, days[1..]);
      ShiftDaysKeepsLatest(next, days[1..]);
      assert next + days[1..] == (bars + days)[1..];
      assert (bars + days)[1..][|days| - 1..] == (bars + days)[|days|..];
    } else {
      assert (bars + days)[|days|..] == bars;
    }
  }
}
