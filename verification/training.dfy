/**
  How the two `train` methods divide the data.

  - `BaseModel.train` in Models.py splits the rows 80/20 into a training
    and a testing part (lines 66-68).
  - `train` in Stock-Bot-Predicter-AI/models.py builds sequences from the
    first 80% of the rows in test mode, and from all rows otherwise
    (lines 187-191). Only then does it check the data length against
    `num_days` (lines 202-203).

  `create_sequences` is defined in a module this model does not include. The
  model records the rows it receives.
 */
module Training {
  import opened Outcomes

  /** `int(len(data) * 0.8)`. For any realistic length, the double
      product rounds to the exact value, so the floor of `4n/5` is exact. */
  function TrainSize(n: nat): (s: nat)
    ensures s <= n
    ensures 5 * s <= 4 * n < 5 * (s + 1)
  {
    (4 * n) / 5
  }

  /** `data[:train_size]` and `data[train_size:]`. Together they are the
      whole data, in order, and the training part is the first 80%. */
  function TrainTestSplit<T>(data: seq<T>): (r: (seq<T>, seq<T>))
    ensures r.0 + r.1 == data
    ensures |r.0| == TrainSize(|data|)
    ensures |data| >= 1 ==> |r.1| >= 1
  {
    (data[..TrainSize(|data|)], data[TrainSize(|data|)..])
  }

  /** The rows `train` hands to `create_sequences`: the first 80% in test
      mode, everything otherwise. */
  function SequenceRows<T>(data: seq<T>, test: bool): (r: seq<T>)
    ensures test ==> r == TrainTestSplit(data).0
    ensures !test ==> r == data
    ensures |r| <= |data|
  {
    if test then data[..TrainSize(|data|)] else data
  }

  /** The size guard of `train`. It raises `ValueError` exactly when there
      are fewer rows than `num_days`. Otherwise training goes ahead on the
      rows chosen above. */
  function TrainGuard<T>(data: seq<T>, numDays: nat, test: bool): (r: Result<seq<T>>)
    ensures r.Raise? <==> |data| < numDays
    ensures r.Raise? ==> r.fault == ValueFault
    ensures r.Ok? ==> r.value == SequenceRows(data, test)
  {
    var rows := SequenceRows(data, test);
    if |data| < numDays then Raise(ValueFault) else Ok(rows)
  }

  /** The guard checks the full length, not the length of the rows actually
      used. In test mode it admits data whose 80% slice is shorter than
      `num_days`: with exactly `num_days` rows, only `4/5` of them reach
      `create_sequences`. */
  lemma GuardAdmitsShortTestRows<T>(data: seq<T>, numDays: nat)
    requires numDays >= 1 && |data| == numDays
    ensures TrainGuard(data, numDays, true).Ok?
    ensures |TrainGuard(data, numDays, true).value| < numDays
  {
  }

  /** The training part is non-empty exactly from two rows on, and the
      testing part exactly from one row on: `int(0.8 n)` stays below every
      positive `n`. */
  lemma SplitPartsNonEmpty<T>(data: seq<T>)
    ensures |TrainTestSplit(data).0| >= 1 <==> |data| >= 2
    ensures |TrainTestSplit(data).1| >= 1 <==> |data| >= 1
  {
  }
}
