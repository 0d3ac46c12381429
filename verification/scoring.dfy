/**
  How the program scores predictions against actual prices.

  - `calculate_percentage_movement_together`, the helper nested in
    `test_model` (models.py:323-336). It gives the percentage of days on which
    the prediction moved in the same direction as the actual price, and the
    percentage of days on which it landed on the side of yesterday's price
    that the actual price moved to.
  - The sign tally at the end of `run_loop` (Loop_Implementation.py:51-59).
    It gives the share of paired entries whose signs agree.

  Prices and predictions are exact reals, and Python's float division is
  exact division.
 */
module Scoring {
  import opened Outcomes

  // ---------------------------------------------------------------------
  // movement_together
  // ---------------------------------------------------------------------

  /** From day `i - 1` to day `i`, both series rise or both fall. */
  predicate SameDirection(actual: seq<real>, predicted: seq<real>, i: nat)
    requires 1 <= i < |actual| && i < |predicted|
  {
    (actual[i] > actual[i - 1] && predicted[i] > predicted[i - 1])
    || (actual[i] < actual[i - 1] && predicted[i] < predicted[i - 1])
  }

  /** On day `i` the prediction lies on the same side of yesterday's actual
      price as today's actual price does. */
  predicate SameSpace(actual: seq<real>, predicted: seq<real>, i: nat)
    requires 1 <= i < |actual| && i < |predicted|
  {
    (actual[i] > actual[i - 1] && predicted[i] > actual[i - 1])
    || (actual[i] < actual[i - 1] && predicted[i] < actual[i - 1])
  }

  /** The number of days `1 .. k - 1` on which the directions agree. */
  function DirectionCount(actual: seq<real>, predicted: seq<real>, k: nat): (c: nat)
    requires k <= |actual| && k <= |predicted|
  {
    if k <= 1 then 0
    else DirectionCount(actual, predicted, k - 1) + (if SameDirection(actual, predicted, k - 1) then 1 else 0)
  }

  /** The number of days `1 .. k - 1` on which the prediction lands on the
      right side of yesterday's price. */
  function SpaceCount(actual: seq<real>, predicted: seq<real>, k: nat): (c: nat)
    requires k <= |actual| && k <= |predicted|
  {
    if k <= 1 then 0
    else SpaceCount(actual, predicted, k - 1) + (if SameSpace(actual, predicted, k - 1) then 1 else 0)
  }

  /** `count / (total - 1) * 100` in Python. The lone-element case divides by
      zero. With no elements at all the count is 0 and the result is `-0.0`,
      which as a number is `0`. */
  function Percentage(count: nat, total: nat): (r: Result<real>)
    ensures r.Raise? <==> total == 1
    ensures r.Raise? ==> r.fault == ZeroDivisionFault
  {
    if total == 1 then Raise(ZeroDivisionFault)
    else Ok(count as real / (total as real - 1.0) * 100.0)
  }

  /** The two percentages as one reference definition. */
  function MovementTogetherSpec(actual: seq<real>, predicted: seq<real>): (r: Result<(real, real)>)
    requires |actual| == |predicted|
    ensures r.Raise? <==> |actual| == 1
  {
    var total := |actual|;
    match Percentage(DirectionCount(actual, predicted, total), total)
    case Raise(f) => Raise(f)
    case Ok(direction) =>
      match Percentage(SpaceCount(actual, predicted, total), total)
      case Raise(f) => Raise(f)
      case Ok(space) => Ok((direction, space))
  }

  /** The helper as the program runs it: one pass over the days, counting both
      agreements. Its caller asserts that the two lists have the same length. */
  method MovementTogether(actual: seq<real>, predicted: seq<real>) returns (r: Result<(real, real)>)
    requires |actual| == |predicted|
    ensures r == MovementTogetherSpec(actual, predicted)
    ensures r.Raise? <==> |actual| == 1
    ensures r.Ok? ==> 0.0 <= r.value.0 <= 100.0 && 0.0 <= r.value.1 <= 100.0
  {
    var total := |actual|;
    var sameDirection := 0;
    var sameSpace := 0;
    var i := 1;
    while i < total
      invariant 1 <= i && (total >= 1 ==> i <= total)
      invariant sameDirection == DirectionCount(actual, predicted, if total == 0 then 0 else i)
      invariant sameSpace == SpaceCount(actual, predicted, if total == 0 then 0 else i)
    {
      if (actual[i] > actual[i - 1] && predicted[i] > predicted[i - 1]) || (actual[i] < actual[i - 1] && predicted[i] < predicted[i - 1]) {
        sameDirection := sameDirection + 1;
      }
      if (actual[i] > actual[i - 1] && predicted[i] > actual[i - 1]) || (actual[i] < actual[i - 1] && predicted[i] < actual[i - 1]) {
        sameSpace := sameSpace + 1;
      }
      i := i + 1;
    }
    CountsBounded(actual, predicted, total);
    if total == 1 {
      r := Raise(ZeroDivisionFault);
    } else {
      r := Ok((sameDirection as real / (total as real - 1.0) * 100.0, sameSpace as real / (total as real - 1.0) * 100.0));
      PercentageBounded(sameDirection, total);
      PercentageBounded(sameSpace, total);
    }
  }

  /** Each count covers at most `k - 1` days. */
  lemma {:induction false} CountsBounded(actual: seq<real>, predicted: seq<real>, k: nat)
    requires k <= |actual| && k <= |predicted|
    ensures DirectionCount(actual, predicted, k) <= if k == 0 then 0 else k - 1
    ensures SpaceCount(actual, predicted, k) <= if k == 0 then 0 else k - 1
  {
    if k > 1 {
      CountsBounded(actual, predicted, k - 1);
    }
  }

  lemma PercentageBounded(count: nat, total: nat)
    requires count <= if total == 0 then 0 else total - 1
    requires total != 1
    ensures 0.0 <= Percentage(count, total).value <= 100.0
  {
    if total > 1 {
      ShareBounded(count, total - 1);
    }
  }

  /** A count out of `n` is a share between 0 and 1. */
  lemma ShareBounded(count: nat, n: nat)
    requires 0 < n && count <= n
    ensures 0.0 <= count as real / n as real <= 1.0
  {
    assert count as real / n as real * n as real == count as real;
  }

  /** Direction agreement does not care which series is the prediction. The
      second measure compares against the actual price, so it has no such
      symmetry. */
  lemma {:induction false} DirectionCountSymmetric(actual: seq<real>, predicted: seq<real>, k: nat)
    requires k <= |actual| && k <= |predicted|
    ensures DirectionCount(actual, predicted, k) == DirectionCount(predicted, actual, k)
  {
    if k > 1 {
      DirectionCountSymmetric(actual, predicted, k - 1);
    }
  }

  /** The number of days `1 .. k - 1` on which the price moved at all. */
  function Moves(actual: seq<real>, k: nat): (c: nat)
    requires k <= |actual|
  {
    if k <= 1 then 0 else Moves(actual, k - 1) + (if actual[k - 1] != actual[k - 2] then 1 else 0)
  }

  /** A prediction equal to the actual series agrees, by both measures, on
      exactly the days the price moved. Flat days count against it. */
  lemma {:induction false} PerfectPredictionCountsMoves(actual: seq<real>, k: nat)
    requires k <= |actual|
    ensures DirectionCount(actual, actual, k) == Moves(actual, k)
    ensures SpaceCount(actual, actual, k) == Moves(actual, k)
  {
    if k > 1 {
      PerfectPredictionCountsMoves(actual, k - 1);
    }
  }

  /** The largest possible count is reached when there are no flat days. */
  lemma {:induction false} MovesWithoutFlatDays(actual: seq<real>, k: nat)
    requires 1 <= k <= |actual|
    requires forall i :: 1 <= i < k ==> actual[i] != actual[i - 1]
    ensures Moves(actual, k) == k - 1
  {
    if k > 1 {
      MovesWithoutFlatDays(actual, k - 1);
    }
  }

  /** A perfect prediction of a series with no flat day scores 100% on both
      measures. */
  lemma PerfectPredictionScoresFull(actual: seq<real>)
    requires |actual| >= 2
    requires forall i :: 1 <= i < |actual| ==> actual[i] != actual[i - 1]
    ensures MovementTogetherSpec(actual, actual) == Ok((100.0, 100.0))
  {
    PerfectPredictionCountsMoves(actual, |actual|);
    MovesWithoutFlatDays(actual, |actual|);
  }

  // ---------------------------------------------------------------------
  // The sign tally of run_loop
  // ---------------------------------------------------------------------

  /** The prediction and the actual value are both positive or both
      negative. A zero on either side never agrees. */
  predicate SameSign(predicted: real, actual: real)
  {
    (predicted > 0.0 && actual > 0.0) || (predicted < 0.0 && actual < 0.0)
  }

  function Min(a: nat, b: nat): nat
  {
    if a <= b then a else b
  }

  /** The `together` list: one flag per pair `zip` produces, so only as many
      as the shorter input has. */
  function Together(predicted: seq<real>, actual: seq<real>): (flags: seq<nat>)
    ensures |flags| == Min(|predicted|, |actual|)
    ensures forall i :: 0 <= i < |flags| ==> flags[i] <= 1
    ensures forall i :: 0 <= i < |flags| ==> (flags[i] == 1 <==> SameSign(predicted[i], actual[i]))
  {
    seq(Min(|predicted|, |actual|), i requires 0 <= i < Min(|predicted|, |actual|) =>
      if SameSign(predicted[i], actual[i]) then 1 else 0)
  }

  function Sum(xs: seq<nat>): nat
  {
    if |xs| == 0 then 0 else Sum(xs[..|xs| - 1]) + xs[|xs| - 1]
  }

  /** The number of the first `k` pairs whose signs agree. */
  function AgreeCount(predicted: seq<real>, actual: seq<real>, k: nat): nat
    requires k <= |predicted| && k <= |actual|
  {
    if k == 0 then 0 else AgreeCount(predicted, actual, k - 1) + (if SameSign(predicted[k - 1], actual[k - 1]) then 1 else 0)
  }

  /** Summing the flags counts the agreeing pairs. */
  lemma {:induction false} SumOfTogether(predicted: seq<real>, actual: seq<real>, k: nat)
    requires k <= Min(|predicted|, |actual|)
    ensures Sum(Together(predicted, actual)[..k]) == AgreeCount(predicted, actual, k)
    ensures AgreeCount(predicted, actual, k) <= k
  {
    if k > 0 {
      var flags := Together(predicted, actual);
      assert flags[..k][..k - 1] == flags[..k - 1];
      SumOfTogether(predicted, actual, k - 1);
    }
  }

  /** `sum(together) / len(together)`. No pairs at all divide by zero. */
  function Agreement(predicted: seq<real>, actual: seq<real>): (r: Result<real>)
    ensures r.Raise? <==> Min(|predicted|, |actual|) == 0
    ensures r.Raise? ==> r.fault == ZeroDivisionFault
  {
    var flags := Together(predicted, actual);
    if |flags| == 0 then Raise(ZeroDivisionFault) else Ok(Sum(flags) as real / |flags| as real)
  }

  /** The tally is the share of agreeing pairs, so it lies in `[0, 1]`. */
  lemma AgreementIsShare(predicted: seq<real>, actual: seq<real>)
    requires Min(|predicted|, |actual|) > 0
    ensures var n := Min(|predicted|, |actual|);
      Agreement(predicted, actual) == Ok(AgreeCount(predicted, actual, n) as real / n as real)
      && 0.0 <= Agreement(predicted, actual).value <= 1.0
  {
    var n := Min(|predicted|, |actual|);
    var flags := Together(predicted, actual);
    assert flags[..n] == flags;
    SumOfTogether(predicted, actual, n);
    ShareBounded(AgreeCount(predicted, actual, n), n);
  }

  /** Swapping the roles of prediction and actual value changes nothing. */
  lemma {:induction false} AgreeCountSymmetric(predicted: seq<real>, actual: seq<real>, k: nat)
    requires k <= |predicted| && k <= |actual|
    ensures AgreeCount(predicted, actual, k) == AgreeCount(actual, predicted, k)
  {
    if k > 0 {
      AgreeCountSymmetric(predicted, actual, k - 1);
    }
  }

  /** The loop as written: one flag appended per `zip` pair. */
  method TallyTogether(predicted: seq<real>, actual: seq<real>) returns (flags: seq<nat>)
    ensures flags == Together(predicted, actual)
  {
    flags := [];
    var i := 0;
    var n := Min(|predicted|, |actual|);
    while i < n
      invariant 0 <= i <= n && |flags| == i
      invariant forall j :: 0 <= j < i ==> flags[j] == (if SameSign(predicted[j], actual[j]) then 1 else 0)
    {
      if predicted[i] > 0.0 && actual[i] > 0.0 {
        flags := flags + [1];
      } else if predicted[i] < 0.0 && actual[i] < 0.0 {
        flags := flags + [1];
      } else {
        flags := flags + [0];
      }
      i := i + 1;
    }
  }
}
