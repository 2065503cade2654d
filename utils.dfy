/** `pct_change`: the percentage change from a previous value to a current one, with
    0.0 standing in for an undefined change from zero. */
module Utils {
  import opened Numeric
  import Signals

  function PctChange(current: real, previous: real): (r: real)
    ensures previous == 0.0 ==> r == 0.0
    ensures previous != 0.0 ==> r * previous == (current - previous) * 100.0
  {
    if previous == 0.0 then 0.0 else (current - previous) / previous * 100.0
  }

  /** No change gives 0, whatever the previous value. */
  lemma PctChangeOfEqual(x: real)
    ensures PctChange(x, x) == 0.0
  {
  }

  /** Applying the percentage change to a non-zero previous value gives back the current value. */
  lemma PctChangeRoundTrip(current: real, previous: real)
    requires previous != 0.0
    ensures previous + previous * PctChange(current, previous) / 100.0 == current
  {
    var r := PctChange(current, previous);
    assert r * previous == (current - previous) * 100.0;
    assert previous * r / 100.0 == current - previous;
  }

  /** From a positive previous value, the change has the sign of `current - previous`. */
  lemma PctChangeSign(current: real, previous: real)
    requires previous > 0.0
    ensures PctChange(current, previous) > 0.0 <==> current > previous
    ensures PctChange(current, previous) < 0.0 <==> current < previous
  {
    QuotientSign(current - previous, previous);
  }

  /** The leverage score's OI-change term is `pct_change` of the last two open-interest
      values: its test for a zero previous open interest is the same guard. */
  lemma OIChangeIsPctChange(values: seq<Signals.OIMetrics>)
    requires |values| > 1
    ensures Signals.OIChangePct(values) == PctChange(values[|values| - 1].oi, values[|values| - 2].oi)
  {
  }
}
