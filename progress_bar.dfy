/**
 * The player's progress bar (src/components/ProgressBar.tsx): the overall
 * percentage across segments and the two time labels.
 */
module ProgressBar {
  import opened Wrappers
  import Decimal

  /**
   * The bar width in percent: current / total × 100 + progress / total.  With
   * no segments the source divides by zero and gets NaN or Infinity rather
   * than a number, which is `None` here.
   */
  function TotalProgress(current: nat, total: nat, progress: real): (r: Option<real>)
    ensures r.None? <==> total == 0
    ensures r.Some? ==> r.value * total as real == 100.0 * current as real + progress
  {
    if total == 0 then None
    else Some((current as real / total as real) * 100.0 + progress / total as real)
  }

  /** Within a segment list, at progress between 0 and 100, the bar stays within 0–100 %. */
  lemma TotalProgressBounds(current: nat, total: nat, progress: real)
    requires 0 <= current < total && 0.0 <= progress <= 100.0
    ensures var r := TotalProgress(current, total, progress);
      r.Some? && 0.0 <= r.value <= 100.0
  {
    var r := TotalProgress(current, total, progress).value;
    var t := total as real;
    assert r * t == 100.0 * current as real + progress;
    assert 100.0 * current as real + progress <= 100.0 * t;
  }

  /** Finishing a segment and starting the next one show the same width. */
  lemma TotalProgressContinuous(current: nat, total: nat)
    requires total > 0
    ensures TotalProgress(current, total, 100.0) == TotalProgress(current + 1, total, 0.0)
  {
    var t := total as real;
    var a := TotalProgress(current, total, 100.0).value;
    var b := TotalProgress(current + 1, total, 0.0).value;
    assert a * t == b * t;
  }

  /** The width never shrinks when the progress or the index grows. */
  lemma TotalProgressMonotone(c1: nat, c2: nat, total: nat, p1: real, p2: real)
    requires total > 0 && c1 <= c2 && p1 <= p2
    ensures TotalProgress(c1, total, p1).value <= TotalProgress(c2, total, p2).value
  {
    var t := total as real;
    var a := TotalProgress(c1, total, p1).value;
    var b := TotalProgress(c2, total, p2).value;
    assert a * t <= b * t;
  }

  /** The elapsed label: "00:" then the segment index then "0". */
  function ElapsedLabel(current: nat): (s: string)
    ensures |s| >= 5 && s[..3] == "00:" && s[|s| - 1] == '0'
    ensures forall i :: 3 <= i < |s| ==> Decimal.IsDigit(s[i])
  {
    "00:" + Decimal.NatToString(current) + "0"
  }

  /** The index can be read back from the elapsed label. */
  lemma ElapsedLabelReadsBack(current: nat)
    ensures var s := ElapsedLabel(current);
      Decimal.DigitsValue(s[3..|s| - 1]) == current
  {
    var s := ElapsedLabel(current);
    assert s[3..|s| - 1] == Decimal.NatToString(current);
    Decimal.NatToStringRoundTrip(current);
  }

  /** The remaining label: the article's duration after a minus sign. */
  function RemainingLabel(duration: string): (s: string)
    ensures |s| == |duration| + 1 && s[0] == '-' && s[1..] == duration
  {
    "-" + duration
  }
}
