/**
 * Change-point detection: slide a split point i over the history and compare the mean of
 * the w digits before it with the mean of the w digits from it on. The split is recorded
 * as a change point when the absolute difference of the means exceeds the threshold; the
 * current regime is the distance from the last change point to the end of the history.
 */
module ChangePointDetection {
  import opened Vectors

  const MinLength := 50
  const DefaultWindow := 20
  const DefaultThreshold := 1.5

  datatype ChangePoint = ChangePoint(index: nat, meanChange: real)

  /** The detector's result: the recorded change points and the current regime length. */
  datatype Regime = Regime(changePoints: seq<ChangePoint>, currentRegime: nat)

  function Abs(x: real): real
  {
    if x < 0.0 then -x else x
  }

  function AbsInt(x: int): nat
  {
    if x < 0 then -x else x
  }

  /** The sum of the w digits before the split point i. */
  function SumBefore(data: seq<Digit>, w: nat, i: nat): int
    requires w <= i <= |data|
  {
    Total(data[i - w..i])
  }

  /** The sum of the w digits starting at the split point i. */
  function SumAfter(data: seq<Digit>, w: nat, i: nat): int
    requires i + w <= |data|
  {
    Total(data[i..i + w])
  }

  /** The absolute difference of the two window means at i. */
  function MeanChange(data: seq<Digit>, w: nat, i: nat): real
    requires 0 < w <= i && i + w <= |data|
  {
    Abs(SumAfter(data, w, i) as real / w as real - SumBefore(data, w, i) as real / w as real)
  }

  /** The split point i is recorded. A window of 0 makes both means `0 / 0`, which is NaN,
      and no comparison with NaN holds, so nothing is recorded then. */
  predicate Detected(data: seq<Digit>, w: nat, th: real, i: nat)
    requires w <= i && i + w <= |data|
  {
    w > 0 && MeanChange(data, w, i) > th
  }

  /** The change point c records a detected split point together with its mean change. */
  predicate Genuine(data: seq<Digit>, w: nat, th: real, c: ChangePoint)
  {
    w <= c.index && c.index + w <= |data| && Detected(data, w, th, c.index) &&
    c.meanChange == MeanChange(data, w, c.index)
  }

  /** The indices strictly increase along cps. */
  predicate Increasing(cps: seq<ChangePoint>)
  {
    forall k, l :: 0 <= k < l < |cps| ==> cps[k].index < cps[l].index
  }

  /** Some change point in cps has index i. */
  predicate Records(cps: seq<ChangePoint>, i: nat)
  {
    exists k :: 0 <= k < |cps| && cps[k].index == i
  }

  /** The change points recorded for the split points w .. m - 1, in scan order. */
  function ChangePointsBelow(data: seq<Digit>, w: nat, th: real, m: nat): (cps: seq<ChangePoint>)
    requires m <= w || m + w <= |data|
    ensures forall k :: 0 <= k < |cps| ==> cps[k].index < m && Genuine(data, w, th, cps[k])
    ensures Increasing(cps)
  {
    if m <= w then []
    else
      var rest := ChangePointsBelow(data, w, th, m - 1);
      if Detected(data, w, th, m - 1) then rest + [ChangePoint(m - 1, MeanChange(data, w, m - 1))]
      else rest
  }

  /** Where the scan stops: n - w, or w itself when the history is shorter than two windows. */
  function ScanEnd(n: nat, w: nat): (m: nat)
    ensures m <= w || m + w <= n
  {
    if n >= 2 * w then n - w else w
  }

  /** What `calculateChangePointDetection(data, w, th)` returns. */
  function ChangePoints(data: seq<Digit>, w: nat, th: real): Regime
  {
    if |data| < MinLength then Regime([], 0)
    else
      var cps := ChangePointsBelow(data, w, th, ScanEnd(|data|, w));
      Regime(cps, if |cps| > 0 then |data| - cps[|cps| - 1].index else |data|)
  }

  method CalculateChangePointDetection(data: seq<Digit>, windowSize: nat, threshold: real) returns (r: Regime)
    ensures r == ChangePoints(data, windowSize, threshold)
  {
    if |data| < MinLength {
      return Regime([], 0);
    }
    var changePoints := Scan(data, windowSize, threshold);
    var currentRegime := if |changePoints| > 0 then |data| - changePoints[|changePoints| - 1].index else |data|;
    r := Regime(changePoints, currentRegime);
  }

  /** The scan over the split points w .. n - w - 1. */
  method Scan(data: seq<Digit>, windowSize: nat, threshold: real) returns (changePoints: seq<ChangePoint>)
    ensures changePoints == ChangePointsBelow(data, windowSize, threshold, ScanEnd(|data|, windowSize))
  {
    changePoints := [];
    var i := windowSize;
    while i < |data| - windowSize
      invariant windowSize <= i && (i <= windowSize || i + windowSize <= |data|)
      invariant changePoints == ChangePointsBelow(data, windowSize, threshold, i)
    {
      var before := data[i - windowSize..i];
      var after := data[i..i + windowSize];
      ScanStep(data, windowSize, threshold, i);
      if windowSize > 0 {
        var meanBefore := Total(before) as real / windowSize as real;
        var meanAfter := Total(after) as real / windowSize as real;
        var meanChange := Abs(meanAfter - meanBefore);
        assert meanChange == MeanChange(data, windowSize, i);
        if meanChange > threshold {
          changePoints := changePoints + [ChangePoint(i, meanChange)];
        }
      }
      i := i + 1;
    }
  }

  /** Split point i adds its change point when, and only when, it is detected. */
  lemma ScanStep(data: seq<Digit>, w: nat, th: real, i: nat)
    requires w <= i && i + w < |data|
    ensures ChangePointsBelow(data, w, th, i + 1) ==
              if Detected(data, w, th, i)
              then ChangePointsBelow(data, w, th, i) + [ChangePoint(i, MeanChange(data, w, i))]
              else ChangePointsBelow(data, w, th, i)
  {
  }

  /** A split point is recorded exactly when it is detected: the scan misses none. */
  lemma {:induction false} Recorded(data: seq<Digit>, w: nat, th: real, m: nat, i: nat)
    requires m <= w || m + w <= |data|
    requires w <= i < m
    ensures Records(ChangePointsBelow(data, w, th, m), i) <==> Detected(data, w, th, i)
  {
    var rest := ChangePointsBelow(data, w, th, m - 1);
    if Detected(data, w, th, m - 1) {
      RecordsAppend(rest, ChangePoint(m - 1, MeanChange(data, w, m - 1)), i);
    }
    if i == m - 1 {
      assert !Records(rest, i) by {
        assert forall k :: 0 <= k < |rest| ==> rest[k].index < m - 1;
      }
    } else {
      Recorded(data, w, th, m - 1, i);
    }
  }

  /** Appending a change point adds exactly its index to the recorded ones. */
  lemma RecordsAppend(cps: seq<ChangePoint>, c: ChangePoint, i: nat)
    ensures Records(cps + [c], i) <==> Records(cps, i) || c.index == i
  {
    var all := cps + [c];
    if Records(cps, i) {
      var k :| 0 <= k < |cps| && cps[k].index == i;
      assert all[k] == cps[k];
    }
    if c.index == i {
      assert all[|cps|] == c;
    }
    if Records(all, i) {
      var k :| 0 <= k < |all| && all[k].index == i;
      if k < |cps| {
        assert all[k] == cps[k];
      }
    }
  }

  /** A window of digits sums to between 0 and 9 per digit. */
  lemma {:induction false} WindowSumBounds(s: seq<Digit>)
    ensures 0 <= Total(s) <= 9 * |s|
  {
    if s != [] {
      WindowSumBounds(s[..|s| - 1]);
    }
  }

  /** The mean test is an integer test on the window sums: a shift of more than `th`
      in the means is a difference of more than `th * w` in the sums. */
  lemma ShiftTest(data: seq<Digit>, w: nat, th: real, i: nat)
    requires 0 < w <= i && i + w <= |data|
    ensures Detected(data, w, th, i) <==>
              AbsInt(SumAfter(data, w, i) - SumBefore(data, w, i)) as real > th * w as real
  {
    var diff := SumAfter(data, w, i) - SumBefore(data, w, i);
    var d := AbsInt(diff) as real;
    MeanDifference(SumAfter(data, w, i), SumBefore(data, w, i), w as real);
    DivideAbove(d, w as real, th);
  }

  /** The distance of two means over w is the distance of the sums, over w. */
  lemma MeanDifference(a: int, b: int, w: real)
    requires w > 0.0
    ensures Abs(a as real / w - b as real / w) == AbsInt(a - b) as real / w
  {
    assert a as real / w - b as real / w == (a - b) as real / w;
    if a - b < 0 {
      assert -((a - b) as real / w) == (b - a) as real / w;
    }
  }

  lemma DivideAbove(x: real, w: real, th: real)
    requires w > 0.0
    ensures x / w > th <==> x > th * w
  {
    assert x == (x / w) * w;
    if x / w > th {
      MultiplyStrictlyMonotone(th, x / w, w);
    } else {
      MultiplyMonotone(x / w, th, w);
    }
  }

  lemma MultiplyStrictlyMonotone(a: real, b: real, w: real)
    requires a < b && w > 0.0
    ensures a * w < b * w
  {
  }

  lemma MultiplyMonotone(a: real, b: real, w: real)
    requires a <= b && w > 0.0
    ensures a * w <= b * w
  {
  }

  /** With the defaults the test reads: the two 20-digit window sums differ by more than 30. */
  lemma DefaultShiftTest(data: seq<Digit>, i: nat)
    requires DefaultWindow <= i && i + DefaultWindow <= |data|
    ensures Detected(data, DefaultWindow, DefaultThreshold, i) <==>
              AbsInt(SumAfter(data, DefaultWindow, i) - SumBefore(data, DefaultWindow, i)) > 30
  {
    ShiftTest(data, DefaultWindow, DefaultThreshold, i);
  }

  /** Two means of digits are at most 9 apart. */
  lemma MeanChangeAtMostNine(data: seq<Digit>, w: nat, i: nat)
    requires 0 < w <= i && i + w <= |data|
    ensures 0.0 <= MeanChange(data, w, i) <= 9.0
  {
    WindowSumBounds(data[i - w..i]);
    WindowSumBounds(data[i..i + w]);
    var a, b, ww := SumAfter(data, w, i) as real, SumBefore(data, w, i) as real, w as real;
    DivideAtMost(a, ww);
    DivideAtMost(b, ww);
  }

  lemma DivideAtMost(x: real, w: real)
    requires w > 0.0 && 0.0 <= x <= 9.0 * w
    ensures 0.0 <= x / w <= 9.0
  {
    DivideAbove(x, w, 9.0);
    DivideNonNegative(x, w);
  }

  /** Every recorded change lies in (th, 9]; when change points exist the current regime
      lies between w + 1 and n - w. */
  lemma RegimeFacts(data: seq<Digit>, w: nat, th: real)
    requires |data| >= MinLength
    ensures var r := ChangePoints(data, w, th);
            forall k :: 0 <= k < |r.changePoints| ==> th < r.changePoints[k].meanChange <= 9.0
    ensures var r := ChangePoints(data, w, th);
            |r.changePoints| > 0 ==> w + 1 <= r.currentRegime <= |data| - w
  {
    var cps := ChangePointsBelow(data, w, th, ScanEnd(|data|, w));
    forall k | 0 <= k < |cps|
      ensures cps[k].meanChange <= 9.0
    {
      MeanChangeAtMostNine(data, w, cps[k].index);
    }
  }

  /** The history holds a single repeated digit. */
  predicate Constant(data: seq<Digit>)
  {
    forall j :: 0 <= j < |data| ==> data[j] == data[0]
  }

  /** A constant history never changes regime: no change points, and the regime is the
      whole history (for any threshold that is not negative). */
  lemma ConstantHasNoChange(data: seq<Digit>, w: nat, th: real)
    requires |data| >= MinLength && Constant(data) && th >= 0.0
    ensures ChangePoints(data, w, th) == Regime([], |data|)
  {
    forall i | w <= i && i + w <= |data|
      ensures !Detected(data, w, th, i)
    {
      assert data[i - w..i] == data[i..i + w];
    }
    var cps := ChangePointsBelow(data, w, th, ScanEnd(|data|, w));
    assert |cps| > 0 ==> Genuine(data, w, th, cps[0]);
  }
}
