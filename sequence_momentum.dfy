/**
 * Sequence momentum: extrapolate the average step of the last five digits from the last
 * digit, round to the nearest integer, and give each digit a weight that decays
 * exponentially with its distance from that prediction.
 *
 * `Math.exp(-0.5 * distance)` is `q` to the power `distance` with `q = exp(-0.5)`; the
 * ratio is a parameter here, constrained to lie strictly between 0 and 1.
 */
module SequenceMomentum {
  import opened Vectors

  const MinLength := 10
  const RecentLength := 5

  function Abs(x: int): nat
  {
    if x < 0 then -x else x
  }

  /** The first differences `r[i] - r[i - 1]`. */
  function Differences(r: seq<Digit>): (d: seq<int>)
    ensures |r| > 0 ==> |d| == |r| - 1
  {
    if |r| == 0 then [] else seq(|r| - 1, i requires 0 <= i < |r| - 1 => r[i + 1] as int - r[i] as int)
  }

  /** `Math.round`: the nearest integer, halves rounded up. */
  function Round(x: real): int
  {
    (x + 0.5).Floor
  }

  /** The extrapolated next value: the last digit plus the mean of the last four steps. */
  function Predicted(data: seq<Digit>): int
    requires |data| >= RecentLength
  {
    var recent := data[|data| - RecentLength..];
    var diffs := Differences(recent);
    Round(data[|data| - 1] as real + Total(diffs) as real / |diffs| as real)
  }

  /** The unnormalised weights `q ^ |i - predicted|`. */
  function Kernel(q: real, predicted: int): (k: seq<real>)
    ensures |k| == 10
  {
    seq(10, i requires 0 <= i < 10 => Pow(q, Abs(i - predicted)))
  }

  /** What `calculateSequenceMomentum` returns. */
  function Momentum(data: seq<Digit>, q: real): (p: seq<real>)
    requires 0.0 < q < 1.0
    ensures |p| == 10
  {
    if |data| < MinLength then Uniform()
    else
      var k := Kernel(q, Predicted(data));
      KernelPositive(q, Predicted(data));
      Divide(k, Sum(k))
  }

  method CalculateSequenceMomentum(data: seq<Digit>, q: real) returns (p: seq<real>)
    requires 0.0 < q < 1.0
    ensures p == Momentum(data, q)
  {
    if |data| < MinLength {
      return Uniform();
    }
    var recent := data[|data| - RecentLength..];
    var firstDeriv: seq<int> := [];
    var i := 1;
    while i < |recent|
      invariant 1 <= i <= |recent|
      invariant firstDeriv == Differences(recent)[..i - 1]
    {
      firstDeriv := firstDeriv + [recent[i] as int - recent[i - 1] as int];
      i := i + 1;
    }
    assert firstDeriv == Differences(recent);
    var avgFirstDeriv := Total(firstDeriv) as real / |firstDeriv| as real;
    var lastDigit := data[|data| - 1];
    var predicted := Round(lastDigit as real + avgFirstDeriv);
    var predictions := Zeros();
    i := 0;
    while i < 10
      invariant 0 <= i <= 10 && |predictions| == 10
      invariant forall j :: 0 <= j < i ==> predictions[j] == Kernel(q, predicted)[j]
    {
      var distance := Abs(i - predicted);
      predictions := predictions[i := Pow(q, distance)];
      i := i + 1;
    }
    assert predictions == Kernel(q, predicted);
    KernelPositive(q, predicted);
    var total := Sum(predictions);
    p := Divide(predictions, total);
  }

  /** Every weight is positive, and so is their sum. */
  lemma KernelPositive(q: real, predicted: int)
    requires 0.0 < q < 1.0
    ensures forall i :: 0 <= i < 10 ==> Kernel(q, predicted)[i] > 0.0
    ensures Sum(Kernel(q, predicted)) > 0.0
  {
    var k := Kernel(q, predicted);
    forall i | 0 <= i < 10
      ensures k[i] > 0.0
    {
      PowPositive(q, Abs(i - predicted));
    }
    SumNonNegative(k);
  }

  /** The differences telescope: together they add up to the last digit minus the first. */
  lemma {:induction false} Telescoping(r: seq<Digit>)
    requires |r| > 0
    ensures Total(Differences(r)) == r[|r| - 1] as int - r[0] as int
  {
    if |r| > 1 {
      var n := |r|;
      Telescoping(r[..n - 1]);
      assert Differences(r)[..n - 2] == Differences(r[..n - 1]);
    }
  }

  /** The prediction is the last digit plus a quarter of the rise over the last five
      digits, rounded; it always lies between -2 and 11. */
  lemma PredictedRange(data: seq<Digit>)
    requires |data| >= RecentLength
    ensures Predicted(data) ==
              Round(data[|data| - 1] as real + (data[|data| - 1] as int - data[|data| - RecentLength] as int) as real / 4.0)
    ensures -2 <= Predicted(data) <= 11
  {
    var recent := data[|data| - RecentLength..];
    Telescoping(recent);
  }

  /** The result is a distribution in which every digit keeps positive probability. */
  lemma MomentumDistribution(data: seq<Digit>, q: real)
    requires 0.0 < q < 1.0
    ensures IsDistribution(Momentum(data, q))
    ensures forall i :: 0 <= i < 10 ==> Momentum(data, q)[i] > 0.0
  {
    if |data| < MinLength {
      UniformIsDistribution();
    } else {
      var k := Kernel(q, Predicted(data));
      KernelPositive(q, Predicted(data));
      Normalized(k);
      forall i | 0 <= i < 10
        ensures Momentum(data, q)[i] > 0.0
      {
        DividePositive(k[i], Sum(k));
      }
    }
  }

  /** A digit nearer the prediction is strictly more likely; digits at the same distance
      are equally likely. */
  lemma CloserIsLikelier(data: seq<Digit>, q: real, i: nat, j: nat)
    requires 0.0 < q < 1.0 && |data| >= MinLength
    requires i < 10 && j < 10
    ensures Abs(i - Predicted(data)) < Abs(j - Predicted(data)) ==> Momentum(data, q)[i] > Momentum(data, q)[j]
    ensures Abs(i - Predicted(data)) == Abs(j - Predicted(data)) ==> Momentum(data, q)[i] == Momentum(data, q)[j]
  {
    var p := Predicted(data);
    var k := Kernel(q, p);
    KernelPositive(q, p);
    if Abs(i - p) < Abs(j - p) {
      PowDecreasing(q, Abs(i - p), Abs(j - p));
      DivideStrictlyMonotone(k[j], k[i], Sum(k));
    }
  }

  lemma DivideStrictlyMonotone(a: real, b: real, t: real)
    requires a < b && t > 0.0
    ensures a / t < b / t
  {
  }

  /** When the prediction is itself a digit, that digit is the single most likely one. */
  lemma PredictionIsMode(data: seq<Digit>, q: real, j: nat)
    requires 0.0 < q < 1.0 && |data| >= MinLength
    requires 0 <= Predicted(data) <= 9
    requires j < 10 && j != Predicted(data)
    ensures Momentum(data, q)[Predicted(data)] > Momentum(data, q)[j]
  {
    CloserIsLikelier(data, q, Predicted(data), j);
  }

  /** A steady climb 1, 2, 3, 4, 5 predicts 6. */
  lemma SteadyClimb(data: seq<Digit>)
    requires |data| >= RecentLength
    requires data[|data| - RecentLength..] == [1, 2, 3, 4, 5]
    ensures Predicted(data) == 6
  {
    PredictedRange(data);
    assert data[|data| - 1] == data[|data| - RecentLength..][4];
    assert data[|data| - RecentLength] == data[|data| - RecentLength..][0];
  }
}
