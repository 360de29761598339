/**
 * Recency-weighted Markov: every earlier occurrence of the last digit votes for the digit
 * that followed it. The vote weighs 0.95 raised to the occurrence's distance from the
 * second-to-last position, so recent transitions count for more.
 */
module RecencyWeightedMarkov {
  import opened Vectors

  const MinLength := 10
  const Decay := 0.95

  /** The weight of the occurrence at position i: 0.95 to the power n - 2 - i. */
  function Weight(data: seq<Digit>, i: nat): real
    requires i + 2 <= |data|
  {
    Pow(Decay, |data| - 2 - i)
  }

  /** Position j holds the last digit and is followed by d. */
  predicate LastFollowedBy(data: seq<Digit>, j: nat, d: Digit)
    requires j + 1 < |data|
  {
    data[j] == data[|data| - 1] && data[j + 1] == d
  }

  /** Position j, before the last one, holds the last digit. */
  predicate Occurrence(data: seq<Digit>, j: nat)
    requires j + 1 < |data|
  {
    data[j] == data[|data| - 1]
  }

  /** The weighted votes of the occurrences at positions lo .. n - 2. */
  function RecencyTally(data: seq<Digit>, lo: nat): (v: seq<real>)
    requires |data| >= 1
    ensures |v| == 10
    decreases |data| - lo
  {
    if lo + 1 >= |data| then Zeros()
    else
      var rest := RecencyTally(data, lo + 1);
      if data[lo] == data[|data| - 1] then rest[data[lo + 1] := rest[data[lo + 1]] + Weight(data, lo)]
      else rest
  }

  /** The total weight of the occurrences at positions lo .. n - 2. */
  function RecencyTotal(data: seq<Digit>, lo: nat): real
    requires |data| >= 1
    decreases |data| - lo
  {
    if lo + 1 >= |data| then 0.0
    else RecencyTotal(data, lo + 1) + (if data[lo] == data[|data| - 1] then Weight(data, lo) else 0.0)
  }

  /** What `calculateRecencyWeightedMarkov` returns. */
  function RecencyWeighted(data: seq<Digit>): (p: seq<real>)
    ensures |p| == 10
  {
    if |data| < MinLength then Uniform()
    else
      var total := RecencyTotal(data, 0);
      if total > 0.0 then Divide(RecencyTally(data, 0), total) else Uniform()
  }

  /** The backward scan from position n - 2 down to 0. */
  method CalculateRecencyWeightedMarkov(data: seq<Digit>) returns (p: seq<real>)
    ensures p == RecencyWeighted(data)
  {
    if |data| < MinLength {
      return Uniform();
    }
    var predictions := Zeros();
    var lastDigit := data[|data| - 1];
    var totalWeight := 0.0;
    var i := |data| - 2;
    while i >= 0
      invariant -1 <= i <= |data| - 2
      invariant predictions == RecencyTally(data, i + 1)
      invariant totalWeight == RecencyTotal(data, i + 1)
      decreases i
    {
      if data[i] == lastDigit {
        var weight := Pow(Decay, |data| - 2 - i);
        predictions := predictions[data[i + 1] := predictions[data[i + 1]] + weight];
        totalWeight := totalWeight + weight;
      }
      i := i - 1;
    }
    if totalWeight > 0.0 {
      return Divide(predictions, totalWeight);
    }
    return Uniform();
  }

  /** The nearest possible occurrence weighs 1, and a nearer occurrence always weighs
      strictly more than a farther one. */
  lemma RecentWeighsMore(data: seq<Digit>, i: nat, j: nat)
    requires i < j && j + 2 <= |data|
    ensures Weight(data, |data| - 2) == 1.0
    ensures 0.0 < Weight(data, i) < Weight(data, j)
  {
    PowDecreasing(Decay, |data| - 2 - j, |data| - 2 - i);
    PowPositive(Decay, |data| - 2 - i);
  }

  /** The tally holds non-negative votes that add up to the total weight. */
  lemma {:induction false} TallySum(data: seq<Digit>, lo: nat)
    requires |data| >= 1
    ensures NonNegative(RecencyTally(data, lo))
    ensures Sum(RecencyTally(data, lo)) == RecencyTotal(data, lo)
    decreases |data| - lo
  {
    if lo + 1 >= |data| {
      ZerosSum();
    } else {
      TallySum(data, lo + 1);
      var rest := RecencyTally(data, lo + 1);
      if data[lo] == data[|data| - 1] {
        PowPositive(Decay, |data| - 2 - lo);
        SumUpdate(rest, data[lo + 1], rest[data[lo + 1]] + Weight(data, lo));
      }
    }
  }

  /** A digit's vote is positive exactly when it followed some occurrence of the last
      digit at position lo or later. */
  lemma {:induction false} TallySupport(data: seq<Digit>, lo: nat, d: Digit)
    requires |data| >= 1
    ensures RecencyTally(data, lo)[d] > 0.0 <==>
              exists j :: lo <= j < |data| - 1 && LastFollowedBy(data, j, d)
    decreases |data| - lo
  {
    if lo + 1 < |data| {
      TallySupport(data, lo + 1, d);
      TallySum(data, lo + 1);
      if LastFollowedBy(data, lo, d) {
        PowPositive(Decay, |data| - 2 - lo);
      }
    }
  }

  /** The total weight is positive exactly when the last digit occurred at position lo or
      later, before the end. */
  lemma {:induction false} TotalPositive(data: seq<Digit>, lo: nat)
    requires |data| >= 1
    ensures RecencyTotal(data, lo) >= 0.0
    ensures RecencyTotal(data, lo) > 0.0 <==> exists j :: lo <= j < |data| - 1 && Occurrence(data, j)
    decreases |data| - lo
  {
    if lo + 1 < |data| {
      TotalPositive(data, lo + 1);
      PowPositive(Decay, |data| - 2 - lo);
      if exists j :: lo <= j < |data| - 1 && Occurrence(data, j) {
        var j :| lo <= j < |data| - 1 && Occurrence(data, j);
        if j > lo {
          assert lo + 1 <= j < |data| - 1 && Occurrence(data, j);
        }
      }
      if Occurrence(data, lo) {
        assert Weight(data, lo) > 0.0;
      } else {
        assert RecencyTotal(data, lo) == RecencyTotal(data, lo + 1);
      }
    }
  }

  /** The result is always a distribution over the ten digits. */
  lemma RecencyDistribution(data: seq<Digit>)
    ensures IsDistribution(RecencyWeighted(data))
  {
    if |data| >= MinLength && RecencyTotal(data, 0) > 0.0 {
      TallySum(data, 0);
      Normalized(RecencyTally(data, 0));
    } else {
      UniformIsDistribution();
    }
  }

  /** With ten or more digits the uniform fallback is taken exactly when the last digit
      never occurred before; otherwise a digit has positive probability exactly when it
      followed an earlier occurrence of the last digit. */
  lemma FallbackIffLastDigitNew(data: seq<Digit>, d: Digit)
    requires |data| >= MinLength
    ensures RecencyTotal(data, 0) > 0.0 <==> data[|data| - 1] in data[..|data| - 1]
    ensures RecencyTotal(data, 0) > 0.0 ==>
              (RecencyWeighted(data)[d] > 0.0 <==> exists j :: 0 <= j < |data| - 1 && LastFollowedBy(data, j, d))
  {
    var n := |data|;
    TotalPositive(data, 0);
    if data[n - 1] in data[..n - 1] {
      var j :| 0 <= j < n - 1 && data[..n - 1][j] == data[n - 1];
      assert Occurrence(data, j);
    }
    if RecencyTotal(data, 0) > 0.0 {
      var j :| 0 <= j < n - 1 && Occurrence(data, j);
      assert data[..n - 1][j] == data[n - 1];
      TallySupport(data, 0, d);
      var v := RecencyTally(data, 0);
      var t := RecencyTotal(data, 0);
      if v[d] > 0.0 {
        DividePositive(v[d], t);
      } else {
        TallySum(data, 0);
        assert v[d] == 0.0;
      }
    }
  }
}
