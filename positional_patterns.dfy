/**
 * Positional patterns: sample the positions that share the current phase of a cycle
 * (default length 60), i.e. position n mod c and every c-th position after it, and count
 * the digits that followed them.
 */
module PositionalPatterns {
  import opened Vectors

  const DefaultCycle := 60

  /** Counts of the digits that follow the sampled positions i, i + c, i + 2c, ... below n - 1. */
  function PositionalTally(data: seq<Digit>, c: nat, i: nat): (t: seq<nat>)
    requires c > 0
    ensures |t| == 10
    decreases |data| - i
  {
    if i + 1 >= |data| then EmptyRow()
    else
      var rest := PositionalTally(data, c, i + c);
      rest[data[i + 1] := rest[data[i + 1]] + 1]
  }

  /** What `calculatePositionalPatterns(data, cycleLength)` returns. A cycle length of 0 makes
      the phase `n % 0` NaN, so no position is sampled and the uniform fallback results. */
  function Positional(data: seq<Digit>, c: nat): (p: seq<real>)
    ensures |p| == 10
  {
    if |data| < c || c == 0 then Uniform()
    else NormalizeOrUniform(Reals(PositionalTally(data, c, |data| % c)))
  }

  method CalculatePositionalPatterns(data: seq<Digit>, cycleLength: nat) returns (p: seq<real>)
    ensures p == Positional(data, cycleLength)
  {
    if |data| < cycleLength || cycleLength == 0 {
      return Uniform();
    }
    var predictions := EmptyRow();
    var position := |data| % cycleLength;
    var i := position;
    while i < |data| - 1
      invariant |predictions| == 10
      invariant forall d :: 0 <= d < 10 ==>
                  predictions[d] + PositionalTally(data, cycleLength, i)[d] ==
                  PositionalTally(data, cycleLength, position)[d]
      decreases |data| - i
    {
      if i < |data| - 1 {
        predictions := predictions[data[i + 1] := predictions[data[i + 1]] + 1];
      }
      i := i + cycleLength;
    }
    assert predictions == PositionalTally(data, cycleLength, position);
    var counts := Reals(predictions);
    var total := Sum(counts);
    if total > 0.0 {
      p := Divide(counts, total);
    } else {
      p := Uniform();
    }
  }

  /** The number of sampled positions i, i + c, ... below n - 1. */
  function Samples(n: nat, c: nat, i: nat): nat
    requires c > 0
  {
    if i + 1 >= n then 0 else (n - 2 - i) / c + 1
  }

  /** A quotient is determined by any decomposition with a remainder in range. */
  lemma DivUnique(x: int, c: int, q: int, r: int)
    requires c > 0 && 0 <= r < c && x == q * c + r
    ensures x / c == q
  {
    var q', r' := x / c, x % c;
    assert x == q' * c + r';
    if q' > q {
      assert (q' - q) * c == r - r';
      MultiplyAtLeast(q' - q, c);
    } else if q' < q {
      assert (q - q') * c == r' - r;
      MultiplyAtLeast(q - q', c);
    }
  }

  lemma MultiplyAtLeast(k: int, c: int)
    requires k >= 1 && c > 0
    ensures k * c >= c
  {
  }

  /** Skipping one cycle ahead removes exactly one sample. */
  lemma SamplesStep(n: nat, c: nat, i: nat)
    requires c > 0 && i + 1 < n
    ensures Samples(n, c, i) == Samples(n, c, i + c) + 1
  {
    var x := n - 2 - i;
    if i + c + 1 < n {
      var q, r := (x - c) / c, (x - c) % c;
      assert x - c == q * c + r;
      assert x == (q + 1) * c + r;
      DivUnique(x, c, q + 1, r);
    } else {
      DivUnique(x, c, 0, x);
    }
  }

  /** Every sample contributes exactly one count. */
  lemma {:induction false} TallyTotal(data: seq<Digit>, c: nat, i: nat)
    requires c > 0
    ensures Total(PositionalTally(data, c, i)) == Samples(|data|, c, i)
    decreases |data| - i
  {
    if i + 1 >= |data| {
      TotalZeros(EmptyRow());
    } else {
      TallyTotal(data, c, i + c);
      var rest := PositionalTally(data, c, i + c);
      TotalUpdate(rest, data[i + 1], rest[data[i + 1]] + 1);
      SamplesStep(|data|, c, i);
    }
  }

  /** The phase n mod c leaves at least one sample once there are two digits. */
  lemma PhaseSampled(n: nat, c: nat)
    requires 0 < c <= n && 2 <= n
    ensures n % c + 1 < n
  {
    var q, r := n / c, n % c;
    assert n == q * c + r;
    QuotientPositive(n, c);
    MultiplyAtLeast(q, c);
  }

  /** At least one full cycle gives a quotient of at least one. */
  lemma QuotientPositive(n: nat, c: nat)
    requires 0 < c <= n
    ensures n / c >= 1
  {
    DivUnique(n, c, (n - c) / c + 1, (n - c) % c);
  }

  /** With a cycle of at least two and at least one full cycle of history, exactly
      `n / c` positions are sampled. */
  lemma SampleCount(data: seq<Digit>, c: nat)
    requires 2 <= c <= |data|
    ensures Total(PositionalTally(data, c, |data| % c)) == |data| / c
  {
    var n := |data|;
    TallyTotal(data, c, n % c);
    PhaseSampled(n, c);
    var q, r := n / c, n % c;
    assert n == q * c + r;
    assert n - 2 - r == (q - 1) * c + (c - 2);
    DivUnique(n - 2 - r, c, q - 1, c - 2);
  }

  /** Tallied counts read as reals are never negative. */
  lemma CountsNonNegative(t: seq<nat>)
    ensures NonNegative(Reals(t))
  {
  }

  /** The result is always a distribution. */
  lemma PositionalDistribution(data: seq<Digit>, c: nat)
    ensures IsDistribution(Positional(data, c))
  {
    if |data| < c || c == 0 {
      UniformIsDistribution();
    } else {
      var t := PositionalTally(data, c, |data| % c);
      CountsNonNegative(t);
      NormalizeOrUniformFacts(Reals(t), 0);
    }
  }

  /** Once the cycle fits and there are two digits, some position is sampled, so the
      normalised tally rather than the fallback is returned. */
  lemma PositionalSampled(data: seq<Digit>, c: nat)
    requires 0 < c <= |data| && 2 <= |data|
    ensures Sum(Reals(PositionalTally(data, c, |data| % c))) >= 1.0
  {
    var t := PositionalTally(data, c, |data| % c);
    PhaseSampled(|data|, c);
    TallyTotal(data, c, |data| % c);
    SumReals(t);
  }

  /** The one-hot vector at x. */
  function OneHot(x: Digit): (v: seq<real>)
    ensures |v| == 10
  {
    seq(10, d requires 0 <= d < 10 => if d == x then 1.0 else 0.0)
  }

  /** The history repeats with period c. */
  predicate Periodic(data: seq<Digit>, c: nat)
  {
    forall j :: 0 <= j < |data| - c ==> data[j] == data[j + c]
  }

  /** In a periodic history every sample from i on is followed by the same digit. */
  lemma {:induction false} PeriodicTally(data: seq<Digit>, c: nat, i: nat)
    requires c > 0 && Periodic(data, c) && i + 1 < |data|
    ensures forall d :: 0 <= d < 10 && d != data[i + 1] ==> PositionalTally(data, c, i)[d] == 0
    decreases |data| - i
  {
    if i + c + 1 < |data| {
      assert data[i + 1] == data[i + 1 + c];
      PeriodicTally(data, c, i + c);
    }
  }

  /** A history with period c yields certainty for the digit that follows the current
      phase. */
  lemma PeriodicOneHot(data: seq<Digit>, c: nat)
    requires 0 < c <= |data| && 2 <= |data|
    requires Periodic(data, c)
    ensures |data| % c + 1 < |data|
    ensures Positional(data, c) == OneHot(data[|data| % c + 1])
  {
    var p := |data| % c;
    PhaseSampled(|data|, c);
    PeriodicTally(data, c, p);
    PositionalSampled(data, c);
    SumReals(PositionalTally(data, c, p));
    NormalizeSingle(PositionalTally(data, c, p), data[p + 1]);
  }

  /** A tally that is zero everywhere but at x normalises to the one-hot vector at x. */
  lemma NormalizeSingle(t: seq<nat>, x: Digit)
    requires |t| == 10 && Total(t) > 0
    requires forall d :: 0 <= d < 10 && d != x ==> t[d] == 0
    ensures NormalizeOrUniform(Reals(t)) == OneHot(x)
  {
    var v := Reals(t);
    SumOfSingle(t, x);
    SumReals(t);
    forall d | 0 <= d < 10
      ensures Divide(v, Sum(v))[d] == OneHot(x)[d]
    {
      if d == x {
        DivideSelf(Sum(v));
      }
    }
  }

  /** A tally that is zero everywhere but at x totals its entry at x. */
  lemma SumOfSingle(t: seq<nat>, x: Digit)
    requires |t| == 10
    requires forall d :: 0 <= d < 10 && d != x ==> t[d] == 0
    ensures Total(t) == t[x]
  {
    assert t == EmptyRow()[x := t[x]];
    TotalZeros(EmptyRow());
    TotalUpdate(EmptyRow(), x, t[x]);
  }
}
