/**
 * Ten-slot score vectors, the shared vocabulary of every estimator:
 * digits, sums, normalisation and the geometric decay used for recency.
 * All ratios are exact rationals (`real`); floating-point rounding is not modelled.
 */
module Vectors {

  /** An explicit "absent" result in place of JavaScript's null and optional chaining. */
  datatype Option<+T> = None | Some(value: T)

  /** One element of the input sequence: the ingestion boundary only lets 0..9 through. */
  type Digit = d: int | 0 <= d <= 9

  /** The fallback every estimator returns when it has too little data: ten entries of 0.1. */
  function Uniform(): seq<real> { seq(10, _ => 0.1) }

  /** A ten-slot vector of zeros, used where a missing context contributes nothing. */
  function Zeros(): seq<real> { seq(10, _ => 0.0) }

  /** A ten-slot tally with nothing counted yet: `Array(10).fill(0)`. */
  function EmptyRow(): seq<nat> { seq(10, _ => 0) }

  /** Sum of a real vector, accumulated left to right as `reduce((a, b) => a + b, 0)` does. */
  function Sum(s: seq<real>): real
  {
    if s == [] then 0.0 else Sum(s[..|s| - 1]) + s[|s| - 1]
  }

  /** Sum of an integer vector (tallies and counts). */
  function Total(c: seq<int>): int
  {
    if c == [] then 0 else Total(c[..|c| - 1]) + c[|c| - 1]
  }

  predicate NonNegative(v: seq<real>)
  {
    forall i :: 0 <= i < |v| ==> v[i] >= 0.0
  }

  /** A probability vector over the ten digits. */
  predicate IsDistribution(v: seq<real>)
  {
    |v| == 10 && NonNegative(v) && Sum(v) == 1.0
  }

  /** Every entry divided by `t`: `v.map(x => x / t)`. */
  function Divide(v: seq<real>, t: real): (r: seq<real>)
    requires t != 0.0
    ensures |r| == |v|
  {
    seq(|v|, i requires 0 <= i < |v| => v[i] / t)
  }

  /** An integer tally read as reals. */
  function Reals(c: seq<int>): (r: seq<real>)
    ensures |r| == |c|
  {
    seq(|c|, i requires 0 <= i < |c| => c[i] as real)
  }

  /** `total > 0 ? v.map(x => x / total) : Array(10).fill(0.1)`: the normalised vector,
      or the uniform fallback when nothing was tallied. */
  function NormalizeOrUniform(v: seq<real>): (r: seq<real>)
    requires |v| == 10
    ensures |r| == 10
  {
    if Sum(v) > 0.0 then Divide(v, Sum(v)) else Uniform()
  }

  /** `a[i] + b[i] * w` for every slot: one model's contribution added to an accumulator. */
  function AddScaled(a: seq<real>, b: seq<real>, w: real): (r: seq<real>)
    requires |a| == |b|
    ensures |r| == |a|
  {
    seq(|a|, i requires 0 <= i < |a| => a[i] + b[i] * w)
  }

  /** `Math.max(...v)`: the largest entry of a non-empty vector. */
  function Max(v: seq<real>): (m: real)
    requires |v| > 0
    ensures m in v
    ensures forall i :: 0 <= i < |v| ==> v[i] <= m
  {
    if |v| == 1 then v[0]
    else
      var m' := Max(v[..|v| - 1]);
      assert forall i :: 0 <= i < |v| - 1 ==> v[..|v| - 1][i] == v[i];
      if v[|v| - 1] > m' then v[|v| - 1] else m'
  }

  /** `r` raised to the natural power `k`. */
  function Pow(r: real, k: nat): real
  {
    if k == 0 then 1.0 else r * Pow(r, k - 1)
  }

  lemma SumLast(s: seq<real>, k: nat)
    requires k < |s|
    ensures Sum(s[..k + 1]) == Sum(s[..k]) + s[k]
  {
    assert s[..k + 1][..k] == s[..k];
  }

  lemma TotalLast(c: seq<int>, k: nat)
    requires k < |c|
    ensures Total(c[..k + 1]) == Total(c[..k]) + c[k]
  {
    assert c[..k + 1][..k] == c[..k];
  }

  /** Changing one entry changes the sum by the difference. */
  lemma {:induction false} SumUpdate(s: seq<real>, i: nat, x: real)
    requires i < |s|
    ensures Sum(s[i := x]) == Sum(s) - s[i] + x
  {
    var n := |s|;
    if i < n - 1 {
      assert s[i := x][..n - 1] == s[..n - 1][i := x];
      SumUpdate(s[..n - 1], i, x);
    } else {
      assert s[i := x][..n - 1] == s[..n - 1];
    }
  }

  lemma {:induction false} TotalUpdate(c: seq<int>, i: nat, x: int)
    requires i < |c|
    ensures Total(c[i := x]) == Total(c) - c[i] + x
  {
    var n := |c|;
    if i < n - 1 {
      assert c[i := x][..n - 1] == c[..n - 1][i := x];
      TotalUpdate(c[..n - 1], i, x);
    } else {
      assert c[i := x][..n - 1] == c[..n - 1];
    }
  }

  /** No single count exceeds the total. */
  lemma {:induction false} RowTotalAtLeastEntry(row: seq<nat>, d: nat)
    requires d < |row|
    ensures Total(row) >= row[d]
  {
    var n := |row|;
    TotalNonNegative(row[..n - 1]);
    if d < n - 1 {
      RowTotalAtLeastEntry(row[..n - 1], d);
    }
  }

  /** Counts add up to a non-negative total. */
  lemma {:induction false} TotalNonNegative(row: seq<nat>)
    ensures Total(row) >= 0
  {
    if row != [] {
      TotalNonNegative(row[..|row| - 1]);
    }
  }

  lemma {:induction false} TotalZeros(z: seq<nat>)
    requires forall i :: 0 <= i < |z| ==> z[i] == 0
    ensures Total(z) == 0
  {
    if z != [] {
      TotalZeros(z[..|z| - 1]);
    }
  }

  lemma {:induction false} SumDivide(v: seq<real>, t: real)
    requires t != 0.0
    ensures Sum(Divide(v, t)) == Sum(v) / t
  {
    if v != [] {
      var n := |v|;
      assert Divide(v, t)[..n - 1] == Divide(v[..n - 1], t);
      SumDivide(v[..n - 1], t);
    }
  }

  lemma {:induction false} SumReals(c: seq<int>)
    ensures Sum(Reals(c)) == Total(c) as real
  {
    if c != [] {
      var n := |c|;
      assert Reals(c)[..n - 1] == Reals(c[..n - 1]);
      SumReals(c[..n - 1]);
    }
  }

  lemma {:induction false} SumNonNegative(v: seq<real>)
    requires NonNegative(v)
    ensures Sum(v) >= 0.0
    ensures forall i :: 0 <= i < |v| ==> v[i] <= Sum(v)
  {
    if v != [] {
      var n := |v|;
      SumNonNegative(v[..n - 1]);
      assert forall i :: 0 <= i < n - 1 ==> v[..n - 1][i] == v[i];
    }
  }

  lemma {:induction false} SumAddScaled(a: seq<real>, b: seq<real>, w: real)
    requires |a| == |b|
    ensures Sum(AddScaled(a, b, w)) == Sum(a) + Sum(b) * w
  {
    if a != [] {
      var n := |a|;
      var a', b' := a[..n - 1], b[..n - 1];
      forall i | 0 <= i < n - 1
        ensures AddScaled(a, b, w)[..n - 1][i] == AddScaled(a', b', w)[i]
      {
      }
      assert AddScaled(a, b, w)[..n - 1] == AddScaled(a', b', w);
      SumAddScaled(a[..n - 1], b[..n - 1], w);
      assert Sum(b) * w == Sum(b[..n - 1]) * w + b[n - 1] * w;
    }
  }

  /** A vector of `n` copies of `c` sums to `n * c`. */
  lemma {:induction false} SumConstant(v: seq<real>, c: real)
    requires forall i :: 0 <= i < |v| ==> v[i] == c
    ensures Sum(v) == |v| as real * c
  {
    if v != [] {
      SumConstant(v[..|v| - 1], c);
    }
  }

  lemma UniformIsDistribution()
    ensures IsDistribution(Uniform())
  {
    SumConstant(Uniform(), 0.1);
  }

  lemma ZerosSum()
    ensures Sum(Zeros()) == 0.0
  {
    SumConstant(Zeros(), 0.0);
  }

  /** Dividing a non-negative vector by its own positive sum yields a distribution. */
  lemma Normalized(v: seq<real>)
    requires |v| == 10 && NonNegative(v) && Sum(v) > 0.0
    ensures IsDistribution(Divide(v, Sum(v)))
  {
    var t := Sum(v);
    SumDivide(v, t);
    DivideSelf(t);
    forall i | 0 <= i < 10 ensures Divide(v, t)[i] >= 0.0 {
      DivideNonNegative(v[i], t);
    }
  }

  /** Normalising keeps exactly the positive entries positive. */
  lemma NormalizedSupport(v: seq<real>, i: nat)
    requires NonNegative(v) && Sum(v) > 0.0 && i < |v|
    ensures Divide(v, Sum(v))[i] > 0.0 <==> v[i] > 0.0
  {
    if v[i] > 0.0 {
      DividePositive(v[i], Sum(v));
    } else {
      assert v[i] == 0.0;
    }
  }

  /** A non-negative tally normalises to a distribution; outside the fallback exactly its
      positive entries stay positive. */
  lemma NormalizeOrUniformFacts(v: seq<real>, i: nat)
    requires |v| == 10 && NonNegative(v) && i < 10
    ensures IsDistribution(NormalizeOrUniform(v))
    ensures Sum(v) > 0.0 ==> (NormalizeOrUniform(v)[i] > 0.0 <==> v[i] > 0.0)
  {
    if Sum(v) > 0.0 {
      Normalized(v);
      NormalizedSupport(v, i);
    } else {
      UniformIsDistribution();
    }
  }

  lemma DivideSelf(t: real)
    requires t > 0.0
    ensures t / t == 1.0
  {
  }

  lemma DivideNonNegative(x: real, t: real)
    requires x >= 0.0 && t > 0.0
    ensures x / t >= 0.0
  {
  }


  /** The sum of a vector never exceeds its length times its largest entry, and reaches
      it only when every entry equals that bound. */
  lemma {:induction false} SumBelowBound(v: seq<real>, b: real)
    requires forall i :: 0 <= i < |v| ==> v[i] <= b
    ensures Sum(v) <= |v| as real * b
    ensures Sum(v) == |v| as real * b ==> forall i :: 0 <= i < |v| ==> v[i] == b
  {
    if v != [] {
      var n := |v|;
      assert forall i :: 0 <= i < n - 1 ==> v[..n - 1][i] == v[i];
      SumBelowBound(v[..n - 1], b);
    }
  }

  /** A ten-digit distribution always has an entry of at least 0.1, and its largest entry is
      exactly 0.1 only for the uniform vector. */
  lemma MaxOfDistribution(v: seq<real>)
    requires IsDistribution(v)
    ensures Max(v) >= 0.1
    ensures Max(v) == 0.1 <==> v == Uniform()
  {
    var m := Max(v);
    SumBelowBound(v, m);
    if m == 0.1 {
      assert forall i :: 0 <= i < 10 ==> v[i] == Uniform()[i];
    }
    if v == Uniform() {
      assert Uniform()[0] == 0.1;
      assert m == 0.1;
    }
  }

  lemma DividePositive(x: real, t: real)
    requires x > 0.0 && t > 0.0
    ensures x / t > 0.0
  {
  }

  lemma MultiplyNonNegative(a: real, b: real)
    requires a >= 0.0 && b >= 0.0
    ensures a * b >= 0.0
  {
  }

  /** Adding a non-negative multiple of a non-negative vector keeps every entry non-negative. */
  lemma AddScaledNonNegative(a: seq<real>, b: seq<real>, w: real)
    requires |a| == |b| && NonNegative(a) && NonNegative(b) && w >= 0.0
    ensures NonNegative(AddScaled(a, b, w))
  {
    forall i | 0 <= i < |a|
      ensures AddScaled(a, b, w)[i] >= 0.0
    {
      MultiplyNonNegative(b[i], w);
    }
  }

  lemma MultiplyPositive(a: real, b: real)
    requires a > 0.0 && b > 0.0
    ensures a * b > 0.0
  {
  }

  lemma {:induction false} PowPositive(r: real, k: nat)
    requires r > 0.0
    ensures Pow(r, k) > 0.0
  {
    if k > 0 {
      PowPositive(r, k - 1);
      MultiplyPositive(r, Pow(r, k - 1));
    }
  }

  /** One more factor of a ratio in (0, 1) makes a power strictly smaller. */
  lemma PowStep(r: real, k: nat)
    requires 0.0 < r < 1.0 && k > 0
    ensures Pow(r, k) < Pow(r, k - 1)
  {
    var p := Pow(r, k - 1);
    PowPositive(r, k - 1);
    MultiplyPositive(1.0 - r, p);
    assert Pow(r, k) == r * p;
    assert p - r * p == (1.0 - r) * p;
  }

  /** For a ratio in (0, 1) a larger exponent gives a strictly smaller power. */
  lemma {:induction false} PowDecreasing(r: real, j: nat, k: nat)
    requires 0.0 < r < 1.0
    requires j < k
    ensures Pow(r, k) < Pow(r, j)
  {
    PowStep(r, k);
    if j < k - 1 {
      PowDecreasing(r, j, k - 1);
    }
  }
}
