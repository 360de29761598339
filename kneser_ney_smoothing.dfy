/**
 * Kneser-Ney smoothing of the order-1 transition row that follows the last digit.
 * Each observed count is reduced by a fixed discount of 0.75. The mass removed this way
 * is shared out in proportion to each digit's continuation count: the number of distinct
 * digits that have been seen immediately before it.
 */
module KneserNeySmoothing {
  import opened Vectors
  import opened HigherOrderMarkov

  const MinLength := 10
  const Discount := 0.75

  /** The pair of digits ending at position i. */
  function PairAt(data: seq<Digit>, i: nat): (Digit, Digit)
    requires 1 <= i < |data|
  {
    (data[i - 1], data[i])
  }

  /** The distinct adjacent pairs (data[i - 1], data[i]) for 1 <= i < m. */
  function PairsBelow(data: seq<Digit>, m: nat): set<(Digit, Digit)>
    requires m <= |data|
  {
    set i | 1 <= i < m :: PairAt(data, i)
  }

  /** The distinct digits recorded immediately before `d` in a set of pairs. */
  function Predecessors(pairs: set<(Digit, Digit)>, d: Digit): set<Digit>
  {
    set p: Digit | 0 <= p < 10 && (p, d) in pairs
  }

  /** The continuation count of every digit over the whole sequence. */
  function Continuations(data: seq<Digit>): (cont: seq<nat>)
    ensures |cont| == 10
  {
    seq(10, d requires 0 <= d < 10 => |Predecessors(PairsBelow(data, |data|), d)|)
  }

  /** `counts.filter(c => c > 0).length` */
  function NonZeroCount(c: seq<nat>): nat
  {
    if c == [] then 0 else NonZeroCount(c[..|c| - 1]) + (if c[|c| - 1] > 0 then 1 else 0)
  }

  /** `Math.max(c - D, 0)` for every slot. */
  function Discounted(c: seq<nat>): (r: seq<real>)
    ensures |r| == |c|
  {
    seq(|c|, i requires 0 <= i < |c| => if c[i] as real - Discount > 0.0 then c[i] as real - Discount else 0.0)
  }

  /** The share of the row's mass freed by discounting: `D * numNonZero / total`. */
  function Freed(counts: seq<nat>): real
    requires Total(counts) >= 1
  {
    Discount * NonZeroCount(counts) as real / Total(counts) as real
  }

  /** The smoothed row: the discounted count over the row total, plus the freed share
      times the digit's share of all continuations. */
  function Smoothed(counts: seq<nat>, cont: seq<nat>): (p: seq<real>)
    requires |counts| == 10 && |cont| == 10
    requires Total(counts) >= 1 && Total(cont) >= 1
    ensures |p| == 10
  {
    AddScaled(Divide(Discounted(counts), Total(counts) as real), Divide(Reals(cont), Total(cont) as real), Freed(counts))
  }

  /** What `calculateKneserNeySmoothing` returns. */
  function KneserNey(data: seq<Digit>, orders: Orders): (p: seq<real>)
    requires WellFormed(orders)
    ensures |p| == 10
  {
    if |data| < MinLength then Uniform()
    else
      var cont := Continuations(data);
      ContinuationTotalPositive(data);
      var last := [data[|data| - 1]];
      if 1 in orders && last in orders[1].transitions then Smoothed(orders[1].transitions[last], cont)
      else Divide(Reals(cont), Total(cont) as real)
  }

  /** The continuation counts. A pair is counted the first time it is seen. */
  method CountContinuations(data: seq<Digit>) returns (cont: seq<nat>)
    requires |data| >= 1
    ensures cont == Continuations(data)
  {
    cont := [0, 0, 0, 0, 0, 0, 0, 0, 0, 0];
    var seen: set<(Digit, Digit)> := {};
    var i := 1;
    while i < |data|
      invariant 1 <= i <= |data|
      invariant seen == PairsBelow(data, i)
      invariant |cont| == 10
      invariant forall d: Digit :: cont[d] == |Predecessors(seen, d)|
    {
      var prev, curr := data[i - 1], data[i];
      assert PairAt(data, i) == (prev, curr);
      assert PairsBelow(data, i + 1) == seen + {(prev, curr)};
      if (prev, curr) !in seen {
        PredecessorsAdd(seen, prev, curr);
        seen := seen + {(prev, curr)};
        cont := cont[curr := cont[curr] + 1];
      }
      i := i + 1;
    }
  }

  method CalculateKneserNeySmoothing(data: seq<Digit>, orders: Orders) returns (p: seq<real>)
    requires WellFormed(orders)
    ensures p == KneserNey(data, orders)
  {
    if |data| < MinLength {
      return Uniform();
    }
    var cont := CountContinuations(data);
    ContinuationTotalPositive(data);
    var totalContinuations := Total(cont) as real;
    var last := [data[|data| - 1]];
    if 1 in orders && last in orders[1].transitions {
      var counts := orders[1].transitions[last];
      var total := Total(counts) as real;
      var numNonZero := NonZeroCount(counts) as real;
      p := [0.0, 0.0, 0.0, 0.0, 0.0, 0.0, 0.0, 0.0, 0.0, 0.0];
      var i := 0;
      while i < 10
        invariant 0 <= i <= 10 && |p| == 10
        invariant forall j :: 0 <= j < i ==> p[j] == Smoothed(counts, cont)[j]
      {
        var discountedCount := if counts[i] as real - Discount > 0.0 then counts[i] as real - Discount else 0.0;
        var backoff := (Discount * numNonZero / total) * (cont[i] as real / totalContinuations);
        assert discountedCount == Discounted(counts)[i];
        p := p[i := discountedCount / total + backoff];
        i := i + 1;
      }
    } else {
      p := Divide(Reals(cont), totalContinuations);
    }
  }

  /** Recording a new pair (a, b) adds `a` to the predecessors of `b` and changes no other digit. */
  lemma PredecessorsAdd(pairs: set<(Digit, Digit)>, a: Digit, b: Digit)
    requires (a, b) !in pairs
    ensures |Predecessors(pairs + {(a, b)}, b)| == |Predecessors(pairs, b)| + 1
    ensures forall d: Digit :: d != b ==> Predecessors(pairs + {(a, b)}, d) == Predecessors(pairs, d)
  {
    assert Predecessors(pairs + {(a, b)}, b) == Predecessors(pairs, b) + {a};
  }

  /** A set of naturals below `m` has at most `m` elements. */
  lemma {:induction false} CardBelow(s: set<int>, m: nat)
    requires forall x :: x in s ==> 0 <= x < m
    ensures |s| <= m
  {
    if m == 0 {
      assert forall x :: x !in s;
      assert s == {};
    } else {
      CardBelow(s - {m - 1}, m - 1);
      if m - 1 in s {
        assert |s - {m - 1}| == |s| - 1;
      } else {
        assert s - {m - 1} == s;
      }
    }
  }

  /** Every continuation count lies between 0 and 10; the digit in second position has a
      positive one, so the continuation total is at least 1 once there are two digits. */
  lemma ContinuationBounds(data: seq<Digit>)
    ensures forall d :: 0 <= d < 10 ==> Continuations(data)[d] <= 10
    ensures |data| >= 2 ==> Continuations(data)[data[1]] >= 1
  {
    forall d | 0 <= d < 10
      ensures Continuations(data)[d] <= 10
    {
      CardBelow(Predecessors(PairsBelow(data, |data|), d), 10);
    }
    if |data| >= 2 {
      assert PairAt(data, 1) in PairsBelow(data, |data|);
      assert data[0] in Predecessors(PairsBelow(data, |data|), data[1]);
    }
  }

  lemma ContinuationTotalPositive(data: seq<Digit>)
    requires |data| >= 2
    ensures Total(Continuations(data)) >= 1
  {
    ContinuationBounds(data);
    RowTotalAtLeastEntry(Continuations(data), data[1]);
  }

  /** The discounted row sums to the row total minus 0.75 per non-zero count. */
  lemma {:induction false} SumDiscounted(c: seq<nat>)
    ensures Sum(Discounted(c)) == Total(c) as real - Discount * NonZeroCount(c) as real
  {
    if c != [] {
      var n := |c|;
      assert Discounted(c)[..n - 1] == Discounted(c[..n - 1]);
      SumDiscounted(c[..n - 1]);
    }
  }

  /** A row with a positive total has a non-zero entry. */
  lemma {:induction false} NonZeroCountPositive(c: seq<nat>)
    requires Total(c) >= 1
    ensures NonZeroCount(c) >= 1
  {
    var n := |c|;
    if c[n - 1] == 0 {
      NonZeroCountPositive(c[..n - 1]);
    }
  }

  /** The smoothed row is a distribution: the discounted mass and the redistributed mass
      add up to exactly one. */
  lemma SmoothedDistribution(counts: seq<nat>, cont: seq<nat>)
    requires |counts| == 10 && |cont| == 10
    requires Total(counts) >= 1 && Total(cont) >= 1
    ensures IsDistribution(Smoothed(counts, cont))
  {
    SmoothedTotal(counts, cont);
    SmoothedNonNegative(counts, cont);
  }

  lemma SmoothedTotal(counts: seq<nat>, cont: seq<nat>)
    requires |counts| == 10 && |cont| == 10
    requires Total(counts) >= 1 && Total(cont) >= 1
    ensures Sum(Smoothed(counts, cont)) == 1.0
  {
    var total := Total(counts) as real;
    var w := Freed(counts);
    var a := Divide(Discounted(counts), total);
    var b := Divide(Reals(cont), Total(cont) as real);
    SumAddScaled(a, b, w);
    SumDivide(Discounted(counts), total);
    SumDiscounted(counts);
    NormalizedCounts(cont);
    ShareAddsUp(total, Discount * NonZeroCount(counts) as real);
  }

  lemma SmoothedNonNegative(counts: seq<nat>, cont: seq<nat>)
    requires |counts| == 10 && |cont| == 10
    requires Total(counts) >= 1 && Total(cont) >= 1
    ensures NonNegative(Smoothed(counts, cont))
  {
    var total := Total(counts) as real;
    var a := Divide(Discounted(counts), total);
    var b := Divide(Reals(cont), Total(cont) as real);
    forall i | 0 <= i < 10
      ensures a[i] >= 0.0
    {
      DivideNonNegative(Discounted(counts)[i], total);
    }
    NormalizedCounts(cont);
    DivideNonNegative(Discount * NonZeroCount(counts) as real, total);
    AddScaledNonNegative(a, b, Freed(counts));
  }

  /** A non-negative tally with a positive total normalises to a distribution. */
  lemma NormalizedCounts(cont: seq<nat>)
    requires |cont| == 10 && Total(cont) >= 1
    ensures IsDistribution(Divide(Reals(cont), Total(cont) as real))
  {
    SumReals(cont);
    Normalized(Reals(cont));
  }

  /** What is kept plus what is freed is the whole. */
  lemma ShareAddsUp(t: real, y: real)
    requires t > 0.0
    ensures (t - y) / t + 1.0 * (y / t) == 1.0
  {
    assert (t - y) / t + y / t == t / t;
  }

  /** Whatever the branch, the result is a distribution over the ten digits. */
  lemma KneserNeyDistribution(data: seq<Digit>, orders: Orders)
    requires WellFormed(orders)
    ensures IsDistribution(KneserNey(data, orders))
  {
    if |data| < MinLength {
      UniformIsDistribution();
    } else {
      var cont := Continuations(data);
      ContinuationTotalPositive(data);
      var last := [data[|data| - 1]];
      if 1 in orders && last in orders[1].transitions {
        SmoothedDistribution(orders[1].transitions[last], cont);
      } else {
        SumReals(cont);
        Normalized(Reals(cont));
      }
    }
  }

  /** A digit never seen after the last digit keeps probability only through its
      continuation count: it gets positive mass exactly when it has one. */
  lemma UnseenFollower(counts: seq<nat>, cont: seq<nat>, i: nat)
    requires |counts| == 10 && |cont| == 10
    requires Total(counts) >= 1 && Total(cont) >= 1
    requires i < 10 && counts[i] == 0
    ensures Smoothed(counts, cont)[i] > 0.0 <==> cont[i] > 0
  {
    NonZeroCountPositive(counts);
    var w := Freed(counts);
    DividePositive(Discount * NonZeroCount(counts) as real, Total(counts) as real);
    var share := cont[i] as real / Total(cont) as real;
    assert Smoothed(counts, cont)[i] == 0.0 / Total(counts) as real + share * w;
    if cont[i] > 0 {
      DividePositive(cont[i] as real, Total(cont) as real);
      MultiplyPositive(share, w);
    } else {
      assert share == 0.0;
    }
  }

  /** A digit seen after the last digit always keeps positive probability. */
  lemma SeenFollower(counts: seq<nat>, cont: seq<nat>, i: nat)
    requires |counts| == 10 && |cont| == 10
    requires Total(counts) >= 1 && Total(cont) >= 1
    requires i < 10 && counts[i] > 0
    ensures Smoothed(counts, cont)[i] > 0.0
  {
    var share := cont[i] as real / Total(cont) as real;
    DivideNonNegative(Discount * NonZeroCount(counts) as real, Total(counts) as real);
    DivideNonNegative(cont[i] as real, Total(cont) as real);
    MultiplyNonNegative(share, Freed(counts));
    DividePositive(Discounted(counts)[i], Total(counts) as real);
  }

  /** On the builder's tables the smoothed branch is taken exactly when the last digit
      occurred earlier; otherwise the normalised continuation counts are returned. */
  lemma BranchOnBuilderTables(data: seq<Digit>)
    requires |data| >= MinLength
    ensures WellFormed(Markov(data))
    ensures 1 in Markov(data)
    ensures [data[|data| - 1]] in Markov(data)[1].transitions <==> data[|data| - 1] in data[..|data| - 1]
  {
    MarkovShape(data);
    var n := |data|;
    TransitionRows(data, 1);
    if data[n - 1] in data[..n - 1] {
      var i :| 0 <= i < n - 1 && data[..n - 1][i] == data[n - 1];
      assert Window(data, i, 1) == [data[n - 1]];
    }
    if [data[n - 1]] in Markov(data)[1].transitions {
      var i :| 0 <= i < n - 1 && Window(data, i, 1) == [data[n - 1]];
      assert data[..n - 1][i] == data[n - 1];
    }
  }
}
