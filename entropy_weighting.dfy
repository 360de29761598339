/**
 * Entropy weighting: count the digits of the last w draws, take the Shannon entropy (base 2)
 * of their relative frequencies, normalise it by log2(10), and split the ensemble's trust
 * between the pattern-based predictors (low entropy) and the frequency-based ones (high
 * entropy).
 *
 * `Math.log2` is a parameter `log2`; the model relies only on the facts `IsLog2` lists.
 */
module EntropyWeighting {
  import opened Vectors

  const DefaultWindow := 20

  /** What `calculateEntropyWeighting` returns. */
  datatype Weighting = Weighting(entropy: real, patternWeight: real, frequencyWeight: real)

  /** The facts about `Math.log2` the model uses: log2(1) = 0, log2(10) > 0, the logarithm
      of a probability is never positive, the logarithm of a product is the sum of the
      logarithms, and the logarithm lies below its tangent at 1 (slope c = 1 / ln 2). */
  ghost predicate IsLog2(log2: real -> real)
  {
    log2(1.0) == 0.0 && log2(10.0) > 0.0 &&
    (forall p :: 0.0 < p <= 1.0 ==> log2(p) <= 0.0) &&
    (forall x, y :: ProductRule(log2, x, y)) &&
    exists c :: TangentBound(log2, c)
  }

  ghost predicate ProductRule(log2: real -> real, x: real, y: real)
  {
    x > 0.0 && y > 0.0 ==> log2(x * y) == log2(x) + log2(y)
  }

  /** log2(z) <= c * (z - 1) for every z > 0, with a positive slope c. */
  ghost predicate TangentBound(log2: real -> real, c: real)
  {
    c > 0.0 && forall z :: UnderTangent(log2, c, z)
  }

  ghost predicate UnderTangent(log2: real -> real, c: real, z: real)
  {
    z > 0.0 ==> log2(z) <= c * (z - 1.0)
  }

  /** The digit counts of s: slot d holds how often d occurs. */
  function Frequencies(s: seq<Digit>): (f: seq<nat>)
    ensures |f| == 10
  {
    if s == [] then EmptyRow()
    else
      var f := Frequencies(s[..|s| - 1]);
      f[s[|s| - 1] := f[s[|s| - 1]] + 1]
  }

  /** The Shannon entropy of the proportions `x / scale`, folded left to right; a zero
      entry is skipped, as `0 * log2(0)` would otherwise be NaN. The same fold computes the
      ensemble's entropy over its percentages. */
  function Entropy(xs: seq<real>, scale: real, log2: real -> real): real
    requires scale != 0.0
  {
    if xs == [] then 0.0
    else
      var ent := Entropy(xs[..|xs| - 1], scale, log2);
      var x := xs[|xs| - 1];
      if x == 0.0 then ent else ent - (x / scale) * log2(x / scale)
  }

  /** What `calculateEntropyWeighting(data, w)` returns. */
  function EntropyWeights(data: seq<Digit>, w: nat, log2: real -> real): Weighting
    requires w > 0 && IsLog2(log2)
  {
    if |data| < w then Weighting(0.5, 0.5, 0.5)
    else
      var freq := Frequencies(data[|data| - w..]);
      var normalized := Entropy(Reals(freq), w as real, log2) / log2(10.0);
      Weighting(normalized, 1.0 - normalized, normalized)
  }

  method CalculateEntropyWeighting(data: seq<Digit>, windowSize: nat, log2: real -> real) returns (r: Weighting)
    requires windowSize > 0 && IsLog2(log2)
    ensures r == EntropyWeights(data, windowSize, log2)
  {
    if |data| < windowSize {
      return Weighting(0.5, 0.5, 0.5);
    }
    var recent := data[|data| - windowSize..];
    var freq := EmptyRow();
    var j := 0;
    while j < |recent|
      invariant 0 <= j <= |recent|
      invariant freq == Frequencies(recent[..j])
    {
      assert recent[..j + 1][..j] == recent[..j];
      freq := freq[recent[j] := freq[recent[j]] + 1];
      j := j + 1;
    }
    assert recent[..j] == recent;
    var entropy := Entropy(Reals(freq), windowSize as real, log2);
    var maxEntropy := log2(10.0);
    var normalizedEntropy := entropy / maxEntropy;
    r := Weighting(normalizedEntropy, 1.0 - normalizedEntropy, normalizedEntropy);
  }

  /** Slot d counts the occurrences of d, and the counts add up to the length of s. */
  lemma FrequenciesCount(s: seq<Digit>)
    ensures forall d :: 0 <= d < 10 ==> Frequencies(s)[d] == multiset(s)[d]
    ensures Total(Frequencies(s)) == |s|
  {
    FrequenciesMultiplicity(s);
    FrequenciesTotal(s);
  }

  lemma {:induction false} FrequenciesMultiplicity(s: seq<Digit>)
    ensures forall d :: 0 <= d < 10 ==> Frequencies(s)[d] == multiset(s)[d]
  {
    if s != [] {
      var init, last := s[..|s| - 1], s[|s| - 1];
      FrequenciesMultiplicity(init);
      assert s == init + [last];
      assert multiset(s) == multiset(init) + multiset{last};
    }
  }

  lemma {:induction false} FrequenciesTotal(s: seq<Digit>)
    ensures Total(Frequencies(s)) == |s|
  {
    if s == [] {
      TotalZeros(EmptyRow());
    } else {
      var init, last := s[..|s| - 1], s[|s| - 1];
      FrequenciesTotal(init);
      var f := Frequencies(init);
      TotalUpdate(f, last, f[last] + 1);
    }
  }

  /** A zero entry contributes nothing, wherever it stands. */
  lemma {:induction false} ZeroContributesNothing(a: seq<real>, b: seq<real>, scale: real, log2: real -> real)
    requires scale != 0.0
    ensures Entropy(a + [0.0] + b, scale, log2) == Entropy(a + b, scale, log2)
  {
    if b == [] {
      assert (a + [0.0])[..|a|] == a;
      assert a + [0.0] + b == a + [0.0];
      assert a + b == a;
    } else {
      var init := b[..|b| - 1];
      ZeroContributesNothing(a, init, scale, log2);
      assert (a + [0.0] + b)[..|a + [0.0] + b| - 1] == a + [0.0] + init;
      assert (a + b)[..|a + b| - 1] == a + init;
    }
  }

  /** Entropy of proportions in [0, 1] is never negative. */
  lemma {:induction false} EntropyNonNegative(xs: seq<real>, scale: real, log2: real -> real)
    requires scale > 0.0 && IsLog2(log2)
    requires forall i :: 0 <= i < |xs| ==> 0.0 <= xs[i] <= scale
    ensures Entropy(xs, scale, log2) >= 0.0
  {
    if xs != [] {
      EntropyNonNegative(xs[..|xs| - 1], scale, log2);
      var x := xs[|xs| - 1];
      if x != 0.0 {
        ProportionAtMostOne(x, scale);
        MultiplyNonPositive(x / scale, log2(x / scale));
      }
    }
  }

  lemma ProportionAtMostOne(x: real, scale: real)
    requires 0.0 < x <= scale
    ensures 0.0 < x / scale <= 1.0
  {
  }

  lemma MultiplyNonPositive(p: real, l: real)
    requires p > 0.0 && l <= 0.0
    ensures p * l <= 0.0
  {
  }

  /** When every entry is 0 or the whole scale, every term is 0 and so is the entropy. */
  lemma {:induction false} CertainEntropy(xs: seq<real>, scale: real, log2: real -> real)
    requires scale != 0.0 && IsLog2(log2)
    requires forall i :: 0 <= i < |xs| ==> xs[i] == 0.0 || xs[i] == scale
    ensures Entropy(xs, scale, log2) == 0.0
  {
    if xs != [] {
      CertainEntropy(xs[..|xs| - 1], scale, log2);
      CertainTerm(xs[|xs| - 1], scale, log2);
    }
  }

  /** The term of a proportion that is 0 or 1 vanishes. */
  lemma CertainTerm(x: real, scale: real, log2: real -> real)
    requires scale != 0.0 && IsLog2(log2) && (x == 0.0 || x == scale)
    ensures x == 0.0 || (x / scale) * log2(x / scale) == 0.0
  {
    if x != 0.0 {
      assert x / scale == 1.0;
    }
  }

  /** One entropy term of a proportion p > 0 is at most p * log2(10) + c * (1/10 - p): the
      tangent bound taken at 1 / (10 p). */
  lemma TermBound(p: real, c: real, log2: real -> real)
    requires p > 0.0 && IsLog2(log2) && TangentBound(log2, c)
    ensures -(p * log2(p)) <= p * log2(10.0) + c * (0.1 - p)
  {
    var z := 1.0 / (10.0 * p);
    assert (10.0 * p) * z == 1.0;
    assert ProductRule(log2, 10.0 * p, z);
    assert ProductRule(log2, 10.0, p);
    assert UnderTangent(log2, c, z);
    TermArithmetic(p, z, c, log2(10.0), log2(p), log2(z));
  }

  /** The arithmetic of `TermBound`, with the three logarithms as plain numbers. */
  lemma TermArithmetic(p: real, z: real, c: real, l10: real, lp: real, lz: real)
    requires p > 0.0 && (10.0 * p) * z == 1.0
    requires lz == -l10 - lp && lz <= c * (z - 1.0)
    ensures -(p * lp) <= p * l10 + c * (0.1 - p)
  {
    MultiplyAtMost(p, lz, c * (z - 1.0));
    assert p * z == 0.1;
    assert p * (c * (z - 1.0)) == c * (p * z) - c * p;
  }

  lemma MultiplyAtMost(p: real, a: real, b: real)
    requires p > 0.0 && a <= b
    ensures p * a <= p * b
  {
  }

  /** Summed term by term: the entropy is at most (log2(10) - c) times the total share plus
      c / 10 per entry. */
  lemma {:induction false} EntropyAtMost(xs: seq<real>, scale: real, c: real, log2: real -> real)
    requires scale > 0.0 && IsLog2(log2) && TangentBound(log2, c)
    requires forall i :: 0 <= i < |xs| ==> 0.0 <= xs[i]
    ensures Entropy(xs, scale, log2) <= (log2(10.0) - c) * (Sum(xs) / scale) + c * (|xs| as real / 10.0)
  {
    if xs != [] {
      var n := |xs|;
      var init, x := xs[..n - 1], xs[n - 1];
      EntropyAtMost(init, scale, c, log2);
      EntropyStep(xs, scale, c, log2);
      BoundStep(Entropy(xs, scale, log2), Entropy(init, scale, log2), log2(10.0) - c, c,
                Sum(init), x, scale, n);
    }
  }

  /** The last entry adds at most (log2(10) - c) times its share plus c / 10. */
  lemma EntropyStep(xs: seq<real>, scale: real, c: real, log2: real -> real)
    requires xs != [] && scale > 0.0 && IsLog2(log2) && TangentBound(log2, c)
    requires 0.0 <= xs[|xs| - 1]
    ensures Entropy(xs, scale, log2) <=
            Entropy(xs[..|xs| - 1], scale, log2) + (log2(10.0) - c) * (xs[|xs| - 1] / scale) + c * 0.1
  {
    var x := xs[|xs| - 1];
    var eInit := Entropy(xs[..|xs| - 1], scale, log2);
    if x != 0.0 {
      var p := x / scale;
      TermBound(p, c, log2);
      TermStep(Entropy(xs, scale, log2), eInit, p, log2(p), log2(10.0), c);
    }
  }

  lemma TermStep(e: real, eInit: real, p: real, lp: real, l: real, c: real)
    requires e == eInit - p * lp && -(p * lp) <= p * l + c * (0.1 - p)
    ensures e <= eInit + (l - c) * p + c * 0.1
  {
  }

  /** The arithmetic of one step of `EntropyAtMost`, with the sums as plain numbers. */
  lemma BoundStep(e: real, eInit: real, a: real, c: real, sInit: real, x: real, scale: real, n: nat)
    requires n > 0 && scale > 0.0 && c > 0.0
    requires eInit <= a * (sInit / scale) + c * ((n - 1) as real / 10.0)
    requires e <= eInit + a * (x / scale) + c * 0.1
    ensures e <= a * ((sInit + x) / scale) + c * (n as real / 10.0)
  {
    assert (sInit + x) / scale == sInit / scale + x / scale;
    assert a * ((sInit + x) / scale) == a * (sInit / scale) + a * (x / scale);
    assert c * (n as real / 10.0) == c * ((n - 1) as real / 10.0) + c * 0.1;
  }

  /** Gibbs' inequality for ten proportions that add up to 1: the entropy is at most
      log2(10), the entropy of the uniform distribution. */
  lemma EntropyAtMostLog10(xs: seq<real>, scale: real, log2: real -> real)
    requires scale > 0.0 && IsLog2(log2) && |xs| == 10 && Sum(xs) == scale
    requires forall i :: 0 <= i < |xs| ==> 0.0 <= xs[i]
    ensures Entropy(xs, scale, log2) <= log2(10.0)
  {
    var c :| TangentBound(log2, c);
    EntropyAtMost(xs, scale, c, log2);
  }

  lemma DivideAtMostOne(x: real, t: real)
    requires x <= t && t > 0.0
    ensures x / t <= 1.0
  {
  }

  /** The two weights always add up to 1, the frequency weight is the reported entropy,
      and both lie in [0, 1]. */
  lemma WeightsSplit(data: seq<Digit>, w: nat, log2: real -> real)
    requires w > 0 && IsLog2(log2)
    ensures var r := EntropyWeights(data, w, log2);
            r.patternWeight + r.frequencyWeight == 1.0 && r.frequencyWeight == r.entropy &&
            0.0 <= r.frequencyWeight <= 1.0 && 0.0 <= r.patternWeight <= 1.0
  {
    if |data| >= w {
      var recent := data[|data| - w..];
      var freq := Frequencies(recent);
      FrequenciesCount(recent);
      forall i | 0 <= i < 10
        ensures 0.0 <= Reals(freq)[i] <= w as real
      {
        RowTotalAtLeastEntry(freq, i);
      }
      EntropyNonNegative(Reals(freq), w as real, log2);
      DivideNonNegative(Entropy(Reals(freq), w as real, log2), log2(10.0));
      SumReals(freq);
      EntropyAtMostLog10(Reals(freq), w as real, log2);
      DivideAtMostOne(Entropy(Reals(freq), w as real, log2), log2(10.0));
    }
  }

  /** The last w digits all equal `d` (the history holds at least w digits). */
  predicate RecentAllEqual(data: seq<Digit>, w: nat, d: Digit)
    requires w <= |data|
  {
    forall j :: |data| - w <= j < |data| ==> data[j] == d
  }

  /** A recent window of one repeated digit has entropy 0: all the weight goes to the
      pattern predictors. */
  lemma RepeatedDigit(data: seq<Digit>, w: nat, d: Digit, log2: real -> real)
    requires w > 0 && IsLog2(log2) && w <= |data|
    requires RecentAllEqual(data, w, d)
    ensures EntropyWeights(data, w, log2) == Weighting(0.0, 1.0, 0.0)
  {
    var recent := data[|data| - w..];
    ConstantFrequencies(recent, d);
    var xs := Reals(Frequencies(recent));
    assert forall i :: 0 <= i < |xs| ==> xs[i] == 0.0 || xs[i] == w as real;
    CertainEntropy(xs, w as real, log2);
  }

  /** A run of one digit counts its length for that digit and 0 for every other. */
  lemma {:induction false} ConstantFrequencies(s: seq<Digit>, d: Digit)
    requires forall j :: 0 <= j < |s| ==> s[j] == d
    ensures Frequencies(s) == EmptyRow()[d := |s|]
  {
    if s != [] {
      ConstantFrequencies(s[..|s| - 1], d);
    }
  }
}
