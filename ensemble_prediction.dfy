/**
 * The ensemble: nine prediction vectors with fixed base weights, re-weighted by family
 * according to the recent entropy, renormalised, mixed linearly, tempered with the power
 * 1 / 1.2, rescaled to percentages and ranked.
 *
 * `Math.pow(p, 1 / 1.2)` is a parameter `pow`, of which only the facts `IsRoot` lists are
 * used; `Math.log2` is the parameter `log2` of the entropy weighting.
 */
module EnsemblePrediction {
  import opened Vectors
  import opened HigherOrderMarkov
  import VariableOrderMarkov
  import opened EntropyWeighting
  import ChangePointDetection
  import opened Ranking
  import opened MethodFamily

  const MinLength := 20
  const EntropyBoost := 0.3

  /** One entry of the method list: its display name, its vector and its current weight. */
  datatype Method = Method(name: string, probs: seq<real>, weight: real)

  /** The results of the other predictors that the ensemble mixes. */
  datatype Predictors = Predictors(
    orders: Orders,
    variableOrder: Option<VariableOrderMarkov.Selection>,
    kneserNey: seq<real>,
    recency: seq<real>,
    pattern: seq<real>,
    positional: seq<real>,
    momentum: seq<real>)

  /** What the predictors hand over: Markov tables from the builder and distributions. */
  predicate ValidPredictors(p: Predictors)
  {
    && WellFormed(p.orders)
    && (p.variableOrder.Some? ==> IsDistribution(p.variableOrder.value.probabilities))
    && IsDistribution(p.kneserNey) && IsDistribution(p.recency) && IsDistribution(p.pattern)
    && IsDistribution(p.positional) && IsDistribution(p.momentum)
  }

  /** Both entropy weights are non-negative, as they are for a true base-2 logarithm. */
  predicate ValidWeighting(ew: Weighting)
  {
    ew.patternWeight >= 0.0 && ew.frequencyWeight >= 0.0
  }

  /** The facts about `x => Math.pow(x, 1 / 1.2)` the model uses: it maps 0 to 0 and is
      strictly increasing on the non-negative reals. */
  ghost predicate IsRoot(pow: real -> real)
  {
    pow(0.0) == 0.0 && forall x, y :: 0.0 <= x < y ==> pow(x) < pow(y)
  }

  /** `row || Array(10).fill(0.1)`: a missing row counts as uniform. */
  function OrUniform(row: Option<seq<real>>): seq<real>
  {
    if row.Some? then row.value else Uniform()
  }

  /** The method list with its base weights. */
  function BaseMethods(data: seq<Digit>, p: Predictors): (ms: seq<Method>)
    requires |data| >= 3
    ensures |ms| == 9
  {
    var n := |data|;
    [ Method("Markov 1st Order", OrUniform(Lookup(p.orders, 1, data[n - 1..])), 0.15),
      Method("Markov 2nd Order", OrUniform(Lookup(p.orders, 2, data[n - 2..])), 0.14),
      Method("Markov 3rd Order", OrUniform(Lookup(p.orders, 3, data[n - 3..])), 0.12),
      Method("Variable Order Markov",
             if p.variableOrder.Some? then p.variableOrder.value.probabilities else Uniform(), 0.15),
      Method("Kneser-Ney Smoothing", p.kneserNey, 0.11),
      Method("Recency-Weighted", p.recency, 0.10),
      Method("Pattern Completion", p.pattern, 0.10),
      Method("Positional Cycles", p.positional, 0.06),
      Method("Sequence Momentum", p.momentum, 0.07) ]
  }

  /** The multiplier of a method's weight: 1 + 0.3 times its family's entropy weight. */
  function Factor(name: string, ew: Weighting): real
  {
    if PatternFamily(name) then 1.0 + ew.patternWeight * EntropyBoost
    else 1.0 + ew.frequencyWeight * EntropyBoost
  }

  function Reweighted(ms: seq<Method>, ew: Weighting): (r: seq<Method>)
    ensures |r| == |ms|
  {
    seq(|ms|, k requires 0 <= k < |ms| => ms[k].(weight := ms[k].weight * Factor(ms[k].name, ew)))
  }

  function Weights(ms: seq<Method>): (w: seq<real>)
    ensures |w| == |ms|
  {
    seq(|ms|, k requires 0 <= k < |ms| => ms[k].weight)
  }

  /** Every weight divided by t: `methods.forEach(m => m.weight /= totalWeight)`. */
  function Normalised(ms: seq<Method>, t: real): (r: seq<Method>)
    requires t != 0.0
    ensures |r| == |ms|
  {
    seq(|ms|, k requires 0 <= k < |ms| => ms[k].(weight := ms[k].weight / t))
  }

  /** The weights after the entropy adjustment and the renormalisation. */
  function Adjusted(data: seq<Digit>, p: Predictors, ew: Weighting): (ms: seq<Method>)
    requires |data| >= 3 && ValidWeighting(ew)
    ensures |ms| == 9
  {
    var rw := Reweighted(BaseMethods(data, p), ew);
    ReweightedPositive(data, p, ew);
    Normalised(rw, Sum(Weights(rw)))
  }

  /** Every method vector has ten slots. */
  predicate TenSlots(ms: seq<Method>)
  {
    forall k :: 0 <= k < |ms| ==> |ms[k].probs| == 10
  }

  /** The mix of the first m methods: `combined[i] += probs[i] * weight`. */
  function Combine(ms: seq<Method>, m: nat): (c: seq<real>)
    requires m <= |ms| && TenSlots(ms)
    ensures |c| == 10
  {
    if m == 0 then Zeros() else AddScaled(Combine(ms, m - 1), ms[m - 1].probs, ms[m - 1].weight)
  }

  /** `combined.map(p => Math.pow(p, 1 / temperature))`. */
  function Temper(v: seq<real>, pow: real -> real): (r: seq<real>)
    ensures |r| == |v|
  {
    seq(|v|, i requires 0 <= i < |v| => pow(v[i]))
  }

  /** `scaled.map(p => (p / total) * 100)`. */
  function Percentages(v: seq<real>, total: real): (r: seq<real>)
    requires total != 0.0
    ensures |r| == |v|
  {
    seq(|v|, i requires 0 <= i < |v| => (v[i] / total) * 100.0)
  }

  /** `{ digit, probability }`. */
  datatype Pick = Pick(digit: nat, probability: real)

  /** The five most likely digits, ties in ascending digit order. */
  function TopFive(probs: seq<real>): (top: seq<Pick>)
    requires |probs| == 10
    ensures |top| == 5
  {
    var order := RankDescending(probs);
    seq(5, k requires 0 <= k < 5 => Pick(order[k], probs[order[k]]))
  }

  /** `methods.sort((a, b) => b.weight - a.weight)`. */
  function SortedMethods(ms: seq<Method>): (r: seq<Method>)
    ensures |r| == |ms|
  {
    Permute(ms, RankDescending(Weights(ms)))
  }

  /** What `calculateEnsemblePrediction` returns when the history is long enough; the
      confidence and entropy are kept as numbers rather than fixed-point text. */
  datatype Prediction = Prediction(
    topPredictions: seq<Pick>,
    allProbabilities: seq<real>,
    methods: seq<Method>,
    confidence: real,
    entropy: real,
    regimeInfo: ChangePointDetection.Regime,
    entropyInfo: Weighting)

  /** The mixed vector of the adjusted methods. */
  function Mixed(data: seq<Digit>, p: Predictors, ew: Weighting): (c: seq<real>)
    requires |data| >= 3 && ValidPredictors(p) && ValidWeighting(ew)
    ensures |c| == 10
  {
    MethodsDistributions(data, p, ew);
    Combine(Adjusted(data, p, ew), 9)
  }

  /** `allProbabilities`: the tempered mix as percentages. */
  function Final(data: seq<Digit>, p: Predictors, ew: Weighting, pow: real -> real): (f: seq<real>)
    requires |data| >= 3 && ValidPredictors(p) && ValidWeighting(ew) && IsRoot(pow)
    ensures |f| == 10
  {
    var scaled := Temper(Mixed(data, p, ew), pow);
    MixedIsDistribution(data, p, ew);
    TemperedTotalPositive(Mixed(data, p, ew), pow);
    Percentages(scaled, Sum(scaled))
  }

  /** The returned record for the final percentages and the adjusted methods: top five,
      methods by weight, and the confidence `(1 - entropy / log2(10)) * 100`. */
  function Summary(final: seq<real>, methods: seq<Method>, regime: ChangePointDetection.Regime,
                   ew: Weighting, log2: real -> real): Prediction
    requires |final| == 10 && IsLog2(log2)
  {
    var entropy := Entropy(final, 100.0, log2);
    Prediction(TopFive(final), final, SortedMethods(methods),
               (1.0 - entropy / log2(10.0)) * 100.0, entropy, regime, ew)
  }

  /** What `calculateEnsemblePrediction` returns: null below 20 digits. */
  function Ensemble(data: seq<Digit>, p: Predictors, ew: Weighting, regime: ChangePointDetection.Regime,
                    pow: real -> real, log2: real -> real): Option<Prediction>
    requires ValidPredictors(p) && ValidWeighting(ew) && IsRoot(pow) && IsLog2(log2)
  {
    if |data| < MinLength then None
    else Some(Summary(Final(data, p, ew, pow), Adjusted(data, p, ew), regime, ew, log2))
  }

  method CalculateEnsemblePrediction(data: seq<Digit>, p: Predictors, ew: Weighting,
                                     regime: ChangePointDetection.Regime,
                                     pow: real -> real, log2: real -> real)
    returns (r: Option<Prediction>)
    requires ValidPredictors(p) && ValidWeighting(ew) && IsRoot(pow) && IsLog2(log2)
    ensures r.None? <==> |data| < MinLength
    ensures r == Ensemble(data, p, ew, regime, pow, log2)
  {
    if |data| < MinLength {
      return None;
    }
    var methods, combined := MixPredictions(data, p, ew);
    var scaledProbs := Temper(combined, pow);
    MixedIsDistribution(data, p, ew);
    TemperedTotalPositive(combined, pow);
    var total := Sum(scaledProbs);
    var finalProbs := Percentages(scaledProbs, total);
    assert finalProbs == Final(data, p, ew, pow);
    r := Some(Summary(finalProbs, methods, regime, ew, log2));
  }

  /** The method list, its entropy adjustment and renormalisation, and the mix. */
  method MixPredictions(data: seq<Digit>, p: Predictors, ew: Weighting)
    returns (methods: seq<Method>, combined: seq<real>)
    requires |data| >= 3 && ValidPredictors(p) && ValidWeighting(ew)
    ensures methods == Adjusted(data, p, ew)
    ensures combined == Mixed(data, p, ew)
  {
    methods := BaseMethods(data, p);
    methods := Reweight(methods, ew);
    ReweightedPositive(data, p, ew);
    methods := Normalise(methods);
    MethodsDistributions(data, p, ew);
    combined := CombineMethods(methods);
  }

  /** Scale each weight by its family's factor, one method at a time. */
  method Reweight(ms: seq<Method>, ew: Weighting) returns (methods: seq<Method>)
    ensures methods == Reweighted(ms, ew)
  {
    methods := ms;
    var k := 0;
    while k < |methods|
      invariant 0 <= k <= |methods| == |ms|
      invariant forall j :: 0 <= j < k ==> methods[j] == Reweighted(ms, ew)[j]
      invariant forall j :: k <= j < |ms| ==> methods[j] == ms[j]
    {
      var m := methods[k];
      if PatternFamily(m.name) {
        methods := methods[k := m.(weight := m.weight * (1.0 + ew.patternWeight * EntropyBoost))];
      } else {
        methods := methods[k := m.(weight := m.weight * (1.0 + ew.frequencyWeight * EntropyBoost))];
      }
      k := k + 1;
    }
  }

  /** Divide each weight by the total weight, one method at a time. */
  method Normalise(ms: seq<Method>) returns (methods: seq<Method>)
    requires Sum(Weights(ms)) != 0.0
    ensures methods == Normalised(ms, Sum(Weights(ms)))
  {
    var totalWeight := Sum(Weights(ms));
    methods := ms;
    var k := 0;
    while k < |methods|
      invariant 0 <= k <= |methods| == |ms|
      invariant forall j :: 0 <= j < k ==> methods[j] == Normalised(ms, totalWeight)[j]
      invariant forall j :: k <= j < |ms| ==> methods[j] == ms[j]
    {
      methods := methods[k := methods[k].(weight := methods[k].weight / totalWeight)];
      k := k + 1;
    }
  }

  /** Add every method's weighted vector into the mix, slot by slot. */
  method CombineMethods(methods: seq<Method>) returns (combined: seq<real>)
    requires TenSlots(methods)
    ensures combined == Combine(methods, |methods|)
  {
    combined := Zeros();
    var m := 0;
    while m < |methods|
      invariant 0 <= m <= |methods|
      invariant combined == Combine(methods, m)
    {
      var current := methods[m];
      var i := 0;
      while i < 10
        invariant 0 <= i <= 10 && |combined| == 10
        invariant forall j :: 0 <= j < i ==> combined[j] == Combine(methods, m + 1)[j]
        invariant forall j :: i <= j < 10 ==> combined[j] == Combine(methods, m)[j]
      {
        combined := combined[i := combined[i] + current.probs[i] * current.weight];
        i := i + 1;
      }
      m := m + 1;
    }
  }

  // ---------------------------------------------------------------------------------
  // Lemmas

  /** The family adjustment of the base list: the five pattern methods are scaled by
      1 + 0.3 * patternWeight, the four others by 1 + 0.3 * frequencyWeight. */
  lemma ReweightedBase(data: seq<Digit>, p: Predictors, ew: Weighting)
    requires |data| >= 3
    ensures var fp, ff := 1.0 + ew.patternWeight * EntropyBoost, 1.0 + ew.frequencyWeight * EntropyBoost;
            Weights(Reweighted(BaseMethods(data, p), ew)) ==
              [0.15 * fp, 0.14 * fp, 0.12 * fp, 0.15 * fp, 0.11 * ff, 0.10 * ff, 0.10 * fp, 0.06 * ff, 0.07 * ff]
  {
    PatternNames();
    FrequencyNames();
  }

  /** The base weights, in list order. */
  lemma BaseWeights(data: seq<Digit>, p: Predictors)
    requires |data| >= 3
    ensures Weights(BaseMethods(data, p)) == [0.15, 0.14, 0.12, 0.15, 0.11, 0.10, 0.10, 0.06, 0.07]
  {
  }

  /** The base weights add up to exactly 1. */
  lemma BaseWeightsSumToOne(data: seq<Digit>, p: Predictors)
    requires |data| >= 3
    ensures Sum(Weights(BaseMethods(data, p))) == 1.0
  {
    BaseWeights(data, p);
    var w := Weights(BaseMethods(data, p));
    assert Sum(w[..0]) == 0.0;
    SumLast(w, 0);
    SumLast(w, 1);
    SumLast(w, 2);
    SumLast(w, 3);
    SumLast(w, 4);
    SumLast(w, 5);
    SumLast(w, 6);
    SumLast(w, 7);
    SumLast(w, 8);
    assert w[..9] == w;
  }

  /** After the entropy adjustment every weight is positive, and so is their sum. */
  lemma ReweightedPositive(data: seq<Digit>, p: Predictors, ew: Weighting)
    requires |data| >= 3 && ValidWeighting(ew)
    ensures forall k :: 0 <= k < 9 ==> Weights(Reweighted(BaseMethods(data, p), ew))[k] > 0.0
    ensures Sum(Weights(Reweighted(BaseMethods(data, p), ew))) > 0.0
  {
    var ms := BaseMethods(data, p);
    BaseWeights(data, p);
    PositiveStaysPositive(ms, ew);
    var w := Weights(Reweighted(ms, ew));
    SumNonNegative(w);
    assert w[0] <= Sum(w);
  }

  /** Positive weights stay positive under non-negative entropy weights. */
  lemma PositiveStaysPositive(ms: seq<Method>, ew: Weighting)
    requires ValidWeighting(ew)
    requires forall k :: 0 <= k < |ms| ==> ms[k].weight > 0.0
    ensures forall k :: 0 <= k < |ms| ==> Weights(Reweighted(ms, ew))[k] > 0.0
  {
    forall k | 0 <= k < |ms|
      ensures Weights(Reweighted(ms, ew))[k] > 0.0
    {
      MultiplyPositive(ms[k].weight, Factor(ms[k].name, ew));
    }
  }

  /** When the two entropy weights are equal every weight gets the same factor. */
  lemma EqualSplit(ms: seq<Method>, ew: Weighting)
    requires ew.patternWeight == ew.frequencyWeight
    ensures Weights(Reweighted(ms, ew)) == Scale(Weights(ms), 1.0 + ew.patternWeight * EntropyBoost)
  {
    var c := 1.0 + ew.patternWeight * EntropyBoost;
    forall k | 0 <= k < |ms|
      ensures Weights(Reweighted(ms, ew))[k] == Scale(Weights(ms), c)[k]
    {
      assert Factor(ms[k].name, ew) == c;
    }
  }

  /** Normalising divides the weight vector by the total. */
  lemma NormalisedWeights(ms: seq<Method>, t: real)
    requires t != 0.0
    ensures Weights(Normalised(ms, t)) == Divide(Weights(ms), t)
  {
  }

  /** The adjusted weights are positive and add up to 1; when the two entropy weights are
      equal, they are the base weights. */
  lemma AdjustedWeights(data: seq<Digit>, p: Predictors, ew: Weighting)
    requires |data| >= 3 && ValidWeighting(ew)
    ensures forall k :: 0 <= k < 9 ==> Adjusted(data, p, ew)[k].weight > 0.0
    ensures Sum(Weights(Adjusted(data, p, ew))) == 1.0
    ensures ew.patternWeight == ew.frequencyWeight ==>
              Weights(Adjusted(data, p, ew)) == Weights(BaseMethods(data, p))
  {
    var base := BaseMethods(data, p);
    var rw := Reweighted(base, ew);
    ReweightedPositive(data, p, ew);
    var t := Sum(Weights(rw));
    var w := Weights(rw);
    NormalisedWeights(rw, t);
    assert Weights(Adjusted(data, p, ew)) == Divide(w, t);
    SumDivide(w, t);
    DivideSelf(t);
    forall k | 0 <= k < 9
      ensures Divide(w, t)[k] > 0.0
    {
      DividePositive(w[k], t);
    }
    assert forall k :: 0 <= k < 9 ==> Adjusted(data, p, ew)[k].weight == Divide(w, t)[k];
    if ew.patternWeight == ew.frequencyWeight {
      EqualSplit(base, ew);
      BaseWeightsSumToOne(data, p);
      EqualWeights(Weights(base), w, ew.patternWeight * EntropyBoost);
    }
  }

  /** Scaling a vector that sums to 1 by a positive factor and renormalising gives it back. */
  lemma EqualWeights(b: seq<real>, w: seq<real>, e: real)
    requires e >= 0.0 && Sum(b) == 1.0 && w == Scale(b, 1.0 + e)
    ensures Sum(w) == 1.0 + e && Divide(w, 1.0 + e) == b
  {
    var c := 1.0 + e;
    SumScale(b, c);
    forall k | 0 <= k < |b|
      ensures Divide(w, c)[k] == b[k]
    {
      CancelFactor(b[k], c);
    }
  }

  /** Every entry multiplied by c. */
  function Scale(v: seq<real>, c: real): (r: seq<real>)
    ensures |r| == |v|
  {
    seq(|v|, i requires 0 <= i < |v| => v[i] * c)
  }

  lemma {:induction false} SumScale(v: seq<real>, c: real)
    ensures Sum(Scale(v, c)) == Sum(v) * c
  {
    if v != [] {
      var n := |v|;
      var whole, init := Scale(v, c), Scale(v[..n - 1], c);
      forall i | 0 <= i < n - 1
        ensures whole[..n - 1][i] == init[i]
      {
      }
      assert whole[..n - 1] == init;
      SumScale(v[..n - 1], c);
    }
  }

  lemma CancelFactor(w: real, c: real)
    requires c > 0.0
    ensures (w * c) / (1.0 * c) == w
  {
  }

  /** Every method vector is a distribution (a missing Markov row counts as uniform), and
      every adjusted weight is non-negative. */
  lemma MethodsDistributions(data: seq<Digit>, p: Predictors, ew: Weighting)
    requires |data| >= 3 && ValidPredictors(p) && ValidWeighting(ew)
    ensures TenSlots(Adjusted(data, p, ew))
    ensures forall k :: 0 <= k < 9 ==>
              IsDistribution(Adjusted(data, p, ew)[k].probs) && Adjusted(data, p, ew)[k].weight >= 0.0
  {
    UniformIsDistribution();
    AdjustedWeights(data, p, ew);
  }

  /** A mix of distributions with non-negative weights is non-negative and sums to the
      total weight mixed in. */
  lemma {:induction false} CombineFacts(ms: seq<Method>, m: nat)
    requires m <= |ms| && TenSlots(ms)
    requires forall k :: 0 <= k < |ms| ==> IsDistribution(ms[k].probs) && ms[k].weight >= 0.0
    ensures NonNegative(Combine(ms, m))
    ensures Sum(Combine(ms, m)) == Sum(Weights(ms[..m]))
  {
    if m == 0 {
      ZerosSum();
    } else {
      CombineFacts(ms, m - 1);
      var acc, model := Combine(ms, m - 1), ms[m - 1];
      SumAddScaled(acc, model.probs, model.weight);
      forall i | 0 <= i < 10
        ensures Combine(ms, m)[i] >= 0.0
      {
        MultiplyNonNegative(model.probs[i], model.weight);
      }
      assert Weights(ms[..m])[..m - 1] == Weights(ms[..m - 1]);
    }
  }

  /** The mix is a convex combination, hence a distribution. */
  lemma MixedIsDistribution(data: seq<Digit>, p: Predictors, ew: Weighting)
    requires |data| >= 3 && ValidPredictors(p) && ValidWeighting(ew)
    ensures IsDistribution(Mixed(data, p, ew))
  {
    var ms := Adjusted(data, p, ew);
    MethodsDistributions(data, p, ew);
    AdjustedWeights(data, p, ew);
    CombineFacts(ms, 9);
    assert ms[..9] == ms;
  }

  /** Tempering a distribution leaves a positive total. */
  lemma TemperedTotalPositive(v: seq<real>, pow: real -> real)
    requires IsDistribution(v) && IsRoot(pow)
    ensures NonNegative(Temper(v, pow))
    ensures Sum(Temper(v, pow)) > 0.0
  {
    var t := Temper(v, pow);
    forall i | 0 <= i < 10
      ensures t[i] >= 0.0
    {
      if v[i] > 0.0 {
        assert pow(0.0) < pow(v[i]);
      }
    }
    var i := PositiveEntry(v);
    assert pow(0.0) < pow(v[i]);
    assert t[i] > 0.0;
    SumNonNegative(t);
    assert t[i] <= Sum(t);
  }

  /** A non-negative vector with a positive sum has a positive entry. */
  lemma {:induction false} PositiveEntry(v: seq<real>) returns (i: nat)
    requires NonNegative(v) && Sum(v) > 0.0
    ensures i < |v| && v[i] > 0.0
  {
    var n := |v|;
    if v[n - 1] > 0.0 {
      i := n - 1;
    } else {
      i := PositiveEntry(v[..n - 1]);
    }
  }

  /** The percentages are non-negative, at most 100 each, and add up to 100. */
  lemma PercentagesFacts(data: seq<Digit>, p: Predictors, ew: Weighting, pow: real -> real)
    requires |data| >= 3 && ValidPredictors(p) && ValidWeighting(ew) && IsRoot(pow)
    ensures forall i :: 0 <= i < 10 ==> 0.0 <= Final(data, p, ew, pow)[i] <= 100.0
    ensures Sum(Final(data, p, ew, pow)) == 100.0
  {
    MixedIsDistribution(data, p, ew);
    var scaled := Temper(Mixed(data, p, ew), pow);
    TemperedTotalPositive(Mixed(data, p, ew), pow);
    PercentagesOf(scaled);
  }

  /** Percentages of a non-negative vector with a positive total. */
  lemma PercentagesOf(v: seq<real>)
    requires NonNegative(v) && Sum(v) > 0.0
    ensures forall i :: 0 <= i < |v| ==> 0.0 <= Percentages(v, Sum(v))[i] <= 100.0
    ensures Sum(Percentages(v, Sum(v))) == 100.0
  {
    PercentagesBounded(v);
    PercentagesTotal(v);
  }

  lemma PercentagesBounded(v: seq<real>)
    requires NonNegative(v) && Sum(v) > 0.0
    ensures forall i :: 0 <= i < |v| ==> 0.0 <= Percentages(v, Sum(v))[i] <= 100.0
  {
    var t := Sum(v);
    SumNonNegative(v);
    forall i | 0 <= i < |v|
      ensures 0.0 <= Percentages(v, t)[i] <= 100.0
    {
      ShareAtMostOne(v[i], t);
    }
  }

  lemma PercentagesTotal(v: seq<real>)
    requires Sum(v) > 0.0
    ensures Sum(Percentages(v, Sum(v))) == 100.0
  {
    var t := Sum(v);
    var shares := Divide(v, t);
    assert Percentages(v, t) == Scale(shares, 100.0);
    SumScale(shares, 100.0);
    SumDivide(v, t);
    DivideSelf(t);
  }

  lemma ShareAtMostOne(x: real, t: real)
    requires 0.0 <= x <= t && t > 0.0
    ensures 0.0 <= (x / t) * 100.0 <= 100.0
  {
  }

  /** Tempering and rescaling keep the order of the mix: a more likely digit stays more
      likely, and equally likely digits stay equal. */
  lemma FinalKeepsOrder(data: seq<Digit>, p: Predictors, ew: Weighting, pow: real -> real, i: nat, j: nat)
    requires |data| >= 3 && ValidPredictors(p) && ValidWeighting(ew) && IsRoot(pow)
    requires i < 10 && j < 10
    ensures Mixed(data, p, ew)[i] < Mixed(data, p, ew)[j] ==> Final(data, p, ew, pow)[i] < Final(data, p, ew, pow)[j]
    ensures Mixed(data, p, ew)[i] == Mixed(data, p, ew)[j] ==> Final(data, p, ew, pow)[i] == Final(data, p, ew, pow)[j]
  {
    var v := Mixed(data, p, ew);
    MixedIsDistribution(data, p, ew);
    var scaled := Temper(v, pow);
    TemperedTotalPositive(v, pow);
    if v[i] < v[j] {
      assert pow(v[i]) < pow(v[j]);
      ShareMonotone(scaled[i], scaled[j], Sum(scaled));
    }
  }

  lemma ShareMonotone(x: real, y: real, t: real)
    requires x < y && t > 0.0
    ensures (x / t) * 100.0 < (y / t) * 100.0
  {
  }

  /** The confidence lies in [0, 100]: the entropy of the percentages is between 0 and
      log2(10) (Gibbs' inequality), and the confidence is 100 exactly when it is 0. */
  lemma ConfidenceRange(data: seq<Digit>, p: Predictors, ew: Weighting, regime: ChangePointDetection.Regime,
                        pow: real -> real, log2: real -> real)
    requires ValidPredictors(p) && ValidWeighting(ew) && IsRoot(pow) && IsLog2(log2)
    requires |data| >= MinLength
    ensures Ensemble(data, p, ew, regime, pow, log2).Some?
    ensures 0.0 <= Ensemble(data, p, ew, regime, pow, log2).value.entropy <= log2(10.0)
    ensures 0.0 <= Ensemble(data, p, ew, regime, pow, log2).value.confidence <= 100.0
    ensures Ensemble(data, p, ew, regime, pow, log2).value.confidence == 100.0 <==>
            Ensemble(data, p, ew, regime, pow, log2).value.entropy == 0.0
  {
    PercentagesFacts(data, p, ew, pow);
    SummaryConfidence(Final(data, p, ew, pow), Adjusted(data, p, ew), regime, ew, log2);
  }

  /** The confidence of percentages that add up to 100, whatever the rest of the record. */
  lemma SummaryConfidence(final: seq<real>, methods: seq<Method>, regime: ChangePointDetection.Regime,
                          ew: Weighting, log2: real -> real)
    requires |final| == 10 && IsLog2(log2) && Sum(final) == 100.0
    requires forall i :: 0 <= i < 10 ==> 0.0 <= final[i] <= 100.0
    ensures var r := Summary(final, methods, regime, ew, log2);
            && 0.0 <= r.entropy <= log2(10.0)
            && 0.0 <= r.confidence <= 100.0
            && (r.confidence == 100.0 <==> r.entropy == 0.0)
  {
    EntropyNonNegative(final, 100.0, log2);
    EntropyAtMostLog10(final, 100.0, log2);
    var entropy := Entropy(final, 100.0, log2);
    DivideNonNegative(entropy, log2(10.0));
    DivideAtMostOne(entropy, log2(10.0));
  }

  /** What the entropy weighting returns is a valid weighting for the ensemble. */
  lemma EntropyWeightsValid(data: seq<Digit>, w: nat, log2: real -> real)
    requires w > 0 && IsLog2(log2)
    ensures ValidWeighting(EntropyWeights(data, w, log2))
  {
    WeightsSplit(data, w, log2);
  }

  /** The top five are five distinct digits with non-increasing probability, ties in
      ascending digit order, each with its own probability, and no other digit is more
      likely than the fifth. */
  lemma TopFiveFacts(probs: seq<real>)
    requires |probs| == 10
    ensures var top := TopFive(probs);
            && (forall k :: 0 <= k < 5 ==> top[k].digit < 10 && top[k].probability == probs[top[k].digit])
            && (forall k, l :: 0 <= k < l < 5 ==> top[k].digit != top[l].digit)
            && (forall k, l :: 0 <= k < l < 5 ==> top[k].probability >= top[l].probability)
            && (forall k, l :: 0 <= k < l < 5 && top[k].probability == top[l].probability ==>
                  top[k].digit < top[l].digit)
            && (forall d: nat :: d < 10 && (forall k :: 0 <= k < 5 ==> top[k].digit != d) ==>
                  probs[d] <= top[4].probability)
  {
    var order := RankDescending(probs);
    var top := TopFive(probs);
    RankDescendingFacts(probs);
    forall d: nat | d < 10 && (forall k :: 0 <= k < 5 ==> top[k].digit != d)
      ensures probs[d] <= top[4].probability
    {
      assert d in order;
      var l :| 0 <= l < 10 && order[l] == d;
      assert forall k :: 0 <= k < 5 ==> top[k].digit == order[k];
      assert probs[order[4]] >= probs[order[l]];
    }
  }

  /** The returned methods are a rearrangement of the adjusted methods (each one as often as
      it occurs) by non-increasing weight; ties keep list order, as the ranking is stable. */
  lemma SortedMethodsFacts(ms: seq<Method>)
    ensures var r := SortedMethods(ms);
            && multiset(r) == multiset(ms)
            && (forall k, l :: 0 <= k < l < |r| ==> r[k].weight >= r[l].weight)
  {
    var key := Weights(ms);
    var order := RankDescending(key);
    RankDescendingFacts(key);
    RankPermutes(key, ms, |ms|);
    assert ms[..|ms|] == ms;
    var r := SortedMethods(ms);
    forall k, l | 0 <= k < l < |r|
      ensures r[k].weight >= r[l].weight
    {
      assert key[order[k]] >= key[order[l]];
    }
  }
}
