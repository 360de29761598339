/**
 * Bayesian averaging: pool four prediction vectors (the order-1 and order-2 Markov rows of
 * the latest context, Kneser-Ney and recency-weighted Markov), adding a smoothing mass of
 * 0.1 to every slot of every vector, and normalise the pooled votes.
 */
module BayesianAveraging {
  import opened Vectors
  import opened HigherOrderMarkov

  const MinLength := 50
  const Alpha := 0.1

  /** `row || Array(10).fill(0)`: a missing Markov row counts as all zeros. */
  function OrZeros(row: Option<seq<real>>): seq<real>
  {
    if row.Some? then row.value else Zeros()
  }

  /** 1 for a row that exists, 0 for a missing one: the mass the row brings to the pool. */
  function Present(row: Option<seq<real>>): real
  {
    if row.Some? then 1.0 else 0.0
  }

  /** The order-1 row of the last digit. */
  function FirstOrderRow(data: seq<Digit>, orders: Orders): Option<seq<real>>
    requires |data| >= 1
  {
    Lookup(orders, 1, data[|data| - 1..])
  }

  /** The order-2 row of the last two digits. */
  function SecondOrderRow(data: seq<Digit>, orders: Orders): Option<seq<real>>
    requires |data| >= 2
  {
    Lookup(orders, 2, data[|data| - 2..])
  }

  /** The four vectors that are pooled, in the order they are added. */
  function Models(data: seq<Digit>, orders: Orders, kn: seq<real>, rw: seq<real>): (ms: seq<seq<real>>)
    requires |data| >= 2
    ensures |ms| == 4
  {
    [OrZeros(FirstOrderRow(data, orders)), OrZeros(SecondOrderRow(data, orders)), kn, rw]
  }

  /** Every pooled vector has ten non-negative entries. */
  predicate Shaped(ms: seq<seq<real>>)
  {
    forall k :: 0 <= k < |ms| ==> |ms[k]| == 10 && NonNegative(ms[k])
  }

  /** One model added to the accumulator: `acc[i] += model[i] + alpha` for every slot. */
  function AddSmoothed(acc: seq<real>, model: seq<real>): (r: seq<real>)
    requires |acc| == 10 && |model| == 10
    ensures |r| == 10
  {
    seq(10, i requires 0 <= i < 10 => acc[i] + (model[i] + Alpha))
  }

  /** The accumulated votes of the first m models. */
  function Pooled(ms: seq<seq<real>>, m: nat): (p: seq<real>)
    requires m <= |ms| && Shaped(ms)
    ensures |p| == 10
  {
    if m == 0 then Zeros() else AddSmoothed(Pooled(ms, m - 1), ms[m - 1])
  }

  /** The total probability mass of the first m models. */
  function Mass(ms: seq<seq<real>>, m: nat): real
    requires m <= |ms|
  {
    if m == 0 then 0.0 else Mass(ms, m - 1) + Sum(ms[m - 1])
  }

  /** What the ensemble's callers hand in: tables built by the Markov builder and two
      ten-slot vectors with no negative entry. */
  predicate Inputs(orders: Orders, kn: seq<real>, rw: seq<real>)
  {
    WellFormed(orders) && |kn| == 10 && |rw| == 10 && NonNegative(kn) && NonNegative(rw)
  }

  /** What `calculateBayesianAveraging` returns. */
  function Bayesian(data: seq<Digit>, orders: Orders, kn: seq<real>, rw: seq<real>): (p: seq<real>)
    requires Inputs(orders, kn, rw)
    ensures |p| == 10
  {
    if |data| < MinLength then Uniform()
    else
      var ms := Models(data, orders, kn, rw);
      ModelsShaped(data, orders, kn, rw);
      PooledTotal(ms, 4);
      Divide(Pooled(ms, 4), Sum(Pooled(ms, 4)))
  }

  method CalculateBayesianAveraging(data: seq<Digit>, orders: Orders, kn: seq<real>, rw: seq<real>)
    returns (p: seq<real>)
    requires Inputs(orders, kn, rw)
    ensures p == Bayesian(data, orders, kn, rw)
  {
    if |data| < MinLength {
      return Uniform();
    }
    var predictions := Zeros();
    var models := [OrZeros(FirstOrderRow(data, orders)), OrZeros(SecondOrderRow(data, orders)), kn, rw];
    ModelsShaped(data, orders, kn, rw);
    var m := 0;
    while m < |models|
      invariant 0 <= m <= |models|
      invariant predictions == Pooled(models, m)
    {
      var model := models[m];
      var i := 0;
      while i < 10
        invariant 0 <= i <= 10 && |predictions| == 10
        invariant forall j :: 0 <= j < i ==> predictions[j] == Pooled(models, m + 1)[j]
        invariant forall j :: i <= j < 10 ==> predictions[j] == Pooled(models, m)[j]
      {
        predictions := predictions[i := predictions[i] + (model[i] + Alpha)];
        i := i + 1;
      }
      m := m + 1;
    }
    PooledTotal(models, 4);
    var total := Sum(predictions);
    p := Divide(predictions, total);
  }

  /** The looked-up rows are distributions or zeros, so all four vectors are shaped. */
  lemma ModelsShaped(data: seq<Digit>, orders: Orders, kn: seq<real>, rw: seq<real>)
    requires |data| >= 2 && Inputs(orders, kn, rw)
    ensures Shaped(Models(data, orders, kn, rw))
    ensures Sum(Models(data, orders, kn, rw)[0]) == Present(FirstOrderRow(data, orders))
    ensures Sum(Models(data, orders, kn, rw)[1]) == Present(SecondOrderRow(data, orders))
  {
    ZerosSum();
  }

  /** The pool holds every model's mass plus 0.1 per slot and model, and every slot holds
      at least 0.1 per model. */
  lemma {:induction false} PooledTotal(ms: seq<seq<real>>, m: nat)
    requires m <= |ms| && Shaped(ms)
    ensures Sum(Pooled(ms, m)) == Mass(ms, m) + m as real
    ensures Mass(ms, m) >= 0.0
    ensures forall i :: 0 <= i < 10 ==> Pooled(ms, m)[i] >= m as real * Alpha
  {
    if m == 0 {
      ZerosSum();
    } else {
      PooledTotal(ms, m - 1);
      var acc, model := Pooled(ms, m - 1), ms[m - 1];
      SumNonNegative(model);
      SumSmoothed(acc, model);
    }
  }

  /** Adding a model with smoothing adds its mass and 10 * 0.1 to the total. */
  lemma SumSmoothed(acc: seq<real>, model: seq<real>)
    requires |acc| == 10 && |model| == 10
    ensures Sum(AddSmoothed(acc, model)) == Sum(acc) + Sum(model) + 1.0
  {
    var once := AddScaled(acc, model, 1.0);
    assert AddSmoothed(acc, model) == AddScaled(once, Uniform(), 1.0);
    SumAddScaled(acc, model, 1.0);
    SumAddScaled(once, Uniform(), 1.0);
    UniformIsDistribution();
  }

  /** The pooled total is at least 4, so the result is a distribution in which every digit
      keeps positive probability. */
  lemma BayesianDistribution(data: seq<Digit>, orders: Orders, kn: seq<real>, rw: seq<real>)
    requires Inputs(orders, kn, rw)
    ensures IsDistribution(Bayesian(data, orders, kn, rw))
    ensures forall i :: 0 <= i < 10 ==> Bayesian(data, orders, kn, rw)[i] > 0.0
    ensures |data| >= MinLength ==> Sum(Pooled(Models(data, orders, kn, rw), 4)) >= 4.0
  {
    if |data| < MinLength {
      UniformIsDistribution();
    } else {
      var ms := Models(data, orders, kn, rw);
      ModelsShaped(data, orders, kn, rw);
      PooledTotal(ms, 4);
      var pooled := Pooled(ms, 4);
      assert NonNegative(pooled);
      Normalized(pooled);
      forall i | 0 <= i < 10
        ensures Divide(pooled, Sum(pooled))[i] > 0.0
      {
        DividePositive(pooled[i], Sum(pooled));
      }
    }
  }

  /** For distributions, slot i is the four entries plus 0.4 over a total of 8, less 1 for
      each missing Markov row: a missing row adds no mass besides its smoothing. */
  lemma BayesianFormula(data: seq<Digit>, orders: Orders, kn: seq<real>, rw: seq<real>, i: nat)
    requires Inputs(orders, kn, rw) && IsDistribution(kn) && IsDistribution(rw)
    requires |data| >= MinLength && i < 10
    ensures var first, second := OrZeros(FirstOrderRow(data, orders)), OrZeros(SecondOrderRow(data, orders));
            Bayesian(data, orders, kn, rw)[i] ==
              (first[i] + second[i] + kn[i] + rw[i] + 0.4) /
              (6.0 + Present(FirstOrderRow(data, orders)) + Present(SecondOrderRow(data, orders)))
  {
    var ms := Models(data, orders, kn, rw);
    ModelsShaped(data, orders, kn, rw);
    PooledTotal(ms, 4);
    assert Pooled(ms, 1)[i] == ms[0][i] + Alpha;
    assert Pooled(ms, 2)[i] == ms[0][i] + ms[1][i] + 2.0 * Alpha;
    assert Pooled(ms, 3)[i] == ms[0][i] + ms[1][i] + ms[2][i] + 3.0 * Alpha;
    assert Pooled(ms, 4)[i] == ms[0][i] + ms[1][i] + ms[2][i] + ms[3][i] + 4.0 * Alpha;
    assert Mass(ms, 1) == Sum(ms[0]);
    assert Mass(ms, 2) == Sum(ms[0]) + Sum(ms[1]);
    assert Mass(ms, 3) == Mass(ms, 2) + Sum(ms[2]);
    assert Mass(ms, 4) == Mass(ms, 2) + Sum(ms[2]) + Sum(ms[3]);
  }
}
