/**
 * Variable-order Markov selection: scan the orders from 5 down to 1 and take the first
 * whose context (the last `order` digits) has a probability row that is confident enough;
 * order 1 is taken whenever its row exists.
 */
module VariableOrderMarkov {
  import opened Vectors
  import opened HigherOrderMarkov

  /** `{ order, context, probabilities, confidence }`; the context is kept as digits rather
      than their comma-joined text. */
  datatype Selection = Selection(order: nat, context: Context, probabilities: seq<real>, confidence: real)

  const MinLength := 10
  const ConfidenceThreshold := 0.1

  /** The context examined for order k: the last k digits. */
  function LastDigits(data: seq<Digit>, k: nat): (ctx: Context)
    requires k <= |data|
    ensures |ctx| == k
  {
    data[|data| - k..]
  }

  /** The scan stops at order k: the row exists and its largest entry exceeds 0.1, or k is 1. */
  predicate Accepts(data: seq<Digit>, orders: Orders, k: nat)
    requires WellFormed(orders)
    requires k <= |data|
  {
    && k in orders
    && LastDigits(data, k) in orders[k].probabilities
    && (Max(orders[k].probabilities[LastDigits(data, k)]) > ConfidenceThreshold || k == 1)
  }

  /** The scan from order k down to 1: the first accepted order, with its row and its
      largest entry as confidence, or None when no order down to 1 is accepted. */
  function SelectFrom(data: seq<Digit>, orders: Orders, k: nat): Option<Selection>
    requires WellFormed(orders) && k <= MaxOrder <= |data|
  {
    if k == 0 then None
    else if Accepts(data, orders, k) then
      var ctx := LastDigits(data, k);
      Some(Selection(k, ctx, orders[k].probabilities[ctx], Max(orders[k].probabilities[ctx])))
    else SelectFrom(data, orders, k - 1)
  }

  /** What `calculateVariableOrderMarkov` returns: None (the source's null) below ten digits,
      otherwise the scan from order 5. */
  function Select(data: seq<Digit>, orders: Orders): Option<Selection>
    requires WellFormed(orders)
  {
    if |data| < MinLength then None else SelectFrom(data, orders, MaxOrder)
  }

  method CalculateVariableOrderMarkov(data: seq<Digit>, orders: Orders) returns (r: Option<Selection>)
    requires WellFormed(orders)
    ensures r == Select(data, orders)
  {
    if |data| < MinLength {
      return None;
    }
    var lastDigits := data[|data| - MaxOrder..];
    var order := MaxOrder;
    while order >= 1
      invariant 0 <= order <= MaxOrder
      invariant SelectFrom(data, orders, MaxOrder) == SelectFrom(data, orders, order)
    {
      var context := lastDigits[MaxOrder - order..];
      assert context == LastDigits(data, order);
      if order in orders && context in orders[order].probabilities {
        var probs := orders[order].probabilities[context];
        var confidence := Max(probs);
        if confidence > ConfidenceThreshold || order == 1 {
          return Some(Selection(order, context, probs, confidence));
        }
      }
      order := order - 1;
    }
    return None;
  }

  /** The scan from order k returns the highest accepted order at most k, with the last
      `order` digits as context, the table's own row and its maximum as confidence; it
      returns None exactly when no order from 1 to k is accepted. */
  lemma {:induction false} SelectFromFacts(data: seq<Digit>, orders: Orders, k: nat)
    requires WellFormed(orders) && k <= MaxOrder <= |data|
    ensures var r := SelectFrom(data, orders, k);
            r.Some? ==>
              && 1 <= r.value.order <= k
              && r.value.context == LastDigits(data, r.value.order)
              && Lookup(orders, r.value.order, r.value.context) == Some(r.value.probabilities)
              && r.value.confidence == Max(r.value.probabilities)
              && Accepts(data, orders, r.value.order)
              && forall j :: r.value.order < j <= k ==> !Accepts(data, orders, j)
    ensures SelectFrom(data, orders, k).None? <==> forall j :: 1 <= j <= k ==> !Accepts(data, orders, j)
  {
    if k > 0 && !Accepts(data, orders, k) {
      SelectFromFacts(data, orders, k - 1);
    }
  }

  /** The selection is None below ten digits; otherwise it is the highest accepted order in
      1..5 with its context, row and confidence, and None exactly when no order is accepted. */
  lemma SelectionFacts(data: seq<Digit>, orders: Orders)
    requires WellFormed(orders)
    ensures |data| < MinLength ==> Select(data, orders) == None
    ensures var r := Select(data, orders);
            r.Some? ==>
              && |data| >= MinLength
              && 1 <= r.value.order <= MaxOrder
              && r.value.context == LastDigits(data, r.value.order)
              && Lookup(orders, r.value.order, r.value.context) == Some(r.value.probabilities)
              && r.value.confidence == Max(r.value.probabilities)
              && Accepts(data, orders, r.value.order)
              && forall k :: r.value.order < k <= MaxOrder ==> !Accepts(data, orders, k)
    ensures |data| >= MinLength ==>
              (Select(data, orders).None? <==> forall k :: 1 <= k <= MaxOrder ==> !Accepts(data, orders, k))
  {
    if |data| >= MinLength {
      SelectFromFacts(data, orders, MaxOrder);
    }
  }

  /** With the builder's tables, the last k digits have a row at order k exactly when they
      occurred earlier with a follower. */
  lemma RowExists(data: seq<Digit>, k: nat)
    requires 1 <= k <= MaxOrder && MinLength <= |data|
    ensures LastDigits(data, k) in Markov(data)[k].probabilities <==>
              exists i :: 0 <= i < |data| - k && Window(data, i, k) == LastDigits(data, k)
  {
    TransitionRows(data, k);
  }

  /** On the builder's tables with at least ten digits, the selector finds nothing exactly
      when the last digit does not occur among the digits before it. */
  lemma NoSelectionIffLastDigitNew(data: seq<Digit>)
    requires |data| >= MinLength
    ensures WellFormed(Markov(data))
    ensures (forall k :: 1 <= k <= MaxOrder ==> !Accepts(data, Markov(data), k))
        <==> data[|data| - 1] !in data[..|data| - 1]
    ensures Select(data, Markov(data)).None? <==> data[|data| - 1] !in data[..|data| - 1]
  {
    MarkovShape(data);
    SelectionFacts(data, Markov(data));
    var n := |data|;
    var last := data[n - 1];
    RowExists(data, 1);
    if last in data[..n - 1] {
      var i :| 0 <= i < n - 1 && data[..n - 1][i] == last;
      assert Window(data, i, 1) == LastDigits(data, 1);
      assert Accepts(data, Markov(data), 1);
    } else {
      forall k | 1 <= k <= MaxOrder
        ensures !Accepts(data, Markov(data), k)
      {
        RowExists(data, k);
        forall i | 0 <= i < n - k
          ensures Window(data, i, k) != LastDigits(data, k)
        {
          assert data[..n - 1][i + k - 1] == data[i + k - 1];
        }
      }
    }
  }

  /** Every row's confidence is at least 0.1, so a higher order is passed over only when
      its row is missing or is exactly the uniform vector. */
  lemma SkipMeansAbsentOrUniform(data: seq<Digit>, orders: Orders, k: nat)
    requires WellFormed(orders)
    requires 2 <= k <= |data|
    requires !Accepts(data, orders, k)
    ensures Lookup(orders, k, LastDigits(data, k)).Some? ==>
              Lookup(orders, k, LastDigits(data, k)).value == Uniform()
  {
    if Lookup(orders, k, LastDigits(data, k)).Some? {
      MaxOfDistribution(orders[k].probabilities[LastDigits(data, k)]);
    }
  }
}
