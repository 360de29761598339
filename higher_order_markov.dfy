/**
 * Higher-order Markov chains: for every order k in 1..5, a transition table that counts,
 * for each context of k consecutive digits, which digit followed it, and the same table
 * with every row normalised to probabilities.
 */
module HigherOrderMarkov {
  import opened Vectors

  /** A context key: k consecutive digits (the source joins them with commas). */
  type Context = seq<Digit>

  /** Context key to a ten-slot tally of the digits that followed it. */
  type Table = map<Context, seq<nat>>

  /** What the source stores under `orders[k]`. */
  datatype OrderModel = OrderModel(transitions: Table, probabilities: map<Context, seq<real>>)

  /** The builder's result, keyed by order; empty when the sequence is too short. */
  type Orders = map<nat, OrderModel>

  const MinLength := 6
  const MaxOrder := 5

  // ---------------------------------------------------------------------------------
  // Specification of one order's counts

  /** The k digits starting at index i (`data.slice(i, i + k)`). */
  function Window(data: seq<Digit>, i: nat, k: nat): (w: Context)
    requires i + k <= |data|
    ensures |w| == k
  {
    data[i..i + k]
  }

  /** Start index i holds the context `ctx` and the digit `d` comes right after it. */
  predicate Follows(data: seq<Digit>, k: nat, i: nat, ctx: Context, d: Digit)
    requires i + k < |data|
  {
    Window(data, i, k) == ctx && data[i + k] == d
  }

  /** Number of start indices i < m at which `ctx` occurs and is followed by `d`. */
  function CountBelow(data: seq<Digit>, k: nat, ctx: Context, d: Digit, m: nat): nat
    requires m + k <= |data|
  {
    if m == 0 then 0
    else CountBelow(data, k, ctx, d, m - 1) + (if Follows(data, k, m - 1, ctx, d) then 1 else 0)
  }

  /** The contexts that start at some index below m. */
  function ContextsBelow(data: seq<Digit>, k: nat, m: nat): set<Context>
    requires m + k <= |data|
  {
    set i | 0 <= i < m :: Window(data, i, k)
  }

  function RowBelow(data: seq<Digit>, k: nat, ctx: Context, m: nat): (row: seq<nat>)
    requires m + k <= |data|
    ensures |row| == 10
  {
    seq(10, d requires 0 <= d < 10 => CountBelow(data, k, ctx, d, m))
  }

  /** The table after the first m start indices have been tallied. */
  function TableBelow(data: seq<Digit>, k: nat, m: nat): Table
    requires m + k <= |data|
  {
    map ctx | ctx in ContextsBelow(data, k, m) :: RowBelow(data, k, ctx, m)
  }

  /** The order-k transition table: every start index i in [0, n - k) tallied. */
  function Transitions(data: seq<Digit>, k: nat): Table
    requires k < |data|
  {
    TableBelow(data, k, |data| - k)
  }

  /** A row's probabilities: each count over the row total, or 0 for an empty row. */
  function RowProbabilities(row: seq<nat>): (p: seq<real>)
    requires |row| == 10
    ensures |p| == 10
  {
    var total := Total(row);
    seq(10, d requires 0 <= d < 10 => if total > 0 then row[d] as real / total as real else 0.0)
  }

  function Probabilities(t: Table): map<Context, seq<real>>
    requires forall ctx :: ctx in t ==> |t[ctx]| == 10
  {
    map ctx | ctx in t :: RowProbabilities(t[ctx])
  }

  function Model(data: seq<Digit>, k: nat): OrderModel
    requires k < |data|
  {
    var t := Transitions(data, k);
    TransitionRows(data, k);
    OrderModel(t, Probabilities(t))
  }

  /** The models of the orders below `order`. */
  function ModelsBelow(data: seq<Digit>, order: nat): Orders
    requires order <= |data|
  {
    map k: nat | 1 <= k < order :: Model(data, k)
  }

  /** The whole builder: no entry below six digits, otherwise one model per order 1..5. */
  function Markov(data: seq<Digit>): Orders
  {
    if |data| < MinLength then map[]
    else ModelsBelow(data, MaxOrder + 1)
  }

  /** The shape every consumer of the tables relies on: ten-slot rows, every counted row
      non-empty, every probability row a distribution. */
  predicate WellFormed(orders: Orders)
  {
    && (forall k, ctx :: k in orders && ctx in orders[k].transitions ==>
          |orders[k].transitions[ctx]| == 10 && Total(orders[k].transitions[ctx]) >= 1)
    && (forall k, ctx :: k in orders && ctx in orders[k].probabilities ==>
          IsDistribution(orders[k].probabilities[ctx]))
  }

  /** `orders[k]?.probabilities[ctx]`. */
  function Lookup(orders: Orders, k: nat, ctx: Context): Option<seq<real>>
  {
    if k in orders && ctx in orders[k].probabilities then Some(orders[k].probabilities[ctx])
    else None
  }

  /** One step of the builder: create the row if it is missing, then increment one cell. */
  function Tally(t: Table, ctx: Context, next: Digit): Table
    requires ctx in t ==> |t[ctx]| == 10
  {
    var row := if ctx in t then t[ctx] else EmptyRow();
    t[ctx := row[next := row[next] + 1]]
  }

  /** Sum of every count in a table; the choice of key order is irrelevant (MapTotalRemove). */
  ghost function Pick(t: Table): Context
    requires t != map[]
  {
    var ctx :| ctx in t; ctx
  }

  ghost function MapTotal(t: Table): int
    decreases |t|
  {
    if t == map[] then 0 else var ctx := Pick(t); Total(t[ctx]) + MapTotal(t - {ctx})
  }

  // ---------------------------------------------------------------------------------
  // The builder

  /** The inner loop of the builder for one order: tally every (context, next digit) pair. */
  method CountTransitions(data: seq<Digit>, k: nat) returns (t: Table)
    requires 1 <= k < |data|
    ensures t == Transitions(data, k)
    ensures MapTotal(t) == |data| - k
  {
    t := map[];
    var i := 0;
    while i < |data| - k
      invariant 0 <= i <= |data| - k
      invariant t == TableBelow(data, k, i)
    {
      var ctx := Window(data, i, k);
      var next := data[i + k];
      ghost var before := t;
      if ctx !in t {
        t := t[ctx := EmptyRow()];
      }
      assert t[ctx] == if ctx in before then before[ctx] else EmptyRow();
      t := t[ctx := t[ctx][next := t[ctx][next] + 1]];
      assert t == Tally(before, ctx, next);
      TableStep(data, k, i);
      i := i + 1;
    }
    TableTotal(data, k, i);
  }

  /** The `forEach` that fills `probabilities`, one context at a time. */
  method Normalise(t: Table) returns (p: map<Context, seq<real>>)
    requires forall ctx :: ctx in t ==> |t[ctx]| == 10
    ensures p == Probabilities(t)
  {
    p := map[];
    var todo := t.Keys;
    while todo != {}
      invariant todo <= t.Keys
      invariant p.Keys == t.Keys - todo
      invariant forall ctx :: ctx in p ==> p[ctx] == RowProbabilities(t[ctx])
      decreases |todo|
    {
      var ctx :| ctx in todo;
      p := p[ctx := RowProbabilities(t[ctx])];
      todo := todo - {ctx};
    }
  }

  /** `calculateHigherOrderMarkov`. */
  method CalculateHigherOrderMarkov(data: seq<Digit>) returns (orders: Orders)
    ensures orders == Markov(data)
  {
    if |data| < MinLength {
      return map[];
    }
    orders := map[];
    var order := 1;
    while order <= MaxOrder
      invariant 1 <= order <= MaxOrder + 1
      invariant orders == ModelsBelow(data, order)
    {
      var transitions := CountTransitions(data, order);
      TransitionRows(data, order);
      var probabilities := Normalise(transitions);
      assert OrderModel(transitions, probabilities) == Model(data, order);
      ModelsStep(data, order);
      orders := orders[order := OrderModel(transitions, probabilities)];
      order := order + 1;
    }
    assert order == MaxOrder + 1;
  }

  // ---------------------------------------------------------------------------------
  // Lemmas

  lemma ModelsStep(data: seq<Digit>, order: nat)
    requires 1 <= order < |data|
    ensures ModelsBelow(data, order + 1) == ModelsBelow(data, order)[order := Model(data, order)]
  {
    assert ModelsBelow(data, order + 1).Keys == ModelsBelow(data, order).Keys + {order};
  }

  /** A context absent from the first m windows has been counted nowhere. */
  lemma {:induction false} CountAbsent(data: seq<Digit>, k: nat, ctx: Context, d: Digit, m: nat)
    requires m + k <= |data|
    requires ctx !in ContextsBelow(data, k, m)
    ensures CountBelow(data, k, ctx, d, m) == 0
  {
    if m > 0 {
      assert Window(data, m - 1, k) in ContextsBelow(data, k, m);
      assert ContextsBelow(data, k, m - 1) <= ContextsBelow(data, k, m);
      CountAbsent(data, k, ctx, d, m - 1);
    }
  }

  /** Tallying start index i adds one to the cell (window at i, digit after it). */
  lemma TableStep(data: seq<Digit>, k: nat, i: nat)
    requires i + k < |data|
    ensures forall ctx :: ctx in TableBelow(data, k, i) ==> |TableBelow(data, k, i)[ctx]| == 10
    ensures TableBelow(data, k, i + 1) == Tally(TableBelow(data, k, i), Window(data, i, k), data[i + k])
  {
    var t := TableBelow(data, k, i);
    var ctx, next := Window(data, i, k), data[i + k];
    var u := Tally(t, ctx, next);
    var t' := TableBelow(data, k, i + 1);
    ContextsStep(data, k, i);
    assert t'.Keys == u.Keys;
    forall c | c in t'
      ensures t'[c] == u[c]
    {
      RowStep(data, k, c, i);
      if c == ctx && ctx !in t {
        RowAbsent(data, k, ctx, i);
      }
    }
  }

  /** Start index i adds its window to the contexts seen. */
  lemma ContextsStep(data: seq<Digit>, k: nat, i: nat)
    requires i + k < |data|
    ensures ContextsBelow(data, k, i + 1) == ContextsBelow(data, k, i) + {Window(data, i, k)}
  {
    var ctx := Window(data, i, k);
    forall c | c in ContextsBelow(data, k, i + 1)
      ensures c in ContextsBelow(data, k, i) + {ctx}
    {
      var j :| 0 <= j < i + 1 && c == Window(data, j, k);
      if j < i {
        assert c in ContextsBelow(data, k, i);
      }
    }
    forall c | c in ContextsBelow(data, k, i)
      ensures c in ContextsBelow(data, k, i + 1)
    {
      var j :| 0 <= j < i && c == Window(data, j, k);
      assert c == Window(data, j, k);
    }
  }

  /** Start index i adds one to the row of its own window, in the slot of the digit after
      it, and leaves every other row alone. */
  lemma RowStep(data: seq<Digit>, k: nat, c: Context, i: nat)
    requires i + k < |data|
    ensures var row := RowBelow(data, k, c, i);
            RowBelow(data, k, c, i + 1) ==
              if c == Window(data, i, k) then row[data[i + k] := row[data[i + k]] + 1] else row
  {
  }

  /** A context not seen below i has an all-zero row. */
  lemma RowAbsent(data: seq<Digit>, k: nat, ctx: Context, i: nat)
    requires i + k <= |data| && ctx !in ContextsBelow(data, k, i)
    ensures RowBelow(data, k, ctx, i) == EmptyRow()
  {
    forall d: Digit
      ensures RowBelow(data, k, ctx, i)[d] == 0
    {
      CountAbsent(data, k, ctx, d, i);
    }
  }

  /** The table of the first m start indices holds m counts in all. */
  lemma {:induction false} TableTotal(data: seq<Digit>, k: nat, m: nat)
    requires m + k <= |data|
    ensures MapTotal(TableBelow(data, k, m)) == m
  {
    if m == 0 {
      TableEmpty(data, k);
    } else {
      TableTotal(data, k, m - 1);
      TableTotalStep(data, k, m - 1);
    }
  }

  lemma TableEmpty(data: seq<Digit>, k: nat)
    requires k <= |data|
    ensures MapTotal(TableBelow(data, k, 0)) == 0
  {
    assert TableBelow(data, k, 0) == map[];
  }

  /** Tallying start index i adds one count to the table. */
  lemma TableTotalStep(data: seq<Digit>, k: nat, i: nat)
    requires i + k < |data|
    ensures MapTotal(TableBelow(data, k, i + 1)) == MapTotal(TableBelow(data, k, i)) + 1
  {
    var t, ctx, next := TableBelow(data, k, i), Window(data, i, k), data[i + k];
    TableStep(data, k, i);
    TallyTotal(t, ctx, next);
  }

  lemma TallyTotal(t: Table, ctx: Context, next: Digit)
    requires ctx in t ==> |t[ctx]| == 10
    ensures MapTotal(Tally(t, ctx, next)) == MapTotal(t) + 1
  {
    if ctx in t {
      TallyPresent(t, ctx, next);
    } else {
      TallyAbsent(t, ctx, next);
    }
  }

  lemma TallyPresent(t: Table, ctx: Context, next: Digit)
    requires ctx in t && |t[ctx]| == 10
    ensures MapTotal(Tally(t, ctx, next)) == MapTotal(t) + 1
  {
    var row := t[ctx];
    var row' := row[next := row[next] + 1];
    assert Tally(t, ctx, next) == t[ctx := row'];
    RowIncrement(row, next);
    MapTotalReplace(t, ctx, row');
  }

  lemma TallyAbsent(t: Table, ctx: Context, next: Digit)
    requires ctx !in t
    ensures MapTotal(Tally(t, ctx, next)) == MapTotal(t) + 1
  {
    var row := EmptyRow();
    var row' := row[next := row[next] + 1];
    assert Tally(t, ctx, next) == t[ctx := row'];
    RowIncrement(row, next);
    TotalZeros(row);
    MapTotalAdd(t, ctx, row');
  }

  /** One more count in a row raises its total by one. */
  lemma RowIncrement(row: seq<nat>, next: Digit)
    requires |row| == 10
    ensures Total(row[next := row[next] + 1]) == Total(row) + 1
  {
    TotalUpdate(row, next, row[next] + 1);
  }

  lemma {:induction false} MapTotalRemove(t: Table, ctx: Context)
    requires ctx in t
    ensures MapTotal(t) == Total(t[ctx]) + MapTotal(t - {ctx})
    decreases |t|
  {
    var c := Pick(t);
    if c != ctx {
      MapTotalRemove(t - {c}, ctx);
      MapTotalRemove(t - {ctx}, c);
      assert t - {c} - {ctx} == t - {ctx} - {c};
    }
  }

  lemma MapTotalReplace(t: Table, ctx: Context, row: seq<nat>)
    requires ctx in t
    ensures MapTotal(t[ctx := row]) == MapTotal(t) - Total(t[ctx]) + Total(row)
  {
    MapTotalRemove(t[ctx := row], ctx);
    assert t[ctx := row] - {ctx} == t - {ctx};
    MapTotalRemove(t, ctx);
  }

  lemma MapTotalAdd(t: Table, ctx: Context, row: seq<nat>)
    requires ctx !in t
    ensures MapTotal(t[ctx := row]) == MapTotal(t) + Total(row)
  {
    MapTotalRemove(t[ctx := row], ctx);
    assert t[ctx := row] - {ctx} == t;
  }

  /** The start indices below m at which `ctx` is followed by `d`. */
  ghost function Occurrences(data: seq<Digit>, k: nat, ctx: Context, d: Digit, m: nat): set<nat>
    requires m + k <= |data|
  {
    set i | 0 <= i < m && Follows(data, k, i, ctx, d)
  }

  /** The recursive tally agrees with counting the matching start indices directly. */
  lemma {:induction false} CountIsCardinality(data: seq<Digit>, k: nat, ctx: Context, d: Digit, m: nat)
    requires m + k <= |data|
    ensures CountBelow(data, k, ctx, d, m) == |Occurrences(data, k, ctx, d, m)|
  {
    if m > 0 {
      CountIsCardinality(data, k, ctx, d, m - 1);
      var before, after := Occurrences(data, k, ctx, d, m - 1), Occurrences(data, k, ctx, d, m);
      if Follows(data, k, m - 1, ctx, d) {
        assert after == before + {m - 1};
      } else {
        assert after == before;
      }
    }
  }

  /** Every key of the order-k table is a k-digit window that starts at some index at most
      n - k - 1, every such window is a key, and every row has ten slots and a total of at
      least one (it is created and incremented in the same step). */
  lemma TransitionRows(data: seq<Digit>, k: nat)
    requires k < |data|
    ensures forall ctx :: ctx in Transitions(data, k) <==>
              exists i :: 0 <= i < |data| - k && Window(data, i, k) == ctx
    ensures forall ctx :: ctx in Transitions(data, k) ==>
              |ctx| == k && |Transitions(data, k)[ctx]| == 10 && Total(Transitions(data, k)[ctx]) >= 1
  {
    var t := Transitions(data, k);
    forall ctx | ctx in t
      ensures |ctx| == k && Total(t[ctx]) >= 1
    {
      var i :| 0 <= i < |data| - k && Window(data, i, k) == ctx;
      var d := data[i + k];
      CountPositive(data, k, ctx, d, |data| - k, i);
      RowTotalAtLeastEntry(t[ctx], d);
    }
  }

  /** One matching start index below m makes the count at least one. */
  lemma {:induction false} CountPositive(data: seq<Digit>, k: nat, ctx: Context, d: Digit, m: nat, i: nat)
    requires m + k <= |data| && i < m
    requires Follows(data, k, i, ctx, d)
    ensures CountBelow(data, k, ctx, d, m) >= 1
  {
    if i < m - 1 {
      CountPositive(data, k, ctx, d, m - 1, i);
    }
  }

  /** A row with a positive total normalises to a distribution. */
  lemma RowProbabilitiesDistribution(row: seq<nat>)
    requires |row| == 10 && Total(row) > 0
    ensures IsDistribution(RowProbabilities(row))
  {
    var v := Reals(row);
    SumReals(row);
    assert forall i :: 0 <= i < 10 ==> v[i] >= 0.0;
    Normalized(v);
    assert RowProbabilities(row) == Divide(v, Sum(v));
  }

  /** Every probability row of the order-k model is a distribution over the ten digits, so
      the `total > 0 ? … : 0` fallback never fires. */
  lemma ProbabilityRows(data: seq<Digit>, k: nat)
    requires k < |data|
    ensures forall ctx :: ctx in Model(data, k).probabilities ==>
              IsDistribution(Model(data, k).probabilities[ctx])
  {
    TransitionRows(data, k);
    var t := Transitions(data, k);
    forall ctx | ctx in t
      ensures IsDistribution(RowProbabilities(t[ctx]))
    {
      RowProbabilitiesDistribution(t[ctx]);
    }
  }

  /** Below six digits the result is empty; otherwise it has exactly the orders 1..5, and it
      has the shape every consumer relies on. */
  lemma MarkovShape(data: seq<Digit>)
    ensures |data| < MinLength ==> Markov(data) == map[]
    ensures |data| >= MinLength ==> Markov(data).Keys == {1, 2, 3, 4, 5}
    ensures WellFormed(Markov(data))
  {
    var orders := Markov(data);
    if |data| >= MinLength {
      forall k | 1 <= k <= MaxOrder
        ensures forall ctx :: ctx in orders[k].transitions ==>
                  |orders[k].transitions[ctx]| == 10 && Total(orders[k].transitions[ctx]) >= 1
        ensures forall ctx :: ctx in orders[k].probabilities ==>
                  IsDistribution(orders[k].probabilities[ctx])
      {
        TransitionRows(data, k);
        ProbabilityRows(data, k);
      }
    }
  }

  /** On 1,2,1,2,1,2,1 the order-1 row of context `c` (1 or 2) holds three counts of the other digit. */
  lemma AlternatingRow(data: seq<Digit>, c: Digit)
    requires data == [1, 2, 1, 2, 1, 2, 1]
    requires c == 1 || c == 2
    ensures var t := Transitions(data, 1);
            [c] in t && t[[c]] == EmptyRow()[3 - c := 3]
  {
    assert forall i :: 0 <= i < 6 ==> Window(data, i, 1) == [data[i]];
    assert Window(data, c - 1, 1) == [c];
    assert [c] in ContextsBelow(data, 1, 6);
    forall d: Digit
      ensures CountBelow(data, 1, [c], d, 6) == if d == 3 - c then 3 else 0
    {
      var f := if d == 3 - c then 1 else 0;
      assert CountBelow(data, 1, [c], d, 1) == (if c == 1 then f else 0);
      assert CountBelow(data, 1, [c], d, 2) == 1 * f;
      assert CountBelow(data, 1, [c], d, 3) == (if c == 1 then 2 * f else f);
      assert CountBelow(data, 1, [c], d, 4) == 2 * f;
      assert CountBelow(data, 1, [c], d, 5) == (if c == 1 then 3 * f else 2 * f);
      assert CountBelow(data, 1, [c], d, 6) == 3 * f;
    }
  }

  /** On 1,2,1,2,1,2,1 the order-1 model sends 1 to 2 and 2 to 1 with certainty. */
  lemma AlternatingExample(data: seq<Digit>)
    requires data == [1, 2, 1, 2, 1, 2, 1]
    ensures var m := Markov(data)[1];
            && [1] in m.probabilities && m.probabilities[[1]] == [0.0, 0.0, 1.0, 0.0, 0.0, 0.0, 0.0, 0.0, 0.0, 0.0]
            && [2] in m.probabilities && m.probabilities[[2]] == [0.0, 1.0, 0.0, 0.0, 0.0, 0.0, 0.0, 0.0, 0.0, 0.0]
  {
    AlternatingRow(data, 1);
    AlternatingRow(data, 2);
    assert Markov(data)[1] == Model(data, 1);
    TotalZeros(EmptyRow());
    TotalUpdate(EmptyRow(), 2, 3);
    TotalUpdate(EmptyRow(), 1, 3);
  }
}
