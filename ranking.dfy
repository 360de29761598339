/**
 * Ranking by descending key with a stable tie-break. The ensemble sorts its digits by
 * probability and its methods by weight with `Array.prototype.sort` and a comparator
 * `(a, b) => b.key - a.key`; the sort is stable, so equal keys keep their original order.
 * The ranking is modelled as the permutation of indices that such a sort produces, built by
 * inserting the indices one by one.
 */
module Ranking {
  /** Index a is ranked ahead of index b: a larger key, or an equal key and a smaller index. */
  predicate Before(key: seq<real>, a: nat, b: nat)
    requires a < |key| && b < |key|
  {
    key[a] > key[b] || (key[a] == key[b] && a < b)
  }

  /** Every entry of order indexes key. */
  predicate InRange(key: seq<real>, order: seq<nat>)
  {
    forall k :: 0 <= k < |order| ==> order[k] < |key|
  }

  /** Every index is ranked ahead of every later one. */
  predicate Sorted(key: seq<real>, order: seq<nat>)
    requires InRange(key, order)
  {
    forall k, l :: 0 <= k < l < |order| ==> Before(key, order[k], order[l])
  }

  /** Index x inserted before the first index it is ranked ahead of. */
  function Insert(key: seq<real>, order: seq<nat>, x: nat): (r: seq<nat>)
    requires InRange(key, order) && x < |key|
    ensures InRange(key, r) && |r| == |order| + 1
    ensures multiset(r) == multiset(order) + multiset{x}
  {
    if order == [] then [x]
    else if Before(key, x, order[0]) then [x] + order
    else
      assert order == [order[0]] + order[1..];
      [order[0]] + Insert(key, order[1..], x)
  }

  /** The indices 0 .. m - 1, ranked. */
  function Rank(key: seq<real>, m: nat): (order: seq<nat>)
    requires m <= |key|
    ensures InRange(key, order) && |order| == m
    ensures forall x: nat :: x in order <==> x < m
  {
    if m == 0 then []
    else
      var rest := Rank(key, m - 1);
      var last: nat := m - 1;
      var r := Insert(key, rest, last);
      InsertMembers(r, rest, last);
      r
  }

  /** All indices of key, ranked: the order a stable descending sort puts them in. */
  function RankDescending(key: seq<real>): (order: seq<nat>)
    ensures InRange(key, order) && |order| == |key|
    ensures forall x: nat :: x in order <==> x < |key|
  {
    Rank(key, |key|)
  }

  /** The members of a sequence with one element added. */
  lemma InsertMembers(r: seq<nat>, rest: seq<nat>, x: nat)
    requires multiset(r) == multiset(rest) + multiset{x}
    ensures forall y :: y in r <==> y in rest || y == x
  {
    forall y
      ensures y in r <==> y in rest || y == x
    {
      assert y in r <==> y in multiset(r);
      assert y in rest <==> y in multiset(rest);
    }
  }

  /** Ranking ahead is a strict total order on indices. */
  lemma BeforeOrder(key: seq<real>, a: nat, b: nat, c: nat)
    requires a < |key| && b < |key| && c < |key|
    ensures !Before(key, a, a)
    ensures a != b ==> Before(key, a, b) || Before(key, b, a)
    ensures Before(key, a, b) && Before(key, b, c) ==> Before(key, a, c)
  {
  }

  /** Inserting a new index into a sorted ranking keeps it sorted. */
  lemma {:induction false} InsertSorted(key: seq<real>, order: seq<nat>, x: nat)
    requires InRange(key, order) && x < |key| && Sorted(key, order) && x !in order
    ensures Sorted(key, Insert(key, order, x))
    decreases |order|
  {
    if order == [] {
    } else if Before(key, x, order[0]) {
      var r := [x] + order;
      forall l | 1 <= l < |r|
        ensures Before(key, x, r[l])
      {
        if l > 1 {
          BeforeOrder(key, x, order[0], order[l - 1]);
        }
      }
    } else {
      var tail := order[1..];
      assert Sorted(key, tail) by {
        forall k, l | 0 <= k < l < |tail|
          ensures Before(key, tail[k], tail[l])
        {
          assert tail[k] == order[k + 1] && tail[l] == order[l + 1];
        }
      }
      InsertSorted(key, tail, x);
      var rest := Insert(key, tail, x);
      forall l | 0 <= l < |rest|
        ensures Before(key, order[0], rest[l])
      {
        assert rest[l] in multiset(rest);
        if rest[l] == x {
          BeforeOrder(key, x, order[0], x);
        } else {
          assert rest[l] in tail;
          var j :| 0 <= j < |tail| && tail[j] == rest[l];
          assert order[j + 1] == rest[l];
        }
      }
    }
  }

  /** The ranking is sorted. */
  lemma {:induction false} RankSorted(key: seq<real>, m: nat)
    requires m <= |key|
    ensures Sorted(key, Rank(key, m))
  {
    if m > 0 {
      RankSorted(key, m - 1);
      var last: nat := m - 1;
      assert last !in Rank(key, m - 1);
      InsertSorted(key, Rank(key, m - 1), last);
    }
  }

  /** The entries of s taken in the order the indices of order give. */
  function Permute<T>(s: seq<T>, order: seq<nat>): (r: seq<T>)
    requires forall k :: 0 <= k < |order| ==> order[k] < |s|
    ensures |r| == |order|
  {
    seq(|order|, k requires 0 <= k < |order| => s[order[k]])
  }

  /** Permuting by an order with a first index puts that index's entry first. */
  lemma PermuteCons<T>(s: seq<T>, o: nat, rest: seq<nat>)
    requires o < |s| && forall k :: 0 <= k < |rest| ==> rest[k] < |s|
    ensures Permute(s, [o] + rest) == [s[o]] + Permute(s, rest)
  {
  }

  /** Inserting an index into the ranking adds its entry to the permuted values. */
  lemma {:induction false} InsertPermutes<T>(key: seq<real>, s: seq<T>, order: seq<nat>, x: nat)
    requires |s| == |key| && InRange(key, order) && x < |key|
    ensures multiset(Permute(s, Insert(key, order, x))) == multiset(Permute(s, order)) + multiset{s[x]}
    decreases |order|
  {
    if order == [] {
      PermuteCons(s, x, []);
    } else if Before(key, x, order[0]) {
      PermuteCons(s, x, order);
    } else {
      InsertPermutes(key, s, order[1..], x);
      PermuteBehindHead(key, s, order, x);
    }
  }

  /** When an index goes behind the head, the head's entry stays first. */
  lemma PermuteBehindHead<T>(key: seq<real>, s: seq<T>, order: seq<nat>, x: nat)
    requires |s| == |key| && InRange(key, order) && x < |key|
    requires order != [] && !Before(key, x, order[0])
    ensures Permute(s, Insert(key, order, x)) == [s[order[0]]] + Permute(s, Insert(key, order[1..], x))
    ensures Permute(s, order) == [s[order[0]]] + Permute(s, order[1..])
  {
    var head, tail := order[0], order[1..];
    assert order == [head] + tail;
    PermuteCons(s, head, Insert(key, tail, x));
    PermuteCons(s, head, tail);
  }

  /** Taking the first m entries in ranked order rearranges them and loses none. */
  lemma {:induction false} RankPermutes<T>(key: seq<real>, s: seq<T>, m: nat)
    requires |s| == |key| && m <= |key|
    ensures multiset(Permute(s, Rank(key, m))) == multiset(s[..m])
  {
    if m > 0 {
      RankPermutes(key, s, m - 1);
      RankStep(key, s, m);
      PrefixGrows(s, m);
    }
  }

  /** Ranking one more index adds that index's entry to the values taken in ranked order. */
  lemma RankStep<T>(key: seq<real>, s: seq<T>, m: nat)
    requires |s| == |key| && 0 < m <= |key|
    ensures multiset(Permute(s, Rank(key, m))) == multiset(Permute(s, Rank(key, m - 1))) + multiset{s[m - 1]}
  {
    var rest := Rank(key, m - 1);
    var last: nat := m - 1;
    assert InRange(key, rest);
    InsertPermutes(key, s, rest, last);
  }

  /** A prefix one longer holds one more entry. */
  lemma PrefixGrows<T>(s: seq<T>, m: nat)
    requires 0 < m <= |s|
    ensures multiset(s[..m]) == multiset(s[..m - 1]) + multiset{s[m - 1]}
  {
    assert s[..m] == s[..m - 1] + [s[m - 1]];
  }

  /** A stable descending sort: every index of key appears exactly once, keys never
      increase along the order, and equal keys keep ascending index order. */
  lemma RankDescendingFacts(key: seq<real>)
    ensures var order := RankDescending(key);
            && (forall k, l :: 0 <= k < l < |order| ==> order[k] != order[l])
            && (forall k, l :: 0 <= k < l < |order| ==> key[order[k]] >= key[order[l]])
            && (forall k, l :: 0 <= k < l < |order| && key[order[k]] == key[order[l]] ==> order[k] < order[l])
  {
    RankSorted(key, |key|);
  }
}
