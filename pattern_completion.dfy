/**
 * Pattern completion: compare every earlier four-digit window with the last four digits,
 * scoring a full point per equal digit and half a point per digit that is off by one.
 * A window scoring at least 2 votes, with its score, for the digit that followed it.
 */
module PatternCompletion {
  import opened Vectors

  const MinLength := 10
  const PatternLength := 4
  const Threshold := 2.0

  /** The score of one position: 1 for the same digit, 0.5 for a neighbouring digit. */
  function Increment(a: Digit, b: Digit): (r: real)
    ensures r == 0.0 || r == 0.5 || r == 1.0
    ensures r == 1.0 <==> a == b
    ensures r == 0.5 <==> (a as int - b as int == 1 || b as int - a as int == 1)
  {
    if a == b then 1.0 else if -1 <= a as int - b as int <= 1 then 0.5 else 0.0
  }

  /** h half points. */
  function Halves(h: nat): real
  {
    h as real / 2.0
  }

  /** The score of the window starting at i over its first m positions. */
  function PartialSimilarity(data: seq<Digit>, i: nat, m: nat): real
    requires i + PatternLength <= |data| && PatternLength <= |data| && m <= PatternLength
  {
    if m == 0 then 0.0
    else PartialSimilarity(data, i, m - 1) + Increment(data[i + m - 1], data[|data| - PatternLength + m - 1])
  }

  function Similarity(data: seq<Digit>, i: nat): real
    requires i + PatternLength <= |data|
  {
    PartialSimilarity(data, i, PatternLength)
  }

  /** The window at i scores enough to vote. */
  predicate Qualifies(data: seq<Digit>, i: nat)
    requires i + PatternLength <= |data|
  {
    Similarity(data, i) >= Threshold
  }

  /** Position j of the window at i holds the same digit as position j of the last four. */
  predicate MatchesAt(data: seq<Digit>, i: nat, j: nat)
    requires i + PatternLength <= |data| && j < PatternLength
  {
    data[i + j] == data[|data| - PatternLength + j]
  }

  /** The window at i repeats the last four digits exactly. */
  predicate Repeats(data: seq<Digit>, i: nat)
    requires i + PatternLength <= |data|
  {
    forall j :: 0 <= j < PatternLength ==> MatchesAt(data, i, j)
  }

  /** The window at i qualifies and is followed by d. */
  predicate VotesFor(data: seq<Digit>, i: nat, d: Digit)
    requires i + PatternLength < |data|
  {
    Qualifies(data, i) && data[i + PatternLength] == d
  }

  /** The votes of the windows starting before m. */
  function ScoresBelow(data: seq<Digit>, m: nat): (s: seq<real>)
    requires m + 5 <= |data|
    ensures |s| == 10
  {
    if m == 0 then Zeros()
    else
      var s := ScoresBelow(data, m - 1);
      var sim := Similarity(data, m - 1);
      if sim >= Threshold then s[data[m + 3] := s[data[m + 3]] + sim] else s
  }

  /** What `calculatePatternCompletion` returns. Only windows starting before n - 5 are
      compared, so the window whose follower is the last digit itself never votes. */
  function Completion(data: seq<Digit>): (p: seq<real>)
    ensures |p| == 10
  {
    if |data| < MinLength then Uniform() else NormalizeOrUniform(ScoresBelow(data, |data| - 5))
  }

  method CalculatePatternCompletion(data: seq<Digit>) returns (p: seq<real>)
    ensures p == Completion(data)
  {
    if |data| < MinLength {
      return Uniform();
    }
    var n := |data|;
    var target := data[n - PatternLength..];
    var scores := Zeros();
    var i := 0;
    while i < n - 5
      invariant 0 <= i <= n - 5
      invariant scores == ScoresBelow(data, i)
    {
      var pattern := data[i..i + PatternLength];
      var similarity := 0.0;
      var j := 0;
      while j < PatternLength
        invariant 0 <= j <= PatternLength
        invariant similarity == PartialSimilarity(data, i, j)
      {
        if pattern[j] == target[j] {
          similarity := similarity + 1.0;
        } else if -1 <= pattern[j] as int - target[j] as int <= 1 {
          similarity := similarity + 0.5;
        }
        j := j + 1;
      }
      if similarity >= Threshold {
        var nextDigit := data[i + PatternLength];
        scores := scores[nextDigit := scores[nextDigit] + similarity];
      }
      i := i + 1;
    }
    var total := Sum(scores);
    if total > 0.0 {
      p := Divide(scores, total);
    } else {
      p := Uniform();
    }
    assert p == NormalizeOrUniform(scores);
  }

  /** Over its first m positions a window scores a whole number of half points between 0
      and m, and scores exactly m when those positions all match. */
  lemma {:induction false} PartialBounds(data: seq<Digit>, i: nat, m: nat)
    requires i + PatternLength <= |data| && PatternLength <= |data| && m <= PatternLength
    ensures 0.0 <= PartialSimilarity(data, i, m) <= m as real
    ensures exists h: nat :: h <= 2 * m && PartialSimilarity(data, i, m) == Halves(h)
    ensures PartialSimilarity(data, i, m) == m as real <==>
              forall j :: 0 <= j < m ==> MatchesAt(data, i, j)
  {
    if m == 0 {
      assert PartialSimilarity(data, i, m) == Halves(0);
    } else {
      PartialBounds(data, i, m - 1);
      var inc := Increment(data[i + m - 1], data[|data| - PatternLength + m - 1]);
      var h: nat :| h <= 2 * (m - 1) && PartialSimilarity(data, i, m - 1) == Halves(h);
      var step: nat := if inc == 1.0 then 2 else if inc == 0.5 then 1 else 0;
      assert PartialSimilarity(data, i, m) == Halves(h + step);
      assert PartialSimilarity(data, i, m) == PartialSimilarity(data, i, m - 1) + inc;
      if PartialSimilarity(data, i, m) == m as real {
        assert PartialSimilarity(data, i, m - 1) == (m - 1) as real;
        assert MatchesAt(data, i, m - 1);
      }
      if forall j :: 0 <= j < m ==> MatchesAt(data, i, j) {
        assert MatchesAt(data, i, m - 1);
        assert inc == 1.0;
        assert forall j :: 0 <= j < m - 1 ==> MatchesAt(data, i, j);
      }
    }
  }

  /** A similarity is one of 0, 0.5, ..., 4, and is 4 exactly for a repeat of the last
      four digits. */
  lemma SimilarityRange(data: seq<Digit>, i: nat)
    requires i + PatternLength <= |data|
    ensures 0.0 <= Similarity(data, i) <= 4.0
    ensures exists h: nat :: h <= 8 && Similarity(data, i) == Halves(h)
    ensures Similarity(data, i) == 4.0 <==> Repeats(data, i)
  {
    PartialBounds(data, i, PatternLength);
  }

  /** Every vote is non-negative. */
  lemma {:induction false} ScoresNonNegative(data: seq<Digit>, m: nat)
    requires m + 5 <= |data|
    ensures NonNegative(ScoresBelow(data, m))
  {
    if m > 0 {
      ScoresNonNegative(data, m - 1);
    }
  }

  /** A digit has a positive vote exactly when some qualifying window before m was
      followed by it. */
  lemma {:induction false} ScoresSupport(data: seq<Digit>, m: nat, d: Digit)
    requires m + 5 <= |data|
    ensures ScoresBelow(data, m)[d] > 0.0 <==> exists i :: 0 <= i < m && VotesFor(data, i, d)
  {
    if m > 0 {
      ScoresSupport(data, m - 1, d);
      ScoresNonNegative(data, m - 1);
      if VotesFor(data, m - 1, d) {
        assert exists i :: 0 <= i < m && VotesFor(data, i, d);
      }
      if exists i :: 0 <= i < m && VotesFor(data, i, d) {
        var i :| 0 <= i < m && VotesFor(data, i, d);
        if i < m - 1 {
          assert exists i :: 0 <= i < m - 1 && VotesFor(data, i, d);
        }
      }
    }
  }

  /** The scores add up to a positive total exactly when some window before m qualifies. */
  lemma {:induction false} ScoresTotal(data: seq<Digit>, m: nat)
    requires m + 5 <= |data|
    ensures Sum(ScoresBelow(data, m)) >= 0.0
    ensures Sum(ScoresBelow(data, m)) > 0.0 <==> exists i :: 0 <= i < m && Qualifies(data, i)
  {
    if m == 0 {
      ZerosSum();
    } else {
      ScoresTotal(data, m - 1);
      var s := ScoresBelow(data, m - 1);
      var sim := Similarity(data, m - 1);
      if sim >= Threshold {
        SumUpdate(s, data[m + 3], s[data[m + 3]] + sim);
        assert Qualifies(data, m - 1);
      }
      if exists i :: 0 <= i < m && Qualifies(data, i) {
        var i :| 0 <= i < m && Qualifies(data, i);
        if i < m - 1 {
          assert exists i :: 0 <= i < m - 1 && Qualifies(data, i);
        }
      }
    }
  }

  /** The result is always a distribution (by `ScoresTotal`, the uniform fallback is
      taken exactly when no window qualifies). */
  lemma CompletionDistribution(data: seq<Digit>)
    ensures IsDistribution(Completion(data))
  {
    if |data| >= MinLength {
      ScoresNonNegative(data, |data| - 5);
      NormalizeOrUniformFacts(ScoresBelow(data, |data| - 5), 0);
    } else {
      UniformIsDistribution();
    }
  }

  /** Outside the fallback a digit has positive probability exactly when it has a positive
      vote, that is (by `ScoresSupport`) when a qualifying window was followed by it. */
  lemma CompletionSupport(data: seq<Digit>, d: Digit)
    requires |data| >= MinLength
    ensures Sum(ScoresBelow(data, |data| - 5)) > 0.0 ==>
              (Completion(data)[d] > 0.0 <==> ScoresBelow(data, |data| - 5)[d] > 0.0)
  {
    ScoresNonNegative(data, |data| - 5);
    NormalizeOrUniformFacts(ScoresBelow(data, |data| - 5), d);
  }

  /** An earlier exact repeat of the last four digits always gives its follower positive
      probability. */
  lemma RepeatVotes(data: seq<Digit>, i: nat)
    requires |data| >= MinLength && i < |data| - 5
    requires Repeats(data, i)
    ensures Completion(data)[data[i + PatternLength]] > 0.0
  {
    SimilarityRange(data, i);
    assert VotesFor(data, i, data[i + PatternLength]);
    assert Qualifies(data, i);
    ScoresTotal(data, |data| - 5);
    CompletionSupport(data, data[i + PatternLength]);
    ScoresSupport(data, |data| - 5, data[i + PatternLength]);
  }
}
