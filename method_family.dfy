/**
 * The ensemble's family test: a method belongs to the pattern family when its display name
 * contains "Pattern" or "Markov" (`name.includes(...)`).
 */
module MethodFamily {
  /** `s.includes(t)`: t occurs in s as a contiguous run. */
  predicate Includes(s: string, t: string)
  {
    exists i :: 0 <= i <= |s| - |t| && At(s, t, i)
  }

  /** t occurs in s starting at position i. */
  predicate At(s: string, t: string, i: int)
  {
    0 <= i && i + |t| <= |s| && s[i..i + |t|] == t
  }

  /** The pattern family: a name that mentions "Pattern" or "Markov". */
  predicate PatternFamily(name: string)
  {
    Includes(name, "Pattern") || Includes(name, "Markov")
  }

  /** Markov 1st, 2nd and 3rd Order, Variable Order Markov and Pattern Completion belong to
      the pattern family. */
  lemma PatternNames()
    ensures PatternFamily("Markov 1st Order") && PatternFamily("Markov 2nd Order")
    ensures PatternFamily("Markov 3rd Order") && PatternFamily("Variable Order Markov")
    ensures PatternFamily("Pattern Completion")
  {
    FirstOrderInside();
    SecondOrderInside();
    ThirdOrderInside();
    VariableOrderInside();
    CompletionInside();
  }

  lemma FirstOrderInside()
    ensures PatternFamily("Markov 1st Order")
  {
    Inside("Markov 1st Order", "Markov", 0);
  }

  lemma SecondOrderInside()
    ensures PatternFamily("Markov 2nd Order")
  {
    Inside("Markov 2nd Order", "Markov", 0);
  }

  lemma ThirdOrderInside()
    ensures PatternFamily("Markov 3rd Order")
  {
    Inside("Markov 3rd Order", "Markov", 0);
  }

  lemma VariableOrderInside()
    ensures PatternFamily("Variable Order Markov")
  {
    Inside("Variable Order Markov", "Markov", 15);
  }

  lemma CompletionInside()
    ensures PatternFamily("Pattern Completion")
  {
    Inside("Pattern Completion", "Pattern", 0);
  }

  /** Kneser-Ney Smoothing, Recency-Weighted, Positional Cycles and Sequence Momentum do not:
      they are scaled by the frequency weight. */
  lemma FrequencyNames()
    ensures !PatternFamily("Kneser-Ney Smoothing") && !PatternFamily("Recency-Weighted")
    ensures !PatternFamily("Positional Cycles") && !PatternFamily("Sequence Momentum")
  {
    KneserNeyOutside();
    RecencyOutside();
    PositionalOutside();
    MomentumOutside();
  }

  lemma KneserNeyOutside()
    ensures !PatternFamily("Kneser-Ney Smoothing")
  {
    Outside("Kneser-Ney Smoothing", 'P', 'k');
  }

  lemma RecencyOutside()
    ensures !PatternFamily("Recency-Weighted")
  {
    Outside("Recency-Weighted", 'P', 'k');
  }

  lemma PositionalOutside()
    ensures !PatternFamily("Positional Cycles")
  {
    Outside("Positional Cycles", 'r', 'k');
  }

  lemma MomentumOutside()
    ensures !PatternFamily("Sequence Momentum")
  {
    Outside("Sequence Momentum", 'P', 'k');
  }

  /** A name holding "Pattern" or "Markov" at position i is in the family. */
  lemma Inside(name: string, t: string, i: nat)
    requires t == "Pattern" || t == "Markov"
    requires At(name, t, i)
    ensures PatternFamily(name)
  {
    Occurs(name, t, i);
  }

  /** A name that lacks a letter of "Pattern" and a letter of "Markov" is outside the family. */
  lemma Outside(name: string, a: char, b: char)
    requires a in "Pattern" && a !in name && b in "Markov" && b !in name
    ensures !PatternFamily(name)
  {
    Missing(name, "Pattern", a);
    Missing(name, "Markov", b);
  }

  /** t occurs in s at position i. */
  lemma Occurs(s: string, t: string, i: nat)
    requires At(s, t, i)
    ensures Includes(s, t)
  {
  }

  /** A character of t that s lacks keeps t out of s. */
  lemma Missing(s: string, t: string, c: char)
    requires c in t && c !in s
    ensures !Includes(s, t)
  {
    var j :| 0 <= j < |t| && t[j] == c;
    forall i | 0 <= i <= |s| - |t|
      ensures !At(s, t, i)
    {
      assert s[i..i + |t|][j] == s[i + j];
    }
  }
}
