# Digit-sequence prediction pipeline, modelled in Dafny

This project models the prediction pipeline of a number-pattern analyser. The pipeline
reads a history of digits 0..9, and each estimator turns it into a ten-slot probability
vector. The estimators are:

- a Markov transition-table builder for orders 1 to 5;
- a variable-order selector;
- a simplified Kneser-Ney bigram smoother;
- a recency-weighted follower tally;
- 4-digit pattern completion;
- a stride-`cycleLength` positional tally;
- trend extrapolation (sequence momentum).

Alongside these, three modules feed the final step:

- a change-point detector over sliding-window sums;
- an entropy-based split between pattern-style and frequency-style estimators;
- a smoothed Bayesian average of four vectors.

The ensemble combiner then re-weights the nine estimator vectors by family, renormalises
the weights and mixes the vectors. It tempers the mix, rescales it to percentages, ranks
the top five digits and sorts the methods by weight.

There is one Dafny module per JavaScript module, plus three shared modules:

- `Vectors`: digit type, sums, normalisation and powers;
- `Ranking`: a stable descending sort, given as a ranking of indices;
- `MethodFamily`: the `includes('Pattern') || includes('Markov')` test on method names.

Loops of the source are methods with loop invariants. Each method is proved equal to a
specification function, and the properties the code promises are proved as lemmas about
those functions.

Modelling choices:

- Context keys are digit sequences, not comma-joined strings.
- Tables are `map<seq<Digit>, seq<nat>>`.
- Missing values (`null`, `undefined`) become `Option`.
- Ratios are exact reals. The 0.95 decay is a power of 0.95.
- The transcendental functions are parameters:
  - `Math.exp(-0.5 d)` is `q` to the power `d`, with `0 < q < 1`;
  - `Math.log2` is a function satisfying `IsLog2`: log2(1) = 0, log2(10) > 0, the product
    rule, and the tangent bound log2(z) <= c (z - 1) for some c > 0;
  - `x => Math.pow(x, 1/1.2)` is a function satisfying `IsRoot`.

The variable-order selector accepts order 1 only when the last digit has an order-1 row;
otherwise it returns `null`.

## Model

| member | source | states |
|---|---|---|
| HigherOrderMarkov.CalculateHigherOrderMarkov | frontend/src/components/predictions/higherOrderMarkov.js:5-29 | the loops build exactly `Markov(data)`: empty below 6 digits, otherwise per order 1..5 the count table and its row-normalised probabilities |
| HigherOrderMarkov.CountTransitions | frontend/src/components/predictions/higherOrderMarkov.js:10-18 | the in-place tally equals the table `Transitions(data, k)` of follower counts per k-digit window, and its counts add up to n - k |
| HigherOrderMarkov.Normalise | frontend/src/components/predictions/higherOrderMarkov.js:20-24 | the probability table has the same contexts as the count table, each row divided by its total |
| HigherOrderMarkov.MarkovShape | frontend/src/components/predictions/higherOrderMarkov.js:6-27 | below 6 digits the result is empty; otherwise its orders are exactly 1..5; every count row has 10 entries totalling at least 1 and every probability row is a distribution |
| HigherOrderMarkov.CountIsCardinality | frontend/src/components/predictions/higherOrderMarkov.js:12-17 | `transitions[ctx][d]` is the number of start indices i < n - k whose window is ctx and whose follower is d |
| HigherOrderMarkov.TableTotal | frontend/src/components/predictions/higherOrderMarkov.js:12-18 | after m positions the counts over all contexts and digits add up to m |
| HigherOrderMarkov.TransitionRows | frontend/src/components/predictions/higherOrderMarkov.js:12-16 | a context is a key iff it is the window at some start below n - k; every key has length k and a row totalling at least 1, so the zero branch of line 23 never runs |
| HigherOrderMarkov.CountPositive | frontend/src/components/predictions/higherOrderMarkov.js:13-17 | an occurrence of ctx followed by d makes the count of d after ctx at least 1 |
| HigherOrderMarkov.CountAbsent | frontend/src/components/predictions/higherOrderMarkov.js:16-17 | a context never seen has count 0 for every digit |
| HigherOrderMarkov.TableStep | frontend/src/components/predictions/higherOrderMarkov.js:13-17 | one step of the loop creates the window's row if missing and increments the follower's slot |
| HigherOrderMarkov.ContextsStep | frontend/src/components/predictions/higherOrderMarkov.js:13-16 | one step adds exactly the current window to the set of keys |
| HigherOrderMarkov.RowStep | frontend/src/components/predictions/higherOrderMarkov.js:16-17 | one step increments the follower's slot in the current window's row and leaves every other row unchanged |
| HigherOrderMarkov.TallyTotal | frontend/src/components/predictions/higherOrderMarkov.js:16-17 | creating-or-incrementing a row adds exactly one to the table's total count |
| HigherOrderMarkov.ModelsStep | frontend/src/components/predictions/higherOrderMarkov.js:9-26 | each pass of the order loop stores that order's model and leaves the lower orders unchanged |
| HigherOrderMarkov.RowProbabilitiesDistribution | frontend/src/components/predictions/higherOrderMarkov.js:22-23 | a row with positive total becomes ten entries in [0,1] summing to exactly 1 |
| HigherOrderMarkov.ProbabilityRows | frontend/src/components/predictions/higherOrderMarkov.js:20-24 | every probability row of every context is a distribution |
| HigherOrderMarkov.AlternatingRow | frontend/src/components/predictions/higherOrderMarkov.js:12-18 | for 1,2,1,2,1,2,1 at order 1, the row of 1 counts three 2s and the row of 2 counts three 1s |
| HigherOrderMarkov.AlternatingExample | frontend/src/components/predictions/higherOrderMarkov.js:12-23 | for 1,2,1,2,1,2,1 at order 1, context 1 gives digit 2 probability 1 and context 2 gives digit 1 probability 1 |
| VariableOrderMarkov.CalculateVariableOrderMarkov | frontend/src/components/predictions/variableOrderMarkov.js:5-22 | the descending loop with its early return computes `Select(data, orders)`: null below 10 digits, otherwise the scan from order 5 down to 1 |
| VariableOrderMarkov.SelectFromFacts | frontend/src/components/predictions/variableOrderMarkov.js:10-22 | the scan from order k returns the highest accepted order up to k, with the last `order` digits as context, the table's own row and its maximum as confidence; it returns null iff no order from 1 to k passes (max > 0.1 or order 1) |
| VariableOrderMarkov.SelectionFacts | frontend/src/components/predictions/variableOrderMarkov.js:5-22 | null below 10 digits; a selection has order in 1..5, context = the last `order` digits, the table's own row, confidence = its maximum, passes the test, and no higher order passes; on 10+ digits the result is null iff no order passes |
| VariableOrderMarkov.RowExists | frontend/src/components/predictions/variableOrderMarkov.js:11-12 | with the builder's tables, the last k digits have a row iff they occur earlier as a window with a follower |
| VariableOrderMarkov.NoSelectionIffLastDigitNew | frontend/src/components/predictions/variableOrderMarkov.js:10-22 | with the builder's tables and 10+ digits, no order passes, and the selection is null, exactly when the last digit does not occur before the last position |
| VariableOrderMarkov.SkipMeansAbsentOrUniform | frontend/src/components/predictions/variableOrderMarkov.js:12-16 | an order of 2 or more is skipped only when its row is missing or all ten entries are 0.1 |
| Vectors.MaxOfDistribution | frontend/src/components/predictions/variableOrderMarkov.js:14-16 | the maximum of a distribution is at least 0.1, and equals 0.1 exactly for the uniform vector |
| KneserNeySmoothing.CalculateKneserNeySmoothing | frontend/src/components/predictions/kneserNeySmoothing.js:5-42 | the method computes `KneserNey(data, orders)`: uniform below 10 digits, the smoothed row when the last digit has an order-1 row, the normalised continuation counts otherwise |
| KneserNeySmoothing.CountContinuations | frontend/src/components/predictions/kneserNeySmoothing.js:12-23 | the loop over adjacent pairs with its set of seen pairs yields, per digit, the number of distinct predecessors |
| KneserNeySmoothing.PredecessorsAdd | frontend/src/components/predictions/kneserNeySmoothing.js:19-21 | a pair not seen before adds one predecessor to its second digit and none to any other digit |
| KneserNeySmoothing.ContinuationBounds | frontend/src/components/predictions/kneserNeySmoothing.js:15-23 | every continuation count is at most 10, and the follower of the first pair has count at least 1 |
| KneserNeySmoothing.ContinuationTotalPositive | frontend/src/components/predictions/kneserNeySmoothing.js:15-25 | from two digits on, the total continuation count is at least 1, so the divisions by it are defined |
| KneserNeySmoothing.SumDiscounted | frontend/src/components/predictions/kneserNeySmoothing.js:29-34 | the sum of max(c - 0.75, 0) over integer counts is total - 0.75 * numNonZero |
| KneserNeySmoothing.NonZeroCountPositive | frontend/src/components/predictions/kneserNeySmoothing.js:30-31 | a row with positive total has at least one non-zero count |
| KneserNeySmoothing.SmoothedTotal | frontend/src/components/predictions/kneserNeySmoothing.js:29-37 | the discounted-plus-backoff vector sums to exactly 1 |
| KneserNeySmoothing.SmoothedNonNegative | frontend/src/components/predictions/kneserNeySmoothing.js:33-37 | every entry of the discounted-plus-backoff vector is non-negative |
| KneserNeySmoothing.SmoothedDistribution | frontend/src/components/predictions/kneserNeySmoothing.js:29-37 | the main branch yields a distribution |
| KneserNeySmoothing.NormalizedCounts | frontend/src/components/predictions/kneserNeySmoothing.js:39 | the fallback, continuation counts over their total, is a distribution |
| KneserNeySmoothing.KneserNeyDistribution | frontend/src/components/predictions/kneserNeySmoothing.js:5-42 | every branch returns ten non-negative entries summing to 1 |
| KneserNeySmoothing.UnseenFollower | frontend/src/components/predictions/kneserNeySmoothing.js:33-36 | a digit never seen after the last digit gets positive mass iff its continuation count is positive |
| KneserNeySmoothing.SeenFollower | frontend/src/components/predictions/kneserNeySmoothing.js:33-36 | a digit seen after the last digit always gets positive mass |
| KneserNeySmoothing.BranchOnBuilderTables | frontend/src/components/predictions/kneserNeySmoothing.js:28 | with the builder's tables, the main branch is taken iff the last digit occurs before the last position |
| RecencyWeightedMarkov.CalculateRecencyWeightedMarkov | frontend/src/components/predictions/recencyWeightedMarkov.js:5-24 | the backward loop computes `RecencyWeighted(data)`: votes 0.95^(n-2-i) for the follower of each earlier occurrence of the last digit, normalised, or uniform |
| RecencyWeightedMarkov.RecentWeighsMore | frontend/src/components/predictions/recencyWeightedMarkov.js:15 | the occurrence at n - 2 weighs 1, and a nearer occurrence weighs strictly more than a farther one, all weights positive |
| RecencyWeightedMarkov.TallySum | frontend/src/components/predictions/recencyWeightedMarkov.js:13-19 | the buckets are non-negative and add up to `totalWeight` |
| RecencyWeightedMarkov.TallySupport | frontend/src/components/predictions/recencyWeightedMarkov.js:14-16 | bucket d is positive iff some occurrence of the last digit is followed by d |
| RecencyWeightedMarkov.TotalPositive | frontend/src/components/predictions/recencyWeightedMarkov.js:12-19 | `totalWeight` is non-negative, and positive iff the last digit occurs in the scanned range |
| RecencyWeightedMarkov.RecencyDistribution | frontend/src/components/predictions/recencyWeightedMarkov.js:6-24 | every branch returns a distribution |
| RecencyWeightedMarkov.FallbackIffLastDigitNew | frontend/src/components/predictions/recencyWeightedMarkov.js:14-24 | the uniform fallback is taken iff the last digit is new; otherwise exactly the digits that followed an occurrence get positive probability |
| PatternCompletion.CalculatePatternCompletion | frontend/src/components/predictions/patternCompletion.js:5-28 | the nested loops compute `Completion(data)`: windows starting below n - 5 scored against the last four digits, qualifying scores bucketed by follower, normalised, or uniform |
| PatternCompletion.Increment | frontend/src/components/predictions/patternCompletion.js:16-19 | a position adds 0, 0.5 or 1: exactly 1 iff the two digits are equal, exactly 0.5 iff they differ by one |
| PatternCompletion.PartialBounds | frontend/src/components/predictions/patternCompletion.js:14-19 | after m positions the similarity is a whole number of half points in [0, m], and equals m iff all m positions match |
| PatternCompletion.SimilarityRange | frontend/src/components/predictions/patternCompletion.js:9-19 | similarity is one of 0, 0.5, ..., 4, and equals 4 iff the window repeats the last four digits |
| PatternCompletion.ScoresNonNegative | frontend/src/components/predictions/patternCompletion.js:21-24 | every bucket is non-negative |
| PatternCompletion.ScoresSupport | frontend/src/components/predictions/patternCompletion.js:12-24 | bucket d is positive iff some scanned window with similarity at least 2 is followed by d |
| PatternCompletion.ScoresTotal | frontend/src/components/predictions/patternCompletion.js:21-27 | the total is non-negative, and positive iff some scanned window qualifies |
| PatternCompletion.CompletionDistribution | frontend/src/components/predictions/patternCompletion.js:6-28 | every branch returns a distribution |
| PatternCompletion.CompletionSupport | frontend/src/components/predictions/patternCompletion.js:27-28 | when some window qualifies, the digits with positive probability are exactly those with a positive bucket |
| PatternCompletion.RepeatVotes | frontend/src/components/predictions/patternCompletion.js:12-24 | a scanned window equal to the last four digits gives its follower positive probability |
| PositionalPatterns.CalculatePositionalPatterns | frontend/src/components/predictions/positionalPatterns.js:5-18 | the stride loop computes `Positional(data, c)`: the followers of positions n mod c, n mod c + c, ... tallied and normalised, or uniform |
| PositionalPatterns.TallyTotal | frontend/src/components/predictions/positionalPatterns.js:11-15 | the tally counts exactly one follower per sampled position |
| PositionalPatterns.SamplesStep | frontend/src/components/predictions/positionalPatterns.js:11 | a sampled position below n - 1 adds one sample to those after it |
| PositionalPatterns.SampleCount | frontend/src/components/predictions/positionalPatterns.js:9-15 | for 2 <= c <= n the number of samples is n div c |
| PositionalPatterns.PhaseSampled | frontend/src/components/predictions/positionalPatterns.js:9-12 | the first sampled position always has a follower, so the check of line 12 always holds |
| PositionalPatterns.PositionalSampled | frontend/src/components/predictions/positionalPatterns.js:11-18 | for c <= n the tally total is at least 1, so the fallback of line 18 is unreachable |
| PositionalPatterns.PositionalDistribution | frontend/src/components/predictions/positionalPatterns.js:6-18 | every branch returns a distribution |
| PositionalPatterns.PeriodicTally | frontend/src/components/predictions/positionalPatterns.js:11-15 | for a c-periodic history, only the follower of the first sample is ever counted |
| PositionalPatterns.PeriodicOneHot | frontend/src/components/predictions/positionalPatterns.js:9-18 | a c-periodic history yields probability 1 on one digit, the follower of position n mod c |
| PositionalPatterns.NormalizeSingle | frontend/src/components/predictions/positionalPatterns.js:17-18 | normalising a tally with a single non-zero slot gives the one-hot vector of that slot |
| SequenceMomentum.CalculateSequenceMomentum | frontend/src/components/predictions/sequenceMomentum.js:5-28 | the loops compute `Momentum(data, q)`: weights q^|i - predicted| normalised, or uniform below 10 digits |
| SequenceMomentum.Telescoping | frontend/src/components/predictions/sequenceMomentum.js:13-17 | the first differences add up to last minus first |
| SequenceMomentum.PredictedRange | frontend/src/components/predictions/sequenceMomentum.js:9-19 | the prediction depends only on the last digit and the fifth-to-last, and lies in [-2, 11] |
| SequenceMomentum.SteadyClimb | frontend/src/components/predictions/sequenceMomentum.js:9-19 | a history ending 1,2,3,4,5 predicts 6 |
| SequenceMomentum.KernelPositive | frontend/src/components/predictions/sequenceMomentum.js:22-25 | every unnormalised weight is positive, and so is their sum |
| SequenceMomentum.MomentumDistribution | frontend/src/components/predictions/sequenceMomentum.js:27-28 | the result is a distribution with every entry strictly positive |
| SequenceMomentum.CloserIsLikelier | frontend/src/components/predictions/sequenceMomentum.js:22-25 | an entry depends only on its distance to the prediction and strictly decreases as that distance grows |
| SequenceMomentum.PredictionIsMode | frontend/src/components/predictions/sequenceMomentum.js:19-25 | when the prediction is a digit, that digit is strictly the most likely |
| ChangePointDetection.CalculateChangePointDetection | frontend/src/components/predictions/changePointDetection.js:5-27 | the result is `ChangePoints(data, w, th)`: no change points and regime 0 below 50 digits, otherwise the scan's change points and the regime length since the last one |
| ChangePointDetection.Scan | frontend/src/components/predictions/changePointDetection.js:8-22 | the loop pushes exactly the change points `ChangePointsBelow` lists for candidates w <= i < n - w |
| ChangePointDetection.ChangePointsBelow | frontend/src/components/predictions/changePointDetection.js:10-21 | every recorded point lies below the scan position and passes the test, and indices strictly increase |
| ChangePointDetection.ScanStep | frontend/src/components/predictions/changePointDetection.js:10-21 | one candidate appends its change point exactly when the test passes |
| ChangePointDetection.Recorded | frontend/src/components/predictions/changePointDetection.js:10-21 | a candidate index is recorded iff its mean change exceeds the threshold |
| ChangePointDetection.RecordsAppend | frontend/src/components/predictions/changePointDetection.js:20 | after a push, an index is recorded iff it was recorded before or is the pushed one |
| ChangePointDetection.ShiftTest | frontend/src/components/predictions/changePointDetection.js:11-19 | the mean test is the integer test abs(sum after - sum before) > th * w |
| ChangePointDetection.DefaultShiftTest | frontend/src/components/predictions/changePointDetection.js:5-19 | with window 20 and threshold 1.5, i is recorded iff the window sums differ by more than 30 |
| ChangePointDetection.WindowSumBounds | frontend/src/components/predictions/changePointDetection.js:14-15 | a window sum of digits lies between 0 and 9 times the window length |
| ChangePointDetection.MeanChangeAtMostNine | frontend/src/components/predictions/changePointDetection.js:14-17 | a mean change lies in [0, 9] |
| ChangePointDetection.RegimeFacts | frontend/src/components/predictions/changePointDetection.js:17-25 | every recorded mean change is in (th, 9]; when change points exist the regime length is in [w + 1, n - w] |
| ChangePointDetection.ConstantHasNoChange | frontend/src/components/predictions/changePointDetection.js:14-25 | a constant history of 50+ digits has no change points and regime length n |
| EntropyWeighting.CalculateEntropyWeighting | frontend/src/components/predictions/entropyWeighting.js:5-28 | the method computes `EntropyWeights(data, w, log2)`: 0.5/0.5/0.5 below w digits, otherwise the normalised entropy of the last w digits and its split |
| EntropyWeighting.FrequenciesCount | frontend/src/components/predictions/entropyWeighting.js:10-12 | slot d counts the occurrences of d in the window, and the counts add up to the window length |
| EntropyWeighting.FrequenciesMultiplicity | frontend/src/components/predictions/entropyWeighting.js:12 | slot d equals the multiplicity of d in the window |
| EntropyWeighting.FrequenciesTotal | frontend/src/components/predictions/entropyWeighting.js:12 | the counts add up to the window length |
| EntropyWeighting.ZeroContributesNothing | frontend/src/components/predictions/entropyWeighting.js:15-19 | a zero count changes the entropy nowhere it stands |
| EntropyWeighting.EntropyNonNegative | frontend/src/components/predictions/entropyWeighting.js:15-19 | the entropy of proportions in [0, 1] is non-negative |
| EntropyWeighting.CertainEntropy | frontend/src/components/predictions/entropyWeighting.js:15-19 | when every proportion is 0 or 1 the entropy is 0 |
| EntropyWeighting.CertainTerm | frontend/src/components/predictions/entropyWeighting.js:17-18 | the term of a proportion 1 is 0 |
| EntropyWeighting.EntropyAtMostLog10 | frontend/src/components/predictions/entropyWeighting.js:15-21 | Gibbs' inequality: ten proportions adding up to 1 have entropy at most log2(10), the maximum the code normalises by |
| EntropyWeighting.EntropyAtMost | frontend/src/components/predictions/entropyWeighting.js:15-19 | summed term by term, the entropy is at most (log2(10) - c) times the total share plus c/10 per entry |
| EntropyWeighting.TermBound | frontend/src/components/predictions/entropyWeighting.js:17-18 | one term -p log2 p is at most p log2(10) + c (1/10 - p) |
| EntropyWeighting.WeightsSplit | frontend/src/components/predictions/entropyWeighting.js:21-28 | patternWeight + frequencyWeight = 1, frequencyWeight is the returned entropy, and both weights lie in [0, 1] |
| EntropyWeighting.ConstantFrequencies | frontend/src/components/predictions/entropyWeighting.js:11-12 | a run of one digit counts its length for that digit and 0 for the others |
| EntropyWeighting.RepeatedDigit | frontend/src/components/predictions/entropyWeighting.js:10-28 | a window of one repeated digit gives entropy 0, patternWeight 1 and frequencyWeight 0 |
| BayesianAveraging.CalculateBayesianAveraging | frontend/src/components/predictions/bayesianAveraging.js:5-25 | the loops compute `Bayesian(...)`: uniform below 50 digits, otherwise the four vectors plus 0.1 per slot pooled and normalised |
| BayesianAveraging.ModelsShaped | frontend/src/components/predictions/bayesianAveraging.js:11-16 | all four vectors have ten non-negative entries; a missing Markov row is a zero vector of mass 0, a present one has mass 1 |
| BayesianAveraging.PooledTotal | frontend/src/components/predictions/bayesianAveraging.js:18-22 | after m vectors the pool totals their mass plus m, and each slot holds at least 0.1 * m |
| BayesianAveraging.SumSmoothed | frontend/src/components/predictions/bayesianAveraging.js:20-21 | adding one vector with smoothing adds its mass plus 1 to the total |
| BayesianAveraging.BayesianDistribution | frontend/src/components/predictions/bayesianAveraging.js:6-25 | the pooled total is at least 4, and the result is a distribution with every entry strictly positive |
| BayesianAveraging.BayesianFormula | frontend/src/components/predictions/bayesianAveraging.js:11-25 | slot i is (sum of the four entries + 0.4) over 6 plus one for each Markov row present |
| EnsemblePrediction.CalculateEnsemblePrediction | frontend/src/components/predictions/ensemblePrediction.js:17-81 | null iff fewer than 20 digits; otherwise the result is `Ensemble(...)`, built from the re-weighted mix |
| EnsemblePrediction.MixPredictions | frontend/src/components/predictions/ensemblePrediction.js:19-50 | the adjusted method list and the linear mix are the functions `Adjusted` and `Mixed` |
| EnsemblePrediction.Reweight | frontend/src/components/predictions/ensemblePrediction.js:32-38 | each method's weight is multiplied by its family's factor; names and vectors unchanged |
| EnsemblePrediction.Normalise | frontend/src/components/predictions/ensemblePrediction.js:41-42 | each weight is divided by the total weight |
| EnsemblePrediction.CombineMethods | frontend/src/components/predictions/ensemblePrediction.js:45-50 | the accumulated vector is the weighted sum of all method vectors |
| EnsemblePrediction.BaseWeights | frontend/src/components/predictions/ensemblePrediction.js:19-29 | the nine base weights are 0.15, 0.14, 0.12, 0.15, 0.11, 0.10, 0.10, 0.06, 0.07 |
| EnsemblePrediction.BaseWeightsSumToOne | frontend/src/components/predictions/ensemblePrediction.js:19-29 | the base weights add up to exactly 1 |
| EnsemblePrediction.ReweightedBase | frontend/src/components/predictions/ensemblePrediction.js:19-38 | the four Markov methods and Pattern Completion are scaled by 1 + 0.3 * patternWeight, the other four by 1 + 0.3 * frequencyWeight |
| MethodFamily.PatternNames | frontend/src/components/predictions/ensemblePrediction.js:33 | the three Markov names, "Variable Order Markov" and "Pattern Completion" contain "Pattern" or "Markov" |
| MethodFamily.FrequencyNames | frontend/src/components/predictions/ensemblePrediction.js:33-37 | "Kneser-Ney Smoothing", "Recency-Weighted", "Positional Cycles" and "Sequence Momentum" contain neither |
| MethodFamily.Inside | frontend/src/components/predictions/ensemblePrediction.js:33 | a name with "Pattern" or "Markov" at some position is in the pattern family |
| MethodFamily.Outside | frontend/src/components/predictions/ensemblePrediction.js:33 | a name lacking a letter of "Pattern" and a letter of "Markov" is in the frequency family |
| EnsemblePrediction.ReweightedPositive | frontend/src/components/predictions/ensemblePrediction.js:32-38 | with non-negative entropy weights every re-weighted weight is positive, and so is their total |
| EnsemblePrediction.PositiveStaysPositive | frontend/src/components/predictions/ensemblePrediction.js:32-38 | re-weighting keeps positive weights positive |
| EnsemblePrediction.EqualSplit | frontend/src/components/predictions/ensemblePrediction.js:32-38 | with equal entropy weights all methods are scaled by the same factor |
| EnsemblePrediction.NormalisedWeights | frontend/src/components/predictions/ensemblePrediction.js:41-42 | the normalised weights are the weights divided by the total |
| EnsemblePrediction.AdjustedWeights | frontend/src/components/predictions/ensemblePrediction.js:32-42 | after normalisation every weight is positive and they add up to 1; with equal entropy weights they are the base weights |
| EnsemblePrediction.EqualWeights | frontend/src/components/predictions/ensemblePrediction.js:41-42 | weights summing to 1, scaled by 1 + e, sum to 1 + e and normalise back to themselves |
| EnsemblePrediction.MethodsDistributions | frontend/src/components/predictions/ensemblePrediction.js:19-29 | every method vector, a missing Markov row read as uniform, is a distribution with non-negative weight |
| EnsemblePrediction.CombineFacts | frontend/src/components/predictions/ensemblePrediction.js:45-50 | the mix of the first m methods is non-negative and sums to their total weight |
| EnsemblePrediction.MixedIsDistribution | frontend/src/components/predictions/ensemblePrediction.js:45-50 | the mix is a convex combination, hence a distribution |
| EnsemblePrediction.TemperedTotalPositive | frontend/src/components/predictions/ensemblePrediction.js:53-55 | tempering a distribution gives non-negative entries with a positive total |
| EnsemblePrediction.PercentagesOf | frontend/src/components/predictions/ensemblePrediction.js:55-56 | shares of a positive total, times 100, lie in [0, 100] and add up to 100 |
| EnsemblePrediction.PercentagesFacts | frontend/src/components/predictions/ensemblePrediction.js:54-56 | every entry of `allProbabilities` is in [0, 100] and they add up to exactly 100 |
| EnsemblePrediction.FinalKeepsOrder | frontend/src/components/predictions/ensemblePrediction.js:53-56 | tempering and rescaling keep the order of the mixed probabilities, strictly and for ties |
| EnsemblePrediction.TopFiveFacts | frontend/src/components/predictions/ensemblePrediction.js:59-62 | five distinct digits with their own probabilities, non-increasing, ties in ascending digit order, and no digit left out beats the fifth |
| EnsemblePrediction.ConfidenceRange | frontend/src/components/predictions/ensemblePrediction.js:64-71 | with 20+ digits the entropy of the result lies in [0, log2(10)], the confidence in [0, 100], and the confidence is 100 exactly when the entropy is 0 |
| EnsemblePrediction.SummaryConfidence | frontend/src/components/predictions/ensemblePrediction.js:64-71 | for percentages in [0, 100] adding up to 100, the same entropy and confidence ranges |
| EnsemblePrediction.EntropyWeightsValid | frontend/src/components/predictions/entropyWeighting.js:21-28 | the entropy weighting's result has non-negative weights, as the ensemble's re-weighting needs |
| EnsemblePrediction.SortedMethodsFacts | frontend/src/components/predictions/ensemblePrediction.js:76 | the returned methods are a permutation of the adjusted methods, by non-increasing weight |
| Ranking.Insert | frontend/src/components/predictions/ensemblePrediction.js:61 | inserting an index adds exactly that index to the ranking |
| Ranking.InsertSorted | frontend/src/components/predictions/ensemblePrediction.js:61 | inserting a new index into a sorted ranking keeps it sorted |
| Ranking.RankSorted | frontend/src/components/predictions/ensemblePrediction.js:61 | the ranking puts larger keys first and, among equal keys, smaller indices first |
| Ranking.BeforeOrder | frontend/src/components/predictions/ensemblePrediction.js:61 | "ranked ahead" is irreflexive, total on distinct indices and transitive |
| Ranking.RankDescendingFacts | frontend/src/components/predictions/ensemblePrediction.js:59-62 | a stable descending sort: every index once, keys non-increasing, equal keys in ascending index order |
| Ranking.InsertPermutes | frontend/src/components/predictions/ensemblePrediction.js:76 | inserting an index adds its entry to the values taken in ranked order |
| Ranking.RankPermutes | frontend/src/components/predictions/ensemblePrediction.js:76 | values taken in ranked order are a permutation of the values |

## Left out

- The React component, its file upload, random sample data and chart rendering are not part of this model. Its inline copies of the predictors are not part of this model either; the modules are modelled once.
- The Flask backend and `index.js`, which only re-exports, are not part of this model.
- IEEE-754 floating point is not modelled: every ratio is an exact real, so rounding error, `NaN` and `Infinity` do not arise.
- `Math.exp`, `Math.log2` and `Math.pow(x, 1/1.2)` are parameters constrained by the few facts the proofs use (`0 < q < 1`, `IsLog2`, `IsRoot`), not the functions themselves.
- `toFixed` formatting of confidence and entropy is left out: the model keeps both as numbers.
- String keys (`join(',')`, `` `${prev}-${curr}` ``) are digit sequences and digit pairs. With single-character digits this keeps key equality.
- The in-place update of the method objects' `weight` fields and the in-place `methods.sort` are modelled on values: the methods are a sequence the loops rebuild, so aliasing of the method objects is not captured.
- EntropyWeighting.CalculateEntropyWeighting: a window size of 0 is excluded, because in the source it divides by zero.
- EnsemblePrediction.CalculateEnsemblePrediction: requires the predictor vectors to be distributions and the Markov tables to come from the builder (`ValidPredictors`), and the entropy weights to be non-negative (`ValidWeighting`). The source assumes both of its callers; with other inputs it divides by a zero total. The entropy weighting always meets `ValidWeighting` (`EntropyWeightsValid`).
- BayesianAveraging.CalculateBayesianAveraging: requires the Kneser-Ney and recency vectors to be ten non-negative entries and the tables to come from the builder (`Inputs`). With negative entries the source's total could be 0.
- EnsemblePrediction.Normalise: requires a non-zero total weight. The re-weighted base methods always have one (`ReweightedPositive`).
- EnsemblePrediction.SortedMethodsFacts: does not state that methods of equal weight keep list order. That is `Ranking.RankDescendingFacts` for the ranking the sort applies.
- PositionalPatterns.CalculatePositionalPatterns: `cycleLength` is a natural number, so a negative cycle length is not modelled. A cycle length of 0 yields the uniform fallback, as the source's `NaN` phase does.
- KneserNeySmoothing.CalculateKneserNeySmoothing and VariableOrderMarkov.CalculateVariableOrderMarkov: require well-formed Markov tables (`WellFormed`), the kind the builder is proved to produce (`HigherOrderMarkov.MarkovShape`).
