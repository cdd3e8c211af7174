# Directly-follows distribution

A Dafny model of `DirectlyFollowsDistribution`, the incremental store that the
quality-checking component of IncrementalPM uses to monitor an event stream.
The store counts, for every ordered pair of event classes (A, B), how often B
directly follows A in the traces seen so far. It keeps three things: the absolute
count per pair, the relative frequency per pair (count over `total`), and
`total`, the number of pair observations. On top of the store sit:

- the update-and-compare drift predicate `addTraceAndCheckPredicate`. It applies a
  trace, then reports whether the relative distribution moved by more than
  `epsilon`, measured as the Euclidean distance between the frequencies before and
  after;
- two comparisons of one store against another:
  - a sum of squared differences of the relative frequencies;
  - a chi-square homogeneity test on the absolute counts, aligned over the union of
    the two stores' pairs.

The model has three modules:

- `DirectlyFollowsCounts` (`counts.dfy`) holds the value-level vocabulary and its
  lemmas:
  - labels, pairs, the pairs of a trace, absolute counts, recording a pair, the
    sum of counts and normalisation;
  - counting per trace, conservation of `total`, and normalised values in (0, 1].
- `DistributionComparison` (`comparison.dfy`) holds the comparisons and their
  lemmas:
  - the sum of squared frequency differences over a key set, with the loop that
    computes it;
  - the distance over the union of keys, and the square-root threshold;
  - the enumeration of a key set, and the aligned count columns with the loop that
    fills them.
  - The lemmas cover non-negativity, symmetry, "zero iff the frequencies agree",
    distance over a grown key set, and the column sums.
- `DirectlyFollows` (`distribution.dfy`) holds the store itself:
  - a class with the three fields, which its methods update in place;
  - the invariant `Valid`: positive counts, `total` equal to their sum, and the
    relative map equal to the normalised absolute map.
  - `Valid` holds between the public operations. The constructor and `EmptyCopy`
    establish it; `AddTrace` and `AddTraceAndCheckPredicate` keep it.
  - `IncrementCountEventClassPair` is the internal step of `addTrace` (private in
    the source). During it, `Valid` does not hold: counts and `total` have moved
    but the relative map has not. `RecomputeRelative` re-establishes `Valid` at the
    end of `AddTrace`.

Event labels are taken as input: the classification of an XES event into a label
is not part of this model. The statistics library's chi-square test is passed in
as a function parameter.

## Model

| member | source | states |
|---|---|---|
| DirectlyFollows.DirectlyFollowsDistribution.constructor | IncrementalPM/src/qualitychecking/DirectlyFollowsDistribution.java:21-25 | A new store has no pairs, an empty relative map and `total` 0, and satisfies the store invariant. |
| DirectlyFollows.DirectlyFollowsDistribution.IncrementCountEventClassPair | IncrementalPM/src/qualitychecking/DirectlyFollowsDistribution.java:128-132 | The pair's count goes up by one, starting from 0 when the pair is absent. `total` goes up by one and the relative map is untouched. |
| DirectlyFollows.DirectlyFollowsDistribution.AddTrace | IncrementalPM/src/qualitychecking/DirectlyFollowsDistribution.java:27-36 | Every adjacent pair of the trace is recorded, and `total` grows by the number of pairs. The relative map is then the whole absolute map over the new `total`. The store invariant is kept, and both key sets only grow. |
| DirectlyFollows.DirectlyFollowsDistribution.RecomputeRelative | IncrementalPM/src/qualitychecking/DirectlyFollowsDistribution.java:33-35 | Every recorded pair gets count/`total`, not only the pairs just touched. Nothing is divided when nothing has been recorded, so the relative map stays empty. |
| DirectlyFollows.DirectlyFollowsDistribution.AddTraceAndCheckPredicate | IncrementalPM/src/qualitychecking/DirectlyFollowsDistribution.java:38-54 | The store ends exactly as `AddTrace` alone leaves it. The result is true iff the square root of the summed squared differences between the old frequencies (0 for a new pair) and the new ones exceeds `epsilon`. |
| DirectlyFollows.DirectlyFollowsDistribution.ComputeTotalDistance | IncrementalPM/src/qualitychecking/DirectlyFollowsDistribution.java:103-121 | The result is the sum, over the union of both relative key sets, of the squared difference of the two frequencies, a missing pair counting 0. |
| DirectlyFollows.DirectlyFollowsDistribution.AlignObservedCounts | IncrementalPM/src/qualitychecking/DirectlyFollowsDistribution.java:56-75 | The keys list the union of both stores' pairs once each. Both count vectors have that length, and position i holds `keys[i]`'s count in each store, 0 where a store lacks the pair. |
| DirectlyFollows.DirectlyFollowsDistribution.ComputeExternalStatistic | IncrementalPM/src/qualitychecking/DirectlyFollowsDistribution.java:56-78 | The p-value is the test applied to the two aligned count columns, over one enumeration of the union of pairs. |
| DirectlyFollows.DirectlyFollowsDistribution.EmptyCopy | IncrementalPM/src/qualitychecking/DirectlyFollowsDistribution.java:144-147 | The result is a fresh store with `total` 0 and both maps empty. |
| DirectlyFollows.ExampleScenario | IncrementalPM/src/qualitychecking/DirectlyFollowsDistribution.java:27-36 | [A, B, A, C] on a new store gives (A,B), (B,A) and (A,C) once each, `total` 3, and each relative value 1/3. |
| DirectlyFollows.RenormalizationScenario | IncrementalPM/src/qualitychecking/DirectlyFollowsDistribution.java:38-54 | After [A, B, A], the trace [A, B] adds no new pair, yet the predicate reports drift at threshold 0, because every frequency is renormalised. |
| DirectlyFollowsCounts.PairsOf | IncrementalPM/src/qualitychecking/DirectlyFollowsDistribution.java:29-31 | A trace of n labels yields max(n-1, 0) pairs. Pair i is (label i, label i+1), the pair `getEventClassPair` builds. |
| DirectlyFollowsCounts.Increment | IncrementalPM/src/qualitychecking/DirectlyFollowsDistribution.java:130 | The map after `put(pair, getOrDefault(pair, 0) + 1)`: the key set gains the pair, its count goes up by one, and every other count is unchanged. |
| DirectlyFollowsCounts.AddPairsCounts | IncrementalPM/src/qualitychecking/DirectlyFollowsDistribution.java:29-31 | Recording a list of pairs adds to every pair's count exactly its number of occurrences in the list. The key set becomes the old keys plus the recorded pairs. |
| DirectlyFollowsCounts.AddPairsPositive | IncrementalPM/src/qualitychecking/DirectlyFollowsDistribution.java:130 | Recording keeps every stored count positive. |
| DirectlyFollowsCounts.SumCountsIncrement | IncrementalPM/src/qualitychecking/DirectlyFollowsDistribution.java:130-131 | One increment raises the sum of all counts by one, in step with `total = total + 1`. |
| DirectlyFollowsCounts.AddPairsConserves | IncrementalPM/src/qualitychecking/DirectlyFollowsDistribution.java:29-31 | Recording n pairs raises the sum of all counts by n. |
| DirectlyFollowsCounts.AddPairsKeepsCounting | IncrementalPM/src/qualitychecking/DirectlyFollowsDistribution.java:29-35 | After recording a trace, counts stay positive and old pairs are kept. The sum grows by the number of pairs, and it is positive whenever any pair is stored, so the recompute never divides by zero. |
| DirectlyFollowsCounts.NormalizedInUnitInterval | IncrementalPM/src/qualitychecking/DirectlyFollowsDistribution.java:33-35 | With `total` the sum of the counts, every relative value lies in (0, 1]. |
| DirectlyFollowsCounts.ExampleTraceABAC | IncrementalPM/src/qualitychecking/DirectlyFollowsDistribution.java:27-36 | [A, B, A, C] yields the pairs (A,B), (B,A), (A,C), each counted once from empty, and normalised by 3 each is 1/3. |
| DirectlyFollowsCounts.ExampleRenormalizationCounts | IncrementalPM/src/qualitychecking/DirectlyFollowsDistribution.java:27-36 | [A, B, A] records (A,B) and (B,A) once each. [A, B] then raises (A,B) to 2 and adds no pair. |
| DistributionComparison.SqDiffZero | IncrementalPM/src/qualitychecking/DirectlyFollowsDistribution.java:118 | One pair's squared difference is 0 iff the two frequencies (0 where missing) are equal. |
| DistributionComparison.SumSqZero | IncrementalPM/src/qualitychecking/DirectlyFollowsDistribution.java:107-119 | A sum of squared differences over any key set is non-negative. It is 0 iff the two maps agree, 0 where missing, on every key of the set. |
| DistributionComparison.SumSqSymmetric | IncrementalPM/src/qualitychecking/DirectlyFollowsDistribution.java:107-119 | Swapping the two maps leaves the sum of squared differences unchanged. |
| DistributionComparison.SumSquaredDifferences | IncrementalPM/src/qualitychecking/DirectlyFollowsDistribution.java:107-120 | The accumulating loop over a key set, looking up each side or 0, returns the sum of squared differences over that set. |
| DistributionComparison.DistanceProperties | IncrementalPM/src/qualitychecking/DirectlyFollowsDistribution.java:103-121 | The distance is non-negative and symmetric. It is 0 iff the two relative maps agree on the union of their keys, and 0 for a store compared with itself. |
| DistributionComparison.DistanceOverGrownKeys | IncrementalPM/src/qualitychecking/DirectlyFollowsDistribution.java:44-52 | When the old keys are a subset of the new ones, iterating only the new keys gives the distance over the whole union. |
| DistributionComparison.RenormalizationDrift | IncrementalPM/src/qualitychecking/DirectlyFollowsDistribution.java:38-54 | From {(A,B):1, (B,A):1} to {(A,B):2, (B,A):1}, the frequencies move from 1/2, 1/2 to 2/3, 1/3. The distance is 1/18; its square root (about 0.236) exceeds every threshold up to 0.2. |
| DistributionComparison.RootExceedsIsSqrtComparison | IncrementalPM/src/qualitychecking/DirectlyFollowsDistribution.java:53 | The threshold test agrees with `sqrt(s) > epsilon` for the non-negative root r of s, for every epsilon, negative ones included. |
| DistributionComparison.Enumerate | IncrementalPM/src/qualitychecking/DirectlyFollowsDistribution.java:65 | Iterating a set of pairs lists each of its elements exactly once, in some order. |
| DistributionComparison.ObservedCounts | IncrementalPM/src/qualitychecking/DirectlyFollowsDistribution.java:61-75 | Filling the two zero-initialised arrays side by side yields, at each position, that key's count in each map, 0 where the map lacks it. |
| DistributionComparison.ColumnSum | IncrementalPM/src/qualitychecking/DirectlyFollowsDistribution.java:61-75 | An aligned column over an enumeration that covers the store's pairs sums to the store's total count, so alignment neither loses nor duplicates counts. |
| DistributionComparison.AlignmentExample | IncrementalPM/src/qualitychecking/DirectlyFollowsDistribution.java:56-75 | Aligning {(A,B):2} with {(C,D):3} gives [2,0] and [0,3], or [0,2] and [3,0], depending on the order of the key set. |

## Left out

- The chi-square p-value (`ChiSquareTest.chiSquareTestDataSetsComparison`) and
  `main` are floating-point statistics from Apache Commons Math. The test is a
  function parameter of `ComputeExternalStatistic`: the model fixes its arguments,
  not its value. The library's own rejection of degenerate inputs (fewer than two
  categories, an all-zero column) is not part of this model.
- `printComparison` and `toString` are console output and string rendering only.
- Concurrency is not modelled: the model is a single sequential store.
  - In the source, only `addTraceAndCheckPredicate` is `synchronized`, so only
    calls that all go through it exclude one another.
  - `addTrace` is public and unsynchronized. Its count update
    (`put(pair, getOrDefault(pair, 0) + 1)`) and `total = total + 1` are unguarded
    read-modify-writes, even on a `ConcurrentHashMap`. So two plain `addTrace`
    calls, or one racing `addTraceAndCheckPredicate`, can lose updates.
  - The sequential model cannot show this race.
- `getEventClass`, the XES attribute lookup joining the name and the lifecycle
  transition with "+", is not part of this model; labels are taken as input.
  - In the source, a missing attribute throws a NullPointerException part-way
    through `addTrace`, leaving earlier pair counts applied without a relative
    recompute. The model has no such failure.
  - The model makes no claim that the "+" concatenation keeps distinct event
    classes distinct.
- The downcast of the other distribution to `DirectlyFollowsDistribution`, and the
  ClassCastException it can raise, are left out: with one kind of distribution in
  the model, there is nothing to check.
- A `null` epsilon (a boxed `Double` in the source) is left out.
- `double` arithmetic is modelled with exact reals: `total`, the relative
  frequencies, `Math.pow(x, 2)` (as `x * x`) and the sums. Rounding is not
  modelled, and neither is `total` losing increments beyond 2^53.
- DirectlyFollows.DirectlyFollowsDistribution.AddTraceAndCheckPredicate: the model
  does not compute `Math.sqrt`. It states `sqrt(s) > epsilon` exactly as
  `epsilon < 0 || s > epsilon * epsilon`. `RootExceedsIsSqrtComparison` shows
  that this agrees with the comparison of the real square root.
- DirectlyFollows.DirectlyFollowsDistribution.IncrementCountEventClassPair: counts
  are unbounded naturals. The 32-bit `Integer` wrap-around after 2^31 - 1
  observations of one pair is not modelled.
- Hash-set iteration order is unspecified in the source and is not modelled:
  - key-set loops take their keys in an arbitrary order;
  - the specification sums are defined over sets, and proved independent of the
    order in which keys are taken;
  - the aligned vectors use one arbitrary enumeration of the union for both
    columns.
