/**
 * The incremental directly-follows distribution: a store of absolute counts per
 * ordered label pair, relative frequencies and a running total, updated trace by
 * trace, with the update-and-compare drift predicate and the two comparisons
 * against another store.
 */
module DirectlyFollows {
  import opened DirectlyFollowsCounts
  import opened DistributionComparison

  class DirectlyFollowsDistribution {
    /** Absolute count per pair. */
    var absolute: map<Pair, nat>
    /** Relative frequency per pair. */
    var relative: map<Pair, real>
    /** The number of pair observations so far (a `double` in the source). */
    var total: real

    /**
     * The store's invariant between operations: counts are positive, `total` is
     * their sum, and the relative map holds every recorded pair at its count over
     * `total` (so its keys are exactly the recorded pairs).
     */
    ghost predicate Valid()
      reads this
    {
      && AllPositive(absolute)
      && total == SumCounts(absolute) as real
      && (total > 0.0 || |absolute| == 0)
      && relative == Normalize(absolute, total)
    }

    /** A fresh store: no pair recorded, `total` 0, both maps empty. */
    constructor ()
      ensures Valid()
      ensures absolute == map[] && relative == map[] && total == 0.0
    {
      absolute := map[];
      relative := map[];
      total := 0.0;
    }

    /**
     * Records one observation of the pair (`first`, `second`): its count and `total`
     * go up by one. This is an internal step of `AddTrace`: it leaves the relative
     * map stale, so `Valid` does not hold again until `RecomputeRelative`.
     */
    method IncrementCountEventClassPair(first: Label, second: Label)
      modifies this
      ensures absolute == Increment(old(absolute), (first, second))
      ensures total == old(total) + 1.0
      ensures relative == old(relative)
    {
      var pair := (first, second);
      absolute := absolute[pair := CountOf(absolute, pair) + 1];
      total := total + 1.0;
    }

    /**
     * Records every adjacent pair of `trace`, then recomputes the relative
     * frequency of every recorded pair (not only the ones just touched).
     */
    method AddTrace(trace: seq<Label>)
      requires Valid()
      modifies this
      ensures Valid()
      ensures absolute == AddPairs(old(absolute), PairsOf(trace))
      ensures total == old(total) + |PairsOf(trace)| as real
      ensures relative == Normalize(absolute, total)
      ensures old(absolute).Keys <= absolute.Keys && old(relative).Keys <= relative.Keys
    {
      ghost var pairs := PairsOf(trace);
      var i := 0;
      while i < |trace| - 1
        invariant 0 <= i <= |pairs|
        invariant absolute == AddPairs(old(absolute), pairs[..i])
        invariant total == old(total) + i as real
        invariant relative == old(relative)
      {
        AddPairsStep(old(absolute), pairs, i);
        IncrementCountEventClassPair(trace[i], trace[i + 1]);
        i := i + 1;
      }
      assert pairs[..i] == pairs;
      AddPairsKeepsCounting(old(absolute), pairs);
      assert total == SumCounts(absolute) as real;

      RecomputeRelative();
    }

    /**
     * Rebuilds the relative frequency of every recorded pair from its count and
     * `total`; with nothing recorded there is nothing to divide and the relative
     * map stays empty.
     */
    method RecomputeRelative()
      requires AllPositive(absolute) && total == SumCounts(absolute) as real
      requires total > 0.0 || |absolute| == 0
      requires relative.Keys <= absolute.Keys
      modifies this`relative
      ensures Valid()
      ensures relative == Normalize(absolute, total)
    {
      var keys := absolute.Keys;
      while keys != {}
        invariant keys <= absolute.Keys
        invariant relative.Keys <= absolute.Keys
        invariant forall p :: p in absolute && p !in keys ==> p in relative && relative[p] == absolute[p] as real / total
        decreases keys
      {
        var key :| key in keys;
        relative := relative[key := absolute[key] as real / total];
        keys := keys - {key};
      }
      assert relative.Keys == absolute.Keys;
    }

    /**
     * Applies `trace` exactly as `AddTrace` does and reports whether the relative
     * distribution moved by more than `epsilon`: whether the square root of the
     * summed squared differences between the frequencies before and after
     * (a pair new to the store counting 0 before) exceeds `epsilon`.
     */
    method AddTraceAndCheckPredicate(trace: seq<Label>, epsilon: real) returns (drift: bool)
      requires Valid()
      modifies this
      ensures Valid()
      ensures absolute == AddPairs(old(absolute), PairsOf(trace))
      ensures total == old(total) + |PairsOf(trace)| as real
      ensures relative == Normalize(absolute, total)
      ensures drift == RootExceeds(Distance(old(relative), relative), epsilon)
    {
      var oldFrequencies := relative;
      AddTrace(trace);
      var newFrequencies := relative;

      // Every old key is still present, so the new keys alone cover the union.
      DistanceOverGrownKeys(oldFrequencies, newFrequencies);
      var totalDiff := SumSquaredDifferences(oldFrequencies, newFrequencies, newFrequencies.Keys);
      drift := RootExceeds(totalDiff, epsilon);
    }

    /**
     * The squared-difference distance between this store's relative frequencies
     * and `other`'s, over the union of their pairs, a pair missing from one side
     * counting 0 there.
     */
    method ComputeTotalDistance(other: DirectlyFollowsDistribution) returns (totalDiff: real)
      ensures totalDiff == Distance(relative, other.relative)
    {
      var allKeys := relative.Keys + other.relative.Keys;
      totalDiff := SumSquaredDifferences(relative, other.relative, allKeys);
    }

    /**
     * The two observed-count vectors handed to the chi-square test: one position
     * per pair recorded in either store (listed once each in `keys`), holding that
     * pair's count in this store and in `other`, 0 where a store lacks it.
     */
    method AlignObservedCounts(other: DirectlyFollowsDistribution)
      returns (keys: seq<Pair>, observed1: seq<nat>, observed2: seq<nat>)
      ensures Enumerates(keys, absolute.Keys + other.absolute.Keys)
      ensures |observed1| == |observed2| == |keys|
      ensures observed1 == Column(absolute, keys) && observed2 == Column(other.absolute, keys)
    {
      keys := Enumerate(absolute.Keys + other.absolute.Keys);
      observed1, observed2 := ObservedCounts(absolute, other.absolute, keys);
    }

    /**
     * The chi-square homogeneity test of this store against `other`: the aligned
     * count vectors are handed to `chiSquareTest`, which stands for the statistics
     * library and returns its p-value.
     */
    method ComputeExternalStatistic(other: DirectlyFollowsDistribution, chiSquareTest: (seq<nat>, seq<nat>) -> real)
      returns (pValue: real, ghost keys: seq<Pair>)
      ensures Enumerates(keys, absolute.Keys + other.absolute.Keys)
      ensures pValue == chiSquareTest(Column(absolute, keys), Column(other.absolute, keys))
    {
      var observed1, observed2;
      keys, observed1, observed2 := AlignObservedCounts(other);
      pValue := chiSquareTest(observed1, observed2);
    }

    /** A fresh, empty store of the same kind. */
    method EmptyCopy() returns (copy: DirectlyFollowsDistribution)
      ensures fresh(copy) && copy.Valid()
      ensures copy.absolute == map[] && copy.relative == map[] && copy.total == 0.0
    {
      copy := new DirectlyFollowsDistribution();
    }
  }

  /** The trace [A, B, A, C] on a fresh store: three pairs seen once each, `total` 3, each frequency 1/3. */
  method ExampleScenario() returns (store: DirectlyFollowsDistribution)
    ensures store.absolute == map[("A", "B") := 1, ("B", "A") := 1, ("A", "C") := 1]
    ensures store.total == 3.0
    ensures store.relative == map[("A", "B") := 1.0 / 3.0, ("B", "A") := 1.0 / 3.0, ("A", "C") := 1.0 / 3.0]
  {
    store := new DirectlyFollowsDistribution();
    ExampleTraceABAC();
    store.AddTrace(["A", "B", "A", "C"]);
  }

  /**
   * A store that has seen [A, B, A] reports drift at threshold 0 for the trace
   * [A, B], which adds no new pair: the frequencies are renormalised.
   */
  method RenormalizationScenario() returns (drift: bool)
    ensures drift
  {
    var store := new DirectlyFollowsDistribution();
    ExampleRenormalizationCounts();
    ghost var before, after := map[("A", "B") := 1, ("B", "A") := 1], map[("A", "B") := 2, ("B", "A") := 1];
    store.AddTrace(["A", "B", "A"]);
    assert store.absolute == before && store.total == 2.0;
    ghost var relativeBefore := store.relative;
    drift := store.AddTraceAndCheckPredicate(["A", "B"], 0.0);
    assert store.absolute == after && store.total == 3.0;
    assert relativeBefore == Normalize(before, 2.0) && store.relative == Normalize(after, 3.0);
    RenormalizationDrift(0.0);
  }
}
