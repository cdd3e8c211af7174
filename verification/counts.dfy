/**
 * The value-level vocabulary of a directly-follows distribution: event labels,
 * ordered label pairs, the pairs a trace contributes, absolute counts and their
 * normalisation into relative frequencies.
 */
module DirectlyFollowsCounts {

  /** The class of one event (its activity name and lifecycle transition), opaque here. */
  type Label = string

  /** A directly-follows pair: the second label immediately follows the first in a trace. */
  type Pair = (Label, Label)

  /** The adjacent label pairs of a trace, in trace order. */
  function PairsOf(trace: seq<Label>): (ps: seq<Pair>)
    ensures |ps| == if |trace| == 0 then 0 else |trace| - 1
    ensures forall i :: 0 <= i < |ps| ==> ps[i] == (trace[i], trace[i + 1])
  {
    if |trace| < 2 then [] else [(trace[0], trace[1])] + PairsOf(trace[1..])
  }

  /** How often `p` occurs in `ps`. */
  function Occurrences(ps: seq<Pair>, p: Pair): nat
  {
    if ps == [] then 0
    else Occurrences(ps[..|ps| - 1], p) + (if ps[|ps| - 1] == p then 1 else 0)
  }

  /** The count of `p`, or 0 when `p` has never been recorded (`getOrDefault(p, 0)`). */
  function CountOf(m: map<Pair, nat>, p: Pair): nat
  {
    if p in m then m[p] else 0
  }

  /** Records one observation of `p`. */
  function Increment(m: map<Pair, nat>, p: Pair): (r: map<Pair, nat>)
    ensures r.Keys == m.Keys + {p}
    ensures CountOf(r, p) == CountOf(m, p) + 1
    ensures forall q :: q != p ==> CountOf(r, q) == CountOf(m, q)
  {
    m[p := CountOf(m, p) + 1]
  }

  /** The distinct pairs of `ps`. */
  function Elements(ps: seq<Pair>): set<Pair>
  {
    set p | p in ps
  }

  /** Records every pair of `ps`, first to last. */
  function AddPairs(m: map<Pair, nat>, ps: seq<Pair>): map<Pair, nat>
  {
    if ps == [] then m else Increment(AddPairs(m, ps[..|ps| - 1]), ps[|ps| - 1])
  }

  /** Recording one more pair of a prefix of `ps` is one more `Increment`. */
  lemma AddPairsStep(m: map<Pair, nat>, ps: seq<Pair>, i: nat)
    requires i < |ps|
    ensures AddPairs(m, ps[..i + 1]) == Increment(AddPairs(m, ps[..i]), ps[i])
  {
    assert ps[..i + 1][..i] == ps[..i];
  }

  /** Every recorded pair has been observed at least once. */
  ghost predicate AllPositive(m: map<Pair, nat>)
  {
    forall p :: p in m ==> m[p] > 0
  }

  /** Some element of a non-empty set of pairs: the one a sum over the set takes first. */
  ghost function Pick(s: set<Pair>): (k: Pair)
    requires s != {}
    ensures k in s
  {
    var k :| k in s; k
  }

  /** The sum of all counts, over the keys in whatever order. */
  ghost function SumCounts(m: map<Pair, nat>): nat
    decreases |m|
  {
    if |m| == 0 then 0 else m[Pick(m.Keys)] + SumCounts(m - {Pick(m.Keys)})
  }

  /** Relative frequencies: every recorded pair's count divided by `total`. */
  function Normalize(m: map<Pair, nat>, total: real): map<Pair, real>
    requires total > 0.0 || |m| == 0
  {
    map p | p in m :: m[p] as real / total
  }

  // ---------------------------------------------------------------------------
  // Counting per trace

  /** Recording the pairs of `ps` adds exactly their occurrences to each count and keeps every old key. */
  lemma {:induction false} AddPairsCounts(m: map<Pair, nat>, ps: seq<Pair>)
    ensures AddPairs(m, ps).Keys == m.Keys + Elements(ps)
    ensures forall p :: CountOf(AddPairs(m, ps), p) == CountOf(m, p) + Occurrences(ps, p)
  {
    if ps != [] {
      var init := ps[..|ps| - 1];
      AddPairsCounts(m, init);
      var last := ps[|ps| - 1];
      assert ps == init + [last];
      assert Elements(ps) == Elements(init) + {last};
    }
  }

  /** Recording keeps every count positive. */
  lemma {:induction false} AddPairsPositive(m: map<Pair, nat>, ps: seq<Pair>)
    requires AllPositive(m)
    ensures AllPositive(AddPairs(m, ps))
  {
    if ps != [] {
      AddPairsPositive(m, ps[..|ps| - 1]);
    }
  }

  // ---------------------------------------------------------------------------
  // Conservation

  /** The sum may be split at any key, whichever key the definition happened to pick. */
  lemma {:induction false} SumCountsRemove(m: map<Pair, nat>, k: Pair)
    requires k in m
    ensures SumCounts(m) == m[k] + SumCounts(m - {k})
    decreases |m|
  {
    var j := Pick(m.Keys);
    if j != k {
      var mj, mk := m - {j}, m - {k};
      SumCountsRemove(mj, k);
      SumCountsRemove(mk, j);
      assert mj - {k} == mk - {j};
    }
  }

  /** One recorded observation raises the sum of counts by one. */
  lemma SumCountsIncrement(m: map<Pair, nat>, p: Pair)
    ensures SumCounts(Increment(m, p)) == SumCounts(m) + 1
  {
    var r := Increment(m, p);
    SumCountsRemove(r, p);
    if p in m {
      SumCountsRemove(m, p);
      assert r - {p} == m - {p};
    } else {
      assert r - {p} == m;
    }
  }

  /** Recording `ps` raises the sum of counts by the number of pairs recorded. */
  lemma {:induction false} AddPairsConserves(m: map<Pair, nat>, ps: seq<Pair>)
    ensures SumCounts(AddPairs(m, ps)) == SumCounts(m) + |ps|
  {
    if ps != [] {
      AddPairsConserves(m, ps[..|ps| - 1]);
      SumCountsIncrement(AddPairs(m, ps[..|ps| - 1]), ps[|ps| - 1]);
    }
  }

  /** No count exceeds the sum, and a non-empty positive map has a positive sum. */
  lemma CountBelowSum(m: map<Pair, nat>, k: Pair)
    requires k in m
    ensures m[k] <= SumCounts(m)
    ensures AllPositive(m) ==> SumCounts(m) > 0
  {
    SumCountsRemove(m, k);
  }

  /** Recording keeps the store's counting invariant: positive counts, old keys kept, the sum grown by one per pair, and a positive sum whenever a pair is recorded. */
  lemma AddPairsKeepsCounting(m: map<Pair, nat>, ps: seq<Pair>)
    requires AllPositive(m)
    ensures AllPositive(AddPairs(m, ps))
    ensures m.Keys <= AddPairs(m, ps).Keys
    ensures SumCounts(AddPairs(m, ps)) == SumCounts(m) + |ps|
    ensures |AddPairs(m, ps)| == 0 || SumCounts(AddPairs(m, ps)) > 0
  {
    var r := AddPairs(m, ps);
    AddPairsCounts(m, ps);
    AddPairsPositive(m, ps);
    AddPairsConserves(m, ps);
    if |r| > 0 {
      CountBelowSum(r, Pick(r.Keys));
    }
  }

  // ---------------------------------------------------------------------------
  // Normalisation

  /** With the sum of counts as total, every relative frequency lies in (0, 1]. */
  lemma NormalizedInUnitInterval(m: map<Pair, nat>, total: real, p: Pair)
    requires AllPositive(m) && total == SumCounts(m) as real
    requires p in m
    ensures total > 0.0
    ensures 0.0 < Normalize(m, total)[p] <= 1.0
  {
    CountBelowSum(m, p);
    FractionAtMostOne(m[p] as real, total);
  }

  /** A positive part of a positive whole is a fraction in (0, 1]. */
  lemma FractionAtMostOne(part: real, whole: real)
    requires 0.0 < part <= whole
    ensures 0.0 < part / whole <= 1.0
  {
  }

  /** The trace [A, B, A, C] on an empty store: three pairs, each seen once, each with frequency 1/3. */
  lemma ExampleTraceABAC()
    ensures PairsOf(["A", "B", "A", "C"]) == [("A", "B"), ("B", "A"), ("A", "C")]
    ensures AddPairs(map[], PairsOf(["A", "B", "A", "C"]))
         == map[("A", "B") := 1, ("B", "A") := 1, ("A", "C") := 1]
    ensures Normalize(map[("A", "B") := 1, ("B", "A") := 1, ("A", "C") := 1], 3.0)
         == map[("A", "B") := 1.0 / 3.0, ("B", "A") := 1.0 / 3.0, ("A", "C") := 1.0 / 3.0]
  {
    var ps := PairsOf(["A", "B", "A", "C"]);
    assert ps == [("A", "B"), ("B", "A"), ("A", "C")];
    var p1: seq<Pair> := [("A", "B")];
    var p2: seq<Pair> := [("A", "B"), ("B", "A")];
    assert p1[..0] == [] && p2[..1] == p1 && ps[..2] == p2;
    var m1 := AddPairs(map[], p1);
    assert m1 == Increment(map[], ("A", "B"));
    var m2 := AddPairs(map[], p2);
    assert m2 == Increment(m1, ("B", "A"));
    assert AddPairs(map[], ps) == Increment(m2, ("A", "C"));
  }

  /** [A, B, A] records (A,B) and (B,A) once each; [A, B] then raises (A,B) to 2 and adds no new pair. */
  lemma ExampleRenormalizationCounts()
    ensures AddPairs(map[], PairsOf(["A", "B", "A"])) == map[("A", "B") := 1, ("B", "A") := 1]
    ensures AddPairs(map[("A", "B") := 1, ("B", "A") := 1], PairsOf(["A", "B"])) == map[("A", "B") := 2, ("B", "A") := 1]
  {
    var ab, ba := ("A", "B"), ("B", "A");
    var p1: seq<Pair> := [ab];
    var p2: seq<Pair> := [ab, ba];
    assert PairsOf(["A", "B", "A"]) == p2 && p2[..1] == p1 && p1[..0] == [];
    assert PairsOf(["A", "B"]) == p1;
    var before := AddPairs(map[], p2);
    assert AddPairs(map[], p1) == map[ab := 1];
    assert before == map[ab := 1, ba := 1];
    var after := AddPairs(before, p1);
    assert after == Increment(AddPairs(before, []), ab);
  }
}
