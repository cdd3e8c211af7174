/**
 * Read-only comparisons of directly-follows distributions: the sum of squared
 * differences of relative frequencies over a union of keys (absent keys taken as
 * 0), the square-root threshold test of the drift predicate, and the zero-filled
 * count columns handed to a chi-square homogeneity test.
 */
module DistributionComparison {
  import opened DirectlyFollowsCounts

  /** The relative frequency of `p`, or 0 when `p` is absent. */
  function FreqOf(m: map<Pair, real>, p: Pair): real
  {
    if p in m then m[p] else 0.0
  }

  /** `x` squared (`Math.pow(x, 2)`). */
  function Square(x: real): (r: real)
    ensures r >= 0.0
  {
    x * x
  }

  /** The squared difference of the two frequencies of `p`. */
  function SqDiff(a: map<Pair, real>, b: map<Pair, real>, p: Pair): real
  {
    Square(FreqOf(a, p) - FreqOf(b, p))
  }

  /** A product of two positive reals is positive. */
  lemma MulPositive(x: real, y: real)
    requires x > 0.0 && y > 0.0
    ensures x * y > 0.0
  {
  }

  /** The square of a non-zero real is positive. */
  lemma SquarePositive(x: real)
    requires x != 0.0
    ensures Square(x) > 0.0
  {
    if x > 0.0 {
      calc { Square(x); == x * x; > { MulPositive(x, x); } 0.0; }
    } else {
      calc { Square(x); == (-x) * (-x); > { MulPositive(-x, -x); } 0.0; }
    }
  }

  /** A squared difference vanishes exactly when the two frequencies agree. */
  lemma SqDiffZero(a: map<Pair, real>, b: map<Pair, real>, p: Pair)
    ensures SqDiff(a, b, p) == 0.0 <==> FreqOf(a, p) == FreqOf(b, p)
  {
    if FreqOf(a, p) != FreqOf(b, p) {
      SquarePositive(FreqOf(a, p) - FreqOf(b, p));
    }
  }

  /** The sum of squared differences over `keys`, in whatever order. */
  ghost function SumSq(a: map<Pair, real>, b: map<Pair, real>, keys: set<Pair>): real
    decreases keys
  {
    if keys == {} then 0.0 else SqDiff(a, b, Pick(keys)) + SumSq(a, b, keys - {Pick(keys)})
  }

  /** The total distance of two relative maps: squared differences over the union of their keys. */
  ghost function Distance(a: map<Pair, real>, b: map<Pair, real>): real
  {
    SumSq(a, b, a.Keys + b.Keys)
  }

  /**
   * `sqrt(s) > e` for a non-negative `s`, stated without a square root: a negative
   * threshold is always exceeded, a non-negative one exactly when `s > e * e`.
   */
  predicate RootExceeds(s: real, e: real)
  {
    e < 0.0 || s > e * e
  }

  /** `ps` lists every element of `s` exactly once. */
  ghost predicate Enumerates(ps: seq<Pair>, s: set<Pair>)
  {
    && |ps| == |s|
    && (forall i :: 0 <= i < |ps| ==> ps[i] in s)
    && (forall p :: p in s ==> p in ps)
    && (forall i, j :: 0 <= i < j < |ps| ==> ps[i] != ps[j])
  }

  /** Lists the elements of `s` once each, in an unspecified order (the iteration order of a hash set). */
  method Enumerate(s: set<Pair>) returns (ps: seq<Pair>)
    ensures Enumerates(ps, s)
  {
    ps := [];
    var rest := s;
    while rest != {}
      invariant rest <= s
      invariant |ps| + |rest| == |s|
      invariant forall i :: 0 <= i < |ps| ==> ps[i] in s && ps[i] !in rest
      invariant forall p :: p in s ==> p in rest || p in ps
      invariant forall i, j :: 0 <= i < j < |ps| ==> ps[i] != ps[j]
      decreases rest
    {
      var p :| p in rest;
      ps := ps + [p];
      rest := rest - {p};
    }
  }

  /** The counts of `keys`, position by position, 0 where `m` lacks the key. */
  function Column(m: map<Pair, nat>, keys: seq<Pair>): seq<nat>
  {
    seq(|keys|, i requires 0 <= i < |keys| => CountOf(m, keys[i]))
  }

  /**
   * Fills two zero-initialised count arrays side by side, position `i` holding the
   * count of `keys[i]` in `m1` and in `m2` (0 where the map lacks the key).
   */
  method ObservedCounts(m1: map<Pair, nat>, m2: map<Pair, nat>, keys: seq<Pair>)
    returns (observed1: seq<nat>, observed2: seq<nat>)
    ensures observed1 == Column(m1, keys) && observed2 == Column(m2, keys)
  {
    var counts1 := new nat[|keys|](_ => 0);
    var counts2 := new nat[|keys|](_ => 0);
    for i := 0 to |keys|
      invariant forall j :: 0 <= j < i ==> counts1[j] == CountOf(m1, keys[j])
      invariant forall j :: 0 <= j < i ==> counts2[j] == CountOf(m2, keys[j])
      invariant forall j :: i <= j < |keys| ==> counts1[j] == 0 && counts2[j] == 0
    {
      var value := keys[i];
      if value in m1 {
        counts1[i] := m1[value];
      }
      if value in m2 {
        counts2[i] := m2[value];
      }
    }
    observed1 := counts1[..];
    observed2 := counts2[..];
    ColumnOfPointwise(observed1, m1, keys);
    ColumnOfPointwise(observed2, m2, keys);
  }

  /** The sum of a sequence of counts. */
  function SumSeq(s: seq<nat>): nat
  {
    if s == [] then 0 else SumSeq(s[..|s| - 1]) + s[|s| - 1]
  }

  // ---------------------------------------------------------------------------
  // The sum of squared differences

  /** The sum may be split at any key, whichever key the definition happened to pick. */
  lemma {:induction false} SumSqRemove(a: map<Pair, real>, b: map<Pair, real>, keys: set<Pair>, k: Pair)
    requires k in keys
    ensures SumSq(a, b, keys) == SqDiff(a, b, k) + SumSq(a, b, keys - {k})
    decreases keys
  {
    var j := Pick(keys);
    if j != k {
      var kj, kk := keys - {j}, keys - {k};
      SumSqRemove(a, b, kj, k);
      SumSqRemove(a, b, kk, j);
      assert kj - {k} == kk - {j};
    }
  }

  /** A sum of squares is never negative, and it is zero exactly when both maps agree on every key. */
  lemma {:induction false} SumSqZero(a: map<Pair, real>, b: map<Pair, real>, keys: set<Pair>)
    ensures SumSq(a, b, keys) >= 0.0
    ensures SumSq(a, b, keys) == 0.0 <==> forall p :: p in keys ==> FreqOf(a, p) == FreqOf(b, p)
    decreases keys
  {
    if keys != {} {
      var k := Pick(keys);
      SumSqZero(a, b, keys - {k});
      SqDiffZero(a, b, k);
    }
  }

  /** The sum of squares does not depend on which map comes first. */
  lemma {:induction false} SumSqSymmetric(a: map<Pair, real>, b: map<Pair, real>, keys: set<Pair>)
    ensures SumSq(a, b, keys) == SumSq(b, a, keys)
    decreases keys
  {
    if keys != {} {
      var k := Pick(keys);
      SumSqSymmetric(a, b, keys - {k});
      SumSqRemove(b, a, keys, k);
    }
  }

  /** Adding the key `k` outside `done` adds its one squared difference. */
  lemma SumSqAdd(a: map<Pair, real>, b: map<Pair, real>, done: set<Pair>, k: Pair)
    requires k !in done
    ensures SumSq(a, b, done + {k}) == SumSq(a, b, done) + SqDiff(a, b, k)
  {
    SumSqRemove(a, b, done + {k}, k);
    assert done + {k} - {k} == done;
  }

  /**
   * Accumulates the squared difference of every key of `keys`, a key missing
   * from a map counting 0 there, visiting the keys in an unspecified order.
   */
  method SumSquaredDifferences(a: map<Pair, real>, b: map<Pair, real>, keys: set<Pair>) returns (totalDiff: real)
    ensures totalDiff == SumSq(a, b, keys)
  {
    totalDiff := 0.0;
    var rest := keys;
    while rest != {}
      invariant rest <= keys
      invariant totalDiff == SumSq(a, b, keys - rest)
      decreases rest
    {
      var key :| key in rest;
      var aValue := 0.0;
      var bValue := 0.0;
      if key in a {
        aValue := a[key];
      }
      if key in b {
        bValue := b[key];
      }
      SumSqAdd(a, b, keys - rest, key);
      assert keys - (rest - {key}) == (keys - rest) + {key};
      totalDiff := totalDiff + Square(aValue - bValue);
      rest := rest - {key};
    }
    assert keys - rest == keys;
  }

  // ---------------------------------------------------------------------------
  // The total distance

  /** The total distance is non-negative and symmetric, and it is zero exactly when both maps agree on the union (so a store against itself gives 0). */
  lemma DistanceProperties(a: map<Pair, real>, b: map<Pair, real>)
    ensures Distance(a, b) >= 0.0
    ensures Distance(a, b) == Distance(b, a)
    ensures Distance(a, b) == 0.0 <==> forall p :: p in a.Keys + b.Keys ==> FreqOf(a, p) == FreqOf(b, p)
    ensures Distance(a, a) == 0.0
  {
    SumSqZero(a, b, a.Keys + b.Keys);
    SumSqSymmetric(a, b, a.Keys + b.Keys);
    assert a.Keys + b.Keys == b.Keys + a.Keys;
    SumSqZero(a, a, a.Keys + a.Keys);
  }

  /** When the keys of `a` are among those of `b`, summing over the keys of `b` alone is the total distance. */
  lemma DistanceOverGrownKeys(a: map<Pair, real>, b: map<Pair, real>)
    requires a.Keys <= b.Keys
    ensures SumSq(a, b, b.Keys) == Distance(a, b)
  {
    assert a.Keys + b.Keys == b.Keys;
  }

  /**
   * Renormalisation alone moves the distribution: the counts before and after the
   * trace [A, B] of `ExampleRenormalizationCounts` share their pairs, yet every
   * relative frequency shifts (1/2, 1/2 become 2/3, 1/3). The distance is 1/18;
   * its square root (about 0.236) exceeds every threshold up to 0.2.
   */
  lemma RenormalizationDrift(epsilon: real)
    requires epsilon <= 0.2
    ensures var before, after := map[("A", "B") := 1, ("B", "A") := 1], map[("A", "B") := 2, ("B", "A") := 1];
            && Distance(Normalize(before, 2.0), Normalize(after, 3.0)) == 1.0 / 18.0
            && RootExceeds(Distance(Normalize(before, 2.0), Normalize(after, 3.0)), epsilon)
  {
    var ab, ba := ("A", "B"), ("B", "A");
    var a, b := Normalize(map[ab := 1, ba := 1], 2.0), Normalize(map[ab := 2, ba := 1], 3.0);
    assert a == map[ab := 1.0 / 2.0, ba := 1.0 / 2.0];
    assert b == map[ab := 2.0 / 3.0, ba := 1.0 / 3.0];
    assert Distance(a, b) == 1.0 / 18.0 by {
      var keys := a.Keys + b.Keys;
      assert keys == {ab, ba};
      SumSqRemove(a, b, keys, ab);
      assert keys - {ab} == {ba};
      SumSqRemove(a, b, {ba}, ba);
      assert {ba} - {ba} == {};
      assert SqDiff(a, b, ab) == Square(-1.0 / 6.0) == 1.0 / 36.0;
      assert SqDiff(a, b, ba) == Square(1.0 / 6.0) == 1.0 / 36.0;
    }
    if epsilon >= 0.0 {
      assert epsilon * epsilon <= 0.2 * epsilon <= 0.04;
    }
  }

  // ---------------------------------------------------------------------------
  // The square-root threshold

  /** `RootExceeds(s, e)` is `r > e` for the non-negative square root `r` of `s`. */
  lemma RootExceedsIsSqrtComparison(s: real, r: real, e: real)
    requires r >= 0.0 && r * r == s
    ensures RootExceeds(s, e) <==> r > e
  {
    if e >= 0.0 {
      if r > e {
        assert r * r > e * r >= e * e;
      } else {
        assert r * r <= e * r <= e * e;
      }
    }
  }

  // ---------------------------------------------------------------------------
  // Aligned count columns

  /** A sequence that holds each key's count at that key's position is that column. */
  lemma ColumnOfPointwise(c: seq<nat>, m: map<Pair, nat>, keys: seq<Pair>)
    requires |c| == |keys|
    requires forall j :: 0 <= j < |c| ==> c[j] == CountOf(m, keys[j])
    ensures c == Column(m, keys)
  {
  }

  /** A column grows by the count of the key appended to the key sequence. */
  lemma ColumnSnoc(m: map<Pair, nat>, init: seq<Pair>, k: Pair)
    ensures Column(m, init + [k]) == Column(m, init) + [CountOf(m, k)]
  {
  }

  /** Removing a key that the key sequence does not list leaves the column unchanged. */
  lemma ColumnWithout(m: map<Pair, nat>, keys: seq<Pair>, k: Pair)
    requires k !in keys
    ensures Column(m - {k}, keys) == Column(m, keys)
  {
    assert forall i :: 0 <= i < |keys| ==> keys[i] != k;
  }

  /** Zero-filled alignment keeps every count: the column of a store over distinct keys covering it sums to the store's total. */
  lemma {:induction false} ColumnSum(m: map<Pair, nat>, keys: seq<Pair>)
    requires m.Keys <= Elements(keys)
    requires forall i, j :: 0 <= i < j < |keys| ==> keys[i] != keys[j]
    ensures SumSeq(Column(m, keys)) == SumCounts(m)
  {
    if keys == [] {
      assert m == map[];
    } else {
      var init, k := keys[..|keys| - 1], keys[|keys| - 1];
      assert keys == init + [k];
      ColumnSnoc(m, init, k);
      assert k !in init by {
        forall i | 0 <= i < |init| ensures init[i] != k {
          assert init[i] == keys[i];
        }
      }
      var rest := if k in m then m - {k} else m;
      assert rest.Keys <= Elements(init) by {
        forall p | p in rest ensures p in Elements(init) {
          assert p in Elements(keys) && p != k;
        }
      }
      ColumnSum(rest, init);
      if k in m {
        ColumnWithout(m, init, k);
        SumCountsRemove(m, k);
      }
      assert Column(m, keys)[..|keys| - 1] == Column(m, init);
    }
  }

  /** The example {(A,B): 2} against {(C,D): 3}: the columns are [2, 0] and [0, 3] in one of the two key orders. */
  lemma AlignmentExample(keys: seq<Pair>)
    requires Enumerates(keys, {("A", "B"), ("C", "D")})
    ensures var a, b := map[("A", "B") := 2], map[("C", "D") := 3];
            || (Column(a, keys) == [2, 0] && Column(b, keys) == [0, 3])
            || (Column(a, keys) == [0, 2] && Column(b, keys) == [3, 0])
  {
    assert ("A", "B") in keys && ("C", "D") in keys;
    assert keys[0] != keys[1];
  }
}
