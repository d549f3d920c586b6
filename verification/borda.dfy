/** The Borda aggregation of services/internal/calculations/borda_calculator.go: every
    decision maker's ranked list awards an alternative at rank r the Borda weight K-r+1
    (K being the length of the first list), scaled by the decision maker's group weight;
    the points of all lists are added up per alternative, divided by the grand total when
    that is positive, sorted by non-increasing score and numbered 1, 2, ...

    The Go code reads the accumulated points out of a map, whose iteration order is not
    fixed; the methods below pick the next key nondeterministically, so every proof holds
    for every order. */
module Borda {
  import opened Models
  import opened Sorting

  datatype AlternativeRank = AlternativeRank(alternativeId: Id, rank: int, score: real)

  datatype SingleDMRanking = SingleDMRanking(dmId: Id, dmWeight: real, rankedList: seq<AlternativeRank>)

  function ScoreOf(r: AlternativeRank): real { r.score }

  /** How many entries of `rs` name alternative `a`. */
  function IdCount(rs: seq<AlternativeRank>, a: Id): nat {
    if |rs| == 0 then 0
    else IdCount(rs[..|rs| - 1], a) + (if rs[|rs| - 1].alternativeId == a then 1 else 0)
  }

  // ---------------------------------------------------------------------------
  // Specification
  // ---------------------------------------------------------------------------

  /** K: the length of the first decision maker's list (every list is assumed that long). */
  function NumAlternatives(ds: seq<SingleDMRanking>): nat {
    if |ds| == 0 then 0 else |ds[0].rankedList|
  }

  /** The Borda weight of rank r among K alternatives; a rank outside 1..K weighs 1. */
  function BordaWeight(k: nat, r: int): (w: real)
    ensures 1.0 <= w
  {
    if 1 <= r <= k then (k - r + 1) as real else 1.0
  }

  /** A group weight of 0 counts as 1 (the decision maker was given no weight). */
  function EffectiveWeight(dmWeight: real): real {
    if dmWeight == 0.0 then 1.0 else dmWeight
  }

  /** The points alternative `a` earns from the first `n` entries of one list. */
  function ListPoints(list: seq<AlternativeRank>, n: nat, k: nat, w: real, a: Id): real
    requires n <= |list|
  {
    if n == 0 then 0.0
    else
      var earned := if list[n - 1].alternativeId == a then BordaWeight(k, list[n - 1].rank) * w else 0.0;
      ListPoints(list, n - 1, k, w, a) + earned
  }

  /** The points alternative `a` earns from the lists of the first `n` decision makers. */
  function RawPoints(ds: seq<SingleDMRanking>, n: nat, k: nat, a: Id): real
    requires n <= |ds|
  {
    if n == 0 then 0.0
    else
      var list := ds[n - 1].rankedList;
      RawPoints(ds, n - 1, k, a) + ListPoints(list, |list|, k, EffectiveWeight(ds[n - 1].dmWeight), a)
  }

  /** The alternatives named by the first `n` entries of one list. */
  function ListIds(list: seq<AlternativeRank>, n: nat): set<Id>
    requires n <= |list|
  {
    if n == 0 then {} else ListIds(list, n - 1) + {list[n - 1].alternativeId}
  }

  /** The alternatives named in the lists of the first `n` decision makers. */
  function IdsOf(ds: seq<SingleDMRanking>, n: nat): set<Id>
    requires n <= |ds|
  {
    if n == 0 then {} else IdsOf(ds, n - 1) + ListIds(ds[n - 1].rankedList, |ds[n - 1].rankedList|)
  }

  /** Every alternative that appears in some decision maker's list. */
  function Candidates(ds: seq<SingleDMRanking>): set<Id> {
    IdsOf(ds, |ds|)
  }

  /** The accumulated points, per candidate. */
  function PointsMap(ds: seq<SingleDMRanking>): map<Id, real> {
    map a | a in Candidates(ds) :: RawPoints(ds, |ds|, NumAlternatives(ds), a)
  }

  function Normalized(raw: real, total: real): real {
    if total > 0.0 then raw / total else raw
  }

  /** Some element of a non-empty set (the next key a Go map iteration produces). */
  ghost function Pick(s: set<Id>): Id
    requires s != {}
  {
    var x :| x in s; x
  }

  /** The sum of `m` over `keys`, in no particular order. */
  ghost function SumOver(m: map<Id, real>, keys: set<Id>): real
    decreases keys
  {
    if keys == {} then 0.0 else var k := Pick(keys); Lookup(m, k) + SumOver(m, keys - {k})
  }

  ghost function SumValues(m: map<Id, real>): real {
    SumOver(m, m.Keys)
  }

  ghost function TotalPoints(ds: seq<SingleDMRanking>): real {
    SumValues(PointsMap(ds))
  }

  /** What the aggregation promises: nothing for no lists; otherwise one entry per
      alternative named in any list, scored by its normalised points (summing to 1 when
      the total is positive), sorted by non-increasing score and ranked 1, 2, ... */
  ghost predicate IsAggregate(dmRankings: seq<SingleDMRanking>, results: seq<AlternativeRank>) {
    && (|dmRankings| == 0 ==> results == [])
    && (forall a :: IdCount(results, a) == if a in Candidates(dmRankings) then 1 else 0)
    && (forall i :: 0 <= i < |results| ==>
          results[i].score
            == Normalized(Lookup(PointsMap(dmRankings), results[i].alternativeId), TotalPoints(dmRankings)))
    && (TotalPoints(dmRankings) > 0.0 ==> SumScores(results) == 1.0)
    && SortedDesc(results, ScoreOf)
    && (forall i :: 0 <= i < |results| ==> results[i].rank == i + 1)
  }

  /** The scores of `rs`, added from the front. */
  function SumScores(rs: seq<AlternativeRank>): real {
    if |rs| == 0 then 0.0 else SumScores(rs[..|rs| - 1]) + rs[|rs| - 1].score
  }

  // ---------------------------------------------------------------------------
  // AggregateBorda
  // ---------------------------------------------------------------------------

  /** The aggregation of a list of per-decision-maker rankings. */
  method AggregateBorda(dmRankings: seq<SingleDMRanking>) returns (results: seq<AlternativeRank>)
    ensures IsAggregate(dmRankings, results)
  {
    if |dmRankings| == 0 {
      return [];
    }
    var k := |dmRankings[0].rankedList|;
    var bordaWeights := BordaWeights(k);
    var points := InitPoints(dmRankings[0].rankedList);
    points := AccumulatePoints(dmRankings, k, bordaWeights, points);
    CandidatesIncludeEachList(dmRankings, 0);
    assert points == PointsMap(dmRankings);
    var total := SumPoints(points);
    var unsorted := NormalizedResults(points, total);
    results := SortAndRank(points, total, unsorted);
  }

  /** Sort the unranked results by score and write ranks 1, 2, ... in the new order. */
  method SortAndRank(points: map<Id, real>, total: real, unsorted: seq<AlternativeRank>)
    returns (results: seq<AlternativeRank>)
    requires forall a :: IdCount(unsorted, a) == if a in points then 1 else 0
    requires forall i :: 0 <= i < |unsorted| ==>
      unsorted[i].score == Normalized(Lookup(points, unsorted[i].alternativeId), total)
    requires total > 0.0 ==> SumScores(unsorted) == 1.0
    ensures forall a :: IdCount(results, a) == if a in points then 1 else 0
    ensures forall i :: 0 <= i < |results| ==>
      results[i].score == Normalized(Lookup(points, results[i].alternativeId), total)
    ensures total > 0.0 ==> SumScores(results) == 1.0
    ensures SortedDesc(results, ScoreOf)
    ensures forall i :: 0 <= i < |results| ==> results[i].rank == i + 1
  {
    var sorted := SortSliceDesc(unsorted, ScoreOf);
    SumScoresPermutation(unsorted, sorted);
    forall i | 0 <= i < |sorted|
      ensures sorted[i].score == Normalized(Lookup(points, sorted[i].alternativeId), total)
    {
      assert sorted[i] in multiset(unsorted);
    }
    results := AssignRanks(sorted);
    SumScoresSameScores(sorted, results);
    forall a
      ensures IdCount(results, a) == if a in points then 1 else 0
    {
      IdCountPermutation(unsorted, sorted, a);
      IdCountSameIds(sorted, results, a);
    }
    assert forall i :: 0 <= i < |results| ==> results[i].score == sorted[i].score;
  }

  /** Go: bordaWeights[i] = K-i+1 for i in 1..K. */
  method BordaWeights(k: nat) returns (w: map<int, real>)
    ensures forall r :: r in w <==> 1 <= r <= k
    ensures forall r :: r in w ==> w[r] == BordaWeight(k, r)
  {
    w := map[];
    var i := 1;
    while i <= k
      invariant 1 <= i <= k + 1
      invariant forall r :: r in w <==> 1 <= r < i
      invariant forall r :: r in w ==> w[r] == BordaWeight(k, r)
    {
      w := w[i := (k - i + 1) as real];
      i := i + 1;
    }
  }

  /** Every alternative of the first list starts with 0 points. */
  method InitPoints(first: seq<AlternativeRank>) returns (points: map<Id, real>)
    ensures points.Keys == ListIds(first, |first|)
    ensures forall a :: a in points ==> points[a] == 0.0
  {
    points := map[];
    var j := 0;
    while j < |first|
      invariant 0 <= j <= |first|
      invariant points.Keys == ListIds(first, j)
      invariant forall a :: a in points ==> points[a] == 0.0
    {
      points := points[first[j].alternativeId := 0.0];
      j := j + 1;
    }
  }

  /** Adds every decision maker's points; `points` may already hold keys (the first list). */
  method AccumulatePoints(
    dmRankings: seq<SingleDMRanking>, k: nat, bordaWeights: map<int, real>, points0: map<Id, real>)
    returns (points: map<Id, real>)
    requires forall r :: r in bordaWeights <==> 1 <= r <= k
    requires forall r :: r in bordaWeights ==> bordaWeights[r] == BordaWeight(k, r)
    ensures points.Keys == points0.Keys + IdsOf(dmRankings, |dmRankings|)
    ensures forall a :: Lookup(points, a) == Lookup(points0, a) + RawPoints(dmRankings, |dmRankings|, k, a)
  {
    points := points0;
    var i := 0;
    while i < |dmRankings|
      invariant 0 <= i <= |dmRankings|
      invariant points.Keys == points0.Keys + IdsOf(dmRankings, i)
      invariant forall a :: Lookup(points, a) == Lookup(points0, a) + RawPoints(dmRankings, i, k, a)
    {
      var dmWeight := dmRankings[i].dmWeight;
      if dmWeight == 0.0 {
        dmWeight := 1.0;
      }
      points := AddListPoints(points, dmRankings[i].rankedList, k, bordaWeights, dmWeight);
      i := i + 1;
    }
  }

  /** One decision maker's list: each entry adds weight(rank) × dmWeight to its alternative. */
  method AddListPoints(
    points0: map<Id, real>, list: seq<AlternativeRank>, k: nat, bordaWeights: map<int, real>, dmWeight: real)
    returns (points: map<Id, real>)
    requires forall r :: r in bordaWeights <==> 1 <= r <= k
    requires forall r :: r in bordaWeights ==> bordaWeights[r] == BordaWeight(k, r)
    ensures points.Keys == points0.Keys + ListIds(list, |list|)
    ensures forall a :: Lookup(points, a) == Lookup(points0, a) + ListPoints(list, |list|, k, dmWeight, a)
  {
    points := points0;
    var j := 0;
    while j < |list|
      invariant 0 <= j <= |list|
      invariant points.Keys == points0.Keys + ListIds(list, j)
      invariant forall a :: Lookup(points, a) == Lookup(points0, a) + ListPoints(list, j, k, dmWeight, a)
    {
      var weight := 1.0;
      if list[j].rank in bordaWeights {
        weight := bordaWeights[list[j].rank];
      }
      var id := list[j].alternativeId;
      assert weight == BordaWeight(k, list[j].rank);
      ghost var before := points;
      points := points[id := Lookup(points, id) + weight * dmWeight];
      AddEntry(points0, before, points, list, j, k, dmWeight, weight);
      j := j + 1;
    }
  }

  /** Adding entry `j` of a list to the points keeps the running sums equal to `ListPoints`. */
  lemma AddEntry(
    points0: map<Id, real>, before: map<Id, real>, points: map<Id, real>,
    list: seq<AlternativeRank>, j: nat, k: nat, w: real, weight: real)
    requires j < |list| && weight == BordaWeight(k, list[j].rank)
    requires forall a :: Lookup(before, a) == Lookup(points0, a) + ListPoints(list, j, k, w, a)
    requires points == before[list[j].alternativeId := Lookup(before, list[j].alternativeId) + weight * w]
    ensures forall a :: Lookup(points, a) == Lookup(points0, a) + ListPoints(list, j + 1, k, w, a)
  {
    forall a
      ensures Lookup(points, a) == Lookup(points0, a) + ListPoints(list, j + 1, k, w, a)
    {
      if a == list[j].alternativeId {
        assert Lookup(points, a) == Lookup(before, a) + BordaWeight(k, list[j].rank) * w;
      } else {
        assert Lookup(points, a) == Lookup(before, a);
      }
    }
  }

  /** totalPoints: the sum of all accumulated points, in map order. */
  method SumPoints(points: map<Id, real>) returns (total: real)
    ensures total == SumValues(points)
  {
    total := 0.0;
    var remaining := points.Keys;
    while remaining != {}
      invariant remaining <= points.Keys
      invariant total + SumOver(points, remaining) == SumValues(points)
      decreases remaining
    {
      var id :| id in remaining;
      SumOverRemove(points, remaining, id);
      total := total + points[id];
      remaining := remaining - {id};
    }
  }

  /** One unranked result per key, in map order, scored raw / total when total > 0. */
  method NormalizedResults(points: map<Id, real>, total: real) returns (results: seq<AlternativeRank>)
    requires total == SumValues(points)
    ensures forall a :: IdCount(results, a) == if a in points then 1 else 0
    ensures forall i :: 0 <= i < |results| ==>
      results[i].score == Normalized(Lookup(points, results[i].alternativeId), total)
    ensures total > 0.0 ==> SumScores(results) == 1.0
  {
    results := [];
    var remaining := points.Keys;
    ghost var consumed := 0.0;
    while remaining != {}
      invariant remaining <= points.Keys
      invariant forall a :: IdCount(results, a) == if a in points && a !in remaining then 1 else 0
      invariant forall i :: 0 <= i < |results| ==>
        results[i].score == Normalized(Lookup(points, results[i].alternativeId), total)
      invariant consumed + SumOver(points, remaining) == total
      invariant total > 0.0 ==> SumScores(results) == consumed / total
      decreases remaining
    {
      var id :| id in remaining;
      var rawPoints := points[id];
      var normalizedScore := rawPoints;
      if total > 0.0 {
        normalizedScore := rawPoints / total;
      }
      var r := AlternativeRank(id, 0, normalizedScore);
      ghost var prev := results;
      SumOverRemove(points, remaining, id);
      SumScoresSnoc(prev, r);
      if total > 0.0 {
        DivAdd(consumed, rawPoints, total);
      }
      results := results + [r];
      remaining := remaining - {id};
      consumed := consumed + rawPoints;
      forall a
        ensures IdCount(results, a) == if a in points && a !in remaining then 1 else 0
      {
        IdCountSnoc(prev, r, a);
      }
    }
    if total > 0.0 {
      DivSelf(total);
    }
  }

  /** results[i].Rank = i + 1 for every position of the sorted slice. */
  method AssignRanks(sorted: seq<AlternativeRank>) returns (results: seq<AlternativeRank>)
    ensures |results| == |sorted|
    ensures forall i :: 0 <= i < |results| ==> results[i] == sorted[i].(rank := i + 1)
  {
    results := sorted;
    var i := 0;
    while i < |results|
      invariant 0 <= i <= |results| == |sorted|
      invariant forall j :: 0 <= j < i ==> results[j] == sorted[j].(rank := j + 1)
      invariant forall j :: i <= j < |results| ==> results[j] == sorted[j]
    {
      results := results[i := results[i].(rank := i + 1)];
      i := i + 1;
    }
  }

  // ---------------------------------------------------------------------------
  // Lemmas
  // ---------------------------------------------------------------------------

  lemma DivTimes(x: real, t: real)
    requires t > 0.0
    ensures (x / t) * t == x
  {
  }

  lemma DivAdd(x: real, y: real, t: real)
    requires t > 0.0
    ensures x / t + y / t == (x + y) / t
  {
  }

  lemma DivSelf(t: real)
    requires t > 0.0
    ensures t / t == 1.0
  {
  }

  /** Removing any one key from a map sum: the order of the Go map iteration does not matter. */
  lemma {:induction false} SumOverRemove(m: map<Id, real>, keys: set<Id>, k: Id)
    requires k in keys
    ensures SumOver(m, keys) == Lookup(m, k) + SumOver(m, keys - {k})
    decreases keys
  {
    var p := Pick(keys);
    if p != k {
      SumOverRemove(m, keys - {p}, k);
      SumOverRemove(m, keys - {k}, p);
      assert keys - {p} - {k} == keys - {k} - {p};
    }
  }

  lemma SumScoresSnoc(rs: seq<AlternativeRank>, r: AlternativeRank)
    ensures SumScores(rs + [r]) == SumScores(rs) + r.score
  {
    assert (rs + [r])[..|rs|] == rs;
  }

  lemma IdCountSnoc(rs: seq<AlternativeRank>, r: AlternativeRank, a: Id)
    ensures IdCount(rs + [r], a) == IdCount(rs, a) + (if a == r.alternativeId then 1 else 0)
  {
    assert (rs + [r])[..|rs|] == rs;
  }

  lemma {:induction false} IdCountAppend(a: seq<AlternativeRank>, b: seq<AlternativeRank>, x: Id)
    ensures IdCount(a + b, x) == IdCount(a, x) + IdCount(b, x)
    decreases |b|
  {
    if |b| == 0 {
      assert a + b == a;
    } else {
      assert (a + b)[..|a + b| - 1] == a + b[..|b| - 1];
      assert (a + b)[|a + b| - 1] == b[|b| - 1];
      IdCountAppend(a, b[..|b| - 1], x);
    }
  }

  /** Reordering the results does not change how often an alternative occurs. */
  lemma {:induction false} IdCountPermutation(a: seq<AlternativeRank>, b: seq<AlternativeRank>, x: Id)
    requires multiset(a) == multiset(b)
    ensures IdCount(a, x) == IdCount(b, x)
    decreases |a|
  {
    if |a| == 0 {
      assert |b| == |multiset(b)| == 0;
    } else {
      var y := a[|a| - 1];
      assert a == a[..|a| - 1] + [y];
      assert y in multiset(b);
      var j :| 0 <= j < |b| && b[j] == y;
      var rest := b[..j] + b[j + 1..];
      assert b == b[..j] + [y] + b[j + 1..];
      assert multiset(a[..|a| - 1]) == multiset(a) - multiset{y};
      assert multiset(rest) == multiset(b) - multiset{y};
      IdCountPermutation(a[..|a| - 1], rest, x);
      IdCountAppend(b[..j] + [y], b[j + 1..], x);
      IdCountAppend(b[..j], [y], x);
      IdCountAppend(b[..j], b[j + 1..], x);
      assert IdCount([y], x) == if y.alternativeId == x then 1 else 0;
    }
  }

  lemma {:induction false} IdCountSameIds(a: seq<AlternativeRank>, b: seq<AlternativeRank>, x: Id)
    requires |a| == |b|
    requires forall i :: 0 <= i < |a| ==> a[i].alternativeId == b[i].alternativeId
    ensures IdCount(a, x) == IdCount(b, x)
    decreases |a|
  {
    if |a| > 0 {
      IdCountSameIds(a[..|a| - 1], b[..|b| - 1], x);
    }
  }

  lemma {:induction false} SumScoresAppend(a: seq<AlternativeRank>, b: seq<AlternativeRank>)
    ensures SumScores(a + b) == SumScores(a) + SumScores(b)
    decreases |b|
  {
    if |b| == 0 {
      assert a + b == a;
    } else {
      assert (a + b)[..|a + b| - 1] == a + b[..|b| - 1];
      assert (a + b)[|a + b| - 1] == b[|b| - 1];
      SumScoresAppend(a, b[..|b| - 1]);
    }
  }

  /** Reordering the results does not change the sum of their scores. */
  lemma {:induction false} SumScoresPermutation(a: seq<AlternativeRank>, b: seq<AlternativeRank>)
    requires multiset(a) == multiset(b)
    ensures SumScores(a) == SumScores(b)
    decreases |a|
  {
    if |a| == 0 {
      assert |b| == |multiset(b)| == 0;
    } else {
      var x := a[|a| - 1];
      assert a == a[..|a| - 1] + [x];
      assert x in multiset(b);
      var j :| 0 <= j < |b| && b[j] == x;
      var rest := b[..j] + b[j + 1..];
      assert b == b[..j] + [x] + b[j + 1..];
      assert multiset(a[..|a| - 1]) == multiset(a) - multiset{x};
      assert multiset(rest) == multiset(b) - multiset{x};
      SumScoresPermutation(a[..|a| - 1], rest);
      SumScoresAppend(b[..j] + [x], b[j + 1..]);
      SumScoresAppend(b[..j], [x]);
      SumScoresAppend(b[..j], b[j + 1..]);
      assert SumScores([x]) == x.score;
    }
  }

  lemma {:induction false} SumScoresSameScores(a: seq<AlternativeRank>, b: seq<AlternativeRank>)
    requires |a| == |b|
    requires forall i :: 0 <= i < |a| ==> a[i].score == b[i].score
    ensures SumScores(a) == SumScores(b)
    decreases |a|
  {
    if |a| > 0 {
      SumScoresSameScores(a[..|a| - 1], b[..|b| - 1]);
    }
  }

  /** Every list of the first `n` decision makers contributes its alternatives. */
  lemma {:induction false} CandidatesIncludeEachList(ds: seq<SingleDMRanking>, i: nat)
    requires i < |ds|
    ensures ListIds(ds[i].rankedList, |ds[i].rankedList|) <= Candidates(ds)
  {
    IdsOfMonotone(ds, i + 1, |ds|);
  }

  lemma {:induction false} IdsOfMonotone(ds: seq<SingleDMRanking>, m: nat, n: nat)
    requires m <= n <= |ds|
    ensures IdsOf(ds, m) <= IdsOf(ds, n)
    decreases n - m
  {
    if m < n {
      IdsOfMonotone(ds, m, n - 1);
    }
  }

  /** An alternative is a candidate exactly when some entry of some list names it. */
  lemma {:induction false} CandidateIffListed(ds: seq<SingleDMRanking>, n: nat, a: Id)
    requires n <= |ds|
    ensures a in IdsOf(ds, n) <==>
      exists i, j :: 0 <= i < n && 0 <= j < |ds[i].rankedList| && ds[i].rankedList[j].alternativeId == a
  {
    if n > 0 {
      CandidateIffListed(ds, n - 1, a);
      var list := ds[n - 1].rankedList;
      ListIdsIffListed(list, |list|, a);
      if a in ListIds(list, |list|) {
        var j :| 0 <= j < |list| && list[j].alternativeId == a;
        assert ds[n - 1].rankedList[j].alternativeId == a;
      }
    }
  }

  lemma {:induction false} ListIdsIffListed(list: seq<AlternativeRank>, n: nat, a: Id)
    requires n <= |list|
    ensures a in ListIds(list, n) <==> exists j :: 0 <= j < n && list[j].alternativeId == a
  {
    if n > 0 {
      ListIdsIffListed(list, n - 1, a);
    }
  }

  /** An alternative no list names earns no points. */
  lemma {:induction false} RawPointsOutsideCandidates(ds: seq<SingleDMRanking>, n: nat, k: nat, a: Id)
    requires n <= |ds| && a !in IdsOf(ds, n)
    ensures RawPoints(ds, n, k, a) == 0.0
  {
    if n > 0 {
      RawPointsOutsideCandidates(ds, n - 1, k, a);
      var list := ds[n - 1].rankedList;
      ListPointsOutside(list, |list|, k, EffectiveWeight(ds[n - 1].dmWeight), a);
    }
  }

  lemma {:induction false} ListPointsOutside(list: seq<AlternativeRank>, n: nat, k: nat, w: real, a: Id)
    requires n <= |list| && a !in ListIds(list, n)
    ensures ListPoints(list, n, k, w, a) == 0.0
  {
    if n > 0 {
      ListPointsOutside(list, n - 1, k, w, a);
    }
  }

  /** With non-negative group weights every alternative's points are non-negative. */
  lemma {:induction false} RawPointsNonNegative(ds: seq<SingleDMRanking>, n: nat, k: nat, a: Id)
    requires n <= |ds|
    requires forall i :: 0 <= i < |ds| ==> 0.0 <= ds[i].dmWeight
    ensures 0.0 <= RawPoints(ds, n, k, a)
  {
    if n > 0 {
      RawPointsNonNegative(ds, n - 1, k, a);
      var list := ds[n - 1].rankedList;
      ListPointsNonNegative(list, |list|, k, EffectiveWeight(ds[n - 1].dmWeight), a);
    }
  }

  lemma {:induction false} ListPointsNonNegative(list: seq<AlternativeRank>, n: nat, k: nat, w: real, a: Id)
    requires n <= |list| && 0.0 <= w
    ensures 0.0 <= ListPoints(list, n, k, w, a)
  {
    if n > 0 {
      ListPointsNonNegative(list, n - 1, k, w, a);
      MulNonNegative(BordaWeight(k, list[n - 1].rank), w);
    }
  }

  lemma MulNonNegative(x: real, y: real)
    requires 0.0 <= x && 0.0 <= y
    ensures 0.0 <= x * y
  {
    if x > 0.0 && y > 0.0 { MulPositive(x, y); }
  }

  /** The order by score is the order by raw points: dividing by a positive total keeps it. */
  lemma BordaOrderMatchesRaw(ds: seq<SingleDMRanking>, results: seq<AlternativeRank>)
    requires forall i :: 0 <= i < |results| ==>
      results[i].score == Normalized(Lookup(PointsMap(ds), results[i].alternativeId), TotalPoints(ds))
    requires SortedDesc(results, ScoreOf)
    ensures forall i, j :: 0 <= i < j < |results| ==>
      Lookup(PointsMap(ds), results[i].alternativeId) >= Lookup(PointsMap(ds), results[j].alternativeId)
  {
    var t := TotalPoints(ds);
    forall i, j | 0 <= i < j < |results|
      ensures Lookup(PointsMap(ds), results[i].alternativeId) >= Lookup(PointsMap(ds), results[j].alternativeId)
    {
      var x := Lookup(PointsMap(ds), results[i].alternativeId);
      var y := Lookup(PointsMap(ds), results[j].alternativeId);
      assert ScoreOf(results[i]) >= ScoreOf(results[j]);
      if t > 0.0 {
        DivTimes(x, t);
        DivTimes(y, t);
        MulMonotone(x / t, y / t, t);
      }
    }
  }

  lemma MulMonotone(x: real, y: real, t: real)
    requires x >= y && t > 0.0
    ensures x * t >= y * t
  {
    if x > y { MulPositive(x - y, t); }
  }
}
