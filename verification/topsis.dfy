/** The TOPSIS ranker of services/internal/calculations/topsis_calculator.go: one decision
    maker's scores are collected into a matrix, each criterion column is divided by its
    Euclidean norm (R) and multiplied by the criterion weight (Y), the ideal (A+) and
    anti-ideal (A-) values are read off the Y columns according to the criterion type,
    every alternative's distances D+ and D- to them are taken over R, and the closeness
    D- / (D- + D+) is the alternative's score.

    The functions below say what each intermediate value is; the methods fill the Go
    maps step by step and are proved to produce exactly those values. */
module Topsis {
  import opened Models
  import opened Sorting

  datatype TopsisRank = TopsisRank(alternativeId: Id, finalScore: real, rank: int)

  /** The one error the ranker reports: an empty criteria, alternative or score list. */
  datatype TopsisError = IncompleteData

  /** The inputs of one call, grouped so that the specification functions can name them. */
  datatype Problem = Problem(
    scores: seq<DMInputScore>,
    criteria: seq<Criteria>,
    alternatives: seq<Alternative>,
    weights: map<Id, real>)

  function AltId(a: Alternative): Id { a.alternativeId }
  function RankAltId(t: TopsisRank): Id { t.alternativeId }
  function FinalScoreOf(t: TopsisRank): real { t.finalScore }

  /** The alternative IDs of `alts`, the keys of the Go score matrix. */
  function AltIdSet(alts: seq<Alternative>): (ids: set<Id>)
    ensures forall i :: 0 <= i < |alts| ==> alts[i].alternativeId in ids
    ensures forall a :: a in ids ==> exists i :: 0 <= i < |alts| && alts[i].alternativeId == a
  {
    set i | 0 <= i < |alts| :: alts[i].alternativeId
  }

  // ---------------------------------------------------------------------------
  // Reading the Go maps as sequences
  // ---------------------------------------------------------------------------

  /** m[a][c] for every listed alternative a, in list order. */
  function MatrixColumn(m: map<Id, map<Id, real>>, alts: seq<Alternative>, c: Id): (col: seq<real>)
    ensures |col| == |alts|
  {
    seq(|alts|, i requires 0 <= i < |alts| => Cell(m, alts[i].alternativeId, c))
  }

  /** m[a][c] for every listed criterion c, in list order. */
  function MatrixRow(m: map<Id, map<Id, real>>, a: Id, cs: seq<Criteria>): (row: seq<real>)
    ensures |row| == |cs|
  {
    seq(|cs|, k requires 0 <= k < |cs| => Cell(m, a, cs[k].criteriaId))
  }

  /** m[c] for every listed criterion c, in list order. */
  function MapRow(m: map<Id, real>, cs: seq<Criteria>): (row: seq<real>)
    ensures |row| == |cs|
  {
    seq(|cs|, k requires 0 <= k < |cs| => Lookup(m, cs[k].criteriaId))
  }

  // ---------------------------------------------------------------------------
  // Specification of each intermediate value
  // ---------------------------------------------------------------------------

  predicate IsScoreFor(s: DMInputScore, a: Id, c: Id) {
    s.alternativeId == a && s.criteriaId == c
  }

  /** The score matrix cell for (a, c) after the first `n` score rows: the value of the
      LAST of them for that pair, or 0 when there is none. */
  function LatestScore(scores: seq<DMInputScore>, n: nat, a: Id, c: Id): real
    requires n <= |scores|
  {
    if n == 0 then 0.0
    else if IsScoreFor(scores[n - 1], a, c) then scores[n - 1].scoreValue
    else LatestScore(scores, n - 1, a, c)
  }

  function Score(p: Problem, a: Id, c: Id): real {
    LatestScore(p.scores, |p.scores|, a, c)
  }

  /** Column `c` of the score matrix, one entry per listed alternative (a listed-twice
      alternative appears twice). */
  function ScoreColumn(p: Problem, c: Id): (col: seq<real>)
    ensures |col| == |p.alternatives|
  {
    seq(|p.alternatives|, i requires 0 <= i < |p.alternatives| => Score(p, p.alternatives[i].alternativeId, c))
  }

  /** The Euclidean norm of column `c`. */
  function NormFactor(p: Problem, sqrt: real -> real, c: Id): real {
    sqrt(SumOfSquares(ScoreColumn(p, c)))
  }

  /** The normalised cell R[a][c]; a zero norm gives 0 instead of a division. */
  function RCell(p: Problem, sqrt: real -> real, a: Id, c: Id): real {
    var f := NormFactor(p, sqrt, c);
    if f != 0.0 then Score(p, a, c) / f else 0.0
  }

  /** The weighted cell Y[a][c]; a criterion without a weight entry weighs 0. */
  function YCell(p: Problem, sqrt: real -> real, a: Id, c: Id): real {
    RCell(p, sqrt, a, c) * Lookup(p.weights, c)
  }

  /** Row `a` of R, one entry per listed criterion. */
  function RRow(p: Problem, sqrt: real -> real, a: Id): (row: seq<real>)
    ensures |row| == |p.criteria|
  {
    seq(|p.criteria|, k requires 0 <= k < |p.criteria| => RCell(p, sqrt, a, p.criteria[k].criteriaId))
  }

  /** Column `c` of Y, one entry per listed alternative. */
  function YColumn(p: Problem, sqrt: real -> real, c: Id): (col: seq<real>)
    ensures |col| == |p.alternatives|
  {
    seq(|p.alternatives|, i requires 0 <= i < |p.alternatives| => YCell(p, sqrt, p.alternatives[i].alternativeId, c))
  }

  /** The maximum kept by the source's loop: seeded with the first value, replaced by
      every later value that is strictly larger. */
  function RunningMax(ys: seq<real>): real
    requires 1 <= |ys|
  {
    var y := ys[|ys| - 1];
    if |ys| == 1 then y
    else
      var m := RunningMax(ys[..|ys| - 1]);
      if y > m then y else m
  }

  /** The minimum kept by the source's loop. */
  function RunningMin(ys: seq<real>): real
    requires 1 <= |ys|
  {
    var y := ys[|ys| - 1];
    if |ys| == 1 then y
    else
      var m := RunningMin(ys[..|ys| - 1]);
      if y < m then y else m
  }

  predicate HasId(cr: Criteria, c: Id) {
    cr.criteriaId == c
  }

  /** The type of the last of the first `n` criteria with ID `c` (the one whose A+/A-
      write survives), or "" when there is none. */
  function LastType(cs: seq<Criteria>, n: nat, c: Id): string
    requires n <= |cs|
  {
    if n == 0 then ""
    else if HasId(cs[n - 1], c) then cs[n - 1].criteriaType
    else LastType(cs, n - 1, c)
  }

  /** A+ of a Y column whose criterion has type `t`: the column maximum for "benefit",
      the column minimum for every other type. */
  function IdealOf(col: seq<real>, t: string): real
    requires 1 <= |col|
  {
    if t == Benefit then RunningMax(col) else RunningMin(col)
  }

  /** A- of a Y column whose criterion has type `t`. */
  function AntiIdealOf(col: seq<real>, t: string): real
    requires 1 <= |col|
  {
    if t == Benefit then RunningMin(col) else RunningMax(col)
  }

  function Ideal(p: Problem, sqrt: real -> real, c: Id): real
    requires 1 <= |p.alternatives|
  {
    IdealOf(YColumn(p, sqrt, c), LastType(p.criteria, |p.criteria|, c))
  }

  function AntiIdeal(p: Problem, sqrt: real -> real, c: Id): real
    requires 1 <= |p.alternatives|
  {
    AntiIdealOf(YColumn(p, sqrt, c), LastType(p.criteria, |p.criteria|, c))
  }

  /** A+ for every listed criterion, in list order. */
  function IdealRow(p: Problem, sqrt: real -> real): (row: seq<real>)
    requires 1 <= |p.alternatives|
    ensures |row| == |p.criteria|
  {
    seq(|p.criteria|, k requires 0 <= k < |p.criteria| => Ideal(p, sqrt, p.criteria[k].criteriaId))
  }

  /** A- for every listed criterion, in list order. */
  function AntiIdealRow(p: Problem, sqrt: real -> real): (row: seq<real>)
    requires 1 <= |p.alternatives|
    ensures |row| == |p.criteria|
  {
    seq(|p.criteria|, k requires 0 <= k < |p.criteria| => AntiIdeal(p, sqrt, p.criteria[k].criteriaId))
  }

  /** The differences xs[k] - ys[k]. */
  function Deviations(xs: seq<real>, ys: seq<real>): (ds: seq<real>)
    requires |xs| == |ys|
    ensures |ds| == |xs|
  {
    seq(|xs|, k requires 0 <= k < |xs| => xs[k] - ys[k])
  }

  /** The Euclidean distance between a point and a row. */
  function Distance(sqrt: real -> real, point: seq<real>, row: seq<real>): real
    requires |point| == |row|
  {
    sqrt(SumOfSquares(Deviations(point, row)))
  }

  /** D+ of alternative `a`: the distance from its unweighted R row to the ideal point,
      which is read off the weighted Y matrix. */
  function DPlus(p: Problem, sqrt: real -> real, a: Id): real
    requires 1 <= |p.alternatives|
  {
    Distance(sqrt, IdealRow(p, sqrt), RRow(p, sqrt, a))
  }

  /** D- of alternative `a`: the distance from its R row to the anti-ideal point. */
  function DMinus(p: Problem, sqrt: real -> real, a: Id): real
    requires 1 <= |p.alternatives|
  {
    Distance(sqrt, AntiIdealRow(p, sqrt), RRow(p, sqrt, a))
  }

  /** The closeness ratio C = D- / (D- + D+), or 0 when the denominator is 0. */
  function Closeness(dPlus: real, dMinus: real): real {
    if dMinus + dPlus != 0.0 then dMinus / (dMinus + dPlus) else 0.0
  }

  function TopsisScore(p: Problem, sqrt: real -> real, a: Id): real
    requires 1 <= |p.alternatives|
  {
    Closeness(DPlus(p, sqrt, a), DMinus(p, sqrt, a))
  }

  /** The result entry of one alternative before sorting; the rank stays 0. */
  function RankOf(p: Problem, sqrt: real -> real, alt: Alternative): TopsisRank
    requires 1 <= |p.alternatives|
  {
    TopsisRank(alt.alternativeId, TopsisScore(p, sqrt, alt.alternativeId), 0)
  }

  /** One entry per listed alternative, in list order, before the sort. */
  function Unsorted(p: Problem, sqrt: real -> real): (rs: seq<TopsisRank>)
    requires 1 <= |p.alternatives|
    ensures |rs| == |p.alternatives|
  {
    seq(|p.alternatives|, i requires 0 <= i < |p.alternatives| => RankOf(p, sqrt, p.alternatives[i]))
  }

  // ---------------------------------------------------------------------------
  // The ranker
  // ---------------------------------------------------------------------------

  /** Ranks the alternatives of one decision maker; fails exactly when one of the three
      input lists is empty. On success the entries are the per-alternative closeness
      scores, one per listed alternative, sorted by non-increasing score. */
  method CalculateRanking(
    scores: seq<DMInputScore>,
    criteria: seq<Criteria>,
    alternatives: seq<Alternative>,
    weights: map<Id, real>,
    sqrt: real -> real)
    returns (r: Result<seq<TopsisRank>, TopsisError>)
    requires IsSqrt(sqrt)
    ensures r.Failure? <==> |criteria| == 0 || |alternatives| == 0 || |scores| == 0
    ensures r.Success? ==>
      var p := Problem(scores, criteria, alternatives, weights);
      && multiset(r.value) == multiset(Unsorted(p, sqrt))
      && SortedDesc(r.value, FinalScoreOf)
      && multiset(MapSeq(r.value, RankAltId)) == multiset(MapSeq(alternatives, AltId))
      && forall i :: 0 <= i < |r.value| ==> 0.0 <= r.value[i].finalScore <= 1.0
  {
    if |criteria| == 0 || |alternatives| == 0 || |scores| == 0 {
      return Failure(IncompleteData);
    }
    var p := Problem(scores, criteria, alternatives, weights);
    var scoreMatrix := BuildScoreMatrix(scores, alternatives);
    var normFactors := NormFactors(p, sqrt, scoreMatrix);
    var rm, ym := Normalize(p, sqrt, scoreMatrix, normFactors);
    var aPlus, aMinus := IdealPoints(ym, alternatives, criteria);
    IdealRowsFromMatrix(p, sqrt, ym, aPlus, aMinus);
    var dPlus, dMinus := Distances(sqrt, alternatives, criteria, rm, aPlus, aMinus);
    var results := ClosenessScores(p, sqrt, dPlus, dMinus);
    var sorted := SortSliceDesc(results, FinalScoreOf);
    UnsortedFacts(p, sqrt);
    PermutationMaps(sorted, results, RankAltId);
    forall k | 0 <= k < |sorted|
      ensures 0.0 <= sorted[k].finalScore <= 1.0
    {
      assert sorted[k] in multiset(results);
    }
    r := Success(sorted);
  }

  /** Step 1: a zero-filled row per listed alternative, then every score row whose
      alternative is listed is written into its cell, later rows overwriting earlier ones.
      Score rows for unlisted alternatives are dropped. */
  method BuildScoreMatrix(scores: seq<DMInputScore>, alternatives: seq<Alternative>)
    returns (m: map<Id, map<Id, real>>)
    ensures m.Keys == AltIdSet(alternatives)
    ensures forall j, c :: 0 <= j < |alternatives| ==>
      Cell(m, alternatives[j].alternativeId, c) == LatestScore(scores, |scores|, alternatives[j].alternativeId, c)
  {
    m := map[];
    var i := 0;
    while i < |alternatives|
      invariant 0 <= i <= |alternatives|
      invariant m.Keys == AltIdSet(alternatives[..i])
      invariant forall a :: a in m ==> m[a] == map[]
    {
      assert alternatives[..i + 1] == alternatives[..i] + [alternatives[i]];
      m := m[alternatives[i].alternativeId := map[]];
      i := i + 1;
    }
    assert alternatives[..i] == alternatives;
    var j := 0;
    while j < |scores|
      invariant 0 <= j <= |scores|
      invariant m.Keys == AltIdSet(alternatives)
      invariant forall a, c :: a in m ==> Cell(m, a, c) == LatestScore(scores, j, a, c)
    {
      var s := scores[j];
      if s.alternativeId in m {
        var row: map<Id, real> := m[s.alternativeId][s.criteriaId := s.scoreValue];
        m := m[s.alternativeId := row];
      }
      j := j + 1;
    }
    forall j, c | 0 <= j < |alternatives|
      ensures Cell(m, alternatives[j].alternativeId, c) == LatestScore(scores, |scores|, alternatives[j].alternativeId, c)
    {
      assert alternatives[j].alternativeId in m;
    }
  }

  /** Step 2: the Euclidean norm of every listed criterion column. */
  method NormFactors(p: Problem, sqrt: real -> real, scoreMatrix: map<Id, map<Id, real>>)
    returns (normFactors: map<Id, real>)
    requires forall j, c :: 0 <= j < |p.alternatives| ==>
      Cell(scoreMatrix, p.alternatives[j].alternativeId, c) == Score(p, p.alternatives[j].alternativeId, c)
    ensures forall k :: 0 <= k < |p.criteria| ==>
      Lookup(normFactors, p.criteria[k].criteriaId) == NormFactor(p, sqrt, p.criteria[k].criteriaId)
  {
    normFactors := map[];
    var i := 0;
    while i < |p.criteria|
      invariant 0 <= i <= |p.criteria|
      invariant forall k :: 0 <= k < i ==>
        Lookup(normFactors, p.criteria[k].criteriaId) == NormFactor(p, sqrt, p.criteria[k].criteriaId)
    {
      var c := p.criteria[i].criteriaId;
      var sumOfSquares := ColumnSumOfSquares(scoreMatrix, p.alternatives, c);
      assert MatrixColumn(scoreMatrix, p.alternatives, c) == ScoreColumn(p, c);
      normFactors := normFactors[c := sqrt(sumOfSquares)];
      i := i + 1;
    }
  }

  /** The inner loop of step 2: the running sum of squares down column `c`. */
  method ColumnSumOfSquares(scoreMatrix: map<Id, map<Id, real>>, alternatives: seq<Alternative>, c: Id)
    returns (sumOfSquares: real)
    ensures sumOfSquares == SumOfSquares(MatrixColumn(scoreMatrix, alternatives, c))
  {
    ghost var col := MatrixColumn(scoreMatrix, alternatives, c);
    sumOfSquares := 0.0;
    var j := 0;
    while j < |alternatives|
      invariant 0 <= j <= |alternatives|
      invariant sumOfSquares == SumOfSquares(col[..j])
    {
      assert col[..j + 1][..j] == col[..j];
      var score := Cell(scoreMatrix, alternatives[j].alternativeId, c);
      sumOfSquares := sumOfSquares + Square(score);
      j := j + 1;
    }
    assert col[..j] == col;
  }

  /** Step 3: R[a][c] = score / norm (0 for a zero norm) and Y[a][c] = R[a][c] * weight. */
  method Normalize(
    p: Problem, sqrt: real -> real,
    scoreMatrix: map<Id, map<Id, real>>, normFactors: map<Id, real>)
    returns (rm: map<Id, map<Id, real>>, ym: map<Id, map<Id, real>>)
    requires forall j, c :: 0 <= j < |p.alternatives| ==>
      Cell(scoreMatrix, p.alternatives[j].alternativeId, c) == Score(p, p.alternatives[j].alternativeId, c)
    requires forall k :: 0 <= k < |p.criteria| ==>
      Lookup(normFactors, p.criteria[k].criteriaId) == NormFactor(p, sqrt, p.criteria[k].criteriaId)
    ensures forall i :: 0 <= i < |p.alternatives| ==>
      MatrixRow(rm, p.alternatives[i].alternativeId, p.criteria) == RRow(p, sqrt, p.alternatives[i].alternativeId)
    ensures forall k :: 0 <= k < |p.criteria| ==>
      MatrixColumn(ym, p.alternatives, p.criteria[k].criteriaId) == YColumn(p, sqrt, p.criteria[k].criteriaId)
  {
    rm, ym := map[], map[];
    var i := 0;
    while i < |p.alternatives|
      invariant 0 <= i <= |p.alternatives|
      invariant forall i' :: 0 <= i' < i ==>
        MatrixRow(rm, p.alternatives[i'].alternativeId, p.criteria) == RRow(p, sqrt, p.alternatives[i'].alternativeId)
      invariant forall i', k :: 0 <= i' < i && 0 <= k < |p.criteria| ==>
        Cell(ym, p.alternatives[i'].alternativeId, p.criteria[k].criteriaId)
          == YCell(p, sqrt, p.alternatives[i'].alternativeId, p.criteria[k].criteriaId)
    {
      var a := p.alternatives[i].alternativeId;
      var rRow, yRow := NormalizeRow(p, sqrt, scoreMatrix, normFactors, i);
      ghost var rm0, ym0 := rm, ym;
      rm := rm[a := rRow];
      ym := ym[a := yRow];
      NormalizeStep(p, sqrt, rm0, ym0, rm, ym, rRow, yRow, i);
      i := i + 1;
    }
    forall k | 0 <= k < |p.criteria|
      ensures MatrixColumn(ym, p.alternatives, p.criteria[k].criteriaId) == YColumn(p, sqrt, p.criteria[k].criteriaId)
    {
      var c := p.criteria[k].criteriaId;
      assert forall i' :: 0 <= i' < |p.alternatives| ==>
        MatrixColumn(ym, p.alternatives, c)[i'] == YColumn(p, sqrt, c)[i'];
    }
  }

  /** Storing the R and Y rows of the alternative at position `i` keeps the rows of the
      earlier positions. */
  lemma NormalizeStep(
    p: Problem, sqrt: real -> real,
    rm0: map<Id, map<Id, real>>, ym0: map<Id, map<Id, real>>,
    rm: map<Id, map<Id, real>>, ym: map<Id, map<Id, real>>,
    rRow: map<Id, real>, yRow: map<Id, real>, i: nat)
    requires i < |p.alternatives|
    requires forall i' :: 0 <= i' < i ==>
      MatrixRow(rm0, p.alternatives[i'].alternativeId, p.criteria) == RRow(p, sqrt, p.alternatives[i'].alternativeId)
    requires forall i', k :: 0 <= i' < i && 0 <= k < |p.criteria| ==>
      Cell(ym0, p.alternatives[i'].alternativeId, p.criteria[k].criteriaId)
        == YCell(p, sqrt, p.alternatives[i'].alternativeId, p.criteria[k].criteriaId)
    requires forall k :: 0 <= k < |p.criteria| ==>
      Lookup(rRow, p.criteria[k].criteriaId) == RCell(p, sqrt, p.alternatives[i].alternativeId, p.criteria[k].criteriaId)
    requires forall k :: 0 <= k < |p.criteria| ==>
      Lookup(yRow, p.criteria[k].criteriaId) == YCell(p, sqrt, p.alternatives[i].alternativeId, p.criteria[k].criteriaId)
    requires rm == rm0[p.alternatives[i].alternativeId := rRow]
    requires ym == ym0[p.alternatives[i].alternativeId := yRow]
    ensures forall i' :: 0 <= i' < i + 1 ==>
      MatrixRow(rm, p.alternatives[i'].alternativeId, p.criteria) == RRow(p, sqrt, p.alternatives[i'].alternativeId)
    ensures forall i', k :: 0 <= i' < i + 1 && 0 <= k < |p.criteria| ==>
      Cell(ym, p.alternatives[i'].alternativeId, p.criteria[k].criteriaId)
        == YCell(p, sqrt, p.alternatives[i'].alternativeId, p.criteria[k].criteriaId)
  {
    forall i' | 0 <= i' < i + 1
      ensures MatrixRow(rm, p.alternatives[i'].alternativeId, p.criteria) == RRow(p, sqrt, p.alternatives[i'].alternativeId)
    {
      var a' := p.alternatives[i'].alternativeId;
      assert forall k :: 0 <= k < |p.criteria| ==>
        MatrixRow(rm, a', p.criteria)[k] == RRow(p, sqrt, a')[k];
    }
  }

  /** The inner loop of step 3 for the row of the `i`-th alternative. */
  method NormalizeRow(
    p: Problem, sqrt: real -> real,
    scoreMatrix: map<Id, map<Id, real>>, normFactors: map<Id, real>, i: nat)
    returns (rRow: map<Id, real>, yRow: map<Id, real>)
    requires i < |p.alternatives|
    requires forall c :: Cell(scoreMatrix, p.alternatives[i].alternativeId, c) == Score(p, p.alternatives[i].alternativeId, c)
    requires forall k :: 0 <= k < |p.criteria| ==>
      Lookup(normFactors, p.criteria[k].criteriaId) == NormFactor(p, sqrt, p.criteria[k].criteriaId)
    ensures forall k :: 0 <= k < |p.criteria| ==>
      Lookup(rRow, p.criteria[k].criteriaId) == RCell(p, sqrt, p.alternatives[i].alternativeId, p.criteria[k].criteriaId)
    ensures forall k :: 0 <= k < |p.criteria| ==>
      Lookup(yRow, p.criteria[k].criteriaId) == YCell(p, sqrt, p.alternatives[i].alternativeId, p.criteria[k].criteriaId)
  {
    var a := p.alternatives[i].alternativeId;
    rRow, yRow := map[], map[];
    var j := 0;
    while j < |p.criteria|
      invariant 0 <= j <= |p.criteria|
      invariant forall k :: 0 <= k < j ==>
        Lookup(rRow, p.criteria[k].criteriaId) == RCell(p, sqrt, a, p.criteria[k].criteriaId)
      invariant forall k :: 0 <= k < j ==>
        Lookup(yRow, p.criteria[k].criteriaId) == YCell(p, sqrt, a, p.criteria[k].criteriaId)
    {
      var c := p.criteria[j].criteriaId;
      var score := Cell(scoreMatrix, a, c);
      var factor := Lookup(normFactors, c);
      var rij := 0.0;
      if factor != 0.0 {
        rij := score / factor;
      }
      rRow := rRow[c := rij];
      yRow := yRow[c := rij * Lookup(p.weights, c)];
      j := j + 1;
    }
  }

  /** Step 4: A+ and A- of every listed criterion, from the max and min of its Y column
      and its type. A criterion listed twice is written twice; the last write decides. */
  method IdealPoints(ym: map<Id, map<Id, real>>, alternatives: seq<Alternative>, criteria: seq<Criteria>)
    returns (aPlus: map<Id, real>, aMinus: map<Id, real>)
    requires 1 <= |alternatives|
    ensures forall k :: 0 <= k < |criteria| ==>
      IdealsWritten(ym, alternatives, criteria, aPlus, aMinus, |criteria|, criteria[k].criteriaId)
  {
    aPlus, aMinus := map[], map[];
    var i := 0;
    while i < |criteria|
      invariant 0 <= i <= |criteria|
      invariant forall k :: 0 <= k < i ==> IdealsWritten(ym, alternatives, criteria, aPlus, aMinus, i, criteria[k].criteriaId)
    {
      var crit := criteria[i];
      var mx, mn := ColumnExtremes(ym, alternatives, crit.criteriaId);
      ghost var aPlus0, aMinus0 := aPlus, aMinus;
      if crit.criteriaType == Benefit {
        aPlus := aPlus[crit.criteriaId := mx];
        aMinus := aMinus[crit.criteriaId := mn];
      } else {
        aPlus := aPlus[crit.criteriaId := mn];
        aMinus := aMinus[crit.criteriaId := mx];
      }
      IdealsStep(ym, alternatives, criteria, aPlus0, aMinus0, aPlus, aMinus, i);
      i := i + 1;
    }
  }

  /** Writing the extremes of criterion `i` keeps every earlier criterion's entries and
      gives criterion `i` the ones its type selects. */
  lemma IdealsStep(
    ym: map<Id, map<Id, real>>, alts: seq<Alternative>, cs: seq<Criteria>,
    aPlus0: map<Id, real>, aMinus0: map<Id, real>, aPlus: map<Id, real>, aMinus: map<Id, real>, i: nat)
    requires 1 <= |alts| && i < |cs|
    requires forall k :: 0 <= k < i ==> IdealsWritten(ym, alts, cs, aPlus0, aMinus0, i, cs[k].criteriaId)
    requires var col := MatrixColumn(ym, alts, cs[i].criteriaId);
      && aPlus == aPlus0[cs[i].criteriaId := IdealOf(col, cs[i].criteriaType)]
      && aMinus == aMinus0[cs[i].criteriaId := AntiIdealOf(col, cs[i].criteriaType)]
    ensures forall k :: 0 <= k < i + 1 ==> IdealsWritten(ym, alts, cs, aPlus, aMinus, i + 1, cs[k].criteriaId)
  {
    forall k | 0 <= k < i + 1
      ensures IdealsWritten(ym, alts, cs, aPlus, aMinus, i + 1, cs[k].criteriaId)
    {
      var c := cs[k].criteriaId;
      if c != cs[i].criteriaId {
        assert IdealsWritten(ym, alts, cs, aPlus0, aMinus0, i, c);
        assert LastType(cs, i + 1, c) == LastType(cs, i, c);
      }
    }
  }

  /** The A+/A- entries written from the Y matrix are the ideal and anti-ideal rows of
      the specification. */
  lemma IdealRowsFromMatrix(p: Problem, sqrt: real -> real, ym: map<Id, map<Id, real>>, aPlus: map<Id, real>, aMinus: map<Id, real>)
    requires 1 <= |p.alternatives|
    requires forall k :: 0 <= k < |p.criteria| ==>
      MatrixColumn(ym, p.alternatives, p.criteria[k].criteriaId) == YColumn(p, sqrt, p.criteria[k].criteriaId)
    requires forall k :: 0 <= k < |p.criteria| ==>
      IdealsWritten(ym, p.alternatives, p.criteria, aPlus, aMinus, |p.criteria|, p.criteria[k].criteriaId)
    ensures MapRow(aPlus, p.criteria) == IdealRow(p, sqrt)
    ensures MapRow(aMinus, p.criteria) == AntiIdealRow(p, sqrt)
  {
    forall k | 0 <= k < |p.criteria|
      ensures MapRow(aPlus, p.criteria)[k] == IdealRow(p, sqrt)[k]
      ensures MapRow(aMinus, p.criteria)[k] == AntiIdealRow(p, sqrt)[k]
    {
      assert IdealsWritten(ym, p.alternatives, p.criteria, aPlus, aMinus, |p.criteria|, p.criteria[k].criteriaId);
    }
  }

  /** After the first `n` criteria, the A+ and A- entries of `c` hold the extremes of its
      Y column chosen by the type of the last of them with that ID. */
  ghost predicate IdealsWritten(
    ym: map<Id, map<Id, real>>, alts: seq<Alternative>, cs: seq<Criteria>,
    aPlus: map<Id, real>, aMinus: map<Id, real>, n: nat, c: Id)
    requires 1 <= |alts| && n <= |cs|
  {
    var t := LastType(cs, n, c);
    var col := MatrixColumn(ym, alts, c);
    Lookup(aPlus, c) == IdealOf(col, t) && Lookup(aMinus, c) == AntiIdealOf(col, t)
  }

  /** The inner loop of step 4: max and min of column `c` of Y, seeded from the first
      alternative through the `first` flag. */
  method ColumnExtremes(ym: map<Id, map<Id, real>>, alternatives: seq<Alternative>, c: Id)
    returns (mx: real, mn: real)
    requires 1 <= |alternatives|
    ensures mx == RunningMax(MatrixColumn(ym, alternatives, c))
    ensures mn == RunningMin(MatrixColumn(ym, alternatives, c))
  {
    ghost var col := MatrixColumn(ym, alternatives, c);
    mx, mn := 0.0, 0.0;
    var first := true;
    var j := 0;
    while j < |alternatives|
      invariant 0 <= j <= |alternatives|
      invariant first <==> j == 0
      invariant !first ==> mx == RunningMax(col[..j]) && mn == RunningMin(col[..j])
    {
      assert col[..j + 1][..j] == col[..j];
      var y := Cell(ym, alternatives[j].alternativeId, c);
      if first {
        mx := y;
        mn := y;
        first := false;
      }
      if y > mx {
        mx := y;
      }
      if y < mn {
        mn := y;
      }
      j := j + 1;
    }
    assert col[..j] == col;
  }

  /** Step 5: D+ and D- of every listed alternative, from its R row and the A+/A- entries
      of the listed criteria. */
  method Distances(
    sqrt: real -> real, alternatives: seq<Alternative>, criteria: seq<Criteria>,
    rm: map<Id, map<Id, real>>, aPlus: map<Id, real>, aMinus: map<Id, real>)
    returns (dPlus: map<Id, real>, dMinus: map<Id, real>)
    ensures forall i :: 0 <= i < |alternatives| ==>
      var a := alternatives[i].alternativeId;
      Lookup(dPlus, a) == Distance(sqrt, MapRow(aPlus, criteria), MatrixRow(rm, a, criteria))
    ensures forall i :: 0 <= i < |alternatives| ==>
      var a := alternatives[i].alternativeId;
      Lookup(dMinus, a) == Distance(sqrt, MapRow(aMinus, criteria), MatrixRow(rm, a, criteria))
  {
    dPlus, dMinus := map[], map[];
    var i := 0;
    while i < |alternatives|
      invariant 0 <= i <= |alternatives|
      invariant forall i' :: 0 <= i' < i ==>
        var a := alternatives[i'].alternativeId;
        Lookup(dPlus, a) == Distance(sqrt, MapRow(aPlus, criteria), MatrixRow(rm, a, criteria))
      invariant forall i' :: 0 <= i' < i ==>
        var a := alternatives[i'].alternativeId;
        Lookup(dMinus, a) == Distance(sqrt, MapRow(aMinus, criteria), MatrixRow(rm, a, criteria))
    {
      var a := alternatives[i].alternativeId;
      var sumSqPlus, sumSqMinus := DistanceSums(rm, aPlus, aMinus, a, criteria);
      ghost var dPlus0, dMinus0 := dPlus, dMinus;
      dPlus := dPlus[a := sqrt(sumSqPlus)];
      dMinus := dMinus[a := sqrt(sumSqMinus)];
      DistanceStep(sqrt, alternatives, criteria, rm, MapRow(aPlus, criteria), dPlus0, dPlus, i);
      DistanceStep(sqrt, alternatives, criteria, rm, MapRow(aMinus, criteria), dMinus0, dMinus, i);
      i := i + 1;
    }
  }

  /** Writing the distance of the alternative at position `i` keeps those of the earlier
      positions. */
  lemma DistanceStep(
    sqrt: real -> real, alternatives: seq<Alternative>, criteria: seq<Criteria>,
    rm: map<Id, map<Id, real>>, point: seq<real>, d0: map<Id, real>, d: map<Id, real>, i: nat)
    requires i < |alternatives| && |point| == |criteria|
    requires forall i' :: 0 <= i' < i ==>
      var a := alternatives[i'].alternativeId;
      Lookup(d0, a) == Distance(sqrt, point, MatrixRow(rm, a, criteria))
    requires var a := alternatives[i].alternativeId;
      d == d0[a := Distance(sqrt, point, MatrixRow(rm, a, criteria))]
    ensures forall i' :: 0 <= i' < i + 1 ==>
      var a := alternatives[i'].alternativeId;
      Lookup(d, a) == Distance(sqrt, point, MatrixRow(rm, a, criteria))
  {
  }

  /** The inner loop of step 5: the running sums of (A+ - R[a][c])^2 and (A- - R[a][c])^2
      over the listed criteria. */
  method DistanceSums(
    rm: map<Id, map<Id, real>>, aPlus: map<Id, real>, aMinus: map<Id, real>,
    a: Id, criteria: seq<Criteria>)
    returns (sumSqPlus: real, sumSqMinus: real)
    ensures sumSqPlus == SumOfSquares(Deviations(MapRow(aPlus, criteria), MatrixRow(rm, a, criteria)))
    ensures sumSqMinus == SumOfSquares(Deviations(MapRow(aMinus, criteria), MatrixRow(rm, a, criteria)))
  {
    ghost var plus := Deviations(MapRow(aPlus, criteria), MatrixRow(rm, a, criteria));
    ghost var minus := Deviations(MapRow(aMinus, criteria), MatrixRow(rm, a, criteria));
    sumSqPlus, sumSqMinus := 0.0, 0.0;
    var j := 0;
    while j < |criteria|
      invariant 0 <= j <= |criteria|
      invariant sumSqPlus == SumOfSquares(plus[..j])
      invariant sumSqMinus == SumOfSquares(minus[..j])
    {
      assert plus[..j + 1][..j] == plus[..j];
      assert minus[..j + 1][..j] == minus[..j];
      var c := criteria[j].criteriaId;
      var rij := Cell(rm, a, c);
      sumSqPlus := sumSqPlus + Square(Lookup(aPlus, c) - rij);
      sumSqMinus := sumSqMinus + Square(Lookup(aMinus, c) - rij);
      j := j + 1;
    }
    assert plus[..j] == plus;
    assert minus[..j] == minus;
  }

  /** Step 6: the closeness ratio of every listed alternative, appended in list order. */
  method ClosenessScores(p: Problem, sqrt: real -> real, dPlus: map<Id, real>, dMinus: map<Id, real>)
    returns (results: seq<TopsisRank>)
    requires 1 <= |p.alternatives|
    requires forall i :: 0 <= i < |p.alternatives| ==>
      Lookup(dPlus, p.alternatives[i].alternativeId) == DPlus(p, sqrt, p.alternatives[i].alternativeId)
    requires forall i :: 0 <= i < |p.alternatives| ==>
      Lookup(dMinus, p.alternatives[i].alternativeId) == DMinus(p, sqrt, p.alternatives[i].alternativeId)
    ensures results == Unsorted(p, sqrt)
  {
    results := [];
    var i := 0;
    while i < |p.alternatives|
      invariant 0 <= i <= |p.alternatives|
      invariant results == Unsorted(p, sqrt)[..i]
    {
      var a := p.alternatives[i].alternativeId;
      var dp := Lookup(dPlus, a);
      var dm := Lookup(dMinus, a);
      var ci := 0.0;
      if dm + dp != 0.0 {
        ci := dm / (dm + dp);
      }
      results := results + [TopsisRank(a, ci, 0)];
      i := i + 1;
    }
  }

  // ---------------------------------------------------------------------------
  // Properties
  // ---------------------------------------------------------------------------

  /** The entries before sorting carry exactly the listed alternative IDs, in order, and
      every score lies in [0, 1]. */
  lemma UnsortedFacts(p: Problem, sqrt: real -> real)
    requires IsSqrt(sqrt) && 1 <= |p.alternatives|
    ensures MapSeq(Unsorted(p, sqrt), RankAltId) == MapSeq(p.alternatives, AltId)
    ensures forall i :: 0 <= i < |p.alternatives| ==> 0.0 <= Unsorted(p, sqrt)[i].finalScore <= 1.0
  {
    var u := Unsorted(p, sqrt);
    assert forall i :: 0 <= i < |u| ==> MapSeq(u, RankAltId)[i] == MapSeq(p.alternatives, AltId)[i];
    forall i | 0 <= i < |p.alternatives|
      ensures 0.0 <= u[i].finalScore <= 1.0
    {
      var a := p.alternatives[i].alternativeId;
      DistancesNonNegative(p, sqrt, a);
      ClosenessBounds(DPlus(p, sqrt, a), DMinus(p, sqrt, a));
    }
  }

  /** Missing (alternative, criterion) scores read as 0; otherwise the cell holds the
      value of the last score row for the pair, earlier duplicates being overwritten. */
  lemma {:induction false} LatestScoreIsLastWrite(scores: seq<DMInputScore>, n: nat, a: Id, c: Id)
    requires n <= |scores|
    ensures (forall i :: 0 <= i < n ==> !IsScoreFor(scores[i], a, c)) ==> LatestScore(scores, n, a, c) == 0.0
    ensures forall i :: 0 <= i < n && IsScoreFor(scores[i], a, c) &&
                        (forall j :: i < j < n ==> !IsScoreFor(scores[j], a, c))
                        ==> LatestScore(scores, n, a, c) == scores[i].scoreValue
  {
    if n > 0 {
      if IsScoreFor(scores[n - 1], a, c) {
        forall i | 0 <= i < n && IsScoreFor(scores[i], a, c) && (forall j :: i < j < n ==> !IsScoreFor(scores[j], a, c))
          ensures LatestScore(scores, n, a, c) == scores[i].scoreValue
        {
          assert i == n - 1;
        }
      } else {
        LatestScoreIsLastWrite(scores, n - 1, a, c);
        assert LatestScore(scores, n, a, c) == LatestScore(scores, n - 1, a, c);
      }
    }
  }

  /** The type deciding A+/A- of criterion `c` is that of the last listed criterion with
      ID `c`; with no such criterion it is "". */
  lemma LastTypeIsLastWrite(cs: seq<Criteria>, n: nat, c: Id)
    requires n <= |cs|
    ensures (forall i :: 0 <= i < n ==> !HasId(cs[i], c)) ==> LastType(cs, n, c) == ""
    ensures forall i :: 0 <= i < n && HasId(cs[i], c) &&
                        (forall j :: i < j < n ==> !HasId(cs[j], c))
                        ==> LastType(cs, n, c) == cs[i].criteriaType
  {
    if forall i :: 0 <= i < n ==> !HasId(cs[i], c) {
      LastTypeNone(cs, n, c);
    }
    forall i | 0 <= i < n && HasId(cs[i], c) && (forall j :: i < j < n ==> !HasId(cs[j], c))
      ensures LastType(cs, n, c) == cs[i].criteriaType
    {
      LastTypeAt(cs, n, c, i);
    }
  }

  lemma {:induction false} LastTypeNone(cs: seq<Criteria>, n: nat, c: Id)
    requires n <= |cs|
    requires forall i :: 0 <= i < n ==> !HasId(cs[i], c)
    ensures LastType(cs, n, c) == ""
  {
    if n > 0 {
      LastTypeNone(cs, n - 1, c);
    }
  }

  lemma {:induction false} LastTypeAt(cs: seq<Criteria>, n: nat, c: Id, i: nat)
    requires i < n <= |cs| && HasId(cs[i], c)
    requires forall j :: i < j < n ==> !HasId(cs[j], c)
    ensures LastType(cs, n, c) == cs[i].criteriaType
  {
    if i < n - 1 {
      LastTypeAt(cs, n - 1, c, i);
    }
  }

  /** The norm of a column is never negative. */
  lemma NormFactorNonNegative(p: Problem, sqrt: real -> real, c: Id)
    requires IsSqrt(sqrt)
    ensures 0.0 <= NormFactor(p, sqrt, c)
  {
    SumOfSquaresNonNegative(ScoreColumn(p, c));
  }

  /** A column whose listed alternatives all score 0 (no score row, or explicit zeros)
      has norm 0, and then R = Y = 0 for every alternative instead of a division by 0. */
  lemma ZeroColumn(p: Problem, sqrt: real -> real, c: Id)
    requires IsSqrt(sqrt)
    requires forall i :: 0 <= i < |p.alternatives| ==> Score(p, p.alternatives[i].alternativeId, c) == 0.0
    ensures NormFactor(p, sqrt, c) == 0.0
    ensures forall a :: RCell(p, sqrt, a, c) == 0.0 && YCell(p, sqrt, a, c) == 0.0
  {
    SumOfSquaresOfZeros(ScoreColumn(p, c));
  }

  /** The running maximum bounds the values from above and is one of them. */
  lemma {:induction false} RunningMaxIsMax(ys: seq<real>)
    requires 1 <= |ys|
    ensures forall i :: 0 <= i < |ys| ==> ys[i] <= RunningMax(ys)
    ensures exists i :: 0 <= i < |ys| && RunningMax(ys) == ys[i]
  {
    var n := |ys|;
    if n == 1 {
      assert RunningMax(ys) == ys[0];
    } else {
      var front := ys[..n - 1];
      RunningMaxIsMax(front);
      if ys[n - 1] > RunningMax(front) {
        assert RunningMax(ys) == ys[n - 1];
      } else {
        var i :| 0 <= i < n - 1 && RunningMax(front) == front[i];
        assert RunningMax(ys) == ys[i];
      }
    }
  }

  /** The running minimum bounds the values from below and is one of them. */
  lemma {:induction false} RunningMinIsMin(ys: seq<real>)
    requires 1 <= |ys|
    ensures forall i :: 0 <= i < |ys| ==> RunningMin(ys) <= ys[i]
    ensures exists i :: 0 <= i < |ys| && RunningMin(ys) == ys[i]
  {
    var n := |ys|;
    if n == 1 {
      assert RunningMin(ys) == ys[0];
    } else {
      var front := ys[..n - 1];
      RunningMinIsMin(front);
      if ys[n - 1] < RunningMin(front) {
        assert RunningMin(ys) == ys[n - 1];
      } else {
        var i :| 0 <= i < n - 1 && RunningMin(front) == front[i];
        assert RunningMin(ys) == ys[i];
      }
    }
  }

  /** For a "benefit" criterion A+ is the largest and A- the smallest value of its
      Y column; for any other type they are swapped. Either is one of the column's
      values. */
  lemma IdealPointsByType(p: Problem, sqrt: real -> real, c: Id)
    requires 1 <= |p.alternatives|
    ensures var col := YColumn(p, sqrt, c);
      LastType(p.criteria, |p.criteria|, c) == Benefit ==>
        forall i :: 0 <= i < |col| ==> AntiIdeal(p, sqrt, c) <= col[i] <= Ideal(p, sqrt, c)
    ensures var col := YColumn(p, sqrt, c);
      LastType(p.criteria, |p.criteria|, c) != Benefit ==>
        forall i :: 0 <= i < |col| ==> Ideal(p, sqrt, c) <= col[i] <= AntiIdeal(p, sqrt, c)
    ensures var col := YColumn(p, sqrt, c);
      (exists i :: 0 <= i < |col| && Ideal(p, sqrt, c) == col[i]) &&
      (exists i :: 0 <= i < |col| && AntiIdeal(p, sqrt, c) == col[i])
  {
    RunningMaxIsMax(YColumn(p, sqrt, c));
    RunningMinIsMin(YColumn(p, sqrt, c));
  }

  /** For a criterion of any type other than "benefit", A- >= A+. */
  lemma AntiIdealDominatesForCost(p: Problem, sqrt: real -> real, c: Id)
    requires 1 <= |p.alternatives|
    requires LastType(p.criteria, |p.criteria|, c) != Benefit
    ensures Ideal(p, sqrt, c) <= AntiIdeal(p, sqrt, c)
  {
    IdealPointsByType(p, sqrt, c);
    assert Ideal(p, sqrt, c) <= YColumn(p, sqrt, c)[0];
  }

  /** D+ and D- are square roots of sums of squares, hence never negative. */
  lemma DistancesNonNegative(p: Problem, sqrt: real -> real, a: Id)
    requires IsSqrt(sqrt) && 1 <= |p.alternatives|
    ensures 0.0 <= DPlus(p, sqrt, a) && 0.0 <= DMinus(p, sqrt, a)
  {
    SumOfSquaresNonNegative(Deviations(IdealRow(p, sqrt), RRow(p, sqrt, a)));
    SumOfSquaresNonNegative(Deviations(AntiIdealRow(p, sqrt), RRow(p, sqrt, a)));
  }

  /** For non-negative distances the closeness lies in [0, 1]; it is 0 when D- is 0 and
      1 when D+ is 0 and D- is not. */
  lemma ClosenessBounds(dPlus: real, dMinus: real)
    requires 0.0 <= dPlus && 0.0 <= dMinus
    ensures 0.0 <= Closeness(dPlus, dMinus) <= 1.0
    ensures dMinus == 0.0 ==> Closeness(dPlus, dMinus) == 0.0
    ensures dPlus == 0.0 && dMinus != 0.0 ==> Closeness(dPlus, dMinus) == 1.0
  {
    if dMinus + dPlus != 0.0 {
      var s := dMinus + dPlus;
      assert dMinus / s * s == dMinus;
    }
  }

  // ---------------------------------------------------------------------------
  // Monotonicity in a benefit score does not hold for these formulas
  // ---------------------------------------------------------------------------

  /** One benefit criterion (ID 1) of weight 0.5 and two alternatives (IDs 1 and 2),
      scored x and y by the decision maker. */
  function OneCriterionProblem(x: real, y: real): Problem {
    Problem(
      [DMInputScore(1, 1, 1, 1, x), DMInputScore(2, 1, 2, 1, y)],
      [Criteria(1, 1, None, "C1", "C1", Benefit, 0.5)],
      [Alternative(1, 1, "A1", ""), Alternative(2, 1, "A2", "")],
      map[1 := 0.5])
  }

  lemma ProductZero(x: real, y: real)
    requires x * y == 0.0
    ensures x == 0.0 || y == 0.0
  {
  }

  /** IsSqrt pins the root of a perfect square. */
  lemma SqrtOfSquare(sqrt: real -> real, a: real)
    requires IsSqrt(sqrt) && 0.0 <= a
    ensures sqrt(a * a) == a
  {
    var r := sqrt(a * a);
    assert 0.0 <= r && r * r == a * a;
    assert (r - a) * (r + a) == r * r - a * a;
    ProductZero(r - a, r + a);
  }

  lemma RunningExtremesOfPair(a: real, b: real)
    requires b <= a
    ensures RunningMax([a, b]) == a && RunningMin([a, b]) == b
  {
    assert [a, b][..1] == [a];
  }

  /** The one score column of `OneCriterionProblem(x, y)` is (x, y), with norm n. */
  lemma OneCriterionNorm(sqrt: real -> real, x: real, y: real, n: real)
    requires IsSqrt(sqrt)
    requires 0.0 < n && n * n == x * x + y * y
    ensures var p := OneCriterionProblem(x, y);
      Score(p, 1, 1) == x && Score(p, 2, 1) == y && NormFactor(p, sqrt, 1) == n
  {
    var p := OneCriterionProblem(x, y);
    assert LatestScore(p.scores, 1, 1, 1) == x;
    assert LatestScore(p.scores, 2, 2, 1) == y;
    assert ScoreColumn(p, 1) == [x, y];
    assert SumOfSquares([x, y]) == SumOfSquares([x]) + Square(y) by {
      assert [x, y][..1] == [x];
    }
    assert SumOfSquares([x]) == Square(x) by {
      assert [x][..0] == [];
    }
    SqrtOfSquare(sqrt, n);
  }

  /** In `OneCriterionProblem(x, y)` with x >= y >= 0 and norm n, R = (x/n, y/n) and
      Y = R/2, so A+ = x/2n and A- = y/2n. */
  lemma OneCriterionRows(sqrt: real -> real, x: real, y: real, n: real)
    requires IsSqrt(sqrt)
    requires 0.0 <= y <= x && 0.0 < n && n * n == x * x + y * y
    ensures var p := OneCriterionProblem(x, y);
      && RRow(p, sqrt, 2) == [y / n]
      && IdealRow(p, sqrt) == [x / n * 0.5]
      && AntiIdealRow(p, sqrt) == [y / n * 0.5]
  {
    var p := OneCriterionProblem(x, y);
    OneCriterionNorm(sqrt, x, y, n);
    assert RCell(p, sqrt, 2, 1) == y / n;
    assert YColumn(p, sqrt, 1) == [x / n * 0.5, y / n * 0.5];
    assert y / n <= x / n by {
      assert x / n - y / n == (x - y) / n;
    }
    RunningExtremesOfPair(x / n * 0.5, y / n * 0.5);
    assert LastType(p.criteria, 1, 1) == Benefit;
    assert Ideal(p, sqrt, 1) == x / n * 0.5;
    assert AntiIdeal(p, sqrt, 1) == y / n * 0.5;
  }

  /** The score of alternative 2 in `OneCriterionProblem(x, y)` for x >= y >= 0: with the
      rows above, D+ = |x/2n - y/n| and D- = y/2n. */
  lemma OneCriterionScore(sqrt: real -> real, x: real, y: real, n: real, dPlus: real, dMinus: real)
    requires IsSqrt(sqrt)
    requires 0.0 <= y <= x && 0.0 < n && n * n == x * x + y * y
    requires 0.0 <= dPlus && dPlus * dPlus == Square(x / n * 0.5 - y / n)
    requires dMinus == y / n * 0.5
    ensures TopsisScore(OneCriterionProblem(x, y), sqrt, 2) == Closeness(dPlus, dMinus)
  {
    OneCriterionRows(sqrt, x, y, n);
    var devPlus := Deviations([x / n * 0.5], [y / n]);
    assert devPlus == [x / n * 0.5 - y / n];
    assert SumOfSquares(devPlus) == dPlus * dPlus by {
      assert devPlus[..0] == [];
    }
    SqrtOfSquare(sqrt, dPlus);
    var devMinus := Deviations([y / n * 0.5], [y / n]);
    assert devMinus == [y / n * 0.5 - y / n];
    assert y / n * 0.5 - y / n == -dMinus;
    assert SumOfSquares(devMinus) == dMinus * dMinus by {
      assert devMinus[..0] == [];
    }
    SqrtOfSquare(sqrt, dMinus);
  }

  /** Raising the benefit score of alternative 2 from 5 to 9, with everything else fixed,
      lowers its closeness from 5/7 to 3/5: D+ and D- measure the unweighted R row against
      ideal points taken from the weighted Y matrix, so the property that a higher benefit
      score never lowers the closeness fails for these formulas. */
  lemma MonotonicityCounterexample(sqrt: real -> real)
    requires IsSqrt(sqrt)
    ensures TopsisScore(OneCriterionProblem(12.0, 5.0), sqrt, 2) == 5.0 / 7.0
    ensures TopsisScore(OneCriterionProblem(12.0, 9.0), sqrt, 2) == 3.0 / 5.0
    ensures TopsisScore(OneCriterionProblem(12.0, 9.0), sqrt, 2) < TopsisScore(OneCriterionProblem(12.0, 5.0), sqrt, 2)
  {
    OneCriterionScore(sqrt, 12.0, 5.0, 13.0, 1.0 / 13.0, 2.5 / 13.0);
    OneCriterionScore(sqrt, 12.0, 9.0, 15.0, 3.0 / 15.0, 4.5 / 15.0);
  }
}
