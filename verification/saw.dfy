/** The SAW (simple additive weighting) ranker of
    services/internal/calculations/saw_calculator.go: scores are collected into the same
    alternative × criterion matrix as for TOPSIS; every sub-criterion (a criterion with a
    parent) column is normalised against its maximum ("benefit": score / max) or minimum
    ("cost": min / score); an alternative's score is the weighted sum of its normalised
    values over the sub-criteria, and the result is sorted by non-increasing score.

    The score matrix and the max/min scan are the very loops of the TOPSIS ranker and are
    taken from the Topsis module. */
module Saw {
  import opened Models
  import opened Sorting
  import Topsis

  datatype SawRank = SawRank(alternativeId: Id, finalScore: real)

  /** The one error the ranker reports: an empty criteria, alternative or score list. */
  datatype SawError = IncompleteData

  /** An entry of `maxMinMap`. */
  datatype Bounds = Bounds(max: real, min: real)

  function SawRankId(r: SawRank): Id { r.alternativeId }
  function SawScoreOf(r: SawRank): real { r.finalScore }

  /** Only sub-criteria (criteria with a parent) take part in SAW. */
  predicate IsLeaf(cr: Criteria) {
    cr.parentCriteriaId.Some?
  }

  // ---------------------------------------------------------------------------
  // Specification
  // ---------------------------------------------------------------------------

  /** max and min of a column as the source's `isFirst` loop leaves them; with no
      alternative both keep Go's zero value. */
  function ColumnBounds(col: seq<real>): Bounds {
    if |col| == 0 then Bounds(0.0, 0.0) else Bounds(Topsis.RunningMax(col), Topsis.RunningMin(col))
  }

  /** The normalised value of `score` under a criterion of type `t`; a type other than
      "benefit" and "cost" writes nothing. */
  function NormalizeValue(t: string, score: real, b: Bounds): Option<real> {
    if t == Benefit then Some(if b.max == 0.0 then 0.0 else score / b.max)
    else if t == Cost then Some(if score == 0.0 then 0.0 else b.min / score)
    else None
  }

  /** The cell normalizedMatrix[a][c] once the criteria `cs` have been processed: the
      value written by the last sub-criterion with ID `c` of a known type, if any. */
  function NormEntry(p: Topsis.Problem, cs: seq<Criteria>, a: Id, c: Id): Option<real> {
    if |cs| == 0 then None
    else
      var cr := cs[|cs| - 1];
      var v := NormalizeValue(cr.criteriaType, Topsis.Score(p, a, c), ColumnBounds(Topsis.ScoreColumn(p, c)));
      if cr.criteriaId == c && IsLeaf(cr) && v.Some? then v else NormEntry(p, cs[..|cs| - 1], a, c)
  }

  /** What criterion `cr` adds to alternative `a`'s score: normalised value × weight for a
      sub-criterion with both a weight entry and a normalised cell, 0 otherwise. */
  function Contribution(p: Topsis.Problem, a: Id, cr: Criteria): real {
    var v := NormEntry(p, p.criteria, a, cr.criteriaId);
    if IsLeaf(cr) && cr.criteriaId in p.weights && v.Some? then v.value * p.weights[cr.criteriaId] else 0.0
  }

  /** The running `finalScore` of alternative `a` after the criteria `cs`. */
  function ScoreSum(p: Topsis.Problem, cs: seq<Criteria>, a: Id): real {
    if |cs| == 0 then 0.0 else ScoreSum(p, cs[..|cs| - 1], a) + Contribution(p, a, cs[|cs| - 1])
  }

  function SawScore(p: Topsis.Problem, a: Id): real {
    ScoreSum(p, p.criteria, a)
  }

  /** One entry per listed alternative, in list order, before the sort. */
  function Unsorted(p: Topsis.Problem): (rs: seq<SawRank>)
    ensures |rs| == |p.alternatives|
  {
    seq(|p.alternatives|, i requires 0 <= i < |p.alternatives| =>
      SawRank(p.alternatives[i].alternativeId, SawScore(p, p.alternatives[i].alternativeId)))
  }

  /** The sub-criteria of `cs`, in order. */
  function Leaves(cs: seq<Criteria>): (ls: seq<Criteria>)
    ensures forall k :: 0 <= k < |ls| ==> IsLeaf(ls[k])
  {
    if |cs| == 0 then []
    else Leaves(cs[..|cs| - 1]) + (if IsLeaf(cs[|cs| - 1]) then [cs[|cs| - 1]] else [])
  }

  /** normalizedMatrix[a][c] read as an optional value (Go's `v, ok := m[a][c]`). */
  function NormCell(m: map<Id, map<Id, real>>, a: Id, c: Id): Option<real> {
    if a in m && c in m[a] then Some(m[a][c]) else None
  }

  // ---------------------------------------------------------------------------
  // The ranker
  // ---------------------------------------------------------------------------

  /** Ranks the alternatives of one decision maker; fails exactly when one of the three
      input lists is empty. On success the entries are the per-alternative weighted sums,
      one per listed alternative, sorted by non-increasing score. */
  method CalculateRanking(
    scores: seq<DMInputScore>,
    criteria: seq<Criteria>,
    alternatives: seq<Alternative>,
    weights: map<Id, real>)
    returns (r: Result<seq<SawRank>, SawError>)
    ensures r.Failure? <==> |criteria| == 0 || |alternatives| == 0 || |scores| == 0
    ensures r.Success? ==>
      var p := Topsis.Problem(scores, criteria, alternatives, weights);
      && multiset(r.value) == multiset(Unsorted(p))
      && SortedDesc(r.value, SawScoreOf)
      && multiset(MapSeq(r.value, SawRankId)) == multiset(MapSeq(alternatives, Topsis.AltId))
  {
    if |criteria| == 0 || |alternatives| == 0 || |scores| == 0 {
      return Failure(IncompleteData);
    }
    var p := Topsis.Problem(scores, criteria, alternatives, weights);
    var scoreMatrix := Topsis.BuildScoreMatrix(scores, alternatives);
    var maxMinMap := LeafBounds(p, scoreMatrix);
    var normalizedMatrix := NormalizeLeaves(p, scoreMatrix, maxMinMap);
    var finalRanks := FinalScores(p, normalizedMatrix);
    var sorted := SortSliceDesc(finalRanks, SawScoreOf);
    UnsortedIds(p);
    PermutationMaps(sorted, finalRanks, SawRankId);
    r := Success(sorted);
  }

  /** The entries before sorting carry exactly the listed alternative IDs, in order. */
  lemma UnsortedIds(p: Topsis.Problem)
    ensures MapSeq(Unsorted(p), SawRankId) == MapSeq(p.alternatives, Topsis.AltId)
  {
    var u := Unsorted(p);
    forall i | 0 <= i < |u|
      ensures MapSeq(u, SawRankId)[i] == MapSeq(p.alternatives, Topsis.AltId)[i]
    {
      assert u[i].alternativeId == p.alternatives[i].alternativeId;
      assert MapSeq(u, SawRankId)[i] == SawRankId(u[i]);
      assert MapSeq(p.alternatives, Topsis.AltId)[i] == Topsis.AltId(p.alternatives[i]);
    }
  }

  /** Column `c` of the built score matrix is column `c` of the specification. */
  lemma ScoreColumnFromMatrix(p: Topsis.Problem, scoreMatrix: map<Id, map<Id, real>>, c: Id)
    requires forall j, c' :: 0 <= j < |p.alternatives| ==>
      Cell(scoreMatrix, p.alternatives[j].alternativeId, c')
        == Topsis.LatestScore(p.scores, |p.scores|, p.alternatives[j].alternativeId, c')
    ensures Topsis.MatrixColumn(scoreMatrix, p.alternatives, c) == Topsis.ScoreColumn(p, c)
  {
  }

  /** maxMinMap: the bounds of every sub-criterion column. */
  method LeafBounds(p: Topsis.Problem, scoreMatrix: map<Id, map<Id, real>>)
    returns (maxMinMap: map<Id, Bounds>)
    requires 1 <= |p.alternatives|
    requires forall j, c :: 0 <= j < |p.alternatives| ==>
      Cell(scoreMatrix, p.alternatives[j].alternativeId, c)
        == Topsis.LatestScore(p.scores, |p.scores|, p.alternatives[j].alternativeId, c)
    ensures forall k :: 0 <= k < |p.criteria| && IsLeaf(p.criteria[k]) ==> p.criteria[k].criteriaId in maxMinMap
    ensures forall c :: c in maxMinMap ==> maxMinMap[c] == ColumnBounds(Topsis.ScoreColumn(p, c))
    ensures forall c :: c in maxMinMap ==>
      exists k :: 0 <= k < |p.criteria| && IsLeaf(p.criteria[k]) && p.criteria[k].criteriaId == c
  {
    maxMinMap := map[];
    var i := 0;
    while i < |p.criteria|
      invariant 0 <= i <= |p.criteria|
      invariant forall k :: 0 <= k < i && IsLeaf(p.criteria[k]) ==> p.criteria[k].criteriaId in maxMinMap
      invariant forall c :: c in maxMinMap ==> maxMinMap[c] == ColumnBounds(Topsis.ScoreColumn(p, c))
      invariant forall c :: c in maxMinMap ==>
        exists k :: 0 <= k < i && IsLeaf(p.criteria[k]) && p.criteria[k].criteriaId == c
    {
      var c := p.criteria[i];
      if c.parentCriteriaId.Some? {
        var mx, mn := Topsis.ColumnExtremes(scoreMatrix, p.alternatives, c.criteriaId);
        ScoreColumnFromMatrix(p, scoreMatrix, c.criteriaId);
        maxMinMap := maxMinMap[c.criteriaId := Bounds(mx, mn)];
      }
      i := i + 1;
    }
  }

  /** normalizedMatrix: an empty row per listed alternative, then every sub-criterion
      column normalised by its type. */
  method NormalizeLeaves(p: Topsis.Problem, scoreMatrix: map<Id, map<Id, real>>, maxMinMap: map<Id, Bounds>)
    returns (nm: map<Id, map<Id, real>>)
    requires forall j, c :: 0 <= j < |p.alternatives| ==>
      Cell(scoreMatrix, p.alternatives[j].alternativeId, c)
        == Topsis.LatestScore(p.scores, |p.scores|, p.alternatives[j].alternativeId, c)
    requires forall k :: 0 <= k < |p.criteria| && IsLeaf(p.criteria[k]) ==> p.criteria[k].criteriaId in maxMinMap
    requires forall c :: c in maxMinMap ==> maxMinMap[c] == ColumnBounds(Topsis.ScoreColumn(p, c))
    ensures forall j, c :: 0 <= j < |p.alternatives| ==>
      NormCell(nm, p.alternatives[j].alternativeId, c) == NormEntry(p, p.criteria, p.alternatives[j].alternativeId, c)
  {
    nm := EmptyRows(p.alternatives);
    var i := 0;
    while i < |p.criteria|
      invariant 0 <= i <= |p.criteria|
      invariant forall j :: 0 <= j < |p.alternatives| ==> p.alternatives[j].alternativeId in nm
      invariant forall j, c :: 0 <= j < |p.alternatives| ==>
        NormCell(nm, p.alternatives[j].alternativeId, c) == NormEntry(p, p.criteria[..i], p.alternatives[j].alternativeId, c)
    {
      assert p.criteria[..i + 1][..i] == p.criteria[..i];
      var c := p.criteria[i];
      if c.parentCriteriaId.Some? && c.criteriaId in maxMinMap {
        var cData := maxMinMap[c.criteriaId];
        nm := NormalizeColumn(p, nm, scoreMatrix, c, cData, p.criteria[..i]);
      }
      i := i + 1;
    }
    assert p.criteria[..i] == p.criteria;
  }

  /** An empty row for every listed alternative. */
  method EmptyRows(alternatives: seq<Alternative>) returns (nm: map<Id, map<Id, real>>)
    ensures forall j :: 0 <= j < |alternatives| ==> alternatives[j].alternativeId in nm
    ensures forall a, c :: NormCell(nm, a, c) == None
  {
    nm := map[];
    var i := 0;
    while i < |alternatives|
      invariant 0 <= i <= |alternatives|
      invariant forall j :: 0 <= j < i ==> alternatives[j].alternativeId in nm
      invariant forall a :: a in nm ==> nm[a] == map[]
    {
      nm := nm[alternatives[i].alternativeId := map[]];
      i := i + 1;
    }
  }

  /** The inner loop of the normalisation: column `c.criteriaId` of every listed
      alternative, written when the type of `c` is "benefit" or "cost". */
  method NormalizeColumn(
    p: Topsis.Problem, nm0: map<Id, map<Id, real>>, scoreMatrix: map<Id, map<Id, real>>,
    c: Criteria, cData: Bounds, done: seq<Criteria>)
    returns (nm: map<Id, map<Id, real>>)
    requires IsLeaf(c) && cData == ColumnBounds(Topsis.ScoreColumn(p, c.criteriaId))
    requires forall j, c' :: 0 <= j < |p.alternatives| ==>
      Cell(scoreMatrix, p.alternatives[j].alternativeId, c')
        == Topsis.LatestScore(p.scores, |p.scores|, p.alternatives[j].alternativeId, c')
    requires forall j :: 0 <= j < |p.alternatives| ==> p.alternatives[j].alternativeId in nm0
    requires forall j, c' :: 0 <= j < |p.alternatives| ==>
      NormCell(nm0, p.alternatives[j].alternativeId, c') == NormEntry(p, done, p.alternatives[j].alternativeId, c')
    ensures forall j :: 0 <= j < |p.alternatives| ==> p.alternatives[j].alternativeId in nm
    ensures forall j, c' :: 0 <= j < |p.alternatives| ==>
      NormCell(nm, p.alternatives[j].alternativeId, c') == NormEntry(p, done + [c], p.alternatives[j].alternativeId, c')
  {
    nm := nm0;
    ghost var written: set<Id> := {};
    var i := 0;
    while i < |p.alternatives|
      invariant 0 <= i <= |p.alternatives|
      invariant forall j :: 0 <= j < i ==> p.alternatives[j].alternativeId in written
      invariant forall j :: 0 <= j < |p.alternatives| ==> p.alternatives[j].alternativeId in nm
      invariant forall j, c' :: 0 <= j < |p.alternatives| ==>
        var a := p.alternatives[j].alternativeId;
        NormCell(nm, a, c') == NormEntry(p, if a in written then done + [c] else done, a, c')
    {
      var a := p.alternatives[i].alternativeId;
      var score := Cell(scoreMatrix, a, c.criteriaId);
      ghost var prev := nm;
      if c.criteriaType == Benefit {
        var v := if cData.max == 0.0 then 0.0 else score / cData.max;
        var row: map<Id, real> := nm[a][c.criteriaId := v];
        nm := nm[a := row];
      } else if c.criteriaType == Cost {
        var v := if score == 0.0 then 0.0 else cData.min / score;
        var row: map<Id, real> := nm[a][c.criteriaId := v];
        nm := nm[a := row];
      }
      NormalizeColumnStep(p, prev, nm, c, done, written, i, score, cData);
      written := written + {a};
      i := i + 1;
    }
  }

  /** Writing the cell of the alternative at position `i` (when the type of `c` is known)
      moves that alternative to the state after `c` and leaves every other one as it was. */
  lemma NormalizeColumnStep(
    p: Topsis.Problem, prev: map<Id, map<Id, real>>, nm: map<Id, map<Id, real>>,
    c: Criteria, done: seq<Criteria>, written: set<Id>, i: nat, score: real, cData: Bounds)
    requires i < |p.alternatives|
    requires IsLeaf(c) && cData == ColumnBounds(Topsis.ScoreColumn(p, c.criteriaId))
    requires score == Topsis.Score(p, p.alternatives[i].alternativeId, c.criteriaId)
    requires p.alternatives[i].alternativeId in prev
    requires forall j, c' :: 0 <= j < |p.alternatives| ==>
      var b := p.alternatives[j].alternativeId;
      NormCell(prev, b, c') == NormEntry(p, if b in written then done + [c] else done, b, c')
    requires var a := p.alternatives[i].alternativeId;
      match NormalizeValue(c.criteriaType, score, cData)
      case Some(v) => var row: map<Id, real> := prev[a][c.criteriaId := v]; nm == prev[a := row]
      case None => nm == prev
    ensures forall j, c' :: 0 <= j < |p.alternatives| ==>
      var b := p.alternatives[j].alternativeId;
      NormCell(nm, b, c') == NormEntry(p, if b in written + {p.alternatives[i].alternativeId} then done + [c] else done, b, c')
  {
    var a := p.alternatives[i].alternativeId;
    var ext := done + [c];
    assert ext[..|ext| - 1] == done && ext[|ext| - 1] == c;
    forall j, c' | 0 <= j < |p.alternatives|
      ensures var b := p.alternatives[j].alternativeId;
        NormCell(nm, b, c') == NormEntry(p, if b in written + {a} then ext else done, b, c')
    {
      var b := p.alternatives[j].alternativeId;
      if b == a {
        if c' == c.criteriaId && NormalizeValue(c.criteriaType, score, cData).Some? {
          assert NormCell(nm, b, c') == NormEntry(p, ext, b, c');
        } else {
          assert NormEntry(p, ext, b, c') == NormEntry(p, done, b, c');
          assert NormCell(nm, b, c') == NormCell(prev, b, c');
        }
      } else {
        assert NormCell(nm, b, c') == NormCell(prev, b, c');
      }
    }
  }

  /** finalRanks: the weighted sum of every listed alternative, in list order. */
  method FinalScores(p: Topsis.Problem, nm: map<Id, map<Id, real>>) returns (finalRanks: seq<SawRank>)
    requires forall j, c :: 0 <= j < |p.alternatives| ==>
      NormCell(nm, p.alternatives[j].alternativeId, c) == NormEntry(p, p.criteria, p.alternatives[j].alternativeId, c)
    ensures finalRanks == Unsorted(p)
  {
    finalRanks := [];
    var i := 0;
    while i < |p.alternatives|
      invariant 0 <= i <= |p.alternatives|
      invariant finalRanks == Unsorted(p)[..i]
    {
      var a := p.alternatives[i].alternativeId;
      var finalScore := AlternativeScore(p, nm, a, i);
      finalRanks := finalRanks + [SawRank(a, finalScore)];
      i := i + 1;
    }
  }

  /** The inner loop of the weighted sum for the alternative at position `i`. */
  method AlternativeScore(p: Topsis.Problem, nm: map<Id, map<Id, real>>, a: Id, i: nat)
    returns (finalScore: real)
    requires i < |p.alternatives| && p.alternatives[i].alternativeId == a
    requires forall j, c :: 0 <= j < |p.alternatives| ==>
      NormCell(nm, p.alternatives[j].alternativeId, c) == NormEntry(p, p.criteria, p.alternatives[j].alternativeId, c)
    ensures finalScore == SawScore(p, a)
  {
    finalScore := 0.0;
    var k := 0;
    while k < |p.criteria|
      invariant 0 <= k <= |p.criteria|
      invariant finalScore == ScoreSum(p, p.criteria[..k], a)
    {
      var c := p.criteria[k];
      var contribution := 0.0;
      if c.parentCriteriaId.Some? {
        if c.criteriaId in p.weights && a in nm && c.criteriaId in nm[a] {
          contribution := nm[a][c.criteriaId] * p.weights[c.criteriaId];
        }
      }
      ContributionFromCell(p, nm, a, c);
      ScoreSumSnoc(p, a, k);
      finalScore := finalScore + contribution;
      k := k + 1;
    }
    assert p.criteria[..k] == p.criteria;
  }

  /** The contribution of criterion `c` read off the normalised matrix. */
  lemma ContributionFromCell(p: Topsis.Problem, nm: map<Id, map<Id, real>>, a: Id, c: Criteria)
    requires NormCell(nm, a, c.criteriaId) == NormEntry(p, p.criteria, a, c.criteriaId)
    ensures Contribution(p, a, c)
      == if IsLeaf(c) && c.criteriaId in p.weights && a in nm && c.criteriaId in nm[a]
         then nm[a][c.criteriaId] * p.weights[c.criteriaId] else 0.0
  {
  }

  /** One more criterion adds its contribution to the running sum. */
  lemma ScoreSumSnoc(p: Topsis.Problem, a: Id, k: nat)
    requires k < |p.criteria|
    ensures ScoreSum(p, p.criteria[..k + 1], a) == ScoreSum(p, p.criteria[..k], a) + Contribution(p, a, p.criteria[k])
  {
    assert p.criteria[..k + 1][..k] == p.criteria[..k];
  }

  // ---------------------------------------------------------------------------
  // Properties
  // ---------------------------------------------------------------------------

  /** A benefit value lies in [0, 1] for a score between 0 and the column maximum; a cost
      value lies in [0, 1] for a score at least the column minimum, itself non-negative. */
  lemma NormalizeValueBounds(t: string, score: real, b: Bounds)
    requires 0.0 <= b.min <= score <= b.max
    ensures NormalizeValue(t, score, b).Some? <==> t == Benefit || t == Cost
    ensures NormalizeValue(t, score, b).Some? ==>
      0.0 <= NormalizeValue(t, score, b).value <= 1.0
  {
    if t == Benefit && b.max != 0.0 {
      DivAtMostOne(score, b.max);
    } else if t == Cost && score != 0.0 {
      DivAtMostOne(b.min, score);
    }
  }

  lemma DivAtMostOne(x: real, y: real)
    requires 0.0 <= x <= y && y != 0.0
    ensures 0.0 <= x / y <= 1.0
  {
  }

  /** With non-negative scores every normalised cell of a listed alternative lies in
      [0, 1]. */
  lemma {:induction false} NormEntryInUnitInterval(p: Topsis.Problem, cs: seq<Criteria>, i: nat, c: Id)
    requires i < |p.alternatives|
    requires forall j :: 0 <= j < |p.alternatives| ==> 0.0 <= Topsis.ScoreColumn(p, c)[j]
    ensures NormEntry(p, cs, p.alternatives[i].alternativeId, c).Some? ==>
      0.0 <= NormEntry(p, cs, p.alternatives[i].alternativeId, c).value <= 1.0
  {
    if |cs| > 0 {
      var col := Topsis.ScoreColumn(p, c);
      Topsis.RunningMaxIsMax(col);
      Topsis.RunningMinIsMin(col);
      var j :| 0 <= j < |col| && col[j] == Topsis.RunningMin(col);
      assert col[i] == Topsis.Score(p, p.alternatives[i].alternativeId, c);
      NormalizeValueBounds(cs[|cs| - 1].criteriaType, col[i], ColumnBounds(col));
      NormEntryInUnitInterval(p, cs[..|cs| - 1], i, c);
    }
  }

  /** The top of the scale is reached: under "benefit" the alternative holding a non-zero
      column maximum normalises to exactly 1, and so does, under "cost", the alternative
      holding a non-zero column minimum. */
  lemma ExtremeNormalizesToOne(p: Topsis.Problem, c: Id)
    requires 1 <= |p.alternatives|
    ensures var col := Topsis.ScoreColumn(p, c);
      ColumnBounds(col).max != 0.0 ==>
        (exists j :: 0 <= j < |col| && NormalizeValue(Benefit, col[j], ColumnBounds(col)) == Some(1.0))
    ensures var col := Topsis.ScoreColumn(p, c);
      ColumnBounds(col).min != 0.0 ==>
        (exists j :: 0 <= j < |col| && NormalizeValue(Cost, col[j], ColumnBounds(col)) == Some(1.0))
  {
    ExtremeOfColumnIsOne(Topsis.ScoreColumn(p, c));
  }

  lemma ExtremeOfColumnIsOne(col: seq<real>)
    requires 1 <= |col|
    ensures ColumnBounds(col).max != 0.0 ==>
      (exists j :: 0 <= j < |col| && NormalizeValue(Benefit, col[j], ColumnBounds(col)) == Some(1.0))
    ensures ColumnBounds(col).min != 0.0 ==>
      (exists j :: 0 <= j < |col| && NormalizeValue(Cost, col[j], ColumnBounds(col)) == Some(1.0))
  {
    var b := ColumnBounds(col);
    var jMax := MaxIndex(col);
    var jMin := MinIndex(col);
    assert b.max == col[jMax] && b.min == col[jMin];
    if b.max != 0.0 {
      assert col[jMax] / col[jMax] == 1.0;
      assert NormalizeValue(Benefit, col[jMax], b) == Some(1.0);
    }
    if b.min != 0.0 {
      assert col[jMin] / col[jMin] == 1.0;
      assert NormalizeValue(Cost, col[jMin], b) == Some(1.0);
    }
  }

  lemma MaxIndex(col: seq<real>) returns (j: nat)
    requires 1 <= |col|
    ensures j < |col| && col[j] == Topsis.RunningMax(col)
  {
    Topsis.RunningMaxIsMax(col);
    j :| 0 <= j < |col| && col[j] == Topsis.RunningMax(col);
  }

  lemma MinIndex(col: seq<real>) returns (j: nat)
    requires 1 <= |col|
    ensures j < |col| && col[j] == Topsis.RunningMin(col)
  {
    Topsis.RunningMinIsMin(col);
    j :| 0 <= j < |col| && col[j] == Topsis.RunningMin(col);
  }

  /** A sub-criterion of a type other than "benefit" or "cost", or without a weight entry,
      adds nothing to the score. */
  lemma UnknownTypeOrNoWeightAddsNothing(p: Topsis.Problem, a: Id, cr: Criteria)
    requires cr.criteriaId !in p.weights
      || forall k :: 0 <= k < |p.criteria| && p.criteria[k].criteriaId == cr.criteriaId ==>
           p.criteria[k].criteriaType != Benefit && p.criteria[k].criteriaType != Cost
    ensures Contribution(p, a, cr) == 0.0
  {
    if cr.criteriaId in p.weights {
      NoKnownTypeNoEntry(p, p.criteria, a, cr.criteriaId);
    }
  }

  lemma {:induction false} NoKnownTypeNoEntry(p: Topsis.Problem, cs: seq<Criteria>, a: Id, c: Id)
    requires forall k :: 0 <= k < |cs| && cs[k].criteriaId == c ==>
      cs[k].criteriaType != Benefit && cs[k].criteriaType != Cost
    ensures NormEntry(p, cs, a, c) == None
  {
    if |cs| > 0 {
      NoKnownTypeNoEntry(p, cs[..|cs| - 1], a, c);
    }
  }

  /** Only sub-criteria matter: dropping every top-level criterion leaves each normalised
      cell unchanged ... */
  lemma {:induction false} NormEntryLeaves(p: Topsis.Problem, cs: seq<Criteria>, a: Id, c: Id)
    ensures NormEntry(p, Leaves(cs), a, c) == NormEntry(p, cs, a, c)
  {
    if |cs| > 0 {
      var last := cs[|cs| - 1];
      var init := cs[..|cs| - 1];
      NormEntryLeaves(p, init, a, c);
      if IsLeaf(last) {
        var ls := Leaves(init) + [last];
        assert Leaves(cs) == ls;
        assert ls[..|ls| - 1] == Leaves(init) && ls[|ls| - 1] == last;
      } else {
        assert Leaves(cs) == Leaves(init) + [] == Leaves(init);
      }
    }
  }

  /** ... and every alternative's score unchanged. */
  lemma LeavesOnly(p: Topsis.Problem, a: Id)
    ensures SawScore(p.(criteria := Leaves(p.criteria)), a) == SawScore(p, a)
  {
    var q := p.(criteria := Leaves(p.criteria));
    forall cr: Criteria
      ensures Contribution(q, a, cr) == Contribution(p, a, cr)
    {
      NormEntryLeavesIn(p, q, p.criteria, a, cr.criteriaId);
    }
    ScoreSumLeaves(p, q, p.criteria, a);
  }

  /** NormEntry reads the scores and alternatives only, so it agrees on `p` and `q`. */
  lemma NormEntryLeavesIn(p: Topsis.Problem, q: Topsis.Problem, cs: seq<Criteria>, a: Id, c: Id)
    requires q == p.(criteria := Leaves(p.criteria))
    ensures NormEntry(q, Leaves(cs), a, c) == NormEntry(p, cs, a, c)
  {
    NormEntrySameInputs(p, q, Leaves(cs), a, c);
    NormEntryLeaves(p, cs, a, c);
  }

  lemma {:induction false} NormEntrySameInputs(p: Topsis.Problem, q: Topsis.Problem, cs: seq<Criteria>, a: Id, c: Id)
    requires q.scores == p.scores && q.alternatives == p.alternatives
    ensures NormEntry(q, cs, a, c) == NormEntry(p, cs, a, c)
  {
    assert Topsis.ScoreColumn(q, c) == Topsis.ScoreColumn(p, c);
    if |cs| > 0 {
      NormEntrySameInputs(p, q, cs[..|cs| - 1], a, c);
    }
  }

  lemma {:induction false} ScoreSumLeaves(p: Topsis.Problem, q: Topsis.Problem, cs: seq<Criteria>, a: Id)
    requires q == p.(criteria := Leaves(p.criteria))
    requires forall cr: Criteria :: Contribution(q, a, cr) == Contribution(p, a, cr)
    ensures ScoreSum(q, Leaves(cs), a) == ScoreSum(p, cs, a)
  {
    if |cs| > 0 {
      var last := cs[|cs| - 1];
      var init := cs[..|cs| - 1];
      ScoreSumLeaves(p, q, init, a);
      if IsLeaf(last) {
        var ls := Leaves(init) + [last];
        assert Leaves(cs) == ls;
        assert ls[..|ls| - 1] == Leaves(init) && ls[|ls| - 1] == last;
      } else {
        assert Leaves(cs) == Leaves(init) + [] == Leaves(init);
      }
    }
  }
}
