/** The calculation service of services/internal/service/decision_service.go. An admin asks
    for a project's results; the service checks the caller's role and access, checks in a
    fixed order that the project has everything a calculation needs, clears the project's
    old rankings, ranks the alternatives once per TOPSIS decision maker, merges those
    rankings with Borda and saves the per-decision-maker rows followed by the final rows.

    The repositories are read-only snapshots of their tables (`Tables`); the one table the
    service writes, the result rankings, is the object `ResultStore`. */
module Decision {
  import opened Models
  import opened Sorting
  import Topsis
  import Borda

  const TopsisMethod: string := "TOPSIS"

  // ---------------------------------------------------------------------------
  // Repositories
  // ---------------------------------------------------------------------------

  /** The rows of the tables the service reads. */
  datatype Tables = Tables(
    projects: seq<DecisionProject>,
    criteria: seq<Criteria>,
    alternatives: seq<Alternative>,
    assignments: seq<ProjectDecisionMaker>,
    scores: seq<DMInputScore>)

  function CriteriaOf(db: Tables, projectId: Id): seq<Criteria> {
    CriteriaOfProject(db.criteria, projectId)
  }

  function AlternativesOf(db: Tables, projectId: Id): seq<Alternative> {
    Filter(db.alternatives, (a: Alternative) => a.projectId == projectId)
  }

  function AssignmentsOf(db: Tables, projectId: Id): seq<ProjectDecisionMaker> {
    Filter(db.assignments, (dm: ProjectDecisionMaker) => dm.projectId == projectId)
  }

  function ScoresOf(db: Tables, projectDmId: Id): seq<DMInputScore> {
    Filter(db.scores, (s: DMInputScore) => s.projectDmId == projectDmId)
  }

  /** The rankings of every other project: what ClearRangkings leaves behind. */
  function OtherProjects(rows: seq<ResultRanking>, projectId: Id): seq<ResultRanking> {
    Filter(rows, (r: ResultRanking) => r.projectId != projectId)
  }

  /** The result-ranking table, the one the service changes. */
  class ResultStore {
    var rows: seq<ResultRanking>

    constructor(rows0: seq<ResultRanking>)
      ensures rows == rows0
    {
      rows := rows0;
    }

    /** Deletes every ranking of the project. */
    method ClearRankings(projectId: Id)
      modifies this
      ensures rows == OtherProjects(old(rows), projectId)
    {
      rows := OtherProjects(rows, projectId);
    }

    /** Inserts the new rankings. */
    method CreateRankings(newRows: seq<ResultRanking>)
      modifies this
      ensures rows == old(rows) + newRows
    {
      rows := rows + newRows;
    }
  }

  // ---------------------------------------------------------------------------
  // Readiness
  // ---------------------------------------------------------------------------

  /** Why a project is not ready, one value per check, in the order of the checks. */
  datatype ReadyError = NoCriteria | NoAlternatives | NoAssignments | MissingWeight | MissingScores

  datatype CalcError = NotAdmin | NoAccess | NotReady(reason: ReadyError)

  /** The first readiness check the project fails, or None when it passes them all. */
  function Readiness(db: Tables, projectId: Id): Option<ReadyError> {
    var cs := CriteriaOf(db, projectId);
    var dms := AssignmentsOf(db, projectId);
    if |cs| == 0 then Some(NoCriteria)
    else if |AlternativesOf(db, projectId)| == 0 then Some(NoAlternatives)
    else if |dms| == 0 then Some(NoAssignments)
    else if exists i :: 0 <= i < |cs| && cs[i].weight == 0.0 then Some(MissingWeight)
    else if exists i :: 0 <= i < |dms| && dms[i].methodName == TopsisMethod && |ScoresOf(db, dms[i].projectDmId)| == 0
    then Some(MissingScores)
    else None
  }

  /** validateProjectReadyForCalculation: the checks run one after the other and the
      first one that fails decides the error. */
  method ValidateReady(db: Tables, projectId: Id) returns (err: Option<ReadyError>)
    ensures err == Readiness(db, projectId)
  {
    var allCriteria := CriteriaOf(db, projectId);
    if |allCriteria| == 0 {
      return Some(NoCriteria);
    }
    var alternatives := AlternativesOf(db, projectId);
    if |alternatives| == 0 {
      return Some(NoAlternatives);
    }
    var assignments := AssignmentsOf(db, projectId);
    if |assignments| == 0 {
      return Some(NoAssignments);
    }
    var i := 0;
    while i < |allCriteria|
      invariant 0 <= i <= |allCriteria|
      invariant forall k :: 0 <= k < i ==> allCriteria[k].weight != 0.0
    {
      if allCriteria[i].weight == 0.0 {
        return Some(MissingWeight);
      }
      i := i + 1;
    }
    i := 0;
    while i < |assignments|
      invariant 0 <= i <= |assignments|
      invariant forall k :: 0 <= k < i && assignments[k].methodName == TopsisMethod ==>
        |ScoresOf(db, assignments[k].projectDmId)| != 0
    {
      var dm := assignments[i];
      if dm.methodName == TopsisMethod {
        var scores := ScoresOf(db, dm.projectDmId);
        if |scores| == 0 {
          return Some(MissingScores);
        }
      }
      i := i + 1;
    }
    return None;
  }

  /** A ready project gives TOPSIS non-empty inputs for every TOPSIS decision maker, and
      every one of its criteria has a non-zero weight. */
  lemma ReadyInputs(db: Tables, projectId: Id)
    requires Readiness(db, projectId) == None
    ensures 1 <= |CriteriaOf(db, projectId)| && 1 <= |AlternativesOf(db, projectId)|
    ensures forall k :: 0 <= k < |CriteriaOf(db, projectId)| ==> CriteriaOf(db, projectId)[k].weight != 0.0
    ensures forall k :: 0 <= k < |AssignmentsOf(db, projectId)| && AssignmentsOf(db, projectId)[k].methodName == TopsisMethod ==>
      1 <= |ScoresOf(db, AssignmentsOf(db, projectId)[k].projectDmId)|
  {
  }

  // ---------------------------------------------------------------------------
  // Criterion weights
  // ---------------------------------------------------------------------------

  /** The weight map built from all criteria, a later criterion overwriting an earlier
      one with the same ID. */
  function WeightMap(cs: seq<Criteria>): map<Id, real> {
    if |cs| == 0 then map[]
    else WeightMap(cs[..|cs| - 1])[cs[|cs| - 1].criteriaId := cs[|cs| - 1].weight]
  }

  /** The weights handed to TOPSIS: one entry per criterion, parents and leaves alike. */
  method CriteriaWeights(allCriteria: seq<Criteria>) returns (weights: map<Id, real>)
    ensures weights == WeightMap(allCriteria)
  {
    weights := map[];
    var i := 0;
    while i < |allCriteria|
      invariant 0 <= i <= |allCriteria|
      invariant weights == WeightMap(allCriteria[..i])
    {
      assert allCriteria[..i + 1][..i] == allCriteria[..i];
      weights := weights[allCriteria[i].criteriaId := allCriteria[i].weight];
      i := i + 1;
    }
    assert allCriteria[..i] == allCriteria;
  }

  /** Every criterion, top-level or not, has an entry. */
  lemma {:induction false} WeightMapHasEveryCriterion(cs: seq<Criteria>)
    ensures forall k :: 0 <= k < |cs| ==> cs[k].criteriaId in WeightMap(cs)
  {
    if |cs| > 0 {
      var init := cs[..|cs| - 1];
      WeightMapHasEveryCriterion(init);
      forall k | 0 <= k < |init|
        ensures cs[k].criteriaId in WeightMap(cs)
      {
        assert cs[k] == init[k];
      }
    }
  }

  /** The entry of an ID holds the weight of the last criterion with that ID. */
  lemma {:induction false} WeightMapLastWrite(cs: seq<Criteria>, k: nat)
    requires k < |cs|
    requires forall l :: k < l < |cs| ==> cs[l].criteriaId != cs[k].criteriaId
    ensures cs[k].criteriaId in WeightMap(cs) && WeightMap(cs)[cs[k].criteriaId] == cs[k].weight
  {
    if k < |cs| - 1 {
      var init := cs[..|cs| - 1];
      assert init[k] == cs[k];
      WeightMapLastWrite(init, k);
    }
  }

  /** Every entry is the weight of some criterion with that ID. */
  lemma {:induction false} WeightMapValueFrom(cs: seq<Criteria>, c: Id)
    requires c in WeightMap(cs)
    ensures exists k :: 0 <= k < |cs| && cs[k].criteriaId == c && WeightMap(cs)[c] == cs[k].weight
  {
    var n := |cs| - 1;
    if cs[n].criteriaId != c {
      var init := cs[..n];
      WeightMapValueFrom(init, c);
      var k :| 0 <= k < |init| && init[k].criteriaId == c && WeightMap(init)[c] == init[k].weight;
      assert cs[k] == init[k];
    } else {
      assert cs[n].criteriaId == c && WeightMap(cs)[c] == cs[n].weight;
    }
  }

  /** When every criterion has a non-zero weight, so does every entry of the map. */
  lemma ReadyWeightsNonZero(cs: seq<Criteria>)
    requires forall k :: 0 <= k < |cs| ==> cs[k].weight != 0.0
    ensures forall c :: c in WeightMap(cs) ==> WeightMap(cs)[c] != 0.0
  {
    forall c | c in WeightMap(cs)
      ensures WeightMap(cs)[c] != 0.0
    {
      WeightMapValueFrom(cs, c);
    }
  }

  // ---------------------------------------------------------------------------
  // Per-decision-maker rankings and result rows
  // ---------------------------------------------------------------------------

  /** The decision makers that are ranked: those whose method is TOPSIS, in order. */
  function TopsisAssignments(dms: seq<ProjectDecisionMaker>): seq<ProjectDecisionMaker> {
    Filter(dms, (dm: ProjectDecisionMaker) => dm.methodName == TopsisMethod)
  }

  /** The TOPSIS problem of one decision maker: their scores, all the project's criteria
      and alternatives, and the weights of all criteria. */
  function DMProblem(db: Tables, projectId: Id, dm: ProjectDecisionMaker): Topsis.Problem {
    var cs := CriteriaOf(db, projectId);
    Topsis.Problem(ScoresOf(db, dm.projectDmId), cs, AlternativesOf(db, projectId), WeightMap(cs))
  }

  /** A ranked list read back as TOPSIS results (whose rank field TOPSIS leaves at 0). */
  function Unranked(list: seq<Borda.AlternativeRank>): (rs: seq<Topsis.TopsisRank>)
    ensures |rs| == |list|
  {
    seq(|list|, i requires 0 <= i < |list| => Topsis.TopsisRank(list[i].alternativeId, list[i].score, 0))
  }

  /** `d` is what the service builds for decision maker `dm`: their ID and group weight,
      and the TOPSIS results in TOPSIS's order, ranked 1, 2, ... */
  ghost predicate IsDMRanking(db: Tables, projectId: Id, sqrt: real -> real, dm: ProjectDecisionMaker, d: Borda.SingleDMRanking) {
    var p := DMProblem(db, projectId, dm);
    && d.dmId == dm.projectDmId
    && d.dmWeight == dm.groupWeight
    && 1 <= |p.alternatives|
    && multiset(Unranked(d.rankedList)) == multiset(Topsis.Unsorted(p, sqrt))
    && SortedDesc(d.rankedList, Borda.ScoreOf)
    && forall i :: 0 <= i < |d.rankedList| ==> d.rankedList[i].rank == i + 1
  }

  /** Turns sorted TOPSIS results into a ranked list: position i gets rank i + 1. */
  method RankedList(ranks: seq<Topsis.TopsisRank>) returns (list: seq<Borda.AlternativeRank>)
    ensures |list| == |ranks|
    ensures forall i :: 0 <= i < |list| ==>
      list[i].alternativeId == ranks[i].alternativeId && list[i].score == ranks[i].finalScore && list[i].rank == i + 1
  {
    list := [];
    var i := 0;
    while i < |ranks|
      invariant 0 <= i <= |ranks|
      invariant |list| == i
      invariant forall k :: 0 <= k < i ==>
        list[k].alternativeId == ranks[k].alternativeId && list[k].score == ranks[k].finalScore && list[k].rank == k + 1
    {
      var r := ranks[i];
      list := list + [Borda.AlternativeRank(r.alternativeId, i + 1, r.finalScore)];
      i := i + 1;
    }
  }

  /** The TOPSIS results all carry rank 0, so re-ranking loses nothing but that 0. */
  lemma UnrankedRankedList(p: Topsis.Problem, sqrt: real -> real, ranks: seq<Topsis.TopsisRank>, list: seq<Borda.AlternativeRank>)
    requires 1 <= |p.alternatives|
    requires multiset(ranks) == multiset(Topsis.Unsorted(p, sqrt))
    requires |list| == |ranks|
    requires forall i :: 0 <= i < |list| ==>
      list[i].alternativeId == ranks[i].alternativeId && list[i].score == ranks[i].finalScore
    ensures Unranked(list) == ranks
  {
    var u := Topsis.Unsorted(p, sqrt);
    forall i | 0 <= i < |ranks|
      ensures ranks[i].rank == 0
    {
      assert ranks[i] in multiset(u);
      var j :| 0 <= j < |u| && u[j] == ranks[i];
    }
  }

  /** The row saved for entry `e` of decision maker `dmId`'s list. */
  function DMRow(projectId: Id, dmId: Id, e: Borda.AlternativeRank): ResultRanking {
    ResultRanking(projectId, e.alternativeId, Some(dmId), e.score, e.rank)
  }

  /** The final row saved for entry `e` of the Borda result. */
  function FinalRow(projectId: Id, e: Borda.AlternativeRank): ResultRanking {
    ResultRanking(projectId, e.alternativeId, None, e.score, e.rank)
  }

  /** The rows of every ranked decision maker, one list after the other. */
  function DMRowsOf(projectId: Id, ds: seq<Borda.SingleDMRanking>): seq<ResultRanking> {
    if |ds| == 0 then []
    else
      var d := ds[|ds| - 1];
      DMRowsOf(projectId, ds[..|ds| - 1])
        + seq(|d.rankedList|, j requires 0 <= j < |d.rankedList| => DMRow(projectId, d.dmId, d.rankedList[j]))
  }

  /** Appends one decision maker's rows to `rows0`. */
  method AppendDMRows(rows0: seq<ResultRanking>, projectId: Id, d: Borda.SingleDMRanking) returns (rows: seq<ResultRanking>)
    ensures |rows| == |rows0| + |d.rankedList|
    ensures rows[..|rows0|] == rows0
    ensures forall j :: 0 <= j < |d.rankedList| ==> rows[|rows0| + j] == DMRow(projectId, d.dmId, d.rankedList[j])
  {
    rows := rows0;
    var j := 0;
    while j < |d.rankedList|
      invariant 0 <= j <= |d.rankedList|
      invariant |rows| == |rows0| + j
      invariant rows[..|rows0|] == rows0
      invariant forall k :: 0 <= k < j ==> rows[|rows0| + k] == DMRow(projectId, d.dmId, d.rankedList[k])
    {
      rows := rows + [DMRow(projectId, d.dmId, d.rankedList[j])];
      j := j + 1;
    }
  }

  /** Appends the final (group) rows, which name no decision maker, to `rows0`. */
  method AppendFinalRows(rows0: seq<ResultRanking>, projectId: Id, finals: seq<Borda.AlternativeRank>) returns (rows: seq<ResultRanking>)
    ensures |rows| == |rows0| + |finals|
    ensures rows[..|rows0|] == rows0
    ensures forall j :: 0 <= j < |finals| ==> rows[|rows0| + j] == FinalRow(projectId, finals[j])
  {
    rows := rows0;
    var j := 0;
    while j < |finals|
      invariant 0 <= j <= |finals|
      invariant |rows| == |rows0| + j
      invariant rows[..|rows0|] == rows0
      invariant forall k :: 0 <= k < j ==> rows[|rows0| + k] == FinalRow(projectId, finals[k])
    {
      rows := rows + [FinalRow(projectId, finals[j])];
      j := j + 1;
    }
  }

  /** What a successful calculation saves: `ds` holds one ranking per TOPSIS decision
      maker, in assignment order; `finals` is the Borda aggregate of `ds`; `saved` is all
      per-decision-maker rows followed by one final row per Borda entry. */
  ghost predicate Outcome(
    db: Tables, projectId: Id, sqrt: real -> real,
    ds: seq<Borda.SingleDMRanking>, finals: seq<Borda.AlternativeRank>, saved: seq<ResultRanking>)
  {
    var dms := TopsisAssignments(AssignmentsOf(db, projectId));
    && |ds| == |dms|
    && (forall k :: 0 <= k < |ds| ==> IsDMRanking(db, projectId, sqrt, dms[k], ds[k]))
    && Borda.IsAggregate(ds, finals)
    && SavedRows(projectId, ds, finals, saved)
  }

  /** `saved` is the rows of `ds`, one list after the other, then one final row per entry
      of `finals`. */
  ghost predicate SavedRows(
    projectId: Id, ds: seq<Borda.SingleDMRanking>, finals: seq<Borda.AlternativeRank>, saved: seq<ResultRanking>)
  {
    && |saved| == |DMRowsOf(projectId, ds)| + |finals|
    && saved[..|DMRowsOf(projectId, ds)|] == DMRowsOf(projectId, ds)
    && forall j :: 0 <= j < |finals| ==> saved[|DMRowsOf(projectId, ds)| + j] == FinalRow(projectId, finals[j])
  }

  /** The ranking of one TOPSIS decision maker of a ready project. */
  method RankDecisionMaker(db: Tables, projectId: Id, sqrt: real -> real, dm: ProjectDecisionMaker)
    returns (dmRanking: Borda.SingleDMRanking)
    requires IsSqrt(sqrt)
    requires 1 <= |CriteriaOf(db, projectId)| && 1 <= |AlternativesOf(db, projectId)|
    requires 1 <= |ScoresOf(db, dm.projectDmId)|
    ensures IsDMRanking(db, projectId, sqrt, dm, dmRanking)
  {
    var allCriteria := CriteriaOf(db, projectId);
    var alternatives := AlternativesOf(db, projectId);
    var scoreData := ScoresOf(db, dm.projectDmId);
    var weights := CriteriaWeights(allCriteria);
    var r := Topsis.CalculateRanking(scoreData, allCriteria, alternatives, weights, sqrt);
    // The inputs are non-empty, so the ranker succeeds.
    assert r.Success?;
    var list := RankedList(r.value);
    UnrankedRankedList(DMProblem(db, projectId, dm), sqrt, r.value, list);
    dmRanking := Borda.SingleDMRanking(dm.projectDmId, dm.groupWeight, list);
  }

  /** The loop over a ready project's assignments: a TOPSIS decision maker is ranked and
      its rows are appended; any other method is skipped. */
  method RankDecisionMakers(db: Tables, projectId: Id, sqrt: real -> real)
    returns (allDMRankings: seq<Borda.SingleDMRanking>, allResultsToSave: seq<ResultRanking>)
    requires IsSqrt(sqrt)
    requires 1 <= |CriteriaOf(db, projectId)| && 1 <= |AlternativesOf(db, projectId)|
    requires forall k :: 0 <= k < |AssignmentsOf(db, projectId)| && AssignmentsOf(db, projectId)[k].methodName == TopsisMethod ==>
      1 <= |ScoresOf(db, AssignmentsOf(db, projectId)[k].projectDmId)|
    ensures |allDMRankings| == |TopsisAssignments(AssignmentsOf(db, projectId))|
    ensures forall k :: 0 <= k < |allDMRankings| ==>
      IsDMRanking(db, projectId, sqrt, TopsisAssignments(AssignmentsOf(db, projectId))[k], allDMRankings[k])
    ensures allResultsToSave == DMRowsOf(projectId, allDMRankings)
  {
    var assignments := AssignmentsOf(db, projectId);
    allDMRankings, allResultsToSave := [], [];
    var i := 0;
    while i < |assignments|
      invariant 0 <= i <= |assignments|
      invariant |allDMRankings| == |TopsisAssignments(assignments[..i])|
      invariant forall k :: 0 <= k < |allDMRankings| ==>
        IsDMRanking(db, projectId, sqrt, TopsisAssignments(assignments[..i])[k], allDMRankings[k])
      invariant allResultsToSave == DMRowsOf(projectId, allDMRankings)
    {
      var dm := assignments[i];
      ghost var ts := TopsisAssignments(assignments[..i]);
      TopsisAssignmentsSnoc(assignments, i);
      if dm.methodName == TopsisMethod {
        var dmRanking := RankDecisionMaker(db, projectId, sqrt, dm);
        ghost var before := allDMRankings;
        allDMRankings := allDMRankings + [dmRanking];
        ExtendRankings(db, projectId, sqrt, ts, dm, before, dmRanking);
        var rows := AppendDMRows(allResultsToSave, projectId, dmRanking);
        DMRowsOfSnoc(projectId, before, dmRanking, allResultsToSave, rows);
        allResultsToSave := rows;
      }
      i := i + 1;
    }
    assert assignments[..i] == assignments;
  }

  lemma TopsisAssignmentsSnoc(dms: seq<ProjectDecisionMaker>, i: nat)
    requires i < |dms|
    ensures TopsisAssignments(dms[..i + 1])
      == TopsisAssignments(dms[..i]) + (if dms[i].methodName == TopsisMethod then [dms[i]] else [])
  {
    assert dms[..i + 1][..i] == dms[..i];
  }

  lemma ExtendRankings(
    db: Tables, projectId: Id, sqrt: real -> real,
    ts: seq<ProjectDecisionMaker>, dm: ProjectDecisionMaker,
    before: seq<Borda.SingleDMRanking>, d: Borda.SingleDMRanking)
    requires |before| == |ts|
    requires forall k :: 0 <= k < |before| ==> IsDMRanking(db, projectId, sqrt, ts[k], before[k])
    requires IsDMRanking(db, projectId, sqrt, dm, d)
    ensures forall k :: 0 <= k < |before| + 1 ==> IsDMRanking(db, projectId, sqrt, (ts + [dm])[k], (before + [d])[k])
  {
    forall k | 0 <= k < |before| + 1
      ensures IsDMRanking(db, projectId, sqrt, (ts + [dm])[k], (before + [d])[k])
    {
      if k < |before| {
        assert (ts + [dm])[k] == ts[k] && (before + [d])[k] == before[k];
      }
    }
  }

  lemma DMRowsOfSnoc(
    projectId: Id, before: seq<Borda.SingleDMRanking>, d: Borda.SingleDMRanking,
    rows0: seq<ResultRanking>, rows: seq<ResultRanking>)
    requires rows0 == DMRowsOf(projectId, before)
    requires |rows| == |rows0| + |d.rankedList|
    requires rows[..|rows0|] == rows0
    requires forall j :: 0 <= j < |d.rankedList| ==> rows[|rows0| + j] == DMRow(projectId, d.dmId, d.rankedList[j])
    ensures rows == DMRowsOf(projectId, before + [d])
  {
    assert (before + [d])[..|before|] == before;
    assert rows == rows0
      + seq(|d.rankedList|, j requires 0 <= j < |d.rankedList| => DMRow(projectId, d.dmId, d.rankedList[j]));
  }

  /** Every per-decision-maker row belongs to the project and names one of the ranked
      decision makers. */
  lemma {:induction false} DMRowsOfShape(projectId: Id, ds: seq<Borda.SingleDMRanking>)
    ensures forall i :: 0 <= i < |DMRowsOf(projectId, ds)| ==>
      DMRowsOf(projectId, ds)[i].projectId == projectId
      && exists k :: 0 <= k < |ds| && DMRowsOf(projectId, ds)[i].projectDmId == Some(ds[k].dmId)
  {
    if |ds| > 0 {
      var init := ds[..|ds| - 1];
      DMRowsOfShape(projectId, init);
      var prev := DMRowsOf(projectId, init);
      forall i | 0 <= i < |DMRowsOf(projectId, ds)|
        ensures DMRowsOf(projectId, ds)[i].projectId == projectId
        ensures exists k :: 0 <= k < |ds| && DMRowsOf(projectId, ds)[i].projectDmId == Some(ds[k].dmId)
      {
        if i < |prev| {
          var k :| 0 <= k < |init| && prev[i].projectDmId == Some(init[k].dmId);
          assert ds[k] == init[k];
        } else {
          assert DMRowsOf(projectId, ds)[i].projectDmId == Some(ds[|ds| - 1].dmId);
        }
      }
    }
  }

  /** The saved rows all belong to the project; the rows naming a decision maker come
      first and the final rows, which name none, come after all of them, one per Borda
      entry. */
  lemma FinalRowsFollowDMRows(
    projectId: Id, ds: seq<Borda.SingleDMRanking>, finals: seq<Borda.AlternativeRank>, saved: seq<ResultRanking>)
    requires SavedRows(projectId, ds, finals, saved)
    ensures forall i :: 0 <= i < |saved| ==> saved[i].projectId == projectId
    ensures forall i :: 0 <= i < |saved| ==> (saved[i].projectDmId.None? <==> |saved| - |finals| <= i)
  {
    var dmRows := DMRowsOf(projectId, ds);
    DMRowsOfShape(projectId, ds);
    forall i | 0 <= i < |saved|
      ensures saved[i].projectId == projectId
      ensures saved[i].projectDmId.None? <==> |saved| - |finals| <= i
    {
      if i < |dmRows| {
        assert saved[i] == saved[..|dmRows|][i] == dmRows[i];
      } else {
        assert saved[i] == FinalRow(projectId, finals[i - |dmRows|]);
      }
    }
  }

  /** A decision maker whose method is not TOPSIS (and whose assignment ID no TOPSIS
      decision maker shares) gets no saved row. */
  lemma SkippedDecisionMakers(
    db: Tables, projectId: Id, sqrt: real -> real,
    ds: seq<Borda.SingleDMRanking>, finals: seq<Borda.AlternativeRank>, saved: seq<ResultRanking>,
    dm: ProjectDecisionMaker)
    requires Outcome(db, projectId, sqrt, ds, finals, saved)
    requires dm.methodName != TopsisMethod
    requires forall k :: 0 <= k < |TopsisAssignments(AssignmentsOf(db, projectId))| ==>
      TopsisAssignments(AssignmentsOf(db, projectId))[k].projectDmId != dm.projectDmId
    ensures forall i :: 0 <= i < |saved| ==> saved[i].projectDmId != Some(dm.projectDmId)
  {
    var dms := TopsisAssignments(AssignmentsOf(db, projectId));
    forall k | 0 <= k < |ds|
      ensures ds[k].dmId != dm.projectDmId
    {
      assert IsDMRanking(db, projectId, sqrt, dms[k], ds[k]);
    }
    NoRowsFor(projectId, ds, finals, saved, dm.projectDmId);
  }

  /** A decision maker ID that no ranking carries appears in no saved row. */
  lemma NoRowsFor(
    projectId: Id, ds: seq<Borda.SingleDMRanking>, finals: seq<Borda.AlternativeRank>, saved: seq<ResultRanking>,
    id: Id)
    requires SavedRows(projectId, ds, finals, saved)
    requires forall k :: 0 <= k < |ds| ==> ds[k].dmId != id
    ensures forall i :: 0 <= i < |saved| ==> saved[i].projectDmId != Some(id)
  {
    var dmRows := DMRowsOf(projectId, ds);
    DMRowsOfShape(projectId, ds);
    forall i | 0 <= i < |saved|
      ensures saved[i].projectDmId != Some(id)
    {
      if i < |dmRows| {
        assert saved[i] == saved[..|dmRows|][i] == dmRows[i];
      } else {
        assert saved[i] == FinalRow(projectId, finals[i - |dmRows|]);
      }
    }
  }

  // ---------------------------------------------------------------------------
  // CalculateResults
  // ---------------------------------------------------------------------------

  /** Runs the calculation for a project. A non-admin caller, a project outside the
      caller's company or a project that is not ready is refused before the result table
      is touched. Otherwise the project's old rankings are replaced by the new rows. */
  method CalculateResults(
    db: Tables, store: ResultStore, projectId: Id, companyId: Id, role: string, sqrt: real -> real)
    returns (err: Option<CalcError>,
             ghost ds: seq<Borda.SingleDMRanking>, ghost finals: seq<Borda.AlternativeRank>, ghost saved: seq<ResultRanking>)
    requires IsSqrt(sqrt)
    modifies store
    ensures role != AdminRole ==> err == Some(NotAdmin) && store.rows == old(store.rows)
    ensures role == AdminRole && !ProjectVisible(db.projects, projectId, companyId) ==>
      err == Some(NoAccess) && store.rows == old(store.rows)
    ensures role == AdminRole && ProjectVisible(db.projects, projectId, companyId) && Readiness(db, projectId).Some? ==>
      err == Some(NotReady(Readiness(db, projectId).value)) && store.rows == old(store.rows)
    ensures role == AdminRole && ProjectVisible(db.projects, projectId, companyId) && Readiness(db, projectId).None? ==>
      && err == None
      && Outcome(db, projectId, sqrt, ds, finals, saved)
      && store.rows == OtherProjects(old(store.rows), projectId) + saved
  {
    ds, finals, saved := [], [], [];
    if role != AdminRole {
      return Some(NotAdmin), ds, finals, saved;
    }
    if !ProjectVisible(db.projects, projectId, companyId) {
      return Some(NoAccess), ds, finals, saved;
    }
    var notReady := ValidateReady(db, projectId);
    if notReady.Some? {
      return Some(NotReady(notReady.value)), ds, finals, saved;
    }
    store.ClearRankings(projectId);

    ReadyInputs(db, projectId);
    var allDMRankings, allResultsToSave := RankDecisionMakers(db, projectId, sqrt);
    var finalBordaRanks := Borda.AggregateBorda(allDMRankings);
    allResultsToSave := AppendFinalRows(allResultsToSave, projectId, finalBordaRanks);
    store.CreateRankings(allResultsToSave);
    ds, finals, saved := allDMRankings, finalBordaRanks, allResultsToSave;
    err := None;
  }
}
