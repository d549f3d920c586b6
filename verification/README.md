# Group decision ranking engine — a Dafny model

The system is a group decision-support backend written in Go. A company
opens a decision project, defines weighted (possibly hierarchical) criteria
and a list of alternatives, and assigns decision-makers who score every
alternative against every criterion. The service ranks the alternatives
for each decision-maker with TOPSIS and merges the rankings into one group
ranking with a weighted Borda count. It also ships a SAW ranker and an AHP
weight deriver.

This project models that engine and the service logic around it:

- `models.dfy` (module `Models`) holds the records the engine reads and writes.
  - The records are `Alternative`, `Criteria`, `ProjectDecisionMaker`, `DMInputScore`, `DMInputPairwise`, `ResultRanking` and `DecisionProject`.
  - `Criteria` carries the `weight` column added at start-up by `services/cmd/api/main.go`.
  - The module also holds the `Option`/`Result` wrappers and the zero-default map lookups `Lookup` and `Cell`, which stand for Go's zero value on a missing key.
  - The predicates `IsSqrt` and `IsPower` state what the engine relies on from `math.Sqrt` and `math.Pow(x, 1/n)`.
- `sorting.dfy` (module `Sorting`) sorts in descending order by a numeric key. It stands for Go's `sort.Slice` with a "greater than" comparison. It is an insertion sort on an `array`, proved to return a sorted permutation.
- `topsis.dfy`, `borda.dfy`, `saw.dfy` and `ahp.dfy` model the four calculators.
  - Each is an imperative method over Go-style maps.
  - Each is proved against a specification function on the inputs: `Topsis.Unsorted`, `Borda.IsAggregate`, `Saw.Unsorted` and `Ahp.GeometricMean`/`GeometricMeanSum`.
  - Lemmas state what those functions promise.
- `decision.dfy` (module `Decision`) models two service operations over the repositories.
  - The operations are the readiness validation and `CalculateResults`.
  - The repositories are input tables (`Tables`). The result table is a class (`ResultStore`) whose rows the service clears and appends to.
- `criteria.dfy` (module `CriteriaService`) models the criteria service.
  - It covers the role and project checks of create, update and delete.
  - It covers the partial-update merge and `toCriteriaDTO`.
  - It covers the parent/child tree built by `GetCriteriaByProject` and its recursive `buildTree`.
  - The criteria table is a class (`CriteriaStore`).

Arithmetic is over `real`. `math.Sqrt` is a function parameter `sqrt` constrained by `IsSqrt`:
- non-negative;
- `sqrt(0) = 0`;
- `sqrt(x) * sqrt(x) = x` for `x >= 0`.

`math.Pow(x, 1/n)` is a parameter `pow` constrained by `IsPower`, for a non-negative base and a positive exponent:
- the result is non-negative;
- the result is 0 exactly when the base is 0, so a positive base gives a positive root.

In three places the code does not do what the method it implements is meant to do. The model follows the code in all three:
- Intended: a project whose decision makers yield no ranking at all fails with an error. The code runs Borda on whatever rankings it has, stores the rows and returns no error. `Decision.CalculateResults` does the same.
- Intended: the TOPSIS weights come from the leaf criteria. `CalculateResults` builds a `subCriteria` list it never uses. It hands TOPSIS every criterion of the project, with that criterion's own `Weight`.
- Intended: raising an alternative's score on a benefit criterion never lowers its TOPSIS closeness. The code measures D+ and D- from the unweighted R row to ideal points read off the weighted Y matrix (the comment there says this matches a spreadsheet), and with that mix the property fails. `Topsis.MonotonicityCounterexample` gives two inputs that show it.

## Model

| member | source | states |
|---|---|---|
| Sorting.SortDesc | services/internal/calculations/topsis_calculator.go:168-170 | after the in-place sort, the array is sorted non-increasing by the key and is a permutation of its old contents |
| Sorting.SortSliceDesc | services/internal/calculations/borda_calculator.go:108-110 | the returned sequence is sorted non-increasing by the key and is a permutation of the input |
| Sorting.PermutationMaps | services/internal/calculations/topsis_calculator.go:151-170 | permuting a list permutes the list of its projected keys, so sorting keeps the multiset of alternative IDs |
| Topsis.CalculateRanking | services/internal/calculations/topsis_calculator.go:34-170 | fails exactly when criteria, alternatives or scores is empty; otherwise it returns a permutation of one closeness entry per alternative (the same multiset of IDs), sorted non-increasing by score, each score in [0,1] |
| Topsis.BuildScoreMatrix | services/internal/calculations/topsis_calculator.go:51-59 | the matrix has a row for exactly the listed alternatives; each cell is the last score given for that pair, or 0 when none was given |
| Topsis.LatestScoreIsLastWrite | services/internal/calculations/topsis_calculator.go:55-59 | a cell with no score reads 0; otherwise it holds the value of the last score row for that (alternative, criterion) pair |
| Topsis.NormFactors | services/internal/calculations/topsis_calculator.go:62-70 | each criterion's factor is the square root of its column's sum of squares |
| Topsis.ColumnSumOfSquares | services/internal/calculations/topsis_calculator.go:64-68 | the running accumulator ends as the sum of squares of the column |
| Topsis.Normalize | services/internal/calculations/topsis_calculator.go:72-94 | every row of R is score/factor (0 when the factor is 0), and every column of Y is that value times the criterion's weight (0 when the weight is missing) |
| Topsis.NormalizeRow | services/internal/calculations/topsis_calculator.go:77-93 | one alternative's R and Y entries match the specification cells `RCell`/`YCell` for every criterion |
| Topsis.NormFactorNonNegative | services/internal/calculations/topsis_calculator.go:69 | a norm factor is never negative |
| Topsis.ZeroColumn | services/internal/calculations/topsis_calculator.go:84-92 | an all-zero column has factor 0, and its R and Y entries are 0 for every alternative rather than a division error |
| Topsis.IdealPoints | services/internal/calculations/topsis_calculator.go:96-126 | A+ and A- are written for every criterion from the column max/min of Y as the criterion's type dictates |
| Topsis.ColumnExtremes | services/internal/calculations/topsis_calculator.go:101-117 | the `first`-flag loop yields the running max and min of the column |
| Topsis.IdealRowsFromMatrix | services/internal/calculations/topsis_calculator.go:119-125 | the A+ and A- maps read row-wise equal the specification's ideal and anti-ideal rows |
| Topsis.RunningMaxIsMax | services/internal/calculations/topsis_calculator.go:104-117 | the running maximum bounds every column entry and is one of them |
| Topsis.RunningMinIsMin | services/internal/calculations/topsis_calculator.go:104-117 | the running minimum is below every column entry and is one of them |
| Topsis.LastTypeIsLastWrite | services/internal/calculations/topsis_calculator.go:100-125 | the type that decides a criterion's ideal points is that of its last occurrence in the list, and "" when it has none |
| Topsis.IdealPointsByType | services/internal/calculations/topsis_calculator.go:119-125 | for `benefit`, A- <= every Y entry <= A+; for any other type, A+ <= every Y entry <= A-; both are attained in the column |
| Topsis.AntiIdealDominatesForCost | services/internal/calculations/topsis_calculator.go:122-125 | for a non-benefit criterion A- >= A+ |
| Topsis.Distances | services/internal/calculations/topsis_calculator.go:128-148 | D+ and D- of each alternative are the Euclidean distances from its R row to the A+ and A- rows (taken from Y) |
| Topsis.DistanceSums | services/internal/calculations/topsis_calculator.go:133-144 | the accumulators end as the sums of squared deviations from A+ and from A- |
| Topsis.DistancesNonNegative | services/internal/calculations/topsis_calculator.go:146-147 | D+ and D- are non-negative |
| Topsis.ClosenessScores | services/internal/calculations/topsis_calculator.go:150-165 | one entry per alternative in input order, holding that alternative's closeness score |
| Topsis.ClosenessBounds | services/internal/calculations/topsis_calculator.go:153-159 | the closeness ratio lies in [0,1]; it is 0 when D- is 0 (in particular when D+ + D- is 0) and 1 when only D+ is 0 |
| Topsis.UnsortedFacts | services/internal/calculations/topsis_calculator.go:151-165 | the unsorted results list exactly the input alternatives in order, each score in [0,1] |
| Topsis.MonotonicityCounterexample | services/internal/calculations/topsis_calculator.go:128-148 | with one benefit criterion of weight 0.5, raising alternative 2's score from 5 to 9 (alternative 1 at 12) lowers its closeness from 5/7 to 3/5 |
| Topsis.AltIdSet | services/internal/calculations/topsis_calculator.go:51-54 | the score matrix's row keys are exactly the listed alternative IDs |
| Borda.AggregateBorda | services/internal/calculations/borda_calculator.go:30-124 | the result satisfies `IsAggregate`: empty input gives empty output; exactly one entry per alternative named in any list; each score is the raw points over the total (or the raw points when the total is not positive); scores sum to 1 when the total is positive; sorted non-increasing; ranks 1..n in order |
| Borda.BordaWeights | services/internal/calculations/borda_calculator.go:36-43 | the weight table has exactly the ranks 1..K, with weight K-r+1 |
| Borda.BordaWeight | services/internal/calculations/borda_calculator.go:36-72 | every rank weight is at least 1, the value 1.0 standing for ranks outside 1..K |
| Borda.InitPoints | services/internal/calculations/borda_calculator.go:52-57 | points start at 0 for exactly the alternatives of the first list |
| Borda.AccumulatePoints | services/internal/calculations/borda_calculator.go:61-80 | each alternative's points grow by the sum over decision-makers of rank weight times group weight (0 replaced by 1), and the keys gain every listed alternative |
| Borda.AddListPoints | services/internal/calculations/borda_calculator.go:67-78 | one decision-maker's list adds its weighted points to each alternative it names |
| Borda.SumPoints | services/internal/calculations/borda_calculator.go:82-86 | the total is the sum of all point values, whatever order the map is walked in |
| Borda.NormalizedResults | services/internal/calculations/borda_calculator.go:88-105 | exactly one entry per alternative with points; each score is points/total or the raw points; the scores sum to 1 when the total is positive |
| Borda.AssignRanks | services/internal/calculations/borda_calculator.go:113-115 | each entry keeps its ID and score and gets rank position+1 |
| Borda.CandidateIffListed | services/internal/calculations/borda_calculator.go:52-76 | an alternative gets points iff it appears in some decision-maker's list |
| Borda.ListIdsIffListed | services/internal/calculations/borda_calculator.go:67-76 | an alternative belongs to a list's IDs iff some entry of the list names it |
| Borda.CandidatesIncludeEachList | services/internal/calculations/borda_calculator.go:67-76 | every alternative of every list is a candidate |
| Borda.RawPointsOutsideCandidates | services/internal/calculations/borda_calculator.go:61-80 | an alternative named in no list scores 0 |
| Borda.RawPointsNonNegative | services/internal/calculations/borda_calculator.go:61-80 | with non-negative group weights, raw points are non-negative |
| Borda.BordaOrderMatchesRaw | services/internal/calculations/borda_calculator.go:91-110 | the order by normalised score is also non-increasing in raw points |
| Borda.IdCountPermutation | services/internal/calculations/borda_calculator.go:108-110 | sorting does not change how often an alternative occurs |
| Borda.SumScoresPermutation | services/internal/calculations/borda_calculator.go:108-110 | sorting does not change the sum of scores |
| Borda.SumOverRemove | services/internal/calculations/borda_calculator.go:83-86 | a map's sum splits into one value plus the sum of the rest, so the map's walk order does not matter |
| Saw.CalculateRanking | services/internal/calculations/saw_calculator.go:30-145 | fails exactly when criteria, alternatives or scores is empty; otherwise it returns a permutation of one weighted-sum entry per alternative (the same multiset of IDs), sorted non-increasing |
| Saw.LeafBounds | services/internal/calculations/saw_calculator.go:57-79 | every leaf criterion gets the max and min of its score column, and nothing else is stored |
| Saw.NormalizeLeaves | services/internal/calculations/saw_calculator.go:81-115 | every normalised cell equals the specification `NormEntry` over all criteria |
| Saw.NormalizeColumn | services/internal/calculations/saw_calculator.go:88-114 | one leaf criterion's column is written with the benefit or cost rule and nothing else changes meaning |
| Saw.EmptyRows | services/internal/calculations/saw_calculator.go:81-86 | every alternative starts with an empty normalised row |
| Saw.FinalScores | services/internal/calculations/saw_calculator.go:117-138 | one entry per alternative in input order with its SAW score |
| Saw.AlternativeScore | services/internal/calculations/saw_calculator.go:119-136 | the accumulator ends as the sum of normalised value times weight over contributing leaf criteria |
| Saw.NormalizeValueBounds | services/internal/calculations/saw_calculator.go:100-112 | only `benefit` (score/max, 0 when max is 0) and `cost` (min/score, 0 when score is 0) normalise, and the value lies in [0,1] |
| Saw.ExtremeNormalizesToOne | services/internal/calculations/saw_calculator.go:100-112 | under `benefit` the alternative holding a non-zero column maximum normalises to exactly 1; under `cost` the one holding a non-zero column minimum does |
| Saw.NormEntryInUnitInterval | services/internal/calculations/saw_calculator.go:88-114 | with non-negative scores, every normalised entry lies in [0,1] |
| Saw.UnknownTypeOrNoWeightAddsNothing | services/internal/calculations/saw_calculator.go:127-132 | a criterion with no weight or with a type other than benefit/cost adds nothing to the sum |
| Saw.NoKnownTypeNoEntry | services/internal/calculations/saw_calculator.go:106-112 | a criterion whose every occurrence has an unknown type gets no normalised entry |
| Saw.LeavesOnly | services/internal/calculations/saw_calculator.go:57-138 | dropping every top-level criterion leaves every SAW score unchanged |
| Saw.NormEntryLeaves | services/internal/calculations/saw_calculator.go:88-90 | only criteria with a parent reach the normalised matrix |
| Saw.ScoreSumLeaves | services/internal/calculations/saw_calculator.go:123-125 | the weighted sum over leaves equals the sum over all criteria |
| Saw.UnsortedIds | services/internal/calculations/saw_calculator.go:117-138 | the unsorted results list exactly the input alternatives in order |
| Saw.Leaves | services/internal/calculations/saw_calculator.go:123-125 | every kept criterion has a parent |
| Ahp.CalculateWeights | services/internal/calculations/ahp_calculator.go:21-71 | fails with "no criteria" iff the ID list is empty and with "zero sum" iff the geometric means sum to 0; otherwise the weights are keyed by exactly the given IDs, each is its geometric mean over the sum, and the listed weights sum to 1 |
| Ahp.InitMatrix | services/internal/calculations/ahp_calculator.go:30-36 | the matrix has a row per given ID with 1 on the diagonal and 0 elsewhere |
| Ahp.ApplyComparisons | services/internal/calculations/ahp_calculator.go:38-47 | after the comparisons, every cell holds its last write (value, or reciprocal when the value is non-zero); comparisons naming an unknown ID are ignored |
| Ahp.RowGeometricMeans | services/internal/calculations/ahp_calculator.go:48-59 | each row's geometric mean is the n-th root of its product, and the sum is their total |
| Ahp.RowProduct | services/internal/calculations/ahp_calculator.go:52-55 | the running product is the product of the row |
| Ahp.DivideBySum | services/internal/calculations/ahp_calculator.go:65-70 | weights are keyed by exactly the given IDs, each the geometric mean divided by the sum |
| Ahp.CellIsLastWrite | services/internal/calculations/ahp_calculator.go:30-47 | an unwritten cell is 1 on the diagonal of a known ID and 0 otherwise; a written cell holds its last write |
| Ahp.Reciprocal | services/internal/calculations/ahp_calculator.go:38-47 | a known comparison (A,B,v) with v non-zero and no later comparison of the same pair gives m[A][B]=v and m[B][A]=1/v |
| Ahp.UnknownComparisonsIgnored | services/internal/calculations/ahp_calculator.go:40-42 | dropping the comparisons that name an unknown ID leaves every cell unchanged |
| Ahp.UncoveredCellZeroesRow | services/internal/calculations/ahp_calculator.go:51-57 | an off-diagonal cell no comparison covers makes its row's product and geometric mean 0 |
| Ahp.ListedWeightsSum | services/internal/calculations/ahp_calculator.go:65-70 | weights of the form mean/sum add up to 1 |
| Ahp.WeightsInUnitInterval | services/internal/calculations/ahp_calculator.go:61-70 | with positive comparison values every weight lies in [0,1] |
| Ahp.CellNonNegative | services/internal/calculations/ahp_calculator.go:38-47 | with positive comparison values every cell is non-negative |
| Ahp.SumDivided | services/internal/calculations/ahp_calculator.go:65-70 | dividing each term by t divides the sum by t |
| Decision.ResultStore.ClearRankings | services/internal/repository/result_repository.go:23-25 | removes exactly the rows of the project and keeps the others in order |
| Decision.ResultStore.CreateRankings | services/internal/repository/result_repository.go:27-32 | appends the new rows to the table |
| Decision.ValidateReady | services/internal/service/decision_service.go:70-118 | the early-return loops report the first failing check in the fixed order of `Readiness` (no criteria, no alternatives, no assignments, a criterion with weight 0, a TOPSIS decision-maker without scores) |
| Decision.ReadyInputs | services/internal/service/decision_service.go:70-118 | a ready project has criteria and alternatives, only non-zero weights, and scores for every TOPSIS decision-maker |
| Decision.CriteriaWeights | services/internal/service/decision_service.go:189-192 | the weight map built from all criteria, the last duplicate winning |
| Decision.WeightMapHasEveryCriterion | services/internal/service/decision_service.go:189-192 | every criterion of the project, top-level or not, has a weight entry |
| Decision.WeightMapLastWrite | services/internal/service/decision_service.go:189-192 | a criterion with no later duplicate contributes its own weight |
| Decision.WeightMapValueFrom | services/internal/service/decision_service.go:189-192 | every weight entry comes from some criterion with that ID |
| Decision.ReadyWeightsNonZero | services/internal/service/decision_service.go:99-192 | after validation, no weight handed to TOPSIS is 0 |
| Decision.RankDecisionMaker | services/internal/service/decision_service.go:175-205 | a TOPSIS decision-maker's ranking carries its ID and weight, is a sorted permutation of the TOPSIS results for all project criteria and their weights, and has rank position+1; TOPSIS cannot fail after validation |
| Decision.RankedList | services/internal/service/decision_service.go:199-205 | each entry copies ID and score from the TOPSIS output and has rank position+1 |
| Decision.UnrankedRankedList | services/internal/service/decision_service.go:199-205 | dropping the ranks gives back the TOPSIS output |
| Decision.RankDecisionMakers | services/internal/service/decision_service.go:173-223 | one ranking per TOPSIS assignment in assignment order (others skipped), and the per-DM rows are those rankings' rows in order |
| Decision.AppendDMRows | services/internal/service/decision_service.go:214-222 | appends one row per ranked alternative carrying project, DM ID, score and rank |
| Decision.AppendFinalRows | services/internal/service/decision_service.go:228-236 | appends one row per Borda entry with no DM reference and the Borda score and rank |
| Decision.TopsisAssignmentsSnoc | services/internal/service/decision_service.go:180-210 | one more assignment adds a ranking exactly when its method is TOPSIS |
| Decision.DMRowsOfShape | services/internal/service/decision_service.go:214-222 | every per-DM row belongs to the project and names one of the ranked decision-makers |
| Decision.FinalRowsFollowDMRows | services/internal/service/decision_service.go:214-239 | all saved rows belong to the project, and the rows without a DM reference are exactly the trailing final rows |
| Decision.SkippedDecisionMakers | services/internal/service/decision_service.go:207-209 | a decision-maker whose method is not TOPSIS gets no saved row |
| Decision.CalculateResults | services/internal/service/decision_service.go:129-240 | a non-admin gets NotAdmin, then an invisible project NoAccess, then an unready project the first readiness error, all with the result table untouched; otherwise the project's old rows are replaced by the per-DM rows followed by the Borda rows, and the outcome meets every per-DM and aggregate property above |
| CriteriaService.ToCriteriaDTO | services/internal/service/criteria_service.go:9-19 | the DTO converts back to the same criterion (ID, project, parent, name, code, type, weight unchanged) and has no children |
| CriteriaService.FindById | services/internal/repository/criteria_repository.go:42-49 | a found row has the requested ID and is in the table; not found means no row has it |
| CriteriaService.CriteriaStore.Insert | services/internal/service/criteria_service.go:71-74 | appends the new criterion |
| CriteriaService.CriteriaStore.Save | services/internal/repository/criteria_repository.go:51-53 | replaces the rows with that ID by the new record |
| CriteriaService.CriteriaStore.Remove | services/internal/repository/criteria_repository.go:55-57 | removes exactly the rows with that ID |
| CriteriaService.CreateCriteria | services/internal/service/criteria_service.go:52-78 | a non-admin gets NotAdmin and an invisible project NoAccess, with the table untouched; otherwise the new criterion is appended and returned as a DTO |
| CriteriaService.NewCriteriaFields | services/internal/service/criteria_service.go:62-70 | a created criterion takes the project and every field from the input |
| CriteriaService.WithParentMembers | services/internal/service/criteria_service.go:97-109 | a DTO is grouped under a parent (or among the roots) iff some criterion with that parent converts to it |
| CriteriaService.GroupCriteria | services/internal/service/criteria_service.go:97-109 | the loop collects the roots in input order and groups every other criterion under its parent ID in input order |
| CriteriaService.BuildTree | services/internal/service/criteria_service.go:111-121 | the in-place recursive attachment equals the specification `Subtrees` |
| CriteriaService.Subtrees | services/internal/service/criteria_service.go:111-121 | attaching children keeps one node per input node |
| CriteriaService.RootsAreParentless | services/internal/service/criteria_service.go:101-103 | every root has no parent, comes from the project's criteria and starts childless |
| CriteriaService.ChildMapIsSound | services/internal/service/criteria_service.go:105-107 | every child grouped under an ID has that parent and is one of the project's criteria |
| CriteriaService.SubtreesWellFormed | services/internal/service/criteria_service.go:111-121 | in the built tree, every node is one of the project's criteria and every child's parent is the node it hangs under |
| CriteriaService.GetCriteriaByProject | services/internal/service/criteria_service.go:80-126 | an invisible project gives NoAccess; otherwise the result has one tree per root in input order, each with that root's record, the whole tree is well formed, and every node's parent chain ends at a root |
| CriteriaService.WellFormedReachesRoot | services/internal/service/criteria_service.go:111-123 | in a tree built from the roots down, every node together with its ancestors is a parent chain of project criteria ending at a parentless criterion, so a criterion whose parent is unreachable never appears |
| CriteriaService.MergeKeepsIdentity | services/internal/service/criteria_service.go:146-157 | the merge never changes ID, project or parent |
| CriteriaService.MergeTakesGivenFields | services/internal/service/criteria_service.go:146-157 | name, code and type are overwritten iff the input's is non-empty; weight iff the input's is positive |
| CriteriaService.MergeEmptyAndIdempotent | services/internal/service/criteria_service.go:146-157 | an empty update changes nothing, and applying the same update twice equals applying it once |
| CriteriaService.UpdateCriteria | services/internal/service/criteria_service.go:128-165 | NotAdmin, NoAccess, NotFound and WrongProject in that order leave the table untouched; otherwise the merged record is saved and returned |
| CriteriaService.DeleteCriteria | services/internal/service/criteria_service.go:167-186 | NotAdmin, NoAccess, NotFound and WrongProject in that order leave the table untouched; otherwise exactly the rows with that ID are removed |

## Left out

- Floating point: all arithmetic is over `real`. Rounding, NaN and infinities are not modelled.
- `math.Pow(x, 2)` in the TOPSIS distances is taken as the exact square `x * x`.
- `math.Sqrt` and `math.Pow(x, 1/n)` are function parameters constrained only by the properties listed above. Nothing depends on their exact values.
- Logging (`log.Printf`, `log.Println`) is dropped.
- Repository errors are not modelled.
  - Every repository call succeeds, and the tables are passed in as sequences.
  - The error returns of `GetCriteriaByProjectID`, `GetAssignmentsByProjectID`, `GetScores`, `ClearRangkings` and the final save are therefore not modelled.
- Transactions are not modelled. The store is cleared and refilled inside one call.
- SQL ordering is not modelled. Filtered tables keep table order.
- The database-assigned key of a created criterion is the parameter `newId`.
- The nil-project branch of `checkProjectAccess` (`project == nil`) is not modelled. The repository never returns a nil project without an error, so access is exactly `ProjectVisible`.
- Tie order is not modelled.
  - `sort.Slice` is unstable, and Borda walks a Go map.
  - Every sort is specified as some sorted permutation, and Borda's map walk is an arbitrary pick.
  - No particular order among equal scores is promised.
- The per-DM rows take `dm.ProjectDMID` of the current iteration. This assumes Go 1.22 or later, where the loop variable is fresh in each iteration.
- Compile-level mismatches in the Go code are resolved as follows:
  - the orchestrator calls Borda as `AggregateBorda(allDMRankings)` and uses each entry's `Score`, not `CalcualteRanking`, `BordaScore` or `AltertnativeRank`;
  - `ahp_calculator.go` is treated as part of package `calculations`;
  - the save call `CreateRankings` is the repository's `CreatelRangkingss`.
- The `CriteriaDTO`, `CreateCriteriaInput` and `UpdateCriteriaInput` types are not defined in `services/internal/models/dto.go`. They are modelled from the fields the criteria service reads and writes.
- Values the source computes and never uses are not modelled:
  - `criteriaMap` in TOPSIS and SAW;
  - `subCriteria` in `CalculateResults`;
  - `dtoMap` in `GetCriteriaByProject`.
- `GetResults` (`decision_service.go:120-126`) only reads the result table and is not modelled.
- Monotonicity of the TOPSIS closeness in a benefit score is not proved, because it does not hold for the code (see `Topsis.MonotonicityCounterexample`).
- Topsis.ZeroColumn: proves only that a zero column gives a zero factor and zero entries, not the converse.
- Ahp.Reciprocal: requires that no later comparison touches the same pair. A later comparison of the same pair, or a self-comparison (A,A,v) overwriting a diagonal cell, is covered only by the general last-write lemma `Ahp.CellIsLastWrite`.
- Duplicate IDs in the calculators are handled as the code handles them: the last write wins in every map. No lemma claims anything stronger when IDs repeat.
- CriteriaService.Subtrees: with unique IDs Go's `buildTree` always terminates. It starts from the parentless criteria and descends only through `childMap` entries keyed by IDs it has already reached, so a self-parented criterion or a parent cycle is never reached (`CriteriaService.WellFormedReachesRoot` shows that no such criterion appears in the tree). Only a repeated ID makes it recurse without end, for example rows (1, no parent) and (1, parent 1). The model's fuel bound of `|flatList|` cuts that case off and returns a finite tree where the code does not return. The primary key of the criteria table rules out two rows with one ID.
- CriteriaService.GetCriteriaByProject: `buildTree` is modelled with a fuel bound of `|flatList|`, the number of criteria.
  - The model does not prove that this bound reaches every criterion attached under a root.
  - It does not prove that each criterion appears at most once when IDs are unique.
  - What is proved: the roots are the parentless criteria in input order, every node comes from the project, and every child hangs under its own parent. Every node's parent chain ends at a root, so a criterion whose parent is unreachable never appears.
