/** Records of the decision-support backend (services/internal/models/models.go),
    the Option/Result wrappers used for Go's nil pointers and error returns, the
    default-0 reads of Go maps, and what the model assumes of math.Sqrt / math.Pow. */
module Models {

  /** Database identifiers are Go `uint`s. */
  type Id = nat

  /** A Go pointer that may be nil (`*uint`). */
  datatype Option<+T> = None | Some(value: T)

  /** A Go `(value, error)` pair: exactly one side is meaningful. */
  datatype Result<+T, +E> = Success(value: T) | Failure(error: E)

  /** The part of a decision project that access checks read. */
  datatype DecisionProject = DecisionProject(projectId: Id, companyId: Id, projectName: string)

  datatype Alternative = Alternative(alternativeId: Id, projectId: Id, name: string, description: string)

  /** A criterion or sub-criterion. `weight` is the column that the service layer reads
      as `c.Weight`; it is added to the table at start-up (services/cmd/api/main.go:42). */
  datatype Criteria = Criteria(
    criteriaId: Id,
    projectId: Id,
    parentCriteriaId: Option<Id>,
    name: string,
    code: string,
    criteriaType: string,
    weight: real)

  /** The assignment of one decision maker to a project, with the ranking method tag
      ("TOPSIS", "AHP_SAW", ...) and the voting weight used by the Borda aggregation. */
  datatype ProjectDecisionMaker = ProjectDecisionMaker(
    projectDmId: Id,
    projectId: Id,
    dmUserId: Id,
    methodName: string,
    groupWeight: real)

  datatype DMInputScore = DMInputScore(
    scoreId: Id,
    projectDmId: Id,
    alternativeId: Id,
    criteriaId: Id,
    scoreValue: real)

  datatype DMInputPairwise = DMInputPairwise(
    comparisonId: Id,
    projectDmId: Id,
    criteria1Id: Id,
    criteria2Id: Id,
    parentCriteriaId: Option<Id>,
    value: real)

  /** A saved ranking row; `projectDmId == None` marks a final (group) row. */
  datatype ResultRanking = ResultRanking(
    projectId: Id,
    alternativeId: Id,
    projectDmId: Option<Id>,
    finalScore: real,
    rank: int)

  const Benefit: string := "benefit"
  const Cost: string := "cost"
  const AdminRole: string := "admin"

  /** The rows of `xs` that `keep` accepts, in table order (a `WHERE` query). */
  function Filter<T>(xs: seq<T>, keep: T -> bool): (ys: seq<T>)
    ensures |ys| <= |xs|
    ensures forall i :: 0 <= i < |ys| ==> keep(ys[i])
  {
    if |xs| == 0 then []
    else Filter(xs[..|xs| - 1], keep) + (if keep(xs[|xs| - 1]) then [xs[|xs| - 1]] else [])
  }

  /** checkProjectAccess: GetProjectByID finds the project only within the caller's company. */
  predicate ProjectVisible(projects: seq<DecisionProject>, projectId: Id, companyId: Id) {
    exists i :: 0 <= i < |projects| && projects[i].projectId == projectId && projects[i].companyId == companyId
  }

  /** GetCriteriaByProjectID: the criteria of one project. */
  function CriteriaOfProject(criteria: seq<Criteria>, projectId: Id): seq<Criteria> {
    Filter(criteria, (c: Criteria) => c.projectId == projectId)
  }

  /** Go's `m[k]` on a `map[uint]float64`: a missing key reads as the zero value. */
  function Lookup(m: map<Id, real>, k: Id): real {
    if k in m then m[k] else 0.0
  }

  /** Go's `m[a][c]` on a `map[uint]map[uint]float64`: a missing row or cell reads as 0. */
  function Cell(m: map<Id, map<Id, real>>, a: Id, c: Id): real {
    if a in m && c in m[a] then m[a][c] else 0.0
  }

  /** What the model assumes of math.Sqrt on the non-negative arguments it is given. */
  ghost predicate IsSqrt(sqrt: real -> real) {
    && sqrt(0.0) == 0.0
    && forall x :: 0.0 <= x ==> 0.0 <= sqrt(x) && sqrt(x) * sqrt(x) == x
  }

  /** What the model assumes of math.Pow(x, e) for an exponent e > 0 (here e = 1/n):
      a zero base gives 0 and a positive base gives a positive power. */
  ghost predicate IsPower(pow: (real, real) -> real) {
    forall x, e :: 0.0 < e && 0.0 <= x ==> (x == 0.0 <==> pow(x, e) == 0.0) && 0.0 <= pow(x, e)
  }

  /** x², written as a product (math.Pow(x, 2) and `x * x` in the source). */
  function Square(x: real): real {
    x * x
  }

  /** The sum of the squares of `xs`, accumulated from the front as the source's loops do. */
  function SumOfSquares(xs: seq<real>): real {
    if |xs| == 0 then 0.0 else SumOfSquares(xs[..|xs| - 1]) + Square(xs[|xs| - 1])
  }

  lemma {:induction false} SumOfSquaresNonNegative(xs: seq<real>)
    ensures 0.0 <= SumOfSquares(xs)
  {
    if |xs| > 0 {
      SumOfSquaresNonNegative(xs[..|xs| - 1]);
      SquareNonNegative(xs[|xs| - 1]);
    }
  }

  lemma {:induction false} SumOfSquaresOfZeros(xs: seq<real>)
    requires forall i :: 0 <= i < |xs| ==> xs[i] == 0.0
    ensures SumOfSquares(xs) == 0.0
  {
    if |xs| > 0 {
      SumOfSquaresOfZeros(xs[..|xs| - 1]);
    }
  }

  lemma MulPositive(x: real, y: real)
    requires 0.0 < x && 0.0 < y
    ensures 0.0 < x * y
  {
  }

  lemma SquarePositive(x: real)
    requires x != 0.0
    ensures 0.0 < x * x
  {
    if x > 0.0 { MulPositive(x, x); } else { MulPositive(-x, -x); }
  }

  lemma SquareNonNegative(x: real)
    ensures 0.0 <= Square(x)
  {
    if x != 0.0 { SquarePositive(x); }
  }

  lemma SqrtPositive(sqrt: real -> real, x: real)
    requires IsSqrt(sqrt) && 0.0 < x
    ensures 0.0 < sqrt(x)
  {
    assert sqrt(x) * sqrt(x) == x;
  }
}
