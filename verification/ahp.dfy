/** The AHP weight deriver of services/internal/calculations/ahp_calculator.go: a
    pairwise-comparison matrix over the given criterion IDs starts as the identity, every
    comparison (A, B, v) between two known criteria writes v at (A, B) and, when v is not
    0, its reciprocal at (B, A); each row's product of cells is turned into a geometric
    mean by math.Pow(product, 1/n), and the means are divided by their sum.

    math.Pow is a parameter `pow`; the facts the proofs need of it are `IsPower`. */
module Ahp {
  import opened Models

  datatype AhpError =
    | NoCriteria            // the criterion ID list is empty
    | ZeroGeometricMeanSum  // the geometric means add up to 0

  /** The IDs among the first `n` entries of `ids` (the keys of the source's criteriaMap). */
  function IdsBefore(ids: seq<Id>, n: nat): set<Id>
    requires n <= |ids|
  {
    set k | 0 <= k < n :: ids[k]
  }

  function IdSet(ids: seq<Id>): set<Id> {
    IdsBefore(ids, |ids|)
  }

  // ---------------------------------------------------------------------------
  // The pairwise matrix
  // ---------------------------------------------------------------------------

  /** A comparison takes effect only when both of its criteria are among the given IDs. */
  predicate Known(s: set<Id>, c: DMInputPairwise) {
    c.criteria1Id in s && c.criteria2Id in s
  }

  /** The value a known comparison leaves in cell (x, y), if it writes that cell. The
      reciprocal write m[B][A] = 1/v is the later one, so it wins on a self-comparison. */
  function CellWrite(c: DMInputPairwise, x: Id, y: Id): Option<real> {
    if c.criteria2Id == x && c.criteria1Id == y && c.value != 0.0 then Some(1.0 / c.value)
    else if c.criteria1Id == x && c.criteria2Id == y then Some(c.value)
    else None
  }

  predicate WritesCell(s: set<Id>, c: DMInputPairwise, x: Id, y: Id) {
    Known(s, c) && CellWrite(c, x, y).Some?
  }

  /** matrix[x][y] after the comparisons `comps`: the value of the last known comparison
      writing (x, y); otherwise 1 on the diagonal of a given ID and Go's zero value
      everywhere else. */
  function CellAfter(s: set<Id>, comps: seq<DMInputPairwise>, x: Id, y: Id): real {
    if |comps| == 0 then (if x == y && x in s then 1.0 else 0.0)
    else
      var c := comps[|comps| - 1];
      if WritesCell(s, c, x, y) then CellWrite(c, x, y).value else CellAfter(s, comps[..|comps| - 1], x, y)
  }

  /** Row x of the matrix, one cell per listed ID (a listed-twice ID counts twice). */
  function PairwiseRow(ids: seq<Id>, comps: seq<DMInputPairwise>, x: Id): (row: seq<real>)
    ensures |row| == |ids|
  {
    seq(|ids|, k requires 0 <= k < |ids| => CellAfter(IdSet(ids), comps, x, ids[k]))
  }

  /** Row x of a computed matrix map, one cell per listed ID. */
  function MatrixRow(m: map<Id, map<Id, real>>, x: Id, ids: seq<Id>): (row: seq<real>)
    ensures |row| == |ids|
  {
    seq(|ids|, k requires 0 <= k < |ids| => Cell(m, x, ids[k]))
  }

  // ---------------------------------------------------------------------------
  // Geometric means and weights
  // ---------------------------------------------------------------------------

  /** The product of `xs`, multiplied from the front as the source's loop does. */
  function Product(xs: seq<real>): real {
    if |xs| == 0 then 1.0 else Product(xs[..|xs| - 1]) * xs[|xs| - 1]
  }

  /** The sum of `xs`, added from the front. */
  function Sum(xs: seq<real>): real {
    if |xs| == 0 then 0.0 else Sum(xs[..|xs| - 1]) + xs[|xs| - 1]
  }

  function GeometricMean(ids: seq<Id>, comps: seq<DMInputPairwise>, pow: (real, real) -> real, x: Id): real
    requires 1 <= |ids|
  {
    pow(Product(PairwiseRow(ids, comps, x)), 1.0 / (|ids| as real))
  }

  /** The geometric mean of every listed row, in list order. */
  function GeometricMeans(ids: seq<Id>, comps: seq<DMInputPairwise>, pow: (real, real) -> real): (gs: seq<real>)
    requires 1 <= |ids|
    ensures |gs| == |ids|
  {
    seq(|ids|, k requires 0 <= k < |ids| => GeometricMean(ids, comps, pow, ids[k]))
  }

  /** sumOfGeometricMeans: one term per list entry. */
  function GeometricMeanSum(ids: seq<Id>, comps: seq<DMInputPairwise>, pow: (real, real) -> real): real
    requires 1 <= |ids|
  {
    Sum(GeometricMeans(ids, comps, pow))
  }

  /** The weights of a result map read in list order. */
  function ListedWeights(w: map<Id, real>, ids: seq<Id>): (ws: seq<real>)
    ensures |ws| == |ids|
  {
    seq(|ids|, k requires 0 <= k < |ids| => Lookup(w, ids[k]))
  }

  // ---------------------------------------------------------------------------
  // The calculator
  // ---------------------------------------------------------------------------

  /** Derives criterion weights from pairwise comparisons. Fails on an empty ID list and
      when the geometric means add up to 0; otherwise the weights are keyed by exactly the
      given IDs, each is its row's geometric mean over the sum, and, read in list order,
      they add up to 1. */
  method CalculateWeights(comparisons: seq<DMInputPairwise>, criteriaIds: seq<Id>, pow: (real, real) -> real)
    returns (r: Result<map<Id, real>, AhpError>)
    ensures r == Failure(NoCriteria) <==> |criteriaIds| == 0
    ensures r == Failure(ZeroGeometricMeanSum) <==>
      1 <= |criteriaIds| && GeometricMeanSum(criteriaIds, comparisons, pow) == 0.0
    ensures r.Success? ==>
      && 1 <= |criteriaIds|
      && r.value.Keys == IdSet(criteriaIds)
      && (forall k :: 0 <= k < |criteriaIds| ==>
            r.value[criteriaIds[k]]
              == GeometricMean(criteriaIds, comparisons, pow, criteriaIds[k])
                 / GeometricMeanSum(criteriaIds, comparisons, pow))
      && Sum(ListedWeights(r.value, criteriaIds)) == 1.0
  {
    var n := |criteriaIds|;
    if n == 0 {
      return Failure(NoCriteria);
    }
    var matrix, criteriaSet := InitMatrix(criteriaIds);
    matrix := ApplyComparisons(matrix, criteriaSet, comparisons);
    var geometricMeans, sumOfGeometricMeans := RowGeometricMeans(matrix, criteriaIds, comparisons, pow);
    if sumOfGeometricMeans == 0.0 {
      return Failure(ZeroGeometricMeanSum);
    }
    var weights := DivideBySum(geometricMeans, sumOfGeometricMeans, criteriaIds);
    ListedWeightsSum(weights, criteriaIds, comparisons, pow);
    r := Success(weights);
  }

  /** The last loop: weights[id] = geometricMeans[id] / sumOfGeometricMeans. */
  method DivideBySum(geometricMeans: map<Id, real>, sumOfGeometricMeans: real, criteriaIds: seq<Id>)
    returns (weights: map<Id, real>)
    requires sumOfGeometricMeans != 0.0
    ensures weights.Keys == IdSet(criteriaIds)
    ensures forall k :: 0 <= k < |criteriaIds| ==>
      weights[criteriaIds[k]] == Lookup(geometricMeans, criteriaIds[k]) / sumOfGeometricMeans
  {
    weights := map[];
    var i := 0;
    while i < |criteriaIds|
      invariant 0 <= i <= |criteriaIds|
      invariant weights.Keys == IdsBefore(criteriaIds, i)
      invariant forall k :: 0 <= k < i ==>
        weights[criteriaIds[k]] == Lookup(geometricMeans, criteriaIds[k]) / sumOfGeometricMeans
    {
      var id := criteriaIds[i];
      assert IdsBefore(criteriaIds, i + 1) == IdsBefore(criteriaIds, i) + {id};
      weights := weights[id := Lookup(geometricMeans, id) / sumOfGeometricMeans];
      i := i + 1;
    }
  }

  /** The first loop: an identity row for every listed ID, and the set of listed IDs. */
  method InitMatrix(criteriaIds: seq<Id>) returns (matrix: map<Id, map<Id, real>>, criteriaSet: set<Id>)
    ensures criteriaSet == IdSet(criteriaIds) == matrix.Keys
    ensures forall x, y :: Cell(matrix, x, y) == CellAfter(criteriaSet, [], x, y)
  {
    matrix := map[];
    criteriaSet := {};
    var i := 0;
    while i < |criteriaIds|
      invariant 0 <= i <= |criteriaIds|
      invariant criteriaSet == IdsBefore(criteriaIds, i) == matrix.Keys
      invariant forall x, y :: Cell(matrix, x, y) == if x == y && x in criteriaSet then 1.0 else 0.0
    {
      var id := criteriaIds[i];
      assert IdsBefore(criteriaIds, i + 1) == IdsBefore(criteriaIds, i) + {id};
      ghost var before := matrix;
      matrix := matrix[id := map[id := 1.0]];
      criteriaSet := criteriaSet + {id};
      forall x, y
        ensures Cell(matrix, x, y) == if x == y && x in criteriaSet then 1.0 else 0.0
      {
        if x != id {
          assert Cell(matrix, x, y) == Cell(before, x, y);
        }
      }
      i := i + 1;
    }
  }

  /** The second loop: every known comparison writes its value and, unless it is 0, the
      reciprocal; the others are skipped. */
  method ApplyComparisons(matrix0: map<Id, map<Id, real>>, criteriaSet: set<Id>, comparisons: seq<DMInputPairwise>)
    returns (matrix: map<Id, map<Id, real>>)
    requires matrix0.Keys == criteriaSet
    requires forall x, y :: Cell(matrix0, x, y) == CellAfter(criteriaSet, [], x, y)
    ensures matrix.Keys == criteriaSet
    ensures forall x, y :: Cell(matrix, x, y) == CellAfter(criteriaSet, comparisons, x, y)
  {
    matrix := matrix0;
    var j := 0;
    while j < |comparisons|
      invariant 0 <= j <= |comparisons|
      invariant matrix.Keys == criteriaSet
      invariant forall x, y :: Cell(matrix, x, y) == CellAfter(criteriaSet, comparisons[..j], x, y)
    {
      assert comparisons[..j + 1][..j] == comparisons[..j];
      var comp := comparisons[j];
      var c1, c2 := comp.criteria1Id, comp.criteria2Id;
      if c1 in criteriaSet {
        if c2 in criteriaSet {
          ghost var before := matrix;
          var row1: map<Id, real> := matrix[c1][c2 := comp.value];
          matrix := matrix[c1 := row1];
          ghost var middle := matrix;
          if comp.value != 0.0 {
            var row2: map<Id, real> := matrix[c2][c1 := 1.0 / comp.value];
            matrix := matrix[c2 := row2];
          }
          forall x, y
            ensures Cell(matrix, x, y) == CellAfter(criteriaSet, comparisons[..j + 1], x, y)
          {
            if !WritesCell(criteriaSet, comp, x, y) {
              assert Cell(middle, x, y) == Cell(before, x, y);
              assert Cell(matrix, x, y) == Cell(middle, x, y);
            }
          }
        }
      }
      j := j + 1;
    }
    assert comparisons[..j] == comparisons;
  }

  /** The third loop: each listed row's product and geometric mean, and their running sum. */
  method RowGeometricMeans(
    matrix: map<Id, map<Id, real>>, criteriaIds: seq<Id>, comparisons: seq<DMInputPairwise>,
    pow: (real, real) -> real)
    returns (geometricMeans: map<Id, real>, sumOfGeometricMeans: real)
    requires 1 <= |criteriaIds|
    requires forall x, y :: Cell(matrix, x, y) == CellAfter(IdSet(criteriaIds), comparisons, x, y)
    ensures forall k :: 0 <= k < |criteriaIds| ==>
      Lookup(geometricMeans, criteriaIds[k]) == GeometricMean(criteriaIds, comparisons, pow, criteriaIds[k])
    ensures sumOfGeometricMeans == GeometricMeanSum(criteriaIds, comparisons, pow)
  {
    ghost var gs := GeometricMeans(criteriaIds, comparisons, pow);
    var n := |criteriaIds|;
    geometricMeans := map[];
    sumOfGeometricMeans := 0.0;
    var i := 0;
    while i < n
      invariant 0 <= i <= n
      invariant forall k :: 0 <= k < i ==>
        Lookup(geometricMeans, criteriaIds[k]) == GeometricMean(criteriaIds, comparisons, pow, criteriaIds[k])
      invariant sumOfGeometricMeans == Sum(gs[..i])
    {
      var rowId := criteriaIds[i];
      var geoMean := RowGeometricMean(matrix, criteriaIds, comparisons, pow, rowId);
      MeansStep(criteriaIds, comparisons, pow, geometricMeans, sumOfGeometricMeans, i);
      geometricMeans := geometricMeans[rowId := geoMean];
      sumOfGeometricMeans := sumOfGeometricMeans + geoMean;
      i := i + 1;
    }
    assert gs[..i] == gs;
  }

  /** One row's product over the listed columns and its n-th root. */
  method RowGeometricMean(
    matrix: map<Id, map<Id, real>>, criteriaIds: seq<Id>, comparisons: seq<DMInputPairwise>,
    pow: (real, real) -> real, rowId: Id)
    returns (geoMean: real)
    requires 1 <= |criteriaIds|
    requires forall x, y :: Cell(matrix, x, y) == CellAfter(IdSet(criteriaIds), comparisons, x, y)
    ensures geoMean == GeometricMean(criteriaIds, comparisons, pow, rowId)
  {
    var product := RowProduct(matrix, rowId, criteriaIds);
    RowFromMatrix(matrix, criteriaIds, comparisons, rowId);
    geoMean := pow(product, 1.0 / (|criteriaIds| as real));
  }

  /** A row of the filled matrix is the row the specification derives from the comparisons. */
  lemma RowFromMatrix(matrix: map<Id, map<Id, real>>, ids: seq<Id>, comps: seq<DMInputPairwise>, x: Id)
    requires forall x, y :: Cell(matrix, x, y) == CellAfter(IdSet(ids), comps, x, y)
    ensures MatrixRow(matrix, x, ids) == PairwiseRow(ids, comps, x)
  {
  }

  /** One step of the geometric-mean loop keeps both of its invariants. */
  lemma MeansStep(
    ids: seq<Id>, comps: seq<DMInputPairwise>, pow: (real, real) -> real,
    means: map<Id, real>, total: real, i: nat)
    requires 1 <= |ids| && i < |ids|
    requires forall k :: 0 <= k < i ==> Lookup(means, ids[k]) == GeometricMean(ids, comps, pow, ids[k])
    requires total == Sum(GeometricMeans(ids, comps, pow)[..i])
    ensures forall k :: 0 <= k < i + 1 ==>
      Lookup(means[ids[i] := GeometricMean(ids, comps, pow, ids[i])], ids[k]) == GeometricMean(ids, comps, pow, ids[k])
    ensures total + GeometricMean(ids, comps, pow, ids[i]) == Sum(GeometricMeans(ids, comps, pow)[..i + 1])
  {
    var gs := GeometricMeans(ids, comps, pow);
    SumSnoc(gs, i);
    var g := GeometricMean(ids, comps, pow, ids[i]);
    forall k | 0 <= k < i + 1
      ensures Lookup(means[ids[i] := g], ids[k]) == GeometricMean(ids, comps, pow, ids[k])
    {
      if ids[k] != ids[i] {
        assert Lookup(means[ids[i] := g], ids[k]) == Lookup(means, ids[k]);
      }
    }
  }

  /** One more term adds itself to a running sum. */
  lemma SumSnoc(xs: seq<real>, i: nat)
    requires i < |xs|
    ensures Sum(xs[..i + 1]) == Sum(xs[..i]) + xs[i]
  {
    assert xs[..i + 1][..i] == xs[..i];
  }

  /** The inner loop of the third: the product of row `rowId` over the listed columns. */
  method RowProduct(matrix: map<Id, map<Id, real>>, rowId: Id, criteriaIds: seq<Id>) returns (product: real)
    ensures product == Product(MatrixRow(matrix, rowId, criteriaIds))
  {
    ghost var row := MatrixRow(matrix, rowId, criteriaIds);
    product := 1.0;
    var j := 0;
    while j < |criteriaIds|
      invariant 0 <= j <= |criteriaIds|
      invariant product == Product(row[..j])
    {
      assert row[..j + 1][..j] == row[..j];
      product := product * Cell(matrix, rowId, criteriaIds[j]);
      j := j + 1;
    }
    assert row[..j] == row;
  }

  // ---------------------------------------------------------------------------
  // Properties
  // ---------------------------------------------------------------------------

  /** Read in list order, the weights gm / sum add up to 1. */
  lemma ListedWeightsSum(w: map<Id, real>, ids: seq<Id>, comps: seq<DMInputPairwise>, pow: (real, real) -> real)
    requires 1 <= |ids|
    requires GeometricMeanSum(ids, comps, pow) != 0.0
    requires forall k :: 0 <= k < |ids| ==>
      ids[k] in w && w[ids[k]] == GeometricMean(ids, comps, pow, ids[k]) / GeometricMeanSum(ids, comps, pow)
    ensures Sum(ListedWeights(w, ids)) == 1.0
  {
    var gs := GeometricMeans(ids, comps, pow);
    var t := GeometricMeanSum(ids, comps, pow);
    SumDivided(ListedWeights(w, ids), gs, t);
  }

  /** Dividing every term by t divides the sum by t. */
  lemma {:induction false} SumDivided(ws: seq<real>, gs: seq<real>, t: real)
    requires t != 0.0 && |ws| == |gs|
    requires forall k :: 0 <= k < |ws| ==> ws[k] == gs[k] / t
    ensures Sum(ws) == Sum(gs) / t
    ensures Sum(gs) == t ==> Sum(ws) == 1.0
  {
    if |ws| > 0 {
      var n := |ws| - 1;
      var ws', gs' := ws[..n], gs[..n];
      SumDivided(ws', gs', t);
      assert Sum(ws) == Sum(ws') + ws[n];
      assert Sum(gs) == Sum(gs') + gs[n];
      DivAdd(Sum(gs'), gs[n], t);
    }
    if Sum(gs) == t {
      assert t / t == 1.0;
    }
  }

  lemma DivAdd(x: real, y: real, t: real)
    requires t != 0.0
    ensures x / t + y / t == (x + y) / t
  {
  }

  /** Each cell is decided by the last known comparison that writes it; with none, a
      diagonal cell of a given ID is 1 and every other cell 0. */
  lemma CellIsLastWrite(s: set<Id>, comps: seq<DMInputPairwise>, x: Id, y: Id)
    ensures (forall i :: 0 <= i < |comps| ==> !WritesCell(s, comps[i], x, y)) ==>
      CellAfter(s, comps, x, y) == if x == y && x in s then 1.0 else 0.0
    ensures forall i :: 0 <= i < |comps| && WritesCell(s, comps[i], x, y) &&
                        (forall j :: i < j < |comps| ==> !WritesCell(s, comps[j], x, y))
                        ==> CellAfter(s, comps, x, y) == CellWrite(comps[i], x, y).value
  {
    if forall i :: 0 <= i < |comps| ==> !WritesCell(s, comps[i], x, y) {
      CellUnwritten(s, comps, x, y);
    }
    forall i | 0 <= i < |comps| && WritesCell(s, comps[i], x, y) &&
               (forall j :: i < j < |comps| ==> !WritesCell(s, comps[j], x, y))
      ensures CellAfter(s, comps, x, y) == CellWrite(comps[i], x, y).value
    {
      CellWrittenAt(s, comps, x, y, i);
    }
  }

  lemma {:induction false} CellUnwritten(s: set<Id>, comps: seq<DMInputPairwise>, x: Id, y: Id)
    requires forall i :: 0 <= i < |comps| ==> !WritesCell(s, comps[i], x, y)
    ensures CellAfter(s, comps, x, y) == if x == y && x in s then 1.0 else 0.0
  {
    if |comps| > 0 {
      var init := comps[..|comps| - 1];
      assert forall i :: 0 <= i < |init| ==> init[i] == comps[i];
      CellUnwritten(s, init, x, y);
    }
  }

  lemma {:induction false} CellWrittenAt(s: set<Id>, comps: seq<DMInputPairwise>, x: Id, y: Id, i: nat)
    requires i < |comps| && WritesCell(s, comps[i], x, y)
    requires forall j :: i < j < |comps| ==> !WritesCell(s, comps[j], x, y)
    ensures CellAfter(s, comps, x, y) == CellWrite(comps[i], x, y).value
  {
    if i < |comps| - 1 {
      var init := comps[..|comps| - 1];
      assert init[i] == comps[i];
      assert forall j :: i < j < |init| ==> init[j] == comps[j];
      CellWrittenAt(s, init, x, y, i);
    }
  }

  /** Whether comparison `c` is between criteria a and b, in either order. */
  predicate Compares(c: DMInputPairwise, a: Id, b: Id) {
    (c.criteria1Id == a && c.criteria2Id == b) || (c.criteria1Id == b && c.criteria2Id == a)
  }

  /** Reciprocity: when the last known comparison between two distinct criteria A and B
      is (A, B, v) with v != 0, the matrix holds v at (A, B) and 1/v at (B, A). */
  lemma Reciprocal(s: set<Id>, comps: seq<DMInputPairwise>, i: nat)
    requires i < |comps| && Known(s, comps[i])
    requires comps[i].criteria1Id != comps[i].criteria2Id && comps[i].value != 0.0
    requires forall j :: i < j < |comps| ==>
      !(Known(s, comps[j]) && Compares(comps[j], comps[i].criteria1Id, comps[i].criteria2Id))
    ensures CellAfter(s, comps, comps[i].criteria1Id, comps[i].criteria2Id) == comps[i].value
    ensures CellAfter(s, comps, comps[i].criteria2Id, comps[i].criteria1Id) == 1.0 / comps[i].value
  {
    var a, b := comps[i].criteria1Id, comps[i].criteria2Id;
    assert WritesCell(s, comps[i], a, b) && WritesCell(s, comps[i], b, a);
    assert forall j :: i < j < |comps| ==> !WritesCell(s, comps[j], a, b) && !WritesCell(s, comps[j], b, a);
    CellIsLastWrite(s, comps, a, b);
    CellIsLastWrite(s, comps, b, a);
  }

  /** Only comparisons between given criteria matter: dropping the others changes no cell. */
  lemma {:induction false} UnknownComparisonsIgnored(s: set<Id>, comps: seq<DMInputPairwise>, x: Id, y: Id)
    ensures CellAfter(s, KnownOnly(s, comps), x, y) == CellAfter(s, comps, x, y)
  {
    if |comps| > 0 {
      var last := comps[|comps| - 1];
      var init := comps[..|comps| - 1];
      UnknownComparisonsIgnored(s, init, x, y);
      if Known(s, last) {
        var ks := KnownOnly(s, init) + [last];
        assert KnownOnly(s, comps) == ks;
        assert ks[..|ks| - 1] == KnownOnly(s, init) && ks[|ks| - 1] == last;
      } else {
        assert KnownOnly(s, comps) == KnownOnly(s, init) + [] == KnownOnly(s, init);
      }
    }
  }

  /** The comparisons between given criteria, in order. */
  function KnownOnly(s: set<Id>, comps: seq<DMInputPairwise>): (ks: seq<DMInputPairwise>)
    ensures forall k :: 0 <= k < |ks| ==> Known(s, ks[k])
  {
    if |comps| == 0 then []
    else KnownOnly(s, comps[..|comps| - 1]) + (if Known(s, comps[|comps| - 1]) then [comps[|comps| - 1]] else [])
  }

  /** A product with a zero factor is zero. */
  lemma {:induction false} ProductWithZero(xs: seq<real>, k: nat)
    requires k < |xs| && xs[k] == 0.0
    ensures Product(xs) == 0.0
  {
    if k < |xs| - 1 {
      ProductWithZero(xs[..|xs| - 1], k);
    }
  }

  /** A missing comparison zeroes a whole row: when no known comparison writes the cell
      (x, ids[k]) off the diagonal, row x's product and geometric mean are 0. */
  lemma UncoveredCellZeroesRow(ids: seq<Id>, comps: seq<DMInputPairwise>, pow: (real, real) -> real, x: Id, k: nat)
    requires IsPower(pow)
    requires k < |ids| && x != ids[k]
    requires forall i :: 0 <= i < |comps| ==> !WritesCell(IdSet(ids), comps[i], x, ids[k])
    ensures Product(PairwiseRow(ids, comps, x)) == 0.0
    ensures GeometricMean(ids, comps, pow, x) == 0.0
  {
    CellIsLastWrite(IdSet(ids), comps, x, ids[k]);
    ProductWithZero(PairwiseRow(ids, comps, x), k);
    assert 0.0 < 1.0 / (|ids| as real);
  }

  /** With positive comparison values every cell is non-negative ... */
  lemma {:induction false} CellNonNegative(s: set<Id>, comps: seq<DMInputPairwise>, x: Id, y: Id)
    requires forall i :: 0 <= i < |comps| ==> 0.0 < comps[i].value
    ensures 0.0 <= CellAfter(s, comps, x, y)
  {
    if |comps| > 0 {
      CellNonNegative(s, comps[..|comps| - 1], x, y);
    }
  }

  lemma {:induction false} ProductNonNegative(xs: seq<real>)
    requires forall k :: 0 <= k < |xs| ==> 0.0 <= xs[k]
    ensures 0.0 <= Product(xs)
  {
    if |xs| > 0 {
      ProductNonNegative(xs[..|xs| - 1]);
      var p := Product(xs[..|xs| - 1]);
      if 0.0 < p && 0.0 < xs[|xs| - 1] {
        MulPositive(p, xs[|xs| - 1]);
      }
    }
  }

  lemma {:induction false} SumAtLeastEachTerm(xs: seq<real>, k: nat)
    requires forall i :: 0 <= i < |xs| ==> 0.0 <= xs[i]
    requires k < |xs|
    ensures 0.0 <= xs[k] <= Sum(xs)
  {
    if k < |xs| - 1 {
      SumAtLeastEachTerm(xs[..|xs| - 1], k);
    } else {
      SumNonNegative(xs[..|xs| - 1]);
    }
  }

  lemma {:induction false} SumNonNegative(xs: seq<real>)
    requires forall i :: 0 <= i < |xs| ==> 0.0 <= xs[i]
    ensures 0.0 <= Sum(xs)
  {
    if |xs| > 0 {
      SumNonNegative(xs[..|xs| - 1]);
    }
  }

  /** ... so every geometric mean is non-negative and every weight lies in [0, 1]. */
  lemma WeightsInUnitInterval(ids: seq<Id>, comps: seq<DMInputPairwise>, pow: (real, real) -> real, k: nat)
    requires IsPower(pow)
    requires forall i :: 0 <= i < |comps| ==> 0.0 < comps[i].value
    requires k < |ids| && GeometricMeanSum(ids, comps, pow) != 0.0
    ensures 0.0 <= GeometricMean(ids, comps, pow, ids[k]) / GeometricMeanSum(ids, comps, pow) <= 1.0
  {
    var gs := GeometricMeans(ids, comps, pow);
    forall i | 0 <= i < |gs|
      ensures 0.0 <= gs[i]
    {
      var row := PairwiseRow(ids, comps, ids[i]);
      forall j | 0 <= j < |row|
        ensures 0.0 <= row[j]
      {
        CellNonNegative(IdSet(ids), comps, ids[i], ids[j]);
      }
      ProductNonNegative(row);
      assert 0.0 < 1.0 / (|ids| as real);
    }
    SumAtLeastEachTerm(gs, k);
    DivAtMostOne(gs[k], Sum(gs));
  }

  lemma DivAtMostOne(x: real, y: real)
    requires 0.0 <= x <= y && y != 0.0
    ensures 0.0 <= x / y <= 1.0
  {
  }
}
