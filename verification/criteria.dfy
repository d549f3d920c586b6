/** The criteria service of services/internal/service/criteria_service.go: criteria are
    created, listed as a tree, partially updated and deleted. Only an admin may change
    criteria, and only criteria of a project that belongs to the caller's company.

    The criteria table is the object `CriteriaStore`; the project table is a read-only
    sequence of rows. */
module CriteriaService {
  import opened Models

  /** A criterion as the API returns it, with its sub-criteria attached. */
  datatype CriteriaDTO = CriteriaDTO(
    criteriaId: Id,
    projectId: Id,
    parentCriteriaId: Option<Id>,
    name: string,
    code: string,
    criteriaType: string,
    weight: real,
    subCriteria: seq<CriteriaDTO>)

  datatype CreateCriteriaInput = CreateCriteriaInput(
    name: string, code: string, criteriaType: string, weight: real, parentCriteriaId: Option<Id>)

  /** An update request; an empty string or a weight of at most 0 means "keep". */
  datatype UpdateCriteriaInput = UpdateCriteriaInput(name: string, code: string, criteriaType: string, weight: real)

  datatype CriteriaError = NotAdmin | NoAccess | NotFound | WrongProject

  /** The record part of a DTO (everything but the sub-criteria). */
  function ToCriteria(d: CriteriaDTO): Criteria {
    Criteria(d.criteriaId, d.projectId, d.parentCriteriaId, d.name, d.code, d.criteriaType, d.weight)
  }

  /** toCriteriaDTO: the DTO carries every field of the record, and no sub-criteria yet. */
  function ToCriteriaDTO(c: Criteria): (d: CriteriaDTO)
    ensures ToCriteria(d) == c
    ensures d.subCriteria == []
  {
    CriteriaDTO(c.criteriaId, c.projectId, c.parentCriteriaId, c.name, c.code, c.criteriaType, c.weight, [])
  }

  // ---------------------------------------------------------------------------
  // The criteria table
  // ---------------------------------------------------------------------------

  /** GetCriteriaByID: the first row with that primary key. */
  function FindById(rows: seq<Criteria>, criteriaId: Id): (r: Option<Criteria>)
    ensures r.Some? ==> r.value in rows && r.value.criteriaId == criteriaId
    ensures r.None? ==> forall k :: 0 <= k < |rows| ==> rows[k].criteriaId != criteriaId
  {
    if |rows| == 0 then None
    else if rows[0].criteriaId == criteriaId then Some(rows[0])
    else FindById(rows[1..], criteriaId)
  }

  /** The table after saving `c` over the row(s) with its key. */
  function SaveRow(rows: seq<Criteria>, c: Criteria): seq<Criteria> {
    seq(|rows|, i requires 0 <= i < |rows| => if rows[i].criteriaId == c.criteriaId then c else rows[i])
  }

  class CriteriaStore {
    var rows: seq<Criteria>

    constructor(rows0: seq<Criteria>)
      ensures rows == rows0
    {
      rows := rows0;
    }

    /** CreateCriteria in the repository; the row already carries the key the database gives it. */
    method Insert(c: Criteria)
      modifies this
      ensures rows == old(rows) + [c]
    {
      rows := rows + [c];
    }

    /** UpdateCriteria in the repository (a save by primary key). */
    method Save(c: Criteria)
      modifies this
      ensures rows == SaveRow(old(rows), c)
    {
      rows := SaveRow(rows, c);
    }

    /** DeleteCriteria in the repository. */
    method Remove(criteriaId: Id)
      modifies this
      ensures rows == Filter(old(rows), (c: Criteria) => c.criteriaId != criteriaId)
    {
      rows := Filter(rows, (c: Criteria) => c.criteriaId != criteriaId);
    }
  }

  // ---------------------------------------------------------------------------
  // Create
  // ---------------------------------------------------------------------------

  /** The record CreateCriteria builds from the request, with the key the database gives it. */
  function NewCriteria(newId: Id, projectId: Id, input: CreateCriteriaInput): Criteria {
    Criteria(newId, projectId, input.parentCriteriaId, input.name, input.code, input.criteriaType, input.weight)
  }

  method CreateCriteria(
    store: CriteriaStore, projects: seq<DecisionProject>, input: CreateCriteriaInput,
    projectId: Id, companyId: Id, role: string, newId: Id)
    returns (r: Result<CriteriaDTO, CriteriaError>)
    modifies store
    ensures role != AdminRole ==> r == Failure(NotAdmin) && store.rows == old(store.rows)
    ensures role == AdminRole && !ProjectVisible(projects, projectId, companyId) ==>
      r == Failure(NoAccess) && store.rows == old(store.rows)
    ensures role == AdminRole && ProjectVisible(projects, projectId, companyId) ==>
      && store.rows == old(store.rows) + [NewCriteria(newId, projectId, input)]
      && r == Success(ToCriteriaDTO(NewCriteria(newId, projectId, input)))
  {
    if role != AdminRole {
      return Failure(NotAdmin);
    }
    if !ProjectVisible(projects, projectId, companyId) {
      return Failure(NoAccess);
    }
    var newCriteria := NewCriteria(newId, projectId, input);
    store.Insert(newCriteria);
    r := Success(ToCriteriaDTO(newCriteria));
  }

  /** A created criterion belongs to the requested project and carries the request's
      fields unchanged. */
  lemma NewCriteriaFields(newId: Id, projectId: Id, input: CreateCriteriaInput)
    ensures var c := NewCriteria(newId, projectId, input);
      && c.projectId == projectId && c.parentCriteriaId == input.parentCriteriaId
      && c.name == input.name && c.code == input.code && c.criteriaType == input.criteriaType
      && c.weight == input.weight
  {
  }

  // ---------------------------------------------------------------------------
  // The tree
  // ---------------------------------------------------------------------------

  /** The DTOs of the criteria whose parent is `parent`, in list order. With None these are
      the roots; with Some(p) the children grouped under p. */
  function WithParent(flat: seq<Criteria>, parent: Option<Id>): seq<CriteriaDTO> {
    if |flat| == 0 then []
    else
      var c := flat[|flat| - 1];
      WithParent(flat[..|flat| - 1], parent) + (if c.parentCriteriaId == parent then [ToCriteriaDTO(c)] else [])
  }

  /** The keys of childMap: every ID some criterion names as its parent. */
  function ParentIds(flat: seq<Criteria>): set<Id> {
    set k | 0 <= k < |flat| && flat[k].parentCriteriaId.Some? :: flat[k].parentCriteriaId.value
  }

  function ChildMap(flat: seq<Criteria>): map<Id, seq<CriteriaDTO>> {
    map p | p in ParentIds(flat) :: WithParent(flat, Some(p))
  }

  /** A DTO is listed under `parent` exactly when it is the DTO of a criterion with that
      parent. */
  lemma {:induction false} WithParentMembers(flat: seq<Criteria>, parent: Option<Id>)
    ensures forall d :: d in WithParent(flat, parent) <==>
      exists k :: 0 <= k < |flat| && flat[k].parentCriteriaId == parent && d == ToCriteriaDTO(flat[k])
  {
    if |flat| > 0 {
      var init := flat[..|flat| - 1];
      WithParentMembers(init, parent);
      forall d | d in WithParent(flat, parent)
        ensures exists k :: 0 <= k < |flat| && flat[k].parentCriteriaId == parent && d == ToCriteriaDTO(flat[k])
      {
        if d in WithParent(init, parent) {
          var k :| 0 <= k < |init| && init[k].parentCriteriaId == parent && d == ToCriteriaDTO(init[k]);
          assert flat[k] == init[k];
        }
      }
      forall d | exists k :: 0 <= k < |flat| && flat[k].parentCriteriaId == parent && d == ToCriteriaDTO(flat[k])
        ensures d in WithParent(flat, parent)
      {
        var k :| 0 <= k < |flat| && flat[k].parentCriteriaId == parent && d == ToCriteriaDTO(flat[k]);
        if k < |init| {
          assert init[k] == flat[k];
        }
      }
    }
  }

  /** The loop over the flat list: a criterion without parent is appended to the roots,
      any other one to the list of its parent ID. */
  method GroupCriteria(flatList: seq<Criteria>)
    returns (rootCriteria: seq<CriteriaDTO>, childMap: map<Id, seq<CriteriaDTO>>)
    ensures rootCriteria == WithParent(flatList, None)
    ensures childMap == ChildMap(flatList)
  {
    rootCriteria, childMap := [], map[];
    var i := 0;
    while i < |flatList|
      invariant 0 <= i <= |flatList|
      invariant rootCriteria == WithParent(flatList[..i], None)
      invariant childMap == ChildMap(flatList[..i])
    {
      GroupStep(flatList, i);
      var dto := ToCriteriaDTO(flatList[i]);
      if dto.parentCriteriaId == None {
        rootCriteria := rootCriteria + [dto];
      } else {
        var parentId := dto.parentCriteriaId.value;
        var siblings := if parentId in childMap then childMap[parentId] else [];
        childMap := childMap[parentId := siblings + [dto]];
      }
      i := i + 1;
    }
    assert flatList[..i] == flatList;
  }

  /** An ID that no criterion names as its parent has no children listed under it. */
  lemma {:induction false} NoChildren(flat: seq<Criteria>, p: Id)
    requires p !in ParentIds(flat)
    ensures WithParent(flat, Some(p)) == []
  {
    if |flat| > 0 {
      var init := flat[..|flat| - 1];
      assert flat[|flat| - 1].parentCriteriaId != Some(p);
      forall k | 0 <= k < |init| && init[k].parentCriteriaId.Some?
        ensures init[k].parentCriteriaId.value != p
      {
        assert init[k] == flat[k];
      }
      NoChildren(init, p);
    }
  }

  /** One more criterion of the flat list joins the roots or the children of its parent. */
  lemma GroupStep(flat: seq<Criteria>, i: nat)
    requires i < |flat|
    ensures var dto := ToCriteriaDTO(flat[i]);
      WithParent(flat[..i + 1], None) == WithParent(flat[..i], None) + (if dto.parentCriteriaId == None then [dto] else [])
    ensures var dto := ToCriteriaDTO(flat[i]);
      var before := ChildMap(flat[..i]);
      ChildMap(flat[..i + 1])
        == if dto.parentCriteriaId == None then before
           else
             var parentId := dto.parentCriteriaId.value;
             before[parentId := (if parentId in before then before[parentId] else []) + [dto]]
  {
    var prefix := flat[..i + 1];
    assert prefix[..i] == flat[..i];
    var dto := ToCriteriaDTO(flat[i]);
    var before := ChildMap(flat[..i]);
    var after := ChildMap(prefix);
    ParentIdsStep(flat, i);
    if dto.parentCriteriaId == None {
      forall p | p in after ensures after[p] == before[p] {
        ChildEntryStep(flat, i, p);
      }
      assert after == before;
    } else {
      var parentId := dto.parentCriteriaId.value;
      var expected := before[parentId := (if parentId in before then before[parentId] else []) + [dto]];
      assert after.Keys == expected.Keys;
      forall p | p in after ensures after[p] == expected[p] {
        ChildEntryStep(flat, i, p);
      }
      assert after == expected;
    }
  }

  lemma ParentIdsStep(flat: seq<Criteria>, i: nat)
    requires i < |flat|
    ensures ParentIds(flat[..i + 1])
      == ParentIds(flat[..i]) + (if flat[i].parentCriteriaId.Some? then {flat[i].parentCriteriaId.value} else {})
  {
    var prefix := flat[..i + 1];
    assert forall k :: 0 <= k < i ==> prefix[k] == flat[..i][k];
    assert prefix[i] == flat[i];
  }

  /** The children listed under `p` after one more criterion of the flat list. */
  lemma ChildEntryStep(flat: seq<Criteria>, i: nat, p: Id)
    requires i < |flat|
    ensures var before := ChildMap(flat[..i]);
      WithParent(flat[..i + 1], Some(p))
        == if flat[i].parentCriteriaId == Some(p) then (if p in before then before[p] else []) + [ToCriteriaDTO(flat[i])]
           else (if p in before then before[p] else [])
  {
    assert flat[..i + 1][..i] == flat[..i];
    if p !in ParentIds(flat[..i]) {
      NoChildren(flat[..i], p);
    }
  }

  /** The nodes of `nodes` with their sub-trees attached: the node of a criterion whose ID
      has children gets the sub-tree of those children. `fuel` bounds the depth. */
  function Subtrees(childMap: map<Id, seq<CriteriaDTO>>, nodes: seq<CriteriaDTO>, fuel: nat): (ts: seq<CriteriaDTO>)
    decreases fuel, 1
    ensures |ts| == |nodes|
  {
    seq(|nodes|, i requires 0 <= i < |nodes| => Attach(childMap, nodes[i], fuel))
  }

  function Attach(childMap: map<Id, seq<CriteriaDTO>>, node: CriteriaDTO, fuel: nat): CriteriaDTO
    decreases fuel, 0
  {
    if 0 < fuel && node.criteriaId in childMap
    then node.(subCriteria := Subtrees(childMap, childMap[node.criteriaId], fuel - 1))
    else node
  }

  /** buildTree: walks the nodes and replaces each one's sub-criteria in place. */
  method BuildTree(childMap: map<Id, seq<CriteriaDTO>>, nodes0: seq<CriteriaDTO>, fuel: nat)
    returns (nodes: seq<CriteriaDTO>)
    decreases fuel
    ensures nodes == Subtrees(childMap, nodes0, fuel)
  {
    nodes := nodes0;
    var i := 0;
    while i < |nodes|
      invariant 0 <= i <= |nodes| == |nodes0|
      invariant forall k :: 0 <= k < i ==> nodes[k] == Attach(childMap, nodes0[k], fuel)
      invariant forall k :: i <= k < |nodes| ==> nodes[k] == nodes0[k]
    {
      var node := nodes[i];
      if 0 < fuel && node.criteriaId in childMap {
        var children := childMap[node.criteriaId];
        var sub := BuildTree(childMap, children, fuel - 1);
        nodes := nodes[i := node.(subCriteria := sub)];
      }
      i := i + 1;
    }
  }

  /** Every node of `ts` is the DTO of a criterion of `flat` whose parent is `parent`, and
      the same holds, one level down, for its sub-criteria. */
  ghost predicate WellFormed(ts: seq<CriteriaDTO>, parent: Option<Id>, flat: seq<Criteria>)
    decreases ts
  {
    forall i :: 0 <= i < |ts| ==>
      && ts[i].parentCriteriaId == parent
      && ToCriteria(ts[i]) in flat
      && WellFormed(ts[i].subCriteria, Some(ts[i].criteriaId), flat)
  }

  /** Every list in the child map holds, for its key p, DTOs of criteria of `flat` with
      parent p and no sub-criteria yet. */
  ghost predicate ChildMapSound(childMap: map<Id, seq<CriteriaDTO>>, flat: seq<Criteria>) {
    forall p, j :: p in childMap && 0 <= j < |childMap[p]| ==>
      && childMap[p][j].parentCriteriaId == Some(p)
      && ToCriteria(childMap[p][j]) in flat
      && childMap[p][j].subCriteria == []
  }

  lemma {:induction false} SubtreesWellFormed(
    childMap: map<Id, seq<CriteriaDTO>>, nodes: seq<CriteriaDTO>, fuel: nat, parent: Option<Id>, flat: seq<Criteria>)
    requires ChildMapSound(childMap, flat)
    requires forall k :: 0 <= k < |nodes| ==>
      nodes[k].parentCriteriaId == parent && ToCriteria(nodes[k]) in flat && nodes[k].subCriteria == []
    ensures WellFormed(Subtrees(childMap, nodes, fuel), parent, flat)
    decreases fuel
  {
    var ts := Subtrees(childMap, nodes, fuel);
    forall i | 0 <= i < |ts|
      ensures ts[i].parentCriteriaId == parent && ToCriteria(ts[i]) in flat
      ensures WellFormed(ts[i].subCriteria, Some(ts[i].criteriaId), flat)
    {
      var node := nodes[i];
      assert ts[i] == Attach(childMap, node, fuel);
      assert ToCriteria(ts[i]) == ToCriteria(node);
      if 0 < fuel && node.criteriaId in childMap {
        SubtreesWellFormed(childMap, childMap[node.criteriaId], fuel - 1, Some(node.criteriaId), flat);
      }
    }
  }

  lemma ChildMapIsSound(flat: seq<Criteria>)
    ensures ChildMapSound(ChildMap(flat), flat)
  {
    forall p, j | p in ChildMap(flat) && 0 <= j < |ChildMap(flat)[p]|
      ensures ChildMap(flat)[p][j].parentCriteriaId == Some(p)
      ensures ToCriteria(ChildMap(flat)[p][j]) in flat
      ensures ChildMap(flat)[p][j].subCriteria == []
    {
      WithParentMembers(flat, Some(p));
      assert ChildMap(flat)[p][j] in WithParent(flat, Some(p));
    }
  }

  lemma RootsAreParentless(flat: seq<Criteria>)
    ensures forall k :: 0 <= k < |WithParent(flat, None)| ==>
      var d := WithParent(flat, None)[k];
      d.parentCriteriaId == None && ToCriteria(d) in flat && d.subCriteria == []
  {
    WithParentMembers(flat, None);
    forall k | 0 <= k < |WithParent(flat, None)|
      ensures var d := WithParent(flat, None)[k];
        d.parentCriteriaId == None && ToCriteria(d) in flat && d.subCriteria == []
    {
      assert WithParent(flat, None)[k] in WithParent(flat, None);
    }
  }

  /** `chain` is a parent chain inside `flat`: each entry is a criterion of `flat`, each
      names the next as its parent, and the last has no parent. */
  ghost predicate RootChain(flat: seq<Criteria>, chain: seq<Criteria>) {
    && 1 <= |chain|
    && (forall i :: 0 <= i < |chain| ==> chain[i] in flat)
    && (forall i :: 0 <= i < |chain| - 1 ==> chain[i].parentCriteriaId == Some(chain[i + 1].criteriaId))
    && chain[|chain| - 1].parentCriteriaId == None
  }

  /** Every node of `ts`, followed by its ancestors in the tree and then by `above`, is a
      parent chain of `flat` that ends at a root. */
  ghost predicate ChainsToRoot(ts: seq<CriteriaDTO>, above: seq<Criteria>, flat: seq<Criteria>)
    decreases ts
  {
    forall i :: 0 <= i < |ts| ==>
      && RootChain(flat, [ToCriteria(ts[i])] + above)
      && ChainsToRoot(ts[i].subCriteria, [ToCriteria(ts[i])] + above, flat)
  }

  /** A well-formed tree hangs only criteria whose parent chain reaches a root: a
      criterion whose chain of parents never ends at a parentless criterion of the project
      cannot appear. */
  lemma {:induction false} WellFormedReachesRoot(
    ts: seq<CriteriaDTO>, parent: Option<Id>, above: seq<Criteria>, flat: seq<Criteria>)
    requires WellFormed(ts, parent, flat)
    requires parent == None ==> above == []
    requires parent.Some? ==> RootChain(flat, above) && above[0].criteriaId == parent.value
    ensures ChainsToRoot(ts, above, flat)
    decreases ts
  {
    forall i | 0 <= i < |ts|
      ensures RootChain(flat, [ToCriteria(ts[i])] + above)
      ensures ChainsToRoot(ts[i].subCriteria, [ToCriteria(ts[i])] + above, flat)
    {
      var c := ToCriteria(ts[i]);
      var chain := [c] + above;
      assert c.parentCriteriaId == parent;
      forall k | 0 <= k < |chain| - 1
        ensures chain[k].parentCriteriaId == Some(chain[k + 1].criteriaId)
      {
        if k > 0 {
          assert chain[k] == above[k - 1] && chain[k + 1] == above[k];
        }
      }
      assert RootChain(flat, chain);
      WellFormedReachesRoot(ts[i].subCriteria, Some(ts[i].criteriaId), chain, flat);
    }
  }

  /** GetCriteriaByProject: the project's criteria as a tree. The top level is the
      criteria without parent, in list order; below a node hang the criteria that name it
      as parent; so every node of the tree is reachable from a root through its parent
      chain, and a criterion whose parent chain does not reach a root never appears. */
  method GetCriteriaByProject(
    projects: seq<DecisionProject>, criteriaTable: seq<Criteria>, projectId: Id, companyId: Id)
    returns (r: Result<seq<CriteriaDTO>, CriteriaError>)
    ensures !ProjectVisible(projects, projectId, companyId) ==> r == Failure(NoAccess)
    ensures ProjectVisible(projects, projectId, companyId) ==>
      var flat := CriteriaOfProject(criteriaTable, projectId);
      && r.Success?
      && r.value == Subtrees(ChildMap(flat), WithParent(flat, None), |flat|)
      && |r.value| == |WithParent(flat, None)|
      && (forall i :: 0 <= i < |r.value| ==> ToCriteria(r.value[i]) == ToCriteria(WithParent(flat, None)[i]))
      && WellFormed(r.value, None, flat)
      && ChainsToRoot(r.value, [], flat)
  {
    if !ProjectVisible(projects, projectId, companyId) {
      return Failure(NoAccess);
    }
    var flatList := CriteriaOfProject(criteriaTable, projectId);
    var rootCriteria, childMap := GroupCriteria(flatList);
    var tree := BuildTree(childMap, rootCriteria, |flatList|);
    ChildMapIsSound(flatList);
    RootsAreParentless(flatList);
    SubtreesWellFormed(childMap, rootCriteria, |flatList|, None, flatList);
    WellFormedReachesRoot(tree, None, [], flatList);
    forall i | 0 <= i < |tree|
      ensures ToCriteria(tree[i]) == ToCriteria(rootCriteria[i])
    {
      assert tree[i] == Attach(childMap, rootCriteria[i], |flatList|);
    }
    r := Success(tree);
  }

  // ---------------------------------------------------------------------------
  // Update and delete
  // ---------------------------------------------------------------------------

  /** The merge rule of UpdateCriteria. */
  function Merge(c: Criteria, input: UpdateCriteriaInput): Criteria {
    c.(name := if input.name != "" then input.name else c.name,
       code := if input.code != "" then input.code else c.code,
       criteriaType := if input.criteriaType != "" then input.criteriaType else c.criteriaType,
       weight := if input.weight > 0.0 then input.weight else c.weight)
  }

  /** Key, project and parent never change. */
  lemma MergeKeepsIdentity(c: Criteria, input: UpdateCriteriaInput)
    ensures Merge(c, input).criteriaId == c.criteriaId
    ensures Merge(c, input).projectId == c.projectId
    ensures Merge(c, input).parentCriteriaId == c.parentCriteriaId
  {
  }

  /** A field given in the request is taken over; one left empty keeps its value. */
  lemma MergeTakesGivenFields(c: Criteria, input: UpdateCriteriaInput)
    ensures input.name != "" ==> Merge(c, input).name == input.name
    ensures input.name == "" ==> Merge(c, input).name == c.name
    ensures input.code != "" ==> Merge(c, input).code == input.code
    ensures input.code == "" ==> Merge(c, input).code == c.code
    ensures input.criteriaType != "" ==> Merge(c, input).criteriaType == input.criteriaType
    ensures input.criteriaType == "" ==> Merge(c, input).criteriaType == c.criteriaType
    ensures input.weight > 0.0 ==> Merge(c, input).weight == input.weight
    ensures input.weight <= 0.0 ==> Merge(c, input).weight == c.weight
  {
  }

  /** An empty request changes nothing; applying a request twice is applying it once. */
  lemma MergeEmptyAndIdempotent(c: Criteria, input: UpdateCriteriaInput)
    ensures Merge(c, UpdateCriteriaInput("", "", "", 0.0)) == c
    ensures Merge(Merge(c, input), input) == Merge(c, input)
  {
  }

  method UpdateCriteria(
    store: CriteriaStore, projects: seq<DecisionProject>, criteriaId: Id, input: UpdateCriteriaInput,
    projectId: Id, companyId: Id, role: string)
    returns (r: Result<CriteriaDTO, CriteriaError>)
    modifies store
    ensures role != AdminRole ==> r == Failure(NotAdmin) && store.rows == old(store.rows)
    ensures role == AdminRole && !ProjectVisible(projects, projectId, companyId) ==>
      r == Failure(NoAccess) && store.rows == old(store.rows)
    ensures role == AdminRole && ProjectVisible(projects, projectId, companyId) ==>
      match FindById(old(store.rows), criteriaId)
      case None => r == Failure(NotFound) && store.rows == old(store.rows)
      case Some(c) =>
        if c.projectId != projectId then r == Failure(WrongProject) && store.rows == old(store.rows)
        else store.rows == SaveRow(old(store.rows), Merge(c, input)) && r == Success(ToCriteriaDTO(Merge(c, input)))
  {
    if role != AdminRole {
      return Failure(NotAdmin);
    }
    if !ProjectVisible(projects, projectId, companyId) {
      return Failure(NoAccess);
    }
    var found := FindById(store.rows, criteriaId);
    if found.None? {
      return Failure(NotFound);
    }
    var criteria := found.value;
    if criteria.projectId != projectId {
      return Failure(WrongProject);
    }
    if input.name != "" {
      criteria := criteria.(name := input.name);
    }
    if input.code != "" {
      criteria := criteria.(code := input.code);
    }
    if input.criteriaType != "" {
      criteria := criteria.(criteriaType := input.criteriaType);
    }
    if input.weight > 0.0 {
      criteria := criteria.(weight := input.weight);
    }
    store.Save(criteria);
    r := Success(ToCriteriaDTO(criteria));
  }

  method DeleteCriteria(
    store: CriteriaStore, projects: seq<DecisionProject>, criteriaId: Id,
    projectId: Id, companyId: Id, role: string)
    returns (err: Option<CriteriaError>)
    modifies store
    ensures role != AdminRole ==> err == Some(NotAdmin) && store.rows == old(store.rows)
    ensures role == AdminRole && !ProjectVisible(projects, projectId, companyId) ==>
      err == Some(NoAccess) && store.rows == old(store.rows)
    ensures role == AdminRole && ProjectVisible(projects, projectId, companyId) ==>
      match FindById(old(store.rows), criteriaId)
      case None => err == Some(NotFound) && store.rows == old(store.rows)
      case Some(c) =>
        if c.projectId != projectId then err == Some(WrongProject) && store.rows == old(store.rows)
        else err == None && store.rows == Filter(old(store.rows), (x: Criteria) => x.criteriaId != criteriaId)
  {
    if role != AdminRole {
      return Some(NotAdmin);
    }
    if !ProjectVisible(projects, projectId, companyId) {
      return Some(NoAccess);
    }
    var found := FindById(store.rows, criteriaId);
    if found.None? {
      return Some(NotFound);
    }
    if found.value.projectId != projectId {
      return Some(WrongProject);
    }
    store.Remove(criteriaId);
    err := None;
  }
}
