/** Task graphs: nodes, validation, topological order and dependency search. */
module TaskGraph {
  import opened Prelude
  import opened RepoPath
  import opened Dependencies
  import Ordering
  import Providers

  /** A role name; `OtherRole` is any string that is none of them. */
  datatype Role = Planner | Researcher | Implementer | Validator | ConflictRepair | OtherRole(name: string)

  const LANGUAGES := {"python", "c", "cpp", "rust", "javascript"}

  datatype TaskNode = TaskNode(
    nodeId: Id,
    role: Role,
    language: string,
    dependencies: seq<Id>,
    readPaths: seq<Path>,
    writePaths: seq<Path>,
    trustedTests: seq<Path>,
    artifactOutputs: seq<Path>,
    policy: Providers.Policy)
  {
    predicate Edits() {
      writePaths != []
    }

    /** All the paths a node names, in the order they are checked. */
    function Paths(): seq<Path> {
      readPaths + writePaths + trustedTests + artifactOutputs
    }
  }

  datatype TaskGraph = TaskGraph(nodes: seq<TaskNode>, schemaVersion: int)

  datatype NodeError =
    | InvalidId
    | UnknownRole
    | UnknownLanguage
    | BadPath(path: string)
    | ReadOnlyRole(role: Role)

  datatype GraphError =
    | UnsupportedSchema(version: int)
    | DuplicateIds
    | UnknownDependencies(node: Id)
    | SelfDependency(node: Id)
    | Cycle
    | WriteConflict(left: Id, right: Id)

  predicate Alphanumeric(c: char) {
    'A' <= c <= 'Z' || 'a' <= c <= 'z' || '0' <= c <= '9'
  }

  /** `[A-Za-z0-9][A-Za-z0-9_.-]{0,127}` */
  predicate ValidId(id: Id) {
    && 1 <= |id| <= 128
    && Alphanumeric(id[0])
    && forall c :: c in id ==> Alphanumeric(c) || c in "_.-"
  }

  predicate ReadOnly(role: Role) {
    role in {Planner, Researcher, Validator}
  }

  /** The checks a node runs on itself when it is built. */
  predicate ValidNode(n: TaskNode) {
    && ValidId(n.nodeId)
    && !n.role.OtherRole?
    && n.language in LANGUAGES
    && AllowedPaths(n.Paths())
    && !(ReadOnly(n.role) && n.Edits())
  }

  /** The error is the first check the node fails. */
  ghost predicate FirstFault(n: TaskNode, error: NodeError) {
    match error
    case InvalidId => !ValidId(n.nodeId)
    case UnknownRole => ValidId(n.nodeId) && n.role.OtherRole?
    case UnknownLanguage => ValidId(n.nodeId) && !n.role.OtherRole? && n.language !in LANGUAGES
    case BadPath(path) =>
      && ValidId(n.nodeId) && !n.role.OtherRole? && n.language in LANGUAGES
      && exists i: nat :: IsFirstBad(n.Paths(), i) && path == n.Paths()[i]
    case ReadOnlyRole(role) =>
      && ValidId(n.nodeId) && n.language in LANGUAGES && AllowedPaths(n.Paths())
      && role == n.role && ReadOnly(role) && n.Edits()
  }

  method CheckNode(n: TaskNode) returns (r: Result<(), NodeError>)
    ensures r.Success? <==> ValidNode(n)
    ensures r.Failure? ==> FirstFault(n, r.error)
  {
    if !ValidId(n.nodeId) {
      return Failure(InvalidId);
    }
    if n.role.OtherRole? {
      return Failure(UnknownRole);
    }
    if n.language !in LANGUAGES {
      return Failure(UnknownLanguage);
    }
    var bad := FirstBadPath(n.Paths());
    if bad.Some? {
      return Failure(BadPath(bad.value));
    }
    if ReadOnly(n.role) && n.Edits() {
      return Failure(ReadOnlyRole(n.role));
    }
    return Success(());
  }

  // ---- what a graph means ----

  /** `{node.node_id: node for node in nodes}`: the last of several equal ids wins. */
  function ById(nodes: seq<TaskNode>): (m: map<Id, TaskNode>)
    ensures forall id :: id in m ==> m[id] in nodes && m[id].nodeId == id
    ensures forall n :: n in nodes ==> n.nodeId in m
  {
    if |nodes| == 0 then map[]
    else ById(nodes[..|nodes| - 1])[nodes[|nodes| - 1].nodeId := nodes[|nodes| - 1]]
  }

  predicate UniqueIds(nodes: seq<TaskNode>) {
    forall i, j :: 0 <= i < j < |nodes| ==> nodes[i].nodeId != nodes[j].nodeId
  }

  function DependencyMap(g: TaskGraph): (m: DepMap)
    ensures m.Keys == ById(g.nodes).Keys
  {
    var nodes := ById(g.nodes);
    map id | id in nodes :: Elements(nodes[id].dependencies)
  }

  /** Editors whose claims overlap are ordered by a dependency chain. */
  ghost predicate ConflictsOrdered(g: TaskGraph) {
    forall i, j :: 0 <= i < j < |g.nodes| ==> PairOrdered(g, i, j)
  }

  ghost predicate PairOrdered(g: TaskGraph, i: int, j: int)
    requires 0 <= i < j < |g.nodes|
  {
    ClaimsOverlap(g.nodes[i].writePaths, g.nodes[j].writePaths) ==>
      Ordered(g, g.nodes[i].nodeId, g.nodes[j].nodeId)
  }

  ghost predicate Ordered(g: TaskGraph, a: Id, b: Id) {
    DependsOn(DependencyMap(g), a, b) || DependsOn(DependencyMap(g), b, a)
  }

  ghost predicate ValidGraph(g: TaskGraph) {
    && g.schemaVersion == 1
    && UniqueIds(g.nodes)
    && Known(DependencyMap(g))
    && Acyclic(DependencyMap(g))
    && ConflictsOrdered(g)
  }

  /** With unique ids the lookup finds each node of the tuple. */
  lemma {:induction false} ByIdUnique(nodes: seq<TaskNode>, i: nat)
    requires UniqueIds(nodes) && i < |nodes|
    ensures nodes[i].nodeId in ById(nodes) && ById(nodes)[nodes[i].nodeId] == nodes[i]
  {
    var init, last := nodes[..|nodes| - 1], nodes[|nodes| - 1];
    assert ById(nodes) == ById(init)[last.nodeId := last];
    hide ById;
    if i < |nodes| - 1 {
      assert init[i] == nodes[i] && nodes[i].nodeId != last.nodeId;
      ByIdUnique(init, i);
    }
  }

  lemma {:induction false} ByIdSize(nodes: seq<TaskNode>)
    ensures |ById(nodes)| <= |nodes|
    ensures |ById(nodes)| == |nodes| <==> UniqueIds(nodes)
  {
    if |nodes| > 0 {
      var init, last := nodes[..|nodes| - 1], nodes[|nodes| - 1];
      ByIdSize(init);
      LastId(nodes);
      AddKeySize(ById(init), last.nodeId, last);
    }
  }

  /** Ids stay unique exactly when the last id is new. */
  lemma LastId(nodes: seq<TaskNode>)
    requires |nodes| > 0
    ensures
      var init, last := nodes[..|nodes| - 1], nodes[|nodes| - 1];
      UniqueIds(nodes) <==> UniqueIds(init) && last.nodeId !in ById(init)
  {
    var n := |nodes| - 1;
    var init, last := nodes[..n], nodes[n];
    if UniqueIds(nodes) {
      forall i, j | 0 <= i < j < n ensures init[i].nodeId != init[j].nodeId {
        assert nodes[i].nodeId != nodes[j].nodeId;
      }
    }
    if UniqueIds(init) && last.nodeId !in ById(init) {
      forall i, j | 0 <= i < j < |nodes| ensures nodes[i].nodeId != nodes[j].nodeId {
        if j == n { assert init[i] in init; } else { assert init[i].nodeId != init[j].nodeId; }
      }
    }
  }

  /** The order of the node tuple does not matter: the same nodes give the same dependency relation. */
  lemma TupleOrderIrrelevant(g: TaskGraph, h: TaskGraph)
    requires UniqueIds(g.nodes) && UniqueIds(h.nodes)
    requires Elements(g.nodes) == Elements(h.nodes)
    ensures DependencyMap(g) == DependencyMap(h)
    ensures Order(DependencyMap(g)) == Order(DependencyMap(h))
  {
    SameLookup(g.nodes, h.nodes);
    SameLookup(h.nodes, g.nodes);
    assert ById(g.nodes) == ById(h.nodes);
  }

  lemma SameLookup(a: seq<TaskNode>, b: seq<TaskNode>)
    requires UniqueIds(b) && Elements(a) <= Elements(b)
    ensures forall id :: id in ById(a) ==> id in ById(b) && ById(b)[id] == ById(a)[id]
  {
    forall id | id in ById(a) ensures id in ById(b) && ById(b)[id] == ById(a)[id] {
      var n := ById(a)[id];
      assert n in Elements(a);
      var i :| 0 <= i < |b| && b[i] == n;
      ByIdUnique(b, i);
    }
  }

  // ---- the two searches ----

  /** Remove the nodes without open dependencies, in sorted order, until none is left. */
  method TopologicalOrder(g: TaskGraph) returns (r: Result<seq<Id>, GraphError>)
    requires Known(DependencyMap(g))
    ensures r.Success? <==> Acyclic(DependencyMap(g))
    ensures r.Success? ==> Topological(DependencyMap(g), r.value)
    ensures r.Success? ==> Order(DependencyMap(g)) == Some(r.value)
    ensures r.Failure? ==> r.error == Cycle
  {
    r := RemoveReady(DependencyMap(g));
    OrderExistsIffAcyclic(DependencyMap(g));
    if r.Success? { OrderIsTopological(DependencyMap(g)); }
  }

  /** The loop of `topological_order` over the mutable dependency dictionary. */
  method RemoveReady(whole: DepMap) returns (r: Result<seq<Id>, GraphError>)
    ensures r == match Order(whole) case Some(o) => Success(o) case None => Failure(Cycle)
  {
    var open := whole;
    var ordered: seq<Id> := [];
    assert Order(whole).Some? ==> [] + Order(whole).value == Order(whole).value;
    while open != map[]
      invariant Continues(whole, ordered, open)
      decreases |open|
    {
      var ready := Ordering.SortSet(Ready(open));
      if ready == [] {
        assert Ready(open) == {};
        return Failure(Cycle);
      }
      assert ready[0] in Ready(open);
      RemoveLayer(whole, ordered, open);
      PeelShrinks(open);
      ordered := ordered + ready;
      open := Peel(open);
    }
    assert Order(open) == Some([]);
    assert ordered + [] == ordered;
    return Success(ordered);
  }

  /** What is already ordered, followed by the order of what is open, is the order of the whole. */
  ghost predicate Continues(whole: DepMap, ordered: seq<Id>, open: DepMap) {
    match Order(open)
    case None => Order(whole).None?
    case Some(rest) => Order(whole) == Some(ordered + rest)
  }

  lemma RemoveLayer(whole: DepMap, ordered: seq<Id>, open: DepMap)
    requires Continues(whole, ordered, open) && open != map[] && Ready(open) != {}
    ensures Continues(whole, ordered + Ordering.SortSet(Ready(open)), Peel(open))
  {
    OrderUnfold(open);
    if Order(open).Some? {
      ConcatAssociative(ordered, Ordering.SortSet(Ready(open)), Order(Peel(open)).value);
    }
  }

  /** Where the search stands: everything found is a dependency, and nothing reachable is lost. */
  ghost predicate Searching(m: DepMap, from: Id, goal: Id, seen: set<Id>, pending: seq<Id>) {
    && goal !in seen
    && (forall x :: x in seen || x in pending ==> x in m && DependsOn(m, from, x))
    && (from in m && forall x :: x in m[from] ==> x in seen || x in pending)
    && (forall x, d :: x in seen && x in m && d in m[x] ==> d in seen || d in pending)
  }

  lemma PopSeen(m: DepMap, from: Id, goal: Id, seen: set<Id>, rest: seq<Id>, current: Id)
    requires Searching(m, from, goal, seen, rest + [current])
    requires current in seen
    ensures Searching(m, from, goal, seen, rest)
  {
    assert forall x :: x in rest + [current] <==> x in rest || x == current;
  }

  lemma PopNew(m: DepMap, from: Id, goal: Id, seen: set<Id>, rest: seq<Id>, current: Id, more: seq<Id>)
    requires Known(m) && Searching(m, from, goal, seen, rest + [current])
    requires current != goal && current in m && Elements(more) == m[current]
    ensures Searching(m, from, goal, seen + {current}, rest + more)
  {
    assert current in rest + [current];
    assert forall x :: x in rest + [current] <==> x in rest || x == current;
    assert forall x :: x in rest + more <==> x in rest || x in Elements(more);
    forall d | d in m[current] ensures d in m && DependsOn(m, from, d) {
      DependsOnDirect(m, current, d);
      DependsOnTransitive(m, from, current, d);
    }
  }

  lemma SearchStart(m: DepMap, from: Id, goal: Id, pending: seq<Id>)
    requires Known(m) && from in m && Elements(pending) == m[from]
    ensures Searching(m, from, goal, {}, pending)
  {
    forall x | x in pending ensures x in m && DependsOn(m, from, x) {
      assert x in Elements(pending);
      DependsOnDirect(m, from, x);
    }
    assert forall x :: x in Elements(pending) ==> x in pending;
  }

  /** Depth-first search over the dependency tuples with an explicit stack and a seen set. */
  method FindDependency(g: TaskGraph, nodeId: Id, ancestorId: Id) returns (found: bool)
    requires Known(DependencyMap(g)) && nodeId in DependencyMap(g)
    ensures found <==> DependsOn(DependencyMap(g), nodeId, ancestorId)
  {
    ghost var m := DependencyMap(g);
    var nodes := ById(g.nodes);
    var pending := nodes[nodeId].dependencies;
    var seen: set<Id> := {};
    SearchStart(m, nodeId, ancestorId, pending);
    while pending != []
      invariant Searching(m, nodeId, ancestorId, seen, pending)
      decreases m.Keys - seen, |pending|
    {
      var current := pending[|pending| - 1];
      var rest := pending[..|pending| - 1];
      assert pending == rest + [current];
      pending := rest;
      if current == ancestorId {
        return true;
      }
      if current !in seen {
        PopNew(m, nodeId, ancestorId, seen, rest, current, nodes[current].dependencies);
        seen := seen + {current};
        pending := pending + nodes[current].dependencies;
      } else {
        PopSeen(m, nodeId, ancestorId, seen, rest, current);
      }
    }
    UnreachedIsNoDependency(m, nodeId, ancestorId, seen);
    return false;
  }

  lemma UnreachedIsNoDependency(m: DepMap, a: Id, b: Id, seen: set<Id>)
    requires a in m && m[a] <= seen && b !in seen
    requires forall x, d :: x in seen && x in m && d in m[x] ==> d in seen
    ensures !DependsOn(m, a, b)
  {
    if DependsOn(m, a, b) {
      DependsOnFirstStep(m, a, b);
      var c :| c in m[a] && (c == b || DependsOn(m, c, b));
      if c != b {
        var p :| |p| >= 2 && Chain(m, p) && p[0] == c && p[|p| - 1] == b;
        ClosedUnderChains(m, seen, p);
      }
    }
  }

  // ---- validate ----

  /** The checks of `TaskGraph.validate`, in the source's order; the first failing one is reported. */
  method Validate(g: TaskGraph) returns (r: Result<(), GraphError>)
    ensures r.Success? <==> ValidGraph(g)
    ensures r.Failure? ==> ErrorFits(g, r.error)
  {
    if g.schemaVersion != 1 {
      return Failure(UnsupportedSchema(g.schemaVersion));
    }
    ByIdSize(g.nodes);
    if |ById(g.nodes)| != |g.nodes| {
      return Failure(DuplicateIds);
    }
    r := CheckDependencies(g);
    if r.Failure? {
      return;
    }
    var order := TopologicalOrder(g);
    if order.Failure? {
      return Failure(Cycle);
    }
    r := CheckConflicts(g);
  }

  method CheckDependencies(g: TaskGraph) returns (r: Result<(), GraphError>)
    requires UniqueIds(g.nodes)
    ensures r.Success? ==> Known(DependencyMap(g))
    ensures r.Failure? ==> r.error.UnknownDependencies? || r.error.SelfDependency?
    ensures r.Failure? ==> ErrorFits(g, r.error) && !(Known(DependencyMap(g)) && Acyclic(DependencyMap(g)))
  {
    for i := 0 to |g.nodes|
      invariant forall k :: 0 <= k < i ==> Elements(g.nodes[k].dependencies) <= DependencyMap(g).Keys
    {
      r := CheckNodeDependencies(g, i);
      if r.Failure? {
        return;
      }
    }
    KnownFromNodes(g);
    return Success(());
  }

  method CheckNodeDependencies(g: TaskGraph, i: nat) returns (r: Result<(), GraphError>)
    requires UniqueIds(g.nodes) && i < |g.nodes|
    ensures r.Success? ==> Elements(g.nodes[i].dependencies) <= DependencyMap(g).Keys
    ensures r.Failure? ==> r.error.UnknownDependencies? || r.error.SelfDependency?
    ensures r.Failure? ==> ErrorFits(g, r.error) && !(Known(DependencyMap(g)) && Acyclic(DependencyMap(g)))
  {
    var node := g.nodes[i];
    ByIdUnique(g.nodes, i);
    ghost var m := DependencyMap(g);
    assert m[node.nodeId] == Elements(node.dependencies);
    if !(Elements(node.dependencies) <= ById(g.nodes).Keys) {
      return Failure(UnknownDependencies(node.nodeId));
    }
    assert Elements(node.dependencies) <= m.Keys;
    if node.nodeId in node.dependencies {
      assert node.nodeId in m[node.nodeId];
      DependsOnDirect(m, node.nodeId, node.nodeId);
      return Failure(SelfDependency(node.nodeId));
    }
    return Success(());
  }

  ghost predicate RowOrdered(g: TaskGraph, i: int)
    requires 0 <= i < |g.nodes|
  {
    forall j :: i < j < |g.nodes| ==> PairOrdered(g, i, j)
  }

  method CheckConflicts(g: TaskGraph) returns (r: Result<(), GraphError>)
    requires Known(DependencyMap(g)) && Acyclic(DependencyMap(g))
    ensures r.Success? <==> ConflictsOrdered(g)
    ensures r.Failure? ==> r.error.WriteConflict? && UnorderedConflict(g, r.error.left, r.error.right)
  {
    for i := 0 to |g.nodes|
      invariant RowsUpTo(g, i)
    {
      var row := CheckRow(g, i);
      if row.Failure? {
        return row;
      }
      NextRow(g, i);
    }
    RowsOrdered(g);
    return Success(());
  }

  ghost predicate RowsUpTo(g: TaskGraph, n: int)
    requires n <= |g.nodes|
  {
    forall a :: 0 <= a < n ==> RowOrdered(g, a)
  }

  lemma NextRow(g: TaskGraph, n: nat)
    requires n < |g.nodes| && RowsUpTo(g, n) && RowOrdered(g, n)
    ensures RowsUpTo(g, n + 1)
  {
  }

  lemma RowsOrdered(g: TaskGraph)
    requires RowsUpTo(g, |g.nodes|)
    ensures ConflictsOrdered(g)
  {
    forall i, j | 0 <= i < j < |g.nodes| ensures PairOrdered(g, i, j) {
      assert RowOrdered(g, i);
    }
  }

  method CheckRow(g: TaskGraph, i: nat) returns (r: Result<(), GraphError>)
    requires Known(DependencyMap(g)) && i < |g.nodes|
    ensures r.Success? ==> RowOrdered(g, i)
    ensures r.Failure? ==> !ConflictsOrdered(g)
    ensures r.Failure? ==> r.error.WriteConflict? && UnorderedConflict(g, r.error.left, r.error.right)
  {
    hide PairOrdered, UnorderedConflict, ConflictsOrdered, Known;
    for j := i + 1 to |g.nodes|
      invariant forall b :: i < b < j ==> PairOrdered(g, i, b)
    {
      var ordered := CheckPair(g, i, j);
      if !ordered {
        PairRefuted(g, i, j);
        return Failure(WriteConflict(g.nodes[i].nodeId, g.nodes[j].nodeId));
      }
    }
    return Success(());
  }

  lemma PairRefuted(g: TaskGraph, i: nat, j: nat)
    requires i < j < |g.nodes| && !PairOrdered(g, i, j)
    ensures !ConflictsOrdered(g) && UnorderedConflict(g, g.nodes[i].nodeId, g.nodes[j].nodeId)
  {
    hide ClaimsOverlap, Ordered;
  }

  method CheckPair(g: TaskGraph, i: nat, j: nat) returns (ordered: bool)
    requires Known(DependencyMap(g)) && i < j < |g.nodes|
    ensures ordered <==> PairOrdered(g, i, j)
  {
    var left, right := g.nodes[i], g.nodes[j];
    assert left in g.nodes && right in g.nodes;
    if left.Edits() && right.Edits() && ClaimsOverlap(left.writePaths, right.writePaths) {
      ordered := FindDependency(g, left.nodeId, right.nodeId);
      if !ordered {
        ordered := FindDependency(g, right.nodeId, left.nodeId);
      }
    } else {
      ordered := true;
    }
  }

  ghost predicate ErrorFits(g: TaskGraph, e: GraphError) {
    match e
    case UnsupportedSchema(v) => v == g.schemaVersion != 1
    case DuplicateIds => !UniqueIds(g.nodes)
    case UnknownDependencies(n) => UniqueIds(g.nodes) && n in DependencyMap(g)
        && !(DependencyMap(g)[n] <= DependencyMap(g).Keys)
    case SelfDependency(n) => UniqueIds(g.nodes) && n in DependencyMap(g) && n in DependencyMap(g)[n]
    case Cycle => UniqueIds(g.nodes) && Known(DependencyMap(g)) && !Acyclic(DependencyMap(g))
    case WriteConflict(a, b) => Acyclic(DependencyMap(g)) && UnorderedConflict(g, a, b)
  }

  ghost predicate UnorderedConflict(g: TaskGraph, a: Id, b: Id) {
    exists i, j :: 0 <= i < j < |g.nodes| && g.nodes[i].nodeId == a && g.nodes[j].nodeId == b
      && ClaimsOverlap(g.nodes[i].writePaths, g.nodes[j].writePaths) && !Ordered(g, a, b)
  }

  lemma KnownFromNodes(g: TaskGraph)
    requires forall k :: 0 <= k < |g.nodes| ==> Elements(g.nodes[k].dependencies) <= DependencyMap(g).Keys
    ensures Known(DependencyMap(g))
  {
    var m := DependencyMap(g);
    forall id | id in m ensures m[id] <= m.Keys {
      var n := ById(g.nodes)[id];
      var k :| 0 <= k < |g.nodes| && g.nodes[k] == n;
    }
  }

  // ---- revisions ----

  /** A collision-free hash is the value it was computed from. */
  datatype RevisionHash = RevisionHash(revision: int, parentHash: Option<RevisionHash>, reason: string,
                                       graph: TaskGraph)

  datatype GraphRevision = GraphRevision(revision: int, graph: TaskGraph, parentHash: Option<RevisionHash>,
                                         reason: string) {
    function Hash(): RevisionHash {
      RevisionHash(revision, parentHash, reason, graph)
    }

    /** Built only with a parent exactly when it is not the first. */
    predicate WellFormed() {
      revision >= 1 && (revision == 1 <==> parentHash.None?)
    }

    function Revise(next: TaskGraph, why: string): (r: GraphRevision)
      requires WellFormed()
      ensures r.WellFormed() && r.revision == revision + 1 && r.parentHash == Some(Hash()) && r.graph == next
    {
      GraphRevision(revision + 1, next, Some(Hash()), why)
    }
  }
}
