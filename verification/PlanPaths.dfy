/** The search graph of the planner: edges, feasible paths, their exact cost and
    the order that selects among them. */
module PlanPaths {
  import opened WideArithmetic
  import opened Placement
  import opened Text
  import opened WorkerKeys
  import Execution

  datatype RangeEstimate = RangeEstimate(layerStart: int, layerEnd: int, estimate: StageCostEstimate)

  datatype ConstructionRequest = ConstructionRequest(
    model: Execution.Model, scoring: ScoringRequest, terminalResponseMode: Execution.ResponseMode,
    maxStages: int, maxSearchOperations: uint64, ranges: seq<RangeEstimate>)

  /** One range assigned to one eligible worker. */
  datatype Edge = Edge(range: RangeEstimate, charge: StageCharge) {
    function Target(): string { charge.worker.ID() }
  }

  /** Eligible edges, one list per requested range. */
  type Graph = seq<seq<Edge>>

  type Path = seq<Edge>

  // ---------------------------------------------------------------------------
  // Stages of a path

  function StageAt(request: ConstructionRequest, i: nat, edge: Edge): Execution.Stage {
    var ownsOutput := edge.range.layerEnd == request.model.layerCount;
    Execution.Stage("stage-" + Decimal(i), edge.Target(), "", edge.range.layerStart, edge.range.layerEnd,
      edge.range.layerStart == 0, ownsOutput, if ownsOutput then request.terminalResponseMode else Execution.Tensor)
  }

  function StagesOf(request: ConstructionRequest, path: Path): (stages: seq<Execution.Stage>)
    ensures |stages| == |path| && forall i :: 0 <= i < |path| ==> stages[i] == StageAt(request, i, path[i])
  {
    seq(|path|, i requires 0 <= i < |path| => StageAt(request, i, path[i]))
  }

  function TargetsOf(path: Path): (ids: seq<string>)
    ensures |ids| == |path| && forall i :: 0 <= i < |path| ==> ids[i] == path[i].Target()
  {
    seq(|path|, i requires 0 <= i < |path| => path[i].Target())
  }

  function End(path: Path): int {
    if path == [] then 0 else path[|path| - 1].range.layerEnd
  }

  // ---------------------------------------------------------------------------
  // Exact cost

  /** The fields that decide between plans, in order of importance, as exact numbers. */
  datatype Cost = Cost(estimated: int, failures: int, pressure: int, newLoad: int, required: int, restarts: int, stages: int)

  const NO_COST := Cost(0, 0, 0, 0, 0, 0, 0)

  function EdgeCost(edge: Edge): Cost {
    var c := edge.charge;
    var status := c.worker.Status();
    Cost(c.compute.totalMicros + c.transfer.totalMicros, status.recentFailureCount, status.memoryPressureBytes,
         if c.candidate.reusesRetainedShard then 0 else c.estimate.loadMemoryBytes,
         c.candidate.requiredAdditionalMemoryBytes, status.restartCount, 1)
  }

  function Plus(a: Cost, b: Cost): Cost {
    Cost(a.estimated + b.estimated, a.failures + b.failures, a.pressure + b.pressure, a.newLoad + b.newLoad,
         a.required + b.required, a.restarts + b.restarts, a.stages + b.stages)
  }

  function CostOf(path: Path): Cost {
    if path == [] then NO_COST else Plus(CostOf(path[..|path| - 1]), EdgeCost(path[|path| - 1]))
  }

  lemma {:induction false} CostCountsStages(path: Path)
    ensures CostOf(path).stages == |path|
  {
    if path != [] { CostCountsStages(path[..|path| - 1]); }
  }

  function CompareCosts(a: Cost, b: Cost): (order: int)
    ensures order in {-1, 0, 1} && (order == 0 <==> a == b)
  {
    Then(CompareInts(a.estimated, b.estimated),
    Then(CompareInts(a.failures, b.failures),
    Then(CompareInts(a.pressure, b.pressure),
    Then(CompareInts(a.newLoad, b.newLoad),
    Then(CompareInts(a.required, b.required),
    Then(CompareInts(a.restarts, b.restarts),
         CompareInts(a.stages, b.stages)))))))
  }

  lemma CompareCostsShifts(a: Cost, b: Cost, c: Cost)
    ensures CompareCosts(Plus(a, c), Plus(b, c)) == CompareCosts(a, b)
  {
  }

  lemma CompareCostsOrder(a: Cost, b: Cost, c: Cost)
    ensures CompareCosts(a, b) == -CompareCosts(b, a)
    ensures CompareCosts(a, b) <= 0 && CompareCosts(b, c) <= 0 ==> CompareCosts(a, c) <= 0
  {
  }

  // ---------------------------------------------------------------------------
  // Identity order

  lemma StageIdentityOrder(a: Execution.Stage, b: Execution.Stage, c: Execution.Stage)
    ensures CompareStageIdentity(a, b) in {-1, 0, 1}
    ensures CompareStageIdentity(a, b) == -CompareStageIdentity(b, a)
    ensures CompareStageIdentity(a, b) <= 0 && CompareStageIdentity(b, c) <= 0 ==> CompareStageIdentity(a, c) <= 0
    ensures a == b ==> CompareStageIdentity(a, b) == 0
    ensures CompareStageIdentity(a, b) == 0 ==>
              a.targetID == b.targetID && a.layerStart == b.layerStart && a.layerEnd == b.layerEnd
  {
    CompareStringsFlips(a.name, b.name);
    CompareStringsFlips(a.targetID, b.targetID);
    CompareStringsFlips(a.responseMode.Text(), b.responseMode.Text());
    CompareStringsFlips(a.shardID, b.shardID);
    if CompareStageIdentity(a, b) <= 0 && CompareStageIdentity(b, c) <= 0 { StageIdentityTransitive(a, b, c); }
  }

  lemma Chain(a: string, b: string, c: string)
    ensures CompareStrings(a, b) <= 0 && CompareStrings(b, c) <= 0 ==> CompareStrings(a, c) <= 0
    ensures CompareStrings(a, b) < 0 && CompareStrings(b, c) <= 0 ==> CompareStrings(a, c) < 0
    ensures CompareStrings(a, b) <= 0 && CompareStrings(b, c) < 0 ==> CompareStrings(a, c) < 0
  {
    if CompareStrings(a, b) <= 0 && CompareStrings(b, c) <= 0 {
      CompareStringsTransitive(a, b, c);
      CompareStringsFlips(a, b);
    }
  }

  lemma StageIdentityTransitive(a: Execution.Stage, b: Execution.Stage, c: Execution.Stage)
    requires CompareStageIdentity(a, b) <= 0 && CompareStageIdentity(b, c) <= 0
    ensures CompareStageIdentity(a, c) <= 0
  {
    Chain(a.name, b.name, c.name);
    Chain(a.targetID, b.targetID, c.targetID);
    Chain(a.responseMode.Text(), b.responseMode.Text(), c.responseMode.Text());
    Chain(a.shardID, b.shardID, c.shardID);
  }

  lemma {:induction false} StageListsOrder(a: seq<Execution.Stage>, b: seq<Execution.Stage>, c: seq<Execution.Stage>)
    requires |a| == |b| == |c|
    ensures CompareStageLists(a, b) in {-1, 0, 1}
    ensures CompareStageLists(a, b) == -CompareStageLists(b, a)
    ensures CompareStageLists(a, b) <= 0 && CompareStageLists(b, c) <= 0 ==> CompareStageLists(a, c) <= 0
  {
    if a != [] {
      StageListsOrder(a[1..], b[1..], c[1..]);
      StageIdentityOrder(a[0], b[0], c[0]);
      StageIdentityOrder(c[0], b[0], a[0]);
      StageIdentityOrder(b[0], c[0], a[0]);
      StageIdentityOrder(a[0], c[0], b[0]);
      StageIdentityOrder(c[0], a[0], b[0]);
    }
  }

  /** Appending the same stage to both lists leaves their order alone. */
  lemma {:induction false} StageListsExtend(a: seq<Execution.Stage>, b: seq<Execution.Stage>, s: Execution.Stage)
    requires |a| == |b|
    ensures CompareStageLists(a + [s], b + [s]) == CompareStageLists(a, b)
  {
    if a == [] {
      StageIdentityOrder(s, s, s);
      assert CompareStageLists(([s])[1..], ([s])[1..]) == 0;
      assert a + [s] == [s] && b + [s] == [s];
    } else {
      assert (a + [s])[1..] == a[1..] + [s] && (b + [s])[1..] == b[1..] + [s];
      StageListsExtend(a[1..], b[1..], s);
    }
  }

  lemma {:induction false} StageListsTie(a: seq<Execution.Stage>, b: seq<Execution.Stage>, i: nat)
    requires |a| == |b| && i < |a| && CompareStageLists(a, b) == 0
    ensures a[i].targetID == b[i].targetID && a[i].layerStart == b[i].layerStart && a[i].layerEnd == b[i].layerEnd
  {
    StageIdentityOrder(a[0], b[0], b[0]);
    if i > 0 { StageListsTie(a[1..], b[1..], i - 1); }
  }

  // ---------------------------------------------------------------------------
  // The order on paths

  function ComparePaths(request: ConstructionRequest, p: Path, q: Path): (order: int) {
    if |p| != |q| then CompareCosts(CostOf(p), CostOf(q))
    else Then(CompareCosts(CostOf(p), CostOf(q)), CompareStageLists(StagesOf(request, p), StagesOf(request, q)))
  }

  lemma PathsFlip(request: ConstructionRequest, p: Path, q: Path)
    ensures ComparePaths(request, p, q) == -ComparePaths(request, q, p)
  {
    CompareCostsOrder(CostOf(p), CostOf(q), CostOf(q));
    if |p| == |q| { StageListsOrder(StagesOf(request, p), StagesOf(request, q), StagesOf(request, q)); }
  }

  lemma PathsTransitive(request: ConstructionRequest, p: Path, q: Path, r: Path)
    requires ComparePaths(request, p, q) <= 0 && ComparePaths(request, q, r) <= 0
    ensures ComparePaths(request, p, r) <= 0
  {
    CostCountsStages(p);
    CostCountsStages(q);
    CostCountsStages(r);
    CompareCostsOrder(CostOf(p), CostOf(q), CostOf(r));
    CompareCostsOrder(CostOf(r), CostOf(p), CostOf(q));
    CompareCostsOrder(CostOf(q), CostOf(r), CostOf(p));
    CompareCostsOrder(CostOf(p), CostOf(r), CostOf(q));
    if |p| == |q| == |r| {
      StageListsOrder(StagesOf(request, p), StagesOf(request, q), StagesOf(request, r));
    }
  }

  lemma PathsReflexive(request: ConstructionRequest, p: Path)
    ensures ComparePaths(request, p, p) == 0
  {
    PathsFlip(request, p, p);
  }

  /** The exchange step of the dynamic program: extending two equally long paths by
      the same edge keeps their order. */
  lemma PathsExtend(request: ConstructionRequest, p: Path, q: Path, edge: Edge)
    requires |p| == |q|
    ensures ComparePaths(request, p + [edge], q + [edge]) == ComparePaths(request, p, q)
  {
    assert (p + [edge])[..|p|] == p && (q + [edge])[..|q|] == q;
    CompareCostsShifts(CostOf(p), CostOf(q), EdgeCost(edge));
    var s := StageAt(request, |p|, edge);
    assert StagesOf(request, p + [edge]) == StagesOf(request, p) + [s];
    assert StagesOf(request, q + [edge]) == StagesOf(request, q) + [s];
    StageListsExtend(StagesOf(request, p), StagesOf(request, q), s);
  }

  // ---------------------------------------------------------------------------
  // Feasible paths

  ghost predicate InGraph(graph: Graph, edge: Edge) {
    exists r, o :: 0 <= r < |graph| && 0 <= o < |graph[r]| && graph[r][o] == edge
  }

  ghost predicate Chained(path: Path) {
    && (path != [] ==> path[0].range.layerStart == 0)
    && (forall i :: 0 < i < |path| ==> path[i].range.layerStart == path[i - 1].range.layerEnd)
  }

  /** A start of a plan: contiguous from layer 0 over distinct eligible workers. */
  ghost predicate Partial(graph: Graph, path: Path) {
    && (forall i :: 0 <= i < |path| ==> InGraph(graph, path[i]))
    && Chained(path)
    && Distinct(TargetsOf(path))
  }

  /** A feasible plan: it covers all layers within the stage bound. */
  ghost predicate Feasible(request: ConstructionRequest, graph: Graph, path: Path) {
    && 1 <= |path| <= request.maxStages
    && Partial(graph, path)
    && End(path) == request.model.layerCount
  }

  /** What the normalized request and the evaluated ranges guarantee of a graph. */
  ghost predicate GraphOK(request: ConstructionRequest, graph: Graph) {
    && request.model.layerCount > 0
    && |graph| == |request.ranges|
    && (forall r, o :: 0 <= r < |graph| && 0 <= o < |graph[r]| ==>
          && graph[r][o].range == request.ranges[r]
          && ValidID(graph[r][o].Target()))
    && (forall r :: 0 <= r < |graph| ==>
          0 <= request.ranges[r].layerStart < request.ranges[r].layerEnd <= request.model.layerCount)
  }

  lemma PartialPrefix(graph: Graph, path: Path)
    requires path != [] && Partial(graph, path)
    ensures Partial(graph, path[..|path| - 1])
    ensures path[|path| - 1].range.layerStart == End(path[..|path| - 1])
    ensures path[|path| - 1].Target() !in TargetsOf(path[..|path| - 1])
  {
    var front := path[..|path| - 1];
    assert TargetsOf(front) == TargetsOf(path)[..|front|];
    forall i, j | 0 <= i < j < |front| ensures TargetsOf(front)[i] != TargetsOf(front)[j] {
      assert TargetsOf(path)[i] != TargetsOf(path)[j];
    }
    forall i | 0 <= i < |front| ensures TargetsOf(front)[i] != path[|path| - 1].Target() {
      assert TargetsOf(path)[i] != TargetsOf(path)[|path| - 1];
    }
  }

  lemma PartialExtends(graph: Graph, path: Path, edge: Edge)
    requires Partial(graph, path) && InGraph(graph, edge)
    requires edge.range.layerStart == End(path) && edge.Target() !in TargetsOf(path)
    ensures Partial(graph, path + [edge])
  {
    var next := path + [edge];
    assert TargetsOf(next) == TargetsOf(path) + [edge.Target()];
    forall i, j | 0 <= i < j < |next| ensures TargetsOf(next)[i] != TargetsOf(next)[j] {
      if j == |path| { assert TargetsOf(path)[i] in TargetsOf(path); }
      else { assert TargetsOf(path)[i] != TargetsOf(path)[j]; }
    }
  }

  lemma TargetsValid(request: ConstructionRequest, graph: Graph, path: Path)
    requires GraphOK(request, graph) && Partial(graph, path)
    ensures forall x :: x in TargetsOf(path) ==> ValidID(x)
  {
    forall x | x in TargetsOf(path) ensures ValidID(x) {
      var i :| 0 <= i < |path| && TargetsOf(path)[i] == x;
      assert InGraph(graph, path[i]);
    }
  }

  predicate SameSlot(e: Edge, f: Edge) {
    && e.Target() == f.Target()
    && e.range.layerStart == f.range.layerStart && e.range.layerEnd == f.range.layerEnd
  }

  /** Ties are identical plans when an edge is determined by its range and worker. */
  ghost predicate EdgesDetermined(graph: Graph) {
    forall e, f :: InGraph(graph, e) && InGraph(graph, f) && SameSlot(e, f) ==> e == f
  }

  lemma TieIsEqual(request: ConstructionRequest, graph: Graph, p: Path, q: Path)
    requires EdgesDetermined(graph) && Partial(graph, p) && Partial(graph, q) && ComparePaths(request, p, q) == 0
    ensures p == q
  {
    hide CompareStageLists, CostOf, EdgeCost;
    assert |p| == |q| by {
      CostCountsStages(p);
      CostCountsStages(q);
    }
    forall i | 0 <= i < |p| ensures p[i] == q[i] {
      StageListsTie(StagesOf(request, p), StagesOf(request, q), i);
      assert InGraph(graph, p[i]) && InGraph(graph, q[i]) && SameSlot(p[i], q[i]);
    }
  }
}
