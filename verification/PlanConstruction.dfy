/** Plan construction: normalization, range evaluation, the search, and what its
    selection means. */
module PlanConstruction {
  import opened WideArithmetic
  import opened Membership
  import opened Placement
  import opened Text
  import opened WorkerKeys
  import opened PlanScoring
  import opened PlanPaths
  import opened PlanOptions
  import opened CompletePlans
  import opened PlanSearch
  import Execution

  const DEFAULT_MAX_PLAN_STAGES := 5
  const DEFAULT_MAX_SEARCH_OPERATIONS: uint64 := 100_000

  // ---------------------------------------------------------------------------
  // Normalization

  predicate RangeBefore(a: RangeEstimate, b: RangeEstimate) {
    a.layerStart < b.layerStart || (a.layerStart == b.layerStart && a.layerEnd <= b.layerEnd)
  }

  function InsertRange(range: RangeEstimate, sorted: seq<RangeEstimate>): seq<RangeEstimate> {
    if sorted == [] || RangeBefore(range, sorted[0]) then [range] + sorted
    else [sorted[0]] + InsertRange(range, sorted[1..])
  }

  function SortRanges(ranges: seq<RangeEstimate>): seq<RangeEstimate> {
    if ranges == [] then [] else InsertRange(ranges[0], SortRanges(ranges[1..]))
  }

  ghost predicate RangesSorted(ranges: seq<RangeEstimate>) {
    forall i, j :: 0 <= i < j < |ranges| ==> RangeBefore(ranges[i], ranges[j])
  }

  lemma {:induction false} InsertRangeSorts(range: RangeEstimate, sorted: seq<RangeEstimate>)
    requires RangesSorted(sorted)
    ensures RangesSorted(InsertRange(range, sorted))
    ensures multiset(InsertRange(range, sorted)) == multiset(sorted) + multiset{range}
  {
    if sorted != [] {
      assert sorted == [sorted[0]] + sorted[1..];
      if !RangeBefore(range, sorted[0]) {
        var rest := InsertRange(range, sorted[1..]);
        InsertRangeSorts(range, sorted[1..]);
        forall x | x in rest ensures RangeBefore(sorted[0], x) {
          assert x in multiset(rest);
          if x != range { assert x in sorted[1..]; }
        }
      }
    }
  }

  lemma {:induction false} SortRangesSorts(ranges: seq<RangeEstimate>)
    ensures RangesSorted(SortRanges(ranges)) && multiset(SortRanges(ranges)) == multiset(ranges)
  {
    if ranges != [] {
      SortRangesSorts(ranges[1..]);
      InsertRangeSorts(ranges[0], SortRanges(ranges[1..]));
      assert ranges == [ranges[0]] + ranges[1..];
    }
  }

  /** Defaults filled in and ranges put in order. */
  function Normalize(request: ConstructionRequest): ConstructionRequest {
    var defaultStages :=
      if 0 < request.model.layerCount < DEFAULT_MAX_PLAN_STAGES then request.model.layerCount else DEFAULT_MAX_PLAN_STAGES;
    request.(
      maxStages := if request.maxStages == 0 then defaultStages else request.maxStages,
      maxSearchOperations :=
        if request.maxSearchOperations == 0 then DEFAULT_MAX_SEARCH_OPERATIONS else request.maxSearchOperations,
      ranges := SortRanges(request.ranges))
  }

  predicate SameRange(a: RangeEstimate, b: RangeEstimate) {
    a.layerStart == b.layerStart && a.layerEnd == b.layerEnd
  }

  predicate RangeValid(request: ConstructionRequest, range: RangeEstimate) {
    && 0 <= range.layerStart < range.layerEnd <= request.model.layerCount
    && EstimateValid(range.estimate, request.scoring.decodeSteps)
  }

  /** Comparing each sorted range with the one before it finds every duplicate. */
  method ValidateRanges(request: ConstructionRequest) returns (valid: bool)
    requires RangesSorted(request.ranges)
    ensures valid <==> RangesValid(request)
  {
    hide EstimateValid;
    for index := 0 to |request.ranges|
      invariant forall i :: 0 <= i < index ==> RangeValid(request, request.ranges[i])
      invariant forall i, j :: 0 <= i < j < index ==> !SameRange(request.ranges[i], request.ranges[j])
    {
      if !RangeValid(request, request.ranges[index]) { return false; }
      if index > 0 && SameRange(request.ranges[index - 1], request.ranges[index]) { return false; }
      forall i | 0 <= i < index ensures !SameRange(request.ranges[i], request.ranges[index]) {
        if i < index - 1 {
          assert RangeBefore(request.ranges[i], request.ranges[index - 1]);
          assert RangeBefore(request.ranges[index - 1], request.ranges[index]);
        }
      }
    }
    assert forall i :: 0 <= i < |request.ranges| ==> RangeValid(request, request.ranges[i]);
    assert forall i, j :: 0 <= i < j < |request.ranges| ==> !SameRange(request.ranges[i], request.ranges[j]);
    return true;
  }

  // ---------------------------------------------------------------------------
  // Range evaluation

  /** Some range cannot be scored on some worker. */
  ghost predicate Unscorable(inventory: Inventory, profile: ProfileSnapshot, request: ConstructionRequest) {
    exists range, worker :: range in request.ranges && worker in inventory.workers
      && EdgeFor(inventory, profile, request, range, worker) == Err(CostOverflow)
  }

  lemma RangeRequirementValid(inventory: Inventory, profile: ProfileSnapshot, request: ConstructionRequest, range: RangeEstimate)
    requires RequestValid(inventory, profile, request) && range in request.ranges
    ensures RequirementValid(RangeRequirement(request, range))
  {
    var i :| 0 <= i < |request.ranges| && request.ranges[i] == range;
  }

  lemma EdgeErrors(inventory: Inventory, profile: ProfileSnapshot, request: ConstructionRequest, range: RangeEstimate, worker: Worker)
    requires RequirementValid(RangeRequirement(request, range))
    requires EdgeFor(inventory, profile, request, range, worker).Err?
    ensures EdgeFor(inventory, profile, request, range, worker) == Err(CostOverflow)
  {
    hide CandidateOf, RequirementValid;
  }

  ghost predicate IsOptionOf(inventory: Inventory, profile: ProfileSnapshot, request: ConstructionRequest, range: RangeEstimate, edge: Edge) {
    && edge.range == range && edge.charge.worker in inventory.workers
    && EdgeFor(inventory, profile, request, range, edge.charge.worker) == Ok(Some(edge))
  }

  /** The eligible options of one range. */
  method PreparePlanRange(inventory: Inventory, profile: ProfileSnapshot, request: ConstructionRequest, range: RangeEstimate)
    returns (r: Result<seq<Edge>, ScoreError>)
    requires RequestValid(inventory, profile, request) && range in request.ranges
    ensures r.Err? ==> r.error == CostOverflow && Unscorable(inventory, profile, request)
    ensures r.Ok? ==> forall edge :: edge in r.value <==> IsOptionOf(inventory, profile, request, range, edge)
  {
    RangeRequirementValid(inventory, profile, request, range);
    hide EdgeFor, RequestValid;
    var options: seq<Edge> := [];
    for index := 0 to |inventory.workers|
      invariant forall edge :: edge in options <==>
                  IsOptionOf(inventory, profile, request, range, edge) && edge.charge.worker in inventory.workers[..index]
    {
      var worker := inventory.workers[index];
      var edge := EdgeFor(inventory, profile, request, range, worker);
      assert inventory.workers[..index + 1] == inventory.workers[..index] + [worker];
      if edge.Err? {
        EdgeErrors(inventory, profile, request, range, worker);
        return Err(edge.error);
      }
      if edge.value.Some? {
        options := options + [edge.value.value];
      }
    }
    assert inventory.workers[..|inventory.workers|] == inventory.workers;
    return Ok(options);
  }

  // ---------------------------------------------------------------------------
  // Complete plans

  /** Builds, scores and cross-checks a finished path.  The contract says that the
      builder never refuses it and that the cross-check never fails. */
  method EvaluateCompletePlan(inventory: Inventory, profile: ProfileSnapshot, request: ConstructionRequest, candidate: PartialPlan)
    returns (r: Result<PlanEvaluation, ScoreError>)
    requires RequestValid(inventory, profile, request) && RegisteredIDs(inventory)
    requires FeasiblePlan(inventory, profile, request, candidate.picks) && Fold(candidate.picks) == Ok(candidate.score)
    ensures r == Ok(EvaluationOf(inventory, request, candidate.picks))
  {
    hide RequestValid, FeasiblePlan, ScoreOf, Fold, RegisteredIDs, Execution.ValidPlan, EvidenceOf;
    FeasiblePlanIsValid(inventory, profile, request, candidate.picks);
    FullScoreAgrees(inventory, profile, request, candidate.picks);
    var built := Execution.BuildExecutionPlan(request.model, Decimal(inventory.revision), StagesOf(request, candidate.picks));
    if built.Err? {
      r := Err(Malformed);
    } else {
      var scored := ScorePlan(inventory, profile, built.value, FullRequest(request, candidate.picks));
      if scored.Ok? && (!scored.value.eligible || scored.value.score != candidate.score) {
        r := Err(ScoreDisagrees);
      } else {
        r := scored;
      }
    }
  }

  // ---------------------------------------------------------------------------
  // Selection

  /** The graph holds exactly the options of the request. */
  ghost predicate GraphOf(inventory: Inventory, profile: ProfileSnapshot, request: ConstructionRequest, graph: Graph) {
    GraphOK(request, graph) && forall edge :: InGraph(graph, edge) <==> IsOption(inventory, profile, request, edge)
  }

  lemma FeasibleInGraph(inventory: Inventory, profile: ProfileSnapshot, request: ConstructionRequest, graph: Graph, path: Path)
    requires GraphOf(inventory, profile, request, graph)
    ensures FeasiblePlan(inventory, profile, request, path) <==> Feasible(request, graph, path)
  {
    hide GraphOK, InGraph, IsOption, Chained, Distinct;
  }

  /** The selected evaluation is that of the chosen path. */
  ghost predicate Chosen(inventory: Inventory, profile: ProfileSnapshot, request: ConstructionRequest,
                         selected: Option<PlanEvaluation>, best: Option<Path>) {
    match best
    case None => selected.None?
    case Some(path) =>
      && FeasiblePlan(inventory, profile, request, path) && Fold(path).Ok?
      && selected == Some(EvaluationOf(inventory, request, path))
  }

  ghost predicate NoWorse(request: ConstructionRequest, best: Option<Path>, path: Path) {
    best.Some? && ComparePaths(request, best.value, path) <= 0
  }

  ghost predicate CompleteEntry(inventory: Inventory, profile: ProfileSnapshot, request: ConstructionRequest, state: PartialPlan) {
    FeasiblePlan(inventory, profile, request, state.picks) && Fold(state.picks) == Ok(state.score)
  }

  lemma BetterIsNoWorse(request: ConstructionRequest, best: Option<Path>, better: Path)
    requires best.Some? ==> ComparePaths(request, better, best.value) <= 0
    ensures forall path :: NoWorse(request, best, path) ==> NoWorse(request, Some(better), path)
    ensures NoWorse(request, Some(better), better)
  {
    hide ComparePaths;
    PathsReflexive(request, better);
    forall path | NoWorse(request, best, path) ensures NoWorse(request, Some(better), path) {
      PathsTransitive(request, better, best.value, path);
    }
  }

  /** Evaluates every complete state of a level, in any order, and keeps the best. */
  method SelectComplete(inventory: Inventory, profile: ProfileSnapshot, request: ConstructionRequest, complete: States,
                        selected: Option<PlanEvaluation>, ghost best: Option<Path>)
    returns (now: Option<PlanEvaluation>, ghost nowBest: Option<Path>)
    requires RequestValid(inventory, profile, request) && RegisteredIDs(inventory)
    requires forall key :: key in complete ==> CompleteEntry(inventory, profile, request, complete[key])
    requires Chosen(inventory, profile, request, selected, best)
    ensures Chosen(inventory, profile, request, now, nowBest)
    ensures forall path :: NoWorse(request, best, path) ==> NoWorse(request, nowBest, path)
    ensures forall key :: key in complete ==> NoWorse(request, nowBest, complete[key].picks)
    ensures now.Some? <==> selected.Some? || complete != map[]
  {
    hide RequestValid, RegisteredIDs, FeasiblePlan, Fold, EvaluationOf, ComparePaths, ComparePlanEvaluations;
    now, nowBest := selected, best;
    var todo := complete.Keys;
    while todo != {}
      invariant todo <= complete.Keys && Chosen(inventory, profile, request, now, nowBest)
      invariant forall path :: NoWorse(request, best, path) ==> NoWorse(request, nowBest, path)
      invariant forall key :: key in complete && key !in todo ==> NoWorse(request, nowBest, complete[key].picks)
      invariant now.Some? <==> selected.Some? || todo != complete.Keys
      decreases todo
    {
      var key :| key in todo;
      var candidate := complete[key];
      assert CompleteEntry(inventory, profile, request, candidate);
      var evaluation := EvaluateCompletePlan(inventory, profile, request, candidate);
      if nowBest.Some? {
        EvaluationsCompareAsPaths(inventory, request, candidate.picks, nowBest.value);
        PathsFlip(request, candidate.picks, nowBest.value);
      }
      if now.None? || ComparePlanEvaluations(evaluation.value, now.value) < 0 {
        BetterIsNoWorse(request, nowBest, candidate.picks);
        now, nowBest := Some(evaluation.value), Some(candidate.picks);
      }
      todo := todo - {key};
    }
  }

  /** The one plan that beats all others, and none when there is no plan. */
  ghost predicate UniqueBest(inventory: Inventory, profile: ProfileSnapshot, request: ConstructionRequest, path: Path) {
    && FeasiblePlan(inventory, profile, request, path)
    && forall q :: FeasiblePlan(inventory, profile, request, q) && q != path ==> ComparePaths(request, path, q) < 0
  }

  ghost predicate Optimal(inventory: Inventory, profile: ProfileSnapshot, request: ConstructionRequest,
                          selected: Option<PlanEvaluation>) {
    match selected
    case None => forall path :: !FeasiblePlan(inventory, profile, request, path)
    case Some(evaluation) =>
      exists path :: UniqueBest(inventory, profile, request, path) && Fold(path).Ok?
                     && evaluation == EvaluationOf(inventory, request, path)
  }

  ghost predicate AnyFits(inventory: Inventory, profile: ProfileSnapshot, request: ConstructionRequest, path: Path) {
    && |path| <= request.maxStages && AllOptions(inventory, profile, request, path)
    && Chained(path) && Distinct(TargetsOf(path))
  }

  /** Some start of a plan within the stage bound has a cost that does not fit 64 bits. */
  ghost predicate SomePathTooLarge(inventory: Inventory, profile: ProfileSnapshot, request: ConstructionRequest) {
    exists path :: AnyFits(inventory, profile, request, path) && !Fits(path)
  }

  lemma TooLargeInGraph(inventory: Inventory, profile: ProfileSnapshot, request: ConstructionRequest, graph: Graph, n: nat)
    requires GraphOf(inventory, profile, request, graph) && n <= request.maxStages && TooLarge(graph, n)
    ensures SomePathTooLarge(inventory, profile, request)
  {
    hide GraphOK, InGraph, IsOption, Chained, Distinct, Fits;
    var path :| |path| == n && Partial(graph, path) && !Fits(path);
    assert AnyFits(inventory, profile, request, path);
  }

  lemma {:induction false} PrefixIsLive(request: ConstructionRequest, graph: Graph, path: Path, m: nat)
    requires GraphOK(request, graph) && Partial(graph, path) && m < |path|
    ensures LivePath(request, graph, path[..m], m)
  {
    hide GraphOK, Partial, Distinct;
    PartialPrefix(graph, path);
    if m < |path| - 1 {
      PrefixIsLive(request, graph, path[..|path| - 1], m);
      assert path[..|path| - 1][..m] == path[..m];
    } else {
      EdgeShape(request, graph, path);
    }
  }

  lemma EdgeShape(request: ConstructionRequest, graph: Graph, path: Path)
    requires GraphOK(request, graph) && Partial(graph, path) && path != []
    ensures path[|path| - 1].range.layerStart < End(path) <= request.model.layerCount
  {
    assert InGraph(graph, path[|path| - 1]);
  }

  /** All paths of one level that could still matter are covered after the level. */
  lemma LevelDone(inventory: Inventory, profile: ProfileSnapshot, request: ConstructionRequest, graph: Graph,
                  states: States, next: States, live: States, best: Option<Path>, n: nat)
    requires GraphOf(inventory, profile, request, graph) && n < request.maxStages
    requires Sound(graph, states, n) && Complete(request, graph, states, n)
    requires forall key :: key in states ==> Expanded(request, graph, next, states[key].picks, n + 1)
    requires forall key :: key in next ==>
               if key.end == request.model.layerCount then NoWorse(request, best, next[key].picks)
               else key in live && live[key] == next[key]
    ensures n + 1 < request.maxStages ==> Complete(request, graph, live, n + 1)
    ensures forall path :: FeasiblePlan(inventory, profile, request, path) && |path| == n + 1 ==> NoWorse(request, best, path)
  {
    hide GraphOK, Sound, Expanded, Partial, ComparePaths, FeasiblePlan;
    if n + 1 < request.maxStages {
      forall path | LivePath(request, graph, path, n + 1) ensures Beats(request, live, path) {
        LevelComplete(request, graph, states, next, n, path);
      }
    }
    forall path | FeasiblePlan(inventory, profile, request, path) && |path| == n + 1 ensures NoWorse(request, best, path) {
      FeasibleInGraph(inventory, profile, request, graph, path);
      LevelComplete(request, graph, states, next, n, path);
      PathsTransitive(request, best.value, next[KeyOf(path)].picks, path);
    }
  }

  lemma NothingLonger(inventory: Inventory, profile: ProfileSnapshot, request: ConstructionRequest, graph: Graph, n: nat, path: Path)
    requires GraphOf(inventory, profile, request, graph) && Complete(request, graph, map[], n)
    requires FeasiblePlan(inventory, profile, request, path)
    ensures |path| <= n
  {
    hide FeasiblePlan, GraphOK, Partial;
    FeasibleInGraph(inventory, profile, request, graph, path);
    if |path| > n {
      PrefixIsLive(request, graph, path, n);
    }
  }

  lemma ChosenIsOptimal(inventory: Inventory, profile: ProfileSnapshot, request: ConstructionRequest, graph: Graph,
                        selected: Option<PlanEvaluation>, best: Option<Path>)
    requires RequestValid(inventory, profile, request) && GraphOf(inventory, profile, request, graph)
    requires Chosen(inventory, profile, request, selected, best)
    requires forall path :: FeasiblePlan(inventory, profile, request, path) ==> NoWorse(request, best, path)
    ensures Optimal(inventory, profile, request, selected)
  {
    hide FeasiblePlan, GraphOK, IsOption, InGraph, ComparePaths, Fold, EvaluationOf, RequestValid;
    if best.Some? {
      forall q | FeasiblePlan(inventory, profile, request, q) && q != best.value
        ensures ComparePaths(request, best.value, q) < 0
      {
        assert NoWorse(request, best, q);
        if ComparePaths(request, best.value, q) == 0 {
          FeasibleInGraph(inventory, profile, request, graph, best.value);
          FeasibleInGraph(inventory, profile, request, graph, q);
          GraphDetermined(inventory, profile, request, graph);
          TieIsEqual(request, graph, best.value, q);
        }
      }
      assert UniqueBest(inventory, profile, request, best.value);
    }
  }

  lemma GraphDetermined(inventory: Inventory, profile: ProfileSnapshot, request: ConstructionRequest, graph: Graph)
    requires RequestValid(inventory, profile, request) && GraphOf(inventory, profile, request, graph)
    ensures EdgesDetermined(graph)
  {
    hide IsOption, InGraph, GraphOK, SameSlot;
    forall e, f | InGraph(graph, e) && InGraph(graph, f) && SameSlot(e, f) ensures e == f {
      OptionsDetermined(inventory, profile, request, e, f);
    }
  }

  // ---------------------------------------------------------------------------
  // The search

  /** Evaluates every range and collects its options. */
  method BuildGraph(inventory: Inventory, profile: ProfileSnapshot, request: ConstructionRequest)
    returns (graph: Graph, error: Option<ScoreError>)
    requires RequestValid(inventory, profile, request) && RegisteredIDs(inventory)
    ensures error.Some? ==> error.value == CostOverflow && Unscorable(inventory, profile, request)
    ensures error.None? ==> GraphOf(inventory, profile, request, graph)
  {
    hide RequestValid, RegisteredIDs, IsOptionOf, Unscorable;
    graph, error := [], None;
    for index := 0 to |request.ranges|
      invariant |graph| == index && error.None?
      invariant forall r, edge :: 0 <= r < index ==>
                  (edge in graph[r] <==> IsOptionOf(inventory, profile, request, request.ranges[r], edge))
    {
      var options := PreparePlanRange(inventory, profile, request, request.ranges[index]);
      if options.Err? {
        error := Some(options.error);
        return;
      }
      graph := graph + [options.value];
    }
    CollectedGraph(inventory, profile, request, graph);
  }

  lemma CollectedGraph(inventory: Inventory, profile: ProfileSnapshot, request: ConstructionRequest, graph: Graph)
    requires RequestValid(inventory, profile, request) && RegisteredIDs(inventory) && |graph| == |request.ranges|
    requires forall r, edge :: 0 <= r < |graph| ==>
               (edge in graph[r] <==> IsOptionOf(inventory, profile, request, request.ranges[r], edge))
    ensures GraphOf(inventory, profile, request, graph)
  {
    hide EdgeFor, SnapshotsAgree, EstimateValid;
    forall r, o | 0 <= r < |graph| && 0 <= o < |graph[r]|
      ensures graph[r][o].range == request.ranges[r] && ValidID(graph[r][o].Target())
    {
      assert graph[r][o] in graph[r];
      assert IsOptionOf(inventory, profile, request, request.ranges[r], graph[r][o]);
    }
    forall edge ensures InGraph(graph, edge) <==> IsOption(inventory, profile, request, edge) {
      if InGraph(graph, edge) {
        var r, o :| 0 <= r < |graph| && 0 <= o < |graph[r]| && graph[r][o] == edge;
        assert edge in graph[r];
      }
      if IsOption(inventory, profile, request, edge) {
        var r :| 0 <= r < |request.ranges| && request.ranges[r] == edge.range;
        assert edge in graph[r];
      }
    }
  }

  const START := StateKey(0, "")

  lemma StartIsComplete(request: ConstructionRequest, graph: Graph)
    ensures Sound(graph, map[START := PartialPlan([], ZERO_SCORE)], 0)
    ensures Complete(request, graph, map[START := PartialPlan([], ZERO_SCORE)], 0)
  {
    hide ComparePaths;
    assert KeyOf([]) == START;
    forall path | LivePath(request, graph, path, 0) ensures Beats(request, map[START := PartialPlan([], ZERO_SCORE)], path) {
      assert path == [];
      PathsReflexive(request, []);
    }
  }

  /** The states of a level split into complete plans and plans to extend. */
  lemma SplitLevel(inventory: Inventory, profile: ProfileSnapshot, request: ConstructionRequest, graph: Graph, next: States, n: nat)
    requires GraphOf(inventory, profile, request, graph) && Sound(graph, next, n) && 0 < n <= request.maxStages
    ensures forall key :: key in next ==> key.end <= request.model.layerCount
    ensures forall key :: key in next && key.end == request.model.layerCount ==>
              CompleteEntry(inventory, profile, request, next[key])
  {
    hide GraphOK, Partial, Fold, FeasiblePlan, WorkerSetKey;
    forall key | key in next
      ensures key.end <= request.model.layerCount
      ensures key.end == request.model.layerCount ==> CompleteEntry(inventory, profile, request, next[key])
    {
      assert StateOK(graph, key, next[key], n);
      EdgeShape(request, graph, next[key].picks);
      FeasibleInGraph(inventory, profile, request, graph, next[key].picks);
    }
  }

  /** What a failed search reports. */
  ghost predicate SearchFailure(inventory: Inventory, profile: ProfileSnapshot, request: ConstructionRequest,
                                error: ScoreError, operations: int)
  {
    || (error == SearchLimit && operations == request.maxSearchOperations)
    || ((error == CostOverflow || error == NegativeCounter) && SomePathTooLarge(inventory, profile, request))
  }

  method Search(inventory: Inventory, profile: ProfileSnapshot, request: ConstructionRequest, graph: Graph, operations: uint64)
    returns (selected: Option<PlanEvaluation>, used: uint64, error: Option<ScoreError>)
    requires RequestValid(inventory, profile, request) && RegisteredIDs(inventory)
    requires GraphOf(inventory, profile, request, graph) && operations <= request.maxSearchOperations
    ensures used <= request.maxSearchOperations
    ensures error.Some? ==> selected.None? && SearchFailure(inventory, profile, request, error.value, used)
    ensures error.None? ==> Optimal(inventory, profile, request, selected)
  {
    hide RequestValid, RegisteredIDs, GraphOK, InGraph, IsOption, FeasiblePlan, Fold, Sound, Expanded, TooLarge,
      SomePathTooLarge, EvaluationOf, UniqueBest, NoWorse, Beats, LivePath;
    selected, used, error := None, operations, None;
    ghost var best: Option<Path> := None;
    var states: States := map[START := PartialPlan([], ZERO_SCORE)];
    StartIsComplete(request, graph);
    StagesPositive(inventory, profile, request);
    forall path | FeasiblePlan(inventory, profile, request, path) ensures |path| > 0 {
      StageBound(inventory, profile, request, path);
    }
    var n: nat := 0;
    while n < request.maxStages && |states| > 0
      invariant n <= request.maxStages && used <= request.maxSearchOperations && error.None?
      invariant Sound(graph, states, n)
      invariant n < request.maxStages ==> Complete(request, graph, states, n)
      invariant Chosen(inventory, profile, request, selected, best)
      invariant forall path :: FeasiblePlan(inventory, profile, request, path) && |path| <= n ==> NoWorse(request, best, path)
      decreases request.maxStages - n
    {
      var next, spent, failed := ExpandLevel(request, graph, states, n + 1, used);
      used := spent;
      if failed.Some? {
        if TooLarge(graph, n + 1) { TooLargeInGraph(inventory, profile, request, graph, n + 1); }
        return None, used, failed;
      }
      SplitLevel(inventory, profile, request, graph, next, n + 1);
      var complete := map key | key in next && key.end == request.model.layerCount :: next[key];
      var live := map key | key in next && key.end != request.model.layerCount :: next[key];
      ghost var before := best;
      selected, best := SelectComplete(inventory, profile, request, complete, selected, best);
      assert forall key :: key in next && key.end == request.model.layerCount ==> key in complete;
      LevelDone(inventory, profile, request, graph, states, next, live, best, n);
      LiveIsSound(graph, next, live, n + 1);
      states, n := live, n + 1;
    }
    forall path | FeasiblePlan(inventory, profile, request, path) ensures NoWorse(request, best, path) {
      if n < request.maxStages {
        assert states == map[];
        NothingLonger(inventory, profile, request, graph, n, path);
      } else {
        StageBound(inventory, profile, request, path);
      }
    }
    ChosenIsOptimal(inventory, profile, request, graph, selected, best);
  }

  lemma StagesPositive(inventory: Inventory, profile: ProfileSnapshot, request: ConstructionRequest)
    requires RequestValid(inventory, profile, request)
    ensures request.maxStages >= 1
  {
  }

  lemma StageBound(inventory: Inventory, profile: ProfileSnapshot, request: ConstructionRequest, path: Path)
    requires FeasiblePlan(inventory, profile, request, path)
    ensures 1 <= |path| <= request.maxStages
  {
  }

  lemma LiveIsSound(graph: Graph, next: States, live: States, n: nat)
    requires Sound(graph, next, n) && forall key :: key in live ==> key in next && live[key] == next[key]
    ensures Sound(graph, live, n)
  {
    hide StateOK;
  }

  /** Every range is evaluated on every worker. */
  function EvaluationCount(inventory: Inventory, request: ConstructionRequest): nat {
    |request.ranges| * |inventory.workers|
  }

  lemma NormalizedSorted(request: ConstructionRequest)
    ensures RangesSorted(Normalize(request).ranges)
  {
    SortRangesSorts(request.ranges);
  }

  /** The lowest-scoring valid plan reachable through the supplied ranges, or an error. */
  method ConstructPlan(inventory: Inventory, profile: ProfileSnapshot, request: ConstructionRequest)
    returns (selected: Option<PlanEvaluation>, operations: uint64, error: Option<ScoreError>)
    requires RegisteredIDs(inventory)
    ensures var normalized := Normalize(request);
            && operations <= normalized.maxSearchOperations
            && (error == Some(Malformed) <==> !RequestValid(inventory, profile, normalized))
            && error != Some(ScoreDisagrees)
            && (error.Some? ==> selected.None?)
            && (error == Some(SearchLimit) ==>
                  operations == normalized.maxSearchOperations
                  || EvaluationCount(inventory, normalized) > normalized.maxSearchOperations)
            && (error == Some(CostOverflow) || error == Some(NegativeCounter) ==>
                  Unscorable(inventory, profile, normalized) || SomePathTooLarge(inventory, profile, normalized))
            && (error.None? ==> Optimal(inventory, profile, normalized, selected))
  {
    hide SnapshotsAgree, HeaderValid, RangesValid, Unscorable, SomePathTooLarge, Optimal, RegisteredIDs, GraphOf,
      Normalize, EvaluationCount, RangesSorted;
    var normalized := Normalize(request);
    selected, operations, error := None, 0, None;
    NormalizedSorted(request);
    var rangesValid := ValidateRanges(normalized);
    if !SnapshotsAgree(inventory, profile) || !HeaderValid(normalized) || !rangesValid {
      error := Some(Malformed);
      return;
    }
    // The unsigned product overflows only when it exceeds the limit as well.
    if EvaluationCount(inventory, normalized) > normalized.maxSearchOperations {
      error := Some(SearchLimit);
      return;
    }
    operations := EvaluationCount(inventory, normalized);
    var graph, unscorable := BuildGraph(inventory, profile, normalized);
    if unscorable.Some? {
      error := unscorable;
      return;
    }
    selected, operations, error := Search(inventory, profile, normalized, graph, operations);
  }
}
