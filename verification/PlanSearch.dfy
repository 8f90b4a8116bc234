/** The bounded dynamic program over layer boundaries and worker sets. */
module PlanSearch {
  import opened WideArithmetic
  import opened Placement
  import opened WorkerKeys
  import opened PlanPaths
  import opened PlanOptions
  import opened CompletePlans

  /** One dominant start of a plan is kept per layer boundary and worker set. */
  datatype StateKey = StateKey(end: int, workers: string)

  datatype PartialPlan = PartialPlan(picks: Path, score: PlanScore)

  type States = map<StateKey, PartialPlan>

  function KeyOf(path: Path): StateKey {
    StateKey(End(path), WorkerSetKey(TargetsOf(path)))
  }

  ghost predicate StateOK(graph: Graph, key: StateKey, state: PartialPlan, n: nat) {
    && |state.picks| == n && Partial(graph, state.picks)
    && Fold(state.picks) == Ok(state.score) && key == KeyOf(state.picks)
  }

  ghost predicate Sound(graph: Graph, states: States, n: nat) {
    forall key :: key in states ==> StateOK(graph, key, states[key], n)
  }

  /** Some kept state with the path's boundary and workers is at least as good. */
  ghost predicate Beats(request: ConstructionRequest, states: States, path: Path) {
    KeyOf(path) in states && ComparePaths(request, states[KeyOf(path)].picks, path) <= 0
  }

  ghost predicate KeepsBeating(request: ConstructionRequest, states: States, next: States) {
    forall path :: Beats(request, states, path) ==> Beats(request, next, path)
  }

  ghost predicate Extends(graph: Graph, path: Path, edge: Edge) {
    InGraph(graph, edge) && edge.range.layerStart == End(path) && edge.Target() !in TargetsOf(path)
  }

  /** The last permitted stage must finish the model. */
  predicate Allowed(request: ConstructionRequest, edge: Edge, stageCount: nat) {
    edge.range.layerEnd >= request.model.layerCount || stageCount != request.maxStages
  }

  ghost predicate Expanded(request: ConstructionRequest, graph: Graph, next: States, path: Path, stageCount: nat) {
    forall edge :: Extends(graph, path, edge) && Allowed(request, edge, stageCount) ==> Beats(request, next, path + [edge])
  }

  ghost predicate TooLarge(graph: Graph, n: nat) {
    exists path :: |path| == n && Partial(graph, path) && !Fits(path)
  }

  lemma ReplaceKeepsBeating(request: ConstructionRequest, states: States, key: StateKey, better: PartialPlan)
    requires key == KeyOf(better.picks)
    requires key in states ==> ComparePaths(request, better.picks, states[key].picks) <= 0
    ensures KeepsBeating(request, states, states[key := better])
    ensures Beats(request, states[key := better], better.picks)
  {
    hide ComparePaths, KeyOf;
    forall path | Beats(request, states, path) ensures Beats(request, states[key := better], path) {
      if KeyOf(path) == key { PathsTransitive(request, better.picks, states[key].picks, path); }
    }
    PathsReflexive(request, better.picks);
  }

  /** Keeps the better of a candidate and the state already in its bucket. */
  method Retain(request: ConstructionRequest, graph: Graph, states: States, candidate: PartialPlan) returns (next: States)
    requires Sound(graph, states, |candidate.picks|) && StateOK(graph, KeyOf(candidate.picks), candidate, |candidate.picks|)
    ensures Sound(graph, next, |candidate.picks|)
    ensures KeepsBeating(request, states, next) && Beats(request, next, candidate.picks)
  {
    hide ComparePaths, KeyOf, Partial, Fold;
    var key := KeyOf(candidate.picks);
    if key in states {
      var existing := states[key];
      assert StateOK(graph, key, existing, |candidate.picks|);
      PartialsCompareAsPaths(request, candidate.picks, existing.picks);
      PathsFlip(request, candidate.picks, existing.picks);
    }
    if key !in states || ComparePartials(request, candidate.picks, candidate.score, states[key].picks, states[key].score) < 0 {
      next := states[key := candidate];
      ReplaceKeepsBeating(request, states, key, candidate);
    } else {
      next := states;
    }
  }

  predicate UsesWorker(path: Path, id: string)
    ensures UsesWorker(path, id) <==> id in TargetsOf(path)
  {
    assert forall i :: 0 <= i < |path| ==> path[i].Target() == TargetsOf(path)[i];
    exists i :: 0 <= i < |path| && path[i].Target() == id
  }

  /** The state with one more stage, unless its score overflows. */
  method ExtendPartialPlan(graph: Graph, state: PartialPlan, edge: Edge) returns (r: Result<PartialPlan, ScoreError>)
    requires StateOK(graph, KeyOf(state.picks), state, |state.picks|) && Extends(graph, state.picks, edge)
    ensures r.Ok? ==> r.value.picks == state.picks + [edge]
    ensures r.Ok? ==> StateOK(graph, KeyOf(r.value.picks), r.value, |state.picks| + 1)
    ensures r.Err? ==> TooLarge(graph, |state.picks| + 1)
    ensures r.Err? ==> r.error == CostOverflow || r.error == NegativeCounter
  {
    hide MergeStageScore, CostOf, KeyOf;
    var picks := state.picks + [edge];
    assert picks[..|picks| - 1] == state.picks && picks[|picks| - 1] == edge;
    PartialExtends(graph, state.picks, edge);
    var merged := MergeStageScore(state.score, edge.charge);
    if merged.Err? {
      FoldFailsWhenTooLarge(picks);
      assert Partial(graph, picks) && !Fits(picks);
      MergeErrors(state.score, edge.charge);
      return Err(merged.error);
    }
    return Ok(PartialPlan(picks, merged.value.(stageCount := |picks|)));
  }

  lemma MergeErrors(score: PlanScore, charge: StageCharge)
    ensures MergeStageScore(score, charge) != Err(SearchLimit) && MergeStageScore(score, charge) != Err(ScoreDisagrees)
    ensures MergeStageScore(score, charge) != Err(Malformed)
  {
  }

  // ---------------------------------------------------------------------------
  // One level of the search

  /** What went wrong while a level was expanded. */
  ghost predicate Failure(graph: Graph, n: nat, error: ScoreError, operations: int, limit: int) {
    || (error == SearchLimit && operations == limit)
    || ((error == CostOverflow || error == NegativeCounter) && TooLarge(graph, n))
  }

  /** Edge (r, o) of the graph has been tried on a path. */
  ghost predicate Tried(request: ConstructionRequest, graph: Graph, next: States, path: Path, stageCount: nat, r: int, o: int)
    requires 0 <= r < |graph| && 0 <= o < |graph[r]|
  {
    Extends(graph, path, graph[r][o]) && Allowed(request, graph[r][o], stageCount) ==> Beats(request, next, path + [graph[r][o]])
  }

  lemma StillTried(request: ConstructionRequest, graph: Graph, states: States, next: States, path: Path, stageCount: nat, r: int, o: int)
    requires 0 <= r < |graph| && 0 <= o < |graph[r]| && KeepsBeating(request, states, next)
    requires Tried(request, graph, states, path, stageCount, r, o)
    ensures Tried(request, graph, next, path, stageCount, r, o)
  {
    hide Beats, Extends, Allowed;
  }

  lemma KeepsBeatingTransitive(request: ConstructionRequest, a: States, b: States, c: States)
    requires KeepsBeating(request, a, b) && KeepsBeating(request, b, c)
    ensures KeepsBeating(request, a, c)
  {
    hide Beats;
  }

  /** Tries every option of one range on one state. */
  method ExpandRange(request: ConstructionRequest, graph: Graph, r: nat, state: PartialPlan, stageCount: nat,
                     states: States, operations: uint64)
    returns (next: States, used: uint64, error: Option<ScoreError>)
    requires r < |graph| && GraphOK(request, graph) && operations <= request.maxSearchOperations
    requires StateOK(graph, KeyOf(state.picks), state, |state.picks|) && stageCount == |state.picks| + 1
    requires Sound(graph, states, stageCount)
    ensures used <= request.maxSearchOperations
    ensures error.Some? ==> Failure(graph, stageCount, error.value, used, request.maxSearchOperations)
    ensures error.None? ==> Sound(graph, next, stageCount) && KeepsBeating(request, states, next)
    ensures error.None? ==> forall o :: 0 <= o < |graph[r]| ==> Tried(request, graph, next, state.picks, stageCount, r, o)
  {
    hide Sound, StateOK, Beats, KeyOf, TooLarge, Partial;
    next, used, error := states, operations, None;
    var range := request.ranges[r];
    if range.layerStart != End(state.picks)
       || (range.layerEnd < request.model.layerCount && stageCount == request.maxStages) {
      return;
    }
    for o := 0 to |graph[r]|
      invariant used <= request.maxSearchOperations
      invariant Sound(graph, next, stageCount) && KeepsBeating(request, states, next)
      invariant forall k :: 0 <= k < o ==> Tried(request, graph, next, state.picks, stageCount, r, k)
    {
      var edge := graph[r][o];
      if !UsesWorker(state.picks, edge.Target()) {
        if used == request.maxSearchOperations {
          error := Some(SearchLimit);
          return;
        }
        used := used + 1;
        assert InGraph(graph, edge);
        var extended := ExtendPartialPlan(graph, state, edge);
        if extended.Err? {
          error := Some(extended.error);
          return;
        }
        ghost var before := next;
        next := Retain(request, graph, next, extended.value) by {
          assert |extended.value.picks| == stageCount;
        }
        KeepsBeatingTransitive(request, states, before, next);
        forall k | 0 <= k < o ensures Tried(request, graph, next, state.picks, stageCount, r, k) {
          StillTried(request, graph, before, next, state.picks, stageCount, r, k);
        }
      }
    }
  }

  method ExpandState(request: ConstructionRequest, graph: Graph, state: PartialPlan, stageCount: nat,
                     states: States, operations: uint64)
    returns (next: States, used: uint64, error: Option<ScoreError>)
    requires GraphOK(request, graph) && operations <= request.maxSearchOperations
    requires StateOK(graph, KeyOf(state.picks), state, |state.picks|) && stageCount == |state.picks| + 1
    requires Sound(graph, states, stageCount)
    ensures used <= request.maxSearchOperations
    ensures error.Some? ==> Failure(graph, stageCount, error.value, used, request.maxSearchOperations)
    ensures error.None? ==> Sound(graph, next, stageCount) && KeepsBeating(request, states, next)
    ensures error.None? ==> Expanded(request, graph, next, state.picks, stageCount)
  {
    hide Sound, StateOK, Beats, KeyOf, TooLarge, Partial, KeepsBeating, GraphOK, Extends, Allowed;
    next, used, error := states, operations, None;
    assert KeepsBeating(request, states, next) by { KeepsBeatingReflexive(request, states); }
    for r := 0 to |graph|
      invariant used <= request.maxSearchOperations
      invariant error.None? && Sound(graph, next, stageCount) && KeepsBeating(request, states, next)
      invariant forall p, o :: 0 <= p < r && 0 <= o < |graph[p]| ==> Tried(request, graph, next, state.picks, stageCount, p, o)
    {
      ghost var before := next;
      next, used, error := ExpandRange(request, graph, r, state, stageCount, next, used);
      if error.Some? { return; }
      KeepsBeatingTransitive(request, states, before, next);
      forall p, o | 0 <= p < r && 0 <= o < |graph[p]| ensures Tried(request, graph, next, state.picks, stageCount, p, o) {
        StillTried(request, graph, before, next, state.picks, stageCount, p, o);
      }
    }
    AllTried(request, graph, next, state.picks, stageCount);
  }

  lemma KeepsBeatingReflexive(request: ConstructionRequest, states: States)
    ensures KeepsBeating(request, states, states)
  {
  }

  lemma AllTried(request: ConstructionRequest, graph: Graph, next: States, path: Path, stageCount: nat)
    requires forall p, o :: 0 <= p < |graph| && 0 <= o < |graph[p]| ==> Tried(request, graph, next, path, stageCount, p, o)
    ensures Expanded(request, graph, next, path, stageCount)
  {
    hide Beats, Allowed;
    forall edge | Extends(graph, path, edge) && Allowed(request, edge, stageCount) ensures Beats(request, next, path + [edge]) {
      var r, o :| 0 <= r < |graph| && 0 <= o < |graph[r]| && graph[r][o] == edge;
      assert Tried(request, graph, next, path, stageCount, r, o);
    }
  }

  lemma StillExpanded(request: ConstructionRequest, graph: Graph, states: States, next: States, path: Path, stageCount: nat)
    requires KeepsBeating(request, states, next) && Expanded(request, graph, states, path, stageCount)
    ensures Expanded(request, graph, next, path, stageCount)
  {
    hide Beats, Extends, Allowed;
  }

  /** Expands every state of a level, in any order. */
  method ExpandLevel(request: ConstructionRequest, graph: Graph, states: States, stageCount: nat, operations: uint64)
    returns (next: States, used: uint64, error: Option<ScoreError>)
    requires GraphOK(request, graph) && operations <= request.maxSearchOperations
    requires stageCount > 0 && Sound(graph, states, stageCount - 1)
    ensures used <= request.maxSearchOperations
    ensures error.Some? ==> Failure(graph, stageCount, error.value, used, request.maxSearchOperations)
    ensures error.None? ==> Sound(graph, next, stageCount)
    ensures error.None? ==> forall key :: key in states ==> Expanded(request, graph, next, states[key].picks, stageCount)
  {
    hide Beats, KeyOf, TooLarge, Partial, KeepsBeating, GraphOK, Expanded;
    next, used, error := map[], operations, None;
    var todo := states.Keys;
    while todo != {}
      invariant used <= request.maxSearchOperations && todo <= states.Keys
      invariant error.None? && Sound(graph, next, stageCount)
      invariant forall key :: key in states && key !in todo ==> Expanded(request, graph, next, states[key].picks, stageCount)
      decreases todo
    {
      var key :| key in todo;
      ghost var before := next;
      assert StateOK(graph, key, states[key], stageCount - 1);
      next, used, error := ExpandState(request, graph, states[key], stageCount, next, used);
      if error.Some? { return; }
      forall k | k in states && k !in todo ensures Expanded(request, graph, next, states[k].picks, stageCount) {
        StillExpanded(request, graph, before, next, states[k].picks, stageCount);
      }
      todo := todo - {key};
    }
  }

  // ---------------------------------------------------------------------------
  // Why a level misses nothing

  ghost predicate LivePath(request: ConstructionRequest, graph: Graph, path: Path, n: nat) {
    |path| == n && Partial(graph, path) && End(path) < request.model.layerCount
  }

  /** Every live path of length n is matched by a kept state. */
  ghost predicate Complete(request: ConstructionRequest, graph: Graph, states: States, n: nat) {
    forall path :: LivePath(request, graph, path, n) ==> Beats(request, states, path)
  }

  lemma SameWorkers(request: ConstructionRequest, graph: Graph, p: Path, q: Path, edge: Edge)
    requires GraphOK(request, graph) && Partial(graph, p) && Partial(graph, q) && KeyOf(p) == KeyOf(q)
    requires Extends(graph, q, edge)
    ensures Extends(graph, p, edge) && KeyOf(p + [edge]) == KeyOf(q + [edge])
  {
    hide WorkerSetKey, GraphOK;
    TargetsValid(request, graph, p);
    TargetsValid(request, graph, q);
    KeyEncodesSet(TargetsOf(p), TargetsOf(q));
    PartialExtends(graph, p, edge);
    PartialExtends(graph, q, edge);
    TargetsValid(request, graph, p + [edge]);
    TargetsValid(request, graph, q + [edge]);
    assert TargetsOf(p + [edge]) == TargetsOf(p) + [edge.Target()];
    assert TargetsOf(q + [edge]) == TargetsOf(q) + [edge.Target()];
    KeyEncodesSet(TargetsOf(p + [edge]), TargetsOf(q + [edge]));
  }

  /** The exchange argument: whatever extends a path extends the state that beats it. */
  lemma Exchange(request: ConstructionRequest, graph: Graph, states: States, next: States, front: Path, edge: Edge, n: nat)
    requires GraphOK(request, graph) && Sound(graph, states, n) && |front| == n && Partial(graph, front)
    requires Beats(request, states, front) && Extends(graph, front, edge) && Allowed(request, edge, n + 1)
    requires forall key :: key in states ==> Expanded(request, graph, next, states[key].picks, n + 1)
    ensures Beats(request, next, front + [edge])
  {
    hide GraphOK, Partial, KeyOf, ComparePaths, Fold, Allowed, Extends;
    var key := KeyOf(front);
    var kept := states[key].picks;
    assert StateOK(graph, key, states[key], n);
    SameWorkers(request, graph, kept, front, edge);
    assert Expanded(request, graph, next, kept, n + 1);
    assert Beats(request, next, kept + [edge]);
    PathsExtend(request, kept, front, edge);
    PathsTransitive(request, next[KeyOf(kept + [edge])].picks, kept + [edge], front + [edge]);
  }

  lemma LevelComplete(request: ConstructionRequest, graph: Graph, states: States, next: States, n: nat, path: Path)
    requires GraphOK(request, graph) && Sound(graph, states, n) && Complete(request, graph, states, n)
    requires forall key :: key in states ==> Expanded(request, graph, next, states[key].picks, n + 1)
    requires |path| == n + 1 && Partial(graph, path)
    requires End(path) == request.model.layerCount || n + 1 < request.maxStages
    ensures Beats(request, next, path)
  {
    hide Sound, Beats, KeyOf, Expanded;
    var front, edge := path[..n], path[n];
    PartialPrefix(graph, path);
    assert InGraph(graph, edge) && path == front + [edge];
    assert LivePath(request, graph, front, n);
    Exchange(request, graph, states, next, front, edge, n);
  }
}
