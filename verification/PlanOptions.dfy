/** What the search may use and what a finished path is worth: the eligible edges
    of a request, the incremental score of a path, and its full evaluation. */
module PlanOptions {
  import opened WideArithmetic
  import opened Membership
  import opened Placement
  import opened WorkerKeys
  import opened PlanScoring
  import opened PlanPaths
  import Execution

  // ---------------------------------------------------------------------------
  // Edges

  function RangeStage(request: ConstructionRequest, range: RangeEstimate): Execution.Stage {
    var stage := Execution.Stage("", "", "", range.layerStart, range.layerEnd, range.layerStart == 0,
                                 range.layerEnd == request.model.layerCount, Execution.Tensor);
    stage.(shardID := Execution.ShardIDOf(request.model, stage))
  }

  function RangeRequirement(request: ConstructionRequest, range: RangeEstimate): StageRequirement {
    RequirementOf(request.model, request.scoring, RangeStage(request, range), range.estimate)
  }

  /** The edge of one range on one worker, nothing when the worker is not eligible. */
  function EdgeFor(inventory: Inventory, profile: ProfileSnapshot, request: ConstructionRequest, range: RangeEstimate,
                   worker: Worker): (r: Result<Option<Edge>, ScoreError>)
    ensures r.Ok? && r.value.Some? ==> r.value.value.range == range && r.value.value.charge.worker == worker
  {
    if !RequirementValid(RangeRequirement(request, range)) then Err(Malformed) else
    var candidate := CandidateOf(inventory, RangeRequirement(request, range), worker);
    if !candidate.eligible then Ok(None) else
    var charge := ChargeOf(profile, request.model, request.scoring, worker, candidate,
                           range.layerStart, range.layerEnd, range.estimate);
    if charge.Err? then Err(charge.error) else Ok(Some(Edge(range, charge.value)))
  }

  /** An edge the request and the two snapshots allow. */
  ghost predicate IsOption(inventory: Inventory, profile: ProfileSnapshot, request: ConstructionRequest, edge: Edge) {
    && edge.range in request.ranges && edge.charge.worker in inventory.workers
    && EdgeFor(inventory, profile, request, edge.range, edge.charge.worker) == Ok(Some(edge))
  }

  /** The ranges a normalized request may carry. */
  predicate RangesValid(request: ConstructionRequest) {
    && (forall i :: 0 <= i < |request.ranges| ==>
          && 0 <= request.ranges[i].layerStart < request.ranges[i].layerEnd <= request.model.layerCount
          && EstimateValid(request.ranges[i].estimate, request.scoring.decodeSteps))
    && (forall i, j :: 0 <= i < j < |request.ranges| ==>
          request.ranges[i].layerStart != request.ranges[j].layerStart || request.ranges[i].layerEnd != request.ranges[j].layerEnd)
  }

  predicate HeaderValid(request: ConstructionRequest) {
    && ContextValid(request.scoring) && request.scoring.stages == []
    && request.model.id != "" && request.model.checkpointFingerprint != "" && request.model.layerCount > 0
    && !request.terminalResponseMode.Unsupported?
    && 1 <= request.maxStages <= request.model.layerCount
    && request.ranges != []
  }

  predicate RequestValid(inventory: Inventory, profile: ProfileSnapshot, request: ConstructionRequest) {
    SnapshotsAgree(inventory, profile) && HeaderValid(request) && RangesValid(request)
  }

  ghost predicate RegisteredIDs(inventory: Inventory) {
    forall w :: w in inventory.workers ==> ValidID(w.ID())
  }

  lemma UniqueWorker(workers: seq<Worker>, v: Worker, w: Worker)
    requires UniqueIDs(workers) && v in workers && w in workers && v.ID() == w.ID()
    ensures v == w
  {
    var i :| 0 <= i < |workers| && workers[i] == v;
    var j :| 0 <= j < |workers| && workers[j] == w;
  }

  lemma OptionsDetermined(inventory: Inventory, profile: ProfileSnapshot, request: ConstructionRequest, e: Edge, f: Edge)
    requires UniqueIDs(inventory.workers) && RangesValid(request)
    requires IsOption(inventory, profile, request, e) && IsOption(inventory, profile, request, f) && SameSlot(e, f)
    ensures e == f
  {
    hide EdgeFor;
    UniqueWorker(inventory.workers, e.charge.worker, f.charge.worker);
    var i :| 0 <= i < |request.ranges| && request.ranges[i] == e.range;
    var j :| 0 <= j < |request.ranges| && request.ranges[j] == f.range;
    assert i == j;
  }

  // ---------------------------------------------------------------------------
  // The incremental score

  function Fold(path: Path): (r: Result<PlanScore, ScoreError>) {
    if path == [] then Ok(ZERO_SCORE) else
    var before := Fold(path[..|path| - 1]);
    if before.Err? then before else
    var merged := MergeStageScore(before.value, path[|path| - 1].charge);
    if merged.Err? then Err(merged.error) else Ok(merged.value.(stageCount := |path|))
  }

  /** The score is the exact cost. */
  ghost predicate Exact(score: PlanScore, cost: Cost) {
    && score.estimatedMicros == cost.estimated == score.computeMicros + score.transferMicros
    && score.recentFailureCount == cost.failures
    && score.memoryPressureBytes == cost.pressure && score.newLoadMemoryBytes == cost.newLoad
    && score.requiredAdditionalMemoryBytes == cost.required && score.restartCount == cost.restarts
    && score.stageCount == cost.stages
  }

  lemma MergeExact(score: PlanScore, before: Cost, edge: Edge)
    requires Exact(score, before) && MergeStageScore(score, edge.charge).Ok?
    ensures Exact(MergeStageScore(score, edge.charge).value.(stageCount := score.stageCount + 1), Plus(before, EdgeCost(edge)))
  {
    hide MergeStageScore;
    assert Merged(score, edge.charge, MergeStageScore(score, edge.charge).value);
  }

  lemma {:induction false} FoldExact(path: Path)
    requires Fold(path).Ok?
    ensures Exact(Fold(path).value, CostOf(path))
  {
    hide MergeStageScore, Plus, EdgeCost;
    if path != [] {
      var front := path[..|path| - 1];
      FoldExact(front);
      CostCountsStages(front);
      MergeExact(Fold(front).value, CostOf(front), path[|path| - 1]);
    }
  }

  /** The counters of every worker are counts and the exact cost fits 64 bits. */
  ghost predicate Fits(path: Path) {
    var cost := CostOf(path);
    && (forall i :: 0 <= i < |path| ==> CountersValid(path[i]))
    && cost.estimated <= MAX_UINT64 && cost.failures <= MAX_UINT64 && cost.pressure <= MAX_UINT64
    && cost.newLoad <= MAX_UINT64 && cost.required <= MAX_UINT64 && cost.restarts <= MAX_UINT64
  }

  predicate CountersValid(edge: Edge) {
    edge.charge.worker.Status().recentFailureCount >= 0 && edge.charge.worker.Status().restartCount >= 0
  }

  ghost predicate NonNegative(cost: Cost) {
    && 0 <= cost.estimated && 0 <= cost.failures && 0 <= cost.pressure && 0 <= cost.newLoad
    && 0 <= cost.required && 0 <= cost.restarts
  }

  lemma {:induction false} CostNonNegative(path: Path)
    requires forall i :: 0 <= i < |path| ==> CountersValid(path[i])
    ensures NonNegative(CostOf(path))
  {
    if path != [] { CostNonNegative(path[..|path| - 1]); }
  }

  lemma FitsPrefix(path: Path)
    requires path != [] && Fits(path)
    ensures Fits(path[..|path| - 1])
  {
    var front := path[..|path| - 1];
    forall i | 0 <= i < |front| ensures CountersValid(front[i]) { assert front[i] == path[i]; }
    CostNonNegative(front);
    assert CountersValid(path[|path| - 1]);
  }

  lemma MergeFits(score: PlanScore, before: Cost, edge: Edge)
    requires Exact(score, before) && NonNegative(before)
    ensures MergeStageScore(score, edge.charge).Ok? <==>
            && CountersValid(edge)
            && var after := Plus(before, EdgeCost(edge));
               && after.estimated <= MAX_UINT64 && after.failures <= MAX_UINT64 && after.pressure <= MAX_UINT64
               && after.newLoad <= MAX_UINT64 && after.required <= MAX_UINT64 && after.restarts <= MAX_UINT64
  {
  }

  /** Scoring a path fails exactly when its exact cost does not fit. */
  lemma {:induction false} FoldFailsWhenTooLarge(path: Path)
    ensures Fold(path).Ok? <==> Fits(path)
  {
    if path != [] {
      var front := path[..|path| - 1];
      FoldFailsWhenTooLarge(front);
      if Fits(path) { FitsPrefix(path); }
      if Fold(front).Ok? {
        FoldExact(front);
        CostNonNegative(front);
        MergeFits(Fold(front).value, CostOf(front), path[|path| - 1]);
        hide MergeStageScore;
        assert Fits(path) <==> Fits(front) && Fold(path).Ok? by {
          if Fold(path).Ok? {
            forall i | 0 <= i < |path| ensures CountersValid(path[i]) { if i < |front| { assert front[i] == path[i]; } }
          }
        }
      }
    }
  }

  lemma ScoresCompareAsCosts(p: Path, q: Path)
    requires Fold(p).Ok? && Fold(q).Ok?
    ensures ComparePlanScores(Fold(p).value, Fold(q).value) == CompareCosts(CostOf(p), CostOf(q))
  {
    hide Fold, CostOf;
    FoldExact(p);
    FoldExact(q);
  }
}
