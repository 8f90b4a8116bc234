/** Scoring of one complete plan: evidence for every stage, then the cost of the
    whole plan, or the rejection evidence when a stage is not eligible. */
module PlanScoring {
  import opened WideArithmetic
  import opened Membership
  import opened Placement
  import opened Text
  import opened Snapshots
  import opened Execution

  predicate UniqueIDs(workers: seq<Worker>) {
    forall i, j :: 0 <= i < j < |workers| ==> workers[i].ID() != workers[j].ID()
  }

  predicate SnapshotsAgree(inventory: Inventory, profile: ProfileSnapshot) {
    && inventory.leaseTTL > 0 && UniqueIDs(inventory.workers)
    && profile.generatedAt == inventory.generatedAt && SnapshotValid(profile)
  }

  function RequirementOf(model: Model, request: ScoringRequest, stage: Stage, estimate: StageCostEstimate): StageRequirement {
    StageRequirement(model, request.adapter, stage.shardID, stage.layerStart, stage.layerEnd, stage.ownsInput,
      stage.ownsOutput, estimate.loadMemoryBytes, estimate.sequenceMemoryBytes, request.transport, request.statusMaxAge)
  }

  function CandidateOf(inventory: Inventory, requirement: StageRequirement, worker: Worker): (c: Candidate)
    requires RequirementValid(requirement)
    ensures c.workerID == worker.ID()
  {
    EvaluateCandidate(inventory.generatedAt, StatusWindow(inventory, requirement), requirement, worker)
  }

  /** Hard-constraint evidence for every worker, in inventory order. */
  function Candidates(inventory: Inventory, requirement: StageRequirement): (r: seq<Candidate>)
    requires RequirementValid(requirement)
    ensures |r| == |inventory.workers|
    ensures forall i :: 0 <= i < |r| ==> r[i] == CandidateOf(inventory, requirement, inventory.workers[i])
  {
    seq(|inventory.workers|, i requires 0 <= i < |inventory.workers| =>
      CandidateOf(inventory, requirement, inventory.workers[i]))
  }

  function FindCandidate(candidates: seq<Candidate>, id: string): (r: Option<Candidate>)
    ensures r.Some? ==> r.value in candidates && r.value.workerID == id
    ensures r.None? ==> forall c :: c in candidates ==> c.workerID != id
  {
    if candidates == [] then None
    else if candidates[0].workerID == id then Some(candidates[0])
    else FindCandidate(candidates[1..], id)
  }

  /** What one stage on one worker adds to a score. */
  function ChargeOf(profile: ProfileSnapshot, model: Model, request: ScoringRequest, worker: Worker, candidate: Candidate,
                    layerStart: int, layerEnd: int, estimate: StageCostEstimate): (r: Result<StageCharge, ScoreError>)
    ensures r.Ok? ==> r.value.worker == worker && r.value.candidate == candidate && r.value.estimate == estimate
  {
    var compute := ScoreStageCompute(profile, model, worker, layerStart, layerEnd, request, estimate);
    if compute.Err? then Err(compute.error) else
    var transfer := ScoreStageTransfer(profile, worker, request, estimate);
    if transfer.Err? then Err(transfer.error)
    else Ok(StageCharge(worker, candidate, estimate, compute.value, transfer.value))
  }

  // ---------------------------------------------------------------------------
  // What a score is

  ghost predicate Scorable(inventory: Inventory, profile: ProfileSnapshot, plan: Plan, request: ScoringRequest) {
    && ValidPlan(plan) && plan.inventoryRevision == Decimal(inventory.revision)
    && SnapshotsAgree(inventory, profile) && ContextValid(request)
    && |request.stages| == |plan.stages|
    && (forall i :: 0 <= i < |request.stages| ==> EstimateValid(request.stages[i], request.decodeSteps))
  }

  function RequirementAt(plan: Plan, request: ScoringRequest, i: nat): StageRequirement
    requires i < |plan.stages| == |request.stages|
  {
    RequirementOf(plan.model, request, plan.stages[i], request.stages[i])
  }

  /** The evidence of one target, or an error when the requirement is malformed or
      the target is not in the inventory. */
  function SelectCandidate(inventory: Inventory, requirement: StageRequirement, id: string): (r: Result<Candidate, ScoreError>)
    ensures r.Ok? ==> r.value.workerID == id && id in WorkersByID(inventory.workers)
  {
    if !RequirementValid(requirement) then Err(Malformed) else
    match FindCandidate(Candidates(inventory, requirement), id)
    case None => Err(Malformed)
    case Some(candidate) => Ok(candidate)
  }

  /** The candidates of the first n targets. */
  function Selected(inventory: Inventory, plan: Plan, request: ScoringRequest, n: nat): (r: Result<seq<Candidate>, ScoreError>)
    requires n <= |plan.stages| == |request.stages|
    ensures r.Ok? ==> |r.value| == n
  {
    hide *;
    if n == 0 then Ok([]) else
    var before := Selected(inventory, plan, request, n - 1);
    if before.Err? then before else
    var candidate := SelectCandidate(inventory, RequirementAt(plan, request, n - 1), plan.stages[n - 1].targetID);
    if candidate.Err? then Err(candidate.error) else Ok(before.value + [candidate.value])
  }

  ghost predicate TargetsPresent(inventory: Inventory, plan: Plan) {
    forall i :: 0 <= i < |plan.stages| ==> plan.stages[i].targetID in WorkersByID(inventory.workers)
  }

  lemma {:induction false} TargetPresent(inventory: Inventory, plan: Plan, request: ScoringRequest, n: nat, i: nat)
    requires i < n <= |plan.stages| == |request.stages| && Selected(inventory, plan, request, n).Ok?
    ensures plan.stages[i].targetID in WorkersByID(inventory.workers)
  {
    hide SelectCandidate;
    if i < n - 1 { TargetPresent(inventory, plan, request, n - 1, i); }
  }

  lemma AllTargetsPresent(inventory: Inventory, plan: Plan, request: ScoringRequest)
    requires |plan.stages| == |request.stages| && Selected(inventory, plan, request, |plan.stages|).Ok?
    ensures TargetsPresent(inventory, plan)
  {
    hide SelectCandidate, Selected;
    forall i | 0 <= i < |plan.stages| ensures plan.stages[i].targetID in WorkersByID(inventory.workers) {
      TargetPresent(inventory, plan, request, |plan.stages|, i);
    }
  }

  datatype Scored = Scored(stages: seq<StageEvaluation>, score: PlanScore)

  /** The evidence and the accumulated score of the first n stages. */
  ghost function ScoredStages(inventory: Inventory, profile: ProfileSnapshot, plan: Plan, request: ScoringRequest,
                              selected: seq<Candidate>, n: nat): (r: Result<Scored, ScoreError>)
    requires n <= |plan.stages| == |request.stages| == |selected|
    requires TargetsPresent(inventory, plan)
    ensures r.Ok? ==> |r.value.stages| == n
  {
    hide MergeStageScore, ChargeOf, WorkersByID;
    if n == 0 then Ok(Scored([], ZERO_SCORE.(stageCount := |plan.stages|))) else
    var before := ScoredStages(inventory, profile, plan, request, selected, n - 1);
    if before.Err? then before else
    var stage := plan.stages[n - 1];
    var charge := ChargeOf(profile, plan.model, request, WorkersByID(inventory.workers)[stage.targetID], selected[n - 1],
                           stage.layerStart, stage.layerEnd, request.stages[n - 1]);
    if charge.Err? then Err(charge.error) else
    var score := MergeStageScore(before.value.score, charge.value);
    if score.Err? then Err(score.error)
    else Ok(Scored(before.value.stages + [StageEvaluation(stage, selected[n - 1], charge.value.compute, charge.value.transfer)],
                   score.value))
  }

  const NO_COMPUTE := ComputeScore(0, false, false)
  const NO_TRANSFER := TransferScore(0, false, false)

  function Evidence(plan: Plan, selected: seq<Candidate>): (r: seq<StageEvaluation>)
    requires |selected| <= |plan.stages|
    ensures |r| == |selected|
  {
    seq(|selected|, i requires 0 <= i < |selected| => StageEvaluation(plan.stages[i], selected[i], NO_COMPUTE, NO_TRANSFER))
  }

  ghost predicate AllEligible(candidates: seq<Candidate>) {
    forall i :: 0 <= i < |candidates| ==> candidates[i].eligible
  }

  ghost function ScoreOf(inventory: Inventory, profile: ProfileSnapshot, plan: Plan, request: ScoringRequest)
    : Result<PlanEvaluation, ScoreError>
  {
    hide Selected, ScoredStages, Scorable;
    if !Scorable(inventory, profile, plan, request) then Err(Malformed) else
    StageCountsAgree(inventory, profile, plan, request);
    var selected := Selected(inventory, plan, request, |plan.stages|);
    if selected.Err? then Err(selected.error)
    else if !AllEligible(selected.value) then
      Ok(PlanEvaluation(plan, request, false, Evidence(plan, selected.value), ZERO_SCORE.(stageCount := |plan.stages|)))
    else
      AllTargetsPresent(inventory, plan, request);
      var scored := ScoredStages(inventory, profile, plan, request, selected.value, |plan.stages|);
      if scored.Err? then Err(scored.error)
      else Ok(PlanEvaluation(plan, request, true, scored.value.stages, scored.value.score))
  }

  // ---------------------------------------------------------------------------
  // The scoring loop

  method ValidateScoringInputs(inventory: Inventory, profile: ProfileSnapshot, plan: Plan, request: ScoringRequest)
    returns (valid: bool)
    ensures valid <==> Scorable(inventory, profile, plan, request)
  {
    hide ValidPlan, SnapshotsAgree, ContextValid, EstimateValid;
    valid := ValidateExecutionPlan(plan);
    if !valid || plan.inventoryRevision != Decimal(inventory.revision) || !SnapshotsAgree(inventory, profile)
       || !ContextValid(request) || |request.stages| != |plan.stages| {
      return false;
    }
    for i := 0 to |request.stages|
      invariant forall k :: 0 <= k < i ==> EstimateValid(request.stages[k], request.decodeSteps)
    {
      if !EstimateValid(request.stages[i], request.decodeSteps) { return false; }
    }
  }

  /** The first loop: evidence for every stage. */
  method SelectTargets(inventory: Inventory, plan: Plan, request: ScoringRequest)
    returns (r: Result<seq<Candidate>, ScoreError>, eligible: bool)
    requires |plan.stages| == |request.stages|
    ensures r == Selected(inventory, plan, request, |plan.stages|)
    ensures r.Ok? ==> (eligible <==> AllEligible(r.value))
  {
    hide SelectCandidate, WorkersByID;
    eligible := true;
    var selected: seq<Candidate> := [];
    for index := 0 to |plan.stages|
      invariant Selected(inventory, plan, request, index) == Ok(selected)
      invariant eligible <==> AllEligible(selected)
    {
      var found := SelectCandidate(inventory, RequirementAt(plan, request, index), plan.stages[index].targetID);
      if found.Err? {
        SelectionFails(inventory, plan, request, index + 1);
        return Err(found.error), eligible;
      }
      ghost var before := selected;
      selected := selected + [found.value];
      assert selected[..|before|] == before && selected[|before|] == found.value;
      if !found.value.eligible { eligible := false; }
    }
    r := Ok(selected);
  }

  /** The second loop: the cost of every stage, merged in plan order. */
  method ScoreSelected(inventory: Inventory, profile: ProfileSnapshot, plan: Plan, request: ScoringRequest, selected: seq<Candidate>)
    returns (r: Result<Scored, ScoreError>)
    requires |plan.stages| == |request.stages| == |selected| && TargetsPresent(inventory, plan)
    ensures r == ScoredStages(inventory, profile, plan, request, selected, |plan.stages|)
  {
    hide MergeStageScore, ChargeOf, WorkersByID;
    var workers := WorkersByID(inventory.workers);
    var stages: seq<StageEvaluation> := [];
    var score := ZERO_SCORE.(stageCount := |plan.stages|);
    for index := 0 to |plan.stages|
      invariant ScoredStages(inventory, profile, plan, request, selected, index) == Ok(Scored(stages, score))
    {
      var stage := plan.stages[index];
      var charge := ChargeOf(profile, plan.model, request, workers[stage.targetID], selected[index],
                             stage.layerStart, stage.layerEnd, request.stages[index]);
      if charge.Err? {
        ScoringFails(inventory, profile, plan, request, selected, index + 1);
        return Err(charge.error);
      }
      var merged := MergeStageScore(score, charge.value);
      if merged.Err? {
        ScoringFails(inventory, profile, plan, request, selected, index + 1);
        return Err(merged.error);
      }
      stages := stages + [StageEvaluation(stage, selected[index], charge.value.compute, charge.value.transfer)];
      score := merged.value;
    }
    return Ok(Scored(stages, score));
  }

  method ScorePlan(inventory: Inventory, profile: ProfileSnapshot, plan: Plan, request: ScoringRequest)
    returns (r: Result<PlanEvaluation, ScoreError>)
    ensures r == ScoreOf(inventory, profile, plan, request)
  {
    hide Scorable, Selected, ScoredStages;
    var valid := ValidateScoringInputs(inventory, profile, plan, request);
    if !valid { return Err(Malformed); }
    StageCountsAgree(inventory, profile, plan, request);
    var selected, eligible := SelectTargets(inventory, plan, request);
    if selected.Err? { return Err(selected.error); }
    if !eligible {
      return Ok(PlanEvaluation(plan, request, false, Evidence(plan, selected.value), ZERO_SCORE.(stageCount := |plan.stages|)));
    }
    AllTargetsPresent(inventory, plan, request);
    var scored := ScoreSelected(inventory, profile, plan, request, selected.value);
    if scored.Err? { return Err(scored.error); }
    return Ok(PlanEvaluation(plan, request, true, scored.value.stages, scored.value.score));
  }

  lemma StageCountsAgree(inventory: Inventory, profile: ProfileSnapshot, plan: Plan, request: ScoringRequest)
    requires Scorable(inventory, profile, plan, request)
    ensures |request.stages| == |plan.stages|
  {
  }

  lemma {:induction false} SelectionFails(inventory: Inventory, plan: Plan, request: ScoringRequest, n: nat)
    requires n <= |plan.stages| == |request.stages| && Selected(inventory, plan, request, n).Err?
    ensures Selected(inventory, plan, request, |plan.stages|) == Selected(inventory, plan, request, n)
    decreases |plan.stages| - n
  {
    hide SelectCandidate;
    if n < |plan.stages| { SelectionFails(inventory, plan, request, n + 1); }
  }

  lemma {:induction false} ScoringFails(inventory: Inventory, profile: ProfileSnapshot, plan: Plan, request: ScoringRequest,
                                        selected: seq<Candidate>, n: nat)
    requires n <= |plan.stages| == |request.stages| == |selected|
    requires TargetsPresent(inventory, plan)
    requires ScoredStages(inventory, profile, plan, request, selected, n).Err?
    ensures ScoredStages(inventory, profile, plan, request, selected, |plan.stages|)
            == ScoredStages(inventory, profile, plan, request, selected, n)
    decreases |plan.stages| - n
  {
    hide MergeStageScore, ChargeOf, WorkersByID;
    if n < |plan.stages| { ScoringFails(inventory, profile, plan, request, selected, n + 1); }
  }
}
