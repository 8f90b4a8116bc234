/** A constructed plan meets the scheduler that built it on the same inventory. */
module PlannerAdmission {
  import opened WideArithmetic
  import opened Membership
  import opened Placement
  import opened PlanScoring
  import opened PlanPaths
  import opened PlanOptions
  import opened CompletePlans
  import Execution
  import Scheduler

  function StageWorkerKey(worker: Worker): Scheduler.WorkerKey {
    Scheduler.WorkerKey(worker.ID(), worker.InstanceID())
  }

  function StageKey(evaluation: PlanEvaluation, path: Path, i: nat): Scheduler.SequenceKey
    requires i < |path| && i < |evaluation.plan.stages|
  {
    Scheduler.SequenceKey(StageWorkerKey(path[i].charge.worker), evaluation.plan.stages[i].shardID)
  }

  /** The ledger holds nothing for the stage's shard or worker. */
  ghost predicate Unreserved(ledger: Scheduler.Ledger, evaluation: PlanEvaluation, path: Path, i: nat)
    requires i < |path| && i < |evaluation.plan.stages|
  {
    && Scheduler.SequenceStateOf(ledger, StageKey(evaluation, path, i)) == Scheduler.NO_SEQUENCES
    && Scheduler.WorkerStateOf(ledger, StageWorkerKey(path[i].charge.worker)) == Scheduler.NO_REQUESTS
  }

  /** The status can be ordered against local events and leaves room on the shard. */
  ghost predicate StatusAdmits(evaluation: PlanEvaluation, path: Path, i: nat)
    requires i < |path| && i < |evaluation.plan.stages|
  {
    var worker := path[i].charge.worker;
    && worker.Status().workerObservationSequence != 0
    && ReportedOpen(worker.Status().retainedShards, evaluation.plan.stages[i].shardID)
       < worker.Admission().maxOpenSequencesPerShard
  }

  predicate EvidenceError(error: Scheduler.AdmissionError) {
    error.EvidenceIncomplete? || error.TargetMissing? || error.WrongCandidate? || error.InconsistentMemory?
  }

  /** What eligibility established about the worker of one stage. */
  lemma OptionFacts(inventory: Inventory, profile: ProfileSnapshot, request: ConstructionRequest, path: Path, i: nat)
    requires RequestValid(inventory, profile, request) && i < |path| && IsOption(inventory, profile, request, path[i])
    ensures var edge := path[i];
            var status := edge.charge.worker.Status();
            var candidate := edge.charge.candidate;
            && candidate.workerID == edge.Target()
            && candidate.requiredAdditionalMemoryBytes == edge.range.estimate.sequenceMemoryBytes
               + (if candidate.reusesRetainedShard then 0 else edge.range.estimate.loadMemoryBytes)
            && status.openSequenceCount < edge.charge.worker.Admission().maxConcurrentRequests
            && candidate.requiredAdditionalMemoryBytes <= status.availableMemoryBytes
            && status.retainedBytes + edge.range.estimate.sequenceMemoryBytes
               <= edge.charge.worker.Admission().retainedByteBudget
  {
  }

  lemma EmptyWorkerReserves()
    ensures Scheduler.ReservedWorkerMemory(Scheduler.NO_REQUESTS) == Some((0, 0))
  {
  }

  /** The evidence of one stage matches its worker and estimate, and the worker has
      room for it when nothing else is reserved. */
  ghost predicate EvidenceMatches(workers: Scheduler.Workers, evaluation: PlanEvaluation, i: nat, worker: Worker)
    requires i < |evaluation.plan.stages| == |evaluation.stages| == |evaluation.request.stages|
  {
    var candidate, cost, status := evaluation.stages[i].selectedCandidate, evaluation.request.stages[i], worker.Status();
    && evaluation.plan.stages[i].targetID in workers && workers[evaluation.plan.stages[i].targetID] == worker
    && candidate.workerID == worker.ID()
    && candidate.requiredAdditionalMemoryBytes ==
       cost.sequenceMemoryBytes + (if candidate.reusesRetainedShard then 0 else cost.loadMemoryBytes)
    && status.openSequenceCount < worker.Admission().maxConcurrentRequests
    && candidate.requiredAdditionalMemoryBytes <= status.availableMemoryBytes
    && status.retainedBytes + cost.sequenceMemoryBytes <= worker.Admission().retainedByteBudget
  }

  lemma MatchingEvidencePasses(ledger: Scheduler.Ledger, workers: Scheduler.Workers, evaluation: PlanEvaluation, i: nat, worker: Worker)
    requires i < |evaluation.plan.stages| == |evaluation.stages| == |evaluation.request.stages|
    requires EvidenceMatches(workers, evaluation, i, worker)
    ensures var checked := Scheduler.CheckStage(ledger, workers, evaluation, i);
            var key := Scheduler.SequenceKey(StageWorkerKey(worker), evaluation.plan.stages[i].shardID);
            && (checked.Err? ==> !EvidenceError(checked.error))
            && (Scheduler.SequenceStateOf(ledger, key) == Scheduler.NO_SEQUENCES
                && Scheduler.WorkerStateOf(ledger, key.worker) == Scheduler.NO_REQUESTS ==>
                  (checked.Ok? <==>
                    && worker.Status().workerObservationSequence != 0
                    && ReportedOpen(worker.Status().retainedShards, key.shardID) < worker.Admission().maxOpenSequencesPerShard))
  {
    hide Scheduler.ReservedWorkerMemory, Scheduler.SequenceStateOf, Scheduler.WorkerStateOf;
    EmptyWorkerReserves();
  }

  lemma EvaluationShape(inventory: Inventory, request: ConstructionRequest, path: Path, i: nat)
    requires Fold(path).Ok? && i < |path|
    ensures var e := EvaluationOf(inventory, request, path);
            && |e.plan.stages| == |e.stages| == |e.request.stages| == |path|
            && e.plan.stages[i].targetID == path[i].Target()
            && e.stages[i].selectedCandidate == path[i].charge.candidate
            && e.request.stages[i] == path[i].range.estimate
  {
    hide Fold, Execution.ShardIDOf, Execution.PlanRevision;
  }

  /** One stage never fails an evidence check, and with nothing reserved it passes
      exactly when the status admits it. */
  lemma StageAdmitted(inventory: Inventory, profile: ProfileSnapshot, request: ConstructionRequest, path: Path,
                      ledger: Scheduler.Ledger, i: nat)
    requires RequestValid(inventory, profile, request) && i < |path| && IsOption(inventory, profile, request, path[i])
    requires Fold(path).Ok?
    ensures var evaluation := EvaluationOf(inventory, request, path);
            var checked := Scheduler.CheckStage(ledger, WorkersByID(inventory.workers), evaluation, i);
            && (checked.Err? ==> !EvidenceError(checked.error))
            && (Unreserved(ledger, evaluation, path, i) ==> (checked.Ok? <==> StatusAdmits(evaluation, path, i)))
  {
    hide IsOption, RequestValid, Fold, EvaluationOf, Scheduler.CheckStage, WorkersByID;
    EvaluationShape(inventory, request, path, i);
    OptionFacts(inventory, profile, request, path, i);
    UniqueInRequest(inventory, profile, request, path[i]);
    IndexedWorker(inventory, path[i].charge.worker);
    MatchingEvidencePasses(ledger, WorkersByID(inventory.workers), EvaluationOf(inventory, request, path), i, path[i].charge.worker);
  }

  lemma UniqueInRequest(inventory: Inventory, profile: ProfileSnapshot, request: ConstructionRequest, edge: Edge)
    requires RequestValid(inventory, profile, request) && IsOption(inventory, profile, request, edge)
    ensures UniqueIDs(inventory.workers) && edge.charge.worker in inventory.workers
  {
  }

  /** All stages pass exactly when each does; the error is that of a failing stage. */
  lemma {:induction false} StagesPass(ledger: Scheduler.Ledger, workers: Scheduler.Workers, evaluation: PlanEvaluation, n: nat)
    requires n <= |evaluation.plan.stages| == |evaluation.stages| == |evaluation.request.stages|
    ensures var checked := Scheduler.CheckStages(ledger, workers, evaluation, n);
            && (checked.Ok? <==> forall i :: 0 <= i < n ==> Scheduler.CheckStage(ledger, workers, evaluation, i).Ok?)
            && (checked.Err? ==> exists i :: 0 <= i < n && Scheduler.CheckStage(ledger, workers, evaluation, i) == Err(checked.error))
  {
    hide Scheduler.CheckStage;
    if n > 0 { StagesPass(ledger, workers, evaluation, n - 1); }
  }

  lemma UnreservedReconciled(ledger: Scheduler.Ledger, workers: Scheduler.Workers, evaluation: PlanEvaluation, path: Path, i: nat)
    requires i < |path| && i < |evaluation.plan.stages| && Unreserved(ledger, evaluation, path, i)
    ensures Unreserved(Scheduler.Reconcile(ledger, workers), evaluation, path, i)
  {
    var key, worker := StageKey(evaluation, path, i), StageWorkerKey(path[i].charge.worker);
    if key in ledger.reservations { assert ledger.reservations[key] == Scheduler.NO_SEQUENCES; }
    if worker in ledger.workers { assert ledger.workers[worker] == Scheduler.NO_REQUESTS; }
  }

  /** A plan constructed on an inventory always carries the evidence that admission
      on the same inventory asks for; when nothing is reserved for its stages it is
      admitted exactly when every worker's status admits its stage. */
  lemma ConstructedPlanAdmitted(inventory: Inventory, profile: ProfileSnapshot, request: ConstructionRequest,
                                selected: PlanEvaluation, path: Path, ledger: Scheduler.Ledger)
    requires RequestValid(inventory, profile, request) && Fold(path).Ok?
    requires FeasiblePlan(inventory, profile, request, path) && selected == EvaluationOf(inventory, request, path)
    ensures var result := Scheduler.ReserveAdmission(ledger, WorkersByID(inventory.workers), selected).1;
            && (result.Err? ==> !EvidenceError(result.error))
            && ((forall i :: 0 <= i < |path| ==> Unreserved(ledger, selected, path, i)) ==>
                  (result.Ok? <==> forall i :: 0 <= i < |path| ==> StatusAdmits(selected, path, i)))
  {
    hide RequestValid, Fold, IsOption, Scheduler.CheckStage, Scheduler.Reconcile, Scheduler.CheckStages, Scheduler.ChargeStages,
      Unreserved, StatusAdmits, Chained, WorkersByID, Execution.ShardIDOf;
    var workers := WorkersByID(inventory.workers);
    var reconciled := Scheduler.Reconcile(ledger, workers);
    forall i | 0 <= i < |path|
      ensures var checked := Scheduler.CheckStage(reconciled, workers, selected, i);
              && (checked.Err? ==> !EvidenceError(checked.error))
              && (Unreserved(reconciled, selected, path, i) ==> (checked.Ok? <==> StatusAdmits(selected, path, i)))
    {
      StageAdmitted(inventory, profile, request, path, reconciled, i);
    }
    StagesPass(reconciled, workers, selected, |path|);
    forall i | 0 <= i < |path| && Unreserved(ledger, selected, path, i) ensures Unreserved(reconciled, selected, path, i) {
      UnreservedReconciled(ledger, workers, selected, path, i);
    }
  }

  /** Equal shard IDs mean compatible shards, for one stage. */
  ghost predicate ShardsCompatible(request: ConstructionRequest, path: Path, i: nat)
    requires i < |path|
  {
    var requirement := RangeRequirement(request, path[i].range);
    forall s :: s in path[i].charge.worker.Status().retainedShards && s.id == requirement.shardID ==> Reusable(s, requirement)
  }

  lemma {:induction false} CompatibleIsReported(shards: seq<RetainedShard>, requirement: StageRequirement)
    requires requirement.shardID != ""
    requires forall s :: s in shards && s.id == requirement.shardID ==> Reusable(s, requirement)
    ensures var found := CompatibleRetainedShard(shards, requirement);
            ReportedOpen(shards, requirement.shardID) == if found.Some? then found.value.openSequenceCount else 0
  {
    if shards != [] {
      assert shards == [shards[0]] + shards[1..];
      if shards[0].id == requirement.shardID {
        assert shards[0] in shards;
      } else {
        CompatibleIsReported(shards[1..], requirement);
      }
    }
  }

  /** Eligibility then already left room on the shard, so with positive limits and
      numbered statuses an unreserved plan is admitted. */
  lemma StatusAdmitsConstructed(inventory: Inventory, profile: ProfileSnapshot, request: ConstructionRequest, path: Path, i: nat)
    requires RequestValid(inventory, profile, request) && Fold(path).Ok?
    requires i < |path| && IsOption(inventory, profile, request, path[i]) && ShardsCompatible(request, path, i)
    requires path[i].charge.worker.Status().workerObservationSequence != 0
    requires path[i].charge.worker.Admission().maxOpenSequencesPerShard > 0
    ensures StatusAdmits(EvaluationOf(inventory, request, path), path, i)
  {
    hide Fold, RequestValid, Execution.ShardIDOf, ScoreStageCompute, ScoreStageTransfer;
    var requirement := RangeRequirement(request, path[i].range);
    StageRequirementIsRangeRequirement(inventory, request, path, i);
    CompatibleIsReported(path[i].charge.worker.Status().retainedShards, requirement);
    EligibleLeavesRoom(inventory, requirement, path[i].charge.worker);
  }

  lemma EligibleLeavesRoom(inventory: Inventory, requirement: StageRequirement, worker: Worker)
    requires RequirementValid(requirement) && CandidateOf(inventory, requirement, worker).eligible
    ensures var found := CompatibleRetainedShard(worker.Status().retainedShards, requirement);
            found.Some? ==> found.value.openSequenceCount < worker.Admission().maxOpenSequencesPerShard
  {
    hide RequirementValid, TransportRejections, StageOperations;
  }
}
