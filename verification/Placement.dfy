/** Hard placement constraints and plan scoring. */
module Placement {
  import opened WideArithmetic
  import opened Membership
  import opened Text
  import Execution

  datatype TransportRequirement = TransportRequirement(protocol: string, tensorEncoding: string, requireTLS: bool)

  datatype StageRequirement = StageRequirement(
    model: Execution.Model, adapter: string, shardID: string, layerStart: int, layerEnd: int,
    ownsInput: bool, ownsOutput: bool, loadMemoryBytes: uint64, sequenceMemoryBytes: uint64,
    transport: TransportRequirement, statusMaxAge: int)

  datatype Rejection =
    | StaleStatus | Unhealthy | UnsupportedAdapter | IncompatibleCheckpoint | UnsupportedOperation
    | UnsupportedTransport | UnsupportedEncoding | TLSRequired | WorkerCapacityExhausted
    | InsufficientMemory | RetainedBudgetExceeded | SequenceCapacityExhausted

  datatype Candidate = Candidate(
    workerID: string, endpoint: string, eligible: bool, reusesRetainedShard: bool,
    requiredAdditionalMemoryBytes: uint64, rejections: seq<Rejection>)

  // ---------------------------------------------------------------------------
  // Eligibility

  predicate Reusable(shard: RetainedShard, requirement: StageRequirement) {
    && shard.id == requirement.shardID && shard.modelID == requirement.model.id
    && shard.checkpointFingerprint == requirement.model.checkpointFingerprint
    && shard.layerStart == requirement.layerStart && shard.layerEnd == requirement.layerEnd
    && shard.ownsInput == requirement.ownsInput && shard.ownsOutput == requirement.ownsOutput
  }

  /** The first retained shard that already holds the required range, if any. */
  function CompatibleRetainedShard(shards: seq<RetainedShard>, requirement: StageRequirement): (r: Option<RetainedShard>)
    ensures r.Some? ==> r.value in shards && Reusable(r.value, requirement)
    ensures requirement.shardID != "" && r.None? ==> forall s :: s in shards ==> !Reusable(s, requirement)
  {
    if requirement.shardID == "" || shards == [] then None
    else if Reusable(shards[0], requirement) then Some(shards[0])
    else CompatibleRetainedShard(shards[1..], requirement)
  }

  function AdvertisedTransport(transports: seq<Transport>, protocol: string): (r: Option<Transport>)
    ensures r.Some? ==> r.value in transports && r.value.protocol == protocol
  {
    if transports == [] then None
    else if transports[0].protocol == protocol then Some(transports[0])
    else AdvertisedTransport(transports[1..], protocol)
  }

  const BASE_OPERATIONS: seq<string> :=
    ["closeSequence", "decode", "loadShard", "modelInfo", "openSequence", "prefill", "state"]

  function StageOperations(requirement: StageRequirement): seq<string> {
    BASE_OPERATIONS + if requirement.ownsInput then ["detokenize", "tokenize"] else []
  }

  function When(condition: bool, code: Rejection): seq<Rejection> {
    if condition then [code] else []
  }

  /** The requirement is one that candidates can be evaluated against at all. */
  predicate RequirementValid(requirement: StageRequirement) {
    && requirement.model.id != "" && requirement.model.checkpointFingerprint != "" && requirement.model.layerCount > 0
    && requirement.adapter != ""
    && 0 <= requirement.layerStart < requirement.layerEnd <= requirement.model.layerCount
    && requirement.ownsInput == (requirement.layerStart == 0)
    && requirement.ownsOutput == (requirement.layerEnd == requirement.model.layerCount)
    && requirement.loadMemoryBytes > 0 && requirement.sequenceMemoryBytes > 0
    && requirement.loadMemoryBytes + requirement.sequenceMemoryBytes <= MAX_UINT64
    && requirement.transport.protocol != "" && requirement.transport.tensorEncoding != ""
    && requirement.statusMaxAge >= 0
  }

  function StatusWindow(inventory: Inventory, requirement: StageRequirement): int {
    if requirement.statusMaxAge == 0 then inventory.leaseTTL else requirement.statusMaxAge
  }

  function TransportRejections(worker: Worker, requirement: TransportRequirement): seq<Rejection> {
    match AdvertisedTransport(worker.registration.capabilities.transports, requirement.protocol)
    case None => [UnsupportedTransport]
    case Some(transport) =>
      When(requirement.tensorEncoding !in transport.tensorEncodings, UnsupportedEncoding)
      + When(requirement.requireTLS && !transport.tls, TLSRequired)
  }

  function CapacityRejections(worker: Worker, requirement: StageRequirement, retained: Option<RetainedShard>,
                              required: uint64): seq<Rejection> {
    var status := worker.Status();
    var (projectedRetained, overflow) := AddOverflow(status.retainedBytes, requirement.sequenceMemoryBytes);
    When(status.openSequenceCount >= worker.Admission().maxConcurrentRequests, WorkerCapacityExhausted)
    + When(status.availableMemoryBytes < required, InsufficientMemory)
    + When(overflow || projectedRetained > worker.Admission().retainedByteBudget, RetainedBudgetExceeded)
    + When(retained.Some? && retained.value.openSequenceCount >= worker.Admission().maxOpenSequencesPerShard,
           SequenceCapacityExhausted)
  }

  function EvaluateCandidate(at: int, statusMaxAge: int, requirement: StageRequirement, worker: Worker): (c: Candidate)
    requires RequirementValid(requirement)
    ensures c.workerID == worker.ID() && (c.eligible <==> c.rejections == [])
    ensures c.requiredAdditionalMemoryBytes ==
            requirement.sequenceMemoryBytes + if c.reusesRetainedShard then 0 else requirement.loadMemoryBytes
    ensures c.eligible ==>
              && worker.Status().openSequenceCount < worker.Admission().maxConcurrentRequests
              && c.requiredAdditionalMemoryBytes <= worker.Status().availableMemoryBytes
              && worker.Status().retainedBytes + requirement.sequenceMemoryBytes <= worker.Admission().retainedByteBudget
  {
    var retained := CompatibleRetainedShard(worker.Status().retainedShards, requirement);
    var required := requirement.sequenceMemoryBytes + if retained.None? then requirement.loadMemoryBytes else 0;
    var capabilities := worker.registration.capabilities;
    var rejections :=
      When(!worker.StatusFresh(at, statusMaxAge), StaleStatus)
      + When(worker.Status().health != Healthy, Unhealthy)
      + When(requirement.adapter !in capabilities.adapters, UnsupportedAdapter)
      + When(capabilities.checkpointFingerprints != []
             && requirement.model.checkpointFingerprint !in capabilities.checkpointFingerprints, IncompatibleCheckpoint)
      + When(exists operation :: operation in StageOperations(requirement) && operation !in capabilities.operations,
             UnsupportedOperation)
      + TransportRejections(worker, requirement.transport)
      + CapacityRejections(worker, requirement, retained, required);
    Candidate(worker.ID(), worker.registration.endpoint, rejections == [], retained.Some?, required, rejections)
  }

  /** The stage's shard is already resident on the worker. */
  ghost predicate Resident(shards: seq<RetainedShard>, requirement: StageRequirement) {
    requirement.shardID != "" && exists s :: s in shards && Reusable(s, requirement)
  }

  predicate Speaks(transport: Transport, requirement: TransportRequirement) {
    requirement.tensorEncoding in transport.tensorEncodings && (requirement.requireTLS ==> transport.tls)
  }

  /** What a worker needs to run the stage, in unbounded arithmetic. */
  ghost predicate Suitable(at: int, statusMaxAge: int, requirement: StageRequirement, worker: Worker) {
    var status, capabilities, limits := worker.Status(), worker.registration.capabilities, worker.Admission();
    var transport := AdvertisedTransport(capabilities.transports, requirement.transport.protocol);
    var shard := CompatibleRetainedShard(status.retainedShards, requirement);
    && worker.StatusFresh(at, statusMaxAge) && status.health == Healthy
    && requirement.adapter in capabilities.adapters
    && (capabilities.checkpointFingerprints == []
        || requirement.model.checkpointFingerprint in capabilities.checkpointFingerprints)
    && (forall operation :: operation in StageOperations(requirement) ==> operation in capabilities.operations)
    && transport.Some? && Speaks(transport.value, requirement.transport)
    && status.openSequenceCount < limits.maxConcurrentRequests
    && requirement.sequenceMemoryBytes
       + (if Resident(status.retainedShards, requirement) then 0 else requirement.loadMemoryBytes)
       <= status.availableMemoryBytes
    && status.retainedBytes + requirement.sequenceMemoryBytes <= limits.retainedByteBudget
    && (shard.Some? ==> shard.value.openSequenceCount < limits.maxOpenSequencesPerShard)
  }

  /** Nothing else makes a candidate eligible, and nothing else rules it out. */
  lemma EligibleIffSuitable(at: int, statusMaxAge: int, requirement: StageRequirement, worker: Worker)
    requires RequirementValid(requirement)
    ensures var c := EvaluateCandidate(at, statusMaxAge, requirement, worker);
            && (c.eligible <==> Suitable(at, statusMaxAge, requirement, worker))
            && (c.reusesRetainedShard <==> Resident(worker.Status().retainedShards, requirement))
  {
    FoundIffResident(worker.Status().retainedShards, requirement);
    hide StageOperations, CompatibleRetainedShard, AdvertisedTransport, Reusable, Resident;
    var capabilities := worker.registration.capabilities;
    var transports := TransportRejections(worker, requirement.transport);
    var transport := AdvertisedTransport(capabilities.transports, requirement.transport.protocol);
    assert transports == [] <==> transport.Some? && Speaks(transport.value, requirement.transport);
  }

  lemma {:induction false} FoundIffResident(shards: seq<RetainedShard>, requirement: StageRequirement)
    ensures CompatibleRetainedShard(shards, requirement).Some? <==> Resident(shards, requirement)
  {
    hide Reusable;
    if requirement.shardID != "" && shards != [] { FoundIffResident(shards[1..], requirement); }
  }

  // ---------------------------------------------------------------------------
  // Cost inputs

  datatype StageCostEstimate = StageCostEstimate(
    loadMemoryBytes: uint64, sequenceMemoryBytes: uint64, prefillWireBytes: uint64, decodeWireBytesPerStep: uint64,
    fallbackPrefillComputeMicros: uint64, fallbackDecodeComputeMicrosPerStep: uint64)

  datatype ScoringRequest = ScoringRequest(
    adapter: string, transport: TransportRequirement, coordinatorID: string, coordinatorInstanceID: string,
    statusMaxAge: int, prefillInputTokens: uint64, decodeSteps: uint64, fallbackRTTMicros: uint64,
    fallbackBytesPerSecond: uint64, stages: seq<StageCostEstimate>)

  datatype ValueDistribution = ValueDistribution(count: nat, min: uint64, p50: uint64, p95: uint64, max: uint64)

  datatype LinkKey = LinkKey(
    sourceID: string, sourceInstanceID: string, targetID: string, targetInstanceID: string,
    protocol: string, tensorEncoding: string)

  datatype ComputeKey = ComputeKey(
    workerID: string, workerInstanceID: string, backend: string, model: Execution.Model, operation: string,
    layerStart: int, layerEnd: int)

  datatype LinkProfile = LinkProfile(
    key: LinkKey, latestObservedAt: int, rttMicros: ValueDistribution, effectiveBytesPerSecond: ValueDistribution)

  datatype ComputeProfile = ComputeProfile(
    key: ComputeKey, latestObservedAt: int, inputTokenCount: ValueDistribution, computeMicros: ValueDistribution)

  datatype ProfileSnapshot = ProfileSnapshot(
    revision: nat, generatedAt: int, maxAge: int, maxSamplesPerSeries: int, maxSeries: int,
    links: seq<LinkProfile>, compute: seq<ComputeProfile>)

  function FindLink(links: seq<LinkProfile>, key: LinkKey): Option<LinkProfile> {
    if links == [] then None else if links[0].key == key then Some(links[0]) else FindLink(links[1..], key)
  }

  function FindCompute(profiles: seq<ComputeProfile>, key: ComputeKey): Option<ComputeProfile> {
    if profiles == [] then None else if profiles[0].key == key then Some(profiles[0]) else FindCompute(profiles[1..], key)
  }

  predicate EstimateValid(estimate: StageCostEstimate, decodeSteps: uint64) {
    && estimate.loadMemoryBytes > 0 && estimate.sequenceMemoryBytes > 0
    && estimate.prefillWireBytes > 0 && estimate.decodeWireBytesPerStep > 0
    && estimate.fallbackPrefillComputeMicros > 0 && estimate.fallbackDecodeComputeMicrosPerStep > 0
    && !AddOverflow(estimate.loadMemoryBytes, estimate.sequenceMemoryBytes).1
    && !MultiplyOverflow(estimate.decodeWireBytesPerStep, decodeSteps).1
    && !MultiplyOverflow(estimate.fallbackDecodeComputeMicrosPerStep, decodeSteps).1
  }

  predicate ContextValid(request: ScoringRequest) {
    && request.adapter != "" && request.coordinatorID != "" && request.coordinatorInstanceID != ""
    && request.transport.protocol != "" && request.transport.tensorEncoding != ""
    && request.statusMaxAge >= 0
    && request.prefillInputTokens > 0 && request.decodeSteps > 0
    && request.fallbackRTTMicros > 0 && request.fallbackBytesPerSecond > 0
  }

  // ---------------------------------------------------------------------------
  // Cost of one stage

  datatype ScoreError = CostOverflow | NegativeCounter | Malformed | ScoreDisagrees | SearchLimit

  datatype ComputeScore = ComputeScore(totalMicros: uint64, prefillProfiled: bool, decodeProfiled: bool)
  datatype TransferScore = TransferScore(totalMicros: uint64, rttProfiled: bool, bandwidthProfiled: bool)

  function CheckedAdd(left: uint64, right: uint64): (r: Result<uint64, ScoreError>)
    ensures r == if left + right <= MAX_UINT64 then Ok(left + right) else Err(CostOverflow)
  {
    var (sum, overflow) := AddOverflow(left, right);
    if overflow then Err(CostOverflow) else Ok(sum)
  }

  function CheckedMultiply(left: uint64, right: uint64): (r: Result<uint64, ScoreError>)
    ensures r == if left * right <= MAX_UINT64 then Ok(left * right) else Err(CostOverflow)
  {
    var (product, overflow) := MultiplyOverflow(left, right);
    if overflow then Err(CostOverflow) else Ok(product)
  }

  function CheckedScale(left: uint64, right: uint64, denominator: uint64): (r: Result<uint64, ScoreError>)
    ensures r.Ok? ==> denominator > 0 && IsCeiling(r.value, left * right, denominator)
  {
    match MultiplyDivideCeil(left, right, denominator)
    case Ok(value) => Ok(value)
    case Err(_) => Err(CostOverflow)
  }

  function EstimateCompute(profile: Option<ComputeProfile>, inputTokens: uint64, repetitions: uint64,
                           fallbackMicros: uint64): Result<uint64, ScoreError> {
    var perCall :=
      match profile
      case None => Ok(fallbackMicros)
      case Some(p) => CheckedScale(p.computeMicros.p50, inputTokens, p.inputTokenCount.p50);
    if perCall.Err? then perCall else CheckedMultiply(perCall.value, repetitions)
  }

  function ProfileKeyOf(worker: Worker, model: Execution.Model, layerStart: int, layerEnd: int, operation: string): ComputeKey {
    ComputeKey(worker.ID(), worker.InstanceID(), worker.registration.capabilities.backend, model, operation,
               layerStart, layerEnd)
  }

  function ScoreStageCompute(profile: ProfileSnapshot, model: Execution.Model, worker: Worker, layerStart: int,
                             layerEnd: int, request: ScoringRequest, estimate: StageCostEstimate)
    : Result<ComputeScore, ScoreError>
  {
    var prefillProfile := FindCompute(profile.compute, ProfileKeyOf(worker, model, layerStart, layerEnd, "prefill"));
    var decodeProfile := FindCompute(profile.compute, ProfileKeyOf(worker, model, layerStart, layerEnd, "decode"));
    var prefill := EstimateCompute(prefillProfile, request.prefillInputTokens, 1, estimate.fallbackPrefillComputeMicros);
    var decode := EstimateCompute(decodeProfile, 1, request.decodeSteps, estimate.fallbackDecodeComputeMicrosPerStep);
    if prefill.Err? then Err(prefill.error)
    else if decode.Err? then Err(decode.error)
    else
      var total := CheckedAdd(prefill.value, decode.value);
      if total.Err? then Err(total.error)
      else Ok(ComputeScore(total.value, prefillProfile.Some?, decodeProfile.Some?))
  }

  /** One traversal: the round trip plus the payload time, rounded up. */
  function Traversal(rtt: uint64, wireBytes: uint64, bandwidth: uint64): Result<uint64, ScoreError> {
    var payload := CheckedScale(wireBytes, MICROS_PER_SECOND, bandwidth);
    if payload.Err? then payload else CheckedAdd(rtt, payload.value)
  }

  function ScoreStageTransfer(profile: ProfileSnapshot, worker: Worker, request: ScoringRequest, estimate: StageCostEstimate)
    : Result<TransferScore, ScoreError>
  {
    var link := FindLink(profile.links,
      LinkKey(request.coordinatorID, request.coordinatorInstanceID, worker.ID(), worker.InstanceID(),
              request.transport.protocol, request.transport.tensorEncoding));
    var bandwidthProfiled := link.Some? && link.value.effectiveBytesPerSecond.count > 0;
    var rtt := if link.Some? then link.value.rttMicros.p50 else request.fallbackRTTMicros;
    var bandwidth := if bandwidthProfiled then link.value.effectiveBytesPerSecond.p50 else request.fallbackBytesPerSecond;
    var prefill := Traversal(rtt, estimate.prefillWireBytes, bandwidth);
    var decodeStep := Traversal(rtt, estimate.decodeWireBytesPerStep, bandwidth);
    if prefill.Err? then Err(prefill.error)
    else if decodeStep.Err? then Err(decodeStep.error)
    else
      var decode := CheckedMultiply(decodeStep.value, request.decodeSteps);
      if decode.Err? then Err(decode.error)
      else
        var total := CheckedAdd(prefill.value, decode.value);
        if total.Err? then Err(total.error) else Ok(TransferScore(total.value, link.Some?, bandwidthProfiled))
  }

  // ---------------------------------------------------------------------------
  // Accumulated score

  datatype PlanScore = PlanScore(
    stageCount: nat, estimatedMicros: uint64, computeMicros: uint64, transferMicros: uint64,
    recentFailureCount: uint64, restartCount: uint64, memoryPressureBytes: uint64,
    requiredAdditionalMemoryBytes: uint64, newLoadMemoryBytes: uint64, reusedStageCount: nat,
    profiledComputeOperationCount: nat, profiledRTTStageCount: nat, profiledBandwidthStageCount: nat)

  const ZERO_SCORE := PlanScore(0, 0, 0, 0, 0, 0, 0, 0, 0, 0, 0, 0, 0)

  /** Everything one stage adds to a score. */
  datatype StageCharge = StageCharge(
    worker: Worker, candidate: Candidate, estimate: StageCostEstimate, compute: ComputeScore, transfer: TransferScore)

  function Count(b: bool): nat { if b then 1 else 0 }

  /** Adds one stage to every score field except the stage count. */
  function MergeStageScore(score: PlanScore, charge: StageCharge): (r: Result<PlanScore, ScoreError>)
    ensures r.Ok? ==> Merged(score, charge, r.value)
  {
    var status := charge.worker.Status();
    var compute := CheckedAdd(score.computeMicros, charge.compute.totalMicros);
    var transfer := CheckedAdd(score.transferMicros, charge.transfer.totalMicros);
    if compute.Err? then Err(compute.error)
    else if transfer.Err? then Err(transfer.error)
    else
      var estimated := CheckedAdd(compute.value, transfer.value);
      if estimated.Err? then Err(estimated.error)
      else if status.recentFailureCount < 0 || status.restartCount < 0 then Err(NegativeCounter)
      else if status.recentFailureCount > MAX_UINT64 || status.restartCount > MAX_UINT64 then Err(CostOverflow)
      else
        var failures := CheckedAdd(score.recentFailureCount, status.recentFailureCount);
        var restarts := CheckedAdd(score.restartCount, status.restartCount);
        var pressure := CheckedAdd(score.memoryPressureBytes, status.memoryPressureBytes);
        var required := CheckedAdd(score.requiredAdditionalMemoryBytes, charge.candidate.requiredAdditionalMemoryBytes);
        var newLoad :=
          if charge.candidate.reusesRetainedShard then Ok(score.newLoadMemoryBytes)
          else CheckedAdd(score.newLoadMemoryBytes, charge.estimate.loadMemoryBytes);
        if failures.Err? || restarts.Err? || pressure.Err? || required.Err? || newLoad.Err? then Err(CostOverflow)
        else Ok(PlanScore(
          score.stageCount, estimated.value, compute.value, transfer.value, failures.value, restarts.value,
          pressure.value, required.value, newLoad.value,
          score.reusedStageCount + Count(charge.candidate.reusesRetainedShard),
          score.profiledComputeOperationCount + Count(charge.compute.prefillProfiled) + Count(charge.compute.decodeProfiled),
          score.profiledRTTStageCount + Count(charge.transfer.rttProfiled),
          score.profiledBandwidthStageCount + Count(charge.transfer.bandwidthProfiled)))
  }

  /** The merged score is exactly the old one plus the charge, field by field. */
  ghost predicate Merged(before: PlanScore, charge: StageCharge, after: PlanScore) {
    && after.stageCount == before.stageCount
    && after.computeMicros == before.computeMicros + charge.compute.totalMicros
    && after.transferMicros == before.transferMicros + charge.transfer.totalMicros
    && after.estimatedMicros == after.computeMicros + after.transferMicros
    && after.recentFailureCount == before.recentFailureCount + charge.worker.Status().recentFailureCount
    && after.restartCount == before.restartCount + charge.worker.Status().restartCount
    && after.memoryPressureBytes == before.memoryPressureBytes + charge.worker.Status().memoryPressureBytes
    && after.requiredAdditionalMemoryBytes ==
       before.requiredAdditionalMemoryBytes + charge.candidate.requiredAdditionalMemoryBytes
    && after.newLoadMemoryBytes == before.newLoadMemoryBytes
       + (if charge.candidate.reusesRetainedShard then 0 else charge.estimate.loadMemoryBytes)
  }

  // ---------------------------------------------------------------------------
  // Plan evaluations and their order

  datatype StageEvaluation = StageEvaluation(
    stage: Execution.Stage, selectedCandidate: Candidate, compute: ComputeScore, transfer: TransferScore)

  datatype PlanEvaluation = PlanEvaluation(
    plan: Execution.Plan, request: ScoringRequest, eligible: bool, stages: seq<StageEvaluation>, score: PlanScore)

  function ComparePlanScores(left: PlanScore, right: PlanScore): (order: int) {
    Then(CompareInts(left.estimatedMicros, right.estimatedMicros),
    Then(CompareInts(left.recentFailureCount, right.recentFailureCount),
    Then(CompareInts(left.memoryPressureBytes, right.memoryPressureBytes),
    Then(CompareInts(left.newLoadMemoryBytes, right.newLoadMemoryBytes),
    Then(CompareInts(left.requiredAdditionalMemoryBytes, right.requiredAdditionalMemoryBytes),
    Then(CompareInts(left.restartCount, right.restartCount),
         CompareInts(left.stageCount, right.stageCount)))))))
  }

  function CompareStageIdentity(left: Execution.Stage, right: Execution.Stage): (order: int) {
    Then(CompareStrings(left.name, right.name),
    Then(CompareStrings(left.targetID, right.targetID),
    Then(CompareStrings(left.responseMode.Text(), right.responseMode.Text()),
    Then(CompareInts(left.layerStart, right.layerStart),
    Then(CompareInts(left.layerEnd, right.layerEnd),
    Then(CompareBools(left.ownsInput, right.ownsInput),
    Then(CompareBools(left.ownsOutput, right.ownsOutput),
         CompareStrings(left.shardID, right.shardID))))))))
  }

  /** Stage-by-stage identity order of two equally long stage lists. */
  function CompareStageLists(left: seq<Execution.Stage>, right: seq<Execution.Stage>): (order: int)
    requires |left| == |right|
  {
    if left == [] then 0
    else Then(CompareStageIdentity(left[0], right[0]), CompareStageLists(left[1..], right[1..]))
  }

  function ComparePlanIdentity(left: Execution.Plan, right: Execution.Plan): (order: int) {
    var header :=
      Then(CompareStrings(left.schemaVersion, right.schemaVersion),
      Then(CompareStrings(left.inventoryRevision, right.inventoryRevision),
      Then(CompareStrings(left.model.id, right.model.id),
      Then(CompareStrings(left.model.checkpointFingerprint, right.model.checkpointFingerprint),
      Then(CompareInts(left.model.layerCount, right.model.layerCount),
           CompareInts(|left.stages|, |right.stages|))))));
    if header != 0 then header
    else Then(CompareStageLists(left.stages, right.stages), CompareStrings(left.revision, right.revision))
  }

  function ComparePlanEvaluations(left: PlanEvaluation, right: PlanEvaluation): (order: int) {
    if left.eligible != right.eligible then (if left.eligible then -1 else 1)
    else Then(ComparePlanScores(left.score, right.score), ComparePlanIdentity(left.plan, right.plan))
  }
}
