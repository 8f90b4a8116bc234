/** The admission ledger: what the scheduler has reserved on each worker instance,
    the quarantine entries it keeps after an unconfirmed cleanup, and the memory
    it still charges until a late enough status shows the allocation. */
module Scheduler {
  import opened WideArithmetic
  import opened Membership
  import Placement

  datatype SequenceKey = SequenceKey(worker: WorkerKey, shardID: string)

  datatype WorkerKey = WorkerKey(workerID: string, instanceID: string)

  datatype SequenceState = SequenceState(active: nat, poisonedAfter: seq<uint64>)

  datatype PendingMemory = PendingMemory(availableBytes: uint64, retainedBytes: uint64, minimumObservation: uint64)

  datatype WorkerState = WorkerState(
    activeRequests: nat, activeAvailableBytes: uint64, activeRetainedBytes: uint64, pendingMemory: seq<PendingMemory>)

  datatype Ledger = Ledger(reservations: map<SequenceKey, SequenceState>, workers: map<WorkerKey, WorkerState>)

  /** A numbered state call: its sequence number and what it said of the shard. */
  datatype Observation = Observation(sequence: uint64, shardFound: bool)

  datatype StageReservation = StageReservation(
    key: SequenceKey, loadMemoryBytes: uint64, sequenceMemoryBytes: uint64,
    setup: Option<Observation>, cleanup: Option<Observation>)

  datatype Outcome = Outcome(mayHaveLoaded: bool, cleanupConfirmed: bool)

  datatype AdmissionError =
    | EvidenceIncomplete | TargetMissing | ObservationUnavailable | SequenceCapacityReserved
    | WorkerCapacityReserved | WrongCandidate | InconsistentMemory | WorkerMemoryReserved

  type Workers = map<string, Worker>

  const UNRECONCILED: uint64 := MAX_UINT64
  const NO_SEQUENCES := SequenceState(0, [])
  const NO_REQUESTS := WorkerState(0, 0, 0, [])
  const EMPTY_LEDGER := Ledger(map[], map[])

  // ---------------------------------------------------------------------------
  // Reading and writing ledger entries.  An absent key means the zero state, and
  // an entry that becomes zero is removed.

  function SequenceStateOf(ledger: Ledger, key: SequenceKey): SequenceState {
    if key in ledger.reservations then ledger.reservations[key] else NO_SEQUENCES
  }

  function WorkerStateOf(ledger: Ledger, key: WorkerKey): WorkerState {
    if key in ledger.workers then ledger.workers[key] else NO_REQUESTS
  }

  function StoreSequence(reservations: map<SequenceKey, SequenceState>, key: SequenceKey, state: SequenceState)
    : map<SequenceKey, SequenceState>
  {
    if state == NO_SEQUENCES then reservations - {key} else reservations[key := state]
  }

  function StoreWorker(workers: map<WorkerKey, WorkerState>, key: WorkerKey, state: WorkerState): map<WorkerKey, WorkerState>
  {
    if state == NO_REQUESTS then workers - {key} else workers[key := state]
  }

  /** The first observation number that is certain to come after `sequence`. */
  function ObservationAfter(sequence: uint64): (after: uint64)
    ensures after == UNRECONCILED || after == sequence + 1
    ensures after > 0
  {
    if sequence == 0 || sequence == UNRECONCILED then UNRECONCILED else sequence + 1
  }

  /** Active plus pending bytes of a worker, or overflow. */
  function ReservedFrom(available: uint64, retained: uint64, pending: seq<PendingMemory>): Option<(uint64, uint64)>
    decreases |pending|
  {
    if pending == [] then Some((available, retained))
    else
      var (nextAvailable, overflowA) := AddOverflow(available, pending[0].availableBytes);
      var (nextRetained, overflowR) := AddOverflow(retained, pending[0].retainedBytes);
      if overflowA || overflowR then None else ReservedFrom(nextAvailable, nextRetained, pending[1..])
  }

  function ReservedWorkerMemory(state: WorkerState): Option<(uint64, uint64)> {
    ReservedFrom(state.activeAvailableBytes, state.activeRetainedBytes, state.pendingMemory)
  }

  // ---------------------------------------------------------------------------
  // Reconciliation with a membership snapshot

  predicate InstancePresent(workers: Workers, key: WorkerKey) {
    key.workerID in workers && workers[key.workerID].InstanceID() == key.instanceID
  }

  /** The poison entries that an observation numbered `observed` is too early to clear. */
  function StillPoisoned(poisonedAfter: seq<uint64>, observed: uint64): seq<uint64> {
    if poisonedAfter == [] then []
    else
      var rest := StillPoisoned(poisonedAfter[1..], observed);
      if observed < poisonedAfter[0] then [poisonedAfter[0]] + rest else rest
  }

  function StillPending(pending: seq<PendingMemory>, observed: uint64): seq<PendingMemory> {
    if pending == [] then []
    else
      var rest := StillPending(pending[1..], observed);
      if observed < pending[0].minimumObservation then [pending[0]] + rest else rest
  }

  function ReconciledSequence(key: SequenceKey, state: SequenceState, workers: Workers): SequenceState {
    if !InstancePresent(workers, key.worker) then state.(poisonedAfter := [])
    else
      var status := workers[key.worker.workerID].Status();
      if ReportedOpen(status.retainedShards, key.shardID) == 0
      then state.(poisonedAfter := StillPoisoned(state.poisonedAfter, status.workerObservationSequence))
      else state
  }

  function ReconciledWorker(key: WorkerKey, state: WorkerState, workers: Workers): WorkerState {
    if !InstancePresent(workers, key) then state.(pendingMemory := [])
    else state.(pendingMemory :=
      StillPending(state.pendingMemory, workers[key.workerID].Status().workerObservationSequence))
  }

  /** An entry without poison is left alone; another goes when nothing is left of it. */
  predicate SequenceKept(key: SequenceKey, state: SequenceState, workers: Workers) {
    state.poisonedAfter == [] || ReconciledSequence(key, state, workers) != NO_SEQUENCES
  }

  lemma PoisonFreeUnchanged(key: SequenceKey, state: SequenceState, workers: Workers)
    requires state.poisonedAfter == []
    ensures ReconciledSequence(key, state, workers) == state
  {
  }

  function ReconcileSequences(reservations: map<SequenceKey, SequenceState>, done: set<SequenceKey>, workers: Workers)
    : map<SequenceKey, SequenceState>
  {
    map key | key in reservations
              && (key in done ==> SequenceKept(key, reservations[key], workers))
      :: if key in done then ReconciledSequence(key, reservations[key], workers) else reservations[key]
  }

  function ReconcileWorkers(states: map<WorkerKey, WorkerState>, done: set<WorkerKey>, workers: Workers)
    : map<WorkerKey, WorkerState>
  {
    map key | key in states && (key in done ==> ReconciledWorker(key, states[key], workers) != NO_REQUESTS)
      :: if key in done then ReconciledWorker(key, states[key], workers) else states[key]
  }

  function Reconcile(ledger: Ledger, workers: Workers): Ledger {
    Ledger(ReconcileSequences(ledger.reservations, ledger.reservations.Keys, workers),
           ReconcileWorkers(ledger.workers, ledger.workers.Keys, workers))
  }

  // ---------------------------------------------------------------------------
  // Admission

  /** Every guard of one stage against the unchanged ledger. */
  function CheckStage(ledger: Ledger, workers: Workers, evaluation: Placement.PlanEvaluation, i: nat)
    : (r: Result<StageReservation, AdmissionError>)
    requires i < |evaluation.plan.stages| == |evaluation.stages| == |evaluation.request.stages|
  {
    var stage := evaluation.plan.stages[i];
    if stage.targetID !in workers then Err(TargetMissing) else
    var worker := workers[stage.targetID];
    var status := worker.Status();
    if status.workerObservationSequence == 0 then Err(ObservationUnavailable) else
    var workerKey := WorkerKey(worker.ID(), worker.InstanceID());
    var key := SequenceKey(workerKey, stage.shardID);
    var sequenceState := SequenceStateOf(ledger, key);
    var localOpen := sequenceState.active + |sequenceState.poisonedAfter|;
    if ReportedOpen(status.retainedShards, stage.shardID) + localOpen >= worker.Admission().maxOpenSequencesPerShard
    then Err(SequenceCapacityReserved) else
    var workerState := WorkerStateOf(ledger, workerKey);
    if status.openSequenceCount + workerState.activeRequests >= worker.Admission().maxConcurrentRequests
    then Err(WorkerCapacityReserved) else
    var candidate := evaluation.stages[i].selectedCandidate;
    if candidate.workerID != worker.ID() then Err(WrongCandidate) else
    var cost := evaluation.request.stages[i];
    var loadBytes: uint64 := if candidate.reusesRetainedShard then 0 else cost.loadMemoryBytes;
    var (required, overflow) := AddOverflow(loadBytes, cost.sequenceMemoryBytes);
    if overflow || required != candidate.requiredAdditionalMemoryBytes then Err(InconsistentMemory) else
    var reserved := ReservedWorkerMemory(workerState);
    if reserved.None? then Err(WorkerMemoryReserved) else
    var (reservedAvailable, reservedRetained) := reserved.value;
    if reservedAvailable > status.availableMemoryBytes
       || required > SubtractAvailable(status.availableMemoryBytes, reservedAvailable)
    then Err(WorkerMemoryReserved) else
    var (projected, overflow1) := AddOverflow(status.retainedBytes, reservedRetained);
    if overflow1 then Err(WorkerMemoryReserved) else
    var (projectedRetained, overflow2) := AddOverflow(projected, cost.sequenceMemoryBytes);
    if overflow2 || projectedRetained > worker.Admission().retainedByteBudget then Err(WorkerMemoryReserved)
    else Ok(StageReservation(key, loadBytes, cost.sequenceMemoryBytes, None, None))
  }

  /** The reservations of the first n stages, or the first guard that fails. */
  function CheckStages(ledger: Ledger, workers: Workers, evaluation: Placement.PlanEvaluation, n: nat)
    : (r: Result<seq<StageReservation>, AdmissionError>)
    requires n <= |evaluation.plan.stages| == |evaluation.stages| == |evaluation.request.stages|
    ensures r.Ok? ==> |r.value| == n
  {
    if n == 0 then Ok([]) else
    var before := CheckStages(ledger, workers, evaluation, n - 1);
    if before.Err? then before else
    var last := CheckStage(ledger, workers, evaluation, n - 1);
    if last.Err? then Err(last.error) else Ok(before.value + [last.value])
  }

  function StageBytes(stage: StageReservation): uint64 {
    WrappingAdd(stage.loadMemoryBytes, stage.sequenceMemoryBytes)
  }

  /** Charges one admitted stage. */
  function ChargeStage(ledger: Ledger, stage: StageReservation): Ledger {
    var sequenceState := SequenceStateOf(ledger, stage.key);
    var workerState := WorkerStateOf(ledger, stage.key.worker);
    Ledger(
      ledger.reservations[stage.key := sequenceState.(active := sequenceState.active + 1)],
      ledger.workers[stage.key.worker := workerState.(
        activeRequests := workerState.activeRequests + 1,
        activeAvailableBytes := AddOverflow(workerState.activeAvailableBytes, StageBytes(stage)).0,
        activeRetainedBytes := AddOverflow(workerState.activeRetainedBytes, stage.sequenceMemoryBytes).0)])
  }

  function ChargeStages(ledger: Ledger, stages: seq<StageReservation>): Ledger {
    if stages == [] then ledger
    else ChargeStage(ChargeStages(ledger, stages[..|stages| - 1]), stages[|stages| - 1])
  }

  /** Reconciles, checks every stage, and charges them all or none. */
  function ReserveAdmission(ledger: Ledger, workers: Workers, evaluation: Placement.PlanEvaluation)
    : (Ledger, Result<seq<StageReservation>, AdmissionError>)
  {
    if |evaluation.plan.stages| != |evaluation.stages| || |evaluation.plan.stages| != |evaluation.request.stages|
    then (ledger, Err(EvidenceIncomplete))
    else
      var reconciled := Reconcile(ledger, workers);
      var checked := CheckStages(reconciled, workers, evaluation, |evaluation.plan.stages|);
      if checked.Err? then (reconciled, checked) else (ChargeStages(reconciled, checked.value), checked)
  }

  // ---------------------------------------------------------------------------
  // Release

  predicate StageCleanupConfirmed(stage: StageReservation, outcome: Outcome) {
    outcome.cleanupConfirmed || (stage.cleanup.Some? && !stage.cleanup.value.shardFound)
  }

  /** The observation an allocation of this kind must be seen by. */
  function MinimumAfter(observation: Option<Observation>): uint64 {
    match observation
    case None => UNRECONCILED
    case Some(o) => ObservationAfter(o.sequence)
  }

  predicate LoadMayRemain(stage: StageReservation, outcome: Outcome) {
    outcome.mayHaveLoaded && (stage.setup.None? || stage.setup.value.shardFound)
  }

  /** The memory still charged once the stage is no longer active. */
  function PendingAfter(stage: StageReservation, outcome: Outcome): PendingMemory {
    var loadBytes: uint64 := if LoadMayRemain(stage, outcome) then stage.loadMemoryBytes else 0;
    var loadMinimum: uint64 := if LoadMayRemain(stage, outcome) then MinimumAfter(stage.setup) else 0;
    if StageCleanupConfirmed(stage, outcome) then PendingMemory(loadBytes, 0, loadMinimum)
    else
      var cleanupMinimum := MinimumAfter(stage.cleanup);
      PendingMemory(
        AddOverflow(loadBytes, stage.sequenceMemoryBytes).0, stage.sequenceMemoryBytes,
        if cleanupMinimum > loadMinimum then cleanupMinimum else loadMinimum)
  }

  function FinishedSequence(state: SequenceState, stage: StageReservation, workers: Workers, outcome: Outcome): SequenceState {
    SequenceState(
      if state.active > 0 then state.active - 1 else 0,
      if !StageCleanupConfirmed(stage, outcome) && InstancePresent(workers, stage.key.worker)
      then state.poisonedAfter + [MinimumAfter(stage.cleanup)]
      else state.poisonedAfter)
  }

  function FinishedWorker(state: WorkerState, stage: StageReservation, workers: Workers, outcome: Outcome): WorkerState {
    var pending := PendingAfter(stage, outcome);
    WorkerState(
      if state.activeRequests > 0 then state.activeRequests - 1 else 0,
      SubtractAvailable(state.activeAvailableBytes, StageBytes(stage)),
      SubtractAvailable(state.activeRetainedBytes, stage.sequenceMemoryBytes),
      if pending.availableBytes > 0 && InstancePresent(workers, stage.key.worker)
      then state.pendingMemory + [pending]
      else state.pendingMemory)
  }

  function FinishStage(ledger: Ledger, stage: StageReservation, workers: Workers, outcome: Outcome): Ledger {
    Ledger(
      StoreSequence(ledger.reservations, stage.key,
        FinishedSequence(SequenceStateOf(ledger, stage.key), stage, workers, outcome)),
      StoreWorker(ledger.workers, stage.key.worker,
        FinishedWorker(WorkerStateOf(ledger, stage.key.worker), stage, workers, outcome)))
  }

  function FinishStages(ledger: Ledger, stages: seq<StageReservation>, workers: Workers, outcome: Outcome): Ledger {
    if stages == [] then ledger
    else FinishStage(FinishStages(ledger, stages[..|stages| - 1], workers, outcome), stages[|stages| - 1], workers, outcome)
  }

  lemma ReconcileOneSequence(before: map<SequenceKey, SequenceState>, done: set<SequenceKey>, key: SequenceKey, workers: Workers)
    requires key in before && key !in done
    ensures key in ReconcileSequences(before, done, workers) && ReconcileSequences(before, done, workers)[key] == before[key]
    ensures ReconcileSequences(before, done + {key}, workers) ==
            if before[key].poisonedAfter == [] then ReconcileSequences(before, done, workers)
            else StoreSequence(ReconcileSequences(before, done, workers), key, ReconciledSequence(key, before[key], workers))
  {
    if before[key].poisonedAfter == [] { PoisonFreeUnchanged(key, before[key], workers); }
  }

  lemma ReconcileOneWorker(before: map<WorkerKey, WorkerState>, done: set<WorkerKey>, key: WorkerKey, workers: Workers)
    requires key in before && key !in done
    ensures key in ReconcileWorkers(before, done, workers) && ReconcileWorkers(before, done, workers)[key] == before[key]
    ensures ReconcileWorkers(before, done + {key}, workers) ==
            StoreWorker(ReconcileWorkers(before, done, workers), key, ReconciledWorker(key, before[key], workers))
  {
  }

  // ---------------------------------------------------------------------------
  // The scheduler object

  class SequenceScheduler {
    var reservations: map<SequenceKey, SequenceState>
    var workers: map<WorkerKey, WorkerState>

    ghost function Value(): Ledger
      reads this
    {
      Ledger(reservations, workers)
    }

    constructor ()
      ensures Value() == EMPTY_LEDGER
    {
      reservations, workers := map[], map[];
    }

    /** Visits every entry, in any order, dropping what the snapshot settles. */
    method ReconcileReservations(snapshot: Workers)
      modifies this
      ensures Value() == Reconcile(old(Value()), snapshot)
    {
      ghost var before := Value();
      var sequenceKeys := reservations.Keys;
      ghost var doneSequences: set<SequenceKey> := {};
      while sequenceKeys != {}
        invariant sequenceKeys + doneSequences == before.reservations.Keys && sequenceKeys !! doneSequences
        invariant reservations == ReconcileSequences(before.reservations, doneSequences, snapshot)
        invariant workers == before.workers
        decreases sequenceKeys
      {
        var key :| key in sequenceKeys;
        var state := reservations[key];
        ReconcileOneSequence(before.reservations, doneSequences, key, snapshot);
        if state.poisonedAfter != [] {
          reservations := StoreSequence(reservations, key, ReconciledSequence(key, state, snapshot));
        }
        sequenceKeys, doneSequences := sequenceKeys - {key}, doneSequences + {key};
      }
      var workerKeys := workers.Keys;
      ghost var doneWorkers: set<WorkerKey> := {};
      while workerKeys != {}
        invariant workerKeys + doneWorkers == before.workers.Keys && workerKeys !! doneWorkers
        invariant workers == ReconcileWorkers(before.workers, doneWorkers, snapshot)
        invariant reservations == ReconcileSequences(before.reservations, before.reservations.Keys, snapshot)
        decreases workerKeys
      {
        var key :| key in workerKeys;
        ReconcileOneWorker(before.workers, doneWorkers, key, snapshot);
        workers := StoreWorker(workers, key, ReconciledWorker(key, workers[key], snapshot));
        workerKeys, doneWorkers := workerKeys - {key}, doneWorkers + {key};
      }
    }

    /** Two passes over the stages: all guards first, then all charges. */
    method Reserve(inventory: Inventory, evaluation: Placement.PlanEvaluation)
      returns (result: Result<seq<StageReservation>, AdmissionError>)
      modifies this
      ensures (Value(), result) == ReserveAdmission(old(Value()), WorkersByID(inventory.workers), evaluation)
    {
      hide CheckStage, ChargeStage, Reconcile, WorkersByID;
      var snapshot := WorkersByID(inventory.workers);
      if |evaluation.plan.stages| != |evaluation.stages| || |evaluation.plan.stages| != |evaluation.request.stages| {
        return Err(EvidenceIncomplete);
      }
      ReconcileReservations(snapshot);
      ghost var reconciled := Value();
      var stages: seq<StageReservation> := [];
      for index := 0 to |evaluation.plan.stages|
        invariant Value() == reconciled
        invariant CheckStages(reconciled, snapshot, evaluation, index) == Ok(stages)
      {
        var checked := CheckStage(Ledger(reservations, workers), snapshot, evaluation, index);
        if checked.Err? {
          CheckStagesFails(reconciled, snapshot, evaluation, index + 1, |evaluation.plan.stages|);
          return Err(checked.error);
        }
        stages := stages + [checked.value];
      }
      for index := 0 to |stages|
        invariant Value() == ChargeStages(reconciled, stages[..index])
      {
        var charged := ChargeStage(Ledger(reservations, workers), stages[index]);
        assert stages[..index + 1][..index] == stages[..index];
        reservations, workers := charged.reservations, charged.workers;
      }
      assert stages[..|stages|] == stages;
      return Ok(stages);
    }

    /** Releases every stage of one reservation. */
    method FinishReservation(stages: seq<StageReservation>, inventory: Inventory, outcome: Outcome)
      modifies this
      ensures Value() == FinishStages(old(Value()), stages, WorkersByID(inventory.workers), outcome)
    {
      var snapshot := WorkersByID(inventory.workers);
      ghost var before := Value();
      for index := 0 to |stages|
        invariant Value() == FinishStages(before, stages[..index], snapshot, outcome)
      {
        var stage := stages[index];
        assert stages[..index + 1][..index] == stages[..index];
        var current := Ledger(reservations, workers);
        reservations := StoreSequence(reservations, stage.key,
          FinishedSequence(SequenceStateOf(current, stage.key), stage, snapshot, outcome));
        workers := StoreWorker(workers, stage.key.worker,
          FinishedWorker(WorkerStateOf(current, stage.key.worker), stage, snapshot, outcome));
      }
      assert stages[..|stages|] == stages;
    }
  }

  lemma {:induction false} CheckStagesFails(ledger: Ledger, workers: Workers, evaluation: Placement.PlanEvaluation, m: nat, n: nat)
    requires m <= n <= |evaluation.plan.stages| == |evaluation.stages| == |evaluation.request.stages|
    requires CheckStages(ledger, workers, evaluation, m).Err?
    ensures CheckStages(ledger, workers, evaluation, n) == CheckStages(ledger, workers, evaluation, m)
  {
    if m < n { CheckStagesFails(ledger, workers, evaluation, m, n - 1); }
  }
}
