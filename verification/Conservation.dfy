/** The ledger is exactly the sum of what the admitted stages account for.  Each
    admitted stage has one record; the three ledger operations change the ledger
    and the records in step. */
module Conservation {
  import opened WideArithmetic
  import opened Membership
  import opened Scheduler
  import opened Totals

  /** One admitted stage: what the scheduler knows of it, the entries it has left
      in the ledger, and what its worker really holds for it. */
  datatype StageRecord = StageRecord(
    group: nat, admittedAt: nat, reservation: StageReservation, finished: bool,
    poison: Option<uint64>, pending: Option<PendingMemory>, threshold: uint64,
    open: bool, loadHeld: nat, sequenceHeld: nat)
  {
    function Key(): SequenceKey { reservation.key }
    function Worker(): WorkerKey { reservation.key.worker }
    function Bytes(): nat { reservation.loadMemoryBytes + reservation.sequenceMemoryBytes }
    function Held(): nat { loadHeld + sequenceHeld }
  }

  // ---------------------------------------------------------------------------
  // What a record contributes to each counter

  function One(b: bool): nat { if b then 1 else 0 }

  ghost function ActiveAt(key: SequenceKey): StageRecord -> nat {
    (st: StageRecord) => One(!st.finished && st.Key() == key)
  }

  ghost function ActiveOn(worker: WorkerKey): StageRecord -> nat {
    (st: StageRecord) => One(!st.finished && st.Worker() == worker)
  }

  ghost function ActiveBytesOn(worker: WorkerKey): StageRecord -> nat {
    (st: StageRecord) => if !st.finished && st.Worker() == worker then st.Bytes() else 0
  }

  ghost function ActiveRetainedOn(worker: WorkerKey): StageRecord -> nat {
    (st: StageRecord) => if !st.finished && st.Worker() == worker then st.reservation.sequenceMemoryBytes else 0
  }

  ghost function PoisonedAt(key: SequenceKey): StageRecord -> nat {
    (st: StageRecord) => One(st.poison.Some? && st.Key() == key)
  }

  ghost function PendingBytesOn(worker: WorkerKey): StageRecord -> nat {
    (st: StageRecord) => if st.pending.Some? && st.Worker() == worker then st.pending.value.availableBytes else 0
  }

  ghost function PendingRetainedOn(worker: WorkerKey): StageRecord -> nat {
    (st: StageRecord) => if st.pending.Some? && st.Worker() == worker then st.pending.value.retainedBytes else 0
  }

  ghost function PoisonEntry(key: SequenceKey): StageRecord -> multiset<uint64> {
    (st: StageRecord) => if st.poison.Some? && st.Key() == key then multiset{st.poison.value} else multiset{}
  }

  ghost function PendingEntry(worker: WorkerKey): StageRecord -> multiset<PendingMemory> {
    (st: StageRecord) => if st.pending.Some? && st.Worker() == worker then multiset{st.pending.value} else multiset{}
  }

  ghost predicate SequenceConserved(state: SequenceState, stages: seq<StageRecord>, key: SequenceKey) {
    && state.active == Total(stages, ActiveAt(key))
    && multiset(state.poisonedAfter) == Bag(stages, PoisonEntry(key))
  }

  ghost predicate WorkerConserved(state: WorkerState, stages: seq<StageRecord>, worker: WorkerKey) {
    && state.activeRequests == Total(stages, ActiveOn(worker))
    && state.activeAvailableBytes == Total(stages, ActiveBytesOn(worker))
    && state.activeRetainedBytes == Total(stages, ActiveRetainedOn(worker))
    && multiset(state.pendingMemory) == Bag(stages, PendingEntry(worker))
  }

  /** Every counter and every entry list is the exact sum over the records. */
  ghost predicate Conserves(ledger: Ledger, stages: seq<StageRecord>) {
    && (forall key :: SequenceConserved(SequenceStateOf(ledger, key), stages, key))
    && (forall worker :: WorkerConserved(WorkerStateOf(ledger, worker), stages, worker))
  }

  // ---------------------------------------------------------------------------
  // Finishing one stage

  function FinishRecord(st: StageRecord, workers: Workers, outcome: Outcome): StageRecord {
    var r := st.reservation;
    var present := InstancePresent(workers, r.key.worker);
    var pending := PendingAfter(r, outcome);
    st.(finished := true,
        poison := if !StageCleanupConfirmed(r, outcome) && present then Some(MinimumAfter(r.cleanup)) else None,
        pending := if pending.availableBytes > 0 && present then Some(pending) else None,
        threshold := pending.minimumObservation)
  }

  lemma FinishedPoison(state: SequenceState, st: StageRecord, workers: Workers, outcome: Outcome)
    ensures multiset(FinishedSequence(state, st.reservation, workers, outcome).poisonedAfter)
            == multiset(state.poisonedAfter) + PoisonEntry(st.Key())(FinishRecord(st, workers, outcome))
  {
    hide StageCleanupConfirmed, MinimumAfter, PendingAfter;
    var st' := FinishRecord(st, workers, outcome);
    if st'.poison.Some? {
      assert multiset(state.poisonedAfter + [st'.poison.value]) == multiset(state.poisonedAfter) + multiset{st'.poison.value};
    }
  }

  lemma FinishedCounts(state: SequenceState, st: StageRecord, workers: Workers, outcome: Outcome, key: SequenceKey)
    requires !st.finished && st.poison.None?
    ensures var st' := FinishRecord(st, workers, outcome);
            && ActiveAt(key)(st) == One(st.Key() == key) && ActiveAt(key)(st') == 0
            && PoisonEntry(key)(st) == multiset{} && (st.Key() != key ==> PoisonEntry(key)(st') == multiset{})
    ensures FinishedSequence(state, st.reservation, workers, outcome).active == if state.active > 0 then state.active - 1 else 0
  {
    hide StageCleanupConfirmed, MinimumAfter, PendingAfter;
  }

  lemma FinishSequenceConserves(state: SequenceState, stages: seq<StageRecord>, i: nat, workers: Workers, outcome: Outcome,
                                key: SequenceKey)
    requires i < |stages| && SequenceConserved(state, stages, key)
    requires !stages[i].finished && stages[i].poison.None?
    ensures SequenceConserved(
              if stages[i].Key() == key then FinishedSequence(state, stages[i].reservation, workers, outcome) else state,
              stages[i := FinishRecord(stages[i], workers, outcome)], key)
  {
    hide Total, Bag, FinishRecord, FinishedSequence, ActiveAt, PoisonEntry;
    var st, st' := stages[i], FinishRecord(stages[i], workers, outcome);
    TotalUpdate(stages, i, st', ActiveAt(key));
    BagUpdate(stages, i, st', PoisonEntry(key));
    FinishedCounts(state, st, workers, outcome, key);
    FinishedPoison(state, st, workers, outcome);
  }

  lemma FinishedPending(state: WorkerState, st: StageRecord, workers: Workers, outcome: Outcome)
    ensures multiset(FinishedWorker(state, st.reservation, workers, outcome).pendingMemory)
            == multiset(state.pendingMemory) + PendingEntry(st.Worker())(FinishRecord(st, workers, outcome))
  {
    hide PendingAfter, StageCleanupConfirmed, MinimumAfter;
    var st' := FinishRecord(st, workers, outcome);
    if st'.pending.Some? {
      assert multiset(state.pendingMemory + [st'.pending.value]) == multiset(state.pendingMemory) + multiset{st'.pending.value};
    }
  }

  lemma FinishedSums(state: WorkerState, st: StageRecord, workers: Workers, outcome: Outcome, worker: WorkerKey)
    requires !st.finished && st.pending.None? && st.Bytes() <= MAX_UINT64
    ensures var st' := FinishRecord(st, workers, outcome);
            && ActiveOn(worker)(st) == One(st.Worker() == worker) && ActiveOn(worker)(st') == 0
            && ActiveBytesOn(worker)(st) == (if st.Worker() == worker then st.Bytes() else 0) && ActiveBytesOn(worker)(st') == 0
            && ActiveRetainedOn(worker)(st) == (if st.Worker() == worker then st.reservation.sequenceMemoryBytes else 0)
            && ActiveRetainedOn(worker)(st') == 0
            && PendingEntry(worker)(st) == multiset{} && (st.Worker() != worker ==> PendingEntry(worker)(st') == multiset{})
    ensures var state' := FinishedWorker(state, st.reservation, workers, outcome);
            && state'.activeRequests == (if state.activeRequests > 0 then state.activeRequests - 1 else 0)
            && state'.activeAvailableBytes == SubtractAvailable(state.activeAvailableBytes, st.Bytes())
            && state'.activeRetainedBytes == SubtractAvailable(state.activeRetainedBytes, st.reservation.sequenceMemoryBytes)
  {
    hide StageCleanupConfirmed, MinimumAfter, PendingAfter;
    assert StageBytes(st.reservation) == st.Bytes();
  }

  lemma FinishWorkerConserves(state: WorkerState, stages: seq<StageRecord>, i: nat, workers: Workers, outcome: Outcome,
                              worker: WorkerKey)
    requires i < |stages| && WorkerConserved(state, stages, worker)
    requires !stages[i].finished && stages[i].pending.None? && stages[i].Bytes() <= MAX_UINT64
    ensures WorkerConserved(
              if stages[i].Worker() == worker then FinishedWorker(state, stages[i].reservation, workers, outcome) else state,
              stages[i := FinishRecord(stages[i], workers, outcome)], worker)
  {
    hide Total, Bag, FinishRecord, FinishedWorker, ActiveOn, ActiveBytesOn, ActiveRetainedOn, PendingEntry;
    var st, st' := stages[i], FinishRecord(stages[i], workers, outcome);
    TotalUpdate(stages, i, st', ActiveOn(worker));
    TotalUpdate(stages, i, st', ActiveBytesOn(worker));
    TotalUpdate(stages, i, st', ActiveRetainedOn(worker));
    BagUpdate(stages, i, st', PendingEntry(worker));
    FinishedSums(state, st, workers, outcome, worker);
    FinishedPending(state, st, workers, outcome);
  }

  lemma FinishedEntries(ledger: Ledger, stage: StageReservation, workers: Workers, outcome: Outcome)
    ensures forall key :: SequenceStateOf(FinishStage(ledger, stage, workers, outcome), key) ==
              if key == stage.key then FinishedSequence(SequenceStateOf(ledger, key), stage, workers, outcome)
              else SequenceStateOf(ledger, key)
    ensures forall worker :: WorkerStateOf(FinishStage(ledger, stage, workers, outcome), worker) ==
              if worker == stage.key.worker then FinishedWorker(WorkerStateOf(ledger, worker), stage, workers, outcome)
              else WorkerStateOf(ledger, worker)
  {
  }

  lemma FinishConserves(ledger: Ledger, stages: seq<StageRecord>, i: nat, workers: Workers, outcome: Outcome)
    requires i < |stages| && Conserves(ledger, stages)
    requires !stages[i].finished && stages[i].poison.None? && stages[i].pending.None? && stages[i].Bytes() <= MAX_UINT64
    ensures Conserves(FinishStage(ledger, stages[i].reservation, workers, outcome),
                      stages[i := FinishRecord(stages[i], workers, outcome)])
  {
    var after := FinishStage(ledger, stages[i].reservation, workers, outcome);
    FinishedEntries(ledger, stages[i].reservation, workers, outcome);
    forall key
      ensures SequenceConserved(SequenceStateOf(after, key), stages[i := FinishRecord(stages[i], workers, outcome)], key)
    {
      FinishSequenceConserves(SequenceStateOf(ledger, key), stages, i, workers, outcome, key);
    }
    forall worker
      ensures WorkerConserved(WorkerStateOf(after, worker), stages[i := FinishRecord(stages[i], workers, outcome)], worker)
    {
      FinishWorkerConserves(WorkerStateOf(ledger, worker), stages, i, workers, outcome, worker);
    }
  }

  // ---------------------------------------------------------------------------
  // Charging one stage

  lemma ChargeSequenceConserves(ledger: Ledger, stages: seq<StageRecord>, st: StageRecord, key: SequenceKey)
    requires SequenceConserved(SequenceStateOf(ledger, key), stages, key)
    requires !st.finished && st.poison.None?
    ensures SequenceConserved(SequenceStateOf(ChargeStage(ledger, st.reservation), key), stages + [st], key)
  {
    TotalAppend(stages, st, ActiveAt(key));
    BagAppend(stages, st, PoisonEntry(key));
  }

  lemma ChargeWorkerConserves(ledger: Ledger, stages: seq<StageRecord>, st: StageRecord, worker: WorkerKey)
    requires WorkerConserved(WorkerStateOf(ledger, worker), stages, worker)
    requires !st.finished && st.pending.None?
    requires WorkerStateOf(ledger, st.Worker()).activeAvailableBytes + st.Bytes() <= MAX_UINT64
    requires WorkerStateOf(ledger, st.Worker()).activeRetainedBytes + st.reservation.sequenceMemoryBytes <= MAX_UINT64
    ensures WorkerConserved(WorkerStateOf(ChargeStage(ledger, st.reservation), worker), stages + [st], worker)
  {
    var before, after := WorkerStateOf(ledger, worker), WorkerStateOf(ChargeStage(ledger, st.reservation), worker);
    TotalAppend(stages, st, ActiveOn(worker));
    TotalAppend(stages, st, ActiveBytesOn(worker));
    TotalAppend(stages, st, ActiveRetainedOn(worker));
    BagAppend(stages, st, PendingEntry(worker));
    assert PendingEntry(worker)(st) == multiset{};
    assert after.pendingMemory == before.pendingMemory;
    if st.Worker() == worker {
      assert StageBytes(st.reservation) == st.Bytes();
      assert after.activeAvailableBytes == before.activeAvailableBytes + st.Bytes();
      assert after.activeRetainedBytes == before.activeRetainedBytes + st.reservation.sequenceMemoryBytes;
    } else {
      assert after == before;
    }
  }

  lemma ChargeConserves(ledger: Ledger, stages: seq<StageRecord>, st: StageRecord)
    requires Conserves(ledger, stages)
    requires !st.finished && st.poison.None? && st.pending.None?
    requires WorkerStateOf(ledger, st.Worker()).activeAvailableBytes + st.Bytes() <= MAX_UINT64
    requires WorkerStateOf(ledger, st.Worker()).activeRetainedBytes + st.reservation.sequenceMemoryBytes <= MAX_UINT64
    ensures Conserves(ChargeStage(ledger, st.reservation), stages + [st])
  {
    forall key ensures SequenceConserved(SequenceStateOf(ChargeStage(ledger, st.reservation), key), stages + [st], key) {
      ChargeSequenceConserves(ledger, stages, st, key);
    }
    forall worker ensures WorkerConserved(WorkerStateOf(ChargeStage(ledger, st.reservation), worker), stages + [st], worker) {
      ChargeWorkerConserves(ledger, stages, st, worker);
    }
  }

  // ---------------------------------------------------------------------------
  // Reconciliation

  predicate PoisonCleared(key: SequenceKey, minimum: uint64, workers: Workers) {
    !InstancePresent(workers, key.worker)
    || (var status := workers[key.worker.workerID].Status();
        ReportedOpen(status.retainedShards, key.shardID) == 0 && minimum <= status.workerObservationSequence)
  }

  predicate PendingCleared(worker: WorkerKey, minimum: uint64, workers: Workers) {
    !InstancePresent(workers, worker) || minimum <= workers[worker.workerID].Status().workerObservationSequence
  }

  function ReconcileRecord(st: StageRecord, workers: Workers): StageRecord {
    st.(poison := if st.poison.Some? && PoisonCleared(st.Key(), st.poison.value, workers) then None else st.poison,
        pending := if st.pending.Some? && PendingCleared(st.Worker(), st.pending.value.minimumObservation, workers)
                   then None else st.pending)
  }

  function ReconcileRecords(stages: seq<StageRecord>, workers: Workers): (r: seq<StageRecord>)
    ensures |r| == |stages| && forall i :: 0 <= i < |stages| ==> r[i] == ReconcileRecord(stages[i], workers)
  {
    seq(|stages|, i requires 0 <= i < |stages| => ReconcileRecord(stages[i], workers))
  }

  lemma ReconciledEntries(ledger: Ledger, workers: Workers)
    ensures forall key :: SequenceStateOf(Reconcile(ledger, workers), key) ==
                          ReconciledSequence(key, SequenceStateOf(ledger, key), workers)
    ensures forall worker :: WorkerStateOf(Reconcile(ledger, workers), worker) ==
                             ReconciledWorker(worker, WorkerStateOf(ledger, worker), workers)
  {
    forall key ensures SequenceStateOf(Reconcile(ledger, workers), key) ==
                       ReconciledSequence(key, SequenceStateOf(ledger, key), workers)
    {
      PoisonFreeUnchanged(key, SequenceStateOf(ledger, key).(poisonedAfter := []), workers);
    }
  }

  lemma {:induction false} StillPoisonedCounts(entries: seq<uint64>, observed: uint64, x: uint64)
    ensures multiset(StillPoisoned(entries, observed))[x] == if observed < x then multiset(entries)[x] else 0
  {
    if entries != [] {
      assert entries == [entries[0]] + entries[1..];
      StillPoisonedCounts(entries[1..], observed, x);
    }
  }

  lemma {:induction false} StillPendingCounts(entries: seq<PendingMemory>, observed: uint64, x: PendingMemory)
    ensures multiset(StillPending(entries, observed))[x] == if observed < x.minimumObservation then multiset(entries)[x] else 0
  {
    if entries != [] {
      assert entries == [entries[0]] + entries[1..];
      StillPendingCounts(entries[1..], observed, x);
    }
  }

  lemma {:induction false} PoisonBagReconciled(stages: seq<StageRecord>, workers: Workers, key: SequenceKey, x: uint64)
    ensures Bag(ReconcileRecords(stages, workers), PoisonEntry(key))[x] ==
            if PoisonCleared(key, x, workers) then 0 else Bag(stages, PoisonEntry(key))[x]
  {
    if stages != [] {
      var n := |stages| - 1;
      assert ReconcileRecords(stages, workers)[..n] == ReconcileRecords(stages[..n], workers);
      PoisonBagReconciled(stages[..n], workers, key, x);
    }
  }

  lemma PendingEntryReconciled(st: StageRecord, workers: Workers, worker: WorkerKey, x: PendingMemory)
    ensures PendingEntry(worker)(ReconcileRecord(st, workers))[x] ==
            if PendingCleared(worker, x.minimumObservation, workers) then 0 else PendingEntry(worker)(st)[x]
  {
  }

  lemma {:induction false} PendingBagReconciled(stages: seq<StageRecord>, workers: Workers, worker: WorkerKey, x: PendingMemory)
    ensures Bag(ReconcileRecords(stages, workers), PendingEntry(worker))[x] ==
            if PendingCleared(worker, x.minimumObservation, workers) then 0 else Bag(stages, PendingEntry(worker))[x]
  {
    if stages != [] {
      var n := |stages| - 1;
      assert ReconcileRecords(stages, workers)[..n] == ReconcileRecords(stages[..n], workers);
      PendingBagReconciled(stages[..n], workers, worker, x);
      PendingEntryReconciled(stages[n], workers, worker, x);
    }
  }

  lemma {:induction false} TotalsReconciled(stages: seq<StageRecord>, workers: Workers, weight: StageRecord -> nat)
    requires forall st :: weight(ReconcileRecord(st, workers)) == weight(st)
    ensures Total(ReconcileRecords(stages, workers), weight) == Total(stages, weight)
  {
    if stages != [] {
      var n := |stages| - 1;
      assert ReconcileRecords(stages, workers)[..n] == ReconcileRecords(stages[..n], workers);
      TotalsReconciled(stages[..n], workers, weight);
    }
  }

  lemma ReconciledPoison(state: SequenceState, workers: Workers, key: SequenceKey, x: uint64)
    ensures multiset(ReconciledSequence(key, state, workers).poisonedAfter)[x]
            == if PoisonCleared(key, x, workers) then 0 else multiset(state.poisonedAfter)[x]
  {
    if InstancePresent(workers, key.worker) {
      StillPoisonedCounts(state.poisonedAfter, workers[key.worker.workerID].Status().workerObservationSequence, x);
    }
  }

  lemma ReconcileSequenceConserves(state: SequenceState, stages: seq<StageRecord>, workers: Workers, key: SequenceKey)
    requires SequenceConserved(state, stages, key)
    ensures SequenceConserved(ReconciledSequence(key, state, workers), ReconcileRecords(stages, workers), key)
  {
    TotalsReconciled(stages, workers, ActiveAt(key));
    var entries: multiset<uint64> := multiset(ReconciledSequence(key, state, workers).poisonedAfter);
    var bag := Bag(ReconcileRecords(stages, workers), PoisonEntry(key));
    forall x: uint64 ensures entries[x] == bag[x] {
      hide Bag, Total, PoisonCleared, ReconciledSequence, ReconcileRecords;
      PoisonBagReconciled(stages, workers, key, x);
      ReconciledPoison(state, workers, key, x);
    }
    assert entries == bag;
    hide Bag, Total, PoisonCleared, ReconcileRecords, StillPoisoned;
  }

  lemma ReconciledPending(state: WorkerState, workers: Workers, worker: WorkerKey, x: PendingMemory)
    ensures multiset(ReconciledWorker(worker, state, workers).pendingMemory)[x]
            == if PendingCleared(worker, x.minimumObservation, workers) then 0 else multiset(state.pendingMemory)[x]
  {
    if InstancePresent(workers, worker) {
      StillPendingCounts(state.pendingMemory, workers[worker.workerID].Status().workerObservationSequence, x);
    }
  }

  lemma ReconciledSums(state: WorkerState, workers: Workers, worker: WorkerKey)
    ensures var after := ReconciledWorker(worker, state, workers);
            && after.activeRequests == state.activeRequests && after.activeAvailableBytes == state.activeAvailableBytes
            && after.activeRetainedBytes == state.activeRetainedBytes
  {
    hide StillPending;
  }

  lemma ReconcileWorkerConserves(state: WorkerState, stages: seq<StageRecord>, workers: Workers, worker: WorkerKey)
    requires WorkerConserved(state, stages, worker)
    ensures WorkerConserved(ReconciledWorker(worker, state, workers), ReconcileRecords(stages, workers), worker)
  {
    TotalsReconciled(stages, workers, ActiveOn(worker));
    TotalsReconciled(stages, workers, ActiveBytesOn(worker));
    TotalsReconciled(stages, workers, ActiveRetainedOn(worker));
    hide Bag, Total, PendingCleared, ReconciledWorker, ReconcileRecords, ActiveOn, ActiveBytesOn, ActiveRetainedOn, PendingEntry;
    ReconciledSums(state, workers, worker);
    var entries := multiset(ReconciledWorker(worker, state, workers).pendingMemory);
    var bag := Bag(ReconcileRecords(stages, workers), PendingEntry(worker));
    forall x: PendingMemory ensures entries[x] == bag[x] {
      PendingBagReconciled(stages, workers, worker, x);
      ReconciledPending(state, workers, worker, x);
    }
    assert entries == bag;
  }

  lemma ReconcileConserves(ledger: Ledger, stages: seq<StageRecord>, workers: Workers)
    requires Conserves(ledger, stages)
    ensures Conserves(Reconcile(ledger, workers), ReconcileRecords(stages, workers))
  {
    var after := Reconcile(ledger, workers);
    ReconciledEntries(ledger, workers);
    forall key ensures SequenceConserved(SequenceStateOf(after, key), ReconcileRecords(stages, workers), key) {
      ReconcileSequenceConserves(SequenceStateOf(ledger, key), stages, workers, key);
    }
    forall worker ensures WorkerConserved(WorkerStateOf(after, worker), ReconcileRecords(stages, workers), worker) {
      ReconcileWorkerConserves(WorkerStateOf(ledger, worker), stages, workers, worker);
    }
  }

  // ---------------------------------------------------------------------------
  // What conservation says about the guards

  ghost function AvailableSum(pending: seq<PendingMemory>): nat {
    if pending == [] then 0 else pending[0].availableBytes + AvailableSum(pending[1..])
  }

  ghost function RetainedSum(pending: seq<PendingMemory>): nat {
    if pending == [] then 0 else pending[0].retainedBytes + RetainedSum(pending[1..])
  }

  lemma {:induction false} SumsSplit(a: seq<PendingMemory>, b: seq<PendingMemory>)
    ensures AvailableSum(a + b) == AvailableSum(a) + AvailableSum(b)
    ensures RetainedSum(a + b) == RetainedSum(a) + RetainedSum(b)
  {
    if a == [] {
      assert a + b == b;
    } else {
      assert (a + b)[1..] == a[1..] + b;
      SumsSplit(a[1..], b);
    }
  }

  lemma TakeOut(pending: seq<PendingMemory>, j: nat)
    requires j < |pending|
    ensures var rest := pending[..j] + pending[j + 1..];
            && multiset(pending) == multiset(rest) + multiset{pending[j]}
            && AvailableSum(pending) == AvailableSum(rest) + pending[j].availableBytes
            && RetainedSum(pending) == RetainedSum(rest) + pending[j].retainedBytes
  {
    var front, x, back := pending[..j], pending[j], pending[j + 1..];
    assert pending == front + ([x] + back);
    SumsSplit(front, back);
    SumsSplit(front, [x] + back);
    SumsSplit([x], back);
  }

  lemma {:induction false} SumsPermute(a: seq<PendingMemory>, b: seq<PendingMemory>)
    requires multiset(a) == multiset(b)
    ensures AvailableSum(a) == AvailableSum(b) && RetainedSum(a) == RetainedSum(b)
  {
    if a == [] {
      assert |multiset(b)| == 0;
    } else {
      assert a == [a[0]] + a[1..];
      assert a[0] in multiset(b);
      var j :| 0 <= j < |b| && b[j] == a[0];
      TakeOut(b, j);
      assert multiset(a) == multiset{a[0]} + multiset(a[1..]);
      assert multiset(b[..j] + b[j + 1..]) == multiset(b) - multiset{a[0]};
      SumsPermute(a[1..], b[..j] + b[j + 1..]);
    }
  }

  /** The records' pending entries in admission order. */
  ghost function PendingList(stages: seq<StageRecord>, worker: WorkerKey): seq<PendingMemory> {
    if stages == [] then []
    else
      var st := stages[|stages| - 1];
      PendingList(stages[..|stages| - 1], worker)
      + if st.pending.Some? && st.Worker() == worker then [st.pending.value] else []
  }

  lemma {:induction false} PendingListSums(stages: seq<StageRecord>, worker: WorkerKey)
    ensures multiset(PendingList(stages, worker)) == Bag(stages, PendingEntry(worker))
    ensures AvailableSum(PendingList(stages, worker)) == Total(stages, PendingBytesOn(worker))
    ensures RetainedSum(PendingList(stages, worker)) == Total(stages, PendingRetainedOn(worker))
  {
    if stages != [] {
      var n := |stages| - 1;
      PendingListSums(stages[..n], worker);
      var front := PendingList(stages[..n], worker);
      if stages[n].pending.Some? && stages[n].Worker() == worker {
        SumsSplit(front, [stages[n].pending.value]);
      } else {
        assert front + [] == front;
      }
    }
  }

  /** The pending list sums to the records' pending bytes whatever its order. */
  lemma PendingSums(pending: seq<PendingMemory>, stages: seq<StageRecord>, worker: WorkerKey)
    requires multiset(pending) == Bag(stages, PendingEntry(worker))
    ensures AvailableSum(pending) == Total(stages, PendingBytesOn(worker))
    ensures RetainedSum(pending) == Total(stages, PendingRetainedOn(worker))
  {
    PendingListSums(stages, worker);
    SumsPermute(pending, PendingList(stages, worker));
  }

  lemma {:induction false} ReservedFromSums(available: uint64, retained: uint64, pending: seq<PendingMemory>)
    ensures var r := ReservedFrom(available, retained, pending);
            && (r.Some? <==> available + AvailableSum(pending) <= MAX_UINT64 && retained + RetainedSum(pending) <= MAX_UINT64)
            && (r.Some? ==> r.value == (available + AvailableSum(pending), retained + RetainedSum(pending)))
    decreases |pending|
  {
    if pending != [] {
      var (a, oa) := AddOverflow(available, pending[0].availableBytes);
      var (b, ob) := AddOverflow(retained, pending[0].retainedBytes);
      if !oa && !ob { ReservedFromSums(a, b, pending[1..]); }
    }
  }

  /** The number of local opens charged to a shard is the number of records that
      are active or poisoned there. */
  lemma LocalOpens(ledger: Ledger, stages: seq<StageRecord>, key: SequenceKey)
    requires Conserves(ledger, stages)
    ensures var state := SequenceStateOf(ledger, key);
            state.active + |state.poisonedAfter| == Total(stages, ActiveAt(key)) + Total(stages, PoisonedAt(key))
  {
    var state := SequenceStateOf(ledger, key);
    assert SequenceConserved(state, stages, key);
    BagSize(stages, PoisonEntry(key), PoisonedAt(key));
    assert |multiset(state.poisonedAfter)| == |state.poisonedAfter|;
  }

  /** The reserved memory of a worker is the exact sum over its records, and is
      only unavailable when that sum does not fit a machine word. */
  lemma ReservedMemory(ledger: Ledger, stages: seq<StageRecord>, worker: WorkerKey)
    requires Conserves(ledger, stages)
    ensures var available := Total(stages, ActiveBytesOn(worker)) + Total(stages, PendingBytesOn(worker));
            var retained := Total(stages, ActiveRetainedOn(worker)) + Total(stages, PendingRetainedOn(worker));
            ReservedWorkerMemory(WorkerStateOf(ledger, worker)) ==
            if available <= MAX_UINT64 && retained <= MAX_UINT64 then Some((available, retained)) else None
  {
    WorkerReserved(WorkerStateOf(ledger, worker), stages, worker);
  }

  lemma WorkerReserved(state: WorkerState, stages: seq<StageRecord>, worker: WorkerKey)
    requires WorkerConserved(state, stages, worker)
    ensures var available := Total(stages, ActiveBytesOn(worker)) + Total(stages, PendingBytesOn(worker));
            var retained := Total(stages, ActiveRetainedOn(worker)) + Total(stages, PendingRetainedOn(worker));
            ReservedWorkerMemory(state) ==
            if available <= MAX_UINT64 && retained <= MAX_UINT64 then Some((available, retained)) else None
  {
    hide Total, Bag, ReservedFrom, ActiveBytesOn, ActiveRetainedOn, PendingBytesOn, PendingRetainedOn, PendingEntry, AvailableSum,
      RetainedSum;
    PendingSums(state.pendingMemory, stages, worker);
    ReservedFromSums(state.activeAvailableBytes, state.activeRetainedBytes, state.pendingMemory);
  }
}
