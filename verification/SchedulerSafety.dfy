/** The run invariant is kept by every step, and what follows from it: no leaked
    sequence escapes quarantine, memory is never overcommitted, limits hold. */
module SchedulerSafety {
  import opened WideArithmetic
  import opened Membership
  import opened Scheduler
  import opened Conservation
  import opened Totals
  import opened SchedulerRuns
  import Placement

  // ---------------------------------------------------------------------------
  // Steps that leave the ledger's view of every record alone

  /** Two versions of a record that account for the same ledger entries. */
  ghost predicate SameAccount(st: StageRecord, st': StageRecord) {
    && st'.Key() == st.Key() && st'.finished == st.finished
    && st'.reservation.loadMemoryBytes == st.reservation.loadMemoryBytes
    && st'.reservation.sequenceMemoryBytes == st.reservation.sequenceMemoryBytes
    && st'.poison == st.poison && st'.pending == st.pending
  }

  lemma SameAccountConserves(ledger: Ledger, stages: seq<StageRecord>, i: nat, st': StageRecord)
    requires i < |stages| && Conserves(ledger, stages) && SameAccount(stages[i], st')
    ensures Conserves(ledger, stages[i := st'])
  {
    forall key ensures SequenceConserved(SequenceStateOf(ledger, key), stages[i := st'], key) {
      SameAccountSequence(SequenceStateOf(ledger, key), stages, i, st', key);
    }
    forall worker ensures WorkerConserved(WorkerStateOf(ledger, worker), stages[i := st'], worker) {
      SameAccountWorker(WorkerStateOf(ledger, worker), stages, i, st', worker);
    }
  }

  lemma SameAccountSequence(state: SequenceState, stages: seq<StageRecord>, i: nat, st': StageRecord, key: SequenceKey)
    requires i < |stages| && SequenceConserved(state, stages, key) && SameAccount(stages[i], st')
    ensures SequenceConserved(state, stages[i := st'], key)
  {
    TotalUpdate(stages, i, st', ActiveAt(key));
    BagUnchanged(stages, i, st', PoisonEntry(key));
  }

  lemma SameAccountWorker(state: WorkerState, stages: seq<StageRecord>, i: nat, st': StageRecord, worker: WorkerKey)
    requires i < |stages| && WorkerConserved(state, stages, worker) && SameAccount(stages[i], st')
    ensures WorkerConserved(state, stages[i := st'], worker)
  {
    TotalUpdate(stages, i, st', ActiveOn(worker));
    TotalUpdate(stages, i, st', ActiveBytesOn(worker));
    TotalUpdate(stages, i, st', ActiveRetainedOn(worker));
    BagUnchanged(stages, i, st', PendingEntry(worker));
  }

  lemma GenuineStays(capacity: WorkerKey -> nat, w: World, w': World, snapshot: Workers)
    requires Extends(w, w') && GenuineSnapshot(capacity, w, snapshot)
    ensures GenuineSnapshot(capacity, w', snapshot)
  {
    forall id | id in snapshot
      ensures Genuine(capacity, w', WorkerKey(id, snapshot[id].InstanceID()), snapshot[id].Status())
    {
      var worker, n := WorkerKey(id, snapshot[id].InstanceID()), snapshot[id].Status().workerObservationSequence;
      assert n != 0 ==> Sampled(w.samples, worker, n);
      assert n != 0 ==> Sampled(w'.samples, worker, n) && SampleOf(w'.samples, worker, n) == SampleOf(w.samples, worker, n);
    }
  }

  /** The parts of the invariant that do not speak of single stages. */
  lemma HistoryKept(capacity: WorkerKey -> nat, w: World, w': World)
    requires Inv(capacity, w) && Extends(w, w')
    requires |w'.stages| >= |w.stages|
    requires forall j :: 0 <= j < |w.stages| ==> w'.stages[j].Key() == w.stages[j].Key()
    requires forall worker, n: nat :: Sampled(w'.samples, worker, n) && !Sampled(w.samples, worker, n) ==> n <= HandedOut(w', worker)
    requires forall t :: |w.snapshots| <= t < |w'.snapshots| ==> GenuineSnapshot(capacity, w', w'.snapshots[t])
    ensures SamplesOK(w')
    ensures forall t :: 0 <= t < |w'.snapshots| ==> GenuineSnapshot(capacity, w', w'.snapshots[t])
  {
    forall t | 0 <= t < |w'.snapshots| ensures GenuineSnapshot(capacity, w', w'.snapshots[t]) {
      if t < |w.snapshots| {
        assert w'.snapshots[t] == w.snapshots[t];
        GenuineStays(capacity, w, w', w.snapshots[t]);
      }
    }
  }

  lemma AllKept(w: World, w': World)
    requires Extends(w, w') && |w'.stages| == |w.stages| && w'.phases == w.phases
    requires forall i :: 0 <= i < |w.stages| ==> StageOK(w, i)
    requires w'.stages == w.stages
    ensures forall i :: 0 <= i < |w'.stages| ==> StageOK(w', i)
  {
    forall i | 0 <= i < |w'.stages| ensures StageOK(w', i) {
      assert StageOK(w, i);
      StageKept(w, w', i);
    }
  }

  lemma TickKeeps(capacity: WorkerKey -> nat, w: World, worker: WorkerKey)
    requires Inv(capacity, w) && CanNumber(w, worker)
    ensures Inv(capacity, Number(w, worker))
  {
    var w' := Number(w, worker);
    assert forall k, n: nat :: Sampled(w'.samples, k, n) <==> Sampled(w.samples, k, n);
    assert Extends(w, w');
    HistoryKept(capacity, w, w');
    AllKept(w, w');
  }

  lemma SampleKeeps(capacity: WorkerKey -> nat, w: World, worker: WorkerKey)
    requires Inv(capacity, w) && CanNumber(w, worker)
    ensures Inv(capacity, Apply(capacity, w, SampleState(worker)))
  {
    var w' := Apply(capacity, w, SampleState(worker));
    var next := HandedOut(w, worker) + 1;
    forall k, n: nat | Sampled(w.samples, k, n)
      ensures Sampled(w'.samples, k, n) && SampleOf(w'.samples, k, n) == SampleOf(w.samples, k, n)
    {
      assert n <= HandedOut(w, k);
    }
    assert forall k, n: nat :: Sampled(w'.samples, k, n) && !Sampled(w.samples, k, n) ==> k == worker && n == next;
    assert Extends(w, w');
    HistoryKept(capacity, w, w');
    AllKept(w, w');
  }

  lemma PublishKeeps(capacity: WorkerKey -> nat, w: World, snapshot: Workers)
    requires Inv(capacity, w) && GenuineSnapshot(capacity, w, snapshot)
    ensures Inv(capacity, w.(snapshots := w.snapshots + [snapshot]))
  {
    var w' := w.(snapshots := w.snapshots + [snapshot]);
    assert Extends(w, w');
    GenuineStays(capacity, w, w', snapshot);
    HistoryKept(capacity, w, w');
    AllKept(w, w');
  }

  // ---------------------------------------------------------------------------
  // Steps on one stage

  /** Replacing one record keeps the invariant when the record itself stays right. */
  lemma OneStageKeeps(capacity: WorkerKey -> nat, w: World, w': World, i: nat, st': StageRecord)
    requires Inv(capacity, w) && i < |w.stages| && SameAccount(w.stages[i], st')
    requires w'.ledger == w.ledger && w'.phases == w.phases && w'.samples == w.samples
    requires w'.snapshots == w.snapshots && w'.admitted == w.admitted && w'.used == w.used && w'.stages == w.stages[i := st']
    requires forall k :: HandedOut(w, k) <= HandedOut(w', k) < UNRECONCILED
    requires StageOK(w', i)
    ensures Inv(capacity, w')
  {
    assert forall k, n: nat :: Sampled(w'.samples, k, n) <==> Sampled(w.samples, k, n);
    assert Extends(w, w');
    SameAccountConserves(w.ledger, w.stages, i, st');
    HistoryKept(capacity, w, w');
    forall j | 0 <= j < |w'.stages| ensures StageOK(w', j) {
      if j != i {
        assert StageOK(w, j);
        StageKept(w, w', j);
      }
    }
  }

  lemma LoadKeeps(capacity: WorkerKey -> nat, w: World, i: nat, bytes: nat)
    requires Inv(capacity, w) && Enabled(capacity, w, Load(i, bytes))
    ensures Inv(capacity, Apply(capacity, w, Load(i, bytes)))
  {
    hide Conserves, Genuine, GenuineSnapshot, SamplesOK;
    assert StageOK(w, i);
    OneStageKeeps(capacity, w, Apply(capacity, w, Load(i, bytes)), i, w.stages[i].(loadHeld := bytes));
  }

  lemma OpenKeeps(capacity: WorkerKey -> nat, w: World, i: nat)
    requires Inv(capacity, w) && Enabled(capacity, w, Open(i))
    ensures Inv(capacity, Apply(capacity, w, Open(i)))
  {
    hide Conserves, Genuine, GenuineSnapshot, SamplesOK;
    assert StageOK(w, i);
    OneStageKeeps(capacity, w, Apply(capacity, w, Open(i)), i, w.stages[i].(open := true));
  }

  lemma GrowKeeps(capacity: WorkerKey -> nat, w: World, i: nat, bytes: nat)
    requires Inv(capacity, w) && Enabled(capacity, w, Grow(i, bytes))
    ensures Inv(capacity, Apply(capacity, w, Grow(i, bytes)))
  {
    hide Conserves, Genuine, GenuineSnapshot, SamplesOK;
    assert StageOK(w, i);
    OneStageKeeps(capacity, w, Apply(capacity, w, Grow(i, bytes)), i, w.stages[i].(sequenceHeld := bytes));
  }

  lemma ShrunkStageOK(w: World, w': World, i: nat, st': StageRecord)
    requires i < |w.stages| && StageOK(w, i) && w' == w.(stages := w.stages[i := st'])
    requires var st := w.stages[i];
             && st' == st.(open := st'.open, loadHeld := st'.loadHeld, sequenceHeld := st'.sequenceHeld)
             && (st'.open ==> st.open) && st'.loadHeld <= st.loadHeld && st'.sequenceHeld <= st.sequenceHeld
             && (st'.sequenceHeld > 0 ==> st'.open)
    ensures StageOK(w', i)
  {
    assert AlreadyShown(w, w.stages[i]) == AlreadyShown(w', st');
  }

  lemma ShrinkKeeps(capacity: WorkerKey -> nat, w: World, i: nat, closes: bool, loadHeld: nat, sequenceHeld: nat)
    requires Inv(capacity, w) && Enabled(capacity, w, Shrink(i, closes, loadHeld, sequenceHeld))
    ensures Inv(capacity, Apply(capacity, w, Shrink(i, closes, loadHeld, sequenceHeld)))
  {
    hide Conserves, Genuine, GenuineSnapshot, SamplesOK;
    assert StageOK(w, i);
    var st := w.stages[i];
    var st' := st.(open := st.open && !closes, loadHeld := loadHeld, sequenceHeld := sequenceHeld);
    ShrunkStageOK(w, w.(stages := w.stages[i := st']), i, st');
    OneStageKeeps(capacity, w, w.(stages := w.stages[i := st']), i, st');
  }

  lemma ObserveSetupKeeps(capacity: WorkerKey -> nat, w: World, i: nat, found: bool)
    requires Inv(capacity, w) && Enabled(capacity, w, ObserveSetup(i, found))
    ensures Inv(capacity, Apply(capacity, w, ObserveSetup(i, found)))
  {
    hide Conserves, Genuine, GenuineSnapshot;
    assert StageOK(w, i);
    var w' := Apply(capacity, w, ObserveSetup(i, found));
    assert forall n: nat :: Sampled(w.samples, w.stages[i].Worker(), n) ==> n <= HandedOut(w, w.stages[i].Worker());
    OneStageKeeps(capacity, w, w', i, w'.stages[i]);
  }

  lemma ObserveCleanupKeeps(capacity: WorkerKey -> nat, w: World, i: nat, found: bool)
    requires Inv(capacity, w) && Enabled(capacity, w, ObserveCleanup(i, found))
    ensures Inv(capacity, Apply(capacity, w, ObserveCleanup(i, found)))
  {
    hide Conserves, Genuine, GenuineSnapshot;
    assert StageOK(w, i);
    var w' := Apply(capacity, w, ObserveCleanup(i, found));
    assert forall n: nat :: Sampled(w.samples, w.stages[i].Worker(), n) ==> n <= HandedOut(w, w.stages[i].Worker());
    OneStageKeeps(capacity, w, w', i, w'.stages[i]);
  }

  // ---------------------------------------------------------------------------
  // Steps on a reservation's phase

  lemma PhaseKeeps(capacity: WorkerKey -> nat, w: World, g: nat, phase: Phase)
    requires Inv(capacity, w) && g < |w.phases| && w.phases[g] != Finished && phase != Finished
    requires forall i :: 0 <= i < |w.stages| && w.stages[i].group == g ==> PhaseOK(w.stages[i], phase)
    ensures Inv(capacity, w.(phases := w.phases[g := phase]))
  {
    var w' := w.(phases := w.phases[g := phase]);
    assert Extends(w, w');
    HistoryKept(capacity, w, w');
    forall i | 0 <= i < |w'.stages| ensures StageOK(w', i) {
      assert StageOK(w, i);
      if w.stages[i].group != g { StageKept(w, w', i); }
    }
  }

  lemma PhaseStepKeeps(capacity: WorkerKey -> nat, w: World, step: Step)
    requires Inv(capacity, w) && Enabled(capacity, w, step)
    requires step.PrepareEnds? || step.RunStarts? || step.RunEnds? || step.Abandon?
    ensures Inv(capacity, Apply(capacity, w, step))
  {
    var phase :=
      match step
      case PrepareEnds(_) => Observing
      case RunStarts(_) => Running
      case RunEnds(_, confirmed) => Settling(Outcome(true, confirmed))
      case Abandon(_, mayHaveLoaded) => Settling(Outcome(mayHaveLoaded, true));
    forall i | 0 <= i < |w.stages| && w.stages[i].group == step.g ensures PhaseOK(w.stages[i], phase) {
      assert StageOK(w, i);
    }
    PhaseKeeps(capacity, w, step.g, phase);
  }

  // ---------------------------------------------------------------------------
  // Release

  /** Every unfinished record of the group is untouched and its bytes fit. */
  ghost predicate GroupReady(stages: seq<StageRecord>, g: nat) {
    forall i :: 0 <= i < |stages| && stages[i].group == g ==>
      !stages[i].finished && stages[i].poison.None? && stages[i].pending.None? && stages[i].Bytes() <= MAX_UINT64
  }

  lemma FinishGroupSplit(ledger: Ledger, stages: seq<StageRecord>, g: nat, n: nat, workers: Workers, outcome: Outcome)
    requires 0 < n <= |stages|
    ensures var st := stages[n - 1];
            var before := FinishStages(ledger, GroupReservations(stages[..n - 1], g), workers, outcome);
            FinishStages(ledger, GroupReservations(stages[..n], g), workers, outcome)
            == if st.group == g then FinishStage(before, st.reservation, workers, outcome) else before
    ensures FinishGroup(stages, g, n, workers, outcome)
            == FinishGroup(stages, g, n - 1, workers, outcome)[n - 1 :=
                 if stages[n - 1].group == g then FinishRecord(stages[n - 1], workers, outcome) else stages[n - 1]]
  {
    hide FinishStage, FinishRecord;
    var st := stages[n - 1];
    assert stages[..n][..n - 1] == stages[..n - 1];
    var rest := GroupReservations(stages[..n - 1], g);
    if st.group == g {
      var all := rest + [st.reservation];
      assert GroupReservations(stages[..n], g) == all;
      assert all[..|all| - 1] == rest;
    } else {
      assert GroupReservations(stages[..n], g) == rest + [] == rest;
    }
  }

  lemma {:induction false} FinishGroupConserves(ledger: Ledger, stages: seq<StageRecord>, g: nat, n: nat, workers: Workers, outcome: Outcome)
    requires n <= |stages| && Conserves(ledger, stages) && GroupReady(stages, g)
    ensures Conserves(FinishStages(ledger, GroupReservations(stages[..n], g), workers, outcome),
                      FinishGroup(stages, g, n, workers, outcome))
  {
    hide Conserves, FinishStage, FinishRecord, FinishStages, GroupReservations;
    if n == 0 {
      assert FinishGroup(stages, g, 0, workers, outcome) == stages;
      NothingToFinish(ledger, stages, g, workers, outcome);
    } else {
      FinishGroupConserves(ledger, stages, g, n - 1, workers, outcome);
      FinishGroupSplit(ledger, stages, g, n, workers, outcome);
      var before := FinishGroup(stages, g, n - 1, workers, outcome);
      assert before[n - 1] == stages[n - 1];
      if stages[n - 1].group == g {
        FinishConserves(FinishStages(ledger, GroupReservations(stages[..n - 1], g), workers, outcome), before, n - 1, workers, outcome);
      } else {
        assert before[n - 1 := stages[n - 1]] == before;
      }
    }
  }

  lemma NothingToFinish(ledger: Ledger, stages: seq<StageRecord>, g: nat, workers: Workers, outcome: Outcome)
    ensures FinishStages(ledger, GroupReservations(stages[..0], g), workers, outcome) == ledger
  {
  }

  lemma AbsentMeansDeparted(w: World, st: StageRecord, t: nat)
    requires st.admittedAt <= t < |w.snapshots|
    requires InstancePresent(w.snapshots[st.admittedAt], st.Worker()) && !InstancePresent(w.snapshots[t], st.Worker())
    ensures Departed(w.snapshots, st.Worker())
  {
  }

  /** A leaked sequence gets a poison that only a sample showing it can reach. */
  lemma FinishPoisons(w: World, i: nat, workers: Workers, outcome: Outcome)
    requires i < |w.stages| && StageOK(w, i) && w.phases[w.stages[i].group] == Settling(outcome)
    requires SamplesOK(w) && HandedOut(w, w.stages[i].Worker()) < UNRECONCILED
    requires InstancePresent(workers, w.stages[i].Worker())
    ensures LeakPoisoned(w, i, FinishRecord(w.stages[i], workers, outcome))
  {
    var st := w.stages[i];
    assert forall n: nat :: Sampled(w.samples, st.Worker(), n) ==> n < UNRECONCILED;
  }

  /** What remains allocated is charged until a sample that must show it. */
  lemma FinishCharges(w: World, i: nat, workers: Workers, outcome: Outcome)
    requires i < |w.stages| && StageOK(w, i) && w.phases[w.stages[i].group] == Settling(outcome)
    requires SamplesOK(w) && HandedOut(w, w.stages[i].Worker()) < UNRECONCILED
    requires InstancePresent(workers, w.stages[i].Worker())
    ensures LeakCharged(w, i, FinishRecord(w.stages[i], workers, outcome))
  {
    var st, st' := w.stages[i], FinishRecord(w.stages[i], workers, outcome);
    assert !LoadMayRemain(st.reservation, outcome) ==> st.loadHeld == 0;
    assert StageCleanupConfirmed(st.reservation, outcome) ==> st.sequenceHeld == 0;
    assert st.Held() <= PendingAfter(st.reservation, outcome).availableBytes;
    forall n: nat | Sampled(w.samples, st.Worker(), n) && st'.threshold <= n
      ensures st'.Held() <= HeldIn(SampleOf(w.samples, st.Worker(), n), i)
    {
      assert n < UNRECONCILED;
      var held := SampleOf(w.samples, st.Worker(), n);
      assert st.loadHeld <= LoadIn(held, i);
      assert st.sequenceHeld <= SequenceIn(held, i);
    }
  }

  lemma SameHistory(w: World, w': World, i: nat, st: StageRecord)
    requires w'.samples == w.samples && w'.snapshots == w.snapshots && w'.observed == w.observed && w'.used == w.used
    ensures LeakPoisoned(w', i, st) <==> LeakPoisoned(w, i, st)
    ensures LeakCharged(w', i, st) <==> LeakCharged(w, i, st)
  {
    assert AlreadyShown(w', st) <==> AlreadyShown(w, st);
  }

  lemma FinishedStageOK(w: World, w': World, i: nat, t: nat, outcome: Outcome)
    requires i < |w.stages| == |w'.stages| && StageOK(w, i) && w.phases[w.stages[i].group] == Settling(outcome)
    requires SamplesOK(w) && HandedOut(w, w.stages[i].Worker()) < UNRECONCILED
    requires t < |w.snapshots| && w.stages[i].admittedAt <= t
    requires w'.samples == w.samples && w'.snapshots == w.snapshots && w'.observed == w.observed && w'.admitted == w.admitted && w'.used == w.used
    requires w'.stages[i] == FinishRecord(w.stages[i], w.snapshots[t], outcome)
    requires w.stages[i].group < |w'.phases| && w'.phases[w.stages[i].group] == Finished
    ensures StageOK(w', i)
  {
    if InstancePresent(w.snapshots[t], w.stages[i].Worker()) {
      FinishPoisons(w, i, w.snapshots[t], outcome);
      FinishCharges(w, i, w.snapshots[t], outcome);
      SameHistory(w, w', i, w'.stages[i]);
      hide LeakPoisoned, LeakCharged, PendingAfter, MinimumAfter, SamplesOK, AddOverflow;
    } else {
      AbsentMeansDeparted(w, w.stages[i], t);
    }
  }

  lemma FinishKeeps(capacity: WorkerKey -> nat, w: World, g: nat, t: nat)
    requires Inv(capacity, w) && Enabled(capacity, w, Finish(g, t))
    ensures Inv(capacity, Apply(capacity, w, Finish(g, t)))
  {
    hide Conserves, FinishStages, LeakPoisoned, LeakCharged;
    var w' := Apply(capacity, w, Finish(g, t));
    var workers, outcome := w.snapshots[t], w.phases[g].outcome;
    assert Extends(w, w');
    forall i | 0 <= i < |w.stages| && w.stages[i].group == g
      ensures !w.stages[i].finished && w.stages[i].poison.None? && w.stages[i].pending.None?
              && w.stages[i].Bytes() <= MAX_UINT64
    {
      assert StageOK(w, i);
    }
    assert w.stages[..|w.stages|] == w.stages;
    FinishGroupConserves(w.ledger, w.stages, g, |w.stages|, workers, outcome);
    HistoryKept(capacity, w, w');
    forall i | 0 <= i < |w'.stages| ensures StageOK(w', i) {
      assert StageOK(w, i);
      if w.stages[i].group != g {
        StageKept(w, w', i);
      } else {
        FinishedStageOK(w, w', i, t, outcome);
      }
    }
  }

  // ---------------------------------------------------------------------------
  // Admission

  /** A snapshot clears a poison only if the leaked sequence is already closed. */
  lemma ClearedPoisonWasClosed(capacity: WorkerKey -> nat, w: World, i: nat, t: nat)
    requires i < |w.stages| && t < |w.snapshots| && SamplesOK(w) && GenuineSnapshot(capacity, w, w.snapshots[t])
    requires var st := w.stages[i];
             && LeakPoisoned(w, i, st) && st.poison.Some? && InstancePresent(w.snapshots[t], st.Worker())
             && PoisonCleared(st.Key(), st.poison.value, w.snapshots[t])
    ensures !w.stages[i].open
  {
    var st := w.stages[i];
    var worker := w.snapshots[t][st.Worker().workerID];
    var n := worker.Status().workerObservationSequence;
    assert Genuine(capacity, w, WorkerKey(st.Worker().workerID, worker.InstanceID()), worker.Status());
    assert Sampled(w.samples, st.Worker(), n);
    var held := SampleOf(w.samples, st.Worker(), n);
    if OpenIn(held, i) { assert held[i].Key() == st.Key(); }
  }

  lemma ReconcileStageOK(capacity: WorkerKey -> nat, w: World, w': World, i: nat, t: nat)
    requires Inv(capacity, w) && w.admitted <= t < |w.snapshots| && i < |w.stages| && i < |w'.stages|
    requires Extends(w, w') && w'.admitted == t && t in w'.used && w'.snapshots == w.snapshots && w'.samples == w.samples
    requires w'.observed == w.observed && w.phases <= w'.phases
    requires w'.stages[i] == ReconcileRecord(w.stages[i], w.snapshots[t])
    ensures StageOK(w', i)
  {
    hide Conserves, Genuine, GenuineSnapshot, SamplesOK, PoisonCleared;
    assert StageOK(w, i);
    var st, st' := w.stages[i], w'.stages[i];
    if st.finished {
      if Departed(w.snapshots, st.Worker()) {
      } else {
        if !InstancePresent(w.snapshots[t], st.Worker()) { AbsentMeansDeparted(w, st, t); }
        if st.poison.Some? && PoisonCleared(st.Key(), st.poison.value, w.snapshots[t]) {
          ClearedPoisonWasClosed(capacity, w, i, t);
        }
        if AlreadyShown(w, st) { ShownStays(w, w', st); assert AlreadyShown(w', st'); }
        if st.pending.Some? && st'.pending.None? {
          assert 0 < st.threshold <= ObservedAt(w'.snapshots[t], st.Worker());
          assert AlreadyShown(w', st');
        }
      }
    }
  }

  /** What passing every guard of one stage says. */
  ghost predicate Guarded(ledger: Ledger, workers: Workers, evaluation: Placement.PlanEvaluation, i: nat, r: StageReservation)
    requires i < |evaluation.plan.stages|
  {
    var worker := r.key.worker;
    && worker.workerID == evaluation.plan.stages[i].targetID
    && InstancePresent(workers, worker)
    && workers[worker.workerID].Status().workerObservationSequence != 0
    && r.setup.None? && r.cleanup.None?
    && r.loadMemoryBytes + r.sequenceMemoryBytes <= MAX_UINT64
    && (var status, limits := workers[worker.workerID].Status(), workers[worker.workerID].Admission();
        var reserved := ReservedWorkerMemory(WorkerStateOf(ledger, worker));
        var sequences := SequenceStateOf(ledger, r.key);
        && ReportedOpen(status.retainedShards, r.key.shardID) + sequences.active + |sequences.poisonedAfter|
           < limits.maxOpenSequencesPerShard
        && status.openSequenceCount + WorkerStateOf(ledger, worker).activeRequests < limits.maxConcurrentRequests
        && reserved.Some?
        && reserved.value.0 + r.loadMemoryBytes + r.sequenceMemoryBytes <= status.availableMemoryBytes
        && status.retainedBytes + reserved.value.1 + r.sequenceMemoryBytes <= limits.retainedByteBudget)
  }

  lemma {:induction false} CheckedStagesGuarded(ledger: Ledger, workers: Workers, evaluation: Placement.PlanEvaluation, n: nat)
    requires n <= |evaluation.plan.stages| == |evaluation.stages| == |evaluation.request.stages|
    requires forall id :: id in workers ==> workers[id].ID() == id
    ensures var r := CheckStages(ledger, workers, evaluation, n);
            r.Ok? ==> forall i :: 0 <= i < n ==> Guarded(ledger, workers, evaluation, i, r.value[i])
  {
    if n > 0 {
      CheckedStagesGuarded(ledger, workers, evaluation, n - 1);
      CheckedStageGuarded(ledger, workers, evaluation, n - 1);
    }
  }

  lemma CheckedStageGuarded(ledger: Ledger, workers: Workers, evaluation: Placement.PlanEvaluation, i: nat)
    requires i < |evaluation.plan.stages| == |evaluation.stages| == |evaluation.request.stages|
    requires forall id :: id in workers ==> workers[id].ID() == id
    ensures var r := CheckStage(ledger, workers, evaluation, i);
            r.Ok? ==> Guarded(ledger, workers, evaluation, i, r.value)
  {
  }

  /** Charging stages on other workers leaves a worker's entry alone. */
  lemma {:induction false} ChargeFrame(ledger: Ledger, stages: seq<StageReservation>, worker: WorkerKey)
    requires forall i :: 0 <= i < |stages| ==> stages[i].key.worker != worker
    ensures WorkerStateOf(ChargeStages(ledger, stages), worker) == WorkerStateOf(ledger, worker)
  {
    if stages != [] { ChargeFrame(ledger, stages[..|stages| - 1], worker); }
  }

  lemma ReservedCoversActive(state: WorkerState)
    ensures ReservedWorkerMemory(state).Some? ==>
              && state.activeAvailableBytes <= ReservedWorkerMemory(state).value.0
              && state.activeRetainedBytes <= ReservedWorkerMemory(state).value.1
  {
    ReservedFromSums(state.activeAvailableBytes, state.activeRetainedBytes, state.pendingMemory);
  }

  lemma {:induction false} ChargeStagesConserves(ledger: Ledger, records: seq<StageRecord>, workers: Workers,
                              evaluation: Placement.PlanEvaluation, rs: seq<StageReservation>, g: nat, t: nat, n: nat)
    requires n <= |rs| == |evaluation.plan.stages| && DistinctTargets(evaluation)
    requires Conserves(ledger, records)
    requires forall i :: 0 <= i < |rs| ==> Guarded(ledger, workers, evaluation, i, rs[i])
    ensures Conserves(ChargeStages(ledger, rs[..n]), records + FreshRecords(g, t, rs[..n]))
  {
    hide Conserves, ChargeStage;
    if n == 0 {
      assert records + FreshRecords(g, t, rs[..0]) == records;
    } else {
      ChargeStagesConserves(ledger, records, workers, evaluation, rs, g, t, n - 1);
      var before := ChargeStages(ledger, rs[..n - 1]);
      var r := rs[n - 1];
      assert Guarded(ledger, workers, evaluation, n - 1, r);
      var done := rs[..n - 1];
      forall i | 0 <= i < |done| ensures done[i].key.worker != r.key.worker {
        assert Guarded(ledger, workers, evaluation, i, rs[i]);
      }
      ChargeFrame(ledger, rs[..n - 1], r.key.worker);
      ReservedCoversActive(WorkerStateOf(ledger, r.key.worker));
      ChargeConserves(before, records + FreshRecords(g, t, rs[..n - 1]), Fresh(g, t, r));
      assert rs[..n][..n - 1] == rs[..n - 1];
      assert records + FreshRecords(g, t, rs[..n]) == records + FreshRecords(g, t, rs[..n - 1]) + [Fresh(g, t, r)];
    }
  }

  lemma AdmitConserves(w: World, t: nat, evaluation: Placement.PlanEvaluation)
    requires Conserves(w.ledger, w.stages) && t < |w.snapshots| && DistinctTargets(evaluation)
    requires forall id :: id in w.snapshots[t] ==> w.snapshots[t][id].ID() == id
    ensures Conserves(ApplyAdmit(w, t, evaluation).ledger, ApplyAdmit(w, t, evaluation).stages)
  {
    hide Conserves;
    var workers := w.snapshots[t];
    var result := ReserveAdmission(w.ledger, workers, evaluation).1;
    if result != Err(EvidenceIncomplete) {
      ReconcileConserves(w.ledger, w.stages, workers);
      if result.Ok? {
        AdmittedGuarded(w.ledger, workers, evaluation);
        var rs := result.value;
        assert rs[..|rs|] == rs;
        ChargeStagesConserves(Reconcile(w.ledger, workers), ReconcileRecords(w.stages, workers), workers, evaluation,
                              rs, |w.phases|, t, |rs|);
      }
    }
  }

  lemma AdmittedGuarded(ledger: Ledger, workers: Workers, evaluation: Placement.PlanEvaluation)
    requires forall id :: id in workers ==> workers[id].ID() == id
    ensures var result := ReserveAdmission(ledger, workers, evaluation).1;
            result.Ok? ==>
              && |result.value| == |evaluation.plan.stages|
              && forall k :: 0 <= k < |result.value| ==> Guarded(Reconcile(ledger, workers), workers, evaluation, k, result.value[k])
  {
    if |evaluation.plan.stages| == |evaluation.stages| == |evaluation.request.stages| {
      CheckedStagesGuarded(Reconcile(ledger, workers), workers, evaluation, |evaluation.plan.stages|);
    }
  }

  lemma FreshStageOK(w': World, i: nat, ledger: Ledger, evaluation: Placement.PlanEvaluation, k: nat, g: nat, t: nat, r: StageReservation)
    requires k < |evaluation.plan.stages| && t < |w'.snapshots| && Guarded(ledger, w'.snapshots[t], evaluation, k, r)
    requires i < |w'.stages| && w'.stages[i] == Fresh(g, t, r) && g < |w'.phases| && w'.phases[g] == Preparing
    requires w'.admitted == t
    ensures StageOK(w', i)
  {
  }

  lemma AdmitKeeps(capacity: WorkerKey -> nat, w: World, t: nat, evaluation: Placement.PlanEvaluation)
    requires Inv(capacity, w) && Enabled(capacity, w, Admit(t, evaluation))
    ensures Inv(capacity, ApplyAdmit(w, t, evaluation))
  {
    hide Conserves, StageOK, CheckStages, Reconcile, ChargeStages, Genuine, Guarded, SamplesOK, DistinctTargets;
    var w' := ApplyAdmit(w, t, evaluation);
    var workers := w.snapshots[t];
    assert GenuineSnapshot(capacity, w, workers);
    AdmitConserves(w, t, evaluation);
    var result := ReserveAdmission(w.ledger, workers, evaluation).1;
    if result != Err(EvidenceIncomplete) {
      assert Extends(w, w');
      HistoryKept(capacity, w, w');
      var ledger := Reconcile(w.ledger, workers);
      AdmittedGuarded(w.ledger, workers, evaluation);
      forall i | 0 <= i < |w'.stages| ensures StageOK(w', i) {
        if i < |w.stages| {
          ReconcileStageOK(capacity, w, w', i, t);
        } else {
          var k := i - |w.stages|;
          FreshStageOK(w', i, ledger, evaluation, k, |w.phases|, t, result.value[k]);
        }
      }
    }
  }

  // ---------------------------------------------------------------------------
  // Runs

  lemma StepKeeps(capacity: WorkerKey -> nat, w: World, step: Step)
    requires Inv(capacity, w) && Enabled(capacity, w, step)
    ensures Inv(capacity, Apply(capacity, w, step))
  {
    match step
    case Tick(worker) => TickKeeps(capacity, w, worker);
    case SampleState(worker) => SampleKeeps(capacity, w, worker);
    case Publish(snapshot) => PublishKeeps(capacity, w, snapshot);
    case Admit(t, evaluation) => AdmitKeeps(capacity, w, t, evaluation);
    case Load(i, bytes) => LoadKeeps(capacity, w, i, bytes);
    case ObserveSetup(i, found) => ObserveSetupKeeps(capacity, w, i, found);
    case Open(i) => OpenKeeps(capacity, w, i);
    case Grow(i, bytes) => GrowKeeps(capacity, w, i, bytes);
    case Shrink(i, closes, loadHeld, sequenceHeld) => ShrinkKeeps(capacity, w, i, closes, loadHeld, sequenceHeld);
    case ObserveCleanup(i, found) => ObserveCleanupKeeps(capacity, w, i, found);
    case Finish(g, t) => FinishKeeps(capacity, w, g, t);
    case _ => PhaseStepKeeps(capacity, w, step);
  }
}
