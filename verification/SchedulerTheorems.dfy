/** What holds in every run: quarantine, memory, limits, conservation. */
module SchedulerTheorems {
  import opened WideArithmetic
  import opened Membership
  import opened Scheduler
  import opened Conservation
  import opened Totals
  import opened SchedulerRuns
  import opened SchedulerSafety
  import Placement

  /** The world after a list of steps, if each was enabled when taken. */
  ghost function After(capacity: WorkerKey -> nat, steps: seq<Step>): Option<World> {
    if steps == [] then Some(INITIAL)
    else
      var last := steps[|steps| - 1];
      match After(capacity, steps[..|steps| - 1])
      case None => None
      case Some(w) => if Enabled(capacity, w, last) then Some(Apply(capacity, w, last)) else None
  }

  lemma {:induction false} RunInvariant(capacity: WorkerKey -> nat, steps: seq<Step>)
    ensures After(capacity, steps).Some? ==> Inv(capacity, After(capacity, steps).value)
  {
    if steps == [] {
    } else {
      RunInvariant(capacity, steps[..|steps| - 1]);
      var before := After(capacity, steps[..|steps| - 1]);
      var last := steps[|steps| - 1];
      if before.Some? && Enabled(capacity, before.value, last) {
        StepKeeps(capacity, before.value, last);
      }
    }
  }

  // ---------------------------------------------------------------------------
  // Conservation

  /** In every reachable state each counter and byte total is the exact sum over
      the admitted stages, so no guarded subtraction ever clamps. */
  lemma LedgerConserved(capacity: WorkerKey -> nat, steps: seq<Step>, key: SequenceKey)
    requires After(capacity, steps).Some?
    ensures var w := After(capacity, steps).value;
            var sequences, requests := SequenceStateOf(w.ledger, key), WorkerStateOf(w.ledger, key.worker);
            && sequences.active == Total(w.stages, ActiveAt(key))
            && |sequences.poisonedAfter| == Total(w.stages, PoisonedAt(key))
            && requests.activeRequests == Total(w.stages, ActiveOn(key.worker))
            && requests.activeAvailableBytes == Total(w.stages, ActiveBytesOn(key.worker))
            && requests.activeRetainedBytes == Total(w.stages, ActiveRetainedOn(key.worker))
            && AvailableSum(requests.pendingMemory) == Total(w.stages, PendingBytesOn(key.worker))
            && RetainedSum(requests.pendingMemory) == Total(w.stages, PendingRetainedOn(key.worker))
  {
    RunInvariant(capacity, steps);
    var w := After(capacity, steps).value;
    assert SequenceConserved(SequenceStateOf(w.ledger, key), w.stages, key);
    assert WorkerConserved(WorkerStateOf(w.ledger, key.worker), w.stages, key.worker);
    LocalOpens(w.ledger, w.stages, key);
    PendingSums(WorkerStateOf(w.ledger, key.worker).pendingMemory, w.stages, key.worker);
  }

  // ---------------------------------------------------------------------------
  // Quarantine

  ghost function OpenAt(key: SequenceKey): StageRecord -> nat {
    (st: StageRecord) => One(st.open && st.Key() == key)
  }

  /** Charged locally: active, or finished with a poison left. */
  ghost function LocalAt(key: SequenceKey): StageRecord -> nat {
    (st: StageRecord) => One((!st.finished || st.poison.Some?) && st.Key() == key)
  }

  lemma LocalIsCharged(capacity: WorkerKey -> nat, w: World, key: SequenceKey)
    requires Inv(capacity, w)
    ensures var state := SequenceStateOf(w.ledger, key);
            state.active + |state.poisonedAfter| == Total(w.stages, LocalAt(key))
  {
    forall i | 0 <= i < |w.stages|
      ensures LocalAt(key)(w.stages[i]) == ActiveAt(key)(w.stages[i]) + PoisonedAt(key)(w.stages[i])
    {
      assert StageOK(w, i);
    }
    TotalSum(w.stages, ActiveAt(key), PoisonedAt(key), LocalAt(key));
    LocalOpens(w.ledger, w.stages, key);
  }

  /** However observations and statuses are delivered, the sequences this scheduler
      really has open on a shard never exceed what it charges for that shard, as
      long as the instance has not left the inventory. */
  lemma QuarantineSound(capacity: WorkerKey -> nat, steps: seq<Step>, key: SequenceKey)
    requires After(capacity, steps).Some? && !Departed(After(capacity, steps).value.snapshots, key.worker)
    ensures var w := After(capacity, steps).value;
            var state := SequenceStateOf(w.ledger, key);
            Total(w.stages, OpenAt(key)) <= state.active + |state.poisonedAfter|
  {
    RunInvariant(capacity, steps);
    var w := After(capacity, steps).value;
    forall i | 0 <= i < |w.stages| ensures OpenAt(key)(w.stages[i]) <= LocalAt(key)(w.stages[i]) {
      assert StageOK(w, i);
    }
    TotalBounded(w.stages, OpenAt(key), w.stages, LocalAt(key));
    LocalIsCharged(capacity, w, key);
  }

  // ---------------------------------------------------------------------------
  // How each step moves the charges

  /** What a record may still come to hold. */
  ghost function PotentialOn(worker: WorkerKey): StageRecord -> nat {
    (st: StageRecord) => if st.Worker() != worker then 0 else if st.finished then st.Held() else st.Bytes()
  }

  /** Sequence bytes charged to a worker's retained budget. */
  ghost function RetainedOn(worker: WorkerKey): StageRecord -> nat {
    (st: StageRecord) =>
      if st.Worker() != worker then 0
      else if !st.finished then st.reservation.sequenceMemoryBytes
      else if st.pending.Some? then st.pending.value.retainedBytes
      else 0
  }

  function PendingRetained(st: StageRecord): nat {
    if st.pending.Some? then st.pending.value.retainedBytes else 0
  }

  function PendingBytes(st: StageRecord): nat {
    if st.pending.Some? then st.pending.value.availableBytes else 0
  }

  /** All memory charged to a worker: active, or pending after release. */
  ghost function ChargedOn(worker: WorkerKey): StageRecord -> nat {
    (st: StageRecord) => if st.Worker() != worker then 0 else if st.finished then PendingBytes(st) else st.Bytes()
  }

  /** The record is worth no more than before in each respect. */
  predicate NoMore(before: StageRecord, after: StageRecord) {
    && after.Key() == before.Key()
    && after.reservation.loadMemoryBytes == before.reservation.loadMemoryBytes
    && after.reservation.sequenceMemoryBytes == before.reservation.sequenceMemoryBytes
    && (before.finished ==>
          && after.finished
          && (after.poison.Some? ==> before.poison.Some?)
          && after.Held() <= before.Held()
          && PendingBytes(after) <= PendingBytes(before)
          && PendingRetained(after) <= PendingRetained(before))
    && (!before.finished && after.finished ==>
          && after.Held() <= before.Bytes() && PendingBytes(after) <= before.Bytes()
          && PendingRetained(after) <= before.reservation.sequenceMemoryBytes)
  }

  lemma NoMoreWeights(before: StageRecord, after: StageRecord, key: SequenceKey)
    requires NoMore(before, after)
    ensures LocalAt(key)(after) <= LocalAt(key)(before)
    ensures ActiveOn(key.worker)(after) <= ActiveOn(key.worker)(before)
    ensures PotentialOn(key.worker)(after) <= PotentialOn(key.worker)(before)
    ensures RetainedOn(key.worker)(after) <= RetainedOn(key.worker)(before)
    ensures ChargedOn(key.worker)(after) <= ChargedOn(key.worker)(before)
  {
  }

  lemma FinishChargesNoMore(st: StageRecord, workers: Workers, outcome: Outcome)
    requires !st.finished && st.Held() <= st.Bytes() <= MAX_UINT64
    ensures NoMore(st, FinishRecord(st, workers, outcome))
  {
    hide MinimumAfter;
  }

  lemma SameReservationChargesNoMore(st: StageRecord, after: StageRecord)
    requires after.Key() == st.Key() && after.finished == st.finished && after.poison == st.poison && after.pending == st.pending
    requires after.reservation.loadMemoryBytes == st.reservation.loadMemoryBytes
    requires after.reservation.sequenceMemoryBytes == st.reservation.sequenceMemoryBytes
    requires st.finished ==> after.Held() <= st.Held()
    ensures NoMore(st, after)
  {
  }

  lemma FinishStepChargesNoMore(capacity: WorkerKey -> nat, w: World, g: nat, t: nat)
    requires Inv(capacity, w) && Enabled(capacity, w, Finish(g, t))
    ensures var after := FinishGroup(w.stages, g, |w.stages|, w.snapshots[t], w.phases[g].outcome);
            forall i :: 0 <= i < |w.stages| ==> NoMore(w.stages[i], after[i])
  {
    hide Conserves, Genuine, GenuineSnapshot, SetupOK, CleanupOK, FinishedOK, SamplesOK, FinishRecord, NoMore;
    forall i | 0 <= i < |w.stages|
      ensures NoMore(w.stages[i], FinishGroup(w.stages, g, |w.stages|, w.snapshots[t], w.phases[g].outcome)[i])
    {
      assert StageOK(w, i);
      if w.stages[i].group == g {
        FinishChargesNoMore(w.stages[i], w.snapshots[t], w.phases[g].outcome);
      } else {
        SameReservationChargesNoMore(w.stages[i], w.stages[i]);
      }
    }
  }

  lemma OtherStepsChargeNoMore(capacity: WorkerKey -> nat, w: World, step: Step)
    requires Inv(capacity, w) && Enabled(capacity, w, step) && !step.Admit?
    ensures |Apply(capacity, w, step).stages| == |w.stages|
    ensures forall i :: 0 <= i < |w.stages| ==> NoMore(w.stages[i], Apply(capacity, w, step).stages[i])
  {
    hide Conserves, Genuine, GenuineSnapshot, SetupOK, CleanupOK, FinishedOK, FinishStages, SamplesOK, DistinctTargets, FinishGroup, NoMore;
    if step.Finish? {
      FinishStepChargesNoMore(capacity, w, step.g, step.t);
    } else {
      var w' := Apply(capacity, w, step);
      forall i | 0 <= i < |w.stages| ensures NoMore(w.stages[i], w'.stages[i]) {
        assert StageOK(w, i);
        SameReservationChargesNoMore(w.stages[i], w'.stages[i]);
      }
    }
  }

  lemma ReconcileChargesNoMore(stages: seq<StageRecord>, workers: Workers)
    ensures forall i :: 0 <= i < |stages| ==> NoMore(stages[i], ReconcileRecords(stages, workers)[i])
  {
  }

  lemma NoMoreTotals(before: seq<StageRecord>, after: seq<StageRecord>, key: SequenceKey)
    requires |before| == |after| && forall i :: 0 <= i < |before| ==> NoMore(before[i], after[i])
    ensures Total(after, LocalAt(key)) <= Total(before, LocalAt(key))
    ensures Total(after, ActiveOn(key.worker)) <= Total(before, ActiveOn(key.worker))
    ensures Total(after, PotentialOn(key.worker)) <= Total(before, PotentialOn(key.worker))
    ensures Total(after, RetainedOn(key.worker)) <= Total(before, RetainedOn(key.worker))
    ensures Total(after, ChargedOn(key.worker)) <= Total(before, ChargedOn(key.worker))
  {
    forall i | 0 <= i < |before|
      ensures LocalAt(key)(after[i]) <= LocalAt(key)(before[i])
              && ActiveOn(key.worker)(after[i]) <= ActiveOn(key.worker)(before[i])
              && PotentialOn(key.worker)(after[i]) <= PotentialOn(key.worker)(before[i])
              && RetainedOn(key.worker)(after[i]) <= RetainedOn(key.worker)(before[i])
              && ChargedOn(key.worker)(after[i]) <= ChargedOn(key.worker)(before[i])
    {
      NoMoreWeights(before[i], after[i], key);
    }
    TotalBounded(after, LocalAt(key), before, LocalAt(key));
    TotalBounded(after, ActiveOn(key.worker), before, ActiveOn(key.worker));
    TotalBounded(after, PotentialOn(key.worker), before, PotentialOn(key.worker));
    TotalBounded(after, RetainedOn(key.worker), before, RetainedOn(key.worker));
    TotalBounded(after, ChargedOn(key.worker), before, ChargedOn(key.worker));
  }

  /** Fresh records elsewhere do not move a total. */
  lemma {:induction false} FreshElsewhere(records: seq<StageRecord>, g: nat, t: nat, rs: seq<StageReservation>, m: nat, n: nat,
                       weight: StageRecord -> nat)
    requires m <= n <= |rs| && forall k :: m <= k < n ==> weight(Fresh(g, t, rs[k])) == 0
    ensures Total(records + FreshRecords(g, t, rs[..n]), weight) == Total(records + FreshRecords(g, t, rs[..m]), weight)
    decreases n - m
  {
    if m < n {
      FreshElsewhere(records, g, t, rs, m, n - 1, weight);
      assert records + FreshRecords(g, t, rs[..n]) == records + FreshRecords(g, t, rs[..n - 1]) + [Fresh(g, t, rs[n - 1])];
      TotalAppend(records + FreshRecords(g, t, rs[..n - 1]), Fresh(g, t, rs[n - 1]), weight);
    }
  }

  /** A batch of fresh records of which at most one counts adds that one's weight. */
  lemma FreshTotal(records: seq<StageRecord>, g: nat, t: nat, rs: seq<StageReservation>, weight: StageRecord -> nat)
    requires forall i, j :: 0 <= i < j < |rs| ==> weight(Fresh(g, t, rs[i])) == 0 || weight(Fresh(g, t, rs[j])) == 0
    ensures var after := Total(records + FreshRecords(g, t, rs), weight);
            || after == Total(records, weight)
            || exists k :: 0 <= k < |rs| && after == Total(records, weight) + weight(Fresh(g, t, rs[k]))
                           && weight(Fresh(g, t, rs[k])) > 0
  {
    assert rs[..|rs|] == rs;
    assert records + FreshRecords(g, t, rs[..0]) == records;
    if k :| 0 <= k < |rs| && weight(Fresh(g, t, rs[k])) > 0 {
      FreshElsewhere(records, g, t, rs, 0, k, weight);
      assert records + FreshRecords(g, t, rs[..k + 1]) == records + FreshRecords(g, t, rs[..k]) + [Fresh(g, t, rs[k])];
      TotalAppend(records + FreshRecords(g, t, rs[..k]), Fresh(g, t, rs[k]), weight);
      FreshElsewhere(records, g, t, rs, k + 1, |rs|, weight);
    } else {
      FreshElsewhere(records, g, t, rs, 0, |rs|, weight);
    }
  }

  ghost predicate Within(n: nat, limit: int) { n == 0 || n <= limit }

  lemma FreshWithin(records: seq<StageRecord>, g: nat, t: nat, rs: seq<StageReservation>, weight: StageRecord -> nat, limit: int)
    requires Within(Total(records, weight), limit)
    requires forall i, j :: 0 <= i < j < |rs| ==> weight(Fresh(g, t, rs[i])) == 0 || weight(Fresh(g, t, rs[j])) == 0
    requires forall k :: 0 <= k < |rs| && weight(Fresh(g, t, rs[k])) > 0 ==>
               Total(records, weight) + weight(Fresh(g, t, rs[k])) <= limit
    ensures Within(Total(records + FreshRecords(g, t, rs), weight), limit)
  {
    FreshTotal(records, g, t, rs, weight);
  }

  // ---------------------------------------------------------------------------
  // Limits

  /** Each instance keeps its limits, and no status reports a negative count. */
  ghost predicate FixedLimits(limits: WorkerKey -> AdmissionLimits, snapshots: seq<Workers>) {
    forall t, id :: 0 <= t < |snapshots| && id in snapshots[t] ==>
      && snapshots[t][id].Admission() == limits(WorkerKey(id, snapshots[t][id].InstanceID()))
      && snapshots[t][id].Status().openSequenceCount >= 0
      && forall shard :: ReportedOpen(snapshots[t][id].Status().retainedShards, shard) >= 0
  }

  ghost predicate LimitInv(limits: WorkerKey -> AdmissionLimits, w: World) {
    forall key :: LimitsAt(limits, w.stages, key)
  }

  lemma GuardsDistinct(ledger: Ledger, workers: Workers, evaluation: Placement.PlanEvaluation, rs: seq<StageReservation>)
    requires |rs| == |evaluation.plan.stages| && DistinctTargets(evaluation)
    requires forall k :: 0 <= k < |rs| ==> Guarded(ledger, workers, evaluation, k, rs[k])
    ensures forall i, j :: 0 <= i < j < |rs| ==> rs[i].key.worker != rs[j].key.worker
  {
    forall i, j | 0 <= i < j < |rs| ensures rs[i].key.worker != rs[j].key.worker {
      assert Guarded(ledger, workers, evaluation, i, rs[i]) && Guarded(ledger, workers, evaluation, j, rs[j]);
    }
  }

  /** The retained and active sums that the guards read are the record totals. */
  lemma GuardSums(ledger: Ledger, w: World, capacity: WorkerKey -> nat, key: SequenceKey)
    requires Inv(capacity, w)
    ensures var state := WorkerStateOf(w.ledger, key.worker);
            && state.activeRequests == Total(w.stages, ActiveOn(key.worker))
            && (ReservedWorkerMemory(state).Some? ==>
                  && ReservedWorkerMemory(state).value.1 == Total(w.stages, RetainedOn(key.worker))
                  && ReservedWorkerMemory(state).value.0 ==
                     Total(w.stages, ActiveBytesOn(key.worker)) + Total(w.stages, PendingBytesOn(key.worker)))
  {
    assert WorkerConserved(WorkerStateOf(w.ledger, key.worker), w.stages, key.worker);
    forall i | 0 <= i < |w.stages|
      ensures RetainedOn(key.worker)(w.stages[i]) ==
              ActiveRetainedOn(key.worker)(w.stages[i]) + PendingRetainedOn(key.worker)(w.stages[i])
    {
      assert StageOK(w, i);
    }
    TotalSum(w.stages, ActiveRetainedOn(key.worker), PendingRetainedOn(key.worker), RetainedOn(key.worker));
    ReservedMemory(w.ledger, w.stages, key.worker);
  }

  /** The world between reconciliation and charging. */
  ghost function Reconciled(w: World, t: nat): World
    requires t < |w.snapshots|
  {
    w.(ledger := Reconcile(w.ledger, w.snapshots[t]), stages := ReconcileRecords(w.stages, w.snapshots[t]),
       admitted := t, used := w.used + {t})
  }

  lemma ReconciledInv(capacity: WorkerKey -> nat, w: World, t: nat)
    requires Inv(capacity, w) && w.admitted <= t < |w.snapshots|
    ensures Inv(capacity, Reconciled(w, t))
  {
    hide Conserves, StageOK;
    var w' := Reconciled(w, t);
    assert GenuineSnapshot(capacity, w, w.snapshots[t]);
    ReconcileConserves(w.ledger, w.stages, w.snapshots[t]);
    assert Extends(w, w');
    HistoryKept(capacity, w, w');
    forall i | 0 <= i < |w'.stages| ensures StageOK(w', i) {
      ReconcileStageOK(capacity, w, w', i, t);
    }
  }

  /** An admission that succeeds appends one guarded record per stage, each on its
      own worker, to the reconciled world. */
  lemma AdmittedShape(capacity: WorkerKey -> nat, w: World, t: nat, evaluation: Placement.PlanEvaluation)
    requires Inv(capacity, w) && Enabled(capacity, w, Admit(t, evaluation))
    ensures var w' := ApplyAdmit(w, t, evaluation);
            var result := ReserveAdmission(w.ledger, w.snapshots[t], evaluation).1;
            if result.Ok? then
              && w'.stages == Reconciled(w, t).stages + FreshRecords(|w.phases|, t, result.value)
              && |result.value| == |evaluation.plan.stages|
              && (forall k :: 0 <= k < |result.value| ==>
                    Guarded(Reconciled(w, t).ledger, w.snapshots[t], evaluation, k, result.value[k]))
              && (forall i, j :: 0 <= i < j < |result.value| ==> result.value[i].key.worker != result.value[j].key.worker)
            else w'.stages == w.stages || w'.stages == Reconciled(w, t).stages
  {
    hide Conserves, StageOK, SamplesOK, Genuine;
    assert GenuineSnapshot(capacity, w, w.snapshots[t]);
    AdmittedGuarded(w.ledger, w.snapshots[t], evaluation);
    var result := ReserveAdmission(w.ledger, w.snapshots[t], evaluation).1;
    if result.Ok? { GuardsDistinct(Reconciled(w, t).ledger, w.snapshots[t], evaluation, result.value); }
  }

  lemma GuardLimits(capacity: WorkerKey -> nat, limits: WorkerKey -> AdmissionLimits, mid: World, t: nat,
                    evaluation: Placement.PlanEvaluation, k: nat, r: StageReservation)
    requires Inv(capacity, mid) && t < |mid.snapshots| && FixedLimits(limits, mid.snapshots)
    requires k < |evaluation.plan.stages| && Guarded(mid.ledger, mid.snapshots[t], evaluation, k, r)
    ensures Roomy(limits, mid.stages, r)
  {
    hide Conserves, StageOK, SamplesOK, Genuine;
    LocalIsCharged(capacity, mid, r.key);
    GuardSums(mid.ledger, mid, capacity, r.key);
    var worker := mid.snapshots[t][r.key.worker.workerID];
    assert worker.Admission() == limits(r.key.worker);
    assert ReportedOpen(worker.Status().retainedShards, r.key.shardID) >= 0;
  }

  /** The room that every stage of a guarded batch was promised. */
  ghost predicate Roomy(limits: WorkerKey -> AdmissionLimits, records: seq<StageRecord>, r: StageReservation) {
    var l := limits(r.key.worker);
    && Total(records, LocalAt(r.key)) + 1 <= l.maxOpenSequencesPerShard
    && Total(records, ActiveOn(r.key.worker)) + 1 <= l.maxConcurrentRequests
    && Total(records, RetainedOn(r.key.worker)) + r.sequenceMemoryBytes <= l.retainedByteBudget
  }

  ghost predicate LimitsAt(limits: WorkerKey -> AdmissionLimits, records: seq<StageRecord>, key: SequenceKey) {
    && Within(Total(records, LocalAt(key)), limits(key.worker).maxOpenSequencesPerShard)
    && Within(Total(records, ActiveOn(key.worker)), limits(key.worker).maxConcurrentRequests)
    && Within(Total(records, RetainedOn(key.worker)), limits(key.worker).retainedByteBudget)
  }

  lemma RoomyBatchLimits(limits: WorkerKey -> AdmissionLimits, records: seq<StageRecord>, g: nat, t: nat,
                         rs: seq<StageReservation>, key: SequenceKey)
    requires LimitsAt(limits, records, key)
    requires forall k :: 0 <= k < |rs| ==> Roomy(limits, records, rs[k])
    requires forall i, j :: 0 <= i < j < |rs| ==> rs[i].key.worker != rs[j].key.worker
    ensures LimitsAt(limits, records + FreshRecords(g, t, rs), key)
  {
    FreshWithin(records, g, t, rs, LocalAt(key), limits(key.worker).maxOpenSequencesPerShard);
    FreshWithin(records, g, t, rs, ActiveOn(key.worker), limits(key.worker).maxConcurrentRequests);
    FreshWithin(records, g, t, rs, RetainedOn(key.worker), limits(key.worker).retainedByteBudget);
  }

  lemma AdmitLimits(capacity: WorkerKey -> nat, limits: WorkerKey -> AdmissionLimits, w: World, t: nat,
                    evaluation: Placement.PlanEvaluation, key: SequenceKey)
    requires Inv(capacity, w) && Enabled(capacity, w, Admit(t, evaluation))
    requires LimitInv(limits, w) && FixedLimits(limits, w.snapshots)
    ensures LimitsAt(limits, ApplyAdmit(w, t, evaluation).stages, key)
  {
    hide Inv, ReserveAdmission, Guarded, FixedLimits, ReconcileRecords, NoMore, ApplyAdmit, Roomy;
    var mid := Reconciled(w, t);
    AdmittedShape(capacity, w, t, evaluation);
    ReconcileChargesNoMore(w.stages, w.snapshots[t]);
    NoMoreTotals(w.stages, mid.stages, key);
    assert LimitsAt(limits, w.stages, key);
    assert LimitsAt(limits, mid.stages, key);
    var result := ReserveAdmission(w.ledger, w.snapshots[t], evaluation).1;
    if result.Ok? {
      var rs := result.value;
      ReconciledInv(capacity, w, t);
      forall k | 0 <= k < |rs| ensures Roomy(limits, mid.stages, rs[k]) {
        GuardLimits(capacity, limits, mid, t, evaluation, k, rs[k]);
      }
      RoomyBatchLimits(limits, mid.stages, |w.phases|, t, rs, key);
    }
  }

  lemma StepLimits(capacity: WorkerKey -> nat, limits: WorkerKey -> AdmissionLimits, w: World, step: Step, key: SequenceKey)
    requires Inv(capacity, w) && Enabled(capacity, w, step) && LimitInv(limits, w)
    requires FixedLimits(limits, w.snapshots)
    ensures LimitsAt(limits, Apply(capacity, w, step).stages, key)
  {
    hide Inv, FixedLimits, Apply, Enabled;
    assert LimitsAt(limits, w.stages, key);
    if step.Admit? {
      AdmitSteps(capacity, w, step);
      AdmitLimits(capacity, limits, w, step.t, step.evaluation, key);
    } else {
      OtherStepsChargeNoMore(capacity, w, step);
      NoMoreTotals(w.stages, Apply(capacity, w, step).stages, key);
    }
  }

  lemma {:induction false} RunLimits(capacity: WorkerKey -> nat, limits: WorkerKey -> AdmissionLimits, steps: seq<Step>)
    requires After(capacity, steps).Some? && FixedLimits(limits, After(capacity, steps).value.snapshots)
    ensures LimitInv(limits, After(capacity, steps).value)
  {
    hide Inv, Apply, Enabled;
    if steps != [] {
      var w := After(capacity, steps[..|steps| - 1]).value;
      var w' := After(capacity, steps).value;
      var step := steps[|steps| - 1];
      RunInvariant(capacity, steps[..|steps| - 1]);
      HistoryIsPrefix(capacity, w, step);
      assert forall t :: 0 <= t < |w.snapshots| ==> w.snapshots[t] == w'.snapshots[t];
      RunLimits(capacity, limits, steps[..|steps| - 1]);
      forall key ensures LimitsAt(limits, w'.stages, key) { StepLimits(capacity, limits, w, step, key); }
    }
  }

  lemma HistoryIsPrefix(capacity: WorkerKey -> nat, w: World, step: Step)
    requires Enabled(capacity, w, step)
    ensures w.snapshots <= Apply(capacity, w, step).snapshots
  {
  }

  /** With fixed limits, in every run: the sequences really open on a shard, the
      requests and the retained bytes charged to a worker stay within its limits. */
  lemma LimitsHold(capacity: WorkerKey -> nat, limits: WorkerKey -> AdmissionLimits, steps: seq<Step>, key: SequenceKey)
    requires After(capacity, steps).Some? && FixedLimits(limits, After(capacity, steps).value.snapshots)
    requires !Departed(After(capacity, steps).value.snapshots, key.worker)
    ensures var w := After(capacity, steps).value;
            && Within(Total(w.stages, OpenAt(key)), limits(key.worker).maxOpenSequencesPerShard)
            && Within(WorkerStateOf(w.ledger, key.worker).activeRequests, limits(key.worker).maxConcurrentRequests)
            && (ReservedWorkerMemory(WorkerStateOf(w.ledger, key.worker)).Some? ==>
                  Within(ReservedWorkerMemory(WorkerStateOf(w.ledger, key.worker)).value.1, limits(key.worker).retainedByteBudget))
  {
    var w := After(capacity, steps).value;
    RunInvariant(capacity, steps);
    RunLimits(capacity, limits, steps);
    assert LimitsAt(limits, w.stages, key);
    QuarantineSound(capacity, steps, key);
    LocalIsCharged(capacity, w, key);
    GuardSums(w.ledger, w, capacity, key);
  }

  // ---------------------------------------------------------------------------
  // The byte totals fit a machine word

  lemma ChargedIsReserved(capacity: WorkerKey -> nat, w: World, worker: WorkerKey)
    requires Inv(capacity, w)
    ensures Total(w.stages, ChargedOn(worker)) ==
            Total(w.stages, ActiveBytesOn(worker)) + Total(w.stages, PendingBytesOn(worker))
  {
    hide Conserves, Genuine, SetupOK, CleanupOK, FinishedOK;
    forall i | 0 <= i < |w.stages|
      ensures ChargedOn(worker)(w.stages[i]) == ActiveBytesOn(worker)(w.stages[i]) + PendingBytesOn(worker)(w.stages[i])
    {
      assert StageOK(w, i);
    }
    TotalSum(w.stages, ActiveBytesOn(worker), PendingBytesOn(worker), ChargedOn(worker));
  }

  ghost predicate FitsWord(records: seq<StageRecord>, worker: WorkerKey) {
    Total(records, ChargedOn(worker)) <= MAX_UINT64 && Total(records, RetainedOn(worker)) <= MAX_UINT64
  }

  lemma GuardFits(capacity: WorkerKey -> nat, mid: World, t: nat, evaluation: Placement.PlanEvaluation, k: nat, r: StageReservation)
    requires Inv(capacity, mid) && t < |mid.snapshots|
    requires k < |evaluation.plan.stages| && Guarded(mid.ledger, mid.snapshots[t], evaluation, k, r)
    ensures Total(mid.stages, ChargedOn(r.key.worker)) + r.loadMemoryBytes + r.sequenceMemoryBytes <= MAX_UINT64
    ensures Total(mid.stages, RetainedOn(r.key.worker)) + r.sequenceMemoryBytes <= MAX_UINT64
  {
    ChargedIsReserved(capacity, mid, r.key.worker);
    GuardSums(mid.ledger, mid, capacity, r.key);
  }

  lemma AdmitFits(capacity: WorkerKey -> nat, w: World, t: nat, evaluation: Placement.PlanEvaluation, worker: WorkerKey)
    requires Inv(capacity, w) && Enabled(capacity, w, Admit(t, evaluation)) && FitsWord(w.stages, worker)
    ensures FitsWord(ApplyAdmit(w, t, evaluation).stages, worker)
  {
    hide Inv, ReserveAdmission, Guarded, ReconcileRecords, NoMore, ApplyAdmit;
    var mid := Reconciled(w, t);
    AdmittedShape(capacity, w, t, evaluation);
    ReconcileChargesNoMore(w.stages, w.snapshots[t]);
    NoMoreTotals(w.stages, mid.stages, SequenceKey(worker, ""));
    var result := ReserveAdmission(w.ledger, w.snapshots[t], evaluation).1;
    if result.Ok? {
      var rs := result.value;
      ReconciledInv(capacity, w, t);
      forall k | 0 <= k < |rs| && rs[k].key.worker == worker
        ensures Total(mid.stages, ChargedOn(worker)) + ChargedOn(worker)(Fresh(|w.phases|, t, rs[k])) <= MAX_UINT64
                && Total(mid.stages, RetainedOn(worker)) + RetainedOn(worker)(Fresh(|w.phases|, t, rs[k])) <= MAX_UINT64
      {
        GuardFits(capacity, mid, t, evaluation, k, rs[k]);
      }
      FreshTotal(mid.stages, |w.phases|, t, rs, ChargedOn(worker));
      FreshTotal(mid.stages, |w.phases|, t, rs, RetainedOn(worker));
    }
  }

  /** In every run the reserved memory of every worker can be added up without
      overflow: release and reconciliation never raise active plus pending bytes,
      and admission stops at what was reported available. */
  lemma {:induction false} ReservedNeverOverflows(capacity: WorkerKey -> nat, steps: seq<Step>, worker: WorkerKey)
    requires After(capacity, steps).Some?
    ensures FitsWord(After(capacity, steps).value.stages, worker)
    ensures ReservedWorkerMemory(WorkerStateOf(After(capacity, steps).value.ledger, worker)).Some?
  {
    var w' := After(capacity, steps).value;
    if steps != [] {
      var w := After(capacity, steps[..|steps| - 1]).value;
      var step := steps[|steps| - 1];
      RunInvariant(capacity, steps[..|steps| - 1]);
      ReservedNeverOverflows(capacity, steps[..|steps| - 1], worker);
      if step.Admit? {
        AdmitFits(capacity, w, step.t, step.evaluation, worker);
      } else {
        OtherStepsChargeNoMore(capacity, w, step);
        NoMoreTotals(w.stages, w'.stages, SequenceKey(worker, ""));
      }
    }
    RunInvariant(capacity, steps);
    ReservedFits(capacity, w', worker);
  }

  lemma ReservedFits(capacity: WorkerKey -> nat, w: World, worker: WorkerKey)
    requires Inv(capacity, w) && FitsWord(w.stages, worker)
    ensures ReservedWorkerMemory(WorkerStateOf(w.ledger, worker)).Some?
  {
    hide Conserves, Genuine, SetupOK, CleanupOK, FinishedOK;
    ChargedIsReserved(capacity, w, worker);
    forall i | 0 <= i < |w.stages|
      ensures RetainedOn(worker)(w.stages[i]) == ActiveRetainedOn(worker)(w.stages[i]) + PendingRetainedOn(worker)(w.stages[i])
    {
      assert StageOK(w, i);
    }
    TotalSum(w.stages, ActiveRetainedOn(worker), PendingRetainedOn(worker), RetainedOn(worker));
    ReservedMemory(w.ledger, w.stages, worker);
  }

  lemma RetainedIsReserved(capacity: WorkerKey -> nat, w: World, worker: WorkerKey)
    requires Inv(capacity, w)
    ensures Total(w.stages, RetainedOn(worker)) ==
            Total(w.stages, ActiveRetainedOn(worker)) + Total(w.stages, PendingRetainedOn(worker))
  {
    hide Conserves, Genuine, SetupOK, CleanupOK, FinishedOK;
    forall i | 0 <= i < |w.stages|
      ensures RetainedOn(worker)(w.stages[i]) == ActiveRetainedOn(worker)(w.stages[i]) + PendingRetainedOn(worker)(w.stages[i])
    {
      assert StageOK(w, i);
    }
    TotalSum(w.stages, ActiveRetainedOn(worker), PendingRetainedOn(worker), RetainedOn(worker));
  }

  /** What the ledger charges: local opens of a shard, requests of its worker, and
      the worker's available and retained bytes, active plus pending. */
  ghost function Charges(ledger: Ledger, key: SequenceKey): (nat, nat, nat, nat) {
    var sequences, requests := SequenceStateOf(ledger, key), WorkerStateOf(ledger, key.worker);
    (sequences.active + |sequences.poisonedAfter|, requests.activeRequests,
    requests.activeAvailableBytes + AvailableSum(requests.pendingMemory),
    requests.activeRetainedBytes + RetainedSum(requests.pendingMemory))
  }

  lemma WorkerCharges(ledger: Ledger, stages: seq<StageRecord>, worker: WorkerKey)
    requires Conserves(ledger, stages)
    ensures var requests := WorkerStateOf(ledger, worker);
            && requests.activeRequests == Total(stages, ActiveOn(worker))
            && requests.activeAvailableBytes + AvailableSum(requests.pendingMemory) ==
               Total(stages, ActiveBytesOn(worker)) + Total(stages, PendingBytesOn(worker))
            && requests.activeRetainedBytes + RetainedSum(requests.pendingMemory) ==
               Total(stages, ActiveRetainedOn(worker)) + Total(stages, PendingRetainedOn(worker))
  {
    assert WorkerConserved(WorkerStateOf(ledger, worker), stages, worker);
    PendingSums(WorkerStateOf(ledger, worker).pendingMemory, stages, worker);
  }

  lemma InvConserves(capacity: WorkerKey -> nat, w: World)
    requires Inv(capacity, w)
    ensures Conserves(w.ledger, w.stages)
  {
  }

  lemma ChargesAreTotals(capacity: WorkerKey -> nat, w: World, key: SequenceKey)
    requires Inv(capacity, w)
    ensures Charges(w.ledger, key) ==
            (Total(w.stages, LocalAt(key)), Total(w.stages, ActiveOn(key.worker)),
             Total(w.stages, ChargedOn(key.worker)), Total(w.stages, RetainedOn(key.worker)))
  {
    hide Inv, Conserves, SequenceStateOf, WorkerStateOf, Total;
    InvConserves(capacity, w);
    WorkerCharges(w.ledger, w.stages, key.worker);
    LocalIsCharged(capacity, w, key);
    ChargedIsReserved(capacity, w, key.worker);
    RetainedIsReserved(capacity, w, key.worker);
  }

  ghost predicate Succeeds(w: World, step: Step) {
    step.Admit? && step.t < |w.snapshots| && ReserveAdmission(w.ledger, w.snapshots[step.t], step.evaluation).1.Ok?
  }

  lemma RefusedChargesNoMore(capacity: WorkerKey -> nat, w: World, step: Step)
    requires Inv(capacity, w) && Enabled(capacity, w, step) && !Succeeds(w, step)
    ensures |Apply(capacity, w, step).stages| == |w.stages|
    ensures forall i :: 0 <= i < |w.stages| ==> NoMore(w.stages[i], Apply(capacity, w, step).stages[i])
  {
    hide Inv, NoMore, ReserveAdmission;
    if step.Admit? {
      AdmitSteps(capacity, w, step);
      AdmittedShape(capacity, w, step.t, step.evaluation);
      ReconcileChargesNoMore(w.stages, w.snapshots[step.t]);
      NoMoreOfSame(w.stages);
    } else {
      OtherStepsChargeNoMore(capacity, w, step);
    }
  }

  lemma NoMoreOfSame(stages: seq<StageRecord>)
    ensures forall i :: 0 <= i < |stages| ==> NoMore(stages[i], stages[i])
  {
  }

  /** Only a successful admission raises a charge: every other step of a run, finishing
      a reservation and reconciling in a refused admission included, leaves each of the
      four charges no higher. */
  lemma OnlyAdmissionCharges(capacity: WorkerKey -> nat, steps: seq<Step>, step: Step, key: SequenceKey)
    requires After(capacity, steps + [step]).Some? && After(capacity, steps).Some?
    requires !Succeeds(After(capacity, steps).value, step)
    ensures var before, after := Charges(After(capacity, steps).value.ledger, key),
                                 Charges(After(capacity, steps + [step]).value.ledger, key);
            after.0 <= before.0 && after.1 <= before.1 && after.2 <= before.2 && after.3 <= before.3
  {
    hide Inv, Apply, Enabled, NoMore, Charges, Succeeds;
    assert (steps + [step])[..|steps|] == steps;
    var w, w' := After(capacity, steps).value, After(capacity, steps + [step]).value;
    RunInvariant(capacity, steps);
    RunInvariant(capacity, steps + [step]);
    RefusedChargesNoMore(capacity, w, step);
    NoMoreTotals(w.stages, w'.stages, key);
    ChargesAreTotals(capacity, w, key);
    ChargesAreTotals(capacity, w', key);
  }

  // ---------------------------------------------------------------------------
  // Memory

  /** What a worker's allocations may still grow to fits its capacity, and what it held
      at every numbered state call did. */
  ghost predicate MemoryInv(capacity: WorkerKey -> nat, w: World, worker: WorkerKey) {
    && Total(w.stages, PotentialOn(worker)) <= capacity(worker)
    && forall n: nat :: Sampled(w.samples, worker, n) ==> Total(SampleOf(w.samples, worker, n), HeldOn(worker)) <= capacity(worker)
  }

  /** The admission succeeds and charges the worker. */
  ghost predicate ChargesWorker(w: World, t: nat, evaluation: Placement.PlanEvaluation, worker: WorkerKey)
    requires t < |w.snapshots|
  {
    var result := ReserveAdmission(w.ledger, w.snapshots[t], evaluation).1;
    result.Ok? && exists k :: 0 <= k < |result.value| && result.value[k].key.worker == worker
  }

  /** No admission that charged the worker read a status of it more than `lag` numbers
      older than what an earlier admission read. */
  ghost predicate Timely(capacity: WorkerKey -> nat, steps: seq<Step>, worker: WorkerKey, lag: nat)
    requires After(capacity, steps).Some?
  {
    steps == [] ||
    (var front, last := steps[..|steps| - 1], steps[|steps| - 1];
     var w := After(capacity, front).value;
     && Timely(capacity, front, worker, lag)
     && (last.Admit? && ChargesWorker(w, last.t, last.evaluation, worker) ==>
           InstancePresent(w.snapshots[last.t], worker) && ReadsWithin(w, last.t, worker, lag)))
  }

  lemma {:induction false} TotalCovered(items: seq<StageRecord>, sample: seq<StageRecord>, worker: WorkerKey)
    requires |sample| <= |items|
    requires forall i :: 0 <= i < |items| ==>
               PotentialOn(worker)(items[i]) <=
               ActiveBytesOn(worker)(items[i]) + PendingBytesOn(worker)(items[i])
               + if i < |sample| then HeldOn(worker)(sample[i]) else 0
    ensures Total(items, PotentialOn(worker)) <=
            Total(items, ActiveBytesOn(worker)) + Total(items, PendingBytesOn(worker)) + Total(sample, HeldOn(worker))
  {
    if items != [] {
      var n := |items| - 1;
      var sample' := if |sample| == |items| then sample[..n] else sample;
      TotalCovered(items[..n], sample', worker);
    }
  }

  /** At an admission every allocation is either in the sample behind the published
      status or still charged.  A lag of one number is harmless: the number before a
      threshold went to the observation that set the threshold. */
  lemma StageCovered(capacity: WorkerKey -> nat, w: World, i: nat, worker: WorkerKey)
    requires Inv(capacity, w) && !Departed(w.snapshots, worker)
    requires InstancePresent(w.snapshots[w.admitted], worker) && ReadsWithin(w, w.admitted, worker, SAFE_LAG)
    requires Sampled(w.samples, worker, ObservedAt(w.snapshots[w.admitted], worker))
    requires i < |w.stages|
    ensures var sample := SampleOf(w.samples, worker, ObservedAt(w.snapshots[w.admitted], worker));
            PotentialOn(worker)(w.stages[i]) <=
            ActiveBytesOn(worker)(w.stages[i]) + PendingBytesOn(worker)(w.stages[i])
            + if i < |sample| then HeldOn(worker)(sample[i]) else 0
  {
    hide Conserves, SetupOK, CleanupOK;
    var st, n := w.stages[i], ObservedAt(w.snapshots[w.admitted], worker);
    var sample := SampleOf(w.samples, worker, n);
    assert StageOK(w, i);
    assert i < |sample| ==> sample[i].Key() == st.Key();
    hide ReadsWithin, AlreadyShown, GenuineSnapshot, LeakPoisoned, SamplesOK, Departed;
    if st.finished && st.Worker() == worker && AlreadyShown(w, st) {
      ShownIsRead(capacity, w, st, worker);
      assert st.threshold <= n;
      assert st.Held() <= HeldIn(sample, i);
    }
  }

  /** What an earlier admission has shown, this one reads too. */
  lemma ShownIsRead(capacity: WorkerKey -> nat, w: World, st: StageRecord, worker: WorkerKey)
    requires Inv(capacity, w) && AlreadyShown(w, st) && st.Worker() == worker
    requires 0 < st.threshold < UNRECONCILED ==> NotSampled(w, worker, st.threshold - 1)
    requires InstancePresent(w.snapshots[w.admitted], worker) && ReadsWithin(w, w.admitted, worker, SAFE_LAG)
    requires Sampled(w.samples, worker, ObservedAt(w.snapshots[w.admitted], worker))
    ensures st.threshold <= ObservedAt(w.snapshots[w.admitted], worker)
  {
    hide StageOK, Conserves, GenuineSnapshot, SamplesOK;
    var d :| d in w.used && d < |w.snapshots| && InstancePresent(w.snapshots[d], worker)
             && 0 < st.threshold <= ObservedAt(w.snapshots[d], worker);
    ReadIsSampled(capacity, w, d, worker);
  }

  lemma ReadIsSampled(capacity: WorkerKey -> nat, w: World, t: nat, worker: WorkerKey)
    requires Inv(capacity, w) && t < |w.snapshots| && InstancePresent(w.snapshots[t], worker)
    requires ObservedAt(w.snapshots[t], worker) != 0
    ensures Sampled(w.samples, worker, ObservedAt(w.snapshots[t], worker))
    ensures ObservedAt(w.snapshots[t], worker) <= HandedOut(w, worker) < UNRECONCILED
    ensures w.snapshots[t][worker.workerID].Status().availableMemoryBytes
            <= Clamp(capacity(worker) - Total(SampleOf(w.samples, worker, ObservedAt(w.snapshots[t], worker)), HeldOn(worker)))
  {
    hide Conserves, StageOK;
    var snapshot := w.snapshots[t];
    assert GenuineSnapshot(capacity, w, snapshot);
    assert Genuine(capacity, w, WorkerKey(worker.workerID, snapshot[worker.workerID].InstanceID()),
                   snapshot[worker.workerID].Status());
    assert Sampled(w.samples, worker, ObservedAt(snapshot, worker));
  }

  /** The memory that an admission reads as free is truly free: reported minus
      reserved is at most capacity minus all that is or may still be allocated. */
  lemma AdmissionMemory(capacity: WorkerKey -> nat, w: World, worker: WorkerKey)
    requires Inv(capacity, w) && MemoryInv(capacity, w, worker) && !Departed(w.snapshots, worker)
    requires InstancePresent(w.snapshots[w.admitted], worker) && ObservedAt(w.snapshots[w.admitted], worker) != 0
    requires ReadsWithin(w, w.admitted, worker, SAFE_LAG)
    ensures var reserved := Total(w.stages, ActiveBytesOn(worker)) + Total(w.stages, PendingBytesOn(worker));
            w.snapshots[w.admitted][worker.workerID].Status().availableMemoryBytes - reserved
            <= capacity(worker) - Total(w.stages, PotentialOn(worker))
  {
    hide Conserves, StageOK, ReadsWithin, Genuine, GenuineSnapshot;
    ReadIsSampled(capacity, w, w.admitted, worker);
    var sample := SampleOf(w.samples, worker, ObservedAt(w.snapshots[w.admitted], worker));
    forall i | 0 <= i < |w.stages|
      ensures PotentialOn(worker)(w.stages[i]) <=
              ActiveBytesOn(worker)(w.stages[i]) + PendingBytesOn(worker)(w.stages[i])
              + if i < |sample| then HeldOn(worker)(sample[i]) else 0
    {
      StageCovered(capacity, w, i, worker);
    }
    TotalCovered(w.stages, sample, worker);
  }

  /** In every run whose charging admissions were timely, what the latest admission read
      as free was truly free if its own reading was. */
  lemma AdmissionReadsTrueFree(capacity: WorkerKey -> nat, steps: seq<Step>, worker: WorkerKey)
    requires After(capacity, steps).Some? && Timely(capacity, steps, worker, SAFE_LAG)
    requires !Departed(After(capacity, steps).value.snapshots, worker)
    requires var w := After(capacity, steps).value;
             && w.admitted < |w.snapshots| && InstancePresent(w.snapshots[w.admitted], worker)
             && ObservedAt(w.snapshots[w.admitted], worker) != 0 && ReadsWithin(w, w.admitted, worker, SAFE_LAG)
    ensures var w := After(capacity, steps).value;
            var reserved := Total(w.stages, ActiveBytesOn(worker)) + Total(w.stages, PendingBytesOn(worker));
            w.snapshots[w.admitted][worker.workerID].Status().availableMemoryBytes - reserved
            <= capacity(worker) - Total(w.stages, PotentialOn(worker))
  {
    hide Inv, Timely, Departed, MemoryInv;
    RunInvariant(capacity, steps);
    RunMemory(capacity, steps, worker);
    AdmissionMemory(capacity, After(capacity, steps).value, worker);
  }

  lemma HeldWithinPotential(capacity: WorkerKey -> nat, w: World, worker: WorkerKey)
    requires Inv(capacity, w)
    ensures Total(w.stages, HeldOn(worker)) <= Total(w.stages, PotentialOn(worker))
  {
    hide Conserves, Genuine, SetupOK, CleanupOK, FinishedOK;
    forall i | 0 <= i < |w.stages| ensures HeldOn(worker)(w.stages[i]) <= PotentialOn(worker)(w.stages[i]) {
      assert StageOK(w, i);
    }
    TotalBounded(w.stages, HeldOn(worker), w.stages, PotentialOn(worker));
  }

  lemma AdmitMemory(capacity: WorkerKey -> nat, w: World, t: nat, evaluation: Placement.PlanEvaluation, worker: WorkerKey)
    requires Inv(capacity, w) && MemoryInv(capacity, w, worker)
    requires Enabled(capacity, w, Admit(t, evaluation)) && !Departed(w.snapshots, worker)
    requires ChargesWorker(w, t, evaluation, worker) ==>
               InstancePresent(w.snapshots[t], worker) && ReadsWithin(w, t, worker, SAFE_LAG)
    ensures Total(ApplyAdmit(w, t, evaluation).stages, PotentialOn(worker)) <= capacity(worker)
  {
    hide Inv, ReserveAdmission, Guarded, ReconcileRecords, NoMore, ApplyAdmit, ReadsWithin;
    var mid := Reconciled(w, t);
    var key := SequenceKey(worker, "");
    AdmittedShape(capacity, w, t, evaluation);
    ReconcileChargesNoMore(w.stages, w.snapshots[t]);
    NoMoreTotals(w.stages, mid.stages, key);
    ReconciledInv(capacity, w, t);
    var result := ReserveAdmission(w.ledger, w.snapshots[t], evaluation).1;
    if result.Ok? {
      var rs := result.value;
      forall k | 0 <= k < |rs| && rs[k].key.worker == worker
        ensures Total(mid.stages, PotentialOn(worker)) + PotentialOn(worker)(Fresh(|w.phases|, t, rs[k])) <= capacity(worker)
      {
        assert ChargesWorker(w, t, evaluation, worker);
        CurrentAfterReading(w, t, worker);
        GuardMemory(capacity, mid, evaluation, k, rs[k]);
      }
      FreshTotal(mid.stages, |w.phases|, t, rs, PotentialOn(worker));
    }
  }

  lemma CurrentAfterReading(w: World, t: nat, worker: WorkerKey)
    requires t < |w.snapshots| && InstancePresent(w.snapshots[t], worker) && ReadsWithin(w, t, worker, SAFE_LAG)
    ensures ReadsWithin(Reconciled(w, t), t, worker, SAFE_LAG)
  {
  }

  lemma GuardMemory(capacity: WorkerKey -> nat, mid: World, evaluation: Placement.PlanEvaluation, k: nat, r: StageReservation)
    requires Inv(capacity, mid) && MemoryInv(capacity, mid, r.key.worker)
    requires !Departed(mid.snapshots, r.key.worker)
    requires k < |evaluation.plan.stages| && Guarded(mid.ledger, mid.snapshots[mid.admitted], evaluation, k, r)
    requires ReadsWithin(mid, mid.admitted, r.key.worker, SAFE_LAG)
    ensures Total(mid.stages, PotentialOn(r.key.worker)) + r.loadMemoryBytes + r.sequenceMemoryBytes <= capacity(r.key.worker)
  {
    hide ReadsWithin;
    AdmissionMemory(capacity, mid, r.key.worker);
    GuardSums(mid.ledger, mid, capacity, r.key);
  }

  lemma {:induction false} RunMemory(capacity: WorkerKey -> nat, steps: seq<Step>, worker: WorkerKey)
    requires After(capacity, steps).Some? && Timely(capacity, steps, worker, SAFE_LAG)
    requires !Departed(After(capacity, steps).value.snapshots, worker)
    ensures MemoryInv(capacity, After(capacity, steps).value, worker)
  {
    if steps != [] {
      var w := After(capacity, steps[..|steps| - 1]).value;
      var w' := After(capacity, steps).value;
      var step := steps[|steps| - 1];
      RunInvariant(capacity, steps[..|steps| - 1]);
      HistoryIsPrefix(capacity, w, step);
      if Departed(w.snapshots, worker) { DepartedStays(w.snapshots, w'.snapshots, worker); }
      RunMemory(capacity, steps[..|steps| - 1], worker);
      StepMemory(capacity, w, step, worker);
    }
  }

  lemma AdmitSteps(capacity: WorkerKey -> nat, w: World, step: Step)
    requires step.Admit? && Enabled(capacity, w, step)
    ensures step == Admit(step.t, step.evaluation) && w.snapshots == Apply(capacity, w, step).snapshots
    ensures step.t < |w.snapshots| && Apply(capacity, w, step) == ApplyAdmit(w, step.t, step.evaluation)
  {
    hide ReserveAdmission;
  }

  lemma NewSampleIsPresent(capacity: WorkerKey -> nat, w: World, step: Step, worker: WorkerKey, n: nat)
    requires Enabled(capacity, w, step) && Sampled(Apply(capacity, w, step).samples, worker, n)
    ensures var held := SampleOf(Apply(capacity, w, step).samples, worker, n);
            held == w.stages || (Sampled(w.samples, worker, n) && held == SampleOf(w.samples, worker, n))
  {
    hide ReserveAdmission, FinishStages, FinishGroup, GenuineSnapshot;
  }

  lemma StepMemory(capacity: WorkerKey -> nat, w: World, step: Step, worker: WorkerKey)
    requires Inv(capacity, w) && MemoryInv(capacity, w, worker) && Enabled(capacity, w, step)
    requires !Departed(Apply(capacity, w, step).snapshots, worker)
    requires step.Admit? && step.t < |w.snapshots| && ChargesWorker(w, step.t, step.evaluation, worker) ==>
               InstancePresent(w.snapshots[step.t], worker) && ReadsWithin(w, step.t, worker, SAFE_LAG)
    ensures MemoryInv(capacity, Apply(capacity, w, step), worker)
  {
    hide Inv, ReadsWithin, ChargesWorker, Apply, Enabled;
    var w' := Apply(capacity, w, step);
    HistoryIsPrefix(capacity, w, step);
    if Departed(w.snapshots, worker) { DepartedStays(w.snapshots, w'.snapshots, worker); }
    HeldWithinPotential(capacity, w, worker);
    if step.Admit? {
      AdmitSteps(capacity, w, step);
      AdmitMemory(capacity, w, step.t, step.evaluation, worker);
    } else {
      OtherStepsChargeNoMore(capacity, w, step);
      NoMoreTotals(w.stages, w'.stages, SequenceKey(worker, ""));
    }
    forall n: nat | Sampled(w'.samples, worker, n)
      ensures Total(SampleOf(w'.samples, worker, n), HeldOn(worker)) <= capacity(worker)
    {
      NewSampleIsPresent(capacity, w, step, worker, n);
    }
  }

  /** In every run whose charging admissions were timely for a worker, the bytes really
      held on it never exceed its capacity. */
  lemma NeverOvercommitted(capacity: WorkerKey -> nat, steps: seq<Step>, worker: WorkerKey)
    requires After(capacity, steps).Some? && Timely(capacity, steps, worker, SAFE_LAG)
    requires !Departed(After(capacity, steps).value.snapshots, worker)
    ensures Total(After(capacity, steps).value.stages, HeldOn(worker)) <= capacity(worker)
  {
    hide Timely, Inv;
    RunInvariant(capacity, steps);
    RunMemory(capacity, steps, worker);
    HeldWithinPotential(capacity, After(capacity, steps).value, worker);
  }
}
