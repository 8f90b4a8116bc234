/** Every interleaving of admissions, worker effects, numbered state calls, status
    publication, cleanup and release.  The records carry what each worker really
    holds; the ledger sees only what snapshots and observations tell it. */
module SchedulerRuns {
  import opened WideArithmetic
  import opened Membership
  import opened Scheduler
  import opened Conservation
  import opened Totals
  import Placement

  /** The life of one reservation.  Loads happen while preparing, sequences open
      while running, and nothing new starts once it is settling. */
  datatype Phase = Preparing | Observing | Running | Settling(outcome: Outcome) | Finished

  datatype Numbered = Numbered(worker: WorkerKey, number: nat)

  datatype World = World(
    ledger: Ledger, phases: seq<Phase>, stages: seq<StageRecord>,
    observed: map<WorkerKey, nat>, samples: Samples,
    snapshots: seq<Workers>, admitted: nat, used: set<nat>)

  datatype Step =
    | Tick(worker: WorkerKey)
    | SampleState(worker: WorkerKey)
    | Publish(snapshot: Workers)
    | Admit(t: nat, evaluation: Placement.PlanEvaluation)
    | Load(i: nat, bytes: nat)
    | PrepareEnds(g: nat)
    | ObserveSetup(i: nat, found: bool)
    | RunStarts(g: nat)
    | Open(i: nat)
    | Grow(i: nat, bytes: nat)
    | Shrink(i: nat, closes: bool, loadHeld: nat, sequenceHeld: nat)
    | RunEnds(g: nat, confirmed: bool)
    | Abandon(g: nat, mayHaveLoaded: bool)
    | ObserveCleanup(i: nat, found: bool)
    | Finish(g: nat, t: nat)

  const INITIAL := World(EMPTY_LEDGER, [], [], map[], map[], [map[]], 0, {})

  // ---------------------------------------------------------------------------
  // What statuses may say

  function HandedOut(w: World, worker: WorkerKey): nat {
    if worker in w.observed then w.observed[worker] else 0
  }

  ghost function HeldOn(worker: WorkerKey): StageRecord -> nat {
    (st: StageRecord) => if st.Worker() == worker then st.Held() else 0
  }

  function Clamp(n: int): nat { if n < 0 then 0 else n }

  /** A status with an observation number is what the worker held at that call: a
      shard with one of our sequences open is not reported empty, and the memory
      reported available is at most what was then free. */
  ghost predicate Genuine(capacity: WorkerKey -> nat, w: World, worker: WorkerKey, status: Status) {
    status.workerObservationSequence != 0 ==>
      && Numbered(worker, status.workerObservationSequence) in w.samples
      && (var held := w.samples[Numbered(worker, status.workerObservationSequence)];
          && status.availableMemoryBytes <= Clamp(capacity(worker) - Total(held, HeldOn(worker)))
          && (forall j :: 0 <= j < |held| && held[j].open && held[j].Worker() == worker
                ==> ReportedOpen(status.retainedShards, held[j].Key().shardID) != 0))
  }

  ghost predicate GenuineSnapshot(capacity: WorkerKey -> nat, w: World, snapshot: Workers) {
    forall id :: id in snapshot ==>
      && snapshot[id].ID() == id
      && Genuine(capacity, w, WorkerKey(id, snapshot[id].InstanceID()), snapshot[id].Status())
  }

  /** The instance was listed once and missing from a later snapshot. */
  ghost predicate Departed(snapshots: seq<Workers>, worker: WorkerKey) {
    exists a, b :: 0 <= a < b < |snapshots| && InstancePresent(snapshots[a], worker) && !InstancePresent(snapshots[b], worker)
  }

  function ObservedAt(snapshot: Workers, worker: WorkerKey): uint64
    requires InstancePresent(snapshot, worker)
  {
    snapshot[worker.workerID].Status().workerObservationSequence
  }

  /** What an admission on snapshot t reads of an instance is at most `lag` numbers
      older than what any earlier admission read. */
  ghost predicate ReadsWithin(w: World, t: nat, worker: WorkerKey, lag: nat)
    requires t < |w.snapshots| && InstancePresent(w.snapshots[t], worker)
  {
    forall d :: d in w.used && d < |w.snapshots| && InstancePresent(w.snapshots[d], worker) ==>
      ObservedAt(w.snapshots[d], worker) <= ObservedAt(w.snapshots[t], worker) + lag
  }

  /** The largest lag that keeps memory safe. */
  const SAFE_LAG: nat := 1

  // ---------------------------------------------------------------------------
  // Steps

  ghost predicate DistinctTargets(evaluation: Placement.PlanEvaluation) {
    forall i, j :: 0 <= i < j < |evaluation.plan.stages| ==>
      evaluation.plan.stages[i].targetID != evaluation.plan.stages[j].targetID
  }

  ghost predicate InPhase(w: World, i: nat, phase: Phase) {
    i < |w.stages| && w.stages[i].group < |w.phases| && w.phases[w.stages[i].group] == phase
  }

  predicate CanNumber(w: World, worker: WorkerKey) {
    HandedOut(w, worker) + 1 < UNRECONCILED
  }

  ghost predicate Enabled(capacity: WorkerKey -> nat, w: World, step: Step) {
    match step
    case Tick(worker) => CanNumber(w, worker)
    case SampleState(worker) => CanNumber(w, worker)
    case Publish(snapshot) => GenuineSnapshot(capacity, w, snapshot)
    case Admit(t, evaluation) => w.admitted <= t < |w.snapshots| && DistinctTargets(evaluation)
    case Load(i, bytes) => InPhase(w, i, Preparing) && bytes <= w.stages[i].reservation.loadMemoryBytes
    case PrepareEnds(g) => g < |w.phases| && w.phases[g] == Preparing
    case ObserveSetup(i, found) =>
      && InPhase(w, i, Observing) && w.stages[i].reservation.setup.None? && CanNumber(w, w.stages[i].Worker())
      && (found || w.stages[i].loadHeld == 0)
    case RunStarts(g) => g < |w.phases| && w.phases[g] == Observing
    case Open(i) => InPhase(w, i, Running)
    case Grow(i, bytes) =>
      InPhase(w, i, Running) && w.stages[i].open && bytes <= w.stages[i].reservation.sequenceMemoryBytes
    case Shrink(i, closes, loadHeld, sequenceHeld) =>
      && i < |w.stages| && loadHeld <= w.stages[i].loadHeld && sequenceHeld <= w.stages[i].sequenceHeld
      && (closes ==> sequenceHeld == 0)
    case RunEnds(g, confirmed) =>
      && g < |w.phases| && w.phases[g] == Running
      && (confirmed ==> forall i :: 0 <= i < |w.stages| && w.stages[i].group == g ==> !w.stages[i].open)
    case Abandon(g, mayHaveLoaded) =>
      && g < |w.phases| && (w.phases[g] == Preparing || w.phases[g] == Observing)
      && (!mayHaveLoaded ==> forall i :: 0 <= i < |w.stages| && w.stages[i].group == g ==> w.stages[i].loadHeld == 0)
    case ObserveCleanup(i, found) =>
      && i < |w.stages| && w.stages[i].group < |w.phases| && w.phases[w.stages[i].group].Settling?
      && !w.phases[w.stages[i].group].outcome.cleanupConfirmed
      && w.stages[i].reservation.cleanup.None? && CanNumber(w, w.stages[i].Worker())
      && (found || !w.stages[i].open)
    case Finish(g, t) =>
      && g < |w.phases| && w.phases[g].Settling? && t < |w.snapshots|
      && (forall i :: 0 <= i < |w.stages| && w.stages[i].group == g ==> w.stages[i].admittedAt <= t)
  }

  function Number(w: World, worker: WorkerKey): World {
    w.(observed := w.observed[worker := HandedOut(w, worker) + 1])
  }

  function Fresh(group: nat, t: nat, reservation: StageReservation): StageRecord {
    StageRecord(group, t, reservation, false, None, None, 0, false, 0, 0)
  }

  function FreshRecords(group: nat, t: nat, reservations: seq<StageReservation>): (r: seq<StageRecord>)
    ensures |r| == |reservations| && forall i :: 0 <= i < |r| ==> r[i] == Fresh(group, t, reservations[i])
  {
    seq(|reservations|, i requires 0 <= i < |reservations| => Fresh(group, t, reservations[i]))
  }

  function GroupReservations(stages: seq<StageRecord>, g: nat): seq<StageReservation> {
    if stages == [] then []
    else
      var st := stages[|stages| - 1];
      GroupReservations(stages[..|stages| - 1], g) + if st.group == g then [st.reservation] else []
  }

  /** The first n records with those of group g finished. */
  function FinishGroup(stages: seq<StageRecord>, g: nat, n: nat, workers: Workers, outcome: Outcome): (r: seq<StageRecord>)
    ensures |r| == |stages| && forall i :: 0 <= i < |r| ==>
              r[i] == if i < n && stages[i].group == g then FinishRecord(stages[i], workers, outcome) else stages[i]
  {
    seq(|stages|, i requires 0 <= i < |stages| =>
      if i < n && stages[i].group == g then FinishRecord(stages[i], workers, outcome) else stages[i])
  }

  function ApplyAdmit(w: World, t: nat, evaluation: Placement.PlanEvaluation): World
    requires t < |w.snapshots|
  {
    var (ledger, result) := ReserveAdmission(w.ledger, w.snapshots[t], evaluation);
    if result == Err(EvidenceIncomplete) then w
    else
      var reconciled := ReconcileRecords(w.stages, w.snapshots[t]);
      if result.Err? then w.(ledger := ledger, stages := reconciled, admitted := t, used := w.used + {t})
      else w.(ledger := ledger, stages := reconciled + FreshRecords(|w.phases|, t, result.value),
              phases := w.phases + [Preparing], admitted := t, used := w.used + {t})
  }

  ghost function Apply(capacity: WorkerKey -> nat, w: World, step: Step): World
    requires Enabled(capacity, w, step)
  {
    match step
    case Tick(worker) => Number(w, worker)
    case SampleState(worker) =>
      Number(w, worker).(samples := w.samples[Numbered(worker, HandedOut(w, worker) + 1) := w.stages])
    case Publish(snapshot) => w.(snapshots := w.snapshots + [snapshot])
    case Admit(t, evaluation) => ApplyAdmit(w, t, evaluation)
    case Load(i, bytes) => w.(stages := w.stages[i := w.stages[i].(loadHeld := bytes)])
    case PrepareEnds(g) => w.(phases := w.phases[g := Observing])
    case ObserveSetup(i, found) =>
      var st := w.stages[i];
      var o := Observation(HandedOut(w, st.Worker()) + 1, found);
      Number(w, st.Worker()).(stages := w.stages[i := st.(reservation := st.reservation.(setup := Some(o)))])
    case RunStarts(g) => w.(phases := w.phases[g := Running])
    case Open(i) => w.(stages := w.stages[i := w.stages[i].(open := true)])
    case Grow(i, bytes) => w.(stages := w.stages[i := w.stages[i].(sequenceHeld := bytes)])
    case Shrink(i, closes, loadHeld, sequenceHeld) =>
      var st := w.stages[i];
      w.(stages := w.stages[i := st.(open := st.open && !closes, loadHeld := loadHeld, sequenceHeld := sequenceHeld)])
    case RunEnds(g, confirmed) => w.(phases := w.phases[g := Settling(Outcome(true, confirmed))])
    case Abandon(g, mayHaveLoaded) => w.(phases := w.phases[g := Settling(Outcome(mayHaveLoaded, true))])
    case ObserveCleanup(i, found) =>
      var st := w.stages[i];
      var o := Observation(HandedOut(w, st.Worker()) + 1, found);
      Number(w, st.Worker()).(stages := w.stages[i := st.(reservation := st.reservation.(cleanup := Some(o)))])
    case Finish(g, t) =>
      var outcome := w.phases[g].outcome;
      w.(ledger := FinishStages(w.ledger, GroupReservations(w.stages, g), w.snapshots[t], outcome),
         stages := FinishGroup(w.stages, g, |w.stages|, w.snapshots[t], outcome),
         phases := w.phases[g := Finished])
  }

  // ---------------------------------------------------------------------------
  // The invariant, stage by stage

  type Samples = map<Numbered, seq<StageRecord>>

  ghost predicate Sampled(samples: Samples, worker: WorkerKey, n: nat) {
    Numbered(worker, n) in samples
  }

  ghost function SampleOf(samples: Samples, worker: WorkerKey, n: nat): seq<StageRecord>
    requires Sampled(samples, worker, n)
  {
    samples[Numbered(worker, n)]
  }

  predicate OpenIn(held: seq<StageRecord>, i: nat) { i < |held| && held[i].open }
  function LoadIn(held: seq<StageRecord>, i: nat): nat { if i < |held| then held[i].loadHeld else 0 }
  function SequenceIn(held: seq<StageRecord>, i: nat): nat { if i < |held| then held[i].sequenceHeld else 0 }
  function HeldIn(held: seq<StageRecord>, i: nat): nat { if i < |held| then held[i].Held() else 0 }

  ghost predicate BasicOK(w: World, i: nat)
    requires i < |w.stages|
  {
    var st := w.stages[i];
    && st.group < |w.phases|
    && (st.finished <==> w.phases[st.group] == Finished)
    && st.admittedAt <= w.admitted < |w.snapshots| && InstancePresent(w.snapshots[st.admittedAt], st.Worker())
    && st.Bytes() <= MAX_UINT64
    && st.loadHeld <= st.reservation.loadMemoryBytes && st.sequenceHeld <= st.reservation.sequenceMemoryBytes
    && (st.sequenceHeld > 0 ==> st.open)
  }

  ghost predicate PhaseOK(st: StageRecord, phase: Phase) {
    && (st.open ==> phase == Running || phase == Finished || (phase.Settling? && !phase.outcome.cleanupConfirmed))
    && (phase == Preparing ==> st.reservation.setup.None?)
    && (phase == Preparing || phase == Observing || phase == Running ==> st.reservation.cleanup.None?)
    && (phase.Settling? && !phase.outcome.mayHaveLoaded ==> st.loadHeld == 0)
    && (!st.finished ==> st.poison.None? && st.pending.None?)
  }

  /** A number already handed out to something other than a sampled state. */
  ghost predicate NotSampled(w: World, worker: WorkerKey, n: nat) {
    n <= HandedOut(w, worker) && !Sampled(w.samples, worker, n)
  }

  /** A setup observation bounds what later samples can miss of the load. */
  ghost predicate SetupOK(w: World, i: nat, st: StageRecord) {
    st.reservation.setup.Some? ==>
      var o := st.reservation.setup.value;
      && 0 < o.sequence < UNRECONCILED && NotSampled(w, st.Worker(), o.sequence)
      && (o.shardFound || st.loadHeld == 0)
      && (forall n: nat :: Sampled(w.samples, st.Worker(), n) && o.sequence < n ==> st.loadHeld <= LoadIn(SampleOf(w.samples, st.Worker(), n), i))
  }

  ghost predicate CleanupOK(w: World, i: nat, st: StageRecord) {
    st.reservation.cleanup.Some? ==>
      var o := st.reservation.cleanup.value;
      && 0 < o.sequence < UNRECONCILED && NotSampled(w, st.Worker(), o.sequence)
      && (o.shardFound || !st.open)
      && (forall n: nat :: Sampled(w.samples, st.Worker(), n) && o.sequence < n ==>
            && st.sequenceHeld <= SequenceIn(SampleOf(w.samples, st.Worker(), n), i)
            && (st.open ==> OpenIn(SampleOf(w.samples, st.Worker(), n), i)))
  }

  /** A sequence that outlived its reservation still has its poison, and every
      sample late enough to clear that poison shows the sequence open. */
  ghost predicate LeakPoisoned(w: World, i: nat, st: StageRecord) {
    && (st.poison.Some? ==> st.poison.value > 0)
    && (st.open ==>
          && st.poison.Some?
          && (forall n: nat :: Sampled(w.samples, st.Worker(), n) && st.poison.value <= n
                ==> OpenIn(SampleOf(w.samples, st.Worker(), n), i)))
  }

  /** A snapshot already used for admission has shown the allocation. */
  ghost predicate AlreadyShown(w: World, st: StageRecord) {
    exists d :: d in w.used && d < |w.snapshots| && InstancePresent(w.snapshots[d], st.Worker())
                && 0 < st.threshold <= ObservedAt(w.snapshots[d], st.Worker())
  }

  /** Memory that outlived its reservation is shown by every sample from the
      threshold on, and until then it is charged as pending. */
  ghost predicate LeakCharged(w: World, i: nat, st: StageRecord) {
    && (forall n: nat :: Sampled(w.samples, st.Worker(), n) && st.threshold <= n ==> st.Held() <= HeldIn(SampleOf(w.samples, st.Worker(), n), i))
    && (|| st.Held() == 0
        || (st.pending.Some? && st.pending.value.minimumObservation == st.threshold
            && st.Held() <= st.pending.value.availableBytes)
        || AlreadyShown(w, st))
    && (st.pending.Some? ==> st.pending.value.minimumObservation == st.threshold > 0)
    && (0 < st.threshold < UNRECONCILED ==> NotSampled(w, st.Worker(), st.threshold - 1))
  }

  ghost predicate FinishedOK(w: World, i: nat, st: StageRecord) {
    st.finished ==> Departed(w.snapshots, st.Worker()) || (LeakPoisoned(w, i, st) && LeakCharged(w, i, st))
  }

  ghost predicate StageOK(w: World, i: nat)
    requires i < |w.stages|
  {
    var st := w.stages[i];
    && BasicOK(w, i) && PhaseOK(st, w.phases[st.group])
    && SetupOK(w, i, st) && CleanupOK(w, i, st) && FinishedOK(w, i, st)
  }

  ghost predicate SamplesOK(w: World) {
    forall worker, n: nat :: Sampled(w.samples, worker, n) ==>
      && 0 < n <= HandedOut(w, worker)
      && |SampleOf(w.samples, worker, n)| <= |w.stages|
      && (forall j :: 0 <= j < |SampleOf(w.samples, worker, n)| ==> SampleOf(w.samples, worker, n)[j].Key() == w.stages[j].Key())
  }

  ghost predicate Inv(capacity: WorkerKey -> nat, w: World) {
    && Conserves(w.ledger, w.stages)
    && w.admitted < |w.snapshots|
    && (forall worker :: HandedOut(w, worker) < UNRECONCILED)
    && SamplesOK(w)
    && (forall t :: 0 <= t < |w.snapshots| ==> GenuineSnapshot(capacity, w, w.snapshots[t]))
    && (forall i :: 0 <= i < |w.stages| ==> StageOK(w, i))
  }

  // ---------------------------------------------------------------------------
  // What every step leaves alone

  /** History only grows: samples keep their content, new ones are numbered later
      and show the present, snapshots are appended. */
  ghost predicate Extends(w: World, w': World) {
    && (forall worker :: HandedOut(w, worker) <= HandedOut(w', worker))
    && (forall worker, n: nat :: Sampled(w.samples, worker, n) ==> Sampled(w'.samples, worker, n) && SampleOf(w'.samples, worker, n) == SampleOf(w.samples, worker, n))
    && (forall worker, n: nat :: Sampled(w'.samples, worker, n) && !Sampled(w.samples, worker, n) ==>
          HandedOut(w, worker) < n && SampleOf(w'.samples, worker, n) == w.stages)
    && w.snapshots <= w'.snapshots && w.admitted <= w'.admitted < |w'.snapshots| && w.used <= w'.used
  }

  lemma DepartedStays(a: seq<Workers>, b: seq<Workers>, worker: WorkerKey)
    requires a <= b && Departed(a, worker)
    ensures Departed(b, worker)
  {
    var x, y :| 0 <= x < y < |a| && InstancePresent(a[x], worker) && !InstancePresent(a[y], worker);
    assert InstancePresent(b[x], worker) && !InstancePresent(b[y], worker);
  }

  lemma ShownStays(w: World, w': World, st: StageRecord)
    requires Extends(w, w') && AlreadyShown(w, st)
    ensures AlreadyShown(w', st)
  {
    var d :| d in w.used && d < |w.snapshots| && InstancePresent(w.snapshots[d], st.Worker())
             && 0 < st.threshold <= ObservedAt(w.snapshots[d], st.Worker());
    assert w'.snapshots[d] == w.snapshots[d];
  }

  /** A stage no step touches stays right. */
  lemma StageKept(w: World, w': World, i: nat)
    requires i < |w.stages| && i < |w'.stages| && StageOK(w, i) && Extends(w, w')
    requires w'.stages[i] == w.stages[i]
    requires w.stages[i].group < |w'.phases| && w'.phases[w.stages[i].group] == w.phases[w.stages[i].group]
    ensures StageOK(w', i)
  {
    var st := w.stages[i];
    assert w'.snapshots[st.admittedAt] == w.snapshots[st.admittedAt];
    if st.finished {
      if Departed(w.snapshots, st.Worker()) { DepartedStays(w.snapshots, w'.snapshots, st.Worker()); }
      else if AlreadyShown(w, st) { ShownStays(w, w', st); }
    }
  }
}
