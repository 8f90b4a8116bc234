/** Why memory safety needs statuses that do not lag: for every two observation numbers
    that are two or more apart, a run in which an admission reads the later one, the
    next admission reads the earlier one, and the worker is overcommitted. */
module StaleStatuses {
  import opened WideArithmetic
  import opened Membership
  import opened Scheduler
  import opened Conservation
  import opened Totals
  import opened SchedulerRuns
  import opened SchedulerTheorems
  import Placement
  import Execution
  import Leases

  const WORKER := WorkerKey("w", "i")

  function Listed(observation: uint64, available: uint64): Workers {
    map["w" := Worker(
      Registration("w", "i", "http://w",
                   Capabilities("mlx", 10, ["adapter"], ["prefill"], [], AdmissionLimits(10, 10, 100),
                                [Transport("http", ["raw"], 1, false)]),
                   Status(Healthy, available, 0, 0, 0, 0, 0, observation, [])), 0, 0, 0, None)]
  }

  lemma ListingIsValid(observation: uint64, available: uint64)
    requires available <= 10
    ensures Leases.RegistrationValid(Listed(observation, available)["w"].registration)
  {
  }

  // ---------------------------------------------------------------------------
  // Three plans of one stage each, for models of one, two and three layers

  function ModelOf(layers: nat): Execution.Model {
    Execution.Model("m", "f", layers)
  }

  function StagesOf(layers: nat): seq<Execution.Stage> {
    [Execution.Stage("stage-0", "w", "", 0, layers, true, true, Execution.Tensor)]
  }

  function PlanOf(layers: nat): Execution.Plan {
    Execution.FinalizedPlan(ModelOf(layers), "1", StagesOf(layers))
  }

  function ShardOf(layers: nat): string {
    Execution.ShardIDOf(ModelOf(layers), StagesOf(layers)[0])
  }

  lemma PlansAreValid(layers: nat)
    requires layers > 0
    ensures Execution.ValidPlan(PlanOf(layers))
    ensures |PlanOf(layers).stages| == 1
    ensures PlanOf(layers).stages[0].targetID == "w" && PlanOf(layers).stages[0].shardID == ShardOf(layers)
  {
    hide Execution.ShardIDOf;
    assert Execution.StageComplete(ModelOf(layers), StagesOf(layers), 0);
    Execution.CompleteStagesMakeValidPlan(ModelOf(layers), "1", StagesOf(layers));
  }

  lemma ShardsDiffer(i: nat, j: nat)
    requires i != j
    ensures ShardOf(i) != ShardOf(j)
  {
    if ShardOf(i) == ShardOf(j) {
      Execution.ShardIDsSeparateRanges(ModelOf(i), StagesOf(i)[0], ModelOf(j), StagesOf(j)[0]);
    }
  }

  /** A plan whose stage loads `load` bytes and keeps one byte per sequence. */
  function Asking(layers: nat, load: uint64): Placement.PlanEvaluation
    requires load < 100
  {
    Placement.PlanEvaluation(
      PlanOf(layers),
      Placement.ScoringRequest("", Placement.TransportRequirement("", "", false), "", "", 0, 0, 0, 0, 0,
                               [Placement.StageCostEstimate(load, 1, 0, 0, 0, 0)]),
      true,
      [Placement.StageEvaluation(PlanOf(layers).stages[0], Placement.Candidate("w", "http://w", true, false, load + 1, []),
                                 Placement.ComputeScore(0, false, false), Placement.TransferScore(0, false, false))],
      Placement.ZERO_SCORE)
  }

  ghost function Ten(): WorkerKey -> nat { (worker: WorkerKey) => 10 }

  function Reserved(shardID: string, load: uint64): StageReservation {
    StageReservation(SequenceKey(WORKER, shardID), load, 1, None, None)
  }

  // ---------------------------------------------------------------------------
  // The worlds of the run, by the shard IDs and the two observation numbers

  /** The earlier number m, the later number n, and the shards of the three plans. */
  datatype Case = Case(m: uint64, n: uint64, first: string, second: string, third: string) {
    predicate Valid() {
      0 < m && m + 2 <= n < UNRECONCILED && first != second && first != third && second != third
    }
  }

  function Old(c: Case): Workers { Listed(c.m, 10) }
  function New(c: Case): Workers { Listed(c.n, 5) }

  function Published(c: Case): World {
    INITIAL.(observed := map[WORKER := c.m], samples := map[Numbered(WORKER, c.m) := []], snapshots := [map[], Old(c)])
  }

  function FirstStage(c: Case): StageRecord { Fresh(0, 1, Reserved(c.first, 5)) }

  function Charged(c: Case): Ledger {
    Ledger(map[SequenceKey(WORKER, c.first) := SequenceState(1, [])], map[WORKER := WorkerState(1, 6, 1, [])])
  }

  function Admitted(c: Case): World {
    Published(c).(ledger := Charged(c), phases := [Preparing], stages := [FirstStage(c)], admitted := 1, used := {1})
  }

  function Loaded(c: Case): World {
    Admitted(c).(stages := [FirstStage(c).(loadHeld := 5)])
  }

  function ObservedStage(c: Case): StageReservation
    requires c.Valid()
  {
    Reserved(c.first, 5).(setup := Some(Observation(c.m + 1, true)))
  }

  function Abandoned(c: Case): World
    requires c.Valid()
  {
    Loaded(c).(observed := map[WORKER := c.m + 1], phases := [Settling(Outcome(true, true))],
               stages := [FirstStage(c).(loadHeld := 5, reservation := ObservedStage(c))])
  }

  /** What the first plan left: five bytes, charged until number m + 2 is read. */
  function Left(c: Case): StageRecord
    requires c.Valid()
  {
    FirstStage(c).(loadHeld := 5, reservation := ObservedStage(c), finished := true,
                   pending := Some(PendingMemory(5, 0, c.m + 2)), threshold := c.m + 2)
  }

  function Pending(c: Case): Ledger
    requires c.Valid()
  {
    Ledger(map[], map[WORKER := WorkerState(0, 0, 0, [PendingMemory(5, 0, c.m + 2)])])
  }

  function Released(c: Case): World
    requires c.Valid()
  {
    Abandoned(c).(ledger := Pending(c), stages := [Left(c)], phases := [Finished])
  }

  function Relisted(c: Case): World
    requires c.Valid()
  {
    Released(c).(observed := map[WORKER := c.n],
                 samples := map[Numbered(WORKER, c.m) := [], Numbered(WORKER, c.n) := [Left(c)]],
                 snapshots := [map[], Old(c), New(c), Old(c)])
  }

  function Shown(c: Case): StageRecord
    requires c.Valid()
  {
    Left(c).(pending := None)
  }

  function SecondStage(c: Case): StageRecord { Fresh(1, 2, Reserved(c.second, 3)) }
  function ThirdStage(c: Case): StageRecord { Fresh(2, 3, Reserved(c.third, 5)) }

  function ChargedTwice(c: Case): Ledger {
    Ledger(map[SequenceKey(WORKER, c.second) := SequenceState(1, [])], map[WORKER := WorkerState(1, 4, 1, [])])
  }

  function ChargedThrice(c: Case): Ledger {
    Ledger(map[SequenceKey(WORKER, c.second) := SequenceState(1, []), SequenceKey(WORKER, c.third) := SequenceState(1, [])],
           map[WORKER := WorkerState(2, 10, 2, [])])
  }

  function Settled(c: Case): World
    requires c.Valid()
  {
    Relisted(c).(ledger := ChargedTwice(c), stages := [Shown(c), SecondStage(c)], phases := [Finished, Preparing],
                 admitted := 2, used := {1, 2})
  }

  function Readmitted(c: Case): World
    requires c.Valid()
  {
    Settled(c).(ledger := ChargedThrice(c), stages := [Shown(c), SecondStage(c), ThirdStage(c)],
                phases := [Finished, Preparing, Preparing], admitted := 3, used := {1, 2, 3})
  }

  function Overcommitted(c: Case): World
    requires c.Valid()
  {
    Readmitted(c).(stages := [Shown(c), SecondStage(c).(loadHeld := 3), ThirdStage(c).(loadHeld := 5)])
  }

  // ---------------------------------------------------------------------------
  // Chaining steps

  ghost predicate Leads(w: World, step: Step, w': World) {
    Enabled(Ten(), w, step) && Apply(Ten(), w, step) == w'
  }

  ghost predicate Reached(steps: seq<Step>, w: World, lag: nat) {
    After(Ten(), steps) == Some(w) && Timely(Ten(), steps, WORKER, lag)
  }

  lemma Start(lag: nat) returns (steps: seq<Step>)
    ensures Reached(steps, INITIAL, lag)
  {
    steps := [];
  }

  lemma Follow(steps: seq<Step>, w: World, step: Step, w': World, lag: nat) returns (longer: seq<Step>)
    requires Reached(steps, w, lag) && Leads(w, step, w')
    requires step.Admit? ==> step.t < |w.snapshots| && InstancePresent(w.snapshots[step.t], WORKER)
                             && ReadsWithin(w, step.t, WORKER, lag)
    ensures Reached(longer, w', lag)
  {
    hide Enabled, Apply, ReadsWithin, ChargesWorker;
    longer := steps + [step];
    assert longer[..|steps|] == steps;
  }

  function Ticked(w: World, k: nat): World {
    if HandedOut(w, WORKER) == k then w else w.(observed := w.observed[WORKER := k])
  }

  /** Other calls use up the numbers before k. */
  lemma {:induction false} TickTo(steps: seq<Step>, w: World, k: nat, lag: nat) returns (longer: seq<Step>)
    requires Reached(steps, w, lag) && HandedOut(w, WORKER) <= k < UNRECONCILED
    ensures Reached(longer, Ticked(w, k), lag)
    decreases k
  {
    if HandedOut(w, WORKER) == k {
      longer := steps;
    } else {
      longer := TickTo(steps, w, k - 1, lag);
      TickOnce(w, k);
      hide *;
      longer := Follow(longer, Ticked(w, k - 1), Tick(WORKER), Ticked(w, k), lag);
    }
  }

  lemma TickOnce(w: World, k: nat)
    requires HandedOut(w, WORKER) < k < UNRECONCILED
    ensures Leads(Ticked(w, k - 1), Tick(WORKER), Ticked(w, k))
  {
    var w' := Ticked(w, k - 1);
    assert HandedOut(w', WORKER) == k - 1;
    assert w'.observed[WORKER := k] == w.observed[WORKER := k];
  }

  function Sampling(w: World, k: nat): World {
    w.(observed := w.observed[WORKER := k], samples := w.samples[Numbered(WORKER, k) := w.stages])
  }

  lemma SampleAt(steps: seq<Step>, w: World, k: nat, lag: nat) returns (longer: seq<Step>)
    requires Reached(steps, w, lag) && HandedOut(w, WORKER) < k < UNRECONCILED
    ensures Reached(longer, Sampling(w, k), lag)
  {
    longer := TickTo(steps, w, k - 1, lag);
    SampleOnce(w, k);
    hide *;
    longer := Follow(longer, Ticked(w, k - 1), SampleState(WORKER), Sampling(w, k), lag);
  }

  lemma SampleOnce(w: World, k: nat)
    requires HandedOut(w, WORKER) < k < UNRECONCILED
    ensures Leads(Ticked(w, k - 1), SampleState(WORKER), Sampling(w, k))
  {
    var w' := Ticked(w, k - 1);
    assert HandedOut(w', WORKER) == k - 1;
    assert w'.observed[WORKER := k] == w.observed[WORKER := k];
  }

  // ---------------------------------------------------------------------------
  // The first plan: admitted, loaded, abandoned and released

  lemma ListFirst(c: Case)
    requires c.Valid()
    ensures Leads(Sampling(INITIAL, c.m), Publish(Old(c)), Published(c))
  {
    assert Sampling(INITIAL, c.m) == INITIAL.(observed := map[WORKER := c.m], samples := map[Numbered(WORKER, c.m) := []]);
    assert [map[]] + [Old(c)] == [map[], Old(c)];
  }

  /** Charging one stage against a ledger that reconciliation leaves alone. */
  lemma ReserveOne(ledger: Ledger, workers: Workers, layers: nat, load: uint64, r: StageReservation, after: Ledger)
    requires layers > 0 && load < 100
    requires Reconcile(ledger, workers) == after
    requires CheckStage(after, workers, Asking(layers, load), 0) == Ok(r)
    ensures ReserveAdmission(ledger, workers, Asking(layers, load)) == (ChargeStage(after, r), Ok([r]))
  {
    PlansAreValid(layers);
    hide CheckStage, Reconcile, ChargeStage, PlanOf;
    var e := Asking(layers, load);
    assert CheckStages(after, workers, e, 0) == Ok([]) && [] + [r] == [r];
    assert CheckStages(after, workers, e, 1) == Ok([r]);
    assert [r][..0] == [] && ChargeStages(after, []) == after;
  }

  /** A successful admission of one stage as a step. */
  lemma AdmissionLeads(w: World, t: nat, layers: nat, load: uint64, ledger: Ledger, r: StageReservation, kept: seq<StageRecord>)
    requires w.admitted <= t < |w.snapshots| && layers > 0 && load < 100
    requires ReserveAdmission(w.ledger, w.snapshots[t], Asking(layers, load)) == (ledger, Ok([r]))
    requires ReconcileRecords(w.stages, w.snapshots[t]) == kept
    ensures Leads(w, Admit(t, Asking(layers, load)),
                  w.(ledger := ledger, stages := kept + [Fresh(|w.phases|, t, r)], phases := w.phases + [Preparing],
                     admitted := t, used := w.used + {t}))
  {
    PlansAreValid(layers);
    assert FreshRecords(|w.phases|, t, [r]) == [Fresh(|w.phases|, t, r)];
    hide ReserveAdmission, ReconcileRecords, PlanOf, FreshRecords, Execution.ValidPlan;
  }

  lemma FirstReservation(c: Case)
    requires c.Valid() && c.first == ShardOf(1)
    ensures ReserveAdmission(EMPTY_LEDGER, Old(c), Asking(1, 5)) == (Charged(c), Ok([Reserved(c.first, 5)]))
  {
    PlansAreValid(1);
    hide PlanOf;
    var r := Reserved(c.first, 5);
    assert Reconcile(EMPTY_LEDGER, Old(c)) == EMPTY_LEDGER;
    assert CheckStage(EMPTY_LEDGER, Old(c), Asking(1, 5), 0) == Ok(r);
    ReserveOne(EMPTY_LEDGER, Old(c), 1, 5, r, EMPTY_LEDGER);
    assert ChargeStage(EMPTY_LEDGER, r) == Charged(c);
  }

  lemma FirstAdmission(c: Case)
    requires c.Valid() && c.first == ShardOf(1)
    ensures Leads(Published(c), Admit(1, Asking(1, 5)), Admitted(c))
  {
    FirstReservation(c);
    var r := Reserved(c.first, 5);
    assert ReconcileRecords([], Old(c)) == [];
    hide ReserveAdmission, ReconcileRecords, Asking, Leads, Fresh, Listed, Charged;
    AdmissionLeads(Published(c), 1, 1, 5, Charged(c), r, []);
    assert [] + [Fresh(0, 1, r)] == [Fresh(0, 1, r)] && [] + [Preparing] == [Preparing] && {} + {1} == {1};
  }

  lemma LoadFirst(c: Case)
    requires c.Valid()
    ensures Leads(Admitted(c), Load(0, 5), Loaded(c))
    ensures Leads(Loaded(c), PrepareEnds(0), Loaded(c).(phases := [Observing]))
  {
  }

  function Observed(c: Case): World
    requires c.Valid()
  {
    Abandoned(c).(phases := [Observing])
  }

  lemma ObserveAndAbandon(c: Case)
    requires c.Valid()
    ensures Leads(Loaded(c).(phases := [Observing]), ObserveSetup(0, true), Observed(c))
    ensures Leads(Observed(c), Abandon(0, true), Abandoned(c))
  {
    var w := Loaded(c).(phases := [Observing]);
    assert HandedOut(w, WORKER) == c.m;
    assert w.observed[WORKER := c.m + 1] == map[WORKER := c.m + 1];
  }

  lemma ReleaseLedger(c: Case)
    requires c.Valid()
    ensures FinishStage(Charged(c), ObservedStage(c), Old(c), Outcome(true, true)) == Pending(c)
  {
    var key, entry := SequenceKey(WORKER, c.first), PendingMemory(5, 0, c.m + 2);
    assert FinishedSequence(SequenceState(1, []), ObservedStage(c), Old(c), Outcome(true, true)) == NO_SEQUENCES;
    assert PendingAfter(ObservedStage(c), Outcome(true, true)) == entry;
    assert FinishedWorker(WorkerState(1, 6, 1, []), ObservedStage(c), Old(c), Outcome(true, true))
           == WorkerState(0, 0, 0, [entry]) by {
      assert [] + [entry] == [entry];
    }
    assert Charged(c).reservations - {key} == map[];
    assert Charged(c).workers[WORKER := WorkerState(0, 0, 0, [entry])] == Pending(c).workers;
  }

  lemma Release(c: Case)
    requires c.Valid()
    ensures Leads(Abandoned(c), Finish(0, 1), Released(c))
  {
    var st, r := Abandoned(c).stages[0], ObservedStage(c);
    ReleaseLedger(c);
    OneReservation(st);
    assert [r][..0] == [] && FinishStages(Charged(c), [], Old(c), Outcome(true, true)) == Charged(c);
    assert FinishStages(Charged(c), [r], Old(c), Outcome(true, true)) == Pending(c);
    assert FinishRecord(st, Old(c), Outcome(true, true)) == Left(c);
    assert FinishGroup([st], 0, 1, Old(c), Outcome(true, true)) == [Left(c)];
    hide FinishStages, FinishGroup, GroupReservations, FinishRecord;
  }

  lemma OneReservation(st: StageRecord)
    requires st.group == 0
    ensures GroupReservations([st], 0) == [st.reservation]
  {
    assert [st][..0] == [] && GroupReservations([], 0) == [];
  }

  // ---------------------------------------------------------------------------
  // The later status is listed, and the earlier one again

  lemma OneTotal(st: StageRecord, weight: StageRecord -> nat)
    ensures Total([], weight) == 0 && Total([st], weight) == weight(st)
  {
    assert [st][..0] == [];
  }

  function Newest(c: Case): World
    requires c.Valid()
  {
    Relisted(c).(snapshots := [map[], Old(c), New(c)])
  }

  lemma ResampledWorld(c: Case)
    requires c.Valid()
    ensures Sampling(Released(c), c.n) == Relisted(c).(snapshots := [map[], Old(c)])
    ensures HandedOut(Released(c), WORKER) == c.m + 1
  {
    var w := Released(c);
    assert w.observed[WORKER := c.n] == map[WORKER := c.n];
    assert w.samples[Numbered(WORKER, c.n) := w.stages] == Relisted(c).samples;
  }

  /** The sample behind the later status shows the five bytes; the earlier does not. */
  lemma ListTwice(c: Case)
    requires c.Valid()
    ensures Leads(Relisted(c).(snapshots := [map[], Old(c)]), Publish(New(c)), Newest(c))
    ensures Leads(Newest(c), Publish(Old(c)), Relisted(c))
  {
    OneTotal(Left(c), HeldOn(WORKER));
    assert Relisted(c).samples[Numbered(WORKER, c.n)] == [Left(c)];
    assert Relisted(c).samples[Numbered(WORKER, c.m)] == [];
    assert [map[], Old(c)] + [New(c)] == [map[], Old(c), New(c)];
    assert [map[], Old(c), New(c)] + [Old(c)] == [map[], Old(c), New(c), Old(c)];
  }

  // ---------------------------------------------------------------------------
  // Reading the later status settles the charge; reading the earlier one overcommits

  lemma ReconcileLedger(c: Case)
    requires c.Valid()
    ensures Reconcile(Pending(c), New(c)) == EMPTY_LEDGER
  {
    var state := WorkerState(0, 0, 0, [PendingMemory(5, 0, c.m + 2)]);
    assert state.pendingMemory[1..] == [] && StillPending([], c.n) == [];
    assert ReconciledWorker(WORKER, state, New(c)) == NO_REQUESTS;
  }

  lemma SecondReservation(c: Case)
    requires c.Valid() && c.second == ShardOf(2)
    ensures ReserveAdmission(Pending(c), New(c), Asking(2, 3)) == (ChargedTwice(c), Ok([Reserved(c.second, 3)]))
  {
    ReconcileLedger(c);
    PlansAreValid(2);
    hide PlanOf, Reconcile;
    var r := Reserved(c.second, 3);
    assert CheckStage(EMPTY_LEDGER, New(c), Asking(2, 3), 0) == Ok(r);
    ReserveOne(Pending(c), New(c), 2, 3, r, EMPTY_LEDGER);
    assert ChargeStage(EMPTY_LEDGER, r) == ChargedTwice(c);
  }

  lemma SecondAdmission(c: Case)
    requires c.Valid() && c.second == ShardOf(2)
    ensures Leads(Relisted(c), Admit(2, Asking(2, 3)), Settled(c))
  {
    SecondReservation(c);
    var r := Reserved(c.second, 3);
    assert ReconcileRecord(Left(c), New(c)) == Shown(c);
    assert ReconcileRecords([Left(c)], New(c)) == [Shown(c)];
    hide ReserveAdmission, ReconcileRecords, Asking, Leads, Fresh, Listed, ChargedTwice, Pending, Left, Shown;
    AdmissionLeads(Relisted(c), 2, 2, 3, ChargedTwice(c), r, [Shown(c)]);
    assert [Shown(c)] + [Fresh(1, 2, r)] == [Shown(c), Fresh(1, 2, r)];
    assert [Finished] + [Preparing] == [Finished, Preparing] && {1} + {2} == {1, 2};
  }

  lemma StillCharged(c: Case)
    requires c.Valid()
    ensures Reconcile(ChargedTwice(c), Old(c)) == ChargedTwice(c)
  {
    assert ReconciledWorker(WORKER, WorkerState(1, 4, 1, []), Old(c)) == WorkerState(1, 4, 1, []);
  }

  lemma ChargeAgain(c: Case)
    requires c.Valid()
    ensures ChargeStage(ChargedTwice(c), Reserved(c.third, 5)) == ChargedThrice(c)
  {
  }

  lemma ThirdReservation(c: Case)
    requires c.Valid() && c.third == ShardOf(3)
    ensures ReserveAdmission(ChargedTwice(c), Old(c), Asking(3, 5)) == (ChargedThrice(c), Ok([Reserved(c.third, 5)]))
  {
    PlansAreValid(3);
    hide PlanOf;
    var r := Reserved(c.third, 5);
    StillCharged(c);
    hide Reconcile;
    assert CheckStage(ChargedTwice(c), Old(c), Asking(3, 5), 0) == Ok(r);
    ReserveOne(ChargedTwice(c), Old(c), 3, 5, r, ChargedTwice(c));
    ChargeAgain(c);
    hide ChargeStage, CheckStage, ReserveAdmission;
  }

  lemma ReadmittedShape(c: Case)
    requires c.Valid()
    ensures var w, r := Settled(c), Reserved(c.third, 5);
            && w.admitted == 2 && |w.snapshots| == 4 && w.snapshots[3] == Old(c)
            && w.ledger == ChargedTwice(c) && w.stages == [Shown(c), SecondStage(c)] && |w.phases| == 2
            && Readmitted(c) == w.(ledger := ChargedThrice(c), stages := [Shown(c), SecondStage(c)] + [Fresh(2, 3, r)],
                                   phases := w.phases + [Preparing], admitted := 3, used := w.used + {3})
  {
    hide Fresh, Listed, ChargedTwice, ChargedThrice, Left, Shown;
    assert [Shown(c), SecondStage(c)] + [ThirdStage(c)] == [Shown(c), SecondStage(c), ThirdStage(c)];
    assert [Finished, Preparing] + [Preparing] == [Finished, Preparing, Preparing] && {1, 2} + {3} == {1, 2, 3};
  }

  lemma ThirdAdmission(c: Case)
    requires c.Valid() && c.third == ShardOf(3)
    ensures Leads(Settled(c), Admit(3, Asking(3, 5)), Readmitted(c))
  {
    ThirdReservation(c);
    NothingToSettle(c);
    ReadmittedShape(c);
    hide *;
    AdmissionLeads(Settled(c), 3, 3, 5, ChargedThrice(c), Reserved(c.third, 5), [Shown(c), SecondStage(c)]);
  }

  lemma NothingToSettle(c: Case)
    requires c.Valid()
    ensures ReconcileRecords([Shown(c), SecondStage(c)], Old(c)) == [Shown(c), SecondStage(c)]
  {
    assert ReconcileRecord(Shown(c), Old(c)) == Shown(c);
    assert ReconcileRecord(SecondStage(c), Old(c)) == SecondStage(c);
  }

  function HalfLoaded(c: Case): World
    requires c.Valid()
  {
    Readmitted(c).(stages := [Shown(c), SecondStage(c).(loadHeld := 3), ThirdStage(c)])
  }

  lemma LoadRest(c: Case)
    requires c.Valid()
    ensures Leads(Readmitted(c), Load(1, 3), HalfLoaded(c))
    ensures Leads(HalfLoaded(c), Load(2, 5), Overcommitted(c))
  {
    assert Readmitted(c).stages[1 := SecondStage(c).(loadHeld := 3)] == HalfLoaded(c).stages;
    assert HalfLoaded(c).stages[2 := ThirdStage(c).(loadHeld := 5)] == Overcommitted(c).stages;
  }

  lemma HeldTotal(c: Case)
    requires c.Valid()
    ensures Total(Overcommitted(c).stages, HeldOn(WORKER)) == 13
  {
    var a, b, d := Shown(c), SecondStage(c).(loadHeld := 3), ThirdStage(c).(loadHeld := 5);
    OneTotal(a, HeldOn(WORKER));
    TotalAppend([a], b, HeldOn(WORKER));
    TotalAppend([a] + [b], d, HeldOn(WORKER));
    assert Overcommitted(c).stages == [a] + [b] + [d];
  }

  lemma Readings(c: Case)
    requires c.Valid()
    ensures InstancePresent(Published(c).snapshots[1], WORKER) && ReadsWithin(Published(c), 1, WORKER, c.n - c.m)
    ensures InstancePresent(Relisted(c).snapshots[2], WORKER) && ReadsWithin(Relisted(c), 2, WORKER, c.n - c.m)
    ensures InstancePresent(Settled(c).snapshots[3], WORKER) && ReadsWithin(Settled(c), 3, WORKER, c.n - c.m)
    ensures !Departed(Overcommitted(c).snapshots, WORKER)
  {
  }

  lemma RunFirstPlan(c: Case, lag: nat) returns (steps: seq<Step>)
    requires c.Valid() && c.first == ShardOf(1) && lag == c.n - c.m
    ensures Reached(steps, Released(c), lag)
  {
    ListFirst(c);
    FirstAdmission(c);
    LoadFirst(c);
    ObserveAndAbandon(c);
    Release(c);
    Readings(c);
    var asking := Asking(1, 5);
    steps := Start(lag);
    assert HandedOut(INITIAL, WORKER) < c.m < UNRECONCILED && 1 < |Published(c).snapshots|;
    hide *;
    steps := SampleAt(steps, INITIAL, c.m, lag);
    steps := Follow(steps, Sampling(INITIAL, c.m), Publish(Old(c)), Published(c), lag);
    steps := Follow(steps, Published(c), Admit(1, asking), Admitted(c), lag);
    steps := Follow(steps, Admitted(c), Load(0, 5), Loaded(c), lag);
    steps := Follow(steps, Loaded(c), PrepareEnds(0), Loaded(c).(phases := [Observing]), lag);
    steps := Follow(steps, Loaded(c).(phases := [Observing]), ObserveSetup(0, true), Observed(c), lag);
    steps := Follow(steps, Observed(c), Abandon(0, true), Abandoned(c), lag);
    steps := Follow(steps, Abandoned(c), Finish(0, 1), Released(c), lag);
  }

  lemma RunToTheEnd(c: Case, lag: nat) returns (steps: seq<Step>)
    requires c.Valid() && c.first == ShardOf(1) && c.second == ShardOf(2) && c.third == ShardOf(3) && lag == c.n - c.m
    ensures Reached(steps, Overcommitted(c), lag)
  {
    steps := RunFirstPlan(c, lag);
    ResampledWorld(c);
    ListTwice(c);
    SecondAdmission(c);
    ThirdAdmission(c);
    LoadRest(c);
    Readings(c);
    var second, third := Asking(2, 3), Asking(3, 5);
    var sampled := Relisted(c).(snapshots := [map[], Old(c)]);
    assert HandedOut(Released(c), WORKER) < c.n < UNRECONCILED;
    assert 2 < |Relisted(c).snapshots| && 3 < |Settled(c).snapshots|;
    hide *;
    steps := SampleAt(steps, Released(c), c.n, lag);
    steps := Follow(steps, sampled, Publish(New(c)), Newest(c), lag);
    steps := Follow(steps, Newest(c), Publish(Old(c)), Relisted(c), lag);
    steps := Follow(steps, Relisted(c), Admit(2, second), Settled(c), lag);
    steps := Follow(steps, Settled(c), Admit(3, third), Readmitted(c), lag);
    steps := Follow(steps, Readmitted(c), Load(1, 3), HalfLoaded(c), lag);
    steps := Follow(steps, HalfLoaded(c), Load(2, 5), Overcommitted(c), lag);
  }

  /** For every two numbers at least two apart: a run of admissions of valid plans in
      which the later number is read, then the earlier one, no reading lags by more,
      and a worker of ten bytes that never left is made to hold thirteen. */
  lemma StaleStatusOvercommits(m: uint64, n: uint64) returns (steps: seq<Step>)
    requires 0 < m && m + 2 <= n < UNRECONCILED
    ensures After(Ten(), steps).Some? && Timely(Ten(), steps, WORKER, n - m)
    ensures var w := After(Ten(), steps).value;
            && !Departed(w.snapshots, WORKER)
            && w.used == {1, 2, 3} && |w.snapshots| == 4
            && w.snapshots[2] == Listed(n, 5) && w.snapshots[3] == Listed(m, 10)
            && Total(w.stages, HeldOn(WORKER)) == 13 > Ten()(WORKER)
  {
    ShardsDiffer(1, 2);
    ShardsDiffer(1, 3);
    ShardsDiffer(2, 3);
    var c := Case(m, n, ShardOf(1), ShardOf(2), ShardOf(3));
    hide ShardOf;
    steps := RunToTheEnd(c, n - m);
    HeldTotal(c);
    Readings(c);
    hide After, Timely;
  }

  // ---------------------------------------------------------------------------
  // The exact lag

  ghost predicate SafeRun(capacity: WorkerKey -> nat, steps: seq<Step>, worker: WorkerKey, lag: nat) {
    After(capacity, steps).Some? && Timely(capacity, steps, worker, lag)
    && !Departed(After(capacity, steps).value.snapshots, worker) ==>
      Total(After(capacity, steps).value.stages, HeldOn(worker)) <= capacity(worker)
  }

  lemma {:induction false} TimelyGrows(capacity: WorkerKey -> nat, steps: seq<Step>, worker: WorkerKey, small: nat, large: nat)
    requires small <= large && After(capacity, steps).Some? && Timely(capacity, steps, worker, small)
    ensures Timely(capacity, steps, worker, large)
  {
    hide ChargesWorker;
    if steps != [] { TimelyGrows(capacity, steps[..|steps| - 1], worker, small, large); }
  }

  /** Memory is safe in all runs whose charging readings lag by at most `lag` numbers
      exactly when that lag is at most one. */
  lemma LagOfOneIsExact(lag: nat)
    ensures (forall capacity: WorkerKey -> nat, steps, worker :: SafeRun(capacity, steps, worker, lag)) <==> lag <= SAFE_LAG
  {
    hide After, Timely, Departed, Total;
    if lag <= SAFE_LAG {
      forall capacity: WorkerKey -> nat, steps, worker ensures SafeRun(capacity, steps, worker, lag) {
        if After(capacity, steps).Some? && Timely(capacity, steps, worker, lag)
           && !Departed(After(capacity, steps).value.snapshots, worker) {
          TimelyGrows(capacity, steps, worker, lag, SAFE_LAG);
          NeverOvercommitted(capacity, steps, worker);
        }
      }
    } else {
      var steps := StaleStatusOvercommits(1, 3);
      TimelyGrows(Ten(), steps, WORKER, 2, lag);
      assert !SafeRun(Ten(), steps, WORKER, lag);
    }
  }
}
