/** A path that covers the model becomes a valid plan whose full score is exactly
    the incremental one, and plan evaluations compare as their paths do. */
module CompletePlans {
  import opened WideArithmetic
  import opened Membership
  import opened Placement
  import opened Text
  import opened WorkerKeys
  import opened PlanScoring
  import opened PlanPaths
  import opened PlanOptions
  import Execution

  function EstimatesOf(path: Path): (r: seq<StageCostEstimate>)
    ensures |r| == |path| && forall i :: 0 <= i < |r| ==> r[i] == path[i].range.estimate
  {
    seq(|path|, i requires 0 <= i < |path| => path[i].range.estimate)
  }

  function CompletePlan(inventory: Inventory, request: ConstructionRequest, path: Path): Execution.Plan {
    Execution.FinalizedPlan(request.model, Decimal(inventory.revision), StagesOf(request, path))
  }

  function FullRequest(request: ConstructionRequest, path: Path): ScoringRequest {
    request.scoring.(stages := EstimatesOf(path))
  }

  ghost predicate AllOptions(inventory: Inventory, profile: ProfileSnapshot, request: ConstructionRequest, path: Path) {
    forall i :: 0 <= i < |path| ==> IsOption(inventory, profile, request, path[i])
  }

  /** A plan the request allows: eligible distinct workers, contiguous ranges that
      cover all layers, no more stages than permitted. */
  ghost predicate FeasiblePlan(inventory: Inventory, profile: ProfileSnapshot, request: ConstructionRequest, path: Path) {
    && 1 <= |path| <= request.maxStages
    && AllOptions(inventory, profile, request, path)
    && Chained(path) && Distinct(TargetsOf(path))
    && End(path) == request.model.layerCount
  }

  lemma OptionShape(inventory: Inventory, profile: ProfileSnapshot, request: ConstructionRequest, edge: Edge)
    requires RequestValid(inventory, profile, request) && RegisteredIDs(inventory)
    requires IsOption(inventory, profile, request, edge)
    ensures 0 <= edge.range.layerStart < edge.range.layerEnd <= request.model.layerCount
    ensures EstimateValid(edge.range.estimate, request.scoring.decodeSteps)
    ensures ValidID(edge.Target())
  {
    hide EdgeFor, EstimateValid, SnapshotsAgree;
    var i :| 0 <= i < |request.ranges| && request.ranges[i] == edge.range;
  }

  // ---------------------------------------------------------------------------
  // The plan is valid

  lemma FeasibleStageComplete(inventory: Inventory, profile: ProfileSnapshot, request: ConstructionRequest, path: Path, i: nat)
    requires RequestValid(inventory, profile, request) && RegisteredIDs(inventory)
    requires FeasiblePlan(inventory, profile, request, path) && i < |path|
    ensures Execution.StageComplete(request.model, StagesOf(request, path), i)
  {
    hide IsOption, RegisteredIDs, SnapshotsAgree, RangesValid;
    OptionShape(inventory, profile, request, path[i]);
    if i > 0 { OptionShape(inventory, profile, request, path[i - 1]); }
    if i < |path| - 1 { OptionShape(inventory, profile, request, path[i + 1]); }
  }

  lemma StageNamesDiffer(i: nat, j: nat)
    requires i != j
    ensures "stage-" + Decimal(i) != "stage-" + Decimal(j)
  {
    if "stage-" + Decimal(i) == "stage-" + Decimal(j) {
      Execution.PrefixCancels("stage-", Decimal(i), Decimal(j));
      DecimalInjective(i, j);
    }
  }

  lemma FeasiblePlanIsValid(inventory: Inventory, profile: ProfileSnapshot, request: ConstructionRequest, path: Path)
    requires RequestValid(inventory, profile, request) && RegisteredIDs(inventory)
    requires FeasiblePlan(inventory, profile, request, path)
    ensures Execution.ValidPlan(CompletePlan(inventory, request, path))
  {
    hide IsOption, RegisteredIDs, SnapshotsAgree, RangesValid, Execution.StageComplete, Execution.ValidPlan;
    var stages := StagesOf(request, path);
    forall i | 0 <= i < |stages| ensures Execution.StageComplete(request.model, stages, i) {
      FeasibleStageComplete(inventory, profile, request, path, i);
    }
    forall i, j | 0 <= i < j < |stages| ensures stages[i].name != stages[j].name && stages[i].targetID != stages[j].targetID {
      StageNamesDiffer(i, j);
      assert TargetsOf(path)[i] != TargetsOf(path)[j];
    }
    assert Execution.Contiguous(stages);
    Execution.CompleteStagesMakeValidPlan(request.model, Decimal(inventory.revision), stages);
  }

  // ---------------------------------------------------------------------------
  // Its evidence and charges are those of the edges

  lemma FindsOwnCandidate(inventory: Inventory, requirement: StageRequirement, worker: Worker)
    requires RequirementValid(requirement) && UniqueIDs(inventory.workers) && worker in inventory.workers
    ensures SelectCandidate(inventory, requirement, worker.ID()) == Ok(CandidateOf(inventory, requirement, worker))
  {
    hide CandidateOf, RequirementValid;
    var i :| 0 <= i < |inventory.workers| && inventory.workers[i] == worker;
    var candidates := Candidates(inventory, requirement);
    var found := FindCandidate(candidates, worker.ID());
    assert candidates[i] in candidates && candidates[i].workerID == worker.ID();
    var j :| 0 <= j < |candidates| && candidates[j] == found.value;
    UniqueWorker(inventory.workers, inventory.workers[j], worker);
  }

  lemma IndexedWorker(inventory: Inventory, worker: Worker)
    requires UniqueIDs(inventory.workers) && worker in inventory.workers
    ensures worker.ID() in WorkersByID(inventory.workers) && WorkersByID(inventory.workers)[worker.ID()] == worker
  {
    UniqueWorker(inventory.workers, WorkersByID(inventory.workers)[worker.ID()], worker);
  }

  lemma ChargeIgnoresEstimateList(profile: ProfileSnapshot, model: Execution.Model, request: ScoringRequest,
                                  stages: seq<StageCostEstimate>, worker: Worker, candidate: Candidate,
                                  layerStart: int, layerEnd: int, estimate: StageCostEstimate)
    ensures ChargeOf(profile, model, request.(stages := stages), worker, candidate, layerStart, layerEnd, estimate)
            == ChargeOf(profile, model, request, worker, candidate, layerStart, layerEnd, estimate)
  {
    hide EstimateCompute, Traversal, FindCompute, FindLink;
  }

  lemma StageRequirementIsRangeRequirement(inventory: Inventory, request: ConstructionRequest, path: Path, i: nat)
    requires i < |path|
    ensures RequirementAt(CompletePlan(inventory, request, path), FullRequest(request, path), i)
            == RangeRequirement(request, path[i].range)
  {
    hide Execution.ShardIDOf;
    var range := path[i].range;
    var bare := Execution.Stage("", "", "", range.layerStart, range.layerEnd, range.layerStart == 0,
                                range.layerEnd == request.model.layerCount, Execution.Tensor);
    Execution.ShardIDIgnoresNames(request.model, bare, StagesOf(request, path)[i]);
  }

  /** What full scoring finds for one stage is what the search was charged for it. */
  lemma StageAgrees(inventory: Inventory, profile: ProfileSnapshot, request: ConstructionRequest, path: Path, i: nat)
    requires UniqueIDs(inventory.workers) && i < |path| && IsOption(inventory, profile, request, path[i])
    ensures var plan := CompletePlan(inventory, request, path);
            var full := FullRequest(request, path);
            var edge := path[i];
            && plan.stages[i].targetID == edge.Target()
            && SelectCandidate(inventory, RequirementAt(plan, full, i), edge.Target()) == Ok(edge.charge.candidate)
            && edge.charge.candidate.eligible
            && edge.Target() in WorkersByID(inventory.workers)
            && ChargeOf(profile, plan.model, full, WorkersByID(inventory.workers)[edge.Target()], edge.charge.candidate,
                        plan.stages[i].layerStart, plan.stages[i].layerEnd, full.stages[i]) == Ok(edge.charge)
  {
    hide RequirementValid, CandidateOf, ChargeOf, RequirementOf, SelectCandidate, WorkersByID, UniqueIDs;
    var edge := path[i];
    StageRequirementIsRangeRequirement(inventory, request, path, i);
    FindsOwnCandidate(inventory, RangeRequirement(request, edge.range), edge.charge.worker);
    IndexedWorker(inventory, edge.charge.worker);
    ChargeIgnoresEstimateList(profile, request.model, request.scoring, EstimatesOf(path), edge.charge.worker,
                              edge.charge.candidate, edge.range.layerStart, edge.range.layerEnd, edge.range.estimate);
  }

  function CandidatesOf(path: Path): (r: seq<Candidate>)
    ensures |r| == |path| && forall i :: 0 <= i < |r| ==> r[i] == path[i].charge.candidate
  {
    seq(|path|, i requires 0 <= i < |path| => path[i].charge.candidate)
  }

  ghost predicate Chooses(inventory: Inventory, plan: Execution.Plan, full: ScoringRequest, candidate: Candidate, i: nat)
    requires i < |plan.stages| == |full.stages|
  {
    SelectCandidate(inventory, RequirementAt(plan, full, i), plan.stages[i].targetID) == Ok(candidate)
  }

  lemma {:induction false} SelectsEach(inventory: Inventory, plan: Execution.Plan, full: ScoringRequest, candidates: seq<Candidate>, n: nat)
    requires n <= |plan.stages| == |full.stages| == |candidates|
    requires forall i :: 0 <= i < n ==> Chooses(inventory, plan, full, candidates[i], i)
    ensures Selected(inventory, plan, full, n) == Ok(candidates[..n])
  {
    hide SelectCandidate, RequirementAt;
    if n > 0 {
      SelectsEach(inventory, plan, full, candidates, n - 1);
      assert Chooses(inventory, plan, full, candidates[n - 1], n - 1);
      assert candidates[..n] == candidates[..n - 1] + [candidates[n - 1]];
    }
  }

  lemma SelectsOptions(inventory: Inventory, profile: ProfileSnapshot, request: ConstructionRequest, path: Path)
    requires UniqueIDs(inventory.workers) && AllOptions(inventory, profile, request, path)
    ensures Selected(inventory, CompletePlan(inventory, request, path), FullRequest(request, path), |path|)
            == Ok(CandidatesOf(path))
  {
    hide SelectCandidate, RequirementAt, IsOption, UniqueIDs, ChargeOf, WorkersByID, Selected;
    var plan, full, candidates := CompletePlan(inventory, request, path), FullRequest(request, path), CandidatesOf(path);
    forall i | 0 <= i < |path| ensures Chooses(inventory, plan, full, candidates[i], i) {
      StageAgrees(inventory, profile, request, path, i);
    }
    SelectsEach(inventory, plan, full, candidates, |path|);
    assert candidates[..|path|] == candidates;
  }

  lemma OptionsPresent(inventory: Inventory, profile: ProfileSnapshot, request: ConstructionRequest, path: Path)
    requires UniqueIDs(inventory.workers) && AllOptions(inventory, profile, request, path)
    ensures TargetsPresent(inventory, CompletePlan(inventory, request, path))
    ensures AllEligible(CandidatesOf(path))
  {
    hide IsOption, UniqueIDs, ChargeOf, SelectCandidate;
    var plan := CompletePlan(inventory, request, path);
    forall i | 0 <= i < |plan.stages|
      ensures plan.stages[i].targetID in WorkersByID(inventory.workers) && path[i].charge.candidate.eligible
    {
      StageAgrees(inventory, profile, request, path, i);
    }
  }

  lemma MergeIgnoresCount(score: PlanScore, charge: StageCharge, count: nat)
    ensures var plain := MergeStageScore(score, charge);
            MergeStageScore(score.(stageCount := count), charge)
            == if plain.Ok? then Ok(plain.value.(stageCount := count)) else plain
  {
  }

  function EvidenceOf(inventory: Inventory, request: ConstructionRequest, path: Path): (r: seq<StageEvaluation>)
    ensures |r| == |path|
  {
    seq(|path|, i requires 0 <= i < |path| =>
      StageEvidence(CompletePlan(inventory, request, path).stages[i], path[i].charge))
  }

  function StageEvidence(stage: Execution.Stage, charge: StageCharge): StageEvaluation {
    StageEvaluation(stage, charge.candidate, charge.compute, charge.transfer)
  }

  ghost predicate Charges(inventory: Inventory, profile: ProfileSnapshot, plan: Execution.Plan, full: ScoringRequest,
                          charge: StageCharge, i: nat)
    requires i < |plan.stages| == |full.stages| && TargetsPresent(inventory, plan)
  {
    ChargeOf(profile, plan.model, full, WorkersByID(inventory.workers)[plan.stages[i].targetID], charge.candidate,
             plan.stages[i].layerStart, plan.stages[i].layerEnd, full.stages[i]) == Ok(charge)
  }

  /** Merging the charges of a path stage by stage follows its fold. */
  lemma {:induction false} ScoresEach(inventory: Inventory, profile: ProfileSnapshot, plan: Execution.Plan, full: ScoringRequest,
                                      path: Path, evidence: seq<StageEvaluation>, n: nat)
    requires n <= |path| == |plan.stages| == |full.stages| == |evidence| && TargetsPresent(inventory, plan)
    requires forall i :: 0 <= i < n ==> Charges(inventory, profile, plan, full, path[i].charge, i)
    requires forall i :: 0 <= i < |path| ==> evidence[i] == StageEvidence(plan.stages[i], path[i].charge)
    ensures var scored := ScoredStages(inventory, profile, plan, full, CandidatesOf(path), n);
            if Fold(path[..n]).Err? then scored.Err?
            else scored == Ok(Scored(evidence[..n], Fold(path[..n]).value.(stageCount := |path|)))
  {
    hide ChargeOf, WorkersByID, MergeStageScore, TargetsPresent;
    if n > 0 {
      ScoresEach(inventory, profile, plan, full, path, evidence, n - 1);
      assert Charges(inventory, profile, plan, full, path[n - 1].charge, n - 1);
      assert path[..n][..n - 1] == path[..n - 1];
      assert evidence[..n] == evidence[..n - 1] + [evidence[n - 1]];
      var before := Fold(path[..n - 1]);
      if before.Ok? { MergeIgnoresCount(before.value, path[n - 1].charge, |path|); }
    }
  }

  lemma ScoresOptions(inventory: Inventory, profile: ProfileSnapshot, request: ConstructionRequest, path: Path)
    requires UniqueIDs(inventory.workers) && AllOptions(inventory, profile, request, path)
    requires TargetsPresent(inventory, CompletePlan(inventory, request, path))
    ensures var scored := ScoredStages(inventory, profile, CompletePlan(inventory, request, path), FullRequest(request, path),
                                       CandidatesOf(path), |path|);
            if Fold(path).Err? then scored.Err?
            else scored == Ok(Scored(EvidenceOf(inventory, request, path), Fold(path).value.(stageCount := |path|)))
  {
    hide SelectCandidate, RequirementAt, IsOption, UniqueIDs, ChargeOf, WorkersByID, TargetsPresent, ScoredStages, Fold;
    var plan, full, evidence := CompletePlan(inventory, request, path), FullRequest(request, path), EvidenceOf(inventory, request, path);
    forall i | 0 <= i < |path| ensures Charges(inventory, profile, plan, full, path[i].charge, i) {
      StageAgrees(inventory, profile, request, path, i);
    }
    ScoresEach(inventory, profile, plan, full, path, evidence, |path|);
    assert path[..|path|] == path && evidence[..|path|] == evidence;
  }

  function EvaluationOf(inventory: Inventory, request: ConstructionRequest, path: Path): PlanEvaluation
    requires Fold(path).Ok?
  {
    PlanEvaluation(CompletePlan(inventory, request, path), FullRequest(request, path), true,
                   EvidenceOf(inventory, request, path), Fold(path).value)
  }

  lemma FeasibleIsScorable(inventory: Inventory, profile: ProfileSnapshot, request: ConstructionRequest, path: Path)
    requires RequestValid(inventory, profile, request) && RegisteredIDs(inventory)
    requires FeasiblePlan(inventory, profile, request, path)
    ensures Scorable(inventory, profile, CompletePlan(inventory, request, path), FullRequest(request, path))
  {
    hide IsOption, RegisteredIDs, SnapshotsAgree, RangesValid, EstimateValid, Execution.ValidPlan;
    FeasiblePlanIsValid(inventory, profile, request, path);
    forall i | 0 <= i < |path| ensures EstimateValid(path[i].range.estimate, request.scoring.decodeSteps) {
      OptionShape(inventory, profile, request, path[i]);
    }
  }

  /** Full scoring of a feasible path succeeds exactly when its incremental score
      does, and then gives exactly that score. */
  lemma FullScoreAgrees(inventory: Inventory, profile: ProfileSnapshot, request: ConstructionRequest, path: Path)
    requires RequestValid(inventory, profile, request) && RegisteredIDs(inventory)
    requires FeasiblePlan(inventory, profile, request, path)
    ensures var full := ScoreOf(inventory, profile, CompletePlan(inventory, request, path), FullRequest(request, path));
            if Fold(path).Ok? then full == Ok(EvaluationOf(inventory, request, path)) else full.Err?
  {
    hide Scorable, IsOption, RegisteredIDs, RangesValid, Selected, ScoredStages, HeaderValid, Fold,
      TargetsPresent, UniqueIDs, Chained, Distinct;
    FeasibleIsScorable(inventory, profile, request, path);
    SelectsOptions(inventory, profile, request, path);
    OptionsPresent(inventory, profile, request, path);
    ScoresOptions(inventory, profile, request, path);
    if Fold(path).Ok? { CountIsLength(path); }
  }

  // ---------------------------------------------------------------------------
  // Evaluations compare as paths

  lemma IdentityTie(a: Execution.Stage, b: Execution.Stage)
    requires CompareStageIdentity(a, b) == 0
    ensures a == b.(responseMode := a.responseMode) && a.responseMode.Text() == b.responseMode.Text()
  {
  }

  lemma ShardIDsDoNotDecide(model: Execution.Model, a: Execution.Stage, b: Execution.Stage)
    requires a.shardID == b.shardID == ""
    ensures CompareStageIdentity(a.(shardID := Execution.ShardIDOf(model, a)), b.(shardID := Execution.ShardIDOf(model, b)))
            == CompareStageIdentity(a, b)
  {
    hide Execution.ShardIDOf, CompareStrings;
    if CompareStageIdentity(a, b) == 0 {
      IdentityTie(a, b);
      Execution.ShardIDIgnoresNames(model, a, b);
    }
  }

  lemma {:induction false} ShardIDListsDoNotDecide(model: Execution.Model, a: seq<Execution.Stage>, b: seq<Execution.Stage>)
    requires |a| == |b| && forall i :: 0 <= i < |a| ==> a[i].shardID == b[i].shardID == ""
    ensures CompareStageLists(Execution.WithShardIDs(model, a), Execution.WithShardIDs(model, b)) == CompareStageLists(a, b)
  {
    hide Execution.ShardIDOf, CompareStageIdentity;
    if a != [] {
      ShardIDsDoNotDecide(model, a[0], b[0]);
      ShardIDListsDoNotDecide(model, a[1..], b[1..]);
      assert Execution.WithShardIDs(model, a)[1..] == Execution.WithShardIDs(model, a[1..]);
      assert Execution.WithShardIDs(model, b)[1..] == Execution.WithShardIDs(model, b[1..]);
    }
  }

  lemma {:induction false} TiedStagesText(a: seq<Execution.Stage>, b: seq<Execution.Stage>)
    requires |a| == |b| && CompareStageLists(a, b) == 0
    ensures Execution.StagesText(a) == Execution.StagesText(b)
  {
    hide CompareStageIdentity;
    if a != [] {
      IdentityTie(a[0], b[0]);
      TiedStagesText(a[1..], b[1..]);
    }
  }

  lemma EvaluationsCompareAsPaths(inventory: Inventory, request: ConstructionRequest, p: Path, q: Path)
    requires Fold(p).Ok? && Fold(q).Ok?
    ensures ComparePlanEvaluations(EvaluationOf(inventory, request, p), EvaluationOf(inventory, request, q))
            == ComparePaths(request, p, q)
  {
    hide Fold, CostOf, ComparePlanScores, CompareStageIdentity, CompareStageLists, Execution.StagesText;
    ScoresCompareAsCosts(p, q);
    if CompareCosts(CostOf(p), CostOf(q)) == 0 {
      CostCountsStages(p);
      CostCountsStages(q);
      var a, b := StagesOf(request, p), StagesOf(request, q);
      ShardIDListsDoNotDecide(request.model, a, b);
      if CompareStageLists(a, b) == 0 { TiedStagesText(a, b); }
    }
  }

  /** The comparison the search uses between two partial plans. */
  function ComparePartials(request: ConstructionRequest, p: Path, scoreP: PlanScore, q: Path, scoreQ: PlanScore): int {
    var bare := Execution.Plan("", "", "", Execution.Model("", "", 0), []);
    Then(ComparePlanScores(scoreP, scoreQ),
         ComparePlanIdentity(bare.(stages := StagesOf(request, p)), bare.(stages := StagesOf(request, q))))
  }

  lemma PartialsCompareAsPaths(request: ConstructionRequest, p: Path, q: Path)
    requires Fold(p).Ok? && Fold(q).Ok? && |p| == |q|
    ensures ComparePartials(request, p, Fold(p).value, q, Fold(q).value) == ComparePaths(request, p, q)
  {
    hide Fold, CostOf, ComparePlanScores, CompareStageIdentity, CompareStageLists;
    ScoresCompareAsCosts(p, q);
  }

  lemma CountIsLength(path: Path)
    requires Fold(path).Ok?
    ensures Fold(path).value.stageCount == |path|
  {
    FoldExact(path);
    CostCountsStages(path);
  }
}
