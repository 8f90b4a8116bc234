/** What the optimality of a selection means for plan evaluations, and that it does
    not depend on the order of the inputs. */
module PlanTheorems {
  import opened WideArithmetic
  import opened Membership
  import opened Placement
  import opened PlanScoring
  import opened PlanPaths
  import opened PlanOptions
  import opened CompletePlans
  import opened PlanConstruction
  import Execution

  /** Brute force agrees: whatever feasible plan one scores in full, the selected
      evaluation is preferred to it or is that evaluation. */
  lemma SelectedIsPreferred(inventory: Inventory, profile: ProfileSnapshot, request: ConstructionRequest,
                            selected: Option<PlanEvaluation>, q: Path, other: PlanEvaluation)
    requires RequestValid(inventory, profile, request) && RegisteredIDs(inventory)
    requires Optimal(inventory, profile, request, selected)
    requires FeasiblePlan(inventory, profile, request, q)
    requires ScoreOf(inventory, profile, CompletePlan(inventory, request, q), FullRequest(request, q)) == Ok(other)
    ensures selected.Some? && (selected.value == other || ComparePlanEvaluations(selected.value, other) < 0)
  {
    hide RequestValid, RegisteredIDs, FeasiblePlan, ScoreOf, Fold, EvaluationOf, ComparePlanEvaluations, ComparePaths;
    FullScoreAgrees(inventory, profile, request, q);
    var best :| UniqueBest(inventory, profile, request, best) && Fold(best).Ok?
                && selected.value == EvaluationOf(inventory, request, best);
    if best != q { EvaluationsCompareAsPaths(inventory, request, best, q); }
  }

  /** The selected evaluation is itself the full score of a feasible plan. */
  lemma SelectedIsFeasible(inventory: Inventory, profile: ProfileSnapshot, request: ConstructionRequest, selected: PlanEvaluation)
    returns (path: Path)
    requires RequestValid(inventory, profile, request) && RegisteredIDs(inventory)
    requires Optimal(inventory, profile, request, Some(selected))
    ensures FeasiblePlan(inventory, profile, request, path) && Fold(path).Ok?
    ensures selected == EvaluationOf(inventory, request, path)
    ensures ScoreOf(inventory, profile, selected.plan, selected.request) == Ok(selected)
  {
    hide RequestValid, RegisteredIDs, FeasiblePlan, ScoreOf, Fold, EvidenceOf;
    path :| UniqueBest(inventory, profile, request, path) && Fold(path).Ok?
            && selected == EvaluationOf(inventory, request, path);
    FullScoreAgrees(inventory, profile, request, path);
  }

  /** Two inputs that differ only in the order of workers and ranges. */
  ghost predicate Reordered(inventory: Inventory, request: ConstructionRequest, inventory': Inventory, request': ConstructionRequest) {
    && inventory' == inventory.(workers := inventory'.workers)
    && multiset(inventory'.workers) == multiset(inventory.workers)
    && request' == request.(ranges := request'.ranges)
    && multiset(request'.ranges) == multiset(request.ranges)
  }

  lemma NormalizeReordered(inventory: Inventory, request: ConstructionRequest, inventory': Inventory, request': ConstructionRequest)
    requires Reordered(inventory, request, inventory', request')
    ensures Reordered(inventory, Normalize(request), inventory', Normalize(request'))
  {
    SortRangesSorts(request.ranges);
    SortRangesSorts(request'.ranges);
  }

  lemma OptionsReordered(inventory: Inventory, profile: ProfileSnapshot, request: ConstructionRequest,
                         inventory': Inventory, request': ConstructionRequest, edge: Edge)
    requires Reordered(inventory, request, inventory', request')
    ensures IsOption(inventory, profile, request, edge) == IsOption(inventory', profile, request', edge)
  {
    hide RequirementValid, EvaluateCandidate, ChargeOf, RequirementOf;
    assert edge.range in request.ranges <==> edge.range in multiset(request.ranges);
    assert edge.range in request'.ranges <==> edge.range in multiset(request'.ranges);
    assert edge.charge.worker in inventory.workers <==> edge.charge.worker in multiset(inventory.workers);
    assert edge.charge.worker in inventory'.workers <==> edge.charge.worker in multiset(inventory'.workers);
    var r := RangeRequirement(request, edge.range);
    assert RangeRequirement(request', edge.range) == r;
    if RequirementValid(r) {
      assert CandidateOf(inventory, r, edge.charge.worker) == CandidateOf(inventory', r, edge.charge.worker);
    }
    assert EdgeFor(inventory, profile, request, edge.range, edge.charge.worker)
        == EdgeFor(inventory', profile, request', edge.range, edge.charge.worker);
  }

  lemma FeasibleReordered(inventory: Inventory, profile: ProfileSnapshot, request: ConstructionRequest,
                          inventory': Inventory, request': ConstructionRequest, path: Path)
    requires Reordered(inventory, request, inventory', request')
    ensures FeasiblePlan(inventory, profile, request, path) == FeasiblePlan(inventory', profile, request', path)
  {
    hide IsOption, Reordered;
    forall edge ensures IsOption(inventory, profile, request, edge) == IsOption(inventory', profile, request', edge) {
      OptionsReordered(inventory, profile, request, inventory', request', edge);
    }
    assert request'.maxStages == request.maxStages && request'.model == request.model by { ReorderedKeeps(inventory, request, inventory', request'); }
  }

  lemma ReorderedKeeps(inventory: Inventory, request: ConstructionRequest, inventory': Inventory, request': ConstructionRequest)
    requires Reordered(inventory, request, inventory', request')
    ensures request'.maxStages == request.maxStages && request'.model == request.model
    ensures request'.scoring == request.scoring && request'.terminalResponseMode == request.terminalResponseMode
    ensures inventory'.revision == inventory.revision
  {
  }

  lemma PathsReordered(request: ConstructionRequest, request': ConstructionRequest, p: Path, q: Path)
    requires request'.model == request.model && request'.terminalResponseMode == request.terminalResponseMode
    ensures StagesOf(request, p) == StagesOf(request', p)
    ensures ComparePaths(request, p, q) == ComparePaths(request', p, q)
  {
    hide CostOf, CompareStageLists, CompareCosts;
    assert StagesOf(request, p) == StagesOf(request', p);
    assert StagesOf(request, q) == StagesOf(request', q);
  }

  lemma EvaluationReordered(inventory: Inventory, request: ConstructionRequest, inventory': Inventory, request': ConstructionRequest, path: Path)
    requires request'.model == request.model && request'.terminalResponseMode == request.terminalResponseMode
    requires request'.scoring == request.scoring && inventory'.revision == inventory.revision && Fold(path).Ok?
    ensures EvaluationOf(inventory, request, path) == EvaluationOf(inventory', request', path)
  {
    hide Fold, Execution.FinalizedPlan;
    PathsReordered(request, request', path, path);
    assert CompletePlan(inventory, request, path) == CompletePlan(inventory', request', path);
    assert EvidenceOf(inventory, request, path) == EvidenceOf(inventory', request', path);
  }

  /** Permuting inventory workers or input ranges does not change the selection. */
  lemma SelectionIgnoresOrder(inventory: Inventory, profile: ProfileSnapshot, request: ConstructionRequest,
                              inventory': Inventory, request': ConstructionRequest,
                              selected: Option<PlanEvaluation>, selected': Option<PlanEvaluation>)
    requires Reordered(inventory, request, inventory', request')
    requires Optimal(inventory, profile, Normalize(request), selected)
    requires Optimal(inventory', profile, Normalize(request'), selected')
    ensures selected == selected'
  {
    hide Reordered, FeasiblePlan, Fold, EvaluationOf, ComparePaths, Normalize;
    var r, r' := Normalize(request), Normalize(request');
    NormalizeReordered(inventory, request, inventory', request');
    ReorderedKeeps(inventory, r, inventory', r');
    forall path ensures FeasiblePlan(inventory, profile, r, path) == FeasiblePlan(inventory', profile, r', path) {
      FeasibleReordered(inventory, profile, r, inventory', r', path);
    }
    if selected.Some? && selected'.Some? {
      var p :| UniqueBest(inventory, profile, r, p) && Fold(p).Ok? && selected.value == EvaluationOf(inventory, r, p);
      var q :| UniqueBest(inventory', profile, r', q) && Fold(q).Ok? && selected'.value == EvaluationOf(inventory', r', q);
      if p != q {
        PathsFlip(r, p, q);
        PathsReordered(r, r', q, p);
      }
      EvaluationReordered(inventory, r, inventory', r', p);
    }
  }
}
