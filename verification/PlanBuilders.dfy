/** The balanced split and the ownership-aware split of a model's layers. */
module PlanBuilders {
  import opened WideArithmetic
  import opened Text
  import opened Execution

  function Sum(sizes: seq<int>): int {
    if sizes == [] then 0 else Sum(sizes[..|sizes| - 1]) + sizes[|sizes| - 1]
  }

  function ModeAt(i: int, n: int, terminal: ResponseMode): ResponseMode {
    if i == n - 1 then terminal else Tensor
  }

  function StageFor(targetIDs: seq<string>, sizes: seq<int>, terminal: ResponseMode, i: nat): Stage
    requires i < |targetIDs| == |sizes|
  {
    Stage("stage-" + Decimal(i), targetIDs[i], "", Sum(sizes[..i]), Sum(sizes[..i + 1]),
          i == 0, i == |targetIDs| - 1, ModeAt(i, |targetIDs|, terminal))
  }

  /** Consecutive stages of the given sizes. */
  function StagesFor(targetIDs: seq<string>, sizes: seq<int>, terminal: ResponseMode, n: nat): (r: seq<Stage>)
    requires n <= |targetIDs| == |sizes|
    ensures |r| == n && forall i :: 0 <= i < n ==> r[i] == StageFor(targetIDs, sizes, terminal, i)
  {
    seq(n, i requires 0 <= i < n => StageFor(targetIDs, sizes, terminal, i))
  }

  lemma SumSnoc(sizes: seq<int>, i: nat)
    requires i < |sizes|
    ensures Sum(sizes[..i + 1]) == Sum(sizes[..i]) + sizes[i]
  {
    assert sizes[..i + 1][..i] == sizes[..i];
  }

  lemma {:induction false} SumGrows(sizes: seq<int>, i: nat, j: nat)
    requires i <= j <= |sizes| && forall k :: 0 <= k < |sizes| ==> sizes[k] > 0
    ensures Sum(sizes[..i]) + (j - i) <= Sum(sizes[..j])
    decreases j
  {
    if i < j {
      SumGrows(sizes, i, j - 1);
      SumSnoc(sizes, j - 1);
    }
  }

  ghost predicate TargetsDistinct(targetIDs: seq<string>) {
    && (forall i :: 0 <= i < |targetIDs| ==> targetIDs[i] != "")
    && (forall i, j :: 0 <= i < j < |targetIDs| ==> targetIDs[i] != targetIDs[j])
  }

  ghost predicate ModelComplete(model: Model) {
    model.id != "" && model.checkpointFingerprint != "" && model.layerCount > 0
  }

  lemma NamesDiffer(i: nat, j: nat)
    requires i != j
    ensures "stage-" + Decimal(i) != "stage-" + Decimal(j)
  {
    if "stage-" + Decimal(i) == "stage-" + Decimal(j) {
      PrefixCancels("stage-", Decimal(i), Decimal(j));
      DecimalInjective(i, j);
    }
  }

  lemma SizedStagesTile(targetIDs: seq<string>, sizes: seq<int>, terminal: ResponseMode)
    requires |targetIDs| == |sizes| > 0
    ensures var stages := StagesFor(targetIDs, sizes, terminal, |targetIDs|);
            Contiguous(stages) && stages[|stages| - 1].layerEnd == Sum(sizes)
  {
    hide Sum, Decimal;
    EmptySum(sizes);
  }

  lemma SizedNamesDistinct(targetIDs: seq<string>, sizes: seq<int>, terminal: ResponseMode)
    requires |targetIDs| == |sizes| && TargetsDistinct(targetIDs)
    ensures var stages := StagesFor(targetIDs, sizes, terminal, |targetIDs|);
            DistinctBy(stages, (s: Stage) => s.name) && DistinctBy(stages, (s: Stage) => s.targetID)
  {
    hide Sum, Decimal;
    var stages := StagesFor(targetIDs, sizes, terminal, |targetIDs|);
    forall i, j | 0 <= i < j < |stages| ensures stages[i].name != stages[j].name { NamesDiffer(i, j); }
  }

  lemma UsableSizesAreComplete(model: Model, targetIDs: seq<string>, sizes: seq<int>, terminal: ResponseMode)
    requires |targetIDs| == |sizes| > 0 && Sum(sizes) == model.layerCount && forall k :: 0 <= k < |sizes| ==> sizes[k] > 0
    requires ModelComplete(model) && TargetsDistinct(targetIDs) && !terminal.Unsupported?
    ensures StagesComplete(model, StagesFor(targetIDs, sizes, terminal, |targetIDs|))
  {
    hide StageComplete, Sum, Contiguous, DistinctBy, TargetsDistinct, StageFor;
    var stages := StagesFor(targetIDs, sizes, terminal, |targetIDs|);
    forall i | 0 <= i < |stages| ensures StageComplete(model, stages, i) {
      SizedStageComplete(model, targetIDs, sizes, terminal, i);
    }
    SizedStagesTile(targetIDs, sizes, terminal);
    SizedNamesDistinct(targetIDs, sizes, terminal);
    EmptySum(sizes);
    SumGrows(sizes, 0, |sizes|);
  }

  lemma EmptySum(sizes: seq<int>)
    ensures Sum(sizes[..0]) == 0 && Sum(sizes[..|sizes|]) == Sum(sizes)
  {
    assert sizes[..|sizes|] == sizes;
  }

  /** Positive sizes that add up to the model make a valid plan exactly when model,
      targets and terminal mode are usable. */
  lemma SizesMakeValidPlan(model: Model, inventoryRevision: string, targetIDs: seq<string>, sizes: seq<int>, terminal: ResponseMode)
    requires |targetIDs| == |sizes| > 0 && Sum(sizes) == model.layerCount && forall k :: 0 <= k < |sizes| ==> sizes[k] > 0
    ensures ValidPlan(FinalizedPlan(model, inventoryRevision, StagesFor(targetIDs, sizes, terminal, |targetIDs|)))
            <==> ModelComplete(model) && TargetsDistinct(targetIDs) && !terminal.Unsupported?
  {
    hide ValidPlan, StagesComplete, ModelComplete, TargetsDistinct, FinalizedPlan, StagesFor;
    if ModelComplete(model) && TargetsDistinct(targetIDs) && !terminal.Unsupported? {
      UsableSizesAreComplete(model, targetIDs, sizes, terminal);
      CompleteStagesMakeValidPlan(model, inventoryRevision, StagesFor(targetIDs, sizes, terminal, |targetIDs|));
    }
    if ValidPlan(FinalizedPlan(model, inventoryRevision, StagesFor(targetIDs, sizes, terminal, |targetIDs|))) {
      ValidPlanHasUsableInputs(model, inventoryRevision, targetIDs, sizes, terminal);
    }
  }

  lemma SizedStageComplete(model: Model, targetIDs: seq<string>, sizes: seq<int>, terminal: ResponseMode, i: nat)
    requires i < |targetIDs| == |sizes| && Sum(sizes) == model.layerCount && forall k :: 0 <= k < |sizes| ==> sizes[k] > 0
    requires TargetsDistinct(targetIDs) && !terminal.Unsupported?
    ensures StageComplete(model, StagesFor(targetIDs, sizes, terminal, |targetIDs|), i)
  {
    SumSnoc(sizes, i);
    SumGrows(sizes, 0, i);
    SumGrows(sizes, i + 1, |sizes|);
    assert sizes[..|sizes|] == sizes;
  }

  lemma ValidPlanHasUsableInputs(model: Model, inventoryRevision: string, targetIDs: seq<string>, sizes: seq<int>, terminal: ResponseMode)
    requires |targetIDs| == |sizes| > 0
    requires ValidPlan(FinalizedPlan(model, inventoryRevision, StagesFor(targetIDs, sizes, terminal, |targetIDs|)))
    ensures ModelComplete(model) && TargetsDistinct(targetIDs) && !terminal.Unsupported?
  {
    hide ShardIDOf, PlanRevision;
    var plan := FinalizedPlan(model, inventoryRevision, StagesFor(targetIDs, sizes, terminal, |targetIDs|));
    forall i | 0 <= i < |targetIDs| ensures targetIDs[i] != "" {
      assert StageWellFormed(plan, i);
    }
    forall i, j | 0 <= i < j < |targetIDs| ensures targetIDs[i] != targetIDs[j] {
      DistinctMeansNoClash(plan, i, j);
    }
    assert StageWellFormed(plan, |targetIDs| - 1);
  }

  // ---------------------------------------------------------------------------
  // Even sizes

  /** The share of one of n parts; the first parts take the remainder. */
  function Share(total: int, n: int, i: int): int
    requires n > 0
  {
    total / n + (if i < total % n then 1 else 0)
  }

  function Shares(total: int, n: nat): (r: seq<int>)
    requires n > 0
    ensures |r| == n && forall i :: 0 <= i < n ==> r[i] == Share(total, n, i)
  {
    seq(n, i requires 0 <= i < n => Share(total, n, i))
  }

  lemma {:induction false} SharesPrefix(total: int, n: nat, i: nat)
    requires n > 0 && i <= n
    ensures Sum(Shares(total, n)[..i]) == i * (total / n) + (if i < total % n then i else total % n)
  {
    if i > 0 {
      SharesPrefix(total, n, i - 1);
      SumSnoc(Shares(total, n), i - 1);
      Distribute(i, total / n);
    }
  }

  lemma Distribute(i: int, x: int)
    ensures i * x == (i - 1) * x + x
  {
  }

  /** The shares add up exactly and differ by at most one, larger ones first. */
  lemma SharesAreEven(total: int, n: nat)
    requires n > 0
    ensures Sum(Shares(total, n)) == total
    ensures forall i, j :: 0 <= i < j < n ==> 0 <= Shares(total, n)[i] - Shares(total, n)[j] <= 1
  {
    SharesPrefix(total, n, n);
    assert Shares(total, n)[..n] == Shares(total, n);
  }

  lemma EnoughLayersEach(total: int, n: nat, i: nat)
    requires 0 < n <= total && i < n
    ensures Share(total, n, i) > 0
  {
    if total / n <= 0 { MulMonotone(total / n, 0, n); }
  }

  // ---------------------------------------------------------------------------
  // The builders

  /** Lays out the ranges one after another. */
  method BalancedStages(model: Model, targetIDs: seq<string>, terminal: ResponseMode) returns (stages: seq<Stage>)
    requires targetIDs != []
    ensures stages == StagesFor(targetIDs, Shares(model.layerCount, |targetIDs|), terminal, |targetIDs|)
  {
    hide Sum, Decimal;
    var n := |targetIDs|;
    ghost var sizes := Shares(model.layerCount, n);
    stages := [];
    var base, remainder := model.layerCount / n, model.layerCount % n;
    var start := 0;
    EmptySum(sizes);
    for index := 0 to n
      invariant start == Sum(sizes[..index]) && stages == StagesFor(targetIDs, sizes, terminal, index)
    {
      var size := if index < remainder then base + 1 else base;
      SumSnoc(sizes, index);
      var end := start + size;
      stages := stages + [Stage("stage-" + Decimal(index), targetIDs[index], "", start, end, index == 0, index == n - 1,
                                ModeAt(index, n, terminal))];
      start := end;
    }
  }

  /** What the balanced sizes amount to. */
  lemma BalancedSizes(model: Model, targetIDs: seq<string>, terminal: ResponseMode)
    requires 0 < |targetIDs| && (model.layerCount > 0 ==> |targetIDs| <= model.layerCount)
    ensures var stages := StagesFor(targetIDs, Shares(model.layerCount, |targetIDs|), terminal, |targetIDs|);
            && (ValidPlan(FinalizedPlan(model, "", stages))
                <==> ModelComplete(model) && TargetsDistinct(targetIDs) && !terminal.Unsupported?)
            && forall i :: 0 <= i < |targetIDs| ==>
                 stages[i].layerEnd - stages[i].layerStart == Share(model.layerCount, |targetIDs|, i)
  {
    hide ValidPlan, TargetsDistinct, FinalizedPlan, Sum, Share, Decimal;
    var n := |targetIDs|;
    var sizes := Shares(model.layerCount, n);
    forall i | 0 <= i < n ensures Sum(sizes[..i + 1]) - Sum(sizes[..i]) == sizes[i] { SumSnoc(sizes, i); }
    if model.layerCount > 0 {
      forall i | 0 <= i < n ensures sizes[i] > 0 { EnoughLayersEach(model.layerCount, n, i); }
      SharesAreEven(model.layerCount, n);
      SizesMakeValidPlan(model, "", targetIDs, sizes, terminal);
    } else {
      NoLayersNoPlan(model, "", StagesFor(targetIDs, sizes, terminal, n));
    }
  }

  /** A contiguous split into nearly equal ranges. */
  method BuildBalancedExecutionPlan(model: Model, targetIDs: seq<string>, terminal: ResponseMode) returns (r: Result<Plan, BuildError>)
    ensures r.Ok? <==> targetIDs != [] && |targetIDs| <= model.layerCount && ModelComplete(model)
                       && TargetsDistinct(targetIDs) && !terminal.Unsupported?
    ensures r.Ok? ==> ValidPlan(r.value) && r.value.model == model && |r.value.stages| == |targetIDs|
    ensures r.Ok? ==> forall i :: 0 <= i < |targetIDs| ==>
              && r.value.stages[i].targetID == targetIDs[i]
              && r.value.stages[i].layerEnd - r.value.stages[i].layerStart == Share(model.layerCount, |targetIDs|, i)
  {
    hide ValidPlan, TargetsDistinct, Share, Shares, ShardIDOf, PlanRevision;
    if targetIDs == [] { return Err(TargetsRequired); }
    if model.layerCount > 0 && |targetIDs| > model.layerCount { return Err(TooManyStages); }
    var stages := BalancedStages(model, targetIDs, terminal);
    BalancedSizes(model, targetIDs, terminal);
    r := BuildExecutionPlan(model, "", stages);
  }

  lemma NoLayersNoPlan(model: Model, inventoryRevision: string, stages: seq<Stage>)
    requires model.layerCount <= 0
    ensures !ValidPlan(FinalizedPlan(model, inventoryRevision, stages))
  {
  }

  /** The sizes of the ownership-aware split: even shares of the layers plus both
      reserves, less the reserve at each edge. */
  function ReservedSizes(layerCount: int, n: nat, reserve: int): (r: seq<int>)
    requires n >= 2
    ensures |r| == n
  {
    var even := Shares(layerCount + 2 * reserve, n);
    even[0 := even[0] - reserve][n - 1 := even[n - 1] - reserve]
  }

  lemma {:induction false} SumUpdate(sizes: seq<int>, i: nat, v: int)
    requires i < |sizes|
    ensures Sum(sizes[i := v]) == Sum(sizes) - sizes[i] + v
  {
    var n := |sizes| - 1;
    if i == n {
      assert sizes[i := v][..n] == sizes[..n];
    } else {
      SumUpdate(sizes[..n], i, v);
      assert sizes[i := v][..n] == sizes[..n][i := v];
    }
  }

  /** The two reserves added to the total and taken from the edges cancel exactly. */
  lemma ReservesCancel(layerCount: int, n: nat, reserve: int)
    requires n >= 2
    ensures Sum(ReservedSizes(layerCount, n, reserve)) == layerCount
  {
    var even := Shares(layerCount + 2 * reserve, n);
    SharesAreEven(layerCount + 2 * reserve, n);
    SumUpdate(even, 0, even[0] - reserve);
    SumUpdate(even[0 := even[0] - reserve], n - 1, even[n - 1] - reserve);
  }

  ghost predicate AllPositive(sizes: seq<int>) {
    forall i :: 0 <= i < |sizes| ==> sizes[i] > 0
  }

  // Machine integers: 64-bit, wrapping, with division truncated toward zero.

  const MAX_INT: int := 0x7FFF_FFFF_FFFF_FFFF

  function Wrapped(x: int): (r: int)
    ensures -MAX_INT - 1 <= r <= MAX_INT
    ensures -MAX_INT - 1 <= x <= MAX_INT ==> r == x
    ensures MAX_INT < x <= MAX_INT + TWO_64 ==> r == x - TWO_64
  {
    (x + MAX_INT + 1) % TWO_64 - MAX_INT - 1
  }

  function Quotient(a: int, n: nat): int
    requires n > 0
  {
    if a >= 0 then a / n else -(-a / n)
  }

  function Remainder(a: int, n: nat): int
    requires n > 0
  {
    a - n * Quotient(a, n)
  }

  lemma HalfBounds(a: nat, n: nat)
    requires n >= 2
    ensures 0 <= a / n <= a / 2 && a / n * n <= a
  {
    var q := a / n;
    assert q * (n - 2) >= 0;
    assert q * 2 <= q * n <= a;
  }

  lemma TruncatedBounds(a: int, n: nat)
    requires n >= 2
    ensures a >= 0 ==> 0 <= Quotient(a, n) <= a / 2 && Remainder(a, n) == a % n
    ensures a < 0 ==> a / 2 <= Quotient(a, n) <= 0 && Remainder(a, n) <= 0
  {
    if a >= 0 { HalfBounds(a, n); } else { HalfBounds(-a, n); }
  }

  /** When the virtual layer count wraps, the first stage is left without a layer. */
  lemma WrappedEdge(layerCount: int, n: nat, reserve: int)
    requires 2 <= n <= layerCount <= MAX_INT && 0 <= reserve <= MAX_INT && layerCount + 2 * reserve > MAX_INT
    ensures var layers := Wrapped(layerCount + 2 * reserve);
            Wrapped(Quotient(layers, n) + (if 0 < Remainder(layers, n) then 1 else 0) - reserve) <= 0
  {
    var layers := Wrapped(layerCount + 2 * reserve);
    assert layers == layerCount + 2 * reserve - TWO_64;
    TruncatedBounds(layers, n);
  }

  /** Fills the sizes in place, then takes the reserve from both ends, in machine
      integers: exact when the virtual layer count fits, and refused later when not. */
  method FillSizes(layerCount: int, n: nat, reserve: int) returns (sizes: array<int>)
    requires 2 <= n <= layerCount <= MAX_INT && 0 <= reserve <= MAX_INT
    ensures fresh(sizes) && sizes.Length == n
    ensures if layerCount + 2 * reserve <= MAX_INT then sizes[..] == ReservedSizes(layerCount, n, reserve) else sizes[0] <= 0
  {
    var virtualLayers := Wrapped(layerCount + 2 * reserve);
    var base, remainder := Quotient(virtualLayers, n), Remainder(virtualLayers, n);
    TruncatedBounds(virtualLayers, n);
    if layerCount + 2 * reserve > MAX_INT { WrappedEdge(layerCount, n, reserve); }
    hide Quotient, Remainder, Wrapped;
    sizes := new int[n];
    for index := 0 to n
      invariant forall i :: 0 <= i < index ==> sizes[i] == base + (if i < remainder then 1 else 0)
    {
      sizes[index] := base;
      if index < remainder { sizes[index] := sizes[index] + 1; }
    }
    ghost var even := sizes[..];
    sizes[0] := Wrapped(sizes[0] - reserve);
    sizes[n - 1] := Wrapped(sizes[n - 1] - reserve);
    if layerCount + 2 * reserve <= MAX_INT {
      SharesTruncated(virtualLayers, n);
      assert even == Shares(layerCount + 2 * reserve, n);
      assert sizes[..] == even[0 := even[0] - reserve][n - 1 := even[n - 1] - reserve];
    }
  }

  lemma SharesTruncated(layers: nat, n: nat)
    requires n >= 2
    ensures forall i :: 0 <= i < n ==>
              Shares(layers, n)[i] == Quotient(layers, n) + (if i < Remainder(layers, n) then 1 else 0)
  {
    TruncatedBounds(layers, n);
  }

  /** Refuses a reserve that leaves some stage without a layer. */
  method SizesPositive(sizes: array<int>) returns (positive: bool)
    ensures positive <==> AllPositive(sizes[..])
  {
    for index := 0 to sizes.Length
      invariant forall i :: 0 <= i < index ==> sizes[i] > 0
    {
      if sizes[index] <= 0 {
        assert sizes[..][index] <= 0;
        return false;
      }
    }
    return true;
  }

  lemma FirstPositive(sizes: seq<int>)
    requires sizes != [] && AllPositive(sizes)
    ensures sizes[0] > 0
  {
  }

  method ReservedStages(targetIDs: seq<string>, sizes: array<int>) returns (stages: seq<Stage>)
    requires |targetIDs| == sizes.Length
    ensures stages == StagesFor(targetIDs, sizes[..], SampledToken, |targetIDs|)
  {
    hide Sum, Decimal;
    ghost var parts := sizes[..];
    stages := [];
    var start := 0;
    EmptySum(parts);
    for index := 0 to |targetIDs|
      invariant sizes[..] == parts
      invariant start == Sum(parts[..index]) && stages == StagesFor(targetIDs, parts, SampledToken, index)
    {
      SumSnoc(parts, index);
      var end := start + sizes[index];
      stages := stages + [Stage("stage-" + Decimal(index), targetIDs[index], "", start, end, index == 0, index == |targetIDs| - 1,
                                ModeAt(index, |targetIDs|, SampledToken))];
      start := end;
    }
  }

  /** What the reserved sizes amount to when they are positive. */
  lemma PositiveReserve(model: Model, inventoryRevision: string, targetIDs: seq<string>, reserve: int)
    requires |targetIDs| >= 2 && AllPositive(ReservedSizes(model.layerCount, |targetIDs|, reserve))
    ensures var sizes := ReservedSizes(model.layerCount, |targetIDs|, reserve);
            var stages := StagesFor(targetIDs, sizes, SampledToken, |targetIDs|);
            && (ValidPlan(FinalizedPlan(model, inventoryRevision, stages)) <==> ModelComplete(model) && TargetsDistinct(targetIDs))
            && forall i :: 0 <= i < |targetIDs| ==> stages[i].layerEnd - stages[i].layerStart == sizes[i]
  {
    hide ValidPlan, TargetsDistinct, FinalizedPlan, Sum, Decimal, ReservedSizes;
    var sizes := ReservedSizes(model.layerCount, |targetIDs|, reserve);
    ReservesCancel(model.layerCount, |targetIDs|, reserve);
    SizesMakeValidPlan(model, inventoryRevision, targetIDs, sizes, SampledToken);
    forall i | 0 <= i < |targetIDs| ensures Sum(sizes[..i + 1]) - Sum(sizes[..i]) == sizes[i] { SumSnoc(sizes, i); }
  }

  /** Keeps embedding and output ownership off the layer-heavy middle stages. */
  method OwnershipAwarePlan(model: Model, inventoryRevision: string, targetIDs: seq<string>, reserve: int)
    returns (r: Result<Plan, BuildError>)
    requires model.layerCount <= MAX_INT && |targetIDs| <= MAX_INT && reserve <= MAX_INT
    ensures r.Ok? <==> |targetIDs| >= 2 && |targetIDs| <= model.layerCount && reserve >= 0
                       && model.layerCount + 2 * reserve <= MAX_INT
                       && AllPositive(ReservedSizes(model.layerCount, |targetIDs|, reserve))
                       && ModelComplete(model) && TargetsDistinct(targetIDs)
    ensures r.Ok? ==> ValidPlan(r.value) && r.value.model == model && |r.value.stages| == |targetIDs|
    ensures r.Ok? ==> forall i :: 0 <= i < |targetIDs| ==>
              && r.value.stages[i].targetID == targetIDs[i]
              && r.value.stages[i].layerEnd - r.value.stages[i].layerStart
                 == ReservedSizes(model.layerCount, |targetIDs|, reserve)[i]
  {
    hide ValidPlan, ShardIDOf, PlanRevision, TargetsDistinct, ReservedSizes, AllPositive;
    if |targetIDs| < 2 { return Err(TargetsRequired); }
    if model.layerCount < |targetIDs| { return Err(TooManyStages); }
    if reserve < 0 { return Err(EdgeReserve); }
    var sizes := FillSizes(model.layerCount, |targetIDs|, reserve);
    var positive := SizesPositive(sizes);
    if !positive {
      assert model.layerCount + 2 * reserve <= MAX_INT ==>
          !AllPositive(ReservedSizes(model.layerCount, |targetIDs|, reserve));
      return Err(EdgeReserve);
    }
    FirstPositive(sizes[..]);
    var stages := ReservedStages(targetIDs, sizes);
    PositiveReserve(model, inventoryRevision, targetIDs, reserve);
    r := BuildExecutionPlan(model, inventoryRevision, stages);
  }
}
