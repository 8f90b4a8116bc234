/** Execution plans: an ordered contiguous split of a model's layers over
    distinct targets, its validation and its construction. */
module Execution {
  import opened Text
  import opened WideArithmetic

  const SCHEMA_VERSION := "2"

  datatype ResponseMode = Tensor | SampledToken | Unsupported(name: string) {
    function Text(): string {
      match this
      case Tensor => "tensor"
      case SampledToken => "sampledToken"
      case Unsupported(name) => name
    }
  }

  datatype Model = Model(id: string, checkpointFingerprint: string, layerCount: int)

  datatype Stage = Stage(
    name: string, targetID: string, shardID: string, layerStart: int, layerEnd: int,
    ownsInput: bool, ownsOutput: bool, responseMode: ResponseMode)

  datatype Plan = Plan(
    schemaVersion: string, revision: string, inventoryRevision: string,
    model: Model, stages: seq<Stage>)

  function IntText(n: int): string {
    if n < 0 then "-" + Decimal(-n) else Decimal(n)
  }

  function BoolText(b: bool): string {
    if b then "true" else "false"
  }

  /** The text whose digest identifies one loadable layer range of a model.  It
      stands for the truncated SHA-256 of the same fields. */
  function ShardDigest(model: Model, stage: Stage): string {
    SCHEMA_VERSION + "," + model.id + "," + model.checkpointFingerprint + "," + IntText(model.layerCount) + ","
    + IntText(stage.layerStart) + "," + IntText(stage.layerEnd) + ","
    + BoolText(stage.ownsInput) + "," + BoolText(stage.ownsOutput)
  }

  const SHARD_PREFIX := "generate-shard-"

  function ShardTail(model: Model, stage: Stage): string {
    IntText(stage.layerEnd) + "-" + ShardDigest(model, stage)
  }

  function ShardIDOf(model: Model, stage: Stage): (id: string)
    ensures id != ""
  {
    SHARD_PREFIX + (IntText(stage.layerStart) + "-" + ShardTail(model, stage))
  }

  lemma PrefixCancels(p: string, a: string, b: string)
    requires p + a == p + b
    ensures a == b
  {
    assert a == (p + a)[|p|..] && b == (p + b)[|p|..];
  }

  /** Equal shard IDs mean equal layer ranges and equal digests. */
  lemma ShardIDsSeparateRanges(m1: Model, s1: Stage, m2: Model, s2: Stage)
    requires 0 <= s1.layerStart && 0 <= s2.layerStart
    requires ShardIDOf(m1, s1) == ShardIDOf(m2, s2)
    ensures s1.layerStart == s2.layerStart
    ensures 0 <= s1.layerEnd && 0 <= s2.layerEnd ==>
              s1.layerEnd == s2.layerEnd && ShardDigest(m1, s1) == ShardDigest(m2, s2)
  {
    hide ShardDigest;
    var r1, r2 := ShardTail(m1, s1), ShardTail(m2, s2);
    var t1, t2 := Decimal(s1.layerStart) + "-" + r1, Decimal(s2.layerStart) + "-" + r2;
    PrefixCancels(SHARD_PREFIX, t1, t2);
    DashSplitUnique(Decimal(s1.layerStart), r1, Decimal(s2.layerStart), r2);
    DecimalInjective(s1.layerStart, s2.layerStart);
    if 0 <= s1.layerEnd && 0 <= s2.layerEnd {
      DashSplitUnique(Decimal(s1.layerEnd), ShardDigest(m1, s1), Decimal(s2.layerEnd), ShardDigest(m2, s2));
      DecimalInjective(s1.layerEnd, s2.layerEnd);
    }
  }

  function StagesText(stages: seq<Stage>): string {
    if stages == [] then "" else
      var s := stages[0];
      s.name + "," + s.targetID + "," + IntText(s.layerStart) + "," + IntText(s.layerEnd) + ","
      + BoolText(s.ownsInput) + "," + BoolText(s.ownsOutput) + "," + s.responseMode.Text() + ";"
      + StagesText(stages[1..])
  }

  /** The text whose digest is the plan revision.  Shard IDs are not part of it. */
  function PlanRevision(plan: Plan): string {
    plan.schemaVersion + "," + plan.inventoryRevision + "," + plan.model.id + ","
    + plan.model.checkpointFingerprint + "," + IntText(plan.model.layerCount) + ";" + StagesText(plan.stages)
  }

  // ---------------------------------------------------------------------------
  // Validation

  ghost predicate DistinctBy<T(!new), K>(items: seq<T>, key: T -> K) {
    forall i, j :: 0 <= i < j < |items| ==> key(items[i]) != key(items[j])
  }

  /** Every stage is complete on its own: identities, range, ownership, mode. */
  ghost predicate StageWellFormed(plan: Plan, i: int)
    requires 0 <= i < |plan.stages|
  {
    var s := plan.stages[i];
    && s.name != "" && s.targetID != ""
    && s.shardID == ShardIDOf(plan.model, s)
    && s.layerStart < s.layerEnd <= plan.model.layerCount
    && s.ownsInput == (i == 0)
    && s.ownsOutput == (i == |plan.stages| - 1)
    && (if s.ownsOutput then !s.responseMode.Unsupported? else s.responseMode == Tensor)
  }

  /** Consecutive stages tile [0, end of the last). */
  ghost predicate Contiguous(stages: seq<Stage>) {
    && (stages != [] ==> stages[0].layerStart == 0)
    && (forall i :: 0 < i < |stages| ==> stages[i].layerStart == stages[i - 1].layerEnd)
  }

  ghost predicate ValidPlan(plan: Plan) {
    && plan.schemaVersion == SCHEMA_VERSION
    && plan.model.id != "" && plan.model.checkpointFingerprint != "" && plan.model.layerCount > 0
    && 0 < |plan.stages| <= plan.model.layerCount
    && (forall i :: 0 <= i < |plan.stages| ==> StageWellFormed(plan, i))
    && DistinctBy(plan.stages, (s: Stage) => s.name)
    && DistinctBy(plan.stages, (s: Stage) => s.targetID)
    && DistinctBy(plan.stages, (s: Stage) => s.shardID)
    && Contiguous(plan.stages)
    && plan.stages[|plan.stages| - 1].layerEnd == plan.model.layerCount
    && plan.revision == PlanRevision(plan)
  }

  /** In a contiguous plan the stages ahead of stage i end at or before its start. */
  lemma {:induction false} StartsIncrease(stages: seq<Stage>, i: nat, j: nat)
    requires Contiguous(stages) && i < j < |stages|
    requires forall k :: 0 <= k < |stages| ==> stages[k].layerStart < stages[k].layerEnd
    ensures stages[i].layerEnd <= stages[j].layerStart
    decreases j
  {
    if i + 1 < j { StartsIncrease(stages, i, j - 1); }
  }

  ghost predicate Owns(stage: Stage, layer: int) {
    stage.layerStart <= layer < stage.layerEnd
  }

  ghost predicate OnlyOwner(plan: Plan, layer: int, i: int)
    requires 0 <= i < |plan.stages|
  {
    Owns(plan.stages[i], layer) && forall j :: 0 <= j < |plan.stages| && Owns(plan.stages[j], layer) ==> i == j
  }

  /** A valid plan assigns every layer of the model to exactly one stage. */
  lemma EveryLayerOwnedOnce(plan: Plan, layer: int)
    requires ValidPlan(plan) && 0 <= layer < plan.model.layerCount
    ensures exists i :: 0 <= i < |plan.stages| && OnlyOwner(plan, layer, i)
  {
    RangesNonEmpty(plan);
    var i := OwningStage(plan, layer, |plan.stages|);
    forall j | 0 <= j < |plan.stages| && Owns(plan.stages[j], layer) ensures i == j {
      if i < j { StartsIncrease(plan.stages, i, j); }
      if j < i { StartsIncrease(plan.stages, j, i); }
    }
    assert OnlyOwner(plan, layer, i);
  }

  lemma RangesNonEmpty(plan: Plan)
    requires ValidPlan(plan)
    ensures forall k :: 0 <= k < |plan.stages| ==> plan.stages[k].layerStart < plan.stages[k].layerEnd
  {
    forall k | 0 <= k < |plan.stages| ensures plan.stages[k].layerStart < plan.stages[k].layerEnd {
      assert StageWellFormed(plan, k);
    }
  }

  lemma {:induction false} OwningStage(plan: Plan, layer: int, n: nat) returns (i: nat)
    requires ValidPlan(plan) && 0 < n <= |plan.stages| && 0 <= layer < plan.stages[n - 1].layerEnd
    ensures i < n && Owns(plan.stages[i], layer)
  {
    if plan.stages[n - 1].layerStart <= layer {
      i := n - 1;
    } else {
      i := OwningStage(plan, layer, n - 1);
    }
  }

  datatype Identities = Identities(names: set<string>, targets: set<string>, shards: set<string>) {
    function Add(s: Stage): Identities {
      Identities(names + {s.name}, targets + {s.targetID}, shards + {s.shardID})
    }

    predicate New(s: Stage) {
      s.name !in names && s.targetID !in targets && s.shardID !in shards
    }
  }

  /** The seen-sets after the first n stages. */
  function SeenIdentities(stages: seq<Stage>, n: nat): Identities
    requires n <= |stages|
  {
    if n == 0 then Identities({}, {}, {}) else SeenIdentities(stages, n - 1).Add(stages[n - 1])
  }

  lemma {:induction false} SeenHasEarlier(stages: seq<Stage>, n: nat, j: nat)
    requires j < n <= |stages|
    ensures var seen := SeenIdentities(stages, n);
            stages[j].name in seen.names && stages[j].targetID in seen.targets && stages[j].shardID in seen.shards
  {
    if j < n - 1 { SeenHasEarlier(stages, n - 1, j); }
  }

  /** Two stages that share an identity. */
  ghost predicate Clash(s: Stage, t: Stage) {
    s.name == t.name || s.targetID == t.targetID || s.shardID == t.shardID
  }

  lemma {:induction false} SeenComesFromEarlier(stages: seq<Stage>, n: nat, s: Stage) returns (j: nat)
    requires n <= |stages| && !SeenIdentities(stages, n).New(s)
    ensures j < n && Clash(stages[j], s)
  {
    if Clash(stages[n - 1], s) { j := n - 1; } else { j := SeenComesFromEarlier(stages, n - 1, s); }
  }

  /** What the scan checks of stage k: everything but its digest, including that
      its identities are new among the stages before it. */
  ghost predicate StageScanned(plan: Plan, k: int)
    requires 0 <= k < |plan.stages|
  {
    var s := plan.stages[k];
    && s.name != "" && s.targetID != "" && s.shardID != ""
    && SeenIdentities(plan.stages, k).New(s)
    && s.layerStart == (if k == 0 then 0 else plan.stages[k - 1].layerEnd)
    && s.layerStart < s.layerEnd <= plan.model.layerCount
    && s.ownsInput == (k == 0)
    && s.ownsOutput == (k == |plan.stages| - 1)
    && (if s.ownsOutput then !s.responseMode.Unsupported? else s.responseMode == Tensor)
  }

  lemma DistinctMeansNoClash(plan: Plan, j: int, k: int)
    requires ValidPlan(plan) && 0 <= j < k < |plan.stages|
    ensures !Clash(plan.stages[j], plan.stages[k])
  {
    var nameKey, targetKey, shardKey := (s: Stage) => s.name, (s: Stage) => s.targetID, (s: Stage) => s.shardID;
    assert nameKey(plan.stages[j]) != nameKey(plan.stages[k]);
    assert targetKey(plan.stages[j]) != targetKey(plan.stages[k]);
    assert shardKey(plan.stages[j]) != shardKey(plan.stages[k]);
  }

  lemma ValidStagesScan(plan: Plan, k: int)
    requires ValidPlan(plan) && 0 <= k < |plan.stages|
    ensures StageScanned(plan, k) && plan.stages[k].shardID == ShardIDOf(plan.model, plan.stages[k])
  {
    assert StageWellFormed(plan, k);
    if !SeenIdentities(plan.stages, k).New(plan.stages[k]) {
      var j := SeenComesFromEarlier(plan.stages, k, plan.stages[k]);
      DistinctMeansNoClash(plan, j, k);
    }
  }

  ghost predicate HeaderAccepted(plan: Plan) {
    && plan.schemaVersion == SCHEMA_VERSION
    && plan.model.id != "" && plan.model.checkpointFingerprint != "" && plan.model.layerCount > 0
    && 0 < |plan.stages| <= plan.model.layerCount
  }

  lemma ScannedPlanIsValid(plan: Plan)
    requires HeaderAccepted(plan)
    requires forall k :: 0 <= k < |plan.stages| ==> StageScanned(plan, k)
    requires plan.stages[|plan.stages| - 1].layerEnd == plan.model.layerCount && plan.revision == PlanRevision(plan)
    requires forall k :: 0 <= k < |plan.stages| ==> plan.stages[k].shardID == ShardIDOf(plan.model, plan.stages[k])
    ensures ValidPlan(plan)
  {
    forall k | 0 <= k < |plan.stages| ensures StageWellFormed(plan, k) { assert StageScanned(plan, k); }
    assert Contiguous(plan.stages) by {
      assert StageScanned(plan, 0);
      forall k | 0 < k < |plan.stages| ensures plan.stages[k].layerStart == plan.stages[k - 1].layerEnd {
        assert StageScanned(plan, k);
      }
    }
    forall i, j | 0 <= i < j < |plan.stages|
      ensures plan.stages[i].name != plan.stages[j].name && plan.stages[i].targetID != plan.stages[j].targetID
              && plan.stages[i].shardID != plan.stages[j].shardID
    {
      assert StageScanned(plan, j);
      SeenHasEarlier(plan.stages, j, i);
    }
  }

  lemma ValidPlanParts(plan: Plan)
    requires ValidPlan(plan)
    ensures HeaderAccepted(plan)
    ensures plan.stages[|plan.stages| - 1].layerEnd == plan.model.layerCount && plan.revision == PlanRevision(plan)
  {
  }

  /** Scans the stages, then checks the digests; accepts exactly the valid plans. */
  method ValidateExecutionPlan(plan: Plan) returns (accepted: bool)
    ensures accepted <==> ValidPlan(plan)
  {
    hide ValidPlan, ShardIDOf, PlanRevision;
    if ValidPlan(plan) { ValidPlanParts(plan); }
    if plan.schemaVersion != SCHEMA_VERSION || plan.model.id == "" || plan.model.checkpointFingerprint == ""
       || plan.model.layerCount <= 0 || |plan.stages| == 0 || |plan.stages| > plan.model.layerCount {
      return false;
    }
    var scanned, expectedStart := ScanStages(plan);
    if !scanned || expectedStart != plan.model.layerCount || plan.revision != PlanRevision(plan) {
      return false;
    }
    for index := 0 to |plan.stages|
      invariant forall k :: 0 <= k < index ==> plan.stages[k].shardID == ShardIDOf(plan.model, plan.stages[k])
    {
      if plan.stages[index].shardID != ShardIDOf(plan.model, plan.stages[index]) {
        if ValidPlan(plan) { ValidStagesScan(plan, index); }
        return false;
      }
    }
    ScannedPlanIsValid(plan);
    return true;
  }

  /** The single pass over the stages, with its seen-sets and expected start. */
  method ScanStages(plan: Plan) returns (accepted: bool, expectedStart: int)
    requires HeaderAccepted(plan)
    ensures accepted <==> forall k :: 0 <= k < |plan.stages| ==> StageScanned(plan, k)
    ensures ValidPlan(plan) ==> accepted
    ensures accepted ==> expectedStart == plan.stages[|plan.stages| - 1].layerEnd
  {
    hide ValidPlan;
    var seen := Identities({}, {}, {});
    expectedStart := 0;
    for index := 0 to |plan.stages|
      invariant expectedStart == if index == 0 then 0 else plan.stages[index - 1].layerEnd
      invariant seen == SeenIdentities(plan.stages, index)
      invariant forall k :: 0 <= k < index ==> StageScanned(plan, k)
    {
      var stage := plan.stages[index];
      var last := index == |plan.stages| - 1;
      if stage.name == "" || stage.targetID == "" || stage.shardID == "" || !seen.New(stage)
         || stage.layerStart != expectedStart || stage.layerEnd <= stage.layerStart
         || stage.layerEnd > plan.model.layerCount || stage.ownsInput != (index == 0) || stage.ownsOutput != last
         || (last && stage.responseMode.Unsupported?) || (!last && stage.responseMode != Tensor) {
        assert !StageScanned(plan, index);
        if ValidPlan(plan) { ValidStagesScan(plan, index); }
        return false, expectedStart;
      }
      seen := seen.Add(stage);
      expectedStart := stage.layerEnd;
    }
    return true, expectedStart;
  }

  // ---------------------------------------------------------------------------
  // Construction

  function WithShardIDs(model: Model, stages: seq<Stage>): (r: seq<Stage>)
    ensures |r| == |stages| && forall i :: 0 <= i < |r| ==> r[i] == stages[i].(shardID := ShardIDOf(model, stages[i]))
  {
    seq(|stages|, i requires 0 <= i < |stages| => stages[i].(shardID := ShardIDOf(model, stages[i])))
  }

  /** The plan that carries these stages, with its digests filled in. */
  function FinalizedPlan(model: Model, inventoryRevision: string, stages: seq<Stage>): (plan: Plan)
    ensures plan.model == model && plan.inventoryRevision == inventoryRevision
    ensures plan.stages == WithShardIDs(model, stages)
  {
    var plan := Plan(SCHEMA_VERSION, "", inventoryRevision, model, stages);
    plan.(revision := PlanRevision(plan), stages := WithShardIDs(model, stages))
  }

  /** A finalized plan carries its own revision: shard IDs are not part of it. */
  lemma FinalizedRevision(model: Model, inventoryRevision: string, stages: seq<Stage>)
    ensures var plan := FinalizedPlan(model, inventoryRevision, stages); plan.revision == PlanRevision(plan)
  {
    StagesTextIgnoresShards(model, stages);
  }

  lemma {:induction false} StagesTextIgnoresShards(model: Model, stages: seq<Stage>)
    ensures StagesText(WithShardIDs(model, stages)) == StagesText(stages)
  {
    if stages != [] {
      assert WithShardIDs(model, stages)[1..] == WithShardIDs(model, stages[1..]);
      StagesTextIgnoresShards(model, stages[1..]);
    }
  }

  datatype BuildError = InvalidPlan | TargetsRequired | TooManyStages | EdgeReserve

  method BuildExecutionPlan(model: Model, inventoryRevision: string, stages: seq<Stage>) returns (r: Result<Plan, BuildError>)
    ensures r.Ok? <==> ValidPlan(FinalizedPlan(model, inventoryRevision, stages))
    ensures r.Ok? ==> r.value == FinalizedPlan(model, inventoryRevision, stages)
    ensures r.Err? ==> r.error == InvalidPlan
  {
    var plan := FinalizedPlan(model, inventoryRevision, stages);
    var accepted := ValidateExecutionPlan(plan);
    return if accepted then Ok(plan) else Err(InvalidPlan);
  }

  /** What the caller of the builder must get right; the digests follow. */
  ghost predicate StagesComplete(model: Model, stages: seq<Stage>) {
    && model.id != "" && model.checkpointFingerprint != "" && model.layerCount > 0
    && 0 < |stages| <= model.layerCount
    && Contiguous(stages) && stages[|stages| - 1].layerEnd == model.layerCount
    && (forall i :: 0 <= i < |stages| ==> StageComplete(model, stages, i))
    && DistinctBy(stages, (s: Stage) => s.name)
    && DistinctBy(stages, (s: Stage) => s.targetID)
  }

  ghost predicate StageComplete(model: Model, stages: seq<Stage>, i: int)
    requires 0 <= i < |stages|
  {
    var s := stages[i];
    && s.name != "" && s.targetID != ""
    && 0 <= s.layerStart < s.layerEnd <= model.layerCount
    && s.ownsInput == (i == 0) && s.ownsOutput == (i == |stages| - 1)
    && (if s.ownsOutput then !s.responseMode.Unsupported? else s.responseMode == Tensor)
  }

  lemma CompleteStagesMakeValidPlan(model: Model, inventoryRevision: string, stages: seq<Stage>)
    requires StagesComplete(model, stages)
    ensures ValidPlan(FinalizedPlan(model, inventoryRevision, stages))
  {
    hide ShardIDOf, PlanRevision;
    var plan := FinalizedPlan(model, inventoryRevision, stages);
    FinalizedRevision(model, inventoryRevision, stages);
    forall i | 0 <= i < |plan.stages| ensures StageWellFormed(plan, i) {
      assert StageComplete(model, stages, i);
      ShardIDIgnoresNames(model, stages[i], plan.stages[i]);
    }
    var nameKey, targetKey := (s: Stage) => s.name, (s: Stage) => s.targetID;
    forall i, j | 0 <= i < j < |stages|
      ensures plan.stages[i].name != plan.stages[j].name && plan.stages[i].targetID != plan.stages[j].targetID
    {
      assert nameKey(stages[i]) != nameKey(stages[j]) && targetKey(stages[i]) != targetKey(stages[j]);
    }
    forall i, j | 0 <= i < j < |stages| ensures plan.stages[i].shardID != plan.stages[j].shardID {
      assert StageComplete(model, stages, i) && StageComplete(model, stages, j);
      forall k | 0 <= k < |stages| ensures stages[k].layerStart < stages[k].layerEnd { assert StageComplete(model, stages, k); }
      StartsIncrease(stages, i, j);
      if plan.stages[i].shardID == plan.stages[j].shardID { ShardIDsSeparateRanges(model, stages[i], model, stages[j]); }
    }
  }

  lemma ShardIDIgnoresNames(model: Model, s: Stage, t: Stage)
    requires s.layerStart == t.layerStart && s.layerEnd == t.layerEnd
    requires s.ownsInput == t.ownsInput && s.ownsOutput == t.ownsOutput
    ensures ShardIDOf(model, s) == ShardIDOf(model, t)
  {
  }
}
