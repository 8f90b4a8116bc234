/** Generation over an ordered pipeline of worker stages, proved to be the greedy
    decode of the whole model. */
module PlannedSession {
  import opened WideArithmetic
  import opened Worker
  import opened Pipeline
  import opened SequenceSets
  import opened StageCalls
  import WorkerService
  import Execution

  /** A model whose layers keep the number of positions of their input. */
  ghost predicate KeepsLength(model: LayerModel) {
    && (forall op, position, x :: EmbedKeeps(model, op, position, x))
    && (forall op, layer, position, code, x :: LayerKeeps(model, op, layer, position, code, x))
  }

  ghost predicate EmbedKeeps(model: LayerModel, op: Operation, position: int, x: Tensor) {
    InputLength(model.embed(op, position, x)) == InputLength(x)
  }

  ghost predicate LayerKeeps(model: LayerModel, op: Operation, layer: int, position: int, code: int, x: Tensor) {
    InputLength(model.layer(op, layer, position, code, x).1) == InputLength(x)
  }

  lemma {:induction false} FoldKeepsLength(model: LayerModel, op: Operation, position: int, lo: int, hi: int, codes: seq<int>, x: Tensor)
    requires KeepsLength(model) && |codes| == hi - lo
    ensures InputLength(FoldLayers(model, op, position, lo, hi, codes, x).1) == InputLength(x)
    decreases |codes|
  {
    hide InputLength;
    if codes != [] {
      var front := codes[..|codes| - 1];
      FoldKeepsLength(model, op, position, lo, hi - 1, front, x);
      assert LayerKeeps(model, op, hi - 1, position, codes[|codes| - 1], FoldLayers(model, op, position, lo, hi - 1, front, x).1);
    }
  }

  // ---------------------------------------------------------------------------
  // The pipeline of a plan

  /** The bound stages tile the model, on distinct shards, and only the last samples. */
  ghost predicate Tiles(model: LayerModel, targets: seq<BoundTarget>) {
    && targets != [] && targets[0].stage.layerStart == 0
    && targets[|targets| - 1].stage.layerEnd == model.layerCount
    && (forall i :: 0 < i < |targets| ==> targets[i].stage.layerStart == targets[i - 1].stage.layerEnd)
    && (forall i :: 0 <= i < |targets| ==> targets[i].stage.layerStart < targets[i].stage.layerEnd)
    && (forall i, j :: 0 <= i < j < |targets| ==> targets[i].stage.shardID != targets[j].stage.shardID)
    && (forall i :: 0 <= i < |targets| - 1 ==> targets[i].stage.responseMode == Execution.Tensor)
  }

  ghost predicate Bound(plan: Execution.Plan, targets: seq<BoundTarget>) {
    |targets| == |plan.stages| && forall i :: 0 <= i < |targets| ==> targets[i].stage == plan.stages[i]
  }

  lemma ValidPlanTiles(model: LayerModel, plan: Execution.Plan, targets: seq<BoundTarget>)
    requires Execution.ValidPlan(plan) && Bound(plan, targets) && plan.model.layerCount == model.layerCount
    ensures Tiles(model, targets)
  {
    forall i | 0 <= i < |targets| ensures targets[i].stage.layerStart < targets[i].stage.layerEnd {
      assert Execution.StageWellFormed(plan, i);
    }
    forall i | 0 <= i < |targets| - 1 ensures targets[i].stage.responseMode == Execution.Tensor {
      assert Execution.StageWellFormed(plan, i);
    }
    forall i, j | 0 <= i < j < |targets| ensures targets[i].stage.shardID != targets[j].stage.shardID {
      Execution.DistinctMeansNoClash(plan, i, j);
    }
  }

  datatype ExecutionTarget = ExecutionTarget(targetID: string, caller: Option<string>)

  /** The targets are usable and name exactly the plan's target identities. */
  ghost predicate Bindable(plan: Execution.Plan, targets: seq<ExecutionTarget>) {
    && |targets| == |plan.stages|
    && (forall i :: 0 <= i < |targets| ==> targets[i].targetID != "" && targets[i].caller.Some?)
    && (forall i, j :: 0 <= i < j < |targets| ==> targets[i].targetID != targets[j].targetID)
    && (forall i :: 0 <= i < |plan.stages| ==> Named(targets, plan.stages[i].targetID))
  }

  ghost predicate Named(targets: seq<ExecutionTarget>, id: string) {
    exists j :: 0 <= j < |targets| && targets[j].targetID == id
  }

  /** The first n targets by identity. */
  function Index(targets: seq<ExecutionTarget>, n: nat): map<string, string>
    requires n <= |targets|
  {
    if n == 0 then map[] else
    var target := targets[n - 1];
    Index(targets, n - 1)[target.targetID := if target.caller.Some? then target.caller.value else ""]
  }

  /** Each of the first n targets is complete and names a new identity. */
  predicate Usable(targets: seq<ExecutionTarget>, n: nat)
    requires n <= |targets|
  {
    n == 0 || (Usable(targets, n - 1) && targets[n - 1].targetID != "" && targets[n - 1].caller.Some?
               && targets[n - 1].targetID !in Index(targets, n - 1))
  }

  lemma {:induction false} IndexedIsNamed(targets: seq<ExecutionTarget>, n: nat, id: string) returns (j: nat)
    requires n <= |targets| && id in Index(targets, n)
    ensures j < n && targets[j].targetID == id
  {
    if targets[n - 1].targetID == id { j := n - 1; } else { j := IndexedIsNamed(targets, n - 1, id); }
  }

  lemma {:induction false} UsableTarget(targets: seq<ExecutionTarget>, n: nat, j: nat)
    requires j < n <= |targets| && Usable(targets, n)
    ensures targets[j].targetID != "" && targets[j].targetID in Index(targets, n)
    ensures targets[j].caller == Some(Index(targets, n)[targets[j].targetID])
  {
    if j < n - 1 { UsableTarget(targets, n - 1, j); }
  }

  lemma {:induction false} UsableSize(targets: seq<ExecutionTarget>, n: nat)
    requires n <= |targets| && Usable(targets, n)
    ensures |Index(targets, n)| == n
  {
    if n > 0 { UsableSize(targets, n - 1); }
  }

  lemma {:induction false} UsableMeansDistinct(targets: seq<ExecutionTarget>, n: nat)
    requires n <= |targets|
    ensures Usable(targets, n) <==>
              && (forall i :: 0 <= i < n ==> targets[i].targetID != "" && targets[i].caller.Some?)
              && (forall i, j :: 0 <= i < j < n ==> targets[i].targetID != targets[j].targetID)
  {
    if n > 0 {
      UsableMeansDistinct(targets, n - 1);
      if Usable(targets, n) {
        forall i | 0 <= i < n - 1 ensures targets[i].targetID != targets[n - 1].targetID { UsableTarget(targets, n - 1, i); }
      } else if targets[n - 1].targetID in Index(targets, n - 1) {
        var j := IndexedIsNamed(targets, n - 1, targets[n - 1].targetID);
      }
    }
  }

  method IndexTargets(targets: seq<ExecutionTarget>) returns (byID: Option<map<string, string>>)
    ensures byID.Some? <==> Usable(targets, |targets|)
    ensures byID.Some? ==> byID.value == Index(targets, |targets|)
  {
    var index: map<string, string> := map[];
    for n := 0 to |targets|
      invariant Usable(targets, n) && index == Index(targets, n)
    {
      var target := targets[n];
      if target.targetID == "" || target.caller.None? || target.targetID in index {
        UnusableStays(targets, n + 1);
        return None;
      }
      index := index[target.targetID := target.caller.value];
    }
    return Some(index);
  }

  lemma {:induction false} UnusableStays(targets: seq<ExecutionTarget>, n: nat)
    requires n <= |targets| && !Usable(targets, n)
    ensures !Usable(targets, |targets|)
    decreases |targets| - n
  {
    if n < |targets| { UnusableStays(targets, n + 1); }
  }

  lemma StageTargetsDistinct(plan: Execution.Plan)
    requires Execution.ValidPlan(plan)
    ensures forall i, j :: 0 <= i < j < |plan.stages| ==> plan.stages[i].targetID != plan.stages[j].targetID
  {
    forall i, j | 0 <= i < j < |plan.stages| ensures plan.stages[i].targetID != plan.stages[j].targetID {
      Execution.DistinctMeansNoClash(plan, i, j);
    }
  }

  /** The stages bound so far, the callers of the first n stages. */
  function BoundStages(plan: Execution.Plan, byID: map<string, string>, n: nat): (r: seq<BoundTarget>)
    requires n <= |plan.stages| && forall i :: 0 <= i < n ==> plan.stages[i].targetID in byID
    ensures |r| == n && forall i :: 0 <= i < n ==> r[i] == BoundTarget(plan.stages[i], byID[plan.stages[i].targetID])
  {
    seq(n, i requires 0 <= i < n => BoundTarget(plan.stages[i], byID[plan.stages[i].targetID]))
  }

  /** Takes one target out of the index for every stage. */
  method TakeTargets(plan: Execution.Plan, all: map<string, string>) returns (r: Option<seq<BoundTarget>>, left: map<string, string>)
    requires forall i, j :: 0 <= i < j < |plan.stages| ==> plan.stages[i].targetID != plan.stages[j].targetID
    ensures r.Some? <==> forall i :: 0 <= i < |plan.stages| ==> plan.stages[i].targetID in all
    ensures r.Some? ==> r.value == BoundStages(plan, all, |plan.stages|) && |left| == |all| - |plan.stages|
  {
    left := all;
    var bound: seq<BoundTarget> := [];
    for n := 0 to |plan.stages|
      invariant forall i :: 0 <= i < n ==> plan.stages[i].targetID in all
      invariant bound == BoundStages(plan, all, n) && |left| == |all| - n
      invariant forall i :: n <= i < |plan.stages| ==> (plan.stages[i].targetID in left <==> plan.stages[i].targetID in all)
      invariant forall id :: id in left ==> id in all && left[id] == all[id]
    {
      var stage := plan.stages[n];
      if stage.targetID !in left { return None, left; }
      bound := bound + [BoundTarget(stage, left[stage.targetID])];
      left := left - {stage.targetID};
    }
    return Some(bound), left;
  }

  method BindExecutionTargets(plan: Execution.Plan, targets: seq<ExecutionTarget>) returns (r: Option<seq<BoundTarget>>)
    requires Execution.ValidPlan(plan)
    ensures r.Some? <==> Bindable(plan, targets)
    ensures r.Some? ==> Bound(plan, r.value)
    ensures r.Some? ==> forall i, j :: 0 <= i < |plan.stages| && 0 <= j < |targets| && targets[j].targetID == plan.stages[i].targetID
                          ==> targets[j].caller == Some(r.value[i].caller)
  {
    StageTargetsDistinct(plan);
    UsableMeansDistinct(targets, |targets|);
    hide Execution.ValidPlan, Named, Index, Usable;
    if |targets| != |plan.stages| { return None; }
    var index := IndexTargets(targets);
    if index.None? { return None; }
    UsableSize(targets, |targets|);
    forall i | 0 <= i < |plan.stages| ensures plan.stages[i].targetID in index.value <==> Named(targets, plan.stages[i].targetID) {
      IndexedIffNamed(targets, plan.stages[i].targetID);
    }
    forall j | 0 <= j < |targets| ensures targets[j].targetID in index.value && targets[j].caller == Some(index.value[targets[j].targetID]) {
      UsableTarget(targets, |targets|, j);
    }
    var bound, left := TakeTargets(plan, index.value);
    if bound.Some? && |left| != 0 { r := None; } else { r := bound; }
  }

  lemma IndexedIffNamed(targets: seq<ExecutionTarget>, id: string)
    requires Usable(targets, |targets|)
    ensures id in Index(targets, |targets|) <==> Named(targets, id)
  {
    if id in Index(targets, |targets|) { var j := IndexedIsNamed(targets, |targets|, id); }
    if Named(targets, id) {
      var j :| 0 <= j < |targets| && targets[j].targetID == id;
      UsableTarget(targets, |targets|, j);
    }
  }

  lemma {:induction false} TilesEnd(model: LayerModel, targets: seq<BoundTarget>, i: nat)
    requires Tiles(model, targets) && i < |targets|
    ensures 0 <= targets[i].stage.layerStart && (i > 0 ==> targets[i].stage.layerStart > 0)
    ensures i < |targets| - 1 ==> targets[i].stage.layerEnd < model.layerCount
    decreases i
  {
    if i > 0 { TilesEnd(model, targets, i - 1); }
    if i < |targets| - 1 { EndsIncrease(model, targets, i, |targets| - 1); }
  }

  lemma {:induction false} EndsIncrease(model: LayerModel, targets: seq<BoundTarget>, i: nat, j: nat)
    requires Tiles(model, targets) && i < j < |targets|
    ensures targets[i].stage.layerEnd < targets[j].stage.layerEnd
    decreases j
  {
    if i < j - 1 { EndsIncrease(model, targets, i, j - 1); }
  }

  /** The caches of all stages, in layer order. */
  ghost function AllCodes(fleet: Fleet, targets: seq<BoundTarget>, sequenceID: string): seq<int> {
    if targets == [] then []
    else AllCodes(fleet, targets[..|targets| - 1], sequenceID) + CodesAt(fleet, targets[|targets| - 1], sequenceID)
  }

  ghost predicate PipelineReady(model: LayerModel, fleet: Fleet, targets: seq<BoundTarget>, sequenceID: string, position: int) {
    forall i :: 0 <= i < |targets| ==> StageReady(model, fleet, targets[i], sequenceID, position)
  }

  lemma {:induction false} AllCodesLength(model: LayerModel, fleet: Fleet, targets: seq<BoundTarget>, sequenceID: string, position: int, n: nat)
    requires Tiles(model, targets) && PipelineReady(model, fleet, targets, sequenceID, position) && n <= |targets|
    ensures |AllCodes(fleet, targets[..n], sequenceID)| == if n == 0 then 0 else targets[n - 1].stage.layerEnd
  {
    hide StageReady, CodesAt;
    if n > 0 {
      AllCodesLength(model, fleet, targets, sequenceID, position, n - 1);
      assert targets[..n][..n - 1] == targets[..n - 1];
      ReadyCodes(model, fleet, targets[n - 1], sequenceID, position);
    }
  }

  lemma ReadyCodes(model: LayerModel, fleet: Fleet, target: BoundTarget, sequenceID: string, position: int)
    requires StageReady(model, fleet, target, sequenceID, position)
    ensures |CodesAt(fleet, target, sequenceID)| == target.stage.layerEnd - target.stage.layerStart
    ensures target.caller in fleet
  {
  }

  lemma {:induction false} SameCodes(before: Fleet, after: Fleet, targets: seq<BoundTarget>, sequenceID: string)
    requires forall i :: 0 <= i < |targets| ==> CodesAt(after, targets[i], sequenceID) == CodesAt(before, targets[i], sequenceID)
    ensures AllCodes(after, targets, sequenceID) == AllCodes(before, targets, sequenceID)
  {
    hide CodesAt;
    if targets != [] { SameCodes(before, after, targets[..|targets| - 1], sequenceID); }
  }

  /** A stage whose spot did not change stays ready with the same caches. */
  lemma UntouchedStage(model: LayerModel, before: Fleet, after: Fleet, spot: Spot, target: BoundTarget, sequenceID: string, position: int)
    requires OnlySpotChanges(before, after, spot) && spot.shardID != target.stage.shardID
    requires StageReady(model, before, target, sequenceID, position)
    ensures StageReady(model, after, target, sequenceID, position)
    ensures CodesAt(after, target, sequenceID) == CodesAt(before, target, sequenceID)
  {
    hide RunsSlice;
    assert SpotFor(target, sequenceID) != spot;
  }

  // ---------------------------------------------------------------------------
  // The workers

  /** The answer has the form the request asked for. */
  predicate Consistent(op: Operation, request: ForwardRequest, result: ForwardResult) {
    && result.operation == op && result.position == request.position && result.kvCacheBytes > 0
    && (result.sampledToken.Some? <==> request.returnSampledToken)
    && (result.output.elements == [] <==> request.returnSampledToken)
  }

  /** What one delivery does to the fleet, and the answer its caller gets. */
  ghost function InferDelivered(config: Config, fleet: Fleet, caller: string, op: Operation, request: ForwardRequest, delivery: Delivery)
    : (Fleet, Option<ForwardResult>)
  {
    if caller !in fleet || delivery.LostBeforeApply? then (fleet, None) else
    var (after, reply) := InferOn(config, fleet, caller, op, request);
    (after,
    if delivery.LostAfterApply? || reply.Err? || !Consistent(op, request, reply.value) then None else Some(reply.value))
  }

  /** One inference call: the fleet when it was sent, and the answer. */
  datatype Sent = Sent(fleet: Fleet, caller: string, op: Operation, request: ForwardRequest, answer: Option<ForwardResult>)

  class Cluster {
    const config: Config
    var fleet: Fleet
    ghost var log: seq<Sent>

    constructor (config: Config, fleet: Fleet)
      ensures this.config == config && this.fleet == fleet && log == []
    {
      this.config, this.fleet, log := config, fleet, [];
    }

    /** One inference call.  The reply may be lost, before or after the worker applied
        it, and a reply with the wrong shape is refused. */
    method Infer(caller: string, op: Operation, request: ForwardRequest, delivery: Delivery) returns (r: Option<ForwardResult>)
      modifies this
      ensures (fleet, r) == InferDelivered(config, old(fleet), caller, op, request, delivery)
      ensures log == old(log) + [Sent(old(fleet), caller, op, request, r)]
    {
      hide Refusal, Execute, WorkerBytes;
      r := None;
      ghost var sent := fleet;
      if caller in fleet && !delivery.LostBeforeApply? {
        var service := fleet[caller];
        var retained := WorkerService.RetainedWorkerBytes(service.shards);
        var refusal := Refusal(config, retained, service, op, request);
        var reply: Reply;
        if refusal.Some? {
          reply := refusal.value;
        } else {
          GoAheadFinds(config, retained, service, op, request);
          var (after, answered) := Execute(service, op, request);
          service, reply := after, answered;
        }
        fleet := fleet[caller := service];
        if !delivery.LostAfterApply? && reply.Ok? {
          var result := reply.value;
          if result.operation == op && result.position == request.position && result.kvCacheBytes != 0 {
            var wellShaped := if request.returnSampledToken then result.sampledToken.Some? && |result.output.elements| == 0
                              else result.sampledToken.None? && |result.output.elements| != 0;
            if wellShaped { r := Some(result); }
          }
        }
      }
      log := log + [Sent(sent, caller, op, request, r)];
    }
  }

  // ---------------------------------------------------------------------------
  // What was sent

  /** The sequence that the request names is waiting for exactly this position. */
  ghost predicate AtExpectedPosition(s: Sent) {
    var spot := Spot(s.caller, s.request.shardID, s.request.sequenceID);
    && Present(s.fleet, spot)
    && var sequence := SequenceAt(s.fleet, spot);
       && s.request.position == sequence.nextPosition == sequence.cache.position
       && (s.op == Prefill <==> !sequence.prefilled) && (s.op == Decode <==> sequence.prefilled)
  }

  ghost predicate SentTo(s: Sent, target: BoundTarget, op: Operation, sequenceID: string, position: int) {
    && s.caller == target.caller && s.op == op && s.request.shardID == target.stage.shardID
    && s.request.sequenceID == sequenceID && s.request.position == position && AtExpectedPosition(s)
  }

  /** One call per stage in order, up to the first that gave no answer. */
  ghost predicate Traversal(calls: seq<Sent>, targets: seq<BoundTarget>, op: Operation, sequenceID: string, position: int,
                            r: Option<ForwardResult>)
  {
    && |calls| <= |targets|
    && (forall k :: 0 <= k < |calls| ==> SentTo(calls[k], targets[k], op, sequenceID, position))
    && (forall k :: 0 <= k < |calls| - 1 ==> calls[k].answer.Some?)
    && (calls != [] ==> calls[|calls| - 1].answer == r)
    && (r.Some? ==> calls != [] && |calls| == |targets|)
    && (calls == [] ==> sequenceID == "")
  }

  ghost predicate SentSoFar(calls: seq<Sent>, targets: seq<BoundTarget>, op: Operation, sequenceID: string, position: int, n: nat) {
    && |calls| == n <= |targets|
    && forall k :: 0 <= k < n ==> SentTo(calls[k], targets[k], op, sequenceID, position) && calls[k].answer.Some?
  }

  lemma NothingSent(targets: seq<BoundTarget>, op: Operation, sequenceID: string, position: int)
    ensures SentSoFar([], targets, op, sequenceID, position, 0)
    ensures sequenceID == "" ==> Traversal([], targets, op, sequenceID, position, None)
  {
  }

  lemma SentNext(calls: seq<Sent>, s: Sent, targets: seq<BoundTarget>, op: Operation, sequenceID: string, position: int)
    requires |calls| < |targets| && SentSoFar(calls, targets, op, sequenceID, position, |calls|)
    requires SentTo(s, targets[|calls|], op, sequenceID, position)
    ensures s.answer.Some? ==> SentSoFar(calls + [s], targets, op, sequenceID, position, |calls| + 1)
    ensures s.answer.None? || |calls| + 1 == |targets| ==> Traversal(calls + [s], targets, op, sequenceID, position, s.answer)
  {
    hide SentTo;
  }

  lemma ReadyExpects(model: LayerModel, fleet: Fleet, target: BoundTarget, op: Operation, request: ForwardRequest,
                     answer: Option<ForwardResult>)
    requires StageReady(model, fleet, target, request.sequenceID, request.position) && Expected(op, request.position)
    requires request.shardID == target.stage.shardID
    ensures SentTo(Sent(fleet, target.caller, op, request, answer), target, op, request.sequenceID, request.position)
  {
    hide RunsSlice;
  }

  /** What the last stage's answer says about the logits. */
  ghost predicate TerminalAgrees(result: ForwardResult, sampled: bool, logits: Tensor) {
    if sampled then
      && FinalRow(logits).Some? && result.sampledToken == Some(GreedyIndex(FinalRow(logits).value))
      && result.output == EMPTY_TENSOR
    else result.sampledToken == None && result.output == logits
  }

  predicate Samples(target: BoundTarget) {
    target.stage.responseMode == Execution.SampledToken
  }

  /** Neither a token nor logits that name one. */
  predicate Unusable(sampled: Option<int>, logits: Tensor) {
    match sampled
    case None => FinalRow(logits).None? || GreedyIndex(FinalRow(logits).value) > MAX_INT32
    case Some(token) => token < 0 || logits.elements != []
  }

  /** The token of an answer: the one it carries, or the best of its logits. */
  method SampledToken(sampled: Option<int>, logits: Tensor) returns (r: Option<int>)
    ensures r.None? <==> Unusable(sampled, logits)
    ensures r.Some? && sampled.Some? ==> r == sampled
    ensures r.Some? && sampled.None? ==> FinalRow(logits).Some? && r.value == GreedyIndex(FinalRow(logits).value)
  {
    if sampled.None? {
      if logits.elements == [] { return None; }
      r := GreedyToken(logits);
      return;
    }
    if sampled.value < 0 || logits.elements != [] { return None; }
    return sampled;
  }

  // ---------------------------------------------------------------------------
  // One traversal of the chain

  /** Stages before i have run, stages from i on are as they were. */
  ghost predicate ChainAt(model: LayerModel, before: Fleet, fleet: Fleet, targets: seq<BoundTarget>, sequenceID: string,
                          position: int, length: int, i: nat)
  {
    && (forall k :: 0 <= k < |targets| && k < i ==> StageReady(model, fleet, targets[k], sequenceID, position + length))
    && (forall k :: i <= k < |targets| ==> StageReady(model, fleet, targets[k], sequenceID, position)
                                           && CodesAt(fleet, targets[k], sequenceID) == CodesAt(before, targets[k], sequenceID))
  }

  /** The first i stages together are the first layers of the model. */
  ghost predicate PrefixComputed(model: LayerModel, op: Operation, before: Fleet, fleet: Fleet, targets: seq<BoundTarget>,
                                 sequenceID: string, position: int, input: Tensor, hidden: Tensor, i: nat)
    requires i <= |targets|
  {
    var codes := AllCodes(before, targets[..i], sequenceID);
    var end := if i == 0 then 0 else targets[i - 1].stage.layerEnd;
    && |codes| == end
    && FoldLayers(model, op, position, 0, end, codes, model.embed(op, position, input))
       == (AllCodes(fleet, targets[..i], sequenceID), hidden)
  }

  lemma PrefixAdvances(model: LayerModel, op: Operation, before: Fleet, fleet: Fleet, after: Fleet, targets: seq<BoundTarget>,
                       sequenceID: string, position: int, input: Tensor, hidden: Tensor, i: nat)
    requires Tiles(model, targets) && i < |targets|
    requires PrefixComputed(model, op, before, fleet, targets, sequenceID, position, input, hidden, i)
    requires |CodesAt(before, targets[i], sequenceID)| == targets[i].stage.layerEnd - targets[i].stage.layerStart
    requires forall k :: 0 <= k < i ==> CodesAt(after, targets[k], sequenceID) == CodesAt(fleet, targets[k], sequenceID)
    requires CodesAt(after, targets[i], sequenceID)
             == FoldLayers(model, op, position, targets[i].stage.layerStart, targets[i].stage.layerEnd,
                           CodesAt(before, targets[i], sequenceID), hidden).0
    ensures PrefixComputed(model, op, before, after, targets, sequenceID, position, input,
              FoldLayers(model, op, position, targets[i].stage.layerStart, targets[i].stage.layerEnd,
                         CodesAt(before, targets[i], sequenceID), hidden).1, i + 1)
  {
    hide CodesAt, FoldLayers;
    assert targets[..i + 1][..i] == targets[..i];
    SameCodes(fleet, after, targets[..i], sequenceID);
    FoldSplits(model, op, position, 0, targets[i].stage.layerStart, targets[i].stage.layerEnd,
               AllCodes(before, targets[..i], sequenceID), CodesAt(before, targets[i], sequenceID),
               model.embed(op, position, input));
  }

  lemma OthersKept(model: LayerModel, before: Fleet, fleet: Fleet, after: Fleet, targets: seq<BoundTarget>, sequenceID: string,
                   position: int, length: int, i: nat)
    requires Tiles(model, targets) && i < |targets|
    requires ChainAt(model, before, fleet, targets, sequenceID, position, length, i)
    requires OnlySpotChanges(fleet, after, SpotFor(targets[i], sequenceID))
    requires StageReady(model, after, targets[i], sequenceID, position + length)
    ensures ChainAt(model, before, after, targets, sequenceID, position, length, i + 1)
    ensures forall k :: 0 <= k < i ==> CodesAt(after, targets[k], sequenceID) == CodesAt(fleet, targets[k], sequenceID)
  {
    hide StageReady, CodesAt, OnlySpotChanges;
    forall k | 0 <= k < |targets| && k != i
      ensures StageReady(model, after, targets[k], sequenceID, if k < i then position + length else position)
      ensures CodesAt(after, targets[k], sequenceID) == CodesAt(fleet, targets[k], sequenceID)
    {
      assert targets[i].stage.shardID != targets[k].stage.shardID by {
        if k < i { assert targets[k].stage.shardID != targets[i].stage.shardID; }
      }
      UntouchedStage(model, fleet, after, SpotFor(targets[i], sequenceID), targets[k], sequenceID,
                     if k < i then position + length else position);
    }
  }

  /** One successful stage call inside the chain. */
  lemma StageAdvances(config: Config, model: LayerModel, op: Operation, before: Fleet, fleet: Fleet, targets: seq<BoundTarget>,
                      request: ForwardRequest, input: Tensor, hidden: Tensor, i: nat)
    requires Tiles(model, targets) && KeepsLength(model) && i < |targets|
    requires Expected(op, request.position) && request.shardID == targets[i].stage.shardID
    requires InputLength(request.input) == InputLength(input) > 0
    requires ChainAt(model, before, fleet, targets, request.sequenceID, request.position, InputLength(input), i)
    requires PrefixComputed(model, op, before, fleet, targets, request.sequenceID, request.position, input, hidden, i)
    requires if i == 0 then request.input == input else request.input == hidden
    requires targets[i].caller in fleet && InferOn(config, fleet, targets[i].caller, op, request).1.Ok?
    ensures var (after, reply) := InferOn(config, fleet, targets[i].caller, op, request);
            var next := FoldLayers(model, op, request.position, targets[i].stage.layerStart, targets[i].stage.layerEnd,
                                   CodesAt(before, targets[i], request.sequenceID), hidden).1;
            && |CodesAt(before, targets[i], request.sequenceID)| == targets[i].stage.layerEnd - targets[i].stage.layerStart
            && ChainAt(model, before, after, targets, request.sequenceID, request.position, InputLength(input), i + 1)
            && PrefixComputed(model, op, before, after, targets, request.sequenceID, request.position, input, next, i + 1)
            && InputLength(next) == InputLength(input)
            && TerminalAgrees(reply.value, request.returnSampledToken, Finished(model, targets[i], next))
  {
    hide StageReady, FoldLayers, InferOn, FinalRow, Finished, OnlySpotChanges, CodesAt, InputLength;
    var (after, reply) := InferOn(config, fleet, targets[i].caller, op, request);
    TilesEnd(model, targets, i);
    ReadyCodes(model, fleet, targets[i], request.sequenceID, request.position);
    FirstHidden(model, op, before, fleet, targets, request.sequenceID, request.position, input, hidden, i);
    SuccessfulCall(config, model, fleet, targets[i], op, request);
    InferChangesOneSpot(config, fleet, targets[i].caller, op, request);
    OthersKept(model, before, fleet, after, targets, request.sequenceID, request.position, InputLength(input), i);
    PrefixAdvances(model, op, before, fleet, after, targets, request.sequenceID, request.position, input, hidden, i);
    FoldKeepsLength(model, op, request.position, targets[i].stage.layerStart, targets[i].stage.layerEnd,
                    CodesAt(before, targets[i], request.sequenceID), hidden);
    HiddenLength(model, op, before, fleet, targets, request.sequenceID, request.position, input, hidden, i);
  }

  /** Before the first stage the hidden state is the embedded input. */
  lemma FirstHidden(model: LayerModel, op: Operation, before: Fleet, fleet: Fleet, targets: seq<BoundTarget>,
                    sequenceID: string, position: int, input: Tensor, hidden: Tensor, i: nat)
    requires i <= |targets| && PrefixComputed(model, op, before, fleet, targets, sequenceID, position, input, hidden, i)
    ensures i == 0 ==> hidden == model.embed(op, position, input)
  {
  }

  lemma HiddenLength(model: LayerModel, op: Operation, before: Fleet, fleet: Fleet, targets: seq<BoundTarget>,
                     sequenceID: string, position: int, input: Tensor, hidden: Tensor, i: nat)
    requires KeepsLength(model)
    requires i <= |targets| && PrefixComputed(model, op, before, fleet, targets, sequenceID, position, input, hidden, i)
    ensures InputLength(hidden) == InputLength(input)
  {
    hide FoldLayers, InputLength;
    assert EmbedKeeps(model, op, position, input);
    FoldKeepsLength(model, op, position, 0, if i == 0 then 0 else targets[i - 1].stage.layerEnd,
                    AllCodes(before, targets[..i], sequenceID), model.embed(op, position, input));
  }

  lemma ChainStart(model: LayerModel, op: Operation, fleet: Fleet, targets: seq<BoundTarget>, sequenceID: string,
                   position: int, input: Tensor)
    requires PipelineReady(model, fleet, targets, sequenceID, position)
    ensures ChainAt(model, fleet, fleet, targets, sequenceID, position, InputLength(input), 0)
    ensures PrefixComputed(model, op, fleet, fleet, targets, sequenceID, position, input, model.embed(op, position, input), 0)
  {
    hide StageReady;
    assert targets[..0] == [];
  }

  /** Sends one prefill or decode input through every stage in order.  When it
      succeeds, the caches of all stages and the last answer are those of one pass
      through the whole model. */
  method ExecuteBoundStageChain(cluster: Cluster, targets: seq<BoundTarget>, op: Operation, sequenceID: string, position: uint64,
                                tokens: seq<int>, ghost model: LayerModel)
    returns (r: Option<ForwardResult>)
    requires Tiles(model, targets) && KeepsLength(model) && tokens != [] && Expected(op, position)
    requires PipelineReady(model, cluster.fleet, targets, sequenceID, position)
    modifies cluster
    ensures |AllCodes(old(cluster.fleet), targets, sequenceID)| == model.layerCount
    ensures r.Some? ==>
              var (codes, logits) := MonolithicStep(model, op, position, AllCodes(old(cluster.fleet), targets, sequenceID), tokens);
              && PipelineReady(model, cluster.fleet, targets, sequenceID, position + |tokens|)
              && AllCodes(cluster.fleet, targets, sequenceID) == codes
              && TerminalAgrees(r.value, Samples(targets[|targets| - 1]), logits)
    ensures old(cluster.log) <= cluster.log
    ensures Traversal(cluster.log[|old(cluster.log)|..], targets, op, sequenceID, position, r)
  {
    hide StageReady, FoldLayers, InferOn, FinalRow, ChainAt, PrefixComputed, PipelineReady, KeepsLength, Expected, SentTo, InferDelivered, Traversal,
      SentSoFar, CodesAt, MonolithicStep, AtExpectedPosition, Consistent, AllCodes, Tensor.ByteCount;
    ghost var before, start := cluster.fleet, cluster.log;
    ghost var calls: seq<Sent> := [];
    assert start + calls == start && start[|start|..] == calls;
    NothingSent(targets, op, sequenceID, position);
    var input := TokenTensor(tokens);
    AllCodesLength(model, before, targets, sequenceID, position, |targets|);
    assert targets[..|targets|] == targets;
    r := None;
    if sequenceID == "" { return; }
    var current, inputKind := input, "tokens";
    ghost var hidden := model.embed(op, position, input);
    ChainStart(model, op, before, targets, sequenceID, position, input);
    for index := 0 to |targets|
      invariant r.None? || index == |targets|
      invariant InputLength(current) == |tokens|
      invariant index < |targets| ==> if index == 0 then current == input else current == hidden
      invariant ChainAt(model, before, cluster.fleet, targets, sequenceID, position, |tokens|, index)
      invariant PrefixComputed(model, op, before, cluster.fleet, targets, sequenceID, position, input, hidden, index)
      invariant index == |targets| ==> r.Some? && TerminalAgrees(r.value, Samples(targets[|targets| - 1]), model.head(hidden))
      invariant cluster.log == start + calls && |calls| == index && SentSoFar(calls, targets, op, sequenceID, position, index)
      invariant index == |targets| ==> Traversal(calls, targets, op, sequenceID, position, r)
    {
      var target := targets[index];
      ghost var fleet := cluster.fleet;
      var request := ForwardRequest(target.stage.shardID, sequenceID, position, inputKind, current, Samples(target));
      var delivery: Delivery := *;
      var result := cluster.Infer(target.caller, op, request, delivery);
      ReadyAt(model, before, fleet, targets, sequenceID, position, |tokens|, index);
      ReadyExpects(model, fleet, target, op, request, result);
      SentNext(calls, Sent(fleet, target.caller, op, request, result), targets, op, sequenceID, position);
      calls := calls + [Sent(fleet, target.caller, op, request, result)];
      assert cluster.log == start + calls && cluster.log[|start|..] == calls;
      if result.None? { return None; }
      AnswerIsReply(cluster.config, fleet, target.caller, op, request, delivery);
      StageAdvances(cluster.config, model, op, before, fleet, targets, request, input, hidden, index);
      hidden := FoldLayers(model, op, position, target.stage.layerStart, target.stage.layerEnd,
                           CodesAt(before, target, sequenceID), hidden).1;
      TilesEnd(model, targets, index);
      if index == |targets| - 1 {
        r := result;
      } else {
        current, inputKind := result.value.output, "hidden";
      }
    }
    assert cluster.log[|start|..] == calls;
    ChainDone(model, op, before, cluster.fleet, targets, sequenceID, position, tokens, hidden);
  }

  lemma AnswerIsReply(config: Config, fleet: Fleet, caller: string, op: Operation, request: ForwardRequest, delivery: Delivery)
    requires InferDelivered(config, fleet, caller, op, request, delivery).1.Some?
    ensures caller in fleet && InferOn(config, fleet, caller, op, request).1.Ok?
    ensures InferDelivered(config, fleet, caller, op, request, delivery)
            == (InferOn(config, fleet, caller, op, request).0, Some(InferOn(config, fleet, caller, op, request).1.value))
  {
    hide InferOn, Consistent;
  }

  lemma ReadyAt(model: LayerModel, before: Fleet, fleet: Fleet, targets: seq<BoundTarget>, sequenceID: string,
                position: int, length: int, i: nat)
    requires i < |targets| && ChainAt(model, before, fleet, targets, sequenceID, position, length, i)
    ensures StageReady(model, fleet, targets[i], sequenceID, position)
  {
  }

  lemma ChainDone(model: LayerModel, op: Operation, before: Fleet, fleet: Fleet, targets: seq<BoundTarget>, sequenceID: string,
                  position: int, tokens: seq<int>, hidden: Tensor)
    requires Tiles(model, targets)
    requires ChainAt(model, before, fleet, targets, sequenceID, position, |tokens|, |targets|)
    requires PrefixComputed(model, op, before, fleet, targets, sequenceID, position, TokenTensor(tokens), hidden, |targets|)
    ensures PipelineReady(model, fleet, targets, sequenceID, position + |tokens|)
    ensures |AllCodes(before, targets, sequenceID)| == model.layerCount
    ensures MonolithicStep(model, op, position, AllCodes(before, targets, sequenceID), tokens)
            == (AllCodes(fleet, targets, sequenceID), model.head(hidden))
  {
    hide StageReady, FoldLayers;
    assert targets[..|targets|] == targets;
  }

  // ---------------------------------------------------------------------------
  // Generation

  /** The token taken from an answer is the greedy token of the logits behind it. */
  lemma SampledIsGreedy(result: ForwardResult, sampled: bool, logits: Tensor, token: int)
    requires TerminalAgrees(result, sampled, logits)
    requires result.sampledToken.Some? ==> Some(token) == result.sampledToken
    requires result.sampledToken.None? ==> FinalRow(result.output).Some? && token == GreedyIndex(FinalRow(result.output).value)
    ensures FinalRow(logits).Some? && token == GreedyIndex(FinalRow(logits).value)
  {
  }

  /** Round 0 is the prefill at position 0; round k decodes the k-th new position. */
  function RoundOp(k: nat): Operation {
    if k == 0 then Prefill else Decode
  }

  function RoundPosition(promptLength: nat, k: nat): int {
    if k == 0 then 0 else promptLength + k - 1
  }

  /** The calls are this many complete traversals, at consecutive positions. */
  ghost predicate Rounds(calls: seq<Sent>, targets: seq<BoundTarget>, sequenceID: string, promptLength: nat, rounds: nat)
    decreases rounds
  {
    if rounds == 0 then calls == []
    else
      var m := |calls| - |targets|;
      && 0 <= m < |calls| && calls[|calls| - 1].answer.Some?
      && Rounds(calls[..m], targets, sequenceID, promptLength, rounds - 1)
      && Traversal(calls[m..], targets, RoundOp(rounds - 1), sequenceID, RoundPosition(promptLength, rounds - 1),
                   calls[|calls| - 1].answer)
  }

  /** After k complete rounds, a call of the next one gave no answer, or the last answer
      named no token. */
  ghost predicate Interrupted(calls: seq<Sent>, targets: seq<BoundTarget>, sequenceID: string, promptLength: nat, k: nat, m: nat) {
    && m <= |calls| && Rounds(calls[..m], targets, sequenceID, promptLength, k)
    && (|| Traversal(calls[m..], targets, RoundOp(k), sequenceID, RoundPosition(promptLength, k), None)
        || (m == |calls| && k > 0 && m > 0 && calls[m - 1].answer.Some?
            && Unusable(calls[m - 1].answer.value.sampledToken, calls[m - 1].answer.value.output)))
  }

  /** What a run sends: one traversal for each token it produced, or an interruption. */
  ghost predicate RunLog(calls: seq<Sent>, targets: seq<BoundTarget>, sequenceID: string, promptLength: nat, produced: Option<nat>) {
    match produced
    case Some(n) => Rounds(calls, targets, sequenceID, promptLength, n)
    case None => exists k, m :: Interrupted(calls, targets, sequenceID, promptLength, k, m)
  }

  lemma RoundsMore(calls: seq<Sent>, more: seq<Sent>, targets: seq<BoundTarget>, sequenceID: string, promptLength: nat,
                   k: nat, r: Option<ForwardResult>)
    requires targets != [] && Rounds(calls, targets, sequenceID, promptLength, k)
    requires Traversal(more, targets, RoundOp(k), sequenceID, RoundPosition(promptLength, k), r)
    ensures r.Some? ==> more != [] && Rounds(calls + more, targets, sequenceID, promptLength, k + 1)
                        && calls + more != [] && (calls + more)[|calls + more| - 1].answer == r
    ensures r.None? ==> Interrupted(calls + more, targets, sequenceID, promptLength, k, |calls|)
  {
    hide SentTo;
    var all := calls + more;
    assert all[..|calls|] == calls && all[|calls|..] == more;
    if r.Some? { assert |all| - |targets| == |calls|; }
  }

  /** Prefill, then sample and decode until the end-of-sequence token or the limit.
      A run that succeeds yields exactly the tokens, the stop reason and the caches of
      the greedy decode of the whole model. */
  method Generate(cluster: Cluster, targets: seq<BoundTarget>, prompt: seq<int>, eos: Option<int>, ignoreEOS: bool,
                  maxTokens: int, sequenceID: string, ghost model: LayerModel)
    returns (r: Option<(seq<int>, StopReason)>)
    requires Tiles(model, targets) && KeepsLength(model)
    requires PipelineReady(model, cluster.fleet, targets, sequenceID, 0)
    requires |prompt| <= INT_MAX && maxTokens <= INT_MAX
    modifies cluster
    ensures prompt == [] || maxTokens <= 0 ==> r.None?
    ensures |AllCodes(old(cluster.fleet), targets, sequenceID)| == model.layerCount
    ensures r.Some? ==>
              MonolithicGenerate(model, AllCodes(old(cluster.fleet), targets, sequenceID), prompt,
                                 if ignoreEOS then None else eos, maxTokens)
              == Some(Generation(r.value.0, r.value.1, AllCodes(cluster.fleet, targets, sequenceID)))
    ensures old(cluster.log) <= cluster.log
    ensures var calls := cluster.log[|old(cluster.log)|..];
            if prompt == [] || maxTokens <= 0 then calls == []
            else RunLog(calls, targets, sequenceID, |prompt|, if r.Some? then Some(|r.value.0|) else None)
  {
    hide PipelineReady, MonolithicStep, MonolithicDecode, FinalRow, KeepsLength, TerminalAgrees, Traversal, Unusable, RunLog;
    hide AllCodes, CodesAt, FoldLayers, SentTo, Samples, GreedyIndex, TokenTensor, StageReady, InferDelivered, InferOn;
    ghost var start := cluster.log;
    AllCodesLength(model, cluster.fleet, targets, sequenceID, 0, |targets|);
    assert targets[..|targets|] == targets;
    r := None;
    if prompt == [] || maxTokens <= 0 { return; }
    ghost var initial := AllCodes(cluster.fleet, targets, sequenceID);
    ghost var stopAt := if ignoreEOS then None else eos;
    ghost var (codes, logits) := MonolithicStep(model, Prefill, 0, initial, prompt);
    var prefilled := ExecuteBoundStageChain(cluster, targets, Prefill, sequenceID, 0, prompt, model);
    ghost var calls := cluster.log[|start|..];
    FirstRound(calls, targets, sequenceID, |prompt|, prefilled);
    assert targets != [] && |initial| == model.layerCount;
    hide Tiles;
    if prefilled.None? { return; }
    var terminal := prefilled.value;
    var tokens: seq<int> := [];
    var position: uint64 := |prompt|;
    assert MonolithicGenerate(model, initial, prompt, stopAt, maxTokens)
           == MonolithicDecode(model, stopAt, maxTokens, position, codes, logits, tokens);
    hide *;
    while |tokens| < maxTokens
      invariant |tokens| < maxTokens && position == |prompt| + |tokens| && |codes| == model.layerCount
      invariant AllCodes(cluster.fleet, targets, sequenceID) == codes
      invariant PipelineReady(model, cluster.fleet, targets, sequenceID, position)
      invariant TerminalAgrees(terminal, Samples(targets[|targets| - 1]), logits)
      invariant MonolithicGenerate(model, initial, prompt, stopAt, maxTokens)
                == MonolithicDecode(model, stopAt, maxTokens, position, codes, logits, tokens)
      invariant start <= cluster.log && calls == cluster.log[|start|..]
      invariant RunLog(calls, targets, sequenceID, |prompt|, Some(|tokens| + 1))
      invariant calls != [] && calls[|calls| - 1].answer == Some(terminal)
      decreases maxTokens - |tokens|
    {
      var sampled := SampledToken(terminal.sampledToken, terminal.output);
      if sampled.None? {
        UnusableInterrupts(calls, targets, sequenceID, |prompt|, |tokens| + 1);
        return None;
      }
      var token := sampled.value;
      TokenTaken(model, initial, prompt, stopAt, maxTokens, position, codes, logits, tokens, terminal,
                 Samples(targets[|targets| - 1]), token);
      tokens := tokens + [token];
      if !ignoreEOS && eos == Some(token) { return Some((tokens, EOS)); }
      if |tokens| == maxTokens { return Some((tokens, MaxTokens)); }
      ghost var (codes', logits') := MonolithicStep(model, Decode, position, codes, [token]);
      ghost var before := cluster.log;
      var decoded := ExecuteBoundStageChain(cluster, targets, Decode, sequenceID, position, [token], model);
      DecodeRound(calls, cluster.log[|before|..], targets, sequenceID, |prompt|, |tokens|, position, decoded);
      LogGrows(start, before, cluster.log);
      calls := cluster.log[|start|..];
      if decoded.None? { return None; }
      terminal := decoded.value;
      codes, logits := codes', logits';
      position := position + 1;
    }
  }

  lemma NoRounds(targets: seq<BoundTarget>, sequenceID: string, promptLength: nat)
    ensures Rounds([], targets, sequenceID, promptLength, 0)
  {
  }

  lemma FirstRound(calls: seq<Sent>, targets: seq<BoundTarget>, sequenceID: string, promptLength: nat, r: Option<ForwardResult>)
    requires targets != [] && Traversal(calls, targets, Prefill, sequenceID, 0, r)
    ensures r.Some? ==> calls != [] && RunLog(calls, targets, sequenceID, promptLength, Some(1)) && calls[|calls| - 1].answer == r
    ensures r.None? ==> RunLog(calls, targets, sequenceID, promptLength, None)
  {
    NoRounds(targets, sequenceID, promptLength);
    RoundsMore([], calls, targets, sequenceID, promptLength, 0, r);
    assert [] + calls == calls;
  }

  lemma DecodeRound(calls: seq<Sent>, more: seq<Sent>, targets: seq<BoundTarget>, sequenceID: string, promptLength: nat,
                    k: nat, position: int, r: Option<ForwardResult>)
    requires targets != [] && k > 0 && position == promptLength + k - 1
    requires RunLog(calls, targets, sequenceID, promptLength, Some(k))
    requires Traversal(more, targets, Decode, sequenceID, position, r)
    ensures r.Some? ==> calls + more != [] && (calls + more)[|calls + more| - 1].answer == r
                        && RunLog(calls + more, targets, sequenceID, promptLength, Some(k + 1))
    ensures r.None? ==> RunLog(calls + more, targets, sequenceID, promptLength, None)
  {
    hide Rounds, Interrupted;
    RoundsMore(calls, more, targets, sequenceID, promptLength, k, r);
  }

  lemma LogGrows(start: seq<Sent>, before: seq<Sent>, after: seq<Sent>)
    requires start <= before <= after
    ensures start <= after && after[|start|..] == before[|start|..] + after[|before|..]
  {
  }

  lemma UnusableInterrupts(calls: seq<Sent>, targets: seq<BoundTarget>, sequenceID: string, promptLength: nat, k: nat)
    requires k > 0 && calls != [] && RunLog(calls, targets, sequenceID, promptLength, Some(k))
    requires var answer := calls[|calls| - 1].answer; answer.Some? && Unusable(answer.value.sampledToken, answer.value.output)
    ensures RunLog(calls, targets, sequenceID, promptLength, None)
  {
    hide Rounds, Unusable;
    assert calls[..|calls|] == calls;
    assert Interrupted(calls, targets, sequenceID, promptLength, k, |calls|);
  }

  /** Taking the sampled token is one round of the monolithic decode. */
  lemma TokenTaken(model: LayerModel, initial: seq<int>, prompt: seq<int>, eos: Option<int>, maxTokens: nat, position: int,
                   codes: seq<int>, logits: Tensor, tokens: seq<int>, result: ForwardResult, sampled: bool, token: int)
    requires |initial| == |codes| == model.layerCount && |tokens| < maxTokens
    requires TerminalAgrees(result, sampled, logits)
    requires result.sampledToken.Some? ==> Some(token) == result.sampledToken
    requires result.sampledToken.None? ==> FinalRow(result.output).Some? && token == GreedyIndex(FinalRow(result.output).value)
    requires MonolithicGenerate(model, initial, prompt, eos, maxTokens)
             == MonolithicDecode(model, eos, maxTokens, position, codes, logits, tokens)
    ensures var next := tokens + [token];
            MonolithicGenerate(model, initial, prompt, eos, maxTokens) ==
              if eos == Some(token) then Some(Generation(next, EOS, codes))
              else if |next| == maxTokens then Some(Generation(next, MaxTokens, codes))
              else
                var (codes', logits') := MonolithicStep(model, Decode, position, codes, [token]);
                MonolithicDecode(model, eos, maxTokens, position + 1, codes', logits', next)
  {
    SampledIsGreedy(result, sampled, logits, token);
    DecodeStep(model, eos, maxTokens, position, codes, logits, tokens);
    hide MonolithicGenerate, MonolithicDecode, MonolithicStep, FinalRow, GreedyIndex, TerminalAgrees;
  }

  /** One round of the monolithic decode. */
  lemma DecodeStep(model: LayerModel, eos: Option<int>, maxTokens: nat, position: int, codes: seq<int>, logits: Tensor, tokens: seq<int>)
    requires |codes| == model.layerCount && |tokens| < maxTokens && FinalRow(logits).Some?
    ensures var token := GreedyIndex(FinalRow(logits).value);
            var next := tokens + [token];
            MonolithicDecode(model, eos, maxTokens, position, codes, logits, tokens) ==
              if eos == Some(token) then Some(Generation(next, EOS, codes))
              else if |next| == maxTokens then Some(Generation(next, MaxTokens, codes))
              else
                var (codes', logits') := MonolithicStep(model, Decode, position, codes, [token]);
                MonolithicDecode(model, eos, maxTokens, position + 1, codes', logits', next)
  {
    hide MonolithicStep, FinalRow;
  }
}
