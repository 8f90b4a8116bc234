/** One inference request to one pipeline stage, and what it does to the caches of
    the whole pipeline. */
module StageCalls {
  import opened WideArithmetic
  import opened Worker
  import opened Pipeline
  import opened SequenceSets
  import Execution

  /** A plan stage bound to the caller that reaches its worker. */
  datatype BoundTarget = BoundTarget(stage: Execution.Stage, caller: string)

  function SpotFor(target: BoundTarget, sequenceID: string): Spot {
    Spot(target.caller, target.stage.shardID, sequenceID)
  }

  /** The stage holds this generation's sequence, at this position, over its own slice. */
  ghost predicate StageReady(model: LayerModel, fleet: Fleet, target: BoundTarget, sequenceID: string, position: int) {
    var stage := target.stage;
    && Present(fleet, SpotFor(target, sequenceID))
    && var shard := fleet[target.caller].shards[stage.shardID];
       var sequence := SequenceAt(fleet, SpotFor(target, sequenceID));
       && RunsSlice(shard.adapter, model, stage.layerStart, stage.layerEnd)
       && sequence.nextPosition == position == sequence.cache.position
       && (sequence.prefilled <==> position > 0)
       && |sequence.cache.content| == stage.layerEnd - stage.layerStart
       && (sequence.completed.Some? ==> sequence.completed.value.position < position)
  }

  function CodesAt(fleet: Fleet, target: BoundTarget, sequenceID: string): seq<int> {
    if Present(fleet, SpotFor(target, sequenceID)) then SequenceAt(fleet, SpotFor(target, sequenceID)).cache.content else []
  }

  /** Only the requested sequence of one worker changes. */
  ghost predicate OnlySpotChanges(before: Fleet, after: Fleet, spot: Spot) {
    forall other :: other != spot && Present(before, other) ==>
      && Present(after, other) && SequenceAt(after, other) == SequenceAt(before, other)
      && after[other.workerID].shards[other.shardID].adapter == before[other.workerID].shards[other.shardID].adapter
  }

  ghost function InferOn(config: Config, fleet: Fleet, caller: string, op: Operation, request: ForwardRequest): (Fleet, Reply)
    requires caller in fleet
  {
    var (service, reply) := Infer(config, fleet[caller], op, request);
    (fleet[caller := service], reply)
  }

  lemma InferChangesOneSpot(config: Config, fleet: Fleet, caller: string, op: Operation, request: ForwardRequest)
    requires caller in fleet
    ensures OnlySpotChanges(fleet, InferOn(config, fleet, caller, op, request).0, Spot(caller, request.shardID, request.sequenceID))
  {
    hide Refusal, AfterStage, StatelessReply, WorkerBytes;
    var refusal := Refusal(config, Saturated(WorkerBytes(fleet[caller].shards)), fleet[caller], op, request);
    if refusal.None? {
      GoAheadFinds(config, Saturated(WorkerBytes(fleet[caller].shards)), fleet[caller], op, request);
    }
  }

  predicate Expected(op: Operation, position: int) {
    op != Forward && (op == Prefill <==> position == 0)
  }

  /** The position sent is the one the worker expects, so it is never refused for it. */
  lemma PositionIsExpected(config: Config, retained: int, fleet: Fleet, model: LayerModel, target: BoundTarget, op: Operation,
                           request: ForwardRequest)
    requires StageReady(model, fleet, target, request.sequenceID, request.position) && Expected(op, request.position)
    requires request.shardID == target.stage.shardID
    requires op == Decode ==> InputLength(request.input) == 1
    ensures var refusal := Refusal(config, retained, fleet[target.caller], op, request);
            refusal.Some? && refusal.value.Err? ==>
              refusal.value.error !in {InvalidPosition, CachePositionMismatch, SequenceAlreadyPrefilled, SequenceNotPrefilled,
                                       ShardNotFound, SequenceNotFound}
  {
    hide RunsSlice;
  }

  ghost function Slice(model: LayerModel, op: Operation, target: BoundTarget, position: int, codes: seq<int>, input: Tensor)
    : (r: (seq<int>, Tensor))
    requires |codes| == target.stage.layerEnd - target.stage.layerStart
    ensures |r.0| == |codes|
  {
    var x := if target.stage.layerStart == 0 then model.embed(op, position, input) else input;
    FoldLayers(model, op, position, target.stage.layerStart, target.stage.layerEnd, codes, x)
  }

  function Finished(model: LayerModel, target: BoundTarget, hidden: Tensor): Tensor {
    if target.stage.layerEnd == model.layerCount then model.head(hidden) else hidden
  }

  lemma NoReplay(config: Config, retained: int, model: LayerModel, fleet: Fleet, target: BoundTarget, op: Operation, request: ForwardRequest)
    requires StageReady(model, fleet, target, request.sequenceID, request.position) && Expected(op, request.position)
    requires request.shardID == target.stage.shardID
    ensures var refusal := Refusal(config, retained, fleet[target.caller], op, request);
            refusal.Some? ==> refusal.value.Err?
  {
    hide RunsSlice, MutationError;
  }

  /** What the slice leaves in a sequence when the stage replies. */
  lemma SliceAfter(model: LayerModel, target: BoundTarget, sequence: Sequence, op: Operation, request: ForwardRequest)
    requires op != Forward && |sequence.cache.content| == target.stage.layerEnd - target.stage.layerStart
    requires sequence.nextPosition == sequence.cache.position == request.position
    ensures var (after, reply) := AfterStage(sequence, op, request,
              SliceOutcome(model, target.stage.layerStart, target.stage.layerEnd, op, sequence.cache, request.input));
            var (codes, hidden) := Slice(model, op, target, request.position, sequence.cache.content, request.input);
            var output := Finished(model, target, hidden);
            reply.Ok? ==>
              && after.nextPosition == after.cache.position == request.position + InputLength(request.input)
              && after.prefilled && after.cache.content == codes
              && after.completed.Some? && after.completed.value.position == request.position
              && (if request.returnSampledToken
                  then FinalRow(output).Some? && reply.value.sampledToken == Some(GreedyIndex(FinalRow(output).value))
                       && reply.value.output == EMPTY_TENSOR
                  else reply.value.sampledToken == None && reply.value.output == output)
  {
    hide FoldLayers, FinalRow, GreedyIndex;
  }

  /** A successful call runs exactly the stage's slice on its caches. */
  lemma SuccessfulCall(config: Config, model: LayerModel, fleet: Fleet, target: BoundTarget, op: Operation, request: ForwardRequest)
    requires StageReady(model, fleet, target, request.sequenceID, request.position) && Expected(op, request.position)
    requires request.shardID == target.stage.shardID && InputLength(request.input) > 0
    requires InferOn(config, fleet, target.caller, op, request).1.Ok?
    ensures var (after, reply) := InferOn(config, fleet, target.caller, op, request);
            var (codes, hidden) := Slice(model, op, target, request.position, CodesAt(fleet, target, request.sequenceID), request.input);
            var output := Finished(model, target, hidden);
            && StageReady(model, after, target, request.sequenceID, request.position + InputLength(request.input))
            && CodesAt(after, target, request.sequenceID) == codes
            && (if request.returnSampledToken
                then FinalRow(output).Some? && reply.value.sampledToken == Some(GreedyIndex(FinalRow(output).value))
                     && reply.value.output == EMPTY_TENSOR
                else reply.value.sampledToken == None && reply.value.output == output)
  {
    var service := fleet[target.caller];
    NoReplay(config, Saturated(WorkerBytes(service.shards)), model, fleet, target, op, request);
    var sequence := SequenceAt(fleet, SpotFor(target, request.sequenceID));
    var adapter := service.shards[target.stage.shardID].adapter;
    assert SliceCall(adapter, model, target.stage.layerStart, target.stage.layerEnd, op, sequence.cache, request.input);
    SliceAfter(model, target, sequence, op, request);
    hide Refusal, AfterStage, Slice, FinalRow, WorkerBytes, RunsSlice, SliceOutcome, Finished, GreedyIndex;
  }

  /** A sequence just opened on a stage is ready at position 0 with an empty cache. */
  lemma OpenedIsReady(config: Config, model: LayerModel, fleet: Fleet, target: BoundTarget, entry: Opened)
    requires entry.target.workerID == target.caller && entry.target.shardID == target.stage.shardID
    requires target.caller in fleet && target.stage.shardID in fleet[target.caller].shards
    requires var adapter := fleet[target.caller].shards[target.stage.shardID].adapter;
             && RunsSlice(adapter, model, target.stage.layerStart, target.stage.layerEnd)
             && adapter.emptyCache.position == 0
             && |adapter.emptyCache.content| == target.stage.layerEnd - target.stage.layerStart
    requires !Present(fleet, SpotFor(target, entry.sequenceID))
    requires Effect(config, fleet, OpenCommand, entry).1.None?
    ensures var after := Effect(config, fleet, OpenCommand, entry).0;
            && StageReady(model, after, target, entry.sequenceID, 0)
            && CodesAt(after, target, entry.sequenceID) == fleet[target.caller].shards[target.stage.shardID].adapter.emptyCache.content
  {
    hide RunsSlice;
  }
}
