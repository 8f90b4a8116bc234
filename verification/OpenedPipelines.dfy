/** From opened sequences to generation: opening one sequence on every stage of a plan
    makes the pipeline ready for its prefill. */
module OpenedPipelines {
  import opened Worker
  import opened Pipeline
  import opened SequenceSets
  import opened StageCalls
  import opened PlannedSession

  /** The stage is loaded with its slice of the model, and does not know the sequence. */
  ghost predicate StageLoaded(model: LayerModel, fleet: Fleet, target: BoundTarget, sequenceID: string) {
    var stage := target.stage;
    && target.caller in fleet && stage.shardID in fleet[target.caller].shards
    && !Present(fleet, SpotFor(target, sequenceID))
    && var adapter := fleet[target.caller].shards[stage.shardID].adapter;
       && RunsSlice(adapter, model, stage.layerStart, stage.layerEnd)
       && adapter.emptyCache.position == 0 && |adapter.emptyCache.content| == stage.layerEnd - stage.layerStart
  }

  function EmptyCodes(fleet: Fleet, target: BoundTarget): seq<int> {
    if target.caller in fleet && target.stage.shardID in fleet[target.caller].shards
    then fleet[target.caller].shards[target.stage.shardID].adapter.emptyCache.content else []
  }

  /** The empty caches of all stages, in layer order. */
  function AllEmptyCodes(fleet: Fleet, targets: seq<BoundTarget>): seq<int> {
    if targets == [] then []
    else AllEmptyCodes(fleet, targets[..|targets| - 1]) + EmptyCodes(fleet, targets[|targets| - 1])
  }

  /** What the session asks to be opened: its one sequence on every stage. */
  function Requested(targets: seq<BoundTarget>): (r: seq<Target>)
    ensures |r| == |targets|
    ensures forall i :: 0 <= i < |r| ==> r[i] == Target(true, targets[i].caller, targets[i].stage.shardID)
  {
    seq(|targets|, i requires 0 <= i < |targets| => Target(true, targets[i].caller, targets[i].stage.shardID))
  }

  /** Nothing else changed the fleet between the calls. */
  ghost predicate Quiet(before: Fleet, calls: seq<Exchange>) {
    forall k :: 0 <= k < |calls| ==> calls[k].sent == FleetBefore(before, calls, k)
  }

  function FleetBefore(before: Fleet, calls: seq<Exchange>, k: nat): Fleet
    requires k <= |calls|
  {
    if k == 0 then before else calls[k - 1].after
  }

  /** An open elsewhere leaves a stage as it was. */
  lemma OpenElsewhere(config: Config, model: LayerModel, call: Exchange, entry: Opened, target: BoundTarget, sequenceID: string)
    requires OpenedBy(config, call, entry) && SpotOf(entry) != SpotFor(target, sequenceID)
    ensures StageReady(model, call.sent, target, sequenceID, 0) ==>
              StageReady(model, call.after, target, sequenceID, 0)
              && CodesAt(call.after, target, sequenceID) == CodesAt(call.sent, target, sequenceID)
    ensures StageLoaded(model, call.sent, target, sequenceID) ==>
              StageLoaded(model, call.after, target, sequenceID) && EmptyCodes(call.after, target) == EmptyCodes(call.sent, target)
  {
    hide RunsSlice;
  }

  /** Opening a loaded stage makes it ready with its empty cache. */
  lemma OpenHere(config: Config, model: LayerModel, call: Exchange, entry: Opened, target: BoundTarget)
    requires OpenedBy(config, call, entry) && SpotOf(entry) == SpotFor(target, entry.sequenceID)
    requires StageLoaded(model, call.sent, target, entry.sequenceID)
    ensures StageReady(model, call.after, target, entry.sequenceID, 0)
    ensures CodesAt(call.after, target, entry.sequenceID) == EmptyCodes(call.sent, target)
  {
    hide RunsSlice, StageReady, CodesAt;
    OpenedIsReady(config, model, call.sent, target, entry);
  }

  /** After n opens the first n stages are ready and the others still loaded. */
  ghost predicate OpenedSoFar(model: LayerModel, before: Fleet, fleet: Fleet, targets: seq<BoundTarget>, sequenceID: string, n: nat) {
    && (forall i :: 0 <= i < |targets| && i < n ==>
          StageReady(model, fleet, targets[i], sequenceID, 0)
          && CodesAt(fleet, targets[i], sequenceID) == EmptyCodes(before, targets[i]))
    && (forall i :: n <= i < |targets| ==>
          StageLoaded(model, fleet, targets[i], sequenceID) && EmptyCodes(fleet, targets[i]) == EmptyCodes(before, targets[i]))
  }

  lemma OpenedMore(config: Config, model: LayerModel, before: Fleet, call: Exchange, targets: seq<BoundTarget>,
                   sequenceID: string, ownerID: string, n: nat)
    requires Tiles(model, targets) && n < |targets|
    requires OpenedSoFar(model, before, call.sent, targets, sequenceID, n)
    requires OpenedBy(config, call, Opened(Requested(targets)[n], sequenceID, ownerID))
    ensures OpenedSoFar(model, before, call.after, targets, sequenceID, n + 1)
  {
    hide StageReady, StageLoaded, CodesAt, EmptyCodes, OpenedBy;
    var entry := Opened(Requested(targets)[n], sequenceID, ownerID);
    OpenHere(config, model, call, entry, targets[n]);
    forall i | 0 <= i < |targets| && i != n
      ensures i < n ==> StageReady(model, call.after, targets[i], sequenceID, 0)
                        && CodesAt(call.after, targets[i], sequenceID) == EmptyCodes(before, targets[i])
      ensures i > n ==> StageLoaded(model, call.after, targets[i], sequenceID)
                        && EmptyCodes(call.after, targets[i]) == EmptyCodes(before, targets[i])
    {
      assert targets[i].stage.shardID != targets[n].stage.shardID by {
        if i < n { assert targets[i].stage.shardID != targets[n].stage.shardID; }
      }
      OpenElsewhere(config, model, call, entry, targets[i], sequenceID);
    }
  }

  lemma NoneOpened(model: LayerModel, before: Fleet, targets: seq<BoundTarget>, sequenceID: string)
    requires forall i :: 0 <= i < |targets| ==> StageLoaded(model, before, targets[i], sequenceID)
    ensures OpenedSoFar(model, before, before, targets, sequenceID, 0)
  {
    hide StageLoaded, EmptyCodes;
  }

  lemma FleetAfterCall(before: Fleet, calls: seq<Exchange>, n: nat)
    requires n <= |calls| && Quiet(before, calls)
    ensures n == 0 ==> FleetBefore(before, calls, n) == before
    ensures n > 0 ==> FleetBefore(before, calls, n) == calls[n - 1].after && calls[n - 1].sent == FleetBefore(before, calls, n - 1)
  {
  }

  lemma {:induction false} OpenedAll(config: Config, model: LayerModel, before: Fleet, calls: seq<Exchange>,
                                     targets: seq<BoundTarget>, sequenceID: string, ownerID: string, n: nat)
    requires Tiles(model, targets) && n <= |targets| == |calls| && Quiet(before, calls)
    requires forall i :: 0 <= i < |targets| ==> StageLoaded(model, before, targets[i], sequenceID)
    requires forall k :: 0 <= k < |calls| ==> OpenedBy(config, calls[k], Opened(Requested(targets)[k], sequenceID, ownerID))
    ensures OpenedSoFar(model, before, FleetBefore(before, calls, n), targets, sequenceID, n)
  {
    hide *;
    if n == 0 {
      NoneOpened(model, before, targets, sequenceID);
      FleetAfterCall(before, calls, 0);
    } else {
      FleetAfterCall(before, calls, n);
      OpenedAll(config, model, before, calls, targets, sequenceID, ownerID, n - 1);
      OpenedMore(config, model, before, calls[n - 1], targets, sequenceID, ownerID, n - 1);
    }
  }

  lemma {:induction false} CodesAreEmpty(before: Fleet, after: Fleet, targets: seq<BoundTarget>, sequenceID: string)
    requires forall i :: 0 <= i < |targets| ==> CodesAt(after, targets[i], sequenceID) == EmptyCodes(before, targets[i])
    ensures AllCodes(after, targets, sequenceID) == AllEmptyCodes(before, targets)
  {
    hide CodesAt, EmptyCodes;
    if targets != [] { CodesAreEmpty(before, after, targets[..|targets| - 1], sequenceID); }
  }

  lemma MatrixOfOne(targets: seq<Target>, sequenceID: string, ownerID: string)
    ensures Matrix(targets, [sequenceID], ownerID) == Row(targets, sequenceID, ownerID, |targets|)
  {
    assert [sequenceID][..0] == [] && Matrix(targets, [], ownerID) == [];
    assert [] + Row(targets, sequenceID, ownerID, |targets|) == Row(targets, sequenceID, ownerID, |targets|);
  }

  /** The calls of a successful open over the stages of a plan, with nothing else going
      on: the pipeline they leave is ready at position 0, and its caches are the empty
      caches of the stages. */
  lemma OpenedPipelineIsReady(config: Config, model: LayerModel, before: Fleet, calls: seq<Exchange>, targets: seq<BoundTarget>,
                              sequenceID: string, ownerID: string)
    requires Tiles(model, targets) && Quiet(before, calls)
    requires forall i :: 0 <= i < |targets| ==> StageLoaded(model, before, targets[i], sequenceID)
    requires Opens(config, Matrix(Requested(targets), [sequenceID], ownerID), calls)
    ensures calls != []
    ensures PipelineReady(model, calls[|calls| - 1].after, targets, sequenceID, 0)
    ensures AllCodes(calls[|calls| - 1].after, targets, sequenceID) == AllEmptyCodes(before, targets)
  {
    MatrixOfOne(Requested(targets), sequenceID, ownerID);
    hide StageReady, StageLoaded, CodesAt, EmptyCodes, OpenedBy;
    OpenedAll(config, model, before, calls, targets, sequenceID, ownerID, |targets|);
    CodesAreEmpty(before, calls[|calls| - 1].after, targets, sequenceID);
  }
}
