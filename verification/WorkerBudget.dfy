/** Retained bytes of the whole worker: when adapter estimates bound what returning calls
    keep, a trace stays within the budget exactly when every interrupted stage call
    fits, and which interruptions are certain to fit. */
module WorkerBudget {
  import opened WideArithmetic
  import opened MapSums
  import opened Worker
  import opened WorkerRuns
  import opened WorkerHistory

  /** What the estimates must bound: the cache and the output of a call that returns
      where it should, including the four bytes of a sampled token. */
  ghost predicate WithinEstimate(adapter: Adapter, op: Operation, cache: Cache, input: Tensor) {
    var length := InputLength(input);
    var cacheBytes, outputBytes := adapter.estimateCache(cache, cache.position + length), adapter.estimateOutput(length);
    match adapter.run(op, cache, input)
    case Threw(_, _) => true
    case Computed(after, output, _) =>
      after.position == cache.position + length ==>
        && (cacheBytes.Some? ==> after.memoryBytes <= cacheBytes.value)
        && (outputBytes.Some? ==> output.ByteCount() <= outputBytes.value && SAMPLED_TOKEN_BYTES <= outputBytes.value)
  }

  ghost predicate Bounded(adapter: Adapter) {
    && adapter.emptyCache.position == 0 && adapter.emptyCache.memoryBytes == 0
    && forall op, cache, input :: WithinEstimate(adapter, op, cache, input)
  }

  ghost predicate AllBounded(s: Service) {
    forall id :: id in s.shards ==> Bounded(s.shards[id].adapter)
  }

  ghost predicate LoadsBounded(commands: seq<Command>) {
    forall i :: 0 <= i < |commands| && commands[i].Load? ==> Bounded(commands[i].shard.adapter)
  }

  ghost predicate BudgetValid(config: Config) {
    0 <= config.workerBudgetBytes <= INT_MAX
  }

  // ---------------------------------------------------------------------------
  // Sums under single changes

  lemma ShardReplaced(shards: map<string, Shard>, id: string, shard: Shard)
    ensures WorkerBytes(shards[id := shard])
            == WorkerBytes(shards) + ShardBytes(shard) - (if id in shards then ShardBytes(shards[id]) else 0)
  {
    hide ShardBytes;
    assert BytesByShard(shards[id := shard]) == BytesByShard(shards)[id := ShardBytes(shard)];
    SumUpdate(BytesByShard(shards), id, ShardBytes(shard));
  }

  lemma SequenceReplaced(shard: Shard, id: string, sequence: Sequence)
    ensures ShardBytes(shard.(sequences := shard.sequences[id := sequence]))
            == ShardBytes(shard) + SequenceBytes(sequence) - (if id in shard.sequences then SequenceBytes(shard.sequences[id]) else 0)
  {
    hide SequenceBytes;
    assert BytesBySequence(shard.sequences[id := sequence]) == BytesBySequence(shard.sequences)[id := SequenceBytes(sequence)];
    SumUpdate(BytesBySequence(shard.sequences), id, SequenceBytes(sequence));
  }

  lemma SequenceRemoved(shard: Shard, id: string)
    requires id in shard.sequences
    ensures ShardBytes(shard.(sequences := shard.sequences - {id})) == ShardBytes(shard) - SequenceBytes(shard.sequences[id])
  {
    hide SequenceBytes;
    assert BytesBySequence(shard.sequences - {id}) == BytesBySequence(shard.sequences) - {id};
    SumRemove(BytesBySequence(shard.sequences), id);
  }

  lemma CountsWeighNothing(shard: Shard, count: nat)
    ensures ShardBytes(shard.(forwardCount := count)) == ShardBytes(shard)
  {
  }

  lemma SequenceCounted(s: Service, place: Place)
    requires IsOpen(s, place)
    ensures SequenceBytes(At(s, place)) <= ShardBytes(s.shards[place.shardID]) <= WorkerBytes(s.shards)
  {
    SumPart(BytesBySequence(s.shards[place.shardID].sequences), place.sequenceID);
    SumPart(BytesByShard(s.shards), place.shardID);
  }

  lemma WithSequenceBytes(s: Service, request: ForwardRequest, sequence: Sequence, counted: bool)
    requires IsOpen(s, PlaceOf(request))
    ensures WorkerBytes(WithSequence(s, request, sequence, counted).shards)
            == WorkerBytes(s.shards) + SequenceBytes(sequence) - SequenceBytes(At(s, PlaceOf(request)))
  {
    hide WorkerBytes, ShardBytes, SequenceBytes;
    var shard := s.shards[request.shardID];
    var updated := shard.(sequences := shard.sequences[request.sequenceID := sequence]);
    var after := WithSequence(s, request, sequence, counted).shards[request.shardID];
    SequenceReplaced(shard, request.sequenceID, sequence);
    CountsWeighNothing(updated, after.forwardCount);
    ShardReplaced(s.shards, request.shardID, after);
  }

  // ---------------------------------------------------------------------------
  // The budget guard

  /** Passing the guard leaves room for the estimate of the sequence's new state. */
  lemma GuardLeavesRoom(config: Config, s: Service, c: Command)
    requires Ran(config, s, c) && IsOpen(s, PlaceOf(c.request)) && WorkerBytes(s.shards) <= INT_MAX
    ensures var sequence := At(s, PlaceOf(c.request));
            var adapter := AdapterAt(s, PlaceOf(c.request));
            var length := InputLength(c.request.input);
            var cacheBytes := adapter.estimateCache(sequence.cache, sequence.nextPosition + length);
            var outputBytes := adapter.estimateOutput(length);
            && cacheBytes.Some? && outputBytes.Some?
            && WorkerBytes(s.shards) - SequenceBytes(sequence) + cacheBytes.value + outputBytes.value <= config.workerBudgetBytes
  {
    SequenceCounted(s, PlaceOf(c.request));
    hide WorkerBytes, ShardBytes, SequenceBytes, InputError;
  }

  /** A call that threw, or returned with the cache at another position: the new cache
      stays beside the old replay record. */
  predicate Interrupted(sequence: Sequence, request: ForwardRequest, outcome: StageOutcome) {
    outcome.Threw? || outcome.cache.position != sequence.nextPosition + InputLength(request.input)
  }

  function OutcomeOf(s: Service, c: Command): StageOutcome
    requires c.Request? && IsOpen(s, PlaceOf(c.request))
  {
    AdapterAt(s, PlaceOf(c.request)).run(c.op, At(s, PlaceOf(c.request)).cache, c.request.input)
  }

  /** What an interrupted call leaves on the worker is within the budget. */
  ghost predicate InterruptionFits(config: Config, s: Service, c: Command) {
    Ran(config, s, c) && IsOpen(s, PlaceOf(c.request)) ==>
      var sequence := At(s, PlaceOf(c.request));
      Interrupted(sequence, c.request, OutcomeOf(s, c)) ==>
        WorkerBytes(s.shards) - SequenceBytes(sequence) + OutcomeOf(s, c).cache.memoryBytes + ReplayBytes(sequence)
        <= config.workerBudgetBytes
  }

  /** The new state of a sequence fits what was estimated, unless the call was interrupted. */
  lemma StageFits(adapter: Adapter, sequence: Sequence, op: Operation, request: ForwardRequest)
    requires op != Forward && WithinEstimate(adapter, op, sequence.cache, request.input)
    requires sequence.cache.position == sequence.nextPosition
    ensures var length := InputLength(request.input);
            var outcome := adapter.run(op, sequence.cache, request.input);
            var after := AfterStage(sequence, op, request, outcome).0;
            var cacheBytes := adapter.estimateCache(sequence.cache, sequence.nextPosition + length);
            var outputBytes := adapter.estimateOutput(length);
            if Interrupted(sequence, request, outcome)
            then SequenceBytes(after) == outcome.cache.memoryBytes + ReplayBytes(sequence)
            else cacheBytes.Some? && outputBytes.Some? ==> SequenceBytes(after) <= cacheBytes.value + outputBytes.value
  {
    hide Tensor.ByteCount;
  }

  lemma BoundedStage(s: Service, op: Operation, request: ForwardRequest)
    requires AllBounded(s) && IsOpen(s, PlaceOf(request))
    ensures WithinEstimate(AdapterAt(s, PlaceOf(request)), op, At(s, PlaceOf(request)).cache, request.input)
  {
    hide WithinEstimate;
  }

  /** After a request the worker is within the budget exactly when an interruption fits. */
  lemma RequestWithinBudget(config: Config, s: Service, logs: Logs, c: Command)
    requires c.Request? && Logged(s, logs) && BudgetValid(config) && AllBounded(s) && WorkerBytes(s.shards) <= config.workerBudgetBytes
    ensures WorkerBytes(Handle(config, s, c).0.shards) <= config.workerBudgetBytes <==> InterruptionFits(config, s, c)
  {
    hide SequenceBytes, ShardBytes, WorkerBytes, AfterStage, StatelessReply, AllBounded, IsOpen, At, AdapterAt, SequenceLogged,
      WithinEstimate, Interrupted, ReplayBytes;
    var place := PlaceOf(c.request);
    if c.activeBefore && Refusal(config, Saturated(WorkerBytes(s.shards)), s, c.op, c.request).None? {
      GoAheadIsOpen(config, s, c);
      var sequence := At(s, place);
      ExecuteShape(config, s, c);
      if c.op == Forward {
        WithSequenceBytes(s, c.request, sequence, Execute(s, c.op, c.request).1.Ok?);
      } else {
        RanGuards(config, s, c);
        if !sequence.prefilled { PrefilledFromZero(s, logs, place); }
        PositionsAgree(config, s, c);
        GuardLeavesRoom(config, s, c);
        BoundedStage(s, c.op, c.request);
        StageFits(AdapterAt(s, place), sequence, c.op, c.request);
        WithSequenceBytes(s, c.request, AfterStage(sequence, c.op, c.request, OutcomeOf(s, c)).0, Execute(s, c.op, c.request).1.Ok?);
      }
    }
  }

  lemma GoAheadIsOpen(config: Config, s: Service, c: Command)
    requires c.Request? && Refusal(config, Saturated(WorkerBytes(s.shards)), s, c.op, c.request).None?
    ensures IsOpen(s, PlaceOf(c.request))
  {
    GoAheadFinds(config, Saturated(WorkerBytes(s.shards)), s, c.op, c.request);
  }

  /** The position guard already compared the cache with the next position. */
  lemma PositionsAgree(config: Config, s: Service, c: Command)
    requires Ran(config, s, c) && IsOpen(s, PlaceOf(c.request))
    requires c.op == Prefill ==> At(s, PlaceOf(c.request)).nextPosition == 0
    ensures At(s, PlaceOf(c.request)).cache.position == At(s, PlaceOf(c.request)).nextPosition
  {
    RanGuards(config, s, c);
  }

  lemma ExecuteShape(config: Config, s: Service, c: Command)
    requires c.Request? && c.activeBefore && IsOpen(s, PlaceOf(c.request))
    requires Refusal(config, Saturated(WorkerBytes(s.shards)), s, c.op, c.request).None?
    ensures var sequence := At(s, PlaceOf(c.request));
            var outcome := AdapterAt(s, PlaceOf(c.request)).run(c.op, sequence.cache, c.request.input);
            Handle(config, s, c).0 == WithSequence(s, c.request,
              if c.op == Forward then sequence else AfterStage(sequence, c.op, c.request, outcome).0,
              Execute(s, c.op, c.request).1.Ok?)
  {
    hide Refusal, AfterStage, StatelessReply, WorkerBytes;
  }

  lemma StepKeepsBounded(config: Config, s: Service, c: Command)
    requires AllBounded(s) && (c.Load? ==> Bounded(c.shard.adapter))
    ensures AllBounded(Handle(config, s, c).0)
  {
    hide Refusal, StatelessReply, AfterStage, WorkerBytes, Bounded;
    if c.Request? && c.activeBefore && Refusal(config, Saturated(WorkerBytes(s.shards)), s, c.op, c.request).None? {
      GoAheadFinds(config, Saturated(WorkerBytes(s.shards)), s, c.op, c.request);
    }
  }

  lemma EmptyShardBytes(shard: Shard)
    requires shard.sequences == map[]
    ensures ShardBytes(shard) == 0
  {
    assert BytesBySequence(shard.sequences) == map[];
  }

  lemma EmptyWorkerBytes()
    ensures WorkerBytes(map[]) == 0
  {
    assert BytesByShard(map[]) == map[];
  }

  lemma ShardRemoved(shards: map<string, Shard>, id: string)
    requires id in shards
    ensures WorkerBytes(shards - {id}) == WorkerBytes(shards) - ShardBytes(shards[id])
  {
    hide ShardBytes;
    assert BytesByShard(shards - {id}) == BytesByShard(shards) - {id};
    SumRemove(BytesByShard(shards), id);
  }

  lemma LifecycleWithinBudget(config: Config, s: Service, c: Command)
    requires !c.Request? && BudgetValid(config) && AllBounded(s) && WorkerBytes(s.shards) <= config.workerBudgetBytes
    ensures WorkerBytes(Handle(config, s, c).0.shards) <= config.workerBudgetBytes
  {
    hide ShardBytes, WorkerBytes, Refusal;
    match c {
      case Load(shardID, shard) =>
        var fresh' := shard.(sequences := map[], forwardCount := 0);
        EmptyShardBytes(fresh');
        ShardReplaced(s.shards, shardID, fresh');
      case Unload(shardID) =>
        if shardID in s.shards { ShardRemoved(s.shards, shardID); }
      case Open(shardID, sequenceID, ownerID) =>
        if shardID in s.shards {
          var shard := s.shards[shardID];
          var sequence := Sequence(shard.adapter.emptyCache, ownerID, 0, false, None);
          SequenceReplaced(shard, sequenceID, sequence);
          ShardReplaced(s.shards, shardID, shard.(sequences := shard.sequences[sequenceID := sequence]));
        }
      case Close(shardID, sequenceID, _) =>
        if shardID in s.shards && sequenceID in s.shards[shardID].sequences {
          var shard := s.shards[shardID];
          SequenceRemoved(shard, sequenceID);
          ShardReplaced(s.shards, shardID, shard.(sequences := shard.sequences - {sequenceID}));
        }
      case Shutdown => EmptyWorkerBytes();
      case Inspect =>
    }
  }

  /** The worker is within its budget now and after each of the commands. */
  ghost predicate AlwaysWithin(config: Config, s: Service, commands: seq<Command>)
    decreases |commands|
  {
    && WorkerBytes(s.shards) <= config.workerBudgetBytes
    && (commands != [] ==> AlwaysWithin(config, Handle(config, s, commands[0]).0, commands[1..]))
  }

  ghost predicate InterruptionsFit(config: Config, s: Service, commands: seq<Command>)
    decreases |commands|
  {
    commands != [] ==>
      InterruptionFits(config, s, commands[0]) && InterruptionsFit(config, Handle(config, s, commands[0]).0, commands[1..])
  }

  lemma {:induction false} RunWithinBudget(config: Config, s: Service, logs: Logs, commands: seq<Command>)
    requires BudgetValid(config) && AllBounded(s) && Logged(s, logs) && LoadsBounded(commands)
    requires WorkerBytes(s.shards) <= config.workerBudgetBytes
    ensures AlwaysWithin(config, s, commands) <==> InterruptionsFit(config, s, commands)
    decreases |commands|
  {
    hide Handle, LogsAfter, Logged, AllBounded, Bounded, WorkerBytes, InterruptionFits;
    if commands != [] {
      var c := commands[0];
      StepKeepsBounded(config, s, c);
      StepKeepsLogged(config, s, logs, c);
      if c.Request? {
        RequestWithinBudget(config, s, logs, c);
      } else {
        LifecycleWithinBudget(config, s, c);
        OnlyRequestsAreInterrupted(config, s, c);
      }
      if WorkerBytes(Handle(config, s, c).0.shards) <= config.workerBudgetBytes {
        RunWithinBudget(config, Handle(config, s, c).0, LogsAfter(config, s, logs, c), commands[1..]);
      } else {
        NotWithinAfter(config, Handle(config, s, c).0, commands[1..]);
      }
    }
  }

  lemma OnlyRequestsAreInterrupted(config: Config, s: Service, c: Command)
    requires !c.Request?
    ensures InterruptionFits(config, s, c)
  {
  }

  lemma NotWithinAfter(config: Config, s: Service, commands: seq<Command>)
    requires WorkerBytes(s.shards) > config.workerBudgetBytes
    ensures !AlwaysWithin(config, s, commands)
  {
    hide Handle, WorkerBytes;
  }

  lemma {:induction false} WithinAtTheEnd(config: Config, s: Service, commands: seq<Command>)
    requires AlwaysWithin(config, s, commands)
    ensures WorkerBytes(Run(config, s, commands).0.shards) <= config.workerBudgetBytes
    decreases |commands|
  {
    hide Handle, WorkerBytes;
    if commands != [] { WithinAtTheEnd(config, Handle(config, s, commands[0]).0, commands[1..]); }
  }

  /** A trace keeps the bytes retained by all sequences together within the budget at
      every moment exactly when each interrupted stage call fits, and then no
      saturating sum ever saturates. */
  lemma RetainedWithinBudget(config: Config, commands: seq<Command>)
    requires BudgetValid(config) && LoadsBounded(commands)
    ensures AlwaysWithin(config, FRESH, commands) <==> InterruptionsFit(config, FRESH, commands)
    ensures var shards := Run(config, FRESH, commands).0.shards;
            InterruptionsFit(config, FRESH, commands) ==>
              && WorkerBytes(shards) <= config.workerBudgetBytes
              && Saturated(WorkerBytes(shards)) == WorkerBytes(shards)
              && (forall id :: id in shards ==> Saturated(ShardBytes(shards[id])) == ShardBytes(shards[id]))
              && (forall id, q :: id in shards && q in shards[id].sequences ==>
                    Saturated(SequenceBytes(shards[id].sequences[q])) == SequenceBytes(shards[id].sequences[q]))
  {
    EmptyWorkerBytes();
    RunWithinBudget(config, FRESH, map[], commands);
    hide InterruptionsFit, AlwaysWithin;
    if InterruptionsFit(config, FRESH, commands) {
      WithinAtTheEnd(config, FRESH, commands);
      PartsDoNotSaturate(Run(config, FRESH, commands).0);
    }
  }

  lemma PartsDoNotSaturate(s: Service)
    requires WorkerBytes(s.shards) <= INT_MAX
    ensures forall id :: id in s.shards ==> Saturated(ShardBytes(s.shards[id])) == ShardBytes(s.shards[id])
    ensures forall id, q :: id in s.shards && q in s.shards[id].sequences ==>
              Saturated(SequenceBytes(s.shards[id].sequences[q])) == SequenceBytes(s.shards[id].sequences[q])
  {
    forall id | id in s.shards ensures ShardBytes(s.shards[id]) <= WorkerBytes(s.shards) {
      SumPart(BytesByShard(s.shards), id);
    }
    forall id, q | id in s.shards && q in s.shards[id].sequences
      ensures SequenceBytes(s.shards[id].sequences[q]) <= WorkerBytes(s.shards)
    {
      SequenceCounted(s, Place(id, q));
    }
  }

  // ---------------------------------------------------------------------------
  // Which interruptions are certain to fit

  /** The estimate of the new cache, as the guard of a request that runs found it. */
  ghost function CacheEstimate(s: Service, c: Command): Option<int>
    requires c.Request? && IsOpen(s, PlaceOf(c.request))
  {
    var sequence := At(s, PlaceOf(c.request));
    AdapterAt(s, PlaceOf(c.request)).estimateCache(sequence.cache, sequence.nextPosition + InputLength(c.request.input))
  }

  /** The cache did not grow, or its growth is covered by the estimates less the replay
      record that stays. */
  ghost predicate Covered(config: Config, s: Service, c: Command) {
    Ran(config, s, c) && IsOpen(s, PlaceOf(c.request)) ==>
      var sequence, adapter, after := At(s, PlaceOf(c.request)), AdapterAt(s, PlaceOf(c.request)), OutcomeOf(s, c).cache;
      var outputBytes := adapter.estimateOutput(InputLength(c.request.input));
      Interrupted(sequence, c.request, OutcomeOf(s, c)) ==>
        || after.memoryBytes <= sequence.cache.memoryBytes
        || (CacheEstimate(s, c).Some? && outputBytes.Some?
            && after.memoryBytes <= CacheEstimate(s, c).value + outputBytes.value - ReplayBytes(sequence))
  }

  lemma CoveredFits(config: Config, s: Service, c: Command)
    requires WorkerBytes(s.shards) <= config.workerBudgetBytes && BudgetValid(config) && Covered(config, s, c)
    ensures InterruptionFits(config, s, c)
  {
    hide Refusal, WorkerBytes;
    if c.Request? && Ran(config, s, c) && IsOpen(s, PlaceOf(c.request)) { GuardLeavesRoom(config, s, c); }
    hide IsOpen, At, AdapterAt, Interrupted, ReplayBytes;
  }

  ghost predicate AllCovered(config: Config, s: Service, commands: seq<Command>)
    decreases |commands|
  {
    commands != [] ==>
      Covered(config, s, commands[0]) && AllCovered(config, Handle(config, s, commands[0]).0, commands[1..])
  }

  lemma {:induction false} CoveredRunFits(config: Config, s: Service, logs: Logs, commands: seq<Command>)
    requires BudgetValid(config) && AllBounded(s) && Logged(s, logs) && LoadsBounded(commands)
    requires WorkerBytes(s.shards) <= config.workerBudgetBytes && AllCovered(config, s, commands)
    ensures InterruptionsFit(config, s, commands)
    decreases |commands|
  {
    hide Handle, LogsAfter, Logged, AllBounded, Bounded, WorkerBytes, InterruptionFits, Covered;
    if commands != [] {
      var c := commands[0];
      StepKeepsBounded(config, s, c);
      StepKeepsLogged(config, s, logs, c);
      CoveredFits(config, s, c);
      if c.Request? { RequestWithinBudget(config, s, logs, c); } else { LifecycleWithinBudget(config, s, c); }
      CoveredRunFits(config, Handle(config, s, c).0, LogsAfter(config, s, logs, c), commands[1..]);
    }
  }

  /** So a trace whose interruptions are covered stays within the budget. */
  lemma CoveredWithinBudget(config: Config, commands: seq<Command>)
    requires BudgetValid(config) && LoadsBounded(commands) && AllCovered(config, FRESH, commands)
    ensures AlwaysWithin(config, FRESH, commands)
  {
    EmptyWorkerBytes();
    CoveredRunFits(config, FRESH, map[], commands);
    RetainedWithinBudget(config, commands);
  }

  // ---------------------------------------------------------------------------
  // What is known before the call

  function WithRun(s: Service, shardID: string, run: (Operation, Cache, Tensor) -> StageOutcome): Service
    requires shardID in s.shards
  {
    var shard := s.shards[shardID];
    s.(shards := s.shards[shardID := shard.(adapter := shard.adapter.(run := run))])
  }

  /** The stage computes otherwise, and throws leaving at most the estimated cache. */
  ghost predicate ThrowsWithin(s: Service, c: Command, run: (Operation, Cache, Tensor) -> StageOutcome)
    requires c.Request? && IsOpen(s, PlaceOf(c.request))
  {
    var outcome := run(c.op, At(s, PlaceOf(c.request)).cache, c.request.input);
    outcome.Threw? && CacheEstimate(s, c).Some? && outcome.cache.memoryBytes <= CacheEstimate(s, c).value
  }

  /** Guards and sizes do not look at what the stage computes. */
  lemma RunIsUnseen(config: Config, s: Service, c: Command, run: (Operation, Cache, Tensor) -> StageOutcome)
    requires Ran(config, s, c) && IsOpen(s, PlaceOf(c.request))
    ensures var s' := WithRun(s, c.request.shardID, run);
            && IsOpen(s', PlaceOf(c.request)) && At(s', PlaceOf(c.request)) == At(s, PlaceOf(c.request))
            && WorkerBytes(s'.shards) == WorkerBytes(s.shards) && Ran(config, s', c)
            && AdapterAt(s', PlaceOf(c.request)).run == run
  {
    hide WorkerBytes, InputError, MutationError, Replayed, ShardBytes;
    var shard, s' := s.shards[c.request.shardID], WithRun(s, c.request.shardID, run);
    var shard' := s'.shards[c.request.shardID];
    SameShardBytes(shard, shard');
    ShardReplaced(s.shards, c.request.shardID, shard');
    GuardsIgnoreRun(config, Saturated(WorkerBytes(s.shards)), shard, shard', At(s, PlaceOf(c.request)), c.op, c.request);
  }

  lemma SameShardBytes(shard: Shard, shard': Shard)
    requires shard'.sequences == shard.sequences
    ensures ShardBytes(shard') == ShardBytes(shard)
  {
  }

  lemma GuardsIgnoreRun(config: Config, retained: int, shard: Shard, shard': Shard, sequence: Sequence, op: Operation,
                        request: ForwardRequest)
    requires shard' == shard.(adapter := shard.adapter.(run := shard'.adapter.run))
    ensures InputError(shard', request) == InputError(shard, request)
    ensures MutationError(config, retained, shard', sequence, op, request) == MutationError(config, retained, shard, sequence, op, request)
  {
    hide TokensValid, HiddenValid, InputLength, SequenceBytes;
  }

  /** What a throw leaves on the worker. */
  lemma ThrowLeaves(config: Config, s: Service, c: Command, run: (Operation, Cache, Tensor) -> StageOutcome)
    requires Ran(config, s, c) && IsOpen(s, PlaceOf(c.request))
    requires run(c.op, At(s, PlaceOf(c.request)).cache, c.request.input).Threw?
    ensures var sequence := At(s, PlaceOf(c.request));
            WorkerBytes(Handle(config, WithRun(s, c.request.shardID, run), c).0.shards)
            == WorkerBytes(s.shards) - SequenceBytes(sequence)
               + run(c.op, sequence.cache, c.request.input).cache.memoryBytes + ReplayBytes(sequence)
  {
    hide WorkerBytes, Handle, WithSequence, WithRun, Refusal, SequenceBytes;
    var s', sequence := WithRun(s, c.request.shardID, run), At(s, PlaceOf(c.request));
    RunIsUnseen(config, s, c, run);
    ExecuteShape(config, s', c);
    var after := AfterStage(sequence, c.op, c.request, run(c.op, sequence.cache, c.request.input)).0;
    WithSequenceBytes(s', c.request, after, Execute(s', c.op, c.request).1.Ok?);
    ThrownSequence(sequence, c, run(c.op, sequence.cache, c.request.input));
  }

  lemma ThrownSequence(sequence: Sequence, c: Command, outcome: StageOutcome)
    requires c.Request? && c.op != Forward && outcome.Threw?
    ensures SequenceBytes(AfterStage(sequence, c.op, c.request, outcome).0) == outcome.cache.memoryBytes + ReplayBytes(sequence)
  {
  }

  /** For a request that passed the guard: every stage that would throw leaving at most
      the estimated cache keeps the worker within its budget exactly when the other
      sequences, that estimate and the old replay record fit together. */
  lemma ThrowsFitExactly(config: Config, s: Service, c: Command)
    requires Ran(config, s, c) && IsOpen(s, PlaceOf(c.request))
    requires CacheEstimate(s, c).Some? && CacheEstimate(s, c).value >= 0
    ensures var sequence := At(s, PlaceOf(c.request));
            (forall run :: ThrowsWithin(s, c, run) ==>
               WorkerBytes(Handle(config, WithRun(s, c.request.shardID, run), c).0.shards) <= config.workerBudgetBytes)
            <==> WorkerBytes(s.shards) - SequenceBytes(sequence) + CacheEstimate(s, c).value + ReplayBytes(sequence)
                 <= config.workerBudgetBytes
  {
    assert c.Request?;
    hide WorkerBytes, Handle, WithRun, SequenceBytes, ReplayBytes, CacheEstimate, Ran;
    var sequence, estimate := At(s, PlaceOf(c.request)), CacheEstimate(s, c).value;
    var worst := (op: Operation, cache: Cache, input: Tensor) => Threw(Cache(cache.position, estimate, []), "");
    assert ThrowsWithin(s, c, worst);
    ThrowLeaves(config, s, c, worst);
    forall run | ThrowsWithin(s, c, run)
      ensures WorkerBytes(Handle(config, WithRun(s, c.request.shardID, run), c).0.shards)
              <= WorkerBytes(s.shards) - SequenceBytes(sequence) + estimate + ReplayBytes(sequence)
    {
      ThrowLeaves(config, s, c, run);
    }
  }

  // ---------------------------------------------------------------------------
  // An interruption that does not fit

  const INT32 := ElementType("int32", 4)
  const BYTE := ElementType("uint8", 1)

  const SIX_BYTES := Tensor([6], BYTE, [0, 0, 0, 0, 0, 0])

  /** A prefill of two positions leaves two cache bytes and six output bytes; a decode
      throws after growing the cache to the five bytes it announced. */
  ghost function GrowingThenThrowing(): Adapter {
    Adapter(Metadata(INT32, 2, 1, {}, 3, 1, 100), Cache(0, 0, []),
      (op: Operation, cache: Cache, input: Tensor) =>
        if op == Decode || InputLength(input) != 2 then Threw(Cache(cache.position, 5, []), "out of memory")
        else Computed(Cache(cache.position + 2, 2, []), SIX_BYTES, Argmax(0)),
      (cache: Cache, position: int) => Some(if position == 3 then 5 else 2),
      (length: int) => Some(if length == 2 then 6 else 4))
  }

  const REPLAYED := ForwardResult(Prefill, 0, 2, SIX_BYTES, None, 2)
  const OPENED := Sequence(Cache(0, 0, []), None, 0, false, None)
  const PREFILLED := Sequence(Cache(2, 2, []), None, 2, true,
    Some(Completed(Prefill, 0, "tokens", Tensor([1, 2], INT32, [0, 0]), false, Succeeded(REPLAYED))))
  const THROWN := PREFILLED.(cache := Cache(2, 5, []))
  const PREFILL := Worker.ForwardRequest("m", "q", 0, "tokens", Tensor([1, 2], INT32, [0, 0]), false)
  const DECODE := Worker.ForwardRequest("m", "q", 2, "tokens", Tensor([1, 1], INT32, [0]), false)
  const SMALL := Config(1, 10)

  ghost function Holding(sequences: map<string, Sequence>, count: nat): Service {
    Service(map["m" := Shard("model", true, true, GrowingThenThrowing(), sequences, count)], count)
  }

  lemma OneSequenceBytes(shard: Shard)
    requires shard.sequences.Keys == {"q"}
    ensures WorkerBytes(map["m" := shard]) == SequenceBytes(shard.sequences["q"])
  {
    hide SequenceBytes;
    EmptyWorkerBytes();
    ShardReplaced(map[], "m", shard);
    var bare := shard.(sequences := map[]);
    EmptyShardBytes(bare);
    SequenceReplaced(bare, "q", shard.sequences["q"]);
    assert bare.(sequences := bare.sequences["q" := shard.sequences["q"]]) == shard;
  }

  lemma InputsAccepted(count: nat)
    ensures InputError(Holding(map[], count).shards["m"], PREFILL).None? && InputError(Holding(map[], count).shards["m"], DECODE).None?
  {
    assert [1, 2][..1] == [1] && [1, 1][..1] == [1] && [1][..0] == [];
    assert ElementCount([]) == Some(1) && ElementCount([1]) == Some(1);
    assert TensorValid(PREFILL.input) && TensorValid(DECODE.input);
  }

  lemma InputErrorIgnoresSequences(shard: Shard, sequences: map<string, Sequence>, request: ForwardRequest)
    ensures InputError(shard.(sequences := sequences), request) == InputError(shard, request)
  {
    hide TokensValid, HiddenValid;
  }

  lemma PrefillAllowed()
    ensures Refusal(SMALL, 0, Holding(map["q" := OPENED], 0), Prefill, PREFILL).None?
  {
    InputsAccepted(0);
    InputErrorIgnoresSequences(Holding(map[], 0).shards["m"], map["q" := OPENED], PREFILL);
    hide InputError;
  }

  lemma PrefillReplaces()
    ensures AfterStage(OPENED, Prefill, PREFILL, GrowingThenThrowing().run(Prefill, OPENED.cache, PREFILL.input))
            == (PREFILLED, Ok(REPLAYED))
  {
  }

  lemma PrefillExecutes()
    ensures Execute(Holding(map["q" := OPENED], 0), Prefill, PREFILL).0 == Holding(map["q" := PREFILLED], 1)
  {
    PrefillReplaces();
    hide AfterStage, GrowingThenThrowing;
    assert map["q" := OPENED]["q" := PREFILLED] == map["q" := PREFILLED];
  }

  lemma PrefillRuns()
    ensures Infer(SMALL, Holding(map["q" := OPENED], 0), Prefill, PREFILL).0 == Holding(map["q" := PREFILLED], 1)
  {
    OneSequenceBytes(Holding(map["q" := OPENED], 0).shards["m"]);
    PrefillAllowed();
    PrefillExecutes();
    hide Refusal, WorkerBytes, Execute, GrowingThenThrowing;
  }

  lemma DecodeAllowed()
    ensures Refusal(SMALL, 8, Holding(map["q" := PREFILLED], 1), Decode, DECODE).None?
  {
    InputsAccepted(1);
    InputErrorIgnoresSequences(Holding(map[], 1).shards["m"], map["q" := PREFILLED], DECODE);
    hide InputError;
  }

  lemma DecodeReplaces()
    ensures AfterStage(PREFILLED, Decode, DECODE, GrowingThenThrowing().run(Decode, PREFILLED.cache, DECODE.input)).0 == THROWN
    ensures AfterStage(PREFILLED, Decode, DECODE, GrowingThenThrowing().run(Decode, PREFILLED.cache, DECODE.input)).1.Err?
  {
  }

  lemma DecodeExecutes()
    ensures Execute(Holding(map["q" := PREFILLED], 1), Decode, DECODE).0 == Holding(map["q" := THROWN], 1)
  {
    DecodeReplaces();
    hide AfterStage, GrowingThenThrowing;
    assert map["q" := PREFILLED]["q" := THROWN] == map["q" := THROWN];
  }

  lemma DecodeThrows()
    ensures Infer(SMALL, Holding(map["q" := PREFILLED], 1), Decode, DECODE).0 == Holding(map["q" := THROWN], 1)
  {
    OneSequenceBytes(Holding(map["q" := PREFILLED], 1).shards["m"]);
    DecodeAllowed();
    DecodeExecutes();
    hide Refusal, WorkerBytes, Execute, GrowingThenThrowing;
  }

  lemma RunFirst(config: Config, s: Service, c: Command, rest: seq<Command>)
    ensures Run(config, s, [c] + rest).0 == Run(config, Handle(config, s, c).0, rest).0
  {
    hide Handle;
    assert ([c] + rest)[1..] == rest;
  }

  lemma SetupRuns(shard: Shard)
    requires shard == Holding(map[], 0).shards["m"]
    ensures Handle(SMALL, FRESH, Load("m", shard)).0 == Holding(map[], 0)
    ensures Handle(SMALL, Holding(map[], 0), Open("m", "q", None)).0 == Holding(map["q" := OPENED], 0)
  {
    hide Infer;
    assert map[]["q" := OPENED] == map["q" := OPENED];
  }

  lemma RunChain(config: Config, s0: Service, c0: Command, s1: Service, c1: Command, s2: Service, c2: Command, s3: Service, c3: Command)
    requires Handle(config, s0, c0).0 == s1 && Handle(config, s1, c1).0 == s2 && Handle(config, s2, c2).0 == s3
    ensures Run(config, s0, [c0] + ([c1] + ([c2] + ([c3] + [])))).0 == Handle(config, s3, c3).0
  {
    hide Handle;
    RunFirst(config, s0, c0, [c1] + ([c2] + ([c3] + [])));
    RunFirst(config, s1, c1, [c2] + ([c3] + []));
    RunFirst(config, s2, c2, [c3] + []);
    RunFirst(config, s3, c3, []);
  }

  const PREFILL_COMMAND := Request(Prefill, PREFILL, true, true)
  const DECODE_COMMAND := Request(Decode, DECODE, true, true)

  lemma PrefillHandled()
    ensures Handle(SMALL, Holding(map["q" := OPENED], 0), PREFILL_COMMAND).0 == Holding(map["q" := PREFILLED], 1)
  {
    PrefillRuns();
    hide Infer;
  }

  lemma DecodeHandled()
    ensures Handle(SMALL, Holding(map["q" := PREFILLED], 1), DECODE_COMMAND).0 == Holding(map["q" := THROWN], 1)
  {
    DecodeThrows();
    hide Infer;
  }

  lemma ThrownBytes()
    ensures WorkerBytes(Holding(map["q" := THROWN], 1).shards) == 11
  {
    OneSequenceBytes(Holding(map["q" := THROWN], 1).shards["m"]);
  }

  lemma EstimatesBound()
    ensures Bounded(GrowingThenThrowing())
    ensures Holding(map[], 0).shards["m"].adapter == GrowingThenThrowing()
  {
  }

  /** A throwing call grows the cache to the five bytes it announced, and the old replay
      record of six bytes stays beside them: this trace retains 11 bytes on a budget of
      10, so not every interruption in it was covered. */
  lemma GrowingThrowExceedsBudget() returns (commands: seq<Command>)
    ensures LoadsBounded(commands)
    ensures WorkerBytes(Run(SMALL, FRESH, commands).0.shards) == 11 > SMALL.workerBudgetBytes
    ensures !InterruptionsFit(SMALL, FRESH, commands) && !AllCovered(SMALL, FRESH, commands)
  {
    commands := GrowingTrace();
    hide Run, LoadsBounded, InterruptionsFit, AllCovered, WorkerBytes, AlwaysWithin;
    RetainedWithinBudget(SMALL, commands);
    if AllCovered(SMALL, FRESH, commands) { CoveredWithinBudget(SMALL, commands); }
  }

  lemma GrowingTrace() returns (commands: seq<Command>)
    ensures LoadsBounded(commands) && WorkerBytes(Run(SMALL, FRESH, commands).0.shards) == 11
  {
    var shard := Holding(map[], 0).shards["m"];
    EstimatesBound();
    SetupRuns(shard);
    PrefillHandled();
    DecodeHandled();
    ThrownBytes();
    commands := [Load("m", shard)] + ([Open("m", "q", None)] + ([PREFILL_COMMAND] + ([DECODE_COMMAND] + [])));
    assert LoadsBounded(commands) by { hide Bounded; }
    hide *;
    RunChain(SMALL, FRESH, Load("m", shard), Holding(map[], 0), Open("m", "q", None), Holding(map["q" := OPENED], 0),
             PREFILL_COMMAND, Holding(map["q" := PREFILLED], 1), DECODE_COMMAND);
  }
}
