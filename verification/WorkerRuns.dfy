/** Arbitrary request traces against one worker: replay is exactly-once, mutations
    form one prefill followed by decodes, failures freeze a sequence, and retained
    bytes stay within the budget. */
module WorkerRuns {
  import opened WideArithmetic
  import opened Worker

  datatype Command =
    | Load(shardID: string, shard: Shard)
    | Unload(shardID: string)
    | Open(shardID: string, sequenceID: string, ownerID: Option<string>)
    | Close(shardID: string, sequenceID: string, ownerID: Option<string>)
    | Request(op: Operation, request: ForwardRequest, activeBefore: bool, activeAfter: bool)
    | Inspect
    | Shutdown

  datatype Response = Done | Forwarded(result: ForwardResult) | Failed(error: WorkerError)

  function Plain(error: Option<WorkerError>): Response {
    match error
    case None => Done
    case Some(e) => Failed(e)
  }

  /** The deadline is checked before and after the inference; the second check can
      hide a reply but not undo the mutation. */
  ghost function Handle(config: Config, s: Service, c: Command): (Service, Response) {
    match c
    case Load(shardID, shard) => var (s', e) := LoadShard(s, shardID, shard); (s', Plain(e))
    case Unload(shardID) => var (s', e) := UnloadShard(s, shardID); (s', Plain(e))
    case Open(shardID, sequenceID, ownerID) => var (s', e) := OpenSequence(config, s, shardID, sequenceID, ownerID); (s', Plain(e))
    case Close(shardID, sequenceID, ownerID) => var (s', e) := CloseSequence(s, shardID, sequenceID, ownerID); (s', Plain(e))
    case Request(op, request, activeBefore, activeAfter) =>
      if !activeBefore then (s, Failed(InferenceDeadline)) else
      var (s', reply) := Infer(config, s, op, request);
      (s', if reply.Err? then Failed(reply.error) else if activeAfter then Forwarded(reply.value) else Failed(InferenceDeadline))
    case Inspect => (s, Done)
    case Shutdown => (s.(shards := map[]), Done)
  }

  ghost function Run(config: Config, s: Service, commands: seq<Command>): (Service, seq<Response>)
    decreases |commands|
  {
    if commands == [] then (s, []) else
    var (middle, first) := Handle(config, s, commands[0]);
    var (final, rest) := Run(config, middle, commands[1..]);
    (final, [first] + rest)
  }

  lemma {:induction false} RunAppend(config: Config, s: Service, a: seq<Command>, b: seq<Command>)
    ensures var (middle, first) := Run(config, s, a);
            var (final, rest) := Run(config, middle, b);
            Run(config, s, a + b) == (final, first + rest)
    decreases |a|
  {
    hide Handle;
    if a == [] {
      assert a + b == b;
      assert [] + Run(config, s, b).1 == Run(config, s, b).1;
    } else {
      assert (a + b)[0] == a[0] && (a + b)[1..] == a[1..] + b;
      RunAppend(config, Handle(config, s, a[0]).0, a[1..], b);
      var (middle, first) := Run(config, s, a);
      var (final, rest) := Run(config, middle, b);
      assert [first[0]] + (first[1..] + rest) == first + rest;
    }
  }

  // ---------------------------------------------------------------------------
  // Places

  datatype Place = Place(shardID: string, sequenceID: string)

  predicate IsOpen(s: Service, place: Place) {
    place.shardID in s.shards && place.sequenceID in s.shards[place.shardID].sequences
  }

  function At(s: Service, place: Place): Sequence
    requires IsOpen(s, place)
  {
    s.shards[place.shardID].sequences[place.sequenceID]
  }

  function AdapterAt(s: Service, place: Place): Adapter
    requires IsOpen(s, place)
  {
    s.shards[place.shardID].adapter
  }

  function PlaceOf(request: ForwardRequest): Place {
    Place(request.shardID, request.sequenceID)
  }

  /** The stage call of a command really ran on its sequence. */
  ghost predicate Ran(config: Config, s: Service, c: Command) {
    c.Request? && c.activeBefore && c.op != Forward && Refusal(config, Saturated(WorkerBytes(s.shards)), s, c.op, c.request).None?
  }

  /** Every way a command can change what one sequence holds. */
  lemma OnlyItsOwnSequence(config: Config, s: Service, c: Command, place: Place)
    requires IsOpen(s, place)
    ensures var s' := Handle(config, s, c).0;
            || (IsOpen(s', place) && At(s', place) == At(s, place) && AdapterAt(s', place) == AdapterAt(s, place)
                && s'.shards[place.shardID].ownsOutput == s.shards[place.shardID].ownsOutput)
            || (c.Close? && place == Place(c.shardID, c.sequenceID))
            || c.Shutdown?
            || (Ran(config, s, c) && PlaceOf(c.request) == place)
  {
    hide Refusal, StatelessReply, AfterStage, WorkerBytes;
    if c.Request? && c.activeBefore && Refusal(config, Saturated(WorkerBytes(s.shards)), s, c.op, c.request).None? {
      GoAheadFinds(config, Saturated(WorkerBytes(s.shards)), s, c.op, c.request);
    }
  }

  /** What the stage call left behind. */
  lemma RanResult(config: Config, s: Service, c: Command)
    requires Ran(config, s, c)
    ensures IsOpen(s, PlaceOf(c.request))
    ensures var place := PlaceOf(c.request);
            var sequence := At(s, place);
            var outcome := AdapterAt(s, place).run(c.op, sequence.cache, c.request.input);
            var s' := Handle(config, s, c).0;
            && IsOpen(s', place) && At(s', place) == AfterStage(sequence, c.op, c.request, outcome).0
            && AdapterAt(s', place) == AdapterAt(s, place)
            && s'.shards[place.shardID].ownsOutput == s.shards[place.shardID].ownsOutput
  {
    hide Refusal, AfterStage, WorkerBytes;
    GoAheadFinds(config, Saturated(WorkerBytes(s.shards)), s, c.op, c.request);
  }

  // ---------------------------------------------------------------------------
  // Exactly-once: replay

  /** A record made with sampling sits on an output-owning shard. */
  ghost predicate RecordsSound(s: Service) {
    forall place :: IsOpen(s, place) && At(s, place).completed.Some? && At(s, place).completed.value.returnSampledToken
      ==> s.shards[place.shardID].ownsOutput
  }

  /** The command repeats the latest completed mutation of its sequence. */
  ghost predicate RepeatsLatest(s: Service, c: Command) {
    && c.Request? && c.op != Forward && IsOpen(s, PlaceOf(c.request))
    && At(s, PlaceOf(c.request)).completed.Some?
    && At(s, PlaceOf(c.request)).completed.value.Matches(c.op, c.request)
  }

  /** A repeat changes nothing and answers with the recorded outcome. */
  lemma RepeatIsReplayed(config: Config, s: Service, c: Command)
    requires RecordsSound(s) && RepeatsLatest(s, c)
    ensures Handle(config, s, c).0 == s
    ensures var outcome := At(s, PlaceOf(c.request)).completed.value.outcome;
            Handle(config, s, c).1 ==
              if !c.activeBefore then Failed(InferenceDeadline)
              else if outcome.FailedWith? then Failed(InvalidRequest(outcome.reason))
              else if c.activeAfter then Forwarded(outcome.result) else Failed(InferenceDeadline)
  {
    hide InputError, MutationError, WorkerBytes;
  }

  /** A request that was answered is the latest mutation from then on. */
  lemma AnsweredIsLatest(config: Config, s: Service, c: Command)
    requires c.Request? && c.op != Forward && Handle(config, s, c).1.Forwarded?
    ensures RepeatsLatest(Handle(config, s, c).0, c)
    ensures At(Handle(config, s, c).0, PlaceOf(c.request)).completed.value.outcome == Succeeded(Handle(config, s, c).1.result)
  {
    hide InputError, MutationError, WorkerBytes;
  }

  /** It stays the latest until its sequence is closed, the worker shuts down, or
      another stage call runs on the same sequence. */
  lemma LatestUntilMutated(config: Config, s: Service, c: Command, d: Command)
    requires RepeatsLatest(s, c)
    ensures || RepeatsLatest(Handle(config, s, d).0, c)
            || (d.Close? && PlaceOf(c.request) == Place(d.shardID, d.sequenceID)) || d.Shutdown?
            || (Ran(config, s, d) && PlaceOf(d.request) == PlaceOf(c.request))
  {
    hide Handle, Ran;
    OnlyItsOwnSequence(config, s, d, PlaceOf(c.request));
  }

  lemma StepKeepsRecords(config: Config, s: Service, c: Command)
    requires RecordsSound(s)
    ensures RecordsSound(Handle(config, s, c).0)
  {
    var s' := Handle(config, s, c).0;
    forall place | IsOpen(s', place) && At(s', place).completed.Some? && At(s', place).completed.value.returnSampledToken
      ensures s'.shards[place.shardID].ownsOutput
    {
      RecordKept(config, s, c, place);
    }
  }

  lemma RecordKept(config: Config, s: Service, c: Command, place: Place)
    requires RecordsSound(s) && IsOpen(Handle(config, s, c).0, place)
    requires At(Handle(config, s, c).0, place).completed.Some? && At(Handle(config, s, c).0, place).completed.value.returnSampledToken
    ensures Handle(config, s, c).0.shards[place.shardID].ownsOutput
  {
    if IsOpen(s, place) {
      OnlyItsOwnSequence(config, s, c, place);
      if Ran(config, s, c) && PlaceOf(c.request) == place {
        RanResult(config, s, c);
        if At(Handle(config, s, c).0, place).completed != At(s, place).completed { RanChecksOwner(config, s, c); }
      }
    } else {
      NewSequenceIsFresh(config, s, c, place);
    }
  }

  lemma RanChecksOwner(config: Config, s: Service, c: Command)
    requires Ran(config, s, c) && c.request.returnSampledToken
    ensures c.request.shardID in s.shards && s.shards[c.request.shardID].ownsOutput
  {
  }

  /** A sequence that was not open before is new: no positions, no record. */
  lemma NewSequenceIsFresh(config: Config, s: Service, c: Command, place: Place)
    requires !IsOpen(s, place) && IsOpen(Handle(config, s, c).0, place)
    ensures c.Open? && place == Place(c.shardID, c.sequenceID) && place.shardID in s.shards
    ensures At(Handle(config, s, c).0, place) ==
            Sequence(s.shards[place.shardID].adapter.emptyCache, c.ownerID, 0, false, None)
    ensures AdapterAt(Handle(config, s, c).0, place) == s.shards[place.shardID].adapter
  {
    hide Refusal, StatelessReply, AfterStage, WorkerBytes;
    if c.Request? && c.activeBefore && Refusal(config, Saturated(WorkerBytes(s.shards)), s, c.op, c.request).None? {
      GoAheadFinds(config, Saturated(WorkerBytes(s.shards)), s, c.op, c.request);
    }
  }

  lemma {:induction false} RunKeepsRecords(config: Config, s: Service, commands: seq<Command>)
    requires RecordsSound(s)
    ensures RecordsSound(Run(config, s, commands).0)
    decreases |commands|
  {
    hide Handle, RecordsSound;
    if commands != [] {
      StepKeepsRecords(config, s, commands[0]);
      RunKeepsRecords(config, Handle(config, s, commands[0]).0, commands[1..]);
    }
  }

  /** Inserting a repeat of the latest completed mutation anywhere in a trace leaves
      the final state and every other response as they were. */
  lemma InsertedRepeatIsInvisible(config: Config, s: Service, before: seq<Command>, c: Command, after: seq<Command>)
    requires RecordsSound(s) && RepeatsLatest(Run(config, s, before).0, c)
    ensures var (final, responses) := Run(config, s, before + after);
            var (final', responses') := Run(config, s, before + [c] + after);
            && final' == final && |responses'| == |responses| + 1 && |before| <= |responses|
            && responses'[..|before|] == responses[..|before|] && responses'[|before| + 1..] == responses[|before|..]
  {
    hide Handle, RecordsSound, RepeatsLatest;
    var (middle, first) := Run(config, s, before);
    RunKeepsRecords(config, s, before);
    RepeatIsReplayed(config, middle, c);
    RunAppend(config, s, before, after);
    RunAppend(config, s, before + [c], after);
    RunAppend(config, s, before, [c]);
    ResponseCount(config, s, before);
    assert [c][1..] == [];
    assert Run(config, middle, [c]).0 == middle;
    ResponseCount(config, middle, [c]);
    ResponseCount(config, middle, after);
  }

  lemma {:induction false} ResponseCount(config: Config, s: Service, commands: seq<Command>)
    ensures |Run(config, s, commands).1| == |commands|
    decreases |commands|
  {
    hide Handle;
    if commands != [] { ResponseCount(config, Handle(config, s, commands[0]).0, commands[1..]); }
  }
}
