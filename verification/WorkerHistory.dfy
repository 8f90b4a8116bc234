/** The mutations a sequence has accepted, in every trace: one prefill at position
    0, then consecutive single-position decodes, each applied to the cache exactly
    once; and after a recorded failure, none until the sequence is closed. */
module WorkerHistory {
  import opened WideArithmetic
  import opened Worker
  import opened WorkerRuns

  datatype Mutation = Mutation(op: Operation, position: int, length: int, input: Tensor)

  type Log = seq<Mutation>

  function Length(log: Log): int {
    if log == [] then 0 else Length(log[..|log| - 1]) + log[|log| - 1].length
  }

  /** One prefill at 0 followed by consecutive one-position decodes. */
  ghost predicate WellFormed(log: Log) {
    forall i :: 0 <= i < |log| ==>
      && log[i].position == Length(log[..i])
      && (i == 0 ==> log[i].op == Prefill)
      && (i > 0 ==> log[i].op == Decode && log[i].length == 1)
  }

  /** The cache after each logged mutation ran once, in order. */
  ghost function Applied(adapter: Adapter, log: Log): Cache {
    if log == [] then adapter.emptyCache
    else adapter.run(log[|log| - 1].op, Applied(adapter, log[..|log| - 1]), log[|log| - 1].input).cache
  }

  /** The stage ran and its position advanced as announced. */
  ghost predicate Accepted(config: Config, s: Service, c: Command) {
    && Ran(config, s, c) && IsOpen(s, PlaceOf(c.request))
    && var sequence := At(s, PlaceOf(c.request));
       var outcome := AdapterAt(s, PlaceOf(c.request)).run(c.op, sequence.cache, c.request.input);
       outcome.Computed? && outcome.cache.position == sequence.nextPosition + InputLength(c.request.input)
  }

  ghost function MutationOf(c: Command): Mutation
    requires c.Request?
  {
    Mutation(c.op, c.request.position, InputLength(c.request.input), c.request.input)
  }

  type Logs = map<Place, Log>

  function LogAt(logs: Logs, place: Place): Log {
    if place in logs then logs[place] else []
  }

  /** Logs follow accepted mutations and restart when a sequence is opened anew. */
  ghost function LogsAfter(config: Config, s: Service, logs: Logs, c: Command): Logs {
    if Accepted(config, s, c) then
      logs[PlaceOf(c.request) := LogAt(logs, PlaceOf(c.request)) + [MutationOf(c)]]
    else if c.Open? && !IsOpen(s, Place(c.shardID, c.sequenceID)) then logs[Place(c.shardID, c.sequenceID) := []]
    else logs
  }

  // ---------------------------------------------------------------------------
  // The form of accepted mutations

  /** Accepting a mutation means: the request named the sequence's next position, the
      cache stood there before and stands after the input now. */
  lemma AcceptedAdvances(config: Config, s: Service, c: Command)
    requires Accepted(config, s, c)
    ensures var before := At(s, PlaceOf(c.request));
            && (c.op == Prefill || c.op == Decode)
            && c.request.position == before.cache.position
            && (if c.op == Prefill then !before.prefilled && c.request.position == 0
                else before.prefilled && c.request.position == before.nextPosition && InputLength(c.request.input) == 1)
            && IsOpen(Handle(config, s, c).0, PlaceOf(c.request))
    ensures var before := At(s, PlaceOf(c.request));
            var after := At(Handle(config, s, c).0, PlaceOf(c.request));
            && after.nextPosition == after.cache.position == before.nextPosition + InputLength(c.request.input)
            && after.prefilled
            && after.cache == AdapterAt(s, PlaceOf(c.request)).run(c.op, before.cache, c.request.input).cache
  {
    RanGuards(config, s, c);
    hide Ran, Handle;
    RanResult(config, s, c);
  }

  lemma RanGuards(config: Config, s: Service, c: Command)
    requires Ran(config, s, c) && IsOpen(s, PlaceOf(c.request))
    ensures var before := At(s, PlaceOf(c.request));
            && c.request.position == before.cache.position
            && (if c.op == Prefill then !before.prefilled && c.request.position == 0
                else before.prefilled && c.request.position == before.nextPosition && InputLength(c.request.input) == 1)
            && (before.completed.Some? ==> before.completed.value.outcome.Succeeded?)
  {
    hide WorkerBytes, BudgetError, InputError;
  }

  /** The command's stage call ran at this place. */
  ghost predicate RanAt(config: Config, s: Service, c: Command, place: Place) {
    Ran(config, s, c) && c.Request? && PlaceOf(c.request) == place
  }

  ghost predicate SequenceLogged(s: Service, logs: Logs, place: Place)
    requires IsOpen(s, place)
  {
    var sequence, log := At(s, place), LogAt(logs, place);
    && WellFormed(log) && sequence.nextPosition == Length(log) && (sequence.prefilled <==> log != [])
  }

  ghost predicate Logged(s: Service, logs: Logs) {
    forall place :: IsOpen(s, place) ==> SequenceLogged(s, logs, place)
  }

  lemma WellFormedExtends(log: Log, m: Mutation)
    requires WellFormed(log) && m.position == Length(log)
    requires if log == [] then m.op == Prefill else m.op == Decode && m.length == 1
    ensures WellFormed(log + [m]) && Length(log + [m]) == Length(log) + m.length
  {
    var next := log + [m];
    assert next[..|log|] == log;
    forall i | 0 <= i < |next| ensures next[i].position == Length(next[..i]) {
      if i < |log| { assert next[..i] == log[..i]; }
    }
  }

  /** The sequence at a place is untouched, new, or the command's own. */
  lemma PlaceCases(config: Config, s: Service, c: Command, place: Place)
    requires IsOpen(Handle(config, s, c).0, place)
    ensures var s' := Handle(config, s, c).0;
            || (IsOpen(s, place) && At(s', place) == At(s, place) && AdapterAt(s', place) == AdapterAt(s, place)
                && !(c.Open? && place == Place(c.shardID, c.sequenceID) && !IsOpen(s, place)))
            || (!IsOpen(s, place) && c.Open? && place == Place(c.shardID, c.sequenceID) && place.shardID in s.shards
                && At(s', place) == Sequence(s.shards[place.shardID].adapter.emptyCache, c.ownerID, 0, false, None)
                && AdapterAt(s', place) == s.shards[place.shardID].adapter)
            || (IsOpen(s, place) && RanAt(config, s, c, place))
  {
    if IsOpen(s, place) {
      OnlyItsOwnSequence(config, s, c, place);
      if c.Close? && place == Place(c.shardID, c.sequenceID) { CloseCloses(config, s, c); }
    } else {
      NewSequenceIsFresh(config, s, c, place);
    }
  }

  lemma CloseCloses(config: Config, s: Service, c: Command)
    requires c.Close? && IsOpen(s, Place(c.shardID, c.sequenceID))
    ensures var place := Place(c.shardID, c.sequenceID);
            IsOpen(Handle(config, s, c).0, place) ==>
              At(Handle(config, s, c).0, place) == At(s, place) && AdapterAt(Handle(config, s, c).0, place) == AdapterAt(s, place)
  {
  }

  lemma StepKeepsLogged(config: Config, s: Service, logs: Logs, c: Command)
    requires Logged(s, logs)
    ensures Logged(Handle(config, s, c).0, LogsAfter(config, s, logs, c))
  {
    hide Handle, WellFormed, Ran, IsOpen, At, AdapterAt;
    var s', logs' := Handle(config, s, c).0, LogsAfter(config, s, logs, c);
    if Accepted(config, s, c) { AcceptedRan(config, s, c); }
    forall place | IsOpen(s', place) ensures SequenceLogged(s', logs', place) {
      PlaceCases(config, s, c, place);
      if IsOpen(s, place) {
        assert SequenceLogged(s, logs, place);
        if RanAt(config, s, c, place) { RanKeepsLogged(config, s, logs, c); }
      } else {
        assert WellFormed([]) by { EmptyLog(); }
        OpenIsNotAccepted(config, s, c);
      }
    }
  }

  lemma AcceptedRan(config: Config, s: Service, c: Command)
    requires Accepted(config, s, c)
    ensures c.Request? && RanAt(config, s, c, PlaceOf(c.request))
  {
  }

  lemma OpenIsNotAccepted(config: Config, s: Service, c: Command)
    requires c.Open?
    ensures !Accepted(config, s, c)
  {
  }

  lemma EmptyLog()
    ensures WellFormed([]) && Length([]) == 0
  {
  }

  /** A stage call that is not accepted advances nothing. */
  lemma RanKeepsLogged(config: Config, s: Service, logs: Logs, c: Command)
    requires Ran(config, s, c) && IsOpen(s, PlaceOf(c.request)) && SequenceLogged(s, logs, PlaceOf(c.request))
    requires IsOpen(Handle(config, s, c).0, PlaceOf(c.request))
    ensures SequenceLogged(Handle(config, s, c).0, LogsAfter(config, s, logs, c), PlaceOf(c.request))
  {
    var place := PlaceOf(c.request);
    RanGuards(config, s, c);
    RanResult(config, s, c);
    if Accepted(config, s, c) {
      AcceptedAdvances(config, s, c);
      if !At(s, place).prefilled { PrefilledFromZero(s, logs, place); }
      hide Ran, Handle, WellFormed;
      WellFormedExtends(LogAt(logs, place), MutationOf(c));
    } else {
      RefusedAdvancesNothing(config, s, c);
    }
  }

  lemma RefusedAdvancesNothing(config: Config, s: Service, c: Command)
    requires Ran(config, s, c) && IsOpen(s, PlaceOf(c.request)) && !Accepted(config, s, c)
    ensures IsOpen(Handle(config, s, c).0, PlaceOf(c.request))
    ensures var before := At(s, PlaceOf(c.request));
            var outcome := AdapterAt(s, PlaceOf(c.request)).run(c.op, before.cache, c.request.input);
            At(Handle(config, s, c).0, PlaceOf(c.request)) == before.(cache := outcome.cache)
  {
    RanResult(config, s, c);
    hide Ran, Handle;
  }

  lemma PrefilledFromZero(s: Service, logs: Logs, place: Place)
    requires IsOpen(s, place) && SequenceLogged(s, logs, place) && !At(s, place).prefilled
    ensures At(s, place).nextPosition == 0
  {
  }

  ghost function LogsRun(config: Config, s: Service, logs: Logs, commands: seq<Command>): Logs
    decreases |commands|
  {
    if commands == [] then logs
    else LogsRun(config, Handle(config, s, commands[0]).0, LogsAfter(config, s, logs, commands[0]), commands[1..])
  }

  const FRESH := Service(map[], 0)

  lemma {:induction false} RunKeepsLogged(config: Config, s: Service, logs: Logs, commands: seq<Command>)
    requires Logged(s, logs)
    ensures Logged(Run(config, s, commands).0, LogsRun(config, s, logs, commands))
    decreases |commands|
  {
    hide Handle, LogsAfter, Logged;
    if commands != [] {
      StepKeepsLogged(config, s, logs, commands[0]);
      RunKeepsLogged(config, Handle(config, s, commands[0]).0, LogsAfter(config, s, logs, commands[0]), commands[1..]);
    }
  }

  /** In every trace the accepted mutations of an open sequence are one prefill at 0
      followed by consecutive one-position decodes, and its next position is their
      total length. */
  lemma AcceptedMutationsAreConsecutive(config: Config, commands: seq<Command>, place: Place)
    requires IsOpen(Run(config, FRESH, commands).0, place)
    ensures SequenceLogged(Run(config, FRESH, commands).0, LogsRun(config, FRESH, map[], commands), place)
  {
    RunKeepsLogged(config, FRESH, map[], commands);
  }

  // ---------------------------------------------------------------------------
  // The cache is what the accepted mutations make of an empty one

  /** A stage call that returns advances the cache by the input; one that throws
      leaves it alone. */
  ghost predicate Disciplined(adapter: Adapter) {
    && adapter.emptyCache.position == 0
    && forall op, cache, input :: Advances(adapter, op, cache, input)
  }

  ghost predicate Advances(adapter: Adapter, op: Operation, cache: Cache, input: Tensor) {
    match adapter.run(op, cache, input)
    case Computed(after, _, _) => after.position == cache.position + InputLength(input)
    case Threw(after, _) => after == cache
  }

  ghost predicate LoadsDisciplined(commands: seq<Command>) {
    forall i :: 0 <= i < |commands| && commands[i].Load? ==> Disciplined(commands[i].shard.adapter)
  }

  ghost predicate AllDisciplined(s: Service) {
    forall id :: id in s.shards ==> Disciplined(s.shards[id].adapter)
  }

  ghost predicate SequenceFaithful(s: Service, logs: Logs, place: Place)
    requires IsOpen(s, place)
  {
    && At(s, place).cache == Applied(AdapterAt(s, place), LogAt(logs, place))
    && At(s, place).cache.position == At(s, place).nextPosition
  }

  ghost predicate Faithful(s: Service, logs: Logs) {
    forall place :: IsOpen(s, place) ==> SequenceFaithful(s, logs, place)
  }

  lemma StepKeepsDisciplined(config: Config, s: Service, c: Command)
    requires AllDisciplined(s) && (c.Load? ==> Disciplined(c.shard.adapter))
    ensures AllDisciplined(Handle(config, s, c).0)
  {
    hide Refusal, StatelessReply, AfterStage, WorkerBytes, Disciplined;
    if c.Request? && c.activeBefore && Refusal(config, Saturated(WorkerBytes(s.shards)), s, c.op, c.request).None? {
      GoAheadFinds(config, Saturated(WorkerBytes(s.shards)), s, c.op, c.request);
    }
  }

  lemma AppliedExtends(adapter: Adapter, log: Log, m: Mutation)
    ensures Applied(adapter, log + [m]) == adapter.run(m.op, Applied(adapter, log), m.input).cache
  {
    assert (log + [m])[..|log|] == log;
  }

  lemma StepKeepsFaithful(config: Config, s: Service, logs: Logs, c: Command)
    requires Faithful(s, logs) && AllDisciplined(s)
    ensures Faithful(Handle(config, s, c).0, LogsAfter(config, s, logs, c))
  {
    hide Handle, Ran, IsOpen, At, AdapterAt, AllDisciplined;
    var s', logs' := Handle(config, s, c).0, LogsAfter(config, s, logs, c);
    if Accepted(config, s, c) { AcceptedRan(config, s, c); }
    forall place | IsOpen(s', place) ensures SequenceFaithful(s', logs', place) {
      PlaceCases(config, s, c, place);
      if IsOpen(s, place) {
        assert SequenceFaithful(s, logs, place);
        if RanAt(config, s, c, place) { RanKeepsFaithful(config, s, logs, c); }
      } else {
        NewIsDisciplined(config, s, c, place);
        OpenIsNotAccepted(config, s, c);
      }
    }
  }

  lemma NewIsDisciplined(config: Config, s: Service, c: Command, place: Place)
    requires AllDisciplined(s) && place.shardID in s.shards
    ensures s.shards[place.shardID].adapter.emptyCache.position == 0
  {
  }

  lemma RanKeepsFaithful(config: Config, s: Service, logs: Logs, c: Command)
    requires Ran(config, s, c) && AllDisciplined(s) && IsOpen(s, PlaceOf(c.request))
    requires SequenceFaithful(s, logs, PlaceOf(c.request)) && IsOpen(Handle(config, s, c).0, PlaceOf(c.request))
    ensures SequenceFaithful(Handle(config, s, c).0, LogsAfter(config, s, logs, c), PlaceOf(c.request))
  {
    var place := PlaceOf(c.request);
    var adapter, cache := AdapterAt(s, place), At(s, place).cache;
    RanGuards(config, s, c);
    RanResult(config, s, c);
    assert Advances(adapter, c.op, cache, c.request.input);
    hide Ran, Handle, AllDisciplined;
    if Accepted(config, s, c) {
      AcceptedAdvances(config, s, c);
      AppliedExtends(adapter, LogAt(logs, place), MutationOf(c));
    } else {
      RefusedAdvancesNothing(config, s, c);
    }
  }

  lemma {:induction false} RunKeepsFaithful(config: Config, s: Service, logs: Logs, commands: seq<Command>)
    requires Faithful(s, logs) && AllDisciplined(s) && LoadsDisciplined(commands)
    ensures Faithful(Run(config, s, commands).0, LogsRun(config, s, logs, commands))
    decreases |commands|
  {
    hide Handle, LogsAfter, Faithful, AllDisciplined, Disciplined;
    if commands != [] {
      StepKeepsDisciplined(config, s, commands[0]);
      StepKeepsFaithful(config, s, logs, commands[0]);
      RunKeepsFaithful(config, Handle(config, s, commands[0]).0, LogsAfter(config, s, logs, commands[0]), commands[1..]);
    }
  }

  /** Exactly once: in every trace the cache of an open sequence is an empty cache on
      which each accepted mutation ran once, in order, whatever was repeated or
      refused in between; and the next position is the position of that cache. */
  lemma MutationsApplyExactlyOnce(config: Config, commands: seq<Command>, place: Place)
    requires LoadsDisciplined(commands) && IsOpen(Run(config, FRESH, commands).0, place)
    ensures SequenceFaithful(Run(config, FRESH, commands).0, LogsRun(config, FRESH, map[], commands), place)
  {
    RunKeepsFaithful(config, FRESH, map[], commands);
  }

  // ---------------------------------------------------------------------------
  // A recorded failure

  ghost predicate FailureRecorded(s: Service, place: Place) {
    IsOpen(s, place) && At(s, place).completed.Some? && At(s, place).completed.value.outcome.FailedWith?
  }

  /** The command ends the sequence's life. */
  predicate Ends(c: Command, place: Place) {
    c.Shutdown? || (c.Close? && place == Place(c.shardID, c.sequenceID))
  }

  lemma FailureFreezesStep(config: Config, s: Service, c: Command, place: Place)
    requires FailureRecorded(s, place) && !Ends(c, place)
    ensures FailureRecorded(Handle(config, s, c).0, place) && At(Handle(config, s, c).0, place) == At(s, place)
    ensures c.Request? && c.op != Forward && PlaceOf(c.request) == place ==> Handle(config, s, c).1.Failed?
  {
    OnlyItsOwnSequence(config, s, c, place);
    if Ran(config, s, c) && PlaceOf(c.request) == place {
      RanGuards(config, s, c);
    } else if c.Request? && c.op != Forward && PlaceOf(c.request) == place {
      FailureRefuses(config, s, c);
    }
  }

  lemma FailureRefuses(config: Config, s: Service, c: Command)
    requires c.Request? && c.op != Forward && FailureRecorded(s, PlaceOf(c.request))
    ensures Handle(config, s, c).1.Failed?
  {
    hide WorkerBytes, MutationError, InputError;
  }

  /** After a recorded failure no request changes the sequence until it is closed. */
  lemma {:induction false} FailureFreezes(config: Config, s: Service, commands: seq<Command>, place: Place)
    requires FailureRecorded(s, place) && forall i :: 0 <= i < |commands| ==> !Ends(commands[i], place)
    ensures FailureRecorded(Run(config, s, commands).0, place) && At(Run(config, s, commands).0, place) == At(s, place)
    decreases |commands|
  {
    hide Handle;
    if commands != [] {
      FailureFreezesStep(config, s, commands[0], place);
      FailureFreezes(config, Handle(config, s, commands[0]).0, commands[1..], place);
    }
  }
}
