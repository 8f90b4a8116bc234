/** The supervisor that serializes calls to a worker process, restarts it after a
    failure, and numbers successful answers. */
module Supervisor {
  import opened WideArithmetic

  /** A request some worker process really executed. */
  datatype Effect = Effect(process: nat, call: nat)

  /** A number given to an answer, with the place of its effect in execution order. */
  datatype Handed = Handed(number: nat, call: nat, process: nat, effect: nat)

  // ---------------------------------------------------------------------------
  // Concurrent callers at the gate

  /** Where the call that holds the gate stands. */
  datatype Phase =
    | Sent(call: nat, retried: bool)
    | Executed(call: nat, effect: nat, retried: bool)
    | Failed(call: nat, retried: bool)

  /** The gate, the current process, requests that an abandoned call may still have in
      flight to it, everything executed, and the numbers handed out. */
  datatype World = World(
    holder: Option<Phase>, process: nat, inFlight: set<nat>, closed: bool, restartCount: nat,
    effects: seq<Effect>, sequence: nat, handed: seq<Handed>)

  const STARTED := World(None, 0, {}, false, 0, [], 0, [])

  datatype Step =
    | Acquire(call: nat)
    | Execute
    | Reply
    | Reject
    | Break
    | Cancel
    | LateExecute(call: nat)
    | Restart
    | RestartFails
    | Retry
    | GiveUp
    | Shutdown

  predicate Enabled(w: World, step: Step) {
    match step
    case Acquire(_) => w.holder.None? && !w.closed
    case Execute => w.holder.Some? && w.holder.value.Sent?
    case Reply => w.holder.Some? && w.holder.value.Executed?
    case Reject => w.holder.Some? && w.holder.value.Sent?
    case Break => w.holder.Some? && !w.holder.value.Failed?
    case Cancel => w.holder.Some? && !w.holder.value.Failed?
    case LateExecute(call) => call in w.inFlight
    case Restart => w.holder.Some? && w.holder.value.Failed? && !w.holder.value.retried
    case RestartFails => w.holder.Some? && w.holder.value.Failed?
    case Retry => w.holder.Some? && w.holder.value.Failed? && w.holder.value.retried
    case GiveUp => w.holder.Some? && w.holder.value.Failed?
    case Shutdown => w.holder.None? && !w.closed
  }

  /** A new process starts empty: whatever was in flight to the old one is gone. */
  function Apply(w: World, step: Step): World
    requires Enabled(w, step)
  {
    match step
    case Acquire(call) => w.(holder := Some(Sent(call, false)))
    case Execute =>
      w.(holder := Some(Executed(w.holder.value.call, |w.effects|, w.holder.value.retried)),
         effects := w.effects + [Effect(w.process, w.holder.value.call)])
    case Reply =>
      w.(holder := None, sequence := w.sequence + 1,
         handed := w.handed + [Handed(w.sequence + 1, w.holder.value.call, w.process, w.holder.value.effect)])
    case Reject => w.(holder := None)
    case Break => w.(holder := Some(Failed(w.holder.value.call, w.holder.value.retried)))
    case Cancel =>
      w.(holder := None, inFlight := if w.holder.value.Sent? then w.inFlight + {w.holder.value.call} else w.inFlight)
    case LateExecute(call) => w.(inFlight := w.inFlight - {call}, effects := w.effects + [Effect(w.process, call)])
    case Restart =>
      w.(process := w.process + 1, restartCount := w.restartCount + 1, inFlight := {},
         holder := Some(Failed(w.holder.value.call, true)))
    case RestartFails => w.(holder := None, inFlight := w.inFlight + {w.holder.value.call})
    case Retry => w.(holder := Some(Sent(w.holder.value.call, true)))
    case GiveUp => w.(holder := None, inFlight := w.inFlight + {w.holder.value.call})
    case Shutdown => w.(closed := true)
  }

  function After(steps: seq<Step>): Option<World> {
    if steps == [] then Some(STARTED) else
    var before := After(steps[..|steps| - 1]);
    if before.None? || !Enabled(before.value, steps[|steps| - 1]) then None
    else Some(Apply(before.value, steps[|steps| - 1]))
  }

  ghost predicate HandedAt(w: World, i: nat)
    requires i < |w.handed|
  {
    var h := w.handed[i];
    && h.number == i + 1 && h.effect < |w.effects| && w.effects[h.effect] == Effect(h.process, h.call)
    && (i > 0 ==> w.handed[i - 1].effect < h.effect)
  }

  ghost predicate EffectsOrdered(effects: seq<Effect>, process: nat) {
    && (forall e :: 0 <= e < |effects| ==> effects[e].process <= process)
    && (forall d, e :: 0 <= d < e < |effects| ==> effects[d].process <= effects[e].process)
  }

  ghost predicate Inv(w: World) {
    && |w.handed| == w.sequence
    && (forall i :: 0 <= i < |w.handed| ==> HandedAt(w, i))
    && EffectsOrdered(w.effects, w.process)
    && (w.holder.Some? && w.holder.value.Executed? ==>
          var p := w.holder.value;
          && p.effect < |w.effects| && w.effects[p.effect] == Effect(w.process, p.call)
          && (w.handed != [] ==> w.handed[|w.handed| - 1].effect < p.effect))
  }

  lemma StepKeepsInv(w: World, step: Step)
    requires Inv(w) && Enabled(w, step)
    ensures Inv(Apply(w, step))
  {
    var w' := Apply(w, step);
    forall i | 0 <= i < |w'.handed| ensures HandedAt(w', i) {
      if i < |w.handed| { assert HandedAt(w, i); }
    }
    if w.handed != [] { assert HandedAt(w, |w.handed| - 1); }
  }

  lemma {:induction false} RunKeepsInv(steps: seq<Step>)
    requires After(steps).Some?
    ensures Inv(After(steps).value)
  {
    hide Inv;
    if steps == [] {
      NothingHanded();
    } else {
      RunKeepsInv(steps[..|steps| - 1]);
      StepKeepsInv(After(steps[..|steps| - 1]).value, steps[|steps| - 1]);
    }
  }

  lemma NothingHanded()
    ensures Inv(STARTED)
  {
  }

  lemma {:induction false} EffectsIncrease(w: World, i: nat, j: nat)
    requires Inv(w) && i < j < |w.handed|
    ensures w.handed[i].effect < w.handed[j].effect
    decreases j
  {
    assert HandedAt(w, j);
    if i < j - 1 { EffectsIncrease(w, i, j - 1); }
  }

  /** In every interleaving of callers, cancellations and restarts, numbers strictly
      increase, they agree with the order in which the answered requests were executed,
      and a later number never comes from an earlier process. */
  lemma NumbersFollowExecution(steps: seq<Step>, i: nat, j: nat)
    requires After(steps).Some? && i < j < |After(steps).value.handed|
    ensures var w := After(steps).value;
            && w.handed[i].number < w.handed[j].number
            && w.handed[i].effect < w.handed[j].effect < |w.effects|
            && w.effects[w.handed[i].effect] == Effect(w.handed[i].process, w.handed[i].call)
            && w.effects[w.handed[j].effect] == Effect(w.handed[j].process, w.handed[j].call)
            && w.handed[i].process <= w.handed[j].process
  {
    RunKeepsInv(steps);
    var w := After(steps).value;
    EffectsIncrease(w, i, j);
    assert HandedAt(w, i) && HandedAt(w, j);
  }

  /** What a process had executed when an answer was produced. */
  function SeenBy(effects: seq<Effect>, process: nat, n: nat): set<nat>
    requires n <= |effects|
  {
    set e | 0 <= e < n && effects[e].process == process :: effects[e].call
  }

  /** A numbered state reflects every earlier numbered call that the same process
      answered. */
  lemma StateReflectsEarlierCalls(steps: seq<Step>, i: nat, j: nat)
    requires After(steps).Some? && i < j < |After(steps).value.handed|
    requires After(steps).value.handed[i].process == After(steps).value.handed[j].process
    ensures var w := After(steps).value;
            && w.handed[j].effect <= |w.effects|
            && w.handed[i].call in SeenBy(w.effects, w.handed[j].process, w.handed[j].effect)
  {
    NumbersFollowExecution(steps, i, j);
  }

  // ---------------------------------------------------------------------------
  // The object: what one call does while it holds the gate

  /** Commands that may be repeated on the new process. */
  predicate SafeRetry(command: string) {
    command == "health" || command == "state"
  }

  predicate InferenceCommand(command: string) {
    command == "prefill" || command == "decode" || command == "forward"
  }

  datatype Answer = Success | Rejection | NotDispatched | Canceled | TransportError

  datatype CallResult = Numbered(number: nat) | Refused | Stopped

  /** The failures after which the process is replaced. */
  predicate Breaks(command: string, answer: Answer) {
    answer.TransportError? || (answer.Canceled? && InferenceCommand(command))
  }

  /** What the world does to one call: the first answer, whether a new process starts,
      whether the caller is still waiting then, and the answer to the repeat. */
  datatype Fate = Fate(first: Answer, started: bool, live: bool, second: Answer)

  predicate Restarts(command: string, fate: Fate) {
    Breaks(command, fate.first) && fate.started
  }

  predicate Retries(command: string, fate: Fate) {
    Restarts(command, fate) && SafeRetry(command) && fate.live
  }

  predicate Answered(command: string, fate: Fate) {
    fate.first.Success? || (Retries(command, fate) && fate.second.Success?)
  }

  class PersistentSupervisor {
    var process: nat
    var closed: bool
    var restartCount: nat
    var observationSequence: nat

    constructor ()
      ensures !closed && restartCount == 0 && observationSequence == 0 && process == 0
    {
      process, closed, restartCount, observationSequence := 0, false, 0, 0;
    }

    /** Replaces a failed process unless it was replaced already. */
    method Restart(failed: nat, started: bool) returns (ok: bool)
      modifies this
      ensures observationSequence == old(observationSequence) && closed == old(closed)
      ensures ok <==> !closed && (old(process) == failed ==> started)
      ensures process == if !closed && old(process) == failed && started then failed + 1 else old(process)
      ensures restartCount - old(restartCount) == process - old(process)
    {
      if closed { return false; }
      if process != failed { return true; }
      if !started { return false; }
      process, restartCount := process + 1, restartCount + 1;
      return true;
    }

    /** Sends the request, restarts a broken worker, and repeats only what is safe to
        repeat.  A number is handed out exactly when the caller gets an answer. */
    method Call(command: string, fate: Fate) returns (r: CallResult)
      modifies this
      ensures r.Numbered? <==> command != "" && !old(closed) && Answered(command, fate)
      ensures r.Stopped? <==> command != "" && old(closed)
      ensures observationSequence == old(observationSequence) + (if r.Numbered? then 1 else 0)
      ensures r.Numbered? ==> r.number == observationSequence
      ensures process == old(process) + (if command != "" && !old(closed) && Restarts(command, fate) then 1 else 0)
      ensures restartCount - old(restartCount) == process - old(process) && closed == old(closed)
    {
      if command == "" { return Refused; }
      if closed { return Stopped; }
      var client := process;
      match fate.first {
        case Success =>
          observationSequence := observationSequence + 1;
          return Numbered(observationSequence);
        case Rejection => return Refused;
        case NotDispatched => return Refused;
        case Canceled =>
          if !InferenceCommand(command) { return Refused; }
        case TransportError =>
      }
      var restarted := Restart(client, fate.started);
      if !restarted { return Refused; }
      if SafeRetry(command) && fate.live {
        if !fate.second.Success? { return Refused; }
        observationSequence := observationSequence + 1;
        return Numbered(observationSequence);
      }
      return Refused;
    }
  }

  // ---------------------------------------------------------------------------
  // A call of the object is a run of the interleaving model

  function Follow(w: World, steps: seq<Step>): Option<World>
    decreases |steps|
  {
    if steps == [] then Some(w)
    else if !Enabled(w, steps[0]) then None
    else Follow(Apply(w, steps[0]), steps[1..])
  }

  function AnswerSteps(answer: Answer): seq<Step> {
    match answer
    case Success => [Execute, Reply]
    case Rejection => [Reject]
    case NotDispatched => [Reject]
    case Canceled => [Cancel]
    case TransportError => [Break, GiveUp]
  }

  function CallSteps(call: nat, command: string, fate: Fate): seq<Step> {
    [Acquire(call)]
    + if !Breaks(command, fate.first) then AnswerSteps(fate.first)
      else if !fate.started then [Break, RestartFails]
      else [Break, Step.Restart] + if Retries(command, fate) then [Retry] + AnswerSteps(fate.second) else [GiveUp]
  }

  lemma {:induction false} FollowAppend(w: World, front: seq<Step>, back: seq<Step>)
    requires Follow(w, front).Some?
    ensures Follow(w, front + back) == Follow(Follow(w, front).value, back)
    decreases |front|
  {
    if front == [] {
      assert front + back == back;
    } else {
      assert (front + back)[1..] == front[1..] + back;
      FollowAppend(Apply(w, front[0]), front[1..], back);
    }
  }

  lemma OneStep(w: World, step: Step)
    ensures Follow(w, [step]) == if Enabled(w, step) then Some(Apply(w, step)) else None
  {
  }

  lemma TwoSteps(w: World, a: Step, b: Step)
    requires Enabled(w, a)
    ensures Follow(w, [a, b]) == Follow(Apply(w, a), [b])
  {
    FollowAppend(w, [a], [b]);
    assert [a] + [b] == [a, b];
  }

  /** An answer to a sent request frees the gate, and numbers it exactly on success. */
  lemma AnswerRuns(w: World, answer: Answer)
    requires w.holder.Some? && w.holder.value.Sent?
    ensures var after := Follow(w, AnswerSteps(answer));
            && after.Some? && after.value.holder.None?
            && after.value.process == w.process && after.value.restartCount == w.restartCount
            && after.value.sequence == w.sequence + (if answer.Success? then 1 else 0)
  {
    match answer {
      case Success => TwoSteps(w, Execute, Reply);
      case TransportError => TwoSteps(w, Break, GiveUp);
      case Rejection => OneStep(w, Reject);
      case NotDispatched => OneStep(w, Reject);
      case Canceled => OneStep(w, Cancel);
    }
  }

  /** The object hands out a number, and moves to a new process, exactly as the steps
      of its call do among those of all other callers. */
  lemma CallIsARun(w: World, call: nat, command: string, fate: Fate)
    requires w.holder.None? && !w.closed
    ensures var after := Follow(w, CallSteps(call, command, fate));
            && after.Some? && after.value.holder.None?
            && after.value.sequence == w.sequence + (if Answered(command, fate) then 1 else 0)
            && after.value.process == w.process + (if Restarts(command, fate) then 1 else 0)
            && after.value.restartCount - w.restartCount == after.value.process - w.process
  {
    hide Follow;
    var sent := Apply(w, Acquire(call));
    OneStep(w, Acquire(call));
    FollowAppend(w, [Acquire(call)], CallSteps(call, command, fate)[1..]);
    assert CallSteps(call, command, fate) == [Acquire(call)] + CallSteps(call, command, fate)[1..];
    if !Breaks(command, fate.first) {
      assert CallSteps(call, command, fate)[1..] == AnswerSteps(fate.first);
      AnswerRuns(sent, fate.first);
    } else if !fate.started {
      assert CallSteps(call, command, fate)[1..] == [Break, RestartFails];
      TwoSteps(sent, Break, RestartFails);
      OneStep(Apply(sent, Break), RestartFails);
    } else {
      var failed := Apply(sent, Break);
      var restarted := Apply(failed, Step.Restart);
      var rest := if Retries(command, fate) then [Retry] + AnswerSteps(fate.second) else [GiveUp];
      assert CallSteps(call, command, fate)[1..] == [Break, Step.Restart] + rest;
      TwoSteps(sent, Break, Step.Restart);
      OneStep(failed, Step.Restart);
      FollowAppend(sent, [Break, Step.Restart], rest);
      if Retries(command, fate) {
        OneStep(restarted, Retry);
        FollowAppend(restarted, [Retry], AnswerSteps(fate.second));
        AnswerRuns(Apply(restarted, Retry), fate.second);
      } else {
        OneStep(restarted, GiveUp);
      }
    }
  }
}
