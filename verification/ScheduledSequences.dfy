/** A prepared sequence releases its admission once, however Generate and Close calls
    interleave. */
module ScheduledSequences {
  import opened WideArithmetic
  import Scheduler

  datatype State = Prepared | Running | Finished | Closed

  datatype SequenceError = AlreadyRun | StillRunning

  // ---------------------------------------------------------------------------
  // The object, one call at a time

  /** A reservation whose release runs at most once. */
  class Reservation {
    var done: bool
    var outcome: Option<Scheduler.Outcome>
    ghost var releases: nat

    constructor ()
      ensures !done && outcome.None? && releases == 0
    {
      done, outcome, releases := false, None, 0;
    }

    method Finish(outcome: Scheduler.Outcome)
      modifies this
      ensures done
      ensures old(done) ==> releases == old(releases) && this.outcome == old(this.outcome)
      ensures !old(done) ==> releases == old(releases) + 1 && this.outcome == Some(outcome)
    {
      if !done {
        done, this.outcome, releases := true, Some(outcome), releases + 1;
      }
    }
  }

  class ScheduledSequence {
    var state: State
    var reservation: Reservation?
    ghost const admitted: Reservation

    /** Admission is held exactly until it was released, which happened once. */
    ghost predicate Valid()
      reads this, admitted
    {
      && (reservation == if state == Prepared || state == Running then admitted else null)
      && admitted.releases == (if state == Prepared || state == Running then 0 else 1)
      && (admitted.done <==> admitted.releases == 1)
    }

    constructor (reservation: Reservation)
      requires !reservation.done && reservation.releases == 0
      ensures Valid() && state == Prepared && admitted == reservation
    {
      state, this.reservation, admitted := Prepared, reservation, reservation;
    }

    /** Runs at most once and has released when it returns. */
    method Generate(cleanupConfirmed: bool) returns (error: Option<SequenceError>)
      requires Valid()
      modifies this, admitted
      ensures Valid()
      ensures error == (if old(state) == Prepared then None else Some(AlreadyRun))
      ensures error.None? ==> state == Finished && admitted.outcome == Some(Scheduler.Outcome(true, cleanupConfirmed))
      ensures error.Some? ==> state == old(state) && admitted.releases == old(admitted.releases)
    {
      if state != Prepared { return Some(AlreadyRun); }
      state := Running;
      state := Finished;
      var held := reservation;
      reservation := null;
      held.Finish(Scheduler.Outcome(true, cleanupConfirmed));
      return None;
    }

    /** Releases an unrun sequence; succeeds without effect once it is over. */
    method Close() returns (error: Option<SequenceError>)
      requires Valid()
      modifies this, admitted
      ensures Valid()
      ensures error == (if old(state) == Running then Some(StillRunning) else None)
      ensures error.None? ==> admitted.releases == 1
      ensures error.Some? ==> state == old(state) && admitted.releases == old(admitted.releases)
    {
      match state {
        case Running => return Some(StillRunning);
        case Prepared =>
          state := Closed;
          var held := reservation;
          reservation := null;
          held.Finish(Scheduler.Outcome(true, true));
          return None;
        case Finished => return None;
        case Closed => return None;
      }
    }
  }

  // ---------------------------------------------------------------------------
  // Any interleaving of concurrent calls

  /** Where a call stands: between its critical sections, holding the reservation it
      took, or over. */
  datatype Call =
    | Generating
    | Releasing(outcome: Scheduler.Outcome, closes: bool)
    | Returned(closes: bool, error: Option<SequenceError>)

  /** The object's fields, the calls so far, and how often the reservation was released. */
  datatype World = World(state: State, held: bool, calls: seq<Call>, releases: nat)

  const PREPARED := World(Prepared, true, [], 0)

  datatype Step =
    | StartGenerate
    | StartClose
    | EndGenerate(i: nat, cleanupConfirmed: bool)
    | Release(i: nat)

  predicate Enabled(w: World, step: Step) {
    match step
    case StartGenerate => true
    case StartClose => true
    case EndGenerate(i, _) => i < |w.calls| && w.calls[i].Generating?
    case Release(i) => i < |w.calls| && w.calls[i].Releasing?
  }

  /** Critical sections are atomic; the release itself happens outside the lock. */
  function Apply(w: World, step: Step): World
    requires Enabled(w, step)
  {
    match step
    case StartGenerate =>
      if w.state == Prepared then w.(state := Running, calls := w.calls + [Generating])
      else w.(calls := w.calls + [Returned(false, Some(AlreadyRun))])
    case StartClose =>
      (match w.state
       case Prepared => w.(state := Closed, held := false, calls := w.calls + [Releasing(Scheduler.Outcome(true, true), true)])
       case Running => w.(calls := w.calls + [Returned(true, Some(StillRunning))])
       case _ => w.(calls := w.calls + [Returned(true, None)]))
    case EndGenerate(i, cleanupConfirmed) =>
      w.(state := Finished, held := false,
         calls := w.calls[i := Releasing(Scheduler.Outcome(true, cleanupConfirmed), false)])
    case Release(i) => w.(releases := w.releases + 1, calls := w.calls[i := Returned(w.calls[i].closes, None)])
  }

  function CountGenerating(calls: seq<Call>): nat {
    if calls == [] then 0
    else CountGenerating(calls[..|calls| - 1]) + (if calls[|calls| - 1].Generating? then 1 else 0)
  }

  function CountReleasing(calls: seq<Call>): nat {
    if calls == [] then 0
    else CountReleasing(calls[..|calls| - 1]) + (if calls[|calls| - 1].Releasing? then 1 else 0)
  }

  lemma {:induction false} CountsAfterUpdate(calls: seq<Call>, i: nat, call: Call)
    requires i < |calls|
    ensures CountGenerating(calls[i := call])
            == CountGenerating(calls) + (if call.Generating? then 1 else 0) - (if calls[i].Generating? then 1 else 0)
    ensures CountReleasing(calls[i := call])
            == CountReleasing(calls) + (if call.Releasing? then 1 else 0) - (if calls[i].Releasing? then 1 else 0)
  {
    var n := |calls| - 1;
    if i == n {
      assert calls[i := call][..n] == calls[..n];
    } else {
      CountsAfterUpdate(calls[..n], i, call);
      assert calls[i := call][..n] == calls[..n][i := call];
    }
  }

  lemma CountsAfterAppend(calls: seq<Call>, call: Call)
    ensures CountGenerating(calls + [call]) == CountGenerating(calls) + (if call.Generating? then 1 else 0)
    ensures CountReleasing(calls + [call]) == CountReleasing(calls) + (if call.Releasing? then 1 else 0)
  {
    assert (calls + [call])[..|calls|] == calls;
  }

  /** The reservation is held, being released by exactly one call, or released. */
  ghost predicate Inv(w: World) {
    && (w.held <==> w.state == Prepared || w.state == Running)
    && CountGenerating(w.calls) == (if w.state == Running then 1 else 0)
    && w.releases + CountReleasing(w.calls) == (if w.held then 0 else 1)
  }

  /** Where a trace leads, if each of its steps is enabled in turn. */
  function After(steps: seq<Step>): Option<World> {
    if steps == [] then Some(PREPARED) else
    var before := After(steps[..|steps| - 1]);
    if before.None? || !Enabled(before.value, steps[|steps| - 1]) then None
    else Some(Apply(before.value, steps[|steps| - 1]))
  }

  ghost predicate Run(steps: seq<Step>, w: World) {
    After(steps) == Some(w)
  }

  lemma StepKeepsInv(w: World, step: Step)
    requires Inv(w) && Enabled(w, step)
    ensures Inv(Apply(w, step))
    ensures step.EndGenerate? ==> w.held
  {
    match step {
      case StartGenerate =>
        CountsAfterAppend(w.calls, Generating);
        CountsAfterAppend(w.calls, Returned(false, Some(AlreadyRun)));
      case StartClose =>
        CountsAfterAppend(w.calls, Releasing(Scheduler.Outcome(true, true), true));
        CountsAfterAppend(w.calls, Returned(true, Some(StillRunning)));
        CountsAfterAppend(w.calls, Returned(true, None));
      case EndGenerate(i, cleanupConfirmed) =>
        GeneratingCounted(w.calls, i);
        CountsAfterUpdate(w.calls, i, Releasing(Scheduler.Outcome(true, cleanupConfirmed), false));
      case Release(i) =>
        ReleasingCounted(w.calls, i);
        CountsAfterUpdate(w.calls, i, Returned(w.calls[i].closes, None));
    }
  }

  lemma {:induction false} GeneratingCounted(calls: seq<Call>, i: nat)
    requires i < |calls| && calls[i].Generating?
    ensures CountGenerating(calls) > 0
  {
    if i < |calls| - 1 { GeneratingCounted(calls[..|calls| - 1], i); }
  }

  lemma {:induction false} ReleasingCounted(calls: seq<Call>, i: nat)
    requires i < |calls| && calls[i].Releasing?
    ensures CountReleasing(calls) > 0
  {
    if i < |calls| - 1 { ReleasingCounted(calls[..|calls| - 1], i); }
  }

  lemma {:induction false} RunKeepsInv(steps: seq<Step>, w: World)
    requires Run(steps, w)
    ensures Inv(w)
    decreases |steps|
  {
    if steps != [] {
      var before := After(steps[..|steps| - 1]).value;
      RunKeepsInv(steps[..|steps| - 1], before);
      StepKeepsInv(before, steps[|steps| - 1]);
    }
  }

  /** In every interleaving the release happens at most once, and it has happened
      exactly when the sequence is over and no call is still about to release. */
  lemma ReleasedAtMostOnce(steps: seq<Step>, w: World)
    requires Run(steps, w)
    ensures w.releases <= 1
    ensures w.releases == 1 <==> (w.state == Finished || w.state == Closed) && CountReleasing(w.calls) == 0
  {
    RunKeepsInv(steps, w);
  }

  /** The call that took the reservation has released it, once, when it returns. */
  lemma ReleasedWhenTakerReturns(steps: seq<Step>, before: World, i: nat)
    requires Run(steps, before) && Enabled(before, Release(i))
    ensures before.releases == 0 && Apply(before, Release(i)).releases == 1
    ensures CountReleasing(Apply(before, Release(i)).calls) == 0
  {
    RunKeepsInv(steps, before);
    ReleasingCounted(before.calls, i);
    StepKeepsInv(before, Release(i));
    CountsAfterUpdate(before.calls, i, Returned(before.calls[i].closes, None));
  }

  /** A Close that finds the sequence over succeeds at once.  The admission is released
      by then exactly when no other call still holds the reservation. */
  lemma CloseThatFindsItOver(steps: seq<Step>, w: World)
    requires Run(steps, w) && (w.state == Finished || w.state == Closed)
    ensures var after := Apply(w, StartClose);
            && after.calls[|w.calls|] == Returned(true, None)
            && (after.releases == 1 <==> CountReleasing(w.calls) == 0)
  {
    RunKeepsInv(steps, w);
  }

  /** Two racing Close calls: the second has succeeded before anything was released. */
  lemma CloseCanReturnBeforeRelease()
    ensures exists w :: Run([StartClose, StartClose], w) && w.calls[1] == Returned(true, None) && w.releases == 0
  {
    var first := Apply(PREPARED, StartClose);
    var second := Apply(first, StartClose);
    var steps := [StartClose, StartClose];
    assert steps[..1] == [StartClose] && [StartClose][..0] == [];
    assert After([StartClose]) == Some(first);
    assert Run(steps, second);
    assert second.calls == [Releasing(Scheduler.Outcome(true, true), true), Returned(true, None)];
  }
}
