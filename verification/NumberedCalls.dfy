/** The numbers that the supervisor hands out are the numbers that the scheduler's runs
    assume: each answered call takes the next one at the moment it is executed. */
module NumberedCalls {
  import opened Scheduler
  import opened SchedulerRuns
  import opened SchedulerTheorems
  import Supervisor

  /** What an answered call is for the scheduler: a sampled state, or another number
      used up. */
  function StepOf(worker: WorkerKey, states: set<nat>, h: Supervisor.Handed): Step {
    if h.call in states then SampleState(worker) else Tick(worker)
  }

  function StepsOf(worker: WorkerKey, states: set<nat>, handed: seq<Supervisor.Handed>): (r: seq<Step>)
    ensures |r| == |handed| && forall i :: 0 <= i < |r| ==> r[i] == StepOf(worker, states, handed[i])
  {
    seq(|handed|, i requires 0 <= i < |handed| => StepOf(worker, states, handed[i]))
  }

  ghost predicate SameNumbers(w: World, worker: WorkerKey, states: set<nat>, handed: seq<Supervisor.Handed>) {
    && HandedOut(w, worker) == |handed| && w.stages == []
    && (forall n: nat :: Sampled(w.samples, worker, n) <==> 0 < n <= |handed| && handed[n - 1].call in states)
  }

  lemma {:induction false} PlayedNumbers(capacity: WorkerKey -> nat, worker: WorkerKey, states: set<nat>, handed: seq<Supervisor.Handed>)
    requires |handed| + 1 < UNRECONCILED
    ensures After(capacity, StepsOf(worker, states, handed)).Some?
    ensures SameNumbers(After(capacity, StepsOf(worker, states, handed)).value, worker, states, handed)
  {
    if handed != [] {
      var front, last := handed[..|handed| - 1], handed[|handed| - 1];
      PlayedNumbers(capacity, worker, states, front);
      var steps := StepsOf(worker, states, handed);
      assert steps[..|steps| - 1] == StepsOf(worker, states, front);
      PlayedOne(capacity, After(capacity, StepsOf(worker, states, front)).value, worker, states, front, last);
      assert front + [last] == handed;
      hide SameNumbers, Apply, Enabled;
    }
  }

  lemma PlayedOne(capacity: WorkerKey -> nat, w: World, worker: WorkerKey, states: set<nat>, front: seq<Supervisor.Handed>,
                  last: Supervisor.Handed)
    requires SameNumbers(w, worker, states, front) && |front| + 2 < UNRECONCILED
    ensures Enabled(capacity, w, StepOf(worker, states, last))
    ensures SameNumbers(Apply(capacity, w, StepOf(worker, states, last)), worker, states, front + [last])
  {
    var w' := Apply(capacity, w, StepOf(worker, states, last));
    forall n: nat
      ensures Sampled(w'.samples, worker, n) <==> 0 < n <= |front| + 1 && (front + [last])[n - 1].call in states
    {
      assert n <= |front| ==> (0 < n ==> (front + [last])[n - 1] == front[n - 1]);
      assert Sampled(w'.samples, worker, n) <==> Sampled(w.samples, worker, n) || (n == |front| + 1 && last.call in states);
    }
  }

  /** For every run of the supervisor there is a run of the scheduler's model in which
      the worker's instance hands out the same numbers: number n is a sampled state
      exactly when the n-th answered call was one, and of two numbered calls the one
      with the smaller number was executed first, in the same or an earlier process. */
  lemma SchedulerNumbersAgree(capacity: WorkerKey -> nat, worker: WorkerKey, states: set<nat>, steps: seq<Supervisor.Step>)
    requires Supervisor.After(steps).Some? && |Supervisor.After(steps).value.handed| + 1 < UNRECONCILED
    ensures var s := Supervisor.After(steps).value;
            var w := After(capacity, StepsOf(worker, states, s.handed));
            && w.Some? && HandedOut(w.value, worker) == s.sequence
            && (forall i :: 0 <= i < |s.handed| ==>
                  s.handed[i].number == i + 1
                  && (Sampled(w.value.samples, worker, s.handed[i].number) <==> s.handed[i].call in states))
            && (forall i, j :: 0 <= i < j < |s.handed| ==>
                  s.handed[i].effect < s.handed[j].effect && s.handed[i].process <= s.handed[j].process)
  {
    var s := Supervisor.After(steps).value;
    Supervisor.RunKeepsInv(steps);
    PlayedNumbers(capacity, worker, states, s.handed);
    forall i | 0 <= i < |s.handed| ensures s.handed[i].number == i + 1 { assert Supervisor.HandedAt(s, i); }
    forall i, j | 0 <= i < j < |s.handed|
      ensures s.handed[i].effect < s.handed[j].effect && s.handed[i].process <= s.handed[j].process
    {
      Supervisor.NumbersFollowExecution(steps, i, j);
    }
    hide After, Supervisor.After, Enabled, Apply;
  }
}
