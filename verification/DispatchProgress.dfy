/** What the threads of the callback domain can always get done, before the seal and after it. */
module CallbackProgress {
  import opened CallbackDispatch
  import opened CallbackProof

  /** Only threads taking jobs and callbacks returning. */
  predicate OfThreads(schedule: seq<Step>) {
    forall k :: 0 <= k < |schedule| ==> schedule[k].TakeJob? || schedule[k].Finish?
  }

  lemma DrainFirst(d: Domain, step: Step, rest: seq<Step>)
    ensures Drain(d, [step] + rest) == Drain(Do(d, step), rest)
  {
    hide Do;
    assert ([step] + rest)[1..] == rest;
  }

  function Remaining(d: Domain): (n: nat) { 2 * |d.s.queue| + Count(d.threads, IsRunning) }

  lemma FinishLeaves(d: Domain, t: nat)
    requires CanFinish(d, t)
    ensures var e := Do(d, Finish(t));
            e.s.queue == d.s.queue && e.started == d.started && |e.threads| == |d.threads| && Remaining(e) == Remaining(d) - 1
    ensures forall u: nat :: u < |d.threads| && !d.threads[u].Exited? ==> !Do(d, Finish(t)).threads[u].Exited?
  {
    hide Count;
    CountUpdate(d.threads, t, Idle(d.threads[t].worker), IsRunning);
  }

  /** With nothing running, an idle thread takes the oldest job. */
  lemma TakesOldest(d: Domain, t: nat)
    requires Exclusive(d) && d.s.running == 0 && t < |d.threads| && d.threads[t].Idle? && d.s.queue != []
    ensures var e := Do(d, TakeJob(t));
            && e.s.queue == d.s.queue[1..] && e.started == d.started + [d.s.queue[0]] && |e.threads| == |d.threads|
            && e.threads[t].Running? && Remaining(e) == Remaining(d) - 1
  {
    hide Count;
    assert d.s.active == {};
    assert Remove(d.s.queue, 0) == d.s.queue[1..];
    CountUpdate(d.threads, t, Running(d.threads[t].worker, d.s.queue[0]), IsRunning);
  }

  lemma SomeoneRuns(d: Domain) returns (t: nat)
    requires Exclusive(d) && d.s.running > 0
    ensures CanFinish(d, t)
  {
    CountPositive(d.threads, IsRunning);
    t :| t < |d.threads| && IsRunning(d.threads[t]);
  }

  lemma NobodyRuns(d: Domain, t: nat)
    requires Exclusive(d) && d.s.running == 0 && t < |d.threads|
    ensures !d.threads[t].Running?
  {
    CountPositive(d.threads, IsRunning);
    assert !IsRunning(d.threads[t]);
  }

  /** Any queued job is started by callbacks returning and one thread taking jobs, sealed or not. */
  lemma {:induction false} JobStarts(d: Domain, job: Job, t: nat) returns (schedule: seq<Step>)
    requires Inv(d) && job in d.s.queue && t < |d.threads| && !d.threads[t].Exited?
    ensures OfThreads(schedule) && job in Drain(d, schedule).started
    decreases Remaining(d)
  {
    hide Do, Staff, Bounded, InOrder, Remaining, Count;
    var step;
    if d.s.running > 0 {
      var u := SomeoneRuns(d);
      step := Finish(u);
      FinishLeaves(d, u);
    } else {
      NobodyRuns(d, t);
      step := TakeJob(t);
      TakesOldest(d, t);
    }
    StepKeeps(d, step);
    var e := Do(d, step);
    if job in e.started {
      schedule := [step];
      DrainFirst(d, step, []);
    } else {
      var rest := JobStarts(e, job, t);
      schedule := [step] + rest;
      DrainFirst(d, step, rest);
    }
  }

  /** In every run, a job that is queued while some thread of the domain lives can be started. */
  lemma QueuedJobsCanStart(capacity: nat, steps: seq<Step>, job: Job, t: nat) returns (schedule: seq<Step>)
    requires var d := After(capacity, steps, |steps|); job in d.s.queue && t < |d.threads| && !d.threads[t].Exited?
    ensures OfThreads(schedule) && job in Drain(After(capacity, steps, |steps|), schedule).started
  {
    hide After;
    RunKeeps(capacity, steps, |steps|);
    schedule := JobStarts(After(capacity, steps, |steps|), job, t);
  }

  lemma {:induction false} Completes(d: Domain) returns (schedule: seq<Step>)
    requires Inv(d) && d.s.sealed && |d.threads| > 0
    ensures AllEffective(d, schedule) && Drain(d, schedule).s.complete && Inv(Drain(d, schedule))
    ensures Drain(d, schedule).accepted == d.accepted && |schedule| == Left(d)
    decreases Left(d)
  {
    hide Inv, Do, Effective;
    LeftIsNonnegative(d);
    schedule := [];
    if !d.s.complete {
      var step := SomeStepIsEffective(d);
      StepKeeps(d, step);
      EffectiveCosts(d, step);
      LeftIsNonnegative(Do(d, step));
      var rest := Completes(Do(d, step));
      schedule := [step] + rest;
      DrainFirst(d, step, rest);
      assert schedule[0] == step && schedule[1..] == rest;
    }
  }

  lemma SealSeals(d: Domain)
    requires d.uncounted == 0
    ensures var e := Do(d, SealAll);
            e.s.sealed && e.threads == d.threads && e.accepted == d.accepted && Left(e) == Left(d) && e.s.queue == d.s.queue
  {
  }

  /**
   * Shutting the domain down: from every reachable state in which the workers are counted, sealing it
   * and letting its threads go on completes it, in as many steps as `Left` says, with every terminal
   * job ever accepted started once, in the order of its request; and no job is accepted any more.
   */
  lemma SealThenDrain(capacity: nat, steps: seq<Step>) returns (schedule: seq<Step>)
    requires var d := After(capacity, steps, |steps|); d.uncounted == 0 && |d.threads| > 0
    ensures var d := After(capacity, steps, |steps|);
            var sealed, e := Do(d, SealAll), Drain(Do(d, SealAll), schedule);
            && sealed.s.sealed && |schedule| == 2 * |d.s.queue| + d.s.running + d.s.workersAlive
            && e.s.complete && (forall q: nat :: TerminalsOf(q, e.started) == TerminalsOf(q, d.accepted))
            && (forall job: Job :: Do(sealed, Enqueue(job)).accepted == sealed.accepted)
  {
    hide After;
    RunKeeps(capacity, steps, |steps|);
    var d := After(capacity, steps, |steps|);
    StepKeeps(d, SealAll);
    SealSeals(d);
    var sealed := Do(d, SealAll);
    schedule := Completes(sealed);
    NothingQueued(Drain(sealed, schedule));
    SealedRefuses(sealed);
  }

  lemma SealedRefuses(d: Domain)
    requires d.s.sealed
    ensures forall job: Job :: Do(d, Enqueue(job)).accepted == d.accepted
  {
  }
}
