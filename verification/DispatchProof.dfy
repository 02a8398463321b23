/** What every reachable state of the callback domain satisfies, and why a sealed domain drains. */
module CallbackProof {
  import opened CallbackDispatch

  // ---- counting ----

  lemma {:induction false} CountUpdate(threads: seq<Thread>, t: nat, th: Thread, f: Thread -> bool)
    requires t < |threads|
    ensures Count(threads[t := th], f) == Count(threads, f) - (if f(threads[t]) then 1 else 0) + (if f(th) then 1 else 0)
  {
    if t == 0 {
      assert threads[t := th][1..] == threads[1..];
    } else {
      assert threads[t := th][1..] == threads[1..][t - 1 := th];
      CountUpdate(threads[1..], t - 1, th, f);
    }
  }

  lemma {:induction false} CountAppend(threads: seq<Thread>, th: Thread, f: Thread -> bool)
    ensures Count(threads + [th], f) == Count(threads, f) + (if f(th) then 1 else 0)
  {
    if threads == [] {
      assert threads + [th] == [th] && [th][1..] == [];
    } else {
      assert (threads + [th])[1..] == threads[1..] + [th];
      CountAppend(threads[1..], th, f);
    }
  }

  lemma {:induction false} CountPositive(threads: seq<Thread>, f: Thread -> bool)
    ensures Count(threads, f) > 0 <==> exists t :: 0 <= t < |threads| && f(threads[t])
  {
    if threads != [] {
      CountPositive(threads[1..], f);
      if f(threads[0]) { assert f(threads[0]); }
      if t :| 0 <= t < |threads[1..]| && f(threads[1..][t]) { assert f(threads[t + 1]); }
      if t :| 0 <= t < |threads| && f(threads[t]) && !f(threads[0]) { assert f(threads[1..][t - 1]); }
    }
  }

  lemma {:induction false} TerminalCountAppend(a: seq<Job>, b: seq<Job>)
    ensures TerminalCount(a + b) == TerminalCount(a) + TerminalCount(b)
  {
    if a == [] {
      assert a + b == b;
    } else {
      assert (a + b)[1..] == a[1..] + b;
      TerminalCountAppend(a[1..], b);
    }
  }

  lemma {:induction false} AllTerminal(queue: seq<Job>)
    ensures TerminalCount(queue) <= |queue|
    ensures (forall i :: 0 <= i < |queue| ==> queue[i].terminal) ==> TerminalCount(queue) == |queue|
  {
    if queue != [] { AllTerminal(queue[1..]); }
  }

  lemma SplitAt(queue: seq<Job>, k: nat)
    requires k < |queue|
    ensures queue == queue[..k] + ([queue[k]] + queue[k + 1..])
  {
  }

  lemma RemoveCounts(queue: seq<Job>, k: nat)
    requires k < |queue|
    ensures TerminalCount(Remove(queue, k)) == TerminalCount(queue) - (if queue[k].terminal then 1 else 0)
  {
    SplitAt(queue, k);
    TerminalCountAppend(queue[..k], [queue[k]] + queue[k + 1..]);
    TerminalCountAppend([queue[k]], queue[k + 1..]);
    TerminalCountAppend(queue[..k], queue[k + 1..]);
    assert [queue[k]][1..] == [];
  }

  // ---- order ----

  /** The terminal jobs of one request, in order. */
  function TerminalsOf(q: nat, jobs: seq<Job>): (r: seq<Job>) {
    if jobs == [] then []
    else (if jobs[0].terminal && jobs[0].request == q then [jobs[0]] else []) + TerminalsOf(q, jobs[1..])
  }

  lemma {:induction false} TerminalsAppend(q: nat, a: seq<Job>, b: seq<Job>)
    ensures TerminalsOf(q, a + b) == TerminalsOf(q, a) + TerminalsOf(q, b)
  {
    if a == [] {
      assert a + b == b;
    } else {
      assert (a + b)[1..] == a[1..] + b;
      TerminalsAppend(q, a[1..], b);
    }
  }

  lemma TerminalsOne(q: nat, job: Job)
    ensures TerminalsOf(q, [job]) == if job.terminal && job.request == q then [job] else []
  {
    assert [job][1..] == [];
  }

  lemma {:induction false} NoTerminals(q: nat, jobs: seq<Job>)
    requires forall i :: 0 <= i < |jobs| ==> jobs[i].request != q || !jobs[i].terminal
    ensures TerminalsOf(q, jobs) == []
  {
    if jobs != [] { NoTerminals(q, jobs[1..]); }
  }

  lemma TerminalsRemove(q: nat, queue: seq<Job>, k: nat)
    requires k < |queue|
    ensures TerminalsOf(q, queue)
         == TerminalsOf(q, queue[..k]) + (TerminalsOf(q, [queue[k]]) + TerminalsOf(q, queue[k + 1..]))
    ensures TerminalsOf(q, Remove(queue, k)) == TerminalsOf(q, queue[..k]) + TerminalsOf(q, queue[k + 1..])
  {
    SplitAt(queue, k);
    TerminalsAppend(q, queue[..k], [queue[k]] + queue[k + 1..]);
    TerminalsAppend(q, [queue[k]], queue[k + 1..]);
    TerminalsAppend(q, queue[..k], queue[k + 1..]);
  }

  // ---- the invariant ----

  /** Callbacks of one request never run together, and `running` counts the active requests. */
  ghost predicate Exclusive(d: Domain) {
    && d.s.running == |d.s.active| == Count(d.threads, IsRunning)
    && (forall t :: 0 <= t < |d.threads| && d.threads[t].Running? ==> d.threads[t].job.request in d.s.active)
    && (forall t, u :: 0 <= t < u < |d.threads| && d.threads[t].Running? && d.threads[u].Running? ==>
          d.threads[t].job.request != d.threads[u].job.request)
  }

  ghost predicate Staff(d: Domain) {
    && d.s.workersAlive + d.uncounted == Count(d.threads, IsWorker)
    && (d.s.sealed ==> d.uncounted == 0)
    && (forall t :: 0 <= t < |d.threads| && d.threads[t].Exited? ==> d.s.sealed && d.s.queue == [])
  }

  ghost predicate Bounded(d: Domain) {
    Permits(d) <= d.s.capacity && |d.s.queue| <= d.s.capacity && d.s.gauge == |d.s.queue|
  }

  /** Terminal jobs are neither lost nor reordered within a request. */
  ghost predicate InOrder(d: Domain) {
    forall q: nat :: TerminalsOf(q, d.started) + TerminalsOf(q, d.s.queue) == TerminalsOf(q, d.accepted)
  }

  ghost predicate Inv(d: Domain) {
    Exclusive(d) && Staff(d) && Bounded(d) && InOrder(d) && (d.s.complete <==> Drained(d.s))
  }

  // ---- taking a job ----

  lemma TakeExclusive(d: Domain, t: nat)
    requires Exclusive(d) && CanTake(d, t)
    ensures Exclusive(TakeStep(d, t))
  {
    hide Remove;
    CountUpdate(d.threads, t, TakeStep(d, t).threads[t], IsRunning);
  }

  lemma TakeStaff(d: Domain, t: nat)
    requires Staff(d) && CanTake(d, t)
    ensures Staff(TakeStep(d, t))
  {
    CountUpdate(d.threads, t, TakeStep(d, t).threads[t], IsWorker);
  }

  lemma TakeBounded(d: Domain, t: nat)
    requires Bounded(d) && CanTake(d, t)
    ensures Bounded(TakeStep(d, t))
  {
    CountUpdate(d.threads, t, TakeStep(d, t).threads[t], IsTerminalRun);
    RemoveCounts(d.s.queue, FirstRunnable(d.s.queue, d.s.active, 0));
  }

  /** A job may overtake others only when there is nothing of its own request among them. */
  lemma Overtake(done: seq<Job>, ahead: seq<Job>, job: seq<Job>, behind: seq<Job>)
    requires ahead == [] || job == []
    ensures done + job + (ahead + behind) == done + (ahead + (job + behind))
  {
  }

  lemma TerminalsDisplace(q: nat, s: Shared)
    ensures TerminalsOf(q, Displace(s)) == TerminalsOf(q, s.queue)
  {
    hide TerminalsOf, FirstProgress, Remove;
    var k := FirstProgress(s.queue, 0);
    if k < |s.queue| {
      TerminalsRemove(q, s.queue, k);
      TerminalsOne(q, s.queue[k]);
    }
  }

  lemma TakeOrder(d: Domain, t: nat, q: nat)
    requires CanTake(d, t)
    requires TerminalsOf(q, d.started) + TerminalsOf(q, d.s.queue) == TerminalsOf(q, d.accepted)
    ensures var e := TakeStep(d, t);
            TerminalsOf(q, e.started) + TerminalsOf(q, e.s.queue) == TerminalsOf(q, e.accepted)
  {
    hide TerminalsOf, Remove, FirstRunnable;
    var queue, k := d.s.queue, FirstRunnable(d.s.queue, d.s.active, 0);
    TerminalsRemove(q, queue, k);
    TerminalsAppend(q, d.started, [queue[k]]);
    TerminalsOne(q, queue[k]);
    if queue[k].request == q { NoTerminals(q, queue[..k]); }
    Overtake(TerminalsOf(q, d.started), TerminalsOf(q, queue[..k]), TerminalsOf(q, [queue[k]]), TerminalsOf(q, queue[k + 1..]));
  }

  lemma TakeKeeps(d: Domain, t: nat)
    requires Inv(d) && CanTake(d, t)
    ensures Inv(TakeStep(d, t))
  {
    hide Exclusive, Staff, Bounded, TerminalsOf;
    TakeExclusive(d, t);
    TakeStaff(d, t);
    TakeBounded(d, t);
    forall q: nat ensures var e := TakeStep(d, t);
      TerminalsOf(q, e.started) + TerminalsOf(q, e.s.queue) == TerminalsOf(q, e.accepted)
    {
      TakeOrder(d, t, q);
    }
    assert d.s.running >= 0 by { RunningIsCount(d); }
  }

  lemma RunningIsCount(d: Domain)
    requires Exclusive(d)
    ensures d.s.running == Count(d.threads, IsRunning)
  {
  }

  // ---- a callback returning, a worker leaving ----

  lemma FinishExclusive(d: Domain, t: nat)
    requires Exclusive(d) && CanFinish(d, t)
    ensures Exclusive(FinishStep(d, t))
  {
    CountUpdate(d.threads, t, Idle(d.threads[t].worker), IsRunning);
  }

  lemma FinishKeeps(d: Domain, t: nat)
    requires Inv(d) && CanFinish(d, t)
    ensures Inv(FinishStep(d, t))
  {
    hide Exclusive, TerminalsOf, Count, TerminalCount;
    FinishExclusive(d, t);
    CountUpdate(d.threads, t, Idle(d.threads[t].worker), IsWorker);
    CountUpdate(d.threads, t, Idle(d.threads[t].worker), IsTerminalRun);
    RunsMeanRunning(d, t);
  }

  lemma RunsMeanRunning(d: Domain, t: nat)
    requires Exclusive(d) && CanFinish(d, t)
    ensures d.s.running > 0
  {
    CountPositive(d.threads, IsRunning);
    assert IsRunning(d.threads[t]);
  }

  lemma ExitExclusive(d: Domain, t: nat)
    requires Exclusive(d) && CanExit(d, t)
    ensures Exclusive(ExitStep(d, t))
  {
    CountUpdate(d.threads, t, Exited, IsRunning);
  }

  lemma ExitKeeps(d: Domain, t: nat)
    requires Inv(d) && CanExit(d, t)
    ensures Inv(ExitStep(d, t))
  {
    hide Exclusive, TerminalsOf, Count, TerminalCount;
    ExitExclusive(d, t);
    CountUpdate(d.threads, t, Exited, IsWorker);
    CountUpdate(d.threads, t, Exited, IsTerminalRun);
    CountPositive(d.threads, IsWorker);
    assert IsWorker(d.threads[t]);
  }

  // ---- accepting a job ----

  lemma EnqueueBounded(d: Domain, job: Job)
    requires Bounded(d) && d.held > 0 && job.terminal && !d.s.sealed
    ensures Bounded(Do(d, Enqueue(job)))
  {
    var queue, k := d.s.queue, FirstProgress(d.s.queue, 0);
    AllTerminal(queue);
    TerminalCountAppend(Displace(d.s), [job]);
    assert [job][1..] == [];
    if k < |queue| { RemoveCounts(queue, k); }
  }

  lemma EnqueueOrder(d: Domain, job: Job, q: nat)
    requires d.held > 0 && job.terminal && !d.s.sealed
    requires TerminalsOf(q, d.started) + TerminalsOf(q, d.s.queue) == TerminalsOf(q, d.accepted)
    ensures var e := Do(d, Enqueue(job));
            TerminalsOf(q, e.started) + TerminalsOf(q, e.s.queue) == TerminalsOf(q, e.accepted)
  {
    hide TerminalsOf, Displace;
    TerminalsDisplace(q, d.s);
    TerminalsAppend(q, Displace(d.s), [job]);
    TerminalsAppend(q, d.accepted, [job]);
    assert TerminalsOf(q, d.started) + (TerminalsOf(q, d.s.queue) + TerminalsOf(q, [job]))
        == (TerminalsOf(q, d.started) + TerminalsOf(q, d.s.queue)) + TerminalsOf(q, [job]);
  }

  lemma EnqueueKeeps(d: Domain, job: Job)
    requires Inv(d) && d.held > 0 && job.terminal && !d.s.sealed
    ensures Inv(Do(d, Enqueue(job)))
  {
    hide TerminalsOf, Bounded, Count, TerminalCount;
    EnqueueBounded(d, job);
    forall q: nat ensures var e := Do(d, Enqueue(job));
      TerminalsOf(q, e.started) + TerminalsOf(q, e.s.queue) == TerminalsOf(q, e.accepted)
    {
      EnqueueOrder(d, job, q);
    }
  }

  lemma ProgressKeeps(d: Domain, job: Job)
    requires Inv(d) && !job.terminal
    ensures Inv(d.(s := ProgressIn(d.s, job)))
  {
    hide Count;
    if !d.s.sealed {
      var queue, k := d.s.queue, SameProgress(d.s.queue, job.request, 0);
      if k < |queue| {
        ReplacedProgress(queue, k, job);
      } else if |queue| < d.s.capacity {
        AppendedProgress(queue, job);
      }
    }
  }

  lemma ReplacedProgress(queue: seq<Job>, k: nat, job: Job)
    requires k < |queue| && !queue[k].terminal && !job.terminal
    ensures TerminalCount(queue[k := job]) == TerminalCount(queue)
    ensures forall q: nat :: TerminalsOf(q, queue[k := job]) == TerminalsOf(q, queue)
  {
    var other := queue[k := job];
    assert Remove(other, k) == Remove(queue, k);
    RemoveCounts(queue, k);
    RemoveCounts(other, k);
    forall q: nat ensures TerminalsOf(q, other) == TerminalsOf(q, queue) {
      TerminalsRemove(q, queue, k);
      TerminalsRemove(q, other, k);
      TerminalsOne(q, queue[k]);
      TerminalsOne(q, job);
    }
  }

  lemma AppendedProgress(queue: seq<Job>, job: Job)
    requires !job.terminal
    ensures TerminalCount(queue + [job]) == TerminalCount(queue)
    ensures forall q: nat :: TerminalsOf(q, queue + [job]) == TerminalsOf(q, queue)
  {
    TerminalCountAppend(queue, [job]);
    assert [job][1..] == [];
    forall q: nat ensures TerminalsOf(q, queue + [job]) == TerminalsOf(q, queue) {
      TerminalsAppend(q, queue, [job]);
      TerminalsOne(q, job);
    }
  }

  // ---- every step ----

  lemma NewThreadKeeps(d: Domain, worker: bool)
    requires Inv(d) && (worker ==> !d.s.sealed)
    ensures Inv(d.(threads := d.threads + [Idle(worker)], uncounted := d.uncounted + if worker then 1 else 0))
  {
    hide TerminalsOf, TerminalCount, Count;
    CountAppend(d.threads, Idle(worker), IsRunning);
    CountAppend(d.threads, Idle(worker), IsWorker);
    CountAppend(d.threads, Idle(worker), IsTerminalRun);
  }

  lemma StepKeeps(d: Domain, step: Step)
    requires Inv(d)
    ensures Inv(Do(d, step))
  {
    hide TakeStep, FinishStep, ExitStep, EnqueueTerminal, ProgressIn, TerminalsOf, Count, TerminalCount;
    match step {
      case SpawnWorker => if !d.s.sealed { NewThreadKeeps(d, true); }
      case NewDrainer => NewThreadKeeps(d, false);
      case Enqueue(job) => if d.held > 0 && job.terminal && !d.s.sealed { EnqueueKeeps(d, job); }
      case EnqueueProgress(job) => if !job.terminal { ProgressKeeps(d, job); }
      case TakeJob(t) => if CanTake(d, t) { TakeKeeps(d, t); }
      case Finish(t) => if CanFinish(d, t) { FinishKeeps(d, t); }
      case Exit(t) => if CanExit(d, t) { ExitKeeps(d, t); }
      case _ =>
    }
  }

  lemma {:induction false} RunKeeps(capacity: nat, steps: seq<Step>, k: nat)
    requires k <= |steps|
    ensures Inv(After(capacity, steps, k)) && After(capacity, steps, k).s.capacity == capacity
  {
    if k == 0 {
      assert forall q: nat :: TerminalsOf(q, []) == [];
    } else {
      hide Inv, Do;
      RunKeeps(capacity, steps, k - 1);
      StepKeeps(After(capacity, steps, k - 1), steps[k - 1]);
      CapacityStays(After(capacity, steps, k - 1), steps[k - 1]);
    }
  }

  lemma CapacityStays(d: Domain, step: Step)
    ensures Do(d, step).s.capacity == d.s.capacity && (d.s.complete ==> Do(d, step).s.complete)
  {
  }

  /**
   * In every reachable state: the queue is within its capacity and the gauge tells its length, since
   * every terminal job owns one of `capacity` permits; no two threads run callbacks of one request;
   * and the terminal jobs of each request have been started, in order, except those still queued.
   */
  lemma DispatchIsSound(capacity: nat, steps: seq<Step>, k: nat)
    requires k <= |steps|
    ensures var d := After(capacity, steps, k);
            && |d.s.queue| <= capacity && d.s.gauge == |d.s.queue|
            && d.s.running == |d.s.active|
            && (forall t, u :: 0 <= t < u < |d.threads| && d.threads[t].Running? && d.threads[u].Running? ==>
                  d.threads[t].job.request != d.threads[u].job.request)
            && (forall q: nat :: TerminalsOf(q, d.started) + TerminalsOf(q, d.s.queue) == TerminalsOf(q, d.accepted))
  {
    hide After, TerminalsOf, Count;
    RunKeeps(capacity, steps, k);
  }

  /** The oldest progress job. */
  predicate GivesWay(queue: seq<Job>, k: nat) {
    k < |queue| && !queue[k].terminal && forall i :: 0 <= i < k ==> queue[i].terminal
  }

  /**
   * A job whose operation holds a permit is accepted whenever the domain is not sealed, and is then
   * last in the queue. Only in a full queue does another job give way, the oldest progress job.
   */
  lemma PermitGetsRoom(d: Domain, job: Job)
    requires Inv(d) && d.held > 0 && job.terminal && !d.s.sealed
    ensures var e := Do(d, Enqueue(job)); job in e.s.queue && |e.s.queue| <= e.s.capacity
    ensures |d.s.queue| < d.s.capacity ==> Do(d, Enqueue(job)).s.queue == d.s.queue + [job]
    ensures |d.s.queue| == d.s.capacity ==>
              exists k: nat :: GivesWay(d.s.queue, k)
                               && Do(d, Enqueue(job)).s.queue == d.s.queue[..k] + d.s.queue[k + 1..] + [job]
  {
    hide TerminalsOf, Count;
    EnqueueBounded(d, job);
    AllTerminal(d.s.queue);
    var e := Do(d, Enqueue(job));
    assert |d.s.queue| == d.s.capacity ==> GivesWay(d.s.queue, FirstProgress(d.s.queue, 0));
    assert e.s.queue[|e.s.queue| - 1] == job;
  }

  /** Completion is marked only on an empty, sealed and idle domain, and it is never taken back. */
  lemma {:induction false} CompletionIsFinal(capacity: nat, steps: seq<Step>, j: nat, k: nat)
    requires j <= k <= |steps| && After(capacity, steps, j).s.complete
    ensures After(capacity, steps, k).s.complete && Drained(After(capacity, steps, k).s)
    decreases k
  {
    hide Do, Exclusive, Staff, Bounded, InOrder;
    RunKeeps(capacity, steps, k);
    if j < k {
      CompletionIsFinal(capacity, steps, j, k - 1);
      CapacityStays(After(capacity, steps, k - 1), steps[k - 1]);
    }
  }

  // ---- draining a sealed domain ----

  /** What is left to do: a queued job costs a take and a return. */
  function Left(d: Domain): (n: int) { 2 * |d.s.queue| + d.s.running + d.s.workersAlive }

  predicate Effective(d: Domain, step: Step) {
    match step
    case TakeJob(t) => CanTake(d, t)
    case Finish(t) => CanFinish(d, t)
    case Exit(t) => CanExit(d, t)
    case _ => false
  }

  lemma EffectiveCosts(d: Domain, step: Step)
    requires d.s.sealed && Effective(d, step)
    ensures var e := Do(d, step);
            Left(e) == Left(d) - 1 && e.s.sealed && |e.threads| == |d.threads| && e.accepted == d.accepted
  {
    hide FirstRunnable;
  }

  /** While a sealed domain is not complete, some thread can go on. */
  lemma SomeStepIsEffective(d: Domain) returns (step: Step)
    requires Inv(d) && d.s.sealed && !d.s.complete && |d.threads| > 0
    ensures Effective(d, step)
  {
    hide TerminalsOf, TerminalCount;
    CountPositive(d.threads, IsRunning);
    CountPositive(d.threads, IsWorker);
    if d.s.running > 0 {
      var t: nat :| t < |d.threads| && IsRunning(d.threads[t]);
      step := Finish(t);
    } else if d.s.queue != [] {
      assert d.s.active == {};
      assert !IsRunning(d.threads[0]) && !d.threads[0].Exited?;
      step := TakeJob(0);
    } else {
      var t: nat :| t < |d.threads| && IsWorker(d.threads[t]);
      assert !IsRunning(d.threads[t]);
      step := Exit(t);
    }
  }

  /** The state after a schedule in which every step does something. */
  ghost function Drain(d: Domain, schedule: seq<Step>): (e: Domain)
    decreases |schedule|
  {
    if schedule == [] then d else Drain(Do(d, schedule[0]), schedule[1..])
  }

  ghost predicate AllEffective(d: Domain, schedule: seq<Step>)
    decreases |schedule|
  {
    schedule == [] || (Effective(d, schedule[0]) && AllEffective(Do(d, schedule[0]), schedule[1..]))
  }

  lemma {:induction false} ScheduleCosts(d: Domain, schedule: seq<Step>)
    requires Inv(d) && d.s.sealed && AllEffective(d, schedule)
    ensures var e := Drain(d, schedule);
            && Inv(e) && e.s.sealed && Left(e) == Left(d) - |schedule| && |e.threads| == |d.threads|
            && e.accepted == d.accepted
    decreases |schedule|
  {
    hide Inv, Do, Effective;
    if schedule != [] {
      StepKeeps(d, schedule[0]);
      EffectiveCosts(d, schedule[0]);
      ScheduleCosts(Do(d, schedule[0]), schedule[1..]);
    }
  }

  lemma LeftIsNonnegative(d: Domain)
    requires Inv(d) && d.s.sealed
    ensures Left(d) >= 0
    ensures d.s.complete ==> Left(d) == 0
  {
    hide TerminalsOf, TerminalCount, Count;
  }

  /**
   * A sealed domain drains: however the threads are scheduled, they can take at most `Left(d)` steps;
   * a schedule that cannot be continued has taken exactly that many, completion is marked, no
   * callback is running, and every terminal job accepted before the seal has been started once, in
   * the order of its request.
   */
  lemma SealedDomainDrains(d: Domain, schedule: seq<Step>)
    requires Inv(d) && d.s.sealed && |d.threads| > 0 && AllEffective(d, schedule)
    ensures |schedule| <= Left(d)
    ensures var e := Drain(d, schedule);
            (forall step :: !Effective(e, step)) ==>
              && e.s.complete && |schedule| == Left(d)
              && (forall t :: 0 <= t < |e.threads| ==> !e.threads[t].Running?)
              && (forall q: nat :: TerminalsOf(q, e.started) == TerminalsOf(q, d.accepted))
  {
    hide TerminalsOf, Drain, AllEffective, TerminalCount;
    ScheduleCosts(d, schedule);
    var e := Drain(d, schedule);
    LeftIsNonnegative(e);
    if forall step :: !Effective(e, step) {
      if !e.s.complete {
        var step := SomeStepIsEffective(e);
        assert false;
      }
      NothingQueued(e);
    }
  }

  lemma NothingQueued(e: Domain)
    requires Inv(e) && e.s.complete
    ensures forall t :: 0 <= t < |e.threads| ==> !e.threads[t].Running?
    ensures forall q: nat :: TerminalsOf(q, e.started) == TerminalsOf(q, e.accepted)
  {
    CountPositive(e.threads, IsRunning);
    forall t | 0 <= t < |e.threads| ensures !e.threads[t].Running? { assert !IsRunning(e.threads[t]); }
    forall q: nat ensures TerminalsOf(q, e.started) == TerminalsOf(q, e.accepted) {
      assert TerminalsOf(q, e.s.queue) == [];
    }
  }
}
