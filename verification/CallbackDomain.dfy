/** The object behind the lock of src/dispatch.rs; each method is one critical section. */
module CallbackDomains {
  import opened Bytes
  import opened CallbackDispatch

  class CallbackDomain {
    const capacity: nat
    var sealed: bool
    var queue: seq<Job>
    var activeRequests: set<nat>
    var running: int
    var workersAlive: int
    var complete: bool
    var gauge: int

    ghost function View(): (s: Shared)
      reads this
    {
      Shared(capacity, sealed, queue, activeRequests, running, workersAlive, complete, gauge)
    }

    constructor (capacity: nat)
      ensures View() == NewDomain(capacity).s
    {
      this.capacity := capacity;
      sealed, queue, activeRequests, running, workersAlive, complete, gauge := false, [], {}, 0, 0, false, 0;
    }

    method Enqueue(job: Job) returns (accepted: bool)
      modifies this
      ensures View() == EnqueueTerminal(old(View()), job) && (accepted <==> !old(sealed))
    {
      if sealed {
        return false;
      }
      var previous := |queue|;
      if previous == capacity {
        var k := 0;
        while k < |queue| && queue[k].terminal
          invariant k <= |queue| && FirstProgress(queue, 0) == FirstProgress(queue, k)
        {
          k := k + 1;
        }
        if k < |queue| {
          queue := queue[..k] + queue[k + 1..];
        }
      }
      queue := queue + [job];
      if |queue| > previous {
        gauge := gauge + 1;
      }
      return true;
    }

    method TakeRunnable() returns (job: Option<Job>)
      modifies this
      ensures var k := FirstRunnable(old(queue), old(activeRequests), 0);
              if k < |old(queue)| then job == Some(old(queue)[k]) && View() == Take(old(View()))
              else job.None? && View() == old(View())
    {
      var k := 0;
      while k < |queue| && queue[k].request in activeRequests
        invariant k <= |queue| && FirstRunnable(queue, activeRequests, 0) == FirstRunnable(queue, activeRequests, k)
      {
        k := k + 1;
      }
      if k == |queue| {
        return None;
      }
      job := Some(queue[k]);
      queue := queue[..k] + queue[k + 1..];
      gauge := gauge - 1;
      activeRequests := activeRequests + {job.value.request};
      running := running + 1;
    }

    /** After the callback has returned, normally or by a panic that was caught. */
    method JobReturned(request: nat)
      modifies this
      ensures View() == Return(old(View()), request)
    {
      running := running - 1;
      activeRequests := activeRequests - {request};
      CheckComplete();
    }

    /** One look of a worker: a job, a reason to leave, or a reason to wait. */
    method WorkerTurn() returns (job: Option<Job>, leaves: bool)
      modifies this
      ensures var k := FirstRunnable(old(queue), old(activeRequests), 0);
              if k < |old(queue)| then job == Some(old(queue)[k]) && !leaves && View() == Take(old(View()))
              else job.None? && (leaves <==> old(sealed) && old(queue) == [])
                   && View() == if leaves then WorkerExit(old(View())) else old(View())
    {
      job := TakeRunnable();
      leaves := false;
      if job.None? && sealed && queue == [] {
        workersAlive := workersAlive - 1;
        CheckComplete();
        leaves := true;
      }
    }

    method SealNow()
      modifies this
      ensures View() == Seal(old(View()))
    {
      sealed := true;
      CheckComplete();
    }

    method CheckComplete()
      modifies this`complete
      ensures View() == MaybeComplete(old(View()))
    {
      if sealed && queue == [] && running == 0 && workersAlive == 0 {
        complete := true;
      }
    }

    /**
     * The inline drain, while nobody else takes or adds jobs: everything queued runs, strictly in
     * order, and a sealed domain without workers is complete afterwards.
     */
    method DrainInline() returns (ran: seq<Job>)
      requires activeRequests == {} && running == 0
      modifies this
      ensures ran == old(queue) && queue == [] && activeRequests == {} && running == 0
      ensures gauge == old(gauge) - |old(queue)| && sealed == old(sealed) && workersAlive == old(workersAlive)
      ensures sealed && workersAlive == 0 ==> complete
    {
      ran := [];
      while queue != []
        invariant activeRequests == {} && running == 0 && ran + queue == old(queue)
        invariant gauge == old(gauge) - |ran| && sealed == old(sealed) && workersAlive == old(workersAlive)
        decreases |queue|
      {
        var job := RunFirst();
        ran := ran + [job];
      }
      var none := TakeRunnable();
      CheckComplete();
    }

    /** With no request active the oldest job runs. */
    method RunFirst() returns (job: Job)
      requires activeRequests == {} && running == 0 && queue != []
      modifies this
      ensures job == old(queue)[0] && queue == old(queue)[1..] && activeRequests == {} && running == 0
      ensures gauge == old(gauge) - 1 && sealed == old(sealed) && workersAlive == old(workersAlive)
    {
      var next := TakeRunnable();
      job := next.value;
      JobReturned(job.request);
    }
  }
}
