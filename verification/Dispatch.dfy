/**
 * The callback domain of src/dispatch.rs. `Shared` is what its lock protects; `Domain` adds the
 * threads that run callbacks, the permits of operations that still owe a callback, and the history
 * of jobs accepted and started. One step is one critical section, or one callback returning.
 */
module CallbackDispatch {

  datatype Job = Job(id: nat, request: nat, terminal: bool)

  datatype Shared = Shared(
    capacity: nat, sealed: bool, queue: seq<Job>, active: set<nat>, running: int, workersAlive: int, complete: bool,
    gauge: int)

  // ---- critical sections ----

  /** The first position whose job satisfies the search, or the length. */
  function FirstProgress(queue: seq<Job>, from: nat): (k: nat)
    requires from <= |queue|
    ensures from <= k <= |queue|
    ensures k < |queue| ==> !queue[k].terminal
    ensures forall i :: from <= i < k ==> queue[i].terminal
    decreases |queue| - from
  {
    if from == |queue| then from else if !queue[from].terminal then from else FirstProgress(queue, from + 1)
  }

  function FirstRunnable(queue: seq<Job>, active: set<nat>, from: nat): (k: nat)
    requires from <= |queue|
    ensures from <= k <= |queue|
    ensures k < |queue| ==> queue[k].request !in active
    ensures forall i :: from <= i < k ==> queue[i].request in active
    decreases |queue| - from
  {
    if from == |queue| then from else if queue[from].request !in active then from
    else FirstRunnable(queue, active, from + 1)
  }

  function Remove(queue: seq<Job>, k: nat): (r: seq<Job>)
    requires k < |queue|
  {
    queue[..k] + queue[k + 1..]
  }

  /** A full queue gives up its oldest progress job; a terminal job is never refused for lack of room. */
  function Displace(s: Shared): (queue: seq<Job>) {
    var k := FirstProgress(s.queue, 0);
    if |s.queue| == s.capacity && k < |s.queue| then Remove(s.queue, k) else s.queue
  }

  function EnqueueTerminal(s: Shared, job: Job): (r: Shared) {
    if s.sealed then s
    else
      var queue := Displace(s) + [job];
      s.(queue := queue, gauge := s.gauge + if |queue| > |s.queue| then 1 else 0)
  }

  function Take(s: Shared): (r: Shared)
    requires FirstRunnable(s.queue, s.active, 0) < |s.queue|
  {
    var k := FirstRunnable(s.queue, s.active, 0);
    s.(queue := Remove(s.queue, k), active := s.active + {s.queue[k].request}, running := s.running + 1,
       gauge := s.gauge - 1)
  }

  predicate Drained(s: Shared) { s.sealed && s.queue == [] && s.running == 0 && s.workersAlive == 0 }

  function MaybeComplete(s: Shared): (r: Shared) { if Drained(s) then s.(complete := true) else s }

  function Return(s: Shared, request: nat): (r: Shared) {
    MaybeComplete(s.(running := s.running - 1, active := s.active - {request}))
  }

  function WorkerExit(s: Shared): (r: Shared) {
    MaybeComplete(s.(workersAlive := s.workersAlive - 1))
  }

  function Seal(s: Shared): (r: Shared) { MaybeComplete(s.(sealed := true)) }

  // ---- the domain with its threads ----

  datatype Thread = Idle(worker: bool) | Running(worker: bool, job: Job) | Exited

  /** `held` counts permits whose job is not enqueued; `uncounted` workers run but are not yet counted. */
  datatype Domain = Domain(
    s: Shared, threads: seq<Thread>, uncounted: nat, held: nat, accepted: seq<Job>, started: seq<Job>)

  datatype Step =
    | SpawnWorker | CountWorker | NewDrainer
    | Admit | Forgo
    | Enqueue(job: Job) | EnqueueProgress(job: Job)
    | TakeJob(t: nat) | Finish(t: nat) | Exit(t: nat) | Look(t: nat)
    | SealAll

  function Count(threads: seq<Thread>, f: Thread -> bool): (n: nat) {
    if threads == [] then 0 else (if f(threads[0]) then 1 else 0) + Count(threads[1..], f)
  }

  function IsRunning(t: Thread): (b: bool) { t.Running? }
  function IsTerminalRun(t: Thread): (b: bool) { t.Running? && t.job.terminal }
  function IsWorker(t: Thread): (b: bool) { !t.Exited? && t.worker }

  function TerminalCount(queue: seq<Job>): (n: nat) {
    if queue == [] then 0 else (if queue[0].terminal then 1 else 0) + TerminalCount(queue[1..])
  }

  /** Permits in existence: waiting for their job, in the queue, or held by a running callback. */
  function Permits(d: Domain): (n: nat) {
    d.held + TerminalCount(d.s.queue) + Count(d.threads, IsTerminalRun)
  }

  function SetThread(d: Domain, t: nat, th: Thread): (r: Domain)
    requires t < |d.threads|
  {
    d.(threads := d.threads[t := th])
  }

  /** The progress event of a request replaces an older one of the same request, or needs room. */
  function ProgressIn(s: Shared, job: Job): (r: Shared) {
    if s.sealed then s
    else
      var k := SameProgress(s.queue, job.request, 0);
      if k < |s.queue| then s.(queue := s.queue[k := job])
      else if |s.queue| == s.capacity then s
      else s.(queue := s.queue + [job], gauge := s.gauge + 1)
  }

  function SameProgress(queue: seq<Job>, request: nat, from: nat): (k: nat)
    requires from <= |queue|
    ensures from <= k <= |queue|
    ensures k < |queue| ==> !queue[k].terminal && queue[k].request == request
    decreases |queue| - from
  {
    if from == |queue| then from else if !queue[from].terminal && queue[from].request == request then from
    else SameProgress(queue, request, from + 1)
  }

  predicate CanTake(d: Domain, t: nat) {
    t < |d.threads| && d.threads[t].Idle? && FirstRunnable(d.s.queue, d.s.active, 0) < |d.s.queue|
  }

  predicate CanFinish(d: Domain, t: nat) { t < |d.threads| && d.threads[t].Running? }

  predicate CanExit(d: Domain, t: nat) {
    t < |d.threads| && d.threads[t].Idle? && d.threads[t].worker && d.s.sealed && d.s.queue == []
  }

  function TakeStep(d: Domain, t: nat): (r: Domain)
    requires CanTake(d, t)
  {
    var job := d.s.queue[FirstRunnable(d.s.queue, d.s.active, 0)];
    SetThread(d, t, Running(d.threads[t].worker, job)).(s := Take(d.s), started := d.started + [job])
  }

  function FinishStep(d: Domain, t: nat): (r: Domain)
    requires CanFinish(d, t)
  {
    SetThread(d, t, Idle(d.threads[t].worker)).(s := Return(d.s, d.threads[t].job.request))
  }

  function ExitStep(d: Domain, t: nat): (r: Domain)
    requires CanExit(d, t)
  {
    SetThread(d, t, Exited).(s := WorkerExit(d.s))
  }

  /** The whole domain; a step that does not apply changes nothing. */
  function Do(d: Domain, step: Step): (r: Domain) {
    match step
    case SpawnWorker =>
      if d.s.sealed then d else d.(threads := d.threads + [Idle(true)], uncounted := d.uncounted + 1)
    case CountWorker =>
      if d.uncounted == 0 then d
      else d.(uncounted := d.uncounted - 1, s := d.s.(workersAlive := d.s.workersAlive + 1))
    case NewDrainer => d.(threads := d.threads + [Idle(false)])
    case Admit => if Permits(d) < d.s.capacity then d.(held := d.held + 1) else d
    case Forgo => if d.held > 0 then d.(held := d.held - 1) else d
    case Enqueue(job) =>
      if d.held == 0 || !job.terminal then d
      else if d.s.sealed then d.(held := d.held - 1)
      else d.(s := EnqueueTerminal(d.s, job), held := d.held - 1, accepted := d.accepted + [job])
    case EnqueueProgress(job) => if job.terminal then d else d.(s := ProgressIn(d.s, job))
    case TakeJob(t) => if CanTake(d, t) then TakeStep(d, t) else d
    case Finish(t) => if CanFinish(d, t) then FinishStep(d, t) else d
    case Exit(t) => if CanExit(d, t) then ExitStep(d, t) else d
    case Look(t) => d.(s := MaybeComplete(d.s))
    case SealAll => if d.uncounted == 0 then d.(s := Seal(d.s)) else d
  }

  function NewDomain(capacity: nat): (d: Domain) {
    Domain(Shared(capacity, false, [], {}, 0, 0, false, 0), [], 0, 0, [], [])
  }

  function After(capacity: nat, steps: seq<Step>, k: nat): (d: Domain)
    requires k <= |steps|
  {
    if k == 0 then NewDomain(capacity) else Do(After(capacity, steps, k - 1), steps[k - 1])
  }
}
