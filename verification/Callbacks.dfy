/**
 * The registry and the callback domain together. A permit is taken at admission, travels with the
 * callback job and ends when the callback has returned; the registry's enqueue tasks put their jobs
 * into the domain, and its seal is the domain's seal.
 */
module RegistryCallbacks {
  import opened Bytes
  import L = Lifecycle
  import LP = LifecycleProof
  import LR = LifecycleRuns
  import LF = LifecycleFrames
  import D = CallbackDispatch
  import DP = CallbackProof

  datatype Pair = Pair(g: L.Registry, d: D.Domain)

  datatype Step = Registry(section: L.Step) | Dispatch(work: D.Step)

  /** Admission asks for a callback permit first. */
  predicate NeedsPermit(step: L.Step) { (step.StepAccept? || step.StepUpgrade?) && step.callback }

  predicate Enqueues(g: L.Registry, step: L.Step) {
    step.StepTask? && step.i < |g.tasks| && g.tasks[step.i].Enqueue? && g.tasks[step.i].ref < |g.ops|
  }

  function JobOf(g: L.Registry, step: L.Step): (job: D.Job)
    requires Enqueues(g, step)
  {
    D.Job(g.tasks[step.i].ref, g.ops[g.tasks[step.i].ref].id, true)
  }

  predicate Possible(p: Pair, step: L.Step) {
    && (NeedsPermit(step) ==> D.Permits(p.d) < p.d.s.capacity)
    && (step.StepSeal? ==> p.d.uncounted == 0)
  }

  function RegistryStep(p: Pair, step: L.Step): (r: Pair) {
    var g := L.Do(p.g, step);
    if NeedsPermit(step) then Pair(g, if |g.ops| > |p.g.ops| then D.Do(p.d, D.Admit) else p.d)
    else if Enqueues(p.g, step) then Pair(g, D.Do(p.d, D.Enqueue(JobOf(p.g, step))))
    else if step.StepSeal? && p.g.seal.Awaited? then Pair(g, D.Do(p.d, D.SealAll))
    else Pair(g, p.d)
  }

  /** What threads of the domain do on their own. */
  predicate OwnWork(step: D.Step) { !step.Admit? && !step.Forgo? && !step.Enqueue? && !step.SealAll? }

  function Do(p: Pair, step: Step): (r: Pair) {
    match step
    case Registry(s) => if Possible(p, s) then RegistryStep(p, s) else p
    case Dispatch(s) => if OwnWork(s) then p.(d := D.Do(p.d, s)) else p
  }

  function After(capacity: nat, steps: seq<Step>, k: nat): (p: Pair)
    requires k <= |steps|
  {
    if k == 0 then Pair(L.START, D.NewDomain(capacity)) else Do(After(capacity, steps, k - 1), steps[k - 1])
  }

  // ---- where the permits are ----

  function CarriesJob(task: L.Task): (b: bool) { task.Enqueue? || (task.Remove? && task.job) }

  function Callbacks(ops: seq<L.Op>): (n: nat) {
    if ops == [] then 0 else Bit(ops[0].callback) + Callbacks(ops[1..])
  }

  function Jobs(tasks: seq<L.Task>): (n: nat) {
    if tasks == [] then 0 else Bit(CarriesJob(tasks[0])) + Jobs(tasks[1..])
  }

  /** Callbacks still with their operation, and jobs on their way to the domain. */
  function Owed(g: L.Registry): (n: nat) { Callbacks(g.ops) + Jobs(g.tasks) }

  lemma {:induction false} CallbacksUpdate(ops: seq<L.Op>, i: nat, op: L.Op)
    requires i < |ops|
    ensures Callbacks(ops[i := op]) == Callbacks(ops) - Bit(ops[i].callback) + Bit(op.callback)
  {
    if i == 0 {
      assert ops[i := op][1..] == ops[1..];
    } else {
      assert ops[i := op][1..] == ops[1..][i - 1 := op];
      CallbacksUpdate(ops[1..], i - 1, op);
    }
  }

  lemma {:induction false} CallbacksAppend(ops: seq<L.Op>, op: L.Op)
    ensures Callbacks(ops + [op]) == Callbacks(ops) + Bit(op.callback)
  {
    if ops == [] {
      assert ops + [op] == [op] && [op][1..] == [];
    } else {
      assert (ops + [op])[1..] == ops[1..] + [op];
      CallbacksAppend(ops[1..], op);
    }
  }

  lemma {:induction false} CallbacksSame(a: seq<L.Op>, b: seq<L.Op>)
    requires |a| == |b| && forall i :: 0 <= i < |a| ==> a[i].callback == b[i].callback
    ensures Callbacks(a) == Callbacks(b)
  {
    if a != [] { CallbacksSame(a[1..], b[1..]); }
  }

  lemma {:induction false} JobsUpdate(tasks: seq<L.Task>, i: nat, task: L.Task)
    requires i < |tasks|
    ensures Jobs(tasks[i := task]) == Jobs(tasks) - Bit(CarriesJob(tasks[i])) + Bit(CarriesJob(task))
    ensures Bit(CarriesJob(tasks[i])) <= Jobs(tasks)
  {
    if i == 0 {
      assert tasks[i := task][1..] == tasks[1..];
    } else {
      assert tasks[i := task][1..] == tasks[1..][i - 1 := task];
      JobsUpdate(tasks[1..], i - 1, task);
    }
  }

  lemma {:induction false} JobsAppend(tasks: seq<L.Task>, task: L.Task)
    ensures Jobs(tasks + [task]) == Jobs(tasks) + Bit(CarriesJob(task))
  {
    if tasks == [] {
      assert tasks + [task] == [task] && [task][1..] == [];
    } else {
      assert (tasks + [task])[1..] == tasks[1..] + [task];
      JobsAppend(tasks[1..], task);
    }
  }

  // ---- no critical section but admission and enqueue changes what is owed ----

  lemma ExtractMoves(op: L.Op)
    ensures Bit(L.Extract(op).callback) == Bit(op.callback) - Bit(L.HasJob(op))
    ensures forall failed, io, owner :: L.Commit(op, failed, io, owner).callback == op.callback
    ensures L.MarkReady(op).callback == op.callback
  {
  }

  /** The object takes its job out and a new task carries it. */
  lemma HandedOn(g: L.Registry, ref: nat, op: L.Op, task: L.Task)
    requires ref < |g.ops| && op.callback == g.ops[ref].callback && CarriesJob(task) == L.HasJob(op)
    ensures Callbacks(g.ops[ref := L.Extract(op)]) + Jobs(g.tasks + [task]) == Owed(g)
    ensures !L.HasJob(op) ==> Callbacks(g.ops[ref := L.Extract(op)]) + Jobs(g.tasks) == Owed(g)
  {
    hide L.Extract, L.HasJob, CarriesJob;
    ExtractMoves(op);
    CallbacksUpdate(g.ops, ref, L.Extract(op));
    JobsAppend(g.tasks, task);
  }

  lemma CommitRequestOwes(g: L.Registry, ref: nat)
    ensures Owed(L.CommitRequest(g, ref)) == Owed(g)
  {
    hide L.Extract, L.HasJob, L.Commit, Callbacks, Jobs;
    if ref < |g.ops| && g.ops[ref].kind.Request? && !g.ops[ref].terminal {
      ExtractMoves(g.ops[ref]);
      var op := L.Commit(g.ops[ref], false, None, None);
      HandedOn(g, ref, op, L.Remove(ref, L.HasJob(op)));
    }
  }

  lemma TcpOwes(g: L.Registry, ref: nat)
    ensures Owed(L.TcpConnected(g, ref)) == Owed(g) && Owed(L.TcpFails(g, ref)) == Owed(g)
  {
    hide L.Extract, L.HasJob, L.Commit, L.MarkReady, Callbacks, Jobs;
    if L.InConnects(g, ref) {
      ExtractMoves(g.ops[ref]);
      var op := L.MarkReady(L.Commit(g.ops[ref], false, None, None));
      ExtractMoves(L.Commit(g.ops[ref], false, None, None));
      HandedOn(g, ref, op, if L.HasJob(op) then L.Enqueue(ref, false) else L.Finished);
      CallbacksUpdate(g.ops, ref, L.Commit(g.ops[ref], true, None, Some(|g.tasks|)));
      JobsAppend(g.tasks, L.Publish(ref));
    }
  }

  /** A decision that leaves the callback where it is and spawns a task without a job. */
  lemma DecidedOwes(g: L.Registry, ref: nat, op: L.Op, task: L.Task)
    requires ref < |g.ops| && op.callback == g.ops[ref].callback && !CarriesJob(task)
    ensures Callbacks(g.ops[ref := op]) + Jobs(g.tasks + [task]) == Owed(g)
    ensures Callbacks(g.ops[ref := op]) + Jobs(g.tasks) == Owed(g)
  {
    CallbacksUpdate(g.ops, ref, op);
    JobsAppend(g.tasks, task);
  }

  lemma TlsOwes(g: L.Registry, ref: nat)
    ensures Owed(L.TlsTransport(g, ref)) == Owed(g) && Owed(L.TlsConnected(g, ref)) == Owed(g)
    ensures Owed(L.TlsFails(g, ref)) == Owed(g)
  {
    hide L.Commit, Callbacks, Jobs;
    if L.InTls(g, ref) {
      ExtractMoves(g.ops[ref]);
      var op, io := g.ops[ref], L.LiveIo(g, g.ops[ref].id);
      DecidedOwes(g, ref, op.(handedOver := true), L.Publish(ref));
      DecidedOwes(g, ref, L.Commit(op, false, None, Some(|g.tasks|)), L.Publish(ref));
      DecidedOwes(g, ref, L.Commit(op, true, io, Some(|g.tasks|)), if io.Some? then L.Abort(ref, io.value) else L.Publish(ref));
    }
  }

  lemma SweepOwes(g: L.Registry, last: bool)
    ensures Owed(L.BeginSweep(g, last)) == Owed(g)
  {
    hide Callbacks, Jobs;
    var h := L.BeginSweep(g, last);
    CallbacksSame(g.ops, h.ops);
    JobsAppend(g.tasks, h.tasks[|g.tasks|]);
  }

  lemma PublicationOwes(g: L.Registry, i: nat, ref: nat, rest: L.Task)
    requires i < |g.tasks| && ref < |g.ops| && !CarriesJob(g.tasks[i]) && !CarriesJob(rest)
    ensures Owed(L.Publication(g, i, ref, rest)) == Owed(g)
  {
    hide L.Extract, L.HasJob, L.MarkReady, Callbacks, Jobs;
    ExtractMoves(g.ops[ref]);
    var op := L.MarkReady(g.ops[ref]);
    JobsUpdate(g.tasks, i, rest);
    HandedOn(g.(tasks := g.tasks[i := rest]), ref, op, if L.HasJob(op) then L.Enqueue(ref, false) else L.Finished);
  }

  lemma ActivateOwes(g: L.Registry, i: nat, ref: nat)
    requires i < |g.tasks| && ref < |g.ops| && g.tasks[i].Activate?
    ensures Owed(L.ActivateTask(g, i, ref)) == Owed(g)
  {
    hide L.Extract, L.HasJob, Callbacks, Jobs;
    var op := g.ops[ref].(active := true);
    ExtractMoves(op);
    CallbacksUpdate(g.ops, ref, L.Extract(op));
    CallbacksUpdate(g.ops, ref, op);
    JobsUpdate(g.tasks, i, L.Enqueue(ref, true));
    JobsUpdate(g.tasks, i, L.Finished);
  }

  lemma SweepTaskOwes(g: L.Registry, i: nat, pick: L.Pick)
    requires i < |g.tasks| && g.tasks[i].Sweep?
    ensures Owed(L.SweepTask(g, i, pick)) == Owed(g)
  {
    hide L.CommitRequest, L.Publication, Callbacks, Jobs;
    var t := g.tasks[i];
    match pick {
      case PickRequest(ref) =>
        var h := g.(tasks := g.tasks[i := t.(requests := t.requests - {ref})]);
        JobsUpdate(g.tasks, i, h.tasks[i]);
        CommitRequestOwes(h, ref);
      case PickTcp(ref) => if ref < |g.ops| { PublicationOwes(g, i, ref, t.(tcps := t.tcps - {ref})); }
      case PickTls(ref) => if ref < |g.ops| { PublicationOwes(g, i, ref, t.(tlss := t.tlss - {ref})); }
      case PickIo(io) => JobsUpdate(g.tasks, i, t.(ios := t.ios - {io}));
      case PickEnd => JobsUpdate(g.tasks, i, L.Finished);
    }
  }

  lemma AbortOwes(g: L.Registry, i: nat, ref: nat, io: nat)
    requires i < |g.tasks| && g.tasks[i] == L.Abort(ref, io)
    ensures Owed(L.AbortIo(g, io).(tasks := g.tasks[i := L.Publish(ref)])) == Owed(g)
  {
    hide Callbacks, Jobs;
    JobsUpdate(g.tasks, i, L.Publish(ref));
  }

  lemma RemoveOwes(g: L.Registry, i: nat, pick: L.Pick)
    requires i < |g.tasks| && (g.tasks[i].Remove? || g.tasks[i].Enqueue?)
    ensures Owed(L.TaskStep(g, i, pick)) == Owed(g) - Bit(g.tasks[i].Enqueue?)
  {
    hide L.Publication, L.ActivateTask, L.SweepTask, L.AbortIo, Callbacks, Jobs;
    if g.tasks[i].Remove? { JobsUpdate(g.tasks, i, L.Enqueue(g.tasks[i].ref, false)); }
    JobsUpdate(g.tasks, i, L.Finished);
  }

  /** A task owes as much afterwards, except the one that hands its job to the domain. */
  lemma TaskOwes(g: L.Registry, i: nat, pick: L.Pick)
    requires i < |g.tasks|
    ensures Owed(L.TaskStep(g, i, pick)) == Owed(g) - Bit(g.tasks[i].Enqueue?)
  {
    if g.tasks[i].Remove? || g.tasks[i].Enqueue? {
      hide L.TaskStep, Owed;
      RemoveOwes(g, i, pick);
    } else {
      hide L.Publication, L.ActivateTask, L.SweepTask, L.AbortIo, Owed;
      match g.tasks[i] {
        case Finished =>
        case Activate(ref) => if ref < |g.ops| { ActivateOwes(g, i, ref); }
        case Abort(ref, io) => AbortOwes(g, i, ref, io);
        case Publish(ref) => if ref < |g.ops| { PublicationOwes(g, i, ref, L.Finished); }
        case Sweep(_, _, _, _, _) => SweepTaskOwes(g, i, pick);
      }
    }
  }

  lemma AdmittedOwes(g: L.Registry, id: nat, kind: L.Kind, callback: bool, nextId: nat)
    ensures var h := L.Admitted(g, id, kind, callback, nextId);
            Owed(h) == Owed(g) + Bit(callback) && |h.ops| == |g.ops| + 1
  {
    hide Callbacks, Jobs;
    CallbacksAppend(g.ops, L.NewOp(id, kind, callback));
    JobsAppend(g.tasks, L.Activate(|g.ops|));
  }

  lemma AcceptOwes(g: L.Registry, step: L.Step)
    requires step.StepAccept? || step.StepUpgrade?
    ensures var h := L.Do(g, step);
            || (|h.ops| == |g.ops| + 1 && Owed(h) == Owed(g) + Bit(step.callback))
            || (|h.ops| == |g.ops| && Owed(h) == Owed(g))
  {
    hide Owed, L.Admitted;
    if step.StepAccept? {
      AdmittedOwes(g, g.nextId, step.kind, step.callback, g.nextId + 1);
      SameOwed(g, g.(nextId := g.nextId + 1));
    } else if step.io < |g.ios| {
      AdmittedOwes(g, g.ios[step.io].id, L.Tls(true), step.callback, g.nextId);
    }
  }

  lemma SameOwed(g: L.Registry, h: L.Registry)
    requires g.ops == h.ops && g.tasks == h.tasks
    ensures Owed(g) == Owed(h)
  {
  }

  lemma DistantOwes(g: L.Registry, step: L.Step)
    requires LR.Distant(step)
    ensures Owed(L.Do(g, step)) == Owed(g)
  {
    hide L.Accept, L.AcceptUpgrade, L.CommitRequest, L.TcpConnected, L.TcpFails, L.TlsTransport, L.TlsConnected,
         L.TlsFails, L.BeginSweep, L.TaskStep, L.SubmitNext, Callbacks, Jobs;
  }

  lemma SubmitOwes(g: L.Registry, immediate: bool)
    ensures Owed(L.SubmitNext(g, immediate)) == Owed(g)
  {
    hide L.CommitRequest, Callbacks, Jobs;
    if g.batch != [] { CommitRequestOwes(g, g.batch[0]); }
  }

  lemma HandOwes(g: L.Registry)
    requires g.hand.Some?
    ensures Owed(L.CommitRequest(g, g.hand.value).(hand := None)) == Owed(g)
  {
    hide L.CommitRequest, Callbacks, Jobs;
    CommitRequestOwes(g, g.hand.value);
  }

  lemma OtherOwes(g: L.Registry, step: L.Step)
    requires !step.StepAccept? && !step.StepUpgrade? && !step.StepTask?
    ensures Owed(L.Do(g, step)) == Owed(g)
  {
    hide Owed, L.CommitRequest, L.TcpConnected, L.TcpFails, L.TlsTransport, L.TlsConnected, L.TlsFails, L.BeginSweep,
         L.SubmitNext;
    match step {
      case StepCommit(ref) => CommitRequestOwes(g, ref);
      case StepTcpConnected(ref) => TcpOwes(g, ref);
      case StepTcpFails(ref) => TcpOwes(g, ref);
      case StepTlsTransport(ref) => TlsOwes(g, ref);
      case StepTlsConnected(ref) => TlsOwes(g, ref);
      case StepTlsFails(ref) => TlsOwes(g, ref);
      case StepCancelAll => SweepOwes(g, false);
      case StepShutdown => SweepOwes(g, true);
      case StepSubmit(immediate) => SubmitOwes(g, immediate);
      case StepCommitHand => if g.hand.Some? { HandOwes(g); }
      case _ => DistantOwes(g, step);
    }
  }

  // ---- together ----

  ghost predicate Inv(p: Pair) {
    && LP.Inv(p.g) && DP.Inv(p.d)
    && p.d.held == Owed(p.g)
    && (p.d.s.sealed <==> p.g.seal.Sealed?)
  }

  // ---- every step of both ----

  /** The domain's own work moves no permit in or out and does not seal. */
  lemma OwnWorkOwes(d: D.Domain, step: D.Step)
    requires OwnWork(step)
    ensures D.Do(d, step).held == d.held && D.Do(d, step).s.sealed == d.s.sealed
    ensures D.Do(d, step).s.capacity == d.s.capacity
  {
    hide D.FirstRunnable, D.SameProgress, D.Remove;
  }

  lemma DomainSteps(d: D.Domain, job: D.Job)
    ensures D.Permits(d) < d.s.capacity ==> D.Do(d, D.Admit) == d.(held := d.held + 1)
    ensures d.held > 0 && job.terminal ==>
              D.Do(d, D.Enqueue(job)).held == d.held - 1 && D.Do(d, D.Enqueue(job)).s.sealed == d.s.sealed
    ensures d.uncounted == 0 ==> D.Do(d, D.SealAll).s.sealed && D.Do(d, D.SealAll).held == d.held
  {
    hide D.Displace, D.Permits;
  }

  /** An enqueue task names an operation that exists and carries a permit. */
  lemma EnqueueOwes(g: L.Registry, i: nat)
    requires LP.Inv(g) && i < |g.tasks| && g.tasks[i].Enqueue?
    ensures Owed(g) > 0 && g.tasks[i].ref < |g.ops|
  {
    hide LP.MapInv, LP.OwnerInv, LP.ShutdownInv, LP.ReactorInv, LP.CallbackInv, LP.OpsOk;
    JobsUpdate(g.tasks, i, g.tasks[i]);
    assert LP.TaskOk(g.ops, g.ios, g.tasks[i]);
  }

  lemma RegistryKeeps(p: Pair, step: L.Step)
    requires Inv(p) && Possible(p, step)
    ensures Inv(RegistryStep(p, step))
  {
    hide LP.Inv, DP.Inv, L.Do, D.Do, Owed, D.Permits;
    LP.StepKeeps(p.g, step);
    LF.SealMoves(p.g, step);
    DomainSteps(p.d, D.Job(0, 0, true));
    if NeedsPermit(step) {
      AcceptOwes(p.g, step);
      DP.StepKeeps(p.d, D.Admit);
    } else if step.StepTask? {
      if step.i < |p.g.tasks| {
        TaskStepOwes(p.g, step);
        if p.g.tasks[step.i].Enqueue? {
          EnqueueOwes(p.g, step.i);
          DP.StepKeeps(p.d, D.Enqueue(JobOf(p.g, step)));
          DomainSteps(p.d, JobOf(p.g, step));
        }
      } else {
        NoTask(p.g, step);
      }
    } else if step.StepAccept? || step.StepUpgrade? {
      AcceptOwes(p.g, step);
    } else {
      OtherOwes(p.g, step);
      DP.StepKeeps(p.d, D.SealAll);
    }
  }

  lemma TaskStepOwes(g: L.Registry, step: L.Step)
    requires step.StepTask? && step.i < |g.tasks|
    ensures Owed(L.Do(g, step)) == Owed(g) - Bit(g.tasks[step.i].Enqueue?)
  {
    hide L.TaskStep, Owed;
    TaskOwes(g, step.i, step.pick);
  }

  lemma NoTask(g: L.Registry, step: L.Step)
    requires step.StepTask? && step.i >= |g.tasks|
    ensures L.Do(g, step) == g
  {
  }

  lemma StepKeeps(p: Pair, step: Step)
    requires Inv(p)
    ensures Inv(Do(p, step))
  {
    hide LP.Inv, DP.Inv, Owed, RegistryStep, D.Do;
    match step {
      case Registry(s) => if Possible(p, s) { RegistryKeeps(p, s); }
      case Dispatch(s) => if OwnWork(s) { DP.StepKeeps(p.d, s); OwnWorkOwes(p.d, s); }
    }
  }

  lemma {:induction false} RunKeeps(capacity: nat, steps: seq<Step>, k: nat)
    requires k <= |steps|
    ensures Inv(After(capacity, steps, k)) && After(capacity, steps, k).d.s.capacity == capacity
  {
    if k == 0 {
      LR.RunKeeps([], 0);
      DP.RunKeeps(capacity, [], 0);
    } else {
      hide Inv, Do;
      RunKeeps(capacity, steps, k - 1);
      StepKeeps(After(capacity, steps, k - 1), steps[k - 1]);
      CapacityStays(After(capacity, steps, k - 1), steps[k - 1]);
    }
  }

  lemma CapacityStays(p: Pair, step: Step)
    ensures Do(p, step).d.s.capacity == p.d.s.capacity
  {
    hide L.Do, D.Do, D.Permits;
    forall s: D.Step ensures D.Do(p.d, s).s.capacity == p.d.s.capacity { DP.CapacityStays(p.d, s); }
  }

  /**
   * Callback delivery. In every run of registry and domain together, whatever the threads of both do:
   * the permits in existence are exactly the callbacks still with their operation, the jobs on their
   * way, the terminal jobs queued and those running, and never more than the capacity. A job put
   * forward on the activation path is accepted: the domain is not sealed yet, and the job is in the
   * queue, within the capacity. The same holds for every other enqueue that comes before the seal.
   */
  lemma EnqueueSucceeds(capacity: nat, steps: seq<Step>, k: nat)
    requires k < |steps|
    ensures var p := After(capacity, steps, k);
            && D.Permits(p.d) <= capacity
            && p.d.held == Owed(p.g)
    ensures var p := After(capacity, steps, k);
            steps[k].Registry? && Enqueues(p.g, steps[k].section) ==>
              var job, q := JobOf(p.g, steps[k].section), After(capacity, steps, k + 1);
              && (p.g.tasks[steps[k].section.i].activation ==> !p.d.s.sealed)
              && (!p.d.s.sealed ==> job in q.d.s.queue && |q.d.s.queue| <= capacity && q.d.accepted == p.d.accepted + [job])
  {
    RunKeeps(capacity, steps, k);
    var p := After(capacity, steps, k);
    assert D.Permits(p.d) <= capacity by { WithinCapacity(p); }
    if steps[k].Registry? && Enqueues(p.g, steps[k].section) {
      var s := steps[k].section;
      EnqueueOwes(p.g, s.i);
      if p.g.tasks[s.i].activation { ActivationUnsealed(p.g, s.i); }
      assert After(capacity, steps, k + 1).d == D.Do(p.d, D.Enqueue(JobOf(p.g, s))) by { hide L.Do, D.Do; }
      if !p.d.s.sealed { JobAccepted(p.d, JobOf(p.g, s)); }
    }
  }

  lemma WithinCapacity(p: Pair)
    requires Inv(p)
    ensures D.Permits(p.d) <= p.d.s.capacity
  {
    hide LP.Inv, DP.Exclusive, DP.Staff, DP.InOrder, Owed;
  }

  lemma ActivationUnsealed(g: L.Registry, i: nat)
    requires LP.Inv(g) && i < |g.tasks| && g.tasks[i].Enqueue? && g.tasks[i].activation
    ensures g.seal.Unsealed?
  {
    hide LP.MapInv, LP.OwnerInv, LP.ShutdownInv, LP.ReactorInv, LP.AbortInv, LP.OpsOk;
    LP.ActivationCounted(g.tasks, i);
  }

  lemma JobAccepted(d: D.Domain, job: D.Job)
    requires DP.Inv(d) && d.held > 0 && job.terminal && !d.s.sealed
    ensures var e := D.Do(d, D.Enqueue(job));
            job in e.s.queue && |e.s.queue| <= d.s.capacity && e.accepted == d.accepted + [job]
  {
    hide DP.Inv, D.EnqueueTerminal;
    DP.PermitGetsRoom(d, job);
    DP.CapacityStays(d, D.Enqueue(job));
  }
}
