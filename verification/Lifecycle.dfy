/**
 * Admission, terminal arbitration and shutdown of src/registry.rs and src/reactor.rs as an
 * interleaving of critical sections. An operation is a state object with an identity, its index;
 * what a thread still has to do after leaving a critical section is a task in `tasks`, so any number
 * of completions, cancellations and shutdowns may be under way at once.
 */
module Lifecycle {
  import opened Bytes

  datatype Phase = Running | ShuttingDown

  /** Buffered, streamed and resolver requests commit on their own lock; connects under the core lock. */
  datatype Kind = Request | Tcp | Tls(upgrade: bool)

  /**
   * One state object. `failed` and `io` describe the terminal: whether it is a failure, and the
   * transport that was live for it at that moment. `owner` is the task that owes the publication.
   * The counters count winning commits, publications and callback jobs taken out.
   */
  datatype Op = Op(
    id: nat, kind: Kind, terminal: bool, failed: bool, ready: bool, callback: bool, active: bool, handedOver: bool,
    io: Option<nat>, owner: Option<nat>, wins: nat, publications: nat, jobs: nat)

  datatype Io = Io(id: nat, aborted: bool, released: bool)

  datatype Task =
    | Finished
    | Remove(ref: nat, job: bool)
    | Enqueue(ref: nat, activation: bool)
    | Activate(ref: nat)
    | Abort(ref: nat, io: nat)
    | Publish(ref: nat)
    | Sweep(requests: set<nat>, tcps: set<nat>, ios: set<nat>, tlss: set<nat>, last: bool)

  /** Shutdown seals the dispatcher only after it has seen no activation under way. */
  datatype Seal = Unsealed | Awaited | Sealed

  datatype Registry = Registry(
    phase: Phase, nextId: nat, ops: seq<Op>,
    requests: map<nat, nat>, connects: map<nat, nat>, tls: map<nat, nat>,
    live: map<nat, nat>, ios: seq<Io>,
    queue: seq<nat>, batch: seq<nat>, hand: Option<nat>, active: set<nat>,
    tasks: seq<Task>, activations: int, seal: Seal, stopped: bool, lost: bool)

  const START: Registry :=
    Registry(Running, 0, [], map[], map[], map[], map[], [], [], [], None, {}, [], 0, Unsealed, false, false)

  // ---- one state object ----

  /** A request is deliverable when terminal, a connect only once published. */
  predicate Deliverable(op: Op) { if op.kind.Request? then op.terminal else op.ready }

  function Commit(op: Op, failed: bool, io: Option<nat>, owner: Option<nat>): (r: Op) {
    op.(terminal := true, failed := failed, io := io, owner := owner, wins := op.wins + 1)
  }

  function MarkReady(op: Op): (r: Op) { op.(ready := true, owner := None, publications := op.publications + 1) }

  predicate HasJob(op: Op) { op.callback && op.active && Deliverable(op) }

  /** Takes the callback out if its time has come. */
  function Extract(op: Op): (r: Op) { if HasJob(op) then op.(callback := false, jobs := op.jobs + 1) else op }

  // ---- the maps ----

  predicate InRequests(g: Registry, ref: nat) {
    ref < |g.ops| && g.ops[ref].kind.Request? && g.ops[ref].id in g.requests && g.requests[g.ops[ref].id] == ref
  }

  predicate InConnects(g: Registry, ref: nat) {
    ref < |g.ops| && g.ops[ref].kind.Tcp? && g.ops[ref].id in g.connects && g.connects[g.ops[ref].id] == ref
  }

  predicate InTls(g: Registry, ref: nat) {
    ref < |g.ops| && g.ops[ref].kind.Tls? && g.ops[ref].id in g.tls && g.tls[g.ops[ref].id] == ref
  }

  function LiveIo(g: Registry, id: nat): (io: Option<nat>) { if id in g.live then Some(g.live[id]) else None }

  function Put(g: Registry, ref: nat, op: Op): (r: Registry)
    requires ref < |g.ops|
  {
    g.(ops := g.ops[ref := op])
  }

  function Spawn(g: Registry, task: Task): (r: Registry) { g.(tasks := g.tasks + [task]) }

  // ---- admission ----

  function NewOp(id: nat, kind: Kind, callback: bool): (op: Op) {
    Op(id, kind, false, false, false, callback, false, false, None, None, 0, 0, 0)
  }

  function Enlist(g: Registry, id: nat, kind: Kind, callback: bool, nextId: nat): (r: Registry) {
    var ref := |g.ops|;
    g.(ops := g.ops + [NewOp(id, kind, callback)], queue := g.queue + [ref], nextId := nextId,
       requests := if kind.Request? then g.requests[id := ref] else g.requests,
       connects := if kind.Tcp? then g.connects[id := ref] else g.connects,
       tls := if kind.Tls? then g.tls[id := ref] else g.tls)
  }

  /** Inserted, queued and, with a callback, counted as an activation, all under the core lock. */
  function Admitted(g: Registry, id: nat, kind: Kind, callback: bool, nextId: nat): (r: Registry) {
    var queued := Enlist(g, id, kind, callback, nextId);
    if callback then Spawn(queued.(activations := g.activations + 1), Activate(|g.ops|)) else queued
  }

  /** A full command queue rolls the admission back; only the identity is used up. */
  function Accept(g: Registry, kind: Kind, callback: bool, full: bool): (r: Registry) {
    if !g.phase.Running? || kind == Tls(true) then g
    else if full then g.(nextId := g.nextId + 1)
    else Admitted(g, g.nextId, kind, callback, g.nextId + 1)
  }

  predicate CanUpgrade(g: Registry, io: nat) {
    g.phase.Running? && io < |g.ios| && LiveIo(g, g.ios[io].id) == Some(io) && g.ios[io].id !in g.tls
  }

  /** An upgrade keeps the identity of its connection. */
  function AcceptUpgrade(g: Registry, io: nat, callback: bool): (r: Registry) {
    if CanUpgrade(g, io) then Admitted(g, g.ios[io].id, Tls(true), callback, g.nextId) else g
  }

  // ---- completion ----

  function CommitRequest(g: Registry, ref: nat): (r: Registry) {
    if ref < |g.ops| && g.ops[ref].kind.Request? && !g.ops[ref].terminal then
      var op := Commit(g.ops[ref], false, None, None);
      Spawn(Put(g, ref, Extract(op)), Remove(ref, HasJob(op)))
    else g
  }

  function OpenIo(g: Registry, id: nat): (r: Registry) {
    g.(ios := g.ios + [Io(id, false, false)], live := g.live[id := |g.ios|])
  }

  /** Success of a TCP connect commits and publishes in one critical section. */
  function TcpConnected(g: Registry, ref: nat): (r: Registry) {
    if g.phase.Running? && InConnects(g, ref) then
      var op := MarkReady(Commit(g.ops[ref], false, None, None));
      var done := OpenIo(Put(g, ref, Extract(op)), op.id).(connects := g.connects - {op.id});
      if HasJob(op) then Spawn(done, Enqueue(ref, false)) else done
    else g
  }

  /** Failure or cancellation of a TCP connect: committed and removed here, published later. */
  function TcpFails(g: Registry, ref: nat): (r: Registry) {
    if InConnects(g, ref) then
      var op := g.ops[ref];
      Spawn(Put(g, ref, Commit(op, true, None, Some(|g.tasks|))).(connects := g.connects - {op.id}), Publish(ref))
    else g
  }

  function TlsTransport(g: Registry, ref: nat): (r: Registry) {
    if g.phase.Running? && InTls(g, ref) && !g.ops[ref].kind.upgrade && !g.ops[ref].handedOver
    then OpenIo(Put(g, ref, g.ops[ref].(handedOver := true)), g.ops[ref].id)
    else g
  }

  function TlsConnected(g: Registry, ref: nat): (r: Registry) {
    if g.phase.Running? && InTls(g, ref) && g.ops[ref].id in g.live && g.live[g.ops[ref].id] < |g.ios|
       && !g.ios[g.live[g.ops[ref].id]].released then
      var op := g.ops[ref];
      Spawn(Put(g, ref, Commit(op, false, None, Some(|g.tasks|))).(tls := g.tls - {op.id}), Publish(ref))
    else g
  }

  /** Failure or cancellation of a TLS connect: its transport is aborted before it is published. */
  function TlsFails(g: Registry, ref: nat): (r: Registry) {
    if InTls(g, ref) then
      var op := g.ops[ref];
      var io := LiveIo(g, op.id);
      Spawn(Put(g, ref, Commit(op, true, io, Some(|g.tasks|))).(tls := g.tls - {op.id}),
            if io.Some? then Abort(ref, io.value) else Publish(ref))
    else g
  }

  function AbortIo(g: Registry, io: nat): (r: Registry) {
    if io < |g.ios| then g.(ios := g.ios[io := g.ios[io].(aborted := true)]) else g
  }

  function ReleaseIo(g: Registry, io: nat): (r: Registry) {
    if io < |g.ios| then
      g.(ios := g.ios[io := g.ios[io].(released := true)],
         live := if LiveIo(g, g.ios[io].id) == Some(io) then g.live - {g.ios[io].id} else g.live)
    else g
  }

  // ---- cancel_all and begin_shutdown ----

  /** Every pending connect loses its race to the sweep inside the one critical section. */
  function SweptOp(g: Registry, ref: nat): (op: Op)
    requires ref < |g.ops|
  {
    var op := g.ops[ref];
    if InConnects(g, ref) then Commit(op, true, None, Some(|g.tasks|))
    else if InTls(g, ref) then Commit(op, true, LiveIo(g, op.id), Some(|g.tasks|))
    else op
  }

  function BeginSweep(g: Registry, last: bool): (r: Registry) {
    g.(phase := if last then ShuttingDown else g.phase,
       ops := seq(|g.ops|, ref requires 0 <= ref < |g.ops| => SweptOp(g, ref)),
       connects := map[], tls := map[],
       tasks := g.tasks + [Sweep(g.requests.Values, g.connects.Values, g.live.Values, g.tls.Values, last)])
  }

  // ---- tasks ----

  function Publication(g: Registry, i: nat, ref: nat, rest: Task): (r: Registry)
    requires i < |g.tasks| && ref < |g.ops|
  {
    var op := MarkReady(g.ops[ref]);
    var done := Put(g, ref, Extract(op)).(tasks := g.tasks[i := rest]);
    if HasJob(op) then Spawn(done, Enqueue(ref, false)) else done
  }

  function ActivateTask(g: Registry, i: nat, ref: nat): (r: Registry)
    requires i < |g.tasks| && ref < |g.ops|
  {
    var op := g.ops[ref].(active := true);
    if HasJob(op) then Put(g, ref, Extract(op)).(tasks := g.tasks[i := Enqueue(ref, true)])
    else Put(g, ref, op).(tasks := g.tasks[i := Finished], activations := g.activations - 1)
  }

  datatype Pick = PickRequest(ref: nat) | PickTcp(ref: nat) | PickIo(io: nat) | PickTls(ref: nat) | PickEnd

  /** The tail of a sweep: requests, then TCP publications, then aborts, then TLS publications, then the stop flag. */
  function SweepTask(g: Registry, i: nat, pick: Pick): (r: Registry)
    requires i < |g.tasks| && g.tasks[i].Sweep?
  {
    var t := g.tasks[i];
    match pick
    case PickRequest(ref) =>
      if ref in t.requests
      then CommitRequest(g.(tasks := g.tasks[i := t.(requests := t.requests - {ref})]), ref) else g
    case PickTcp(ref) =>
      if t.requests == {} && ref in t.tcps && ref < |g.ops|
      then Publication(g, i, ref, t.(tcps := t.tcps - {ref})) else g
    case PickIo(io) =>
      if t.requests == {} && t.tcps == {} && io in t.ios
      then AbortIo(g, io).(tasks := g.tasks[i := t.(ios := t.ios - {io})]) else g
    case PickTls(ref) =>
      if t.requests == {} && t.tcps == {} && t.ios == {} && ref in t.tlss && ref < |g.ops|
      then Publication(g, i, ref, t.(tlss := t.tlss - {ref})) else g
    case PickEnd =>
      if t.requests == {} && t.tcps == {} && t.ios == {} && t.tlss == {}
      then g.(tasks := g.tasks[i := Finished], stopped := g.stopped || t.last) else g
  }

  function TaskStep(g: Registry, i: nat, pick: Pick): (r: Registry)
    requires i < |g.tasks|
  {
    match g.tasks[i]
    case Finished => g
    case Remove(ref, job) =>
      if ref < |g.ops|
      then g.(requests := g.requests - {g.ops[ref].id}, tasks := g.tasks[i := if job then Enqueue(ref, false) else Finished])
      else g
    case Enqueue(ref, activation) =>
      g.(tasks := g.tasks[i := Finished], activations := g.activations - (if activation then 1 else 0),
         lost := g.lost || (activation && g.seal.Sealed?))
    case Activate(ref) => if ref < |g.ops| then ActivateTask(g, i, ref) else g
    case Abort(ref, io) => AbortIo(g, io).(tasks := g.tasks[i := Publish(ref)])
    case Publish(ref) => if ref < |g.ops| then Publication(g, i, ref, Finished) else g
    case Sweep(_, _, _, _, _) => SweepTask(g, i, pick)
  }

  // ---- the reactor ----

  function SubmitNext(g: Registry, immediate: bool): (r: Registry) {
    if g.batch == [] then g
    else
      var ref := g.batch[0];
      if ref >= |g.ops| || g.ops[ref].terminal || !g.ops[ref].kind.Request? then g.(batch := g.batch[1..])
      else if immediate then CommitRequest(g, ref).(batch := g.batch[1..])
      else g.(batch := g.batch[1..], active := g.active + {ref})
  }

  predicate TerminalRef(g: Registry, ref: nat) { ref < |g.ops| && g.ops[ref].terminal }

  datatype Step =
    | StepAccept(kind: Kind, callback: bool, full: bool)
    | StepUpgrade(io: nat, callback: bool)
    | StepCommit(ref: nat) | StepTcpConnected(ref: nat) | StepTcpFails(ref: nat)
    | StepTlsTransport(ref: nat) | StepTlsConnected(ref: nat) | StepTlsFails(ref: nat)
    | StepAbortIo(io: nat) | StepReleaseIo(io: nat)
    | StepCancelAll | StepShutdown
    | StepTask(i: nat, pick: Pick)
    | StepDrain | StepSubmit(immediate: bool) | StepReap(ref: nat) | StepTakeCompletion(ref: nat) | StepCommitHand
    | StepClearActive | StepAwait | StepSeal

  function Do(g: Registry, step: Step): (r: Registry) {
    match step
    case StepAccept(kind, callback, full) => Accept(g, kind, callback, full)
    case StepUpgrade(io, callback) => AcceptUpgrade(g, io, callback)
    case StepCommit(ref) => CommitRequest(g, ref)
    case StepTcpConnected(ref) => TcpConnected(g, ref)
    case StepTcpFails(ref) => TcpFails(g, ref)
    case StepTlsTransport(ref) => TlsTransport(g, ref)
    case StepTlsConnected(ref) => TlsConnected(g, ref)
    case StepTlsFails(ref) => TlsFails(g, ref)
    case StepAbortIo(io) => AbortIo(g, io)
    case StepReleaseIo(io) => ReleaseIo(g, io)
    case StepCancelAll => BeginSweep(g, false)
    case StepShutdown => BeginSweep(g, true)
    case StepTask(i, pick) => if i < |g.tasks| then TaskStep(g, i, pick) else g
    case StepDrain => if g.batch == [] then g.(batch := g.queue, queue := []) else g
    case StepSubmit(immediate) => SubmitNext(g, immediate)
    case StepReap(ref) => if TerminalRef(g, ref) then g.(active := g.active - {ref}) else g
    case StepTakeCompletion(ref) =>
      if g.hand.None? && ref in g.active then g.(active := g.active - {ref}, hand := Some(ref)) else g
    case StepCommitHand => if g.hand.Some? then CommitRequest(g, g.hand.value).(hand := None) else g
    case StepClearActive => if g.stopped then g.(active := {}) else g
    case StepAwait => if !g.phase.Running? && g.activations == 0 && g.seal.Unsealed? then g.(seal := Awaited) else g
    case StepSeal => if g.seal.Awaited? then g.(seal := Sealed) else g
  }

  function After(steps: seq<Step>, k: nat): (g: Registry)
    requires k <= |steps|
  {
    if k == 0 then START else Do(After(steps, k - 1), steps[k - 1])
  }
}
