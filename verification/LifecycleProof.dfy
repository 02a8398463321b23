/** The invariant of the lifecycle kernel, group by group, and its preservation by every critical section. */
module LifecycleProof {
  import opened Bytes
  import opened Lifecycle

  // ---- state objects ----

  /**
   * One winner, one publication, at most one callback job; a callback that is active and
   * deliverable has been taken out.
   */
  ghost predicate OpOk(op: Op) {
    && op.wins == Bit(op.terminal) && op.publications == Bit(op.ready)
    && (op.ready ==> op.terminal && !op.kind.Request? && op.owner.None?)
    && (op.owner.Some? ==> op.terminal && !op.kind.Request?)
    && (op.terminal && !op.kind.Request? && !op.ready ==> op.owner.Some?)
    && op.jobs + Bit(op.callback) <= 1
    && (op.jobs == 1 ==> op.active && Deliverable(op))
    && (op.callback && op.active ==> !Deliverable(op))
  }

  lemma CommitConnectOk(op: Op, failed: bool, io: Option<nat>, owner: nat)
    requires OpOk(op) && !op.terminal && !op.kind.Request?
    ensures OpOk(Commit(op, failed, io, Some(owner)))
  {
  }

  lemma CommitRequestOk(op: Op)
    requires OpOk(op) && !op.terminal && op.kind.Request?
    ensures OpOk(Extract(Commit(op, false, None, None)))
  {
  }

  lemma ConnectedOk(op: Op)
    requires OpOk(op) && !op.terminal && op.kind.Tcp?
    ensures OpOk(Extract(MarkReady(Commit(op, false, None, None))))
  {
  }

  lemma PublishOk(op: Op)
    requires OpOk(op) && op.owner.Some? && !op.ready
    ensures OpOk(Extract(MarkReady(op)))
  {
  }

  lemma ActivateOk(op: Op)
    requires OpOk(op)
    ensures OpOk(Extract(op.(active := true)))
    ensures !HasJob(op.(active := true)) ==> OpOk(op.(active := true))
  {
  }

  ghost predicate OpsOk(ops: seq<Op>) { forall ref: nat :: ref < |ops| ==> OpOk(ops[ref]) }

  // ---- maps ----

  function Tag(kind: Kind): (n: nat) {
    match kind
    case Request => 0
    case Tcp => 1
    case Tls(_) => 2
  }

  /**
   * The map of one kind: its entries point at objects of that kind and identity, connects in it are
   * not terminal, and an object that is not terminal is always in it.
   */
  ghost predicate Indexed(m: map<nat, nat>, ops: seq<Op>, tag: nat) {
    && (forall id :: id in m ==> m[id] < |ops| && ops[m[id]].id == id && Tag(ops[m[id]].kind) == tag
                                 && (tag > 0 ==> !ops[m[id]].terminal))
    && (forall ref: nat :: ref < |ops| && Tag(ops[ref].kind) == tag && !ops[ref].terminal ==>
          ops[ref].id in m && m[ops[ref].id] == ref)
  }

  ghost predicate IdsOk(ops: seq<Op>, nextId: nat) {
    && (forall ref: nat :: ref < |ops| ==> ops[ref].id < nextId)
    && (forall a: nat, b: nat :: a < b < |ops| && ops[a].kind.Request? && ops[b].kind.Request? ==> ops[a].id != ops[b].id)
  }

  ghost predicate LiveOk(live: map<nat, nat>, ios: seq<Io>, nextId: nat) {
    && (forall id :: id in live ==> live[id] < |ios| && ios[live[id]].id == id)
    && (forall io: nat :: io < |ios| ==> ios[io].id < nextId)
  }

  ghost predicate MapInv(g: Registry) {
    && Indexed(g.requests, g.ops, 0) && Indexed(g.connects, g.ops, 1) && Indexed(g.tls, g.ops, 2)
    && IdsOk(g.ops, g.nextId) && LiveOk(g.live, g.ios, g.nextId)
  }

  lemma IndexedAppend(m: map<nat, nat>, ops: seq<Op>, tag: nat, op: Op)
    requires Indexed(m, ops, tag)
    ensures Tag(op.kind) != tag ==> Indexed(m, ops + [op], tag)
    ensures Tag(op.kind) == tag && !op.terminal && op.id !in m ==> Indexed(m[op.id := |ops|], ops + [op], tag)
  {
  }

  /** An object changes without moving; a connect that becomes terminal must not be in the map. */
  lemma IndexedUpdate(m: map<nat, nat>, ops: seq<Op>, tag: nat, ref: nat, op: Op)
    requires Indexed(m, ops, tag) && ref < |ops| && op.id == ops[ref].id && op.kind == ops[ref].kind
    requires ops[ref].terminal ==> op.terminal
    requires Tag(op.kind) == tag && tag > 0 ==> op.terminal == ops[ref].terminal
    ensures Indexed(m, ops[ref := op], tag)
  {
  }

  lemma IndexedLeave(m: map<nat, nat>, ops: seq<Op>, tag: nat, ref: nat, op: Op)
    requires Indexed(m, ops, tag) && ref < |ops| && op.id == ops[ref].id && op.kind == ops[ref].kind && op.terminal
    requires Tag(op.kind) == tag && op.id in m && m[op.id] == ref
    ensures Indexed(m - {op.id}, ops[ref := op], tag)
  {
  }

  lemma IndexedForget(m: map<nat, nat>, ops: seq<Op>, nextId: nat, ref: nat)
    requires Indexed(m, ops, 0) && IdsOk(ops, nextId) && ref < |ops| && ops[ref].kind.Request? && ops[ref].terminal
    ensures Indexed(m - {ops[ref].id}, ops, 0)
  {
    forall other: nat | other < |ops| && ops[other].kind.Request? && !ops[other].terminal
      ensures ops[other].id != ops[ref].id
    {
      if other < ref { assert ops[other].id != ops[ref].id; } else { assert other > ref; }
    }
  }

  lemma IdsUpdate(ops: seq<Op>, nextId: nat, ref: nat, op: Op)
    requires IdsOk(ops, nextId) && ref < |ops| && op.id == ops[ref].id && op.kind == ops[ref].kind
    ensures IdsOk(ops[ref := op], nextId)
  {
  }

  lemma IdsAppend(ops: seq<Op>, nextId: nat, op: Op, later: nat)
    requires IdsOk(ops, nextId) && nextId <= later && op.id < later && (op.kind.Request? ==> op.id == nextId)
    ensures IdsOk(ops + [op], later)
  {
  }

  // ---- owed publications ----

  predicate Owes(task: Task, ref: nat) {
    match task
    case Abort(r, _) => r == ref
    case Publish(r) => r == ref
    case Sweep(_, tcps, _, tlss, _) => ref in tcps || ref in tlss
    case _ => false
  }

  predicate OwesNothing(task: Task) {
    task.Finished? || task.Remove? || task.Enqueue? || task.Activate?
  }

  /** What the task at `i` owes, the object knows. */
  ghost predicate DebtKnown(ops: seq<Op>, tasks: seq<Task>, i: nat, ref: nat) {
    i < |tasks| && Owes(tasks[i], ref) ==> ref < |ops| && ops[ref].owner == Some(i) && !ops[ref].ready
  }

  /** What the object expects, the task owes. */
  ghost predicate OwnerPays(ops: seq<Op>, tasks: seq<Task>, ref: nat) {
    ref < |ops| && ops[ref].owner.Some? ==> ops[ref].owner.value < |tasks| && Owes(tasks[ops[ref].owner.value], ref)
  }

  /** Every publication still owed is owed by exactly one task. */
  ghost predicate OwnerInv(ops: seq<Op>, tasks: seq<Task>) {
    && (forall ref: nat :: OwnerPays(ops, tasks, ref))
    && (forall i: nat, ref: nat :: DebtKnown(ops, tasks, i, ref))
  }

  lemma OwnerAppendOp(ops: seq<Op>, tasks: seq<Task>, op: Op)
    requires OwnerInv(ops, tasks) && op.owner.None?
    ensures OwnerInv(ops + [op], tasks)
  {
    var after := ops + [op];
    forall ref: nat ensures OwnerPays(after, tasks, ref) { assert OwnerPays(ops, tasks, ref); }
    forall i: nat, ref: nat ensures DebtKnown(after, tasks, i, ref) { assert DebtKnown(ops, tasks, i, ref); }
  }

  lemma OwnerAppendTask(ops: seq<Op>, tasks: seq<Task>, task: Task)
    requires OwnerInv(ops, tasks) && OwesNothing(task)
    ensures OwnerInv(ops, tasks + [task])
  {
    var more := tasks + [task];
    forall ref: nat ensures OwnerPays(ops, more, ref) { assert OwnerPays(ops, tasks, ref); }
    forall i: nat, ref: nat ensures DebtKnown(ops, more, i, ref) { assert DebtKnown(ops, tasks, i, ref); }
  }

  lemma OwnerUpdateOp(ops: seq<Op>, tasks: seq<Task>, ref: nat, op: Op)
    requires OwnerInv(ops, tasks) && ref < |ops| && op.owner == ops[ref].owner
    requires op.ready == ops[ref].ready || op.owner.None?
    ensures OwnerInv(ops[ref := op], tasks)
  {
    var after := ops[ref := op];
    forall r: nat ensures OwnerPays(after, tasks, r) { assert OwnerPays(ops, tasks, r); }
    forall i: nat, r: nat ensures DebtKnown(after, tasks, i, r) { assert DebtKnown(ops, tasks, i, r); }
  }

  lemma OwnerCommit(ops: seq<Op>, tasks: seq<Task>, ref: nat, op: Op, task: Task)
    requires OwnerInv(ops, tasks) && ref < |ops| && ops[ref].owner.None? && op.owner == Some(|tasks|) && !op.ready
    requires task == Publish(ref) || (task.Abort? && task.ref == ref)
    ensures OwnerInv(ops[ref := op], tasks + [task])
  {
    var more, after := tasks + [task], ops[ref := op];
    forall r: nat ensures OwnerPays(after, more, r) { assert OwnerPays(ops, tasks, r); }
    forall i: nat, r: nat ensures DebtKnown(after, more, i, r) { assert DebtKnown(ops, tasks, i, r); }
  }

  /** The task pays one publication and goes on with the rest. */
  lemma OwnerPublish(ops: seq<Op>, tasks: seq<Task>, i: nat, ref: nat, op: Op, rest: Task)
    requires OwnerInv(ops, tasks) && i < |tasks| && Owes(tasks[i], ref) && ref < |ops| && op.owner.None?
    requires forall r: nat :: Owes(rest, r) <==> Owes(tasks[i], r) && r != ref
    ensures OwnerInv(ops[ref := op], tasks[i := rest])
  {
    hide Owes;
    var more, after := tasks[i := rest], ops[ref := op];
    assert DebtKnown(ops, tasks, i, ref);
    forall r: nat ensures OwnerPays(after, more, r) {
      assert OwnerPays(ops, tasks, r);
      assert Owes(rest, r) <==> Owes(tasks[i], r) && r != ref;
    }
    forall k: nat, r: nat ensures DebtKnown(after, more, k, r) {
      assert DebtKnown(ops, tasks, k, r);
      assert Owes(rest, r) <==> Owes(tasks[i], r) && r != ref;
    }
  }

  lemma OwnerSame(ops: seq<Op>, tasks: seq<Task>, i: nat, task: Task)
    requires OwnerInv(ops, tasks) && i < |tasks|
    requires forall r: nat :: Owes(task, r) <==> Owes(tasks[i], r)
    ensures OwnerInv(ops, tasks[i := task])
  {
    hide Owes;
    var more := tasks[i := task];
    forall r: nat ensures OwnerPays(ops, more, r) {
      assert OwnerPays(ops, tasks, r);
      assert Owes(task, r) <==> Owes(tasks[i], r);
    }
    forall k: nat, r: nat ensures DebtKnown(ops, more, k, r) {
      assert DebtKnown(ops, tasks, k, r);
      assert Owes(task, r) <==> Owes(tasks[i], r);
    }
  }

  // ---- aborted before visible ----

  predicate Cut(ios: seq<Io>, op: Op) { op.io.Some? ==> op.io.value < |ios| && ios[op.io.value].aborted }

  ghost predicate TaskOk(ops: seq<Op>, ios: seq<Io>, task: Task) {
    match task
    case Publish(ref) => ref < |ops| ==> Cut(ios, ops[ref])
    case Abort(ref, io) => io < |ios| && (ref < |ops| ==> ops[ref].io == Some(io))
    case Remove(ref, _) => ref < |ops| && ops[ref].kind.Request? && ops[ref].terminal
    case Activate(ref) => ref < |ops|
    case Enqueue(ref, _) => ref < |ops|
    case Sweep(requests, tcps, pending, tlss, _) =>
      && (forall ref :: ref in requests ==> ref < |ops| && ops[ref].kind.Request?)
      && (forall io :: io in pending ==> io < |ios|)
      && (forall ref :: ref in tcps && ref < |ops| ==> ops[ref].io.None? && ops[ref].kind.Tcp?)
      && (forall ref :: ref in tlss && ref < |ops| ==>
            ops[ref].kind.Tls? && (Cut(ios, ops[ref]) || ops[ref].io.value in pending))
    case _ => true
  }

  /** The transport of a failed operation is aborted before anyone can see the failure. */
  ghost predicate AbortInv(ops: seq<Op>, tasks: seq<Task>, ios: seq<Io>) {
    && (forall ref: nat :: ref < |ops| && ops[ref].ready ==> Cut(ios, ops[ref]))
    && (forall i: nat :: i < |tasks| ==> TaskOk(ops, ios, tasks[i]))
  }

  /** Transports are only added and aborted. */
  ghost predicate IosGrow(before: seq<Io>, after: seq<Io>) {
    |before| <= |after| && forall io: nat :: io < |before| && before[io].aborted ==> after[io].aborted
  }

  lemma AbortIos(ops: seq<Op>, tasks: seq<Task>, ios: seq<Io>, after: seq<Io>)
    requires AbortInv(ops, tasks, ios) && IosGrow(ios, after)
    ensures AbortInv(ops, tasks, after)
  {
    forall i: nat | i < |tasks| ensures TaskOk(ops, after, tasks[i]) { assert TaskOk(ops, ios, tasks[i]); }
  }

  ghost predicate TasksInRange(ops: seq<Op>, tasks: seq<Task>) {
    forall i: nat, ref: nat :: i < |tasks| && Owes(tasks[i], ref) ==> ref < |ops|
  }

  lemma AbortAppendOp(ops: seq<Op>, tasks: seq<Task>, ios: seq<Io>, op: Op)
    requires AbortInv(ops, tasks, ios) && TasksInRange(ops, tasks) && !op.ready
    ensures AbortInv(ops + [op], tasks, ios)
  {
    forall i: nat | i < |tasks| ensures TaskOk(ops + [op], ios, tasks[i]) {
      assert TaskOk(ops, ios, tasks[i]);
      assert forall ref: nat :: Owes(tasks[i], ref) ==> ref < |ops|;
      AppendCuts(ops, ios, op, tasks[i]);
    }
  }

  lemma AppendCuts(ops: seq<Op>, ios: seq<Io>, op: Op, task: Task)
    requires TaskOk(ops, ios, task) && forall ref: nat :: Owes(task, ref) ==> ref < |ops|
    ensures TaskOk(ops + [op], ios, task)
  {
    match task {
      case Publish(ref) => assert Owes(task, ref);
      case Abort(ref, _) => assert Owes(task, ref);
      case Sweep(_, tcps, _, tlss, _) =>
        assert forall ref :: ref in tcps ==> Owes(task, ref);
        assert forall ref :: ref in tlss ==> Owes(task, ref);
      case _ =>
    }
  }

  lemma AbortUpdateOp(ops: seq<Op>, tasks: seq<Task>, ios: seq<Io>, ref: nat, op: Op)
    requires AbortInv(ops, tasks, ios) && ref < |ops| && op.io == ops[ref].io && op.kind == ops[ref].kind
    requires (op.ready ==> ops[ref].ready || Cut(ios, op)) && (ops[ref].terminal ==> op.terminal)
    ensures AbortInv(ops[ref := op], tasks, ios)
  {
    forall i: nat | i < |tasks| ensures TaskOk(ops[ref := op], ios, tasks[i]) { assert TaskOk(ops, ios, tasks[i]); }
  }

  /** An object nobody owes anything may get its transport noted. */
  lemma AbortCommit(ops: seq<Op>, tasks: seq<Task>, ios: seq<Io>, ref: nat, op: Op)
    requires AbortInv(ops, tasks, ios) && ref < |ops| && op.kind == ops[ref].kind
    requires (op.ready ==> Cut(ios, op)) && (ops[ref].terminal ==> op.terminal)
    requires forall i: nat :: i < |tasks| ==> !Owes(tasks[i], ref)
    ensures AbortInv(ops[ref := op], tasks, ios)
  {
    forall i: nat | i < |tasks| ensures TaskOk(ops[ref := op], ios, tasks[i]) {
      assert TaskOk(ops, ios, tasks[i]) && !Owes(tasks[i], ref);
    }
  }

  lemma AbortTask(ops: seq<Op>, tasks: seq<Task>, ios: seq<Io>, i: nat, task: Task)
    requires AbortInv(ops, tasks, ios) && TaskOk(ops, ios, task)
    ensures i < |tasks| ==> AbortInv(ops, tasks[i := task], ios)
    ensures AbortInv(ops, tasks + [task], ios)
  {
    forall k: nat | k < |tasks + [task]| ensures TaskOk(ops, ios, (tasks + [task])[k]) {
      if k < |tasks| { assert TaskOk(ops, ios, tasks[k]); }
    }
  }

  // ---- reactor, shutdown, callbacks ----

  predicate Held(g: Registry, ref: nat) {
    ref in g.queue || ref in g.batch || ref in g.active || g.hand == Some(ref)
  }

  /** A request that is not terminal is queued, being submitted, active, or about to be completed. */
  ghost predicate ReactorInv(g: Registry) {
    forall ref: nat :: ref < |g.ops| && g.ops[ref].kind.Request? && !g.ops[ref].terminal ==> Held(g, ref)
  }

  ghost predicate Covers(ops: seq<Op>, refs: set<nat>) {
    forall ref: nat :: ref < |ops| && !ops[ref].terminal ==> ref in refs
  }

  /** What a last sweep has not reached is in its list, and the stop flag means that nothing is left. */
  ghost predicate ShutdownInv(phase: Phase, stopped: bool, ops: seq<Op>, tasks: seq<Task>) {
    && (forall i: nat :: i < |tasks| && tasks[i].Sweep? && tasks[i].last ==>
          phase.ShuttingDown? && Covers(ops, tasks[i].requests))
    && (stopped ==> phase.ShuttingDown? && Covers(ops, {}))
  }

  /** Objects only become terminal. */
  ghost predicate OpsGrow(before: seq<Op>, after: seq<Op>) {
    |before| == |after| && forall ref: nat :: ref < |before| && before[ref].terminal ==> after[ref].terminal
  }

  lemma ShutdownOps(phase: Phase, stopped: bool, ops: seq<Op>, after: seq<Op>, tasks: seq<Task>)
    requires ShutdownInv(phase, stopped, ops, tasks) && OpsGrow(ops, after)
    ensures ShutdownInv(phase, stopped, after, tasks)
  {
  }

  lemma ShutdownTask(phase: Phase, stopped: bool, ops: seq<Op>, tasks: seq<Task>, i: nat, task: Task)
    requires ShutdownInv(phase, stopped, ops, tasks)
    requires task.Sweep? && task.last ==> phase.ShuttingDown? && Covers(ops, task.requests)
    ensures i < |tasks| ==> ShutdownInv(phase, stopped, ops, tasks[i := task])
    ensures ShutdownInv(phase, stopped, ops, tasks + [task])
  {
    forall k: nat | k < |tasks + [task]| && (tasks + [task])[k].Sweep? && (tasks + [task])[k].last
      ensures phase.ShuttingDown? && Covers(ops, (tasks + [task])[k].requests)
    {
      if k < |tasks| { assert tasks[k].Sweep? && tasks[k].last; }
    }
  }

  function IsActivation(task: Task): (n: nat) {
    if task.Activate? || (task.Enqueue? && task.activation) then 1 else 0
  }

  function Activations(tasks: seq<Task>): (n: nat) {
    if tasks == [] then 0 else IsActivation(tasks[0]) + Activations(tasks[1..])
  }

  lemma {:induction false} ActivationsUpdate(tasks: seq<Task>, i: nat, task: Task)
    requires i < |tasks|
    ensures Activations(tasks[i := task]) == Activations(tasks) - IsActivation(tasks[i]) + IsActivation(task)
  {
    if i == 0 {
      assert tasks[i := task][1..] == tasks[1..];
    } else {
      assert tasks[i := task][1..] == tasks[1..][i - 1 := task];
      ActivationsUpdate(tasks[1..], i - 1, task);
    }
  }

  lemma {:induction false} ActivationsAppend(tasks: seq<Task>, task: Task)
    ensures Activations(tasks + [task]) == Activations(tasks) + IsActivation(task)
  {
    if tasks == [] {
      assert tasks + [task] == [task] && [task][1..] == [];
    } else {
      assert (tasks + [task])[1..] == tasks[1..] + [task];
      ActivationsAppend(tasks[1..], task);
    }
  }

  /** The counter is the number of activations under way, and sealing waits for it. */
  ghost predicate CallbackInv(g: Registry) {
    && g.activations == Activations(g.tasks)
    && (!g.seal.Unsealed? ==> g.phase.ShuttingDown? && g.activations == 0)
    && !g.lost
  }

  ghost predicate Inv(g: Registry) {
    && OpsOk(g.ops) && MapInv(g) && OwnerInv(g.ops, g.tasks) && AbortInv(g.ops, g.tasks, g.ios)
    && ReactorInv(g) && ShutdownInv(g.phase, g.stopped, g.ops, g.tasks) && CallbackInv(g)
  }

  // ==== harmless changes ====

  lemma NobodyOwes(ops: seq<Op>, tasks: seq<Task>, ref: nat)
    requires OwnerInv(ops, tasks) && ref < |ops| && ops[ref].owner.None?
    ensures forall i: nat :: i < |tasks| ==> !Owes(tasks[i], ref)
  {
    forall i: nat | i < |tasks| ensures !Owes(tasks[i], ref) { assert DebtKnown(ops, tasks, i, ref); }
  }

  lemma DebtsInRange(ops: seq<Op>, tasks: seq<Task>)
    requires OwnerInv(ops, tasks)
    ensures TasksInRange(ops, tasks)
  {
    forall i: nat, ref: nat | i < |tasks| && Owes(tasks[i], ref) ensures ref < |ops| { assert DebtKnown(ops, tasks, i, ref); }
  }

  /** An object nobody waits for, or one that stays as it was for everybody else. */
  ghost predicate Mild(g: Registry, ref: nat, op: Op) {
    && ref < |g.ops| && OpOk(op) && op.id == g.ops[ref].id && op.kind == g.ops[ref].kind
    && op.owner == g.ops[ref].owner && op.ready == g.ops[ref].ready
    && (g.ops[ref].terminal ==> op.terminal && op.io == g.ops[ref].io)
    && (!op.kind.Request? ==> op.terminal == g.ops[ref].terminal && op.io == g.ops[ref].io)
  }

  lemma PutMaps(g: Registry, ref: nat, op: Op)
    requires MapInv(g) && Mild(g, ref, op)
    ensures MapInv(Put(g, ref, op))
  {
    hide OpOk, Indexed, IdsOk, LiveOk;
    IndexedUpdate(g.requests, g.ops, 0, ref, op);
    IndexedUpdate(g.connects, g.ops, 1, ref, op);
    IndexedUpdate(g.tls, g.ops, 2, ref, op);
    IdsUpdate(g.ops, g.nextId, ref, op);
  }

  lemma PutAborts(g: Registry, ref: nat, op: Op)
    requires OpsOk(g.ops) && OwnerInv(g.ops, g.tasks) && AbortInv(g.ops, g.tasks, g.ios) && Mild(g, ref, op)
    ensures AbortInv(g.ops[ref := op], g.tasks, g.ios)
  {
    hide AbortInv, OwnerInv;
    assert OpOk(g.ops[ref]);
    if op.io == g.ops[ref].io {
      AbortUpdateOp(g.ops, g.tasks, g.ios, ref, op);
    } else {
      NobodyOwes(g.ops, g.tasks, ref);
      AbortCommit(g.ops, g.tasks, g.ios, ref, op);
    }
  }

  lemma PutKeeps(g: Registry, ref: nat, op: Op)
    requires Inv(g) && Mild(g, ref, op)
    ensures Inv(Put(g, ref, op))
  {
    hide MapInv, OwnerInv, AbortInv, ShutdownInv, CallbackInv;
    PutMaps(g, ref, op);
    PutAborts(g, ref, op);
    hide OpOk;
    OwnerUpdateOp(g.ops, g.tasks, ref, op);
    ShutdownOps(g.phase, g.stopped, g.ops, g.ops[ref := op], g.tasks);
    assert CallbackInv(Put(g, ref, op)) by { SameCallbacks(g, Put(g, ref, op)); }
  }

  lemma SameCallbacks(g: Registry, h: Registry)
    requires CallbackInv(g) && h.tasks == g.tasks && h.activations == g.activations && h.seal == g.seal && h.lost == g.lost
    requires g.phase.ShuttingDown? ==> h.phase.ShuttingDown?
    ensures CallbackInv(h)
  {
  }

  lemma SameMaps(g: Registry, h: Registry)
    requires MapInv(g) && h.ops == g.ops && h.requests == g.requests && h.connects == g.connects && h.tls == g.tls
    requires h.live == g.live && h.ios == g.ios && h.nextId == g.nextId
    ensures MapInv(h)
  {
    hide Indexed, IdsOk, LiveOk;
  }

  /** A task that owes nothing and activates nothing. */
  predicate Quiet(task: Task) { task.Finished? || task.Remove? || (task.Enqueue? && !task.activation) }

  lemma SpawnKeeps(g: Registry, task: Task)
    requires Inv(g) && Quiet(task) && TaskOk(g.ops, g.ios, task)
    ensures Inv(Spawn(g, task))
  {
    hide MapInv, OwnerInv, AbortInv, ShutdownInv, OpOk;
    var h := Spawn(g, task);
    SameMaps(g, h);
    OwnerAppendTask(g.ops, g.tasks, task);
    AbortTask(g.ops, g.tasks, g.ios, 0, task);
    ShutdownTask(g.phase, g.stopped, g.ops, g.tasks, 0, task);
    ActivationsAppend(g.tasks, task);
  }

  /** A task goes on without paying or taking on a publication. */
  lemma RetaskKeeps(g: Registry, i: nat, task: Task, activations: int)
    requires Inv(g) && i < |g.tasks| && TaskOk(g.ops, g.ios, task)
    requires forall r: nat :: Owes(task, r) <==> Owes(g.tasks[i], r)
    requires task.Sweep? && task.last ==> g.phase.ShuttingDown? && Covers(g.ops, task.requests)
    requires activations == g.activations - IsActivation(g.tasks[i]) + IsActivation(task)
    requires IsActivation(task) <= IsActivation(g.tasks[i])
    ensures Inv(g.(tasks := g.tasks[i := task], activations := activations))
  {
    hide MapInv, OwnerInv, AbortInv, ShutdownInv, OpOk, TaskOk, Owes;
    var h := g.(tasks := g.tasks[i := task], activations := activations);
    SameMaps(g, h);
    OwnerSame(g.ops, g.tasks, i, task);
    AbortTask(g.ops, g.tasks, g.ios, i, task);
    ShutdownTask(g.phase, g.stopped, g.ops, g.tasks, i, task);
    ActivationsUpdate(g.tasks, i, task);
  }

  // ==== requests ====

  lemma CommitRequestKeeps(g: Registry, ref: nat)
    requires Inv(g)
    ensures Inv(CommitRequest(g, ref))
  {
    hide MapInv, OwnerInv, AbortInv, ShutdownInv, CallbackInv, ReactorInv;
    if ref < |g.ops| && g.ops[ref].kind.Request? && !g.ops[ref].terminal {
      var op := Commit(g.ops[ref], false, None, None);
      assert OpOk(g.ops[ref]);
      CommitRequestOk(g.ops[ref]);
      PutKeeps(g, ref, Extract(op));
      SpawnKeeps(Put(g, ref, Extract(op)), Remove(ref, HasJob(op)));
    }
  }

  // ==== admission ====

  lemma EnlistMaps(g: Registry, id: nat, kind: Kind, callback: bool, nextId: nat)
    requires MapInv(g) && id < nextId && g.nextId <= nextId
    requires if kind.Tls? then id !in g.tls else id == g.nextId
    ensures MapInv(Enlist(g, id, kind, callback, nextId))
  {
    var op := NewOp(id, kind, callback);
    assert kind.Request? ==> id !in g.requests;
    assert kind.Tcp? ==> id !in g.connects;
    assert LiveOk(g.live, g.ios, nextId);
    hide Indexed, IdsOk, LiveOk;
    IndexedAppend(g.requests, g.ops, 0, op);
    IndexedAppend(g.connects, g.ops, 1, op);
    IndexedAppend(g.tls, g.ops, 2, op);
    IdsAppend(g.ops, g.nextId, op, nextId);
  }

  lemma RunningShutdown(g: Registry, op: Op)
    requires ShutdownInv(g.phase, g.stopped, g.ops, g.tasks) && g.phase.Running?
    ensures ShutdownInv(g.phase, g.stopped, g.ops + [op], g.tasks)
  {
  }

  lemma EnlistReactor(g: Registry, id: nat, kind: Kind, callback: bool, nextId: nat)
    requires ReactorInv(g)
    ensures ReactorInv(Enlist(g, id, kind, callback, nextId))
  {
    var h := Enlist(g, id, kind, callback, nextId);
    forall ref: nat | ref < |h.ops| && h.ops[ref].kind.Request? && !h.ops[ref].terminal ensures Held(h, ref) {
      if ref < |g.ops| { assert Held(g, ref); } else { assert h.queue[|g.queue|] == ref; }
    }
  }

  lemma EnlistKeeps(g: Registry, id: nat, kind: Kind, callback: bool, nextId: nat)
    requires Inv(g) && g.phase.Running? && id < nextId && g.nextId <= nextId
    requires if kind.Tls? then id !in g.tls else id == g.nextId
    ensures Inv(Enlist(g, id, kind, callback, nextId))
  {
    hide MapInv, OwnerInv, AbortInv, ShutdownInv, ReactorInv;
    var op := NewOp(id, kind, callback);
    EnlistMaps(g, id, kind, callback, nextId);
    EnlistReactor(g, id, kind, callback, nextId);
    DebtsInRange(g.ops, g.tasks);
    OwnerAppendOp(g.ops, g.tasks, op);
    AbortAppendOp(g.ops, g.tasks, g.ios, op);
    RunningShutdown(g, op);
    assert OpOk(op);
  }

  lemma AdmittedKeeps(g: Registry, id: nat, kind: Kind, callback: bool, nextId: nat)
    requires Inv(g) && g.phase.Running? && id < nextId && g.nextId <= nextId
    requires if kind.Tls? then id !in g.tls else id == g.nextId
    ensures Inv(Admitted(g, id, kind, callback, nextId))
  {
    hide MapInv, OwnerInv, AbortInv, ShutdownInv, ReactorInv, OpsOk;
    EnlistKeeps(g, id, kind, callback, nextId);
    var h := Enlist(g, id, kind, callback, nextId);
    if callback { BeginActivation(h, |g.ops|); }
  }

  lemma BeginActivation(g: Registry, ref: nat)
    requires Inv(g) && g.phase.Running? && ref < |g.ops|
    ensures Inv(Spawn(g.(activations := g.activations + 1), Activate(ref)))
  {
    hide MapInv, OwnerInv, AbortInv, ShutdownInv, OpsOk;
    var h := Spawn(g.(activations := g.activations + 1), Activate(ref));
    SameMaps(g, h);
    OwnerAppendTask(g.ops, g.tasks, Activate(ref));
    AbortTask(g.ops, g.tasks, g.ios, 0, Activate(ref));
    ShutdownTask(g.phase, g.stopped, g.ops, g.tasks, 0, Activate(ref));
    ActivationsAppend(g.tasks, Activate(ref));
  }

  lemma AcceptKeeps(g: Registry, kind: Kind, callback: bool, full: bool)
    requires Inv(g)
    ensures Inv(Accept(g, kind, callback, full))
  {
    hide MapInv, OwnerInv, AbortInv, ShutdownInv, ReactorInv, OpsOk, CallbackInv, Admitted;
    if g.phase.Running? && kind != Tls(true) {
      FreshIds(g);
      if full { SameButId(g); } else { AdmittedKeeps(g, g.nextId, kind, callback, g.nextId + 1); }
    }
  }

  lemma UpgradeKeeps(g: Registry, io: nat, callback: bool)
    requires Inv(g)
    ensures Inv(AcceptUpgrade(g, io, callback))
  {
    hide OwnerInv, AbortInv, ShutdownInv, ReactorInv, OpsOk, CallbackInv, Indexed, IdsOk, Admitted;
    if CanUpgrade(g, io) { AdmittedKeeps(g, g.ios[io].id, Tls(true), callback, g.nextId); }
  }

  /** No map has an entry for an identity that has not been given out. */
  lemma FreshIds(g: Registry)
    requires MapInv(g)
    ensures g.nextId !in g.tls && MapInv(g.(nextId := g.nextId + 1))
  {
  }

  lemma SameButId(g: Registry)
    requires Inv(g) && MapInv(g.(nextId := g.nextId + 1))
    ensures Inv(g.(nextId := g.nextId + 1))
  {
    hide MapInv, OwnerInv, AbortInv, ShutdownInv, OpsOk;
  }

  // ==== connects ====

  lemma SameReactor(g: Registry, h: Registry)
    requires ReactorInv(g) && OpsGrow(g.ops, h.ops)
    requires forall ref: nat :: ref < |g.ops| ==> h.ops[ref].kind == g.ops[ref].kind
    requires h.queue == g.queue && h.batch == g.batch && h.active == g.active && h.hand == g.hand
    ensures ReactorInv(h)
  {
    forall ref: nat | ref < |h.ops| && h.ops[ref].kind.Request? && !h.ops[ref].terminal ensures Held(h, ref) {
      assert Held(g, ref);
    }
  }

  lemma ChangeIos(g: Registry, live: map<nat, nat>, ios: seq<Io>)
    requires Inv(g) && LiveOk(live, ios, g.nextId) && IosGrow(g.ios, ios)
    ensures Inv(g.(live := live, ios := ios))
  {
    hide OwnerInv, AbortInv, ShutdownInv, OpsOk, Indexed, IdsOk, LiveOk, IosGrow, ReactorInv, CallbackInv;
    AbortIos(g.ops, g.tasks, g.ios, ios);
    SameReactor(g, g.(live := live, ios := ios));
    SameCallbacks(g, g.(live := live, ios := ios));
  }

  lemma OpenIoKeeps(g: Registry, id: nat)
    requires Inv(g) && id < g.nextId
    ensures Inv(OpenIo(g, id))
  {
    hide OwnerInv, AbortInv, ShutdownInv, OpsOk, Indexed, IdsOk, ReactorInv, CallbackInv;
    ChangeIos(g, OpenIo(g, id).live, OpenIo(g, id).ios);
  }

  lemma LiveUpdate(live: map<nat, nat>, ios: seq<Io>, nextId: nat, io: nat, changed: Io)
    requires LiveOk(live, ios, nextId) && io < |ios| && changed.id == ios[io].id && (ios[io].aborted ==> changed.aborted)
    ensures LiveOk(live, ios[io := changed], nextId) && IosGrow(ios, ios[io := changed])
  {
  }

  lemma LiveForget(live: map<nat, nat>, ios: seq<Io>, nextId: nat, id: nat)
    requires LiveOk(live, ios, nextId)
    ensures LiveOk(live - {id}, ios, nextId) && IosGrow(ios, ios)
  {
  }

  lemma AbortedLive(g: Registry, io: nat)
    requires LiveOk(g.live, g.ios, g.nextId)
    ensures LiveOk(g.live, AbortIo(g, io).ios, g.nextId) && IosGrow(g.ios, AbortIo(g, io).ios)
  {
    hide LiveOk, IosGrow;
    LiveForget(g.live, g.ios, g.nextId, 0);
    if io < |g.ios| { LiveUpdate(g.live, g.ios, g.nextId, io, g.ios[io].(aborted := true)); }
  }

  lemma AbortIoKeeps(g: Registry, io: nat)
    requires Inv(g)
    ensures Inv(AbortIo(g, io))
  {
    hide OwnerInv, AbortInv, ShutdownInv, OpsOk, Indexed, IdsOk, LiveOk, IosGrow, ReactorInv, CallbackInv;
    AbortedLive(g, io);
    ChangeIos(g, g.live, AbortIo(g, io).ios);
  }

  lemma ReleasedLive(g: Registry, io: nat)
    requires LiveOk(g.live, g.ios, g.nextId)
    ensures var h := ReleaseIo(g, io); LiveOk(h.live, h.ios, g.nextId) && IosGrow(g.ios, h.ios)
  {
    hide LiveOk, IosGrow;
    LiveForget(g.live, g.ios, g.nextId, 0);
    if io < |g.ios| {
      var ios := g.ios[io := g.ios[io].(released := true)];
      LiveUpdate(g.live, g.ios, g.nextId, io, g.ios[io].(released := true));
      LiveForget(g.live, ios, g.nextId, g.ios[io].id);
    }
  }

  lemma ReleaseIoKeeps(g: Registry, io: nat)
    requires Inv(g)
    ensures Inv(ReleaseIo(g, io))
  {
    hide OwnerInv, AbortInv, ShutdownInv, OpsOk, Indexed, IdsOk, LiveOk, IosGrow, ReactorInv, CallbackInv;
    ReleasedLive(g, io);
    ChangeIos(g, ReleaseIo(g, io).live, ReleaseIo(g, io).ios);
  }

  /** A pending connect leaves its map and becomes terminal, in one critical section. */
  function Left(g: Registry, ref: nat, op: Op): (r: Registry)
    requires ref < |g.ops|
  {
    Put(g, ref, op).(connects := if op.kind.Tcp? then g.connects - {op.id} else g.connects,
                     tls := if op.kind.Tls? then g.tls - {op.id} else g.tls)
  }

  lemma LeftMaps(g: Registry, ref: nat, op: Op)
    requires MapInv(g) && (InConnects(g, ref) || InTls(g, ref))
    requires op.id == g.ops[ref].id && op.kind == g.ops[ref].kind && op.terminal
    ensures MapInv(Left(g, ref, op))
  {
    assert !g.ops[ref].terminal;
    hide Indexed, IdsOk, LiveOk;
    IndexedUpdate(g.requests, g.ops, 0, ref, op);
    IdsUpdate(g.ops, g.nextId, ref, op);
    if op.kind.Tcp? {
      IndexedLeave(g.connects, g.ops, 1, ref, op);
      IndexedUpdate(g.tls, g.ops, 2, ref, op);
    } else {
      IndexedLeave(g.tls, g.ops, 2, ref, op);
      IndexedUpdate(g.connects, g.ops, 1, ref, op);
    }
  }

  lemma PendingConnect(g: Registry, ref: nat)
    requires OpsOk(g.ops) && MapInv(g) && (InConnects(g, ref) || InTls(g, ref))
    ensures !g.ops[ref].terminal && !g.ops[ref].ready && g.ops[ref].owner.None? && OpOk(g.ops[ref])
    ensures !g.ops[ref].kind.Request? && g.ops[ref].id < g.nextId
  {
    assert OpOk(g.ops[ref]);
  }

  /** The winner of a connect that still owes its publication. */
  lemma CommitConnectKeeps(g: Registry, ref: nat, failed: bool, io: Option<nat>, task: Task)
    requires Inv(g) && (InConnects(g, ref) || InTls(g, ref))
    requires task == if io.Some? then Abort(ref, io.value) else Publish(ref)
    requires io.Some? ==> io.value < |g.ios|
    ensures Inv(Spawn(Left(g, ref, Commit(g.ops[ref], failed, io, Some(|g.tasks|))), task))
  {
    hide MapInv, OwnerInv, AbortInv, ShutdownInv;
    var op := Commit(g.ops[ref], failed, io, Some(|g.tasks|));
    PendingConnect(g, ref);
    CommitConnectOk(g.ops[ref], failed, io, |g.tasks|);
    LeftMaps(g, ref, op);
    hide OpOk;
    var h := Spawn(Left(g, ref, op), task);
    SameMaps(Left(g, ref, op), h);
    OwnerCommit(g.ops, g.tasks, ref, op, task);
    NobodyOwes(g.ops, g.tasks, ref);
    AbortCommit(g.ops, g.tasks, g.ios, ref, op);
    AbortTask(h.ops, g.tasks, g.ios, 0, task);
    ShutdownOps(g.phase, g.stopped, g.ops, h.ops, g.tasks);
    ShutdownTask(g.phase, g.stopped, h.ops, g.tasks, 0, task);
    ActivationsAppend(g.tasks, task);
  }

  lemma ConnectFailsKeeps(g: Registry, ref: nat)
    requires Inv(g)
    ensures Inv(TcpFails(g, ref)) && Inv(TlsFails(g, ref)) && Inv(TlsConnected(g, ref))
  {
    hide OwnerInv, AbortInv, ShutdownInv, OpsOk, Indexed, IdsOk, CallbackInv, ReactorInv;
    if InConnects(g, ref) { CommitConnectKeeps(g, ref, true, None, Publish(ref)); }
    if InTls(g, ref) {
      CommitConnectKeeps(g, ref, false, None, Publish(ref));
      var io := LiveIo(g, g.ops[ref].id);
      CommitConnectKeeps(g, ref, true, io, if io.Some? then Abort(ref, io.value) else Publish(ref));
    }
  }

  /** A TCP connect that succeeds is committed, published and live at once. */
  lemma ConnectedKeeps(g: Registry, ref: nat)
    requires Inv(g) && InConnects(g, ref)
    ensures Inv(Left(g, ref, Extract(MarkReady(Commit(g.ops[ref], false, None, None)))))
  {
    hide MapInv, OwnerInv, AbortInv, ShutdownInv;
    var op := Extract(MarkReady(Commit(g.ops[ref], false, None, None)));
    PendingConnect(g, ref);
    ConnectedOk(g.ops[ref]);
    LeftMaps(g, ref, op);
    OwnerUpdateOp(g.ops, g.tasks, ref, op);
    NobodyOwes(g.ops, g.tasks, ref);
    AbortCommit(g.ops, g.tasks, g.ios, ref, op);
    ShutdownOps(g.phase, g.stopped, g.ops, Left(g, ref, op).ops, g.tasks);
  }

  lemma TcpConnectedKeeps(g: Registry, ref: nat)
    requires Inv(g)
    ensures Inv(TcpConnected(g, ref))
  {
    hide MapInv, OwnerInv, AbortInv, ShutdownInv, OpsOk, CallbackInv, ReactorInv;
    if g.phase.Running? && InConnects(g, ref) {
      PendingConnect(g, ref);
      ConnectedKeeps(g, ref);
      var op := MarkReady(Commit(g.ops[ref], false, None, None));
      var h := Left(g, ref, Extract(op));
      OpenIoKeeps(h, op.id);
      if HasJob(op) { SpawnKeeps(OpenIo(h, op.id), Enqueue(ref, false)); }
    }
  }

  lemma TlsTransportKeeps(g: Registry, ref: nat)
    requires Inv(g)
    ensures Inv(TlsTransport(g, ref))
  {
    hide MapInv, OwnerInv, AbortInv, ShutdownInv, OpsOk, CallbackInv, ReactorInv;
    if InTls(g, ref) {
      PendingConnect(g, ref);
      var op := g.ops[ref].(handedOver := true);
      PutKeeps(g, ref, op);
      OpenIoKeeps(Put(g, ref, op), op.id);
    }
  }

  // ==== sweeps ====

  lemma SweptOpIs(g: Registry, ref: nat)
    requires OpsOk(g.ops) && MapInv(g) && ref < |g.ops|
    ensures var op := SweptOp(g, ref);
            && OpOk(op) && op.id == g.ops[ref].id && op.kind == g.ops[ref].kind && op.ready == g.ops[ref].ready
            && (g.ops[ref].terminal || op.kind.Request? ==> op == g.ops[ref])
            && (!op.kind.Request? ==> op.terminal)
  {
    hide IdsOk, LiveOk;
    assert OpOk(g.ops[ref]);
    if InConnects(g, ref) || InTls(g, ref) {
      PendingConnect(g, ref);
      CommitConnectOk(g.ops[ref], true, None, |g.tasks|);
      CommitConnectOk(g.ops[ref], true, LiveIo(g, g.ops[ref].id), |g.tasks|);
    }
  }

  lemma SweptOps(g: Registry, last: bool)
    requires OpsOk(g.ops) && MapInv(g)
    ensures var h := BeginSweep(g, last);
            && |h.ops| == |g.ops| && (forall ref: nat :: ref < |g.ops| ==> h.ops[ref] == SweptOp(g, ref))
            && OpsOk(h.ops) && OpsGrow(g.ops, h.ops)
            && (forall ref: nat :: ref < |g.ops| ==> h.ops[ref].kind == g.ops[ref].kind && h.ops[ref].id == g.ops[ref].id)
            && (forall ref: nat :: ref < |g.ops| && g.ops[ref].terminal ==> h.ops[ref] == g.ops[ref])
            && (forall ref: nat :: ref < |g.ops| && g.ops[ref].kind.Request? ==> h.ops[ref] == g.ops[ref])
            && (forall ref: nat :: ref < |g.ops| && !g.ops[ref].kind.Request? ==> h.ops[ref].terminal)
            && (forall ref: nat :: ref < |g.ops| ==> h.ops[ref].ready == g.ops[ref].ready)
  {
    hide MapInv, OpOk, SweptOp;
    forall ref: nat | ref < |g.ops|
      ensures var op := SweptOp(g, ref);
              && OpOk(op) && op.id == g.ops[ref].id && op.kind == g.ops[ref].kind && op.ready == g.ops[ref].ready
              && (g.ops[ref].terminal || op.kind.Request? ==> op == g.ops[ref])
              && (!op.kind.Request? ==> op.terminal)
    {
      SweptOpIs(g, ref);
    }
  }

  lemma SweepMaps(g: Registry, last: bool)
    requires OpsOk(g.ops) && MapInv(g)
    ensures MapInv(BeginSweep(g, last))
  {
    hide OpOk, SweptOp, LiveOk;
    SweptOps(g, last);
  }

  /** Exactly the objects in the two maps are swept, and they know which task owes them. */
  lemma SweptOwner(g: Registry, ref: nat)
    requires OpsOk(g.ops) && MapInv(g)
    ensures ref in g.connects.Values || ref in g.tls.Values ==>
              ref < |g.ops| && SweptOp(g, ref).owner == Some(|g.tasks|) && !g.ops[ref].ready
    ensures ref < |g.ops| && ref !in g.connects.Values && ref !in g.tls.Values ==> SweptOp(g, ref) == g.ops[ref]
    ensures ref in g.connects.Values ==> ref < |g.ops| && g.ops[ref].kind.Tcp? && SweptOp(g, ref).io.None?
    ensures ref in g.tls.Values ==>
              ref < |g.ops| && g.ops[ref].kind.Tls? && SweptOp(g, ref).io == LiveIo(g, g.ops[ref].id)
  {
    hide IdsOk, LiveOk;
    if ref in g.connects.Values {
      var id :| id in g.connects && g.connects[id] == ref;
      assert OpOk(g.ops[ref]);
    }
    if ref in g.tls.Values {
      var id :| id in g.tls && g.tls[id] == ref;
      assert OpOk(g.ops[ref]);
    }
  }

  lemma SweepOwners(g: Registry, last: bool)
    requires OpsOk(g.ops) && MapInv(g) && OwnerInv(g.ops, g.tasks)
    ensures OwnerInv(BeginSweep(g, last).ops, BeginSweep(g, last).tasks)
  {
    SweptOps(g, last);
    var h := BeginSweep(g, last);
    var after, more := h.ops, h.tasks;
    hide MapInv, OwnerInv, OpsOk, SweptOp;
    forall ref: nat ensures OwnerPays(after, more, ref) {
      assert OwnerPays(g.ops, g.tasks, ref) by { OwnerAt(g, 0, ref); }
      SweptOwner(g, ref);
    }
    forall i: nat, ref: nat ensures DebtKnown(after, more, i, ref) {
      OwnerAt(g, i, ref);
      SweptOwner(g, ref);
      if ref < |g.ops| { SettledOwner(g, ref); }
    }
  }

  lemma OwnerAt(g: Registry, i: nat, ref: nat)
    requires OwnerInv(g.ops, g.tasks)
    ensures OwnerPays(g.ops, g.tasks, ref) && DebtKnown(g.ops, g.tasks, i, ref)
  {
  }

  lemma SettledOwner(g: Registry, ref: nat)
    requires OpsOk(g.ops) && ref < |g.ops|
    ensures g.ops[ref].owner.Some? ==> g.ops[ref].terminal
  {
    assert OpOk(g.ops[ref]);
  }

  lemma SweepTaskOk(g: Registry, last: bool)
    requires OpsOk(g.ops) && MapInv(g)
    ensures var h := BeginSweep(g, last); TaskOk(h.ops, h.ios, h.tasks[|g.tasks|])
  {
    SweptOps(g, last);
    var h := BeginSweep(g, last);
    forall ref | ref in g.connects.Values ensures ref < |h.ops| && h.ops[ref].io.None? && h.ops[ref].kind.Tcp? {
      SweptOwner(g, ref);
    }
    forall ref | ref in g.tls.Values
      ensures ref < |h.ops| && h.ops[ref].kind.Tls? && (h.ops[ref].io.Some? ==> h.ops[ref].io.value in g.live.Values)
    {
      SweptOwner(g, ref);
    }
  }

  lemma SweepAborts(g: Registry, last: bool)
    requires OpsOk(g.ops) && MapInv(g) && OwnerInv(g.ops, g.tasks) && AbortInv(g.ops, g.tasks, g.ios)
    ensures var h := BeginSweep(g, last); AbortInv(h.ops, h.tasks, h.ios)
  {
    SweptOps(g, last);
    SweepTaskOk(g, last);
    var h := BeginSweep(g, last);
    hide MapInv, OwnerInv, OpsOk, SweptOp, OpOk;
    forall i: nat | i < |h.tasks| ensures TaskOk(h.ops, h.ios, h.tasks[i]) {
      if i < |g.tasks| {
        assert TaskOk(g.ops, g.ios, g.tasks[i]);
        forall ref: nat | ref < |g.ops| && Owes(g.tasks[i], ref) ensures h.ops[ref] == g.ops[ref] {
          OwnerAt(g, i, ref);
          SettledOwner(g, ref);
        }
        TaskUnswept(g.ops, h.ops, g.ios, g.tasks[i]);
      }
    }
  }

  /** A task whose objects did not change is as good as before. */
  lemma TaskUnswept(ops: seq<Op>, after: seq<Op>, ios: seq<Io>, task: Task)
    requires TaskOk(ops, ios, task) && |ops| == |after|
    requires forall ref: nat :: ref < |ops| && Owes(task, ref) ==> after[ref] == ops[ref]
    requires forall ref: nat :: ref < |ops| && ops[ref].kind.Request? ==> after[ref] == ops[ref]
    ensures TaskOk(after, ios, task)
  {
    match task {
      case Publish(ref) => assert Owes(task, ref);
      case Abort(ref, _) => assert Owes(task, ref);
      case Sweep(_, tcps, _, tlss, _) =>
        assert forall ref :: ref in tcps ==> Owes(task, ref);
        assert forall ref :: ref in tlss ==> Owes(task, ref);
      case _ =>
    }
  }

  lemma SweepShutdown(g: Registry, last: bool)
    requires OpsOk(g.ops) && MapInv(g) && ShutdownInv(g.phase, g.stopped, g.ops, g.tasks)
    ensures var h := BeginSweep(g, last); ShutdownInv(h.phase, h.stopped, h.ops, h.tasks)
  {
    SweptOps(g, last);
    var h := BeginSweep(g, last);
    assert Covers(h.ops, g.requests.Values) by {
      forall ref: nat | ref < |h.ops| && !h.ops[ref].terminal ensures ref in g.requests.Values {
        assert g.requests[g.ops[ref].id] == ref;
      }
    }
    hide MapInv, OpsOk, SweptOp;
    ShutdownOps(g.phase, g.stopped, g.ops, h.ops, g.tasks);
    assert ShutdownInv(h.phase, g.stopped, h.ops, g.tasks);
    ShutdownTask(h.phase, g.stopped, h.ops, g.tasks, 0, h.tasks[|g.tasks|]);
  }

  lemma SweepKeeps(g: Registry, last: bool)
    requires Inv(g)
    ensures Inv(BeginSweep(g, last))
  {
    hide MapInv, OwnerInv, AbortInv, ShutdownInv, ReactorInv, OpsOk, SweptOp;
    SweptOps(g, last);
    SweepMaps(g, last);
    SweepOwners(g, last);
    SweepAborts(g, last);
    SweepShutdown(g, last);
    SameReactor(g, BeginSweep(g, last));
    ActivationsAppend(g.tasks, BeginSweep(g, last).tasks[|g.tasks|]);
  }

  // ==== tasks ====

  lemma {:induction false} ActivationCounted(tasks: seq<Task>, i: nat)
    requires i < |tasks|
    ensures IsActivation(tasks[i]) <= Activations(tasks)
  {
    if i > 0 { ActivationCounted(tasks[1..], i - 1); }
  }

  lemma RemoveKeeps(g: Registry, i: nat, pick: Pick)
    requires Inv(g) && i < |g.tasks| && g.tasks[i].Remove?
    ensures Inv(TaskStep(g, i, pick))
  {
    hide OwnerInv, ShutdownInv, ReactorInv, OpsOk, CallbackInv, Indexed, IdsOk, LiveOk;
    var Remove(ref, job) := g.tasks[i];
    assert TaskOk(g.ops, g.ios, g.tasks[i]);
    IndexedForget(g.requests, g.ops, g.nextId, ref);
    var h := g.(requests := g.requests - {g.ops[ref].id});
    assert Inv(h) by { SameCallbacks(g, h); SameReactor(g, h); }
    hide Inv;
    RetaskKeeps(h, i, if job then Enqueue(ref, false) else Finished, h.activations);
  }

  lemma EnqueueKeeps(g: Registry, i: nat, pick: Pick)
    requires Inv(g) && i < |g.tasks| && g.tasks[i].Enqueue?
    ensures Inv(TaskStep(g, i, pick))
  {
    hide OwnerInv, AbortInv, ShutdownInv, ReactorInv, OpsOk, MapInv;
    ActivationCounted(g.tasks, i);
    assert !TaskStep(g, i, pick).lost;
    RetaskKeeps(g, i, Finished, g.activations - IsActivation(g.tasks[i]));
  }

  lemma ActivateKeeps(g: Registry, i: nat, ref: nat)
    requires Inv(g) && i < |g.tasks| && g.tasks[i] == Activate(ref) && ref < |g.ops|
    ensures Inv(ActivateTask(g, i, ref))
  {
    hide Inv, Extract, Mild, HasJob;
    var op := g.ops[ref].(active := true);
    if HasJob(op) {
      ActivatedMild(g, ref, Extract(op));
      PutKeeps(g, ref, Extract(op));
      RetaskKeeps(Put(g, ref, Extract(op)), i, Enqueue(ref, true), g.activations);
    } else {
      ActivatedMild(g, ref, op);
      PutKeeps(g, ref, op);
      RetaskKeeps(Put(g, ref, op), i, Finished, g.activations - 1);
    }
  }

  lemma ActivatedMild(g: Registry, ref: nat, op: Op)
    requires Inv(g) && ref < |g.ops|
    requires var active := g.ops[ref].(active := true); op == Extract(active) || (op == active && !HasJob(active))
    ensures Mild(g, ref, op)
  {
    hide MapInv, OwnerInv, AbortInv, ShutdownInv, ReactorInv, CallbackInv;
    assert OpOk(g.ops[ref]);
    ActivateOk(g.ops[ref]);
  }

  /** The task at `i` publishes `ref`, whose transport is cut, and is left with `rest`. */
  lemma PublicationKeeps(g: Registry, i: nat, ref: nat, rest: Task)
    requires Inv(g) && i < |g.tasks| && Owes(g.tasks[i], ref) && ref < |g.ops| && Cut(g.ios, g.ops[ref])
    requires forall r: nat :: Owes(rest, r) <==> Owes(g.tasks[i], r) && r != ref
    requires TaskOk(g.ops, g.ios, rest) && IsActivation(rest) == 0
    requires rest.Sweep? && rest.last ==> g.phase.ShuttingDown? && Covers(g.ops, rest.requests)
    ensures Inv(Publication(g, i, ref, rest))
  {
    hide OwnerInv, AbortInv, ShutdownInv, ReactorInv, MapInv, CallbackInv, Owes, TaskOk;
    PublishedIsInv(g, i, ref, rest);
    var op := MarkReady(g.ops[ref]);
    var done := Put(g, ref, Extract(op)).(tasks := g.tasks[i := rest]);
    hide Inv;
    if HasJob(op) { SpawnKeeps(done, Enqueue(ref, false)) by { EnqueueIsOk(done, ref); } }
  }

  lemma EnqueueIsOk(g: Registry, ref: nat)
    requires ref < |g.ops|
    ensures TaskOk(g.ops, g.ios, Enqueue(ref, false))
  {
  }

  lemma PublishedMaps(g: Registry, ref: nat, op: Op)
    requires MapInv(g) && ref < |g.ops| && g.ops[ref].terminal && op.terminal
    requires op.id == g.ops[ref].id && op.kind == g.ops[ref].kind
    ensures MapInv(Put(g, ref, op))
  {
    hide Indexed, IdsOk, LiveOk;
    IndexedUpdate(g.requests, g.ops, 0, ref, op);
    IndexedUpdate(g.connects, g.ops, 1, ref, op);
    IndexedUpdate(g.tls, g.ops, 2, ref, op);
    IdsUpdate(g.ops, g.nextId, ref, op);
  }

  lemma PublishedOp(ops: seq<Op>, ref: nat)
    requires OpsOk(ops) && ref < |ops| && ops[ref].owner.Some? && !ops[ref].ready
    ensures var op := Extract(MarkReady(ops[ref]));
            && op.id == ops[ref].id && op.kind == ops[ref].kind && op.io == ops[ref].io
            && op.owner.None? && op.terminal && ops[ref].terminal
            && OpsOk(ops[ref := op])
  {
    assert OpOk(ops[ref]);
    PublishOk(ops[ref]);
  }

  lemma RetaskCallbacks(g: Registry, h: Registry, i: nat, task: Task)
    requires CallbackInv(g) && i < |g.tasks| && IsActivation(task) == IsActivation(g.tasks[i])
    requires h.tasks == g.tasks[i := task] && h.activations == g.activations && h.seal == g.seal && h.lost == g.lost
    requires h.phase == g.phase
    ensures CallbackInv(h)
  {
    ActivationsUpdate(g.tasks, i, task);
  }

  lemma PublishedIsInv(g: Registry, i: nat, ref: nat, rest: Task)
    requires Inv(g) && i < |g.tasks| && Owes(g.tasks[i], ref) && ref < |g.ops| && Cut(g.ios, g.ops[ref])
    requires forall r: nat :: Owes(rest, r) <==> Owes(g.tasks[i], r) && r != ref
    requires TaskOk(g.ops, g.ios, rest) && IsActivation(rest) == 0
    requires rest.Sweep? && rest.last ==> g.phase.ShuttingDown? && Covers(g.ops, rest.requests)
    ensures Inv(Put(g, ref, Extract(MarkReady(g.ops[ref]))).(tasks := g.tasks[i := rest]))
  {
    hide OwnerInv, AbortInv, ShutdownInv, ReactorInv, MapInv, CallbackInv, Owes, TaskOk, OpsOk, Extract, MarkReady, Cut,
         IsActivation;
    var op := Extract(MarkReady(g.ops[ref]));
    OwnerAt(g, i, ref);
    PublishedOp(g.ops, ref);
    PublishedMaps(g, ref, op);
    var h := Put(g, ref, op).(tasks := g.tasks[i := rest]);
    SameMaps(Put(g, ref, op), h);
    OwnerPublish(g.ops, g.tasks, i, ref, op, rest);
    PublishedAborts(g, i, ref, rest, op);
    ShutdownTask(g.phase, g.stopped, g.ops, g.tasks, i, rest);
    ShutdownOps(g.phase, g.stopped, g.ops, h.ops, h.tasks);
    SameReactor(g, h);
    OwingIsNoActivation(g.tasks[i], ref);
    RetaskCallbacks(g, h, i, rest);
  }

  lemma PublishedAborts(g: Registry, i: nat, ref: nat, rest: Task, op: Op)
    requires AbortInv(g.ops, g.tasks, g.ios) && i < |g.tasks| && ref < |g.ops| && TaskOk(g.ops, g.ios, rest)
    requires Cut(g.ios, g.ops[ref]) && op.io == g.ops[ref].io && op.kind == g.ops[ref].kind
    requires g.ops[ref].terminal ==> op.terminal
    ensures AbortInv(g.ops[ref := op], g.tasks[i := rest], g.ios)
  {
    hide TaskOk, AbortInv;
    AbortTask(g.ops, g.tasks, g.ios, i, rest);
    AbortUpdateOp(g.ops, g.tasks[i := rest], g.ios, ref, op);
  }

  lemma OwingIsNoActivation(task: Task, ref: nat)
    requires Owes(task, ref)
    ensures IsActivation(task) == 0
  {
  }

  lemma PublishKeeps(g: Registry, i: nat, pick: Pick)
    requires Inv(g) && i < |g.tasks| && g.tasks[i].Publish?
    ensures Inv(TaskStep(g, i, pick))
  {
    hide OwnerInv, ShutdownInv, ReactorInv, MapInv, CallbackInv, OpsOk;
    var Publish(ref) := g.tasks[i];
    OwnerAt(g, i, ref);
    assert Owes(g.tasks[i], ref);
    assert TaskOk(g.ops, g.ios, g.tasks[i]);
    PublicationKeeps(g, i, ref, Finished);
  }

  lemma AbortKeeps(g: Registry, i: nat, pick: Pick)
    requires Inv(g) && i < |g.tasks| && g.tasks[i].Abort?
    ensures Inv(TaskStep(g, i, pick))
  {
    hide OwnerInv, ShutdownInv, ReactorInv, MapInv, CallbackInv, OpsOk;
    var Abort(ref, io) := g.tasks[i];
    assert TaskOk(g.ops, g.ios, g.tasks[i]);
    AbortIoKeeps(g, io);
    hide Inv;
    RetaskKeeps(AbortIo(g, io), i, Publish(ref), g.activations);
  }

  // ==== the tail of a sweep ====

  lemma SweepFacts(g: Registry, i: nat)
    requires Inv(g) && i < |g.tasks| && g.tasks[i].Sweep?
    ensures var t := g.tasks[i];
            && TaskOk(g.ops, g.ios, t)
            && (t.last ==> g.phase.ShuttingDown? && Covers(g.ops, t.requests))
            && t.tcps !! t.tlss
  {
    hide MapInv, CallbackInv, ReactorInv, OpsOk;
    var t := g.tasks[i];
    assert TaskOk(g.ops, g.ios, t);
    forall ref | ref in t.tcps && ref in t.tlss ensures false {
      assert Owes(t, ref);
      OwnerAt(g, i, ref);
    }
  }

  /** Crossing the request off the list and completing it may be done in either order. */
  lemma PickRequestIs(g: Registry, i: nat, ref: nat)
    requires i < |g.tasks| && g.tasks[i].Sweep? && ref in g.tasks[i].requests
    requires ref < |g.ops| && g.ops[ref].kind.Request?
    ensures var t, h := g.tasks[i], CommitRequest(g, ref);
            && i < |h.tasks| && h.tasks[i] == t && ref < |h.ops| && h.ops[ref].terminal
            && SweepTask(g, i, PickRequest(ref)) == h.(tasks := h.tasks[i := t.(requests := t.requests - {ref})])
  {
    var t, h := g.tasks[i], CommitRequest(g, ref);
    assert SweepTask(g, i, PickRequest(ref)).tasks == h.tasks[i := t.(requests := t.requests - {ref})];
  }

  lemma PickRequestKeeps(g: Registry, i: nat, ref: nat)
    requires Inv(g) && i < |g.tasks| && g.tasks[i].Sweep? && ref in g.tasks[i].requests
    ensures Inv(SweepTask(g, i, PickRequest(ref)))
  {
    hide Inv, CommitRequest, SweepTask;
    SweepFacts(g, i);
    PickRequestIs(g, i, ref);
    var t, h := g.tasks[i], CommitRequest(g, ref);
    CommitRequestKeeps(g, ref);
    SweepFacts(h, i);
    RetaskKeeps(h, i, t.(requests := t.requests - {ref}), h.activations);
  }

  lemma PickTcpKeeps(g: Registry, i: nat, ref: nat)
    requires Inv(g) && i < |g.tasks| && g.tasks[i].Sweep? && ref in g.tasks[i].tcps && ref < |g.ops|
    ensures Inv(Publication(g, i, ref, g.tasks[i].(tcps := g.tasks[i].tcps - {ref})))
  {
    hide Inv, Publication;
    SweepFacts(g, i);
    PublicationKeeps(g, i, ref, g.tasks[i].(tcps := g.tasks[i].tcps - {ref}));
  }

  lemma PickTlsKeeps(g: Registry, i: nat, ref: nat)
    requires Inv(g) && i < |g.tasks| && g.tasks[i].Sweep? && ref in g.tasks[i].tlss && ref < |g.ops|
    requires g.tasks[i].ios == {}
    ensures Inv(Publication(g, i, ref, g.tasks[i].(tlss := g.tasks[i].tlss - {ref})))
  {
    hide Inv, Publication;
    SweepFacts(g, i);
    PublicationKeeps(g, i, ref, g.tasks[i].(tlss := g.tasks[i].tlss - {ref}));
  }

  lemma AbortedIoPicked(g: Registry, task: Task, io: nat)
    requires task.Sweep? && TaskOk(g.ops, g.ios, task) && io in task.ios
    ensures TaskOk(g.ops, AbortIo(g, io).ios, task.(ios := task.ios - {io}))
  {
    var ios := AbortIo(g, io).ios;
    assert |ios| == |g.ios| && ios[io].aborted;
    forall ref | ref in task.tlss && ref < |g.ops|
      ensures g.ops[ref].kind.Tls? && (Cut(ios, g.ops[ref]) || g.ops[ref].io.value in task.ios - {io})
    {
      if g.ops[ref].io.Some? && g.ops[ref].io.value == io { assert Cut(ios, g.ops[ref]); }
    }
  }

  lemma PickIoKeeps(g: Registry, i: nat, io: nat)
    requires Inv(g) && i < |g.tasks| && g.tasks[i].Sweep? && io in g.tasks[i].ios
    ensures Inv(AbortIo(g, io).(tasks := g.tasks[i := g.tasks[i].(ios := g.tasks[i].ios - {io})]))
  {
    hide Inv, TaskOk, Covers, IsActivation;
    SweepFacts(g, i);
    AbortIoKeeps(g, io);
    AbortedIoPicked(g, g.tasks[i], io);
    SweepsDoNotActivate(g.tasks[i], g.tasks[i].ios - {io});
    RetaskKeeps(AbortIo(g, io), i, g.tasks[i].(ios := g.tasks[i].ios - {io}), g.activations);
  }

  lemma SweepsDoNotActivate(task: Task, ios: set<nat>)
    requires task.Sweep?
    ensures IsActivation(task) == 0 && IsActivation(task.(ios := ios)) == 0
  {
  }

  lemma PickEndKeeps(g: Registry, i: nat)
    requires Inv(g) && i < |g.tasks| && g.tasks[i].Sweep?
    requires var t := g.tasks[i]; t.requests == {} && t.tcps == {} && t.ios == {} && t.tlss == {}
    ensures Inv(g.(tasks := g.tasks[i := Finished], stopped := g.stopped || g.tasks[i].last))
  {
    hide MapInv, OwnerInv, AbortInv, ReactorInv, OpsOk, CallbackInv;
    SweepFacts(g, i);
    RetaskKeeps(g, i, Finished, g.activations);
    var h := g.(tasks := g.tasks[i := Finished]);
    StopsSoundly(h, g.tasks[i].last);
  }

  lemma StopsSoundly(g: Registry, last: bool)
    requires Inv(g) && (last ==> g.phase.ShuttingDown? && Covers(g.ops, {}))
    ensures Inv(g.(stopped := g.stopped || last))
  {
    hide MapInv, OwnerInv, AbortInv, OpsOk;
    SameMaps(g, g.(stopped := g.stopped || last));
  }

  lemma SweepTaskKeeps(g: Registry, i: nat, pick: Pick)
    requires Inv(g) && i < |g.tasks| && g.tasks[i].Sweep?
    ensures Inv(SweepTask(g, i, pick))
  {
    hide Inv, Publication, AbortIo, CommitRequest;
    var t := g.tasks[i];
    match pick {
      case PickRequest(ref) => if ref in t.requests { PickRequestKeeps(g, i, ref); }
      case PickTcp(ref) => if ref in t.tcps && ref < |g.ops| { PickTcpKeeps(g, i, ref); }
      case PickIo(io) => if io in t.ios { PickIoKeeps(g, i, io); }
      case PickTls(ref) => if ref in t.tlss && ref < |g.ops| && t.ios == {} { PickTlsKeeps(g, i, ref); }
      case PickEnd =>
        if t.requests == {} && t.tcps == {} && t.ios == {} && t.tlss == {} { PickEndKeeps(g, i); }
    }
  }

  lemma TaskKeeps(g: Registry, i: nat, pick: Pick)
    requires Inv(g) && i < |g.tasks|
    ensures Inv(TaskStep(g, i, pick))
  {
    hide Inv, SweepTask, Publication, ActivateTask, AbortIo;
    match g.tasks[i] {
      case Finished =>
      case Remove(_, _) => RemoveKeeps(g, i, pick);
      case Enqueue(_, _) => EnqueueKeeps(g, i, pick);
      case Activate(ref) => if ref < |g.ops| { ActivateKeeps(g, i, ref); }
      case Abort(_, _) => AbortKeeps(g, i, pick);
      case Publish(_) => PublishKeeps(g, i, pick);
      case Sweep(_, _, _, _, _) => SweepTaskKeeps(g, i, pick);
    }
  }

  // ==== the reactor and the seal ====

  lemma SubmitKeeps(g: Registry, immediate: bool)
    requires Inv(g)
    ensures Inv(SubmitNext(g, immediate))
  {
    hide MapInv, OwnerInv, AbortInv, ShutdownInv, OpsOk, CallbackInv;
    if g.batch != [] {
      var ref := g.batch[0];
      if ref < |g.ops| && !g.ops[ref].terminal && g.ops[ref].kind.Request? && immediate {
        CommitRequestKeeps(g, ref);
        CommittedIsTerminal(g, ref);
        MovesOn(CommitRequest(g, ref), g.batch[1..], g.queue, g.active, g.hand);
      } else if ref < |g.ops| && !g.ops[ref].terminal && g.ops[ref].kind.Request? {
        MovesOn(g, g.batch[1..], g.queue, g.active + {ref}, g.hand);
      } else {
        MovesOn(g, g.batch[1..], g.queue, g.active, g.hand);
      }
    }
  }

  lemma ExtractStays(op: Op)
    ensures Extract(op).terminal == op.terminal && Extract(op).kind == op.kind && Extract(op).id == op.id
  {
  }

  lemma CommittedIsTerminal(g: Registry, ref: nat)
    ensures var h := CommitRequest(g, ref);
            && |h.ops| == |g.ops|
            && (ref < |g.ops| ==> h.ops[ref].kind == g.ops[ref].kind && (g.ops[ref].kind.Request? ==> h.ops[ref].terminal))
            && h.queue == g.queue && h.batch == g.batch && h.active == g.active && h.hand == g.hand
  {
    hide Extract, HasJob;
    if ref < |g.ops| { ExtractStays(Commit(g.ops[ref], false, None, None)); }
  }

  /** Requests may be handed on within the reactor as long as the live ones stay in some hand. */
  lemma MovesOn(g: Registry, batch: seq<nat>, queue: seq<nat>, active: set<nat>, hand: Option<nat>)
    requires Inv(g)
    requires forall ref: nat :: ref < |g.ops| && g.ops[ref].kind.Request? && !g.ops[ref].terminal && Held(g, ref) ==>
               ref in queue || ref in batch || ref in active || hand == Some(ref)
    ensures Inv(g.(batch := batch, queue := queue, active := active, hand := hand))
  {
    hide MapInv, OwnerInv, AbortInv, ShutdownInv, OpsOk, CallbackInv;
    var h := g.(batch := batch, queue := queue, active := active, hand := hand);
    SameMaps(g, h);
    SameCallbacks(g, h);
    forall ref: nat | ref < |h.ops| && h.ops[ref].kind.Request? && !h.ops[ref].terminal ensures Held(h, ref) {
      assert Held(g, ref);
    }
  }

  /** The stop flag means that no operation is left that is not terminal. */
  lemma StoppedMeansTerminal(g: Registry)
    requires Inv(g) && g.stopped
    ensures g.phase.ShuttingDown? && forall ref: nat :: ref < |g.ops| ==> g.ops[ref].terminal
  {
    hide MapInv, OwnerInv, AbortInv, OpsOk, CallbackInv, ReactorInv;
  }

  lemma ReactorKeeps(g: Registry, step: Step)
    requires Inv(g)
    requires step.StepDrain? || step.StepReap? || step.StepTakeCompletion? || step.StepClearActive?
    ensures Inv(Do(g, step))
  {
    hide Inv;
    match step {
      case StepDrain => if g.batch == [] { MovesOn(g, g.queue, [], g.active, g.hand); }
      case StepReap(ref) => if TerminalRef(g, ref) { MovesOn(g, g.batch, g.queue, g.active - {ref}, g.hand); }
      case StepTakeCompletion(ref) =>
        if g.hand.None? && ref in g.active { MovesOn(g, g.batch, g.queue, g.active - {ref}, Some(ref)); }
      case StepClearActive =>
        if g.stopped {
          StoppedMeansTerminal(g);
          MovesOn(g, g.batch, g.queue, {}, g.hand);
        }
    }
  }

  lemma CommitHandKeeps(g: Registry)
    requires Inv(g) && g.hand.Some?
    ensures Inv(CommitRequest(g, g.hand.value).(hand := None))
  {
    hide MapInv, OwnerInv, AbortInv, ShutdownInv, OpsOk, CallbackInv, ReactorInv, CommitRequest;
    CommitRequestKeeps(g, g.hand.value);
    CommittedIsTerminal(g, g.hand.value);
    MovesOn(CommitRequest(g, g.hand.value), g.batch, g.queue, g.active, None);
  }

  /** The counter, once zero after admission closed, stays zero: no later activation can meet the seal. */
  lemma SealKeeps(g: Registry)
    requires Inv(g)
    ensures !g.phase.Running? && g.activations == 0 ==> Inv(g.(seal := Awaited))
    ensures !g.seal.Unsealed? ==> Inv(g.(seal := Sealed))
  {
    hide MapInv, OwnerInv, AbortInv, ShutdownInv, OpsOk;
    SameMaps(g, g.(seal := Awaited));
    SameMaps(g, g.(seal := Sealed));
  }

  /** Every critical section keeps the invariant, whatever tasks are under way. */
  lemma StepKeeps(g: Registry, step: Step)
    requires Inv(g)
    ensures Inv(Do(g, step))
  {
    hide Inv, Accept, AcceptUpgrade, CommitRequest, TcpConnected, TcpFails, TlsTransport, TlsConnected, TlsFails, AbortIo,
         ReleaseIo, BeginSweep, TaskStep, SubmitNext;
    match step {
      case StepAccept(kind, callback, full) => AcceptKeeps(g, kind, callback, full);
      case StepUpgrade(io, callback) => UpgradeKeeps(g, io, callback);
      case StepCommit(ref) => CommitRequestKeeps(g, ref);
      case StepTcpConnected(ref) => TcpConnectedKeeps(g, ref);
      case StepTcpFails(ref) => ConnectFailsKeeps(g, ref);
      case StepTlsTransport(ref) => TlsTransportKeeps(g, ref);
      case StepTlsConnected(ref) => ConnectFailsKeeps(g, ref);
      case StepTlsFails(ref) => ConnectFailsKeeps(g, ref);
      case StepAbortIo(io) => AbortIoKeeps(g, io);
      case StepReleaseIo(io) => ReleaseIoKeeps(g, io);
      case StepCancelAll => SweepKeeps(g, false);
      case StepShutdown => SweepKeeps(g, true);
      case StepTask(i, pick) => if i < |g.tasks| { TaskKeeps(g, i, pick); }
      case StepSubmit(immediate) => SubmitKeeps(g, immediate);
      case StepCommitHand => if g.hand.Some? { CommitHandKeeps(g); }
      case StepAwait => SealKeeps(g);
      case StepSeal => SealKeeps(g);
      case _ => ReactorKeeps(g, step);
    }
  }
}
