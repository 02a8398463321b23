/** What the lifecycle invariant means for every run: arbitration, delivery, callbacks and shutdown. */
module LifecycleRuns {
  import opened Bytes
  import opened Lifecycle
  import opened LifecycleProof

  lemma {:induction false} RunKeeps(steps: seq<Step>, k: nat)
    requires k <= |steps|
    ensures Inv(After(steps, k))
  {
    hide Inv, Do;
    if k == 0 {
      StartIsFine();
    } else {
      RunKeeps(steps, k - 1);
      StepKeeps(After(steps, k - 1), steps[k - 1]);
    }
  }

  lemma StartIsFine()
    ensures Inv(START)
  {
  }

  // ---- how one state object changes ----

  /**
   * A terminal outcome never changes, nothing is taken back, and a TLS operation that fails notes
   * the transport `live` for it at that moment.
   */
  ghost predicate Evolves(a: Op, b: Op, live: Option<nat>) {
    && b.id == a.id && b.kind == a.kind
    && (a.terminal ==> b.terminal && b.failed == a.failed && b.io == a.io && b.wins == a.wins)
    && (a.ready ==> b.ready) && (a.active ==> b.active)
    && a.jobs <= b.jobs && b.jobs + Bit(b.callback) == a.jobs + Bit(a.callback)
    && (!a.terminal && b.terminal && b.failed && b.kind.Tls? ==> b.io == live)
  }

  /** Every object of `after` evolved from the one before; `touched` is the one that may have changed. */
  ghost predicate OnlyEvolves(g: Registry, after: seq<Op>) {
    |g.ops| <= |after| && forall ref: nat :: ref < |g.ops| ==> Evolves(g.ops[ref], after[ref], LiveIo(g, g.ops[ref].id))
  }

  lemma ExtractEvolves(a: Op, b: Op, live: Option<nat>)
    requires Evolves(a, b, live)
    ensures Evolves(a, Extract(b), live)
  {
  }

  lemma CommitEvolves(op: Op, failed: bool, io: Option<nat>, owner: Option<nat>, live: Option<nat>)
    requires !op.terminal && (failed && op.kind.Tls? ==> io == live)
    ensures Evolves(op, Commit(op, failed, io, owner), live)
    ensures Evolves(op, MarkReady(Commit(op, failed, io, owner)), live)
  {
  }

  lemma MildEvolves(op: Op, live: Option<nat>)
    ensures Evolves(op, op, live) && Evolves(op, MarkReady(op), live)
    ensures Evolves(op, op.(active := true), live) && Evolves(op, op.(handedOver := true), live)
  {
  }

  lemma OneEvolves(g: Registry, ref: nat, op: Op)
    requires ref < |g.ops| && Evolves(g.ops[ref], op, LiveIo(g, g.ops[ref].id))
    ensures OnlyEvolves(g, g.ops[ref := op])
  {
    hide Evolves;
    forall other: nat | other < |g.ops|
      ensures Evolves(g.ops[other], g.ops[ref := op][other], LiveIo(g, g.ops[other].id))
    {
      MildEvolves(g.ops[other], LiveIo(g, g.ops[other].id));
    }
  }

  lemma NoneEvolves(g: Registry, after: seq<Op>)
    requires g.ops <= after
    ensures OnlyEvolves(g, after)
  {
    hide Evolves;
    forall other: nat | other < |g.ops|
      ensures Evolves(g.ops[other], after[other], LiveIo(g, g.ops[other].id))
    {
      MildEvolves(g.ops[other], LiveIo(g, g.ops[other].id));
    }
  }

  lemma CommitRequestEvolves(g: Registry, ref: nat)
    ensures OnlyEvolves(g, CommitRequest(g, ref).ops)
  {
    hide Evolves, OnlyEvolves, Extract, Commit, HasJob;
    NoneEvolves(g, g.ops);
    if ref < |g.ops| && g.ops[ref].kind.Request? && !g.ops[ref].terminal {
      var op := Commit(g.ops[ref], false, None, None);
      CommitEvolves(g.ops[ref], false, None, None, LiveIo(g, g.ops[ref].id));
      ExtractEvolves(g.ops[ref], op, LiveIo(g, g.ops[ref].id));
      OneEvolves(g, ref, Extract(op));
    }
  }

  lemma TcpEvolves(g: Registry, ref: nat)
    requires Inv(g)
    ensures OnlyEvolves(g, TcpConnected(g, ref).ops) && OnlyEvolves(g, TcpFails(g, ref).ops)
  {
    hide Inv, Evolves, OnlyEvolves, Extract, HasJob, Commit, MarkReady;
    NoneEvolves(g, g.ops);
    if InConnects(g, ref) {
      var op, live := g.ops[ref], LiveIo(g, g.ops[ref].id);
      StillPending(g, ref);
      CommitEvolves(op, false, None, None, live);
      ExtractEvolves(op, MarkReady(Commit(op, false, None, None)), live);
      OneEvolves(g, ref, Extract(MarkReady(Commit(op, false, None, None))));
      CommitEvolves(op, true, None, Some(|g.tasks|), live);
      OneEvolves(g, ref, Commit(op, true, None, Some(|g.tasks|)));
    }
  }

  lemma StillPending(g: Registry, ref: nat)
    requires Inv(g) && (InConnects(g, ref) || InTls(g, ref))
    ensures !g.ops[ref].terminal
  {
    hide OwnerInv, AbortInv, ShutdownInv, ReactorInv, CallbackInv, MapInv;
    PendingConnect(g, ref);
  }

  lemma TlsEvolves(g: Registry, ref: nat)
    requires Inv(g)
    ensures OnlyEvolves(g, TlsConnected(g, ref).ops) && OnlyEvolves(g, TlsFails(g, ref).ops)
    ensures OnlyEvolves(g, TlsTransport(g, ref).ops)
  {
    hide Inv, Evolves, OnlyEvolves, Commit;
    NoneEvolves(g, g.ops);
    if InTls(g, ref) {
      var op, live := g.ops[ref], LiveIo(g, g.ops[ref].id);
      StillPending(g, ref);
      MildEvolves(op, live);
      OneEvolves(g, ref, op.(handedOver := true));
      CommitEvolves(op, false, None, Some(|g.tasks|), live);
      OneEvolves(g, ref, Commit(op, false, None, Some(|g.tasks|)));
      CommitEvolves(op, true, live, Some(|g.tasks|), live);
      OneEvolves(g, ref, Commit(op, true, live, Some(|g.tasks|)));
    }
  }

  lemma SweepEvolves(g: Registry, last: bool)
    requires Inv(g)
    ensures OnlyEvolves(g, BeginSweep(g, last).ops)
  {
    hide Inv, Evolves, Commit;
    forall ref: nat | ref < |g.ops| ensures Evolves(g.ops[ref], SweptOp(g, ref), LiveIo(g, g.ops[ref].id)) {
      var op, live := g.ops[ref], LiveIo(g, g.ops[ref].id);
      MildEvolves(op, live);
      if InConnects(g, ref) || InTls(g, ref) {
        StillPending(g, ref);
        if op.kind.Tcp? { CommitEvolves(op, true, None, Some(|g.tasks|), live); }
        CommitEvolves(op, true, live, Some(|g.tasks|), live);
      }
    }
  }

  lemma PublicationEvolves(g: Registry, i: nat, ref: nat, rest: Task)
    requires i < |g.tasks| && ref < |g.ops|
    ensures OnlyEvolves(g, Publication(g, i, ref, rest).ops)
  {
    hide Evolves, OnlyEvolves, Extract, HasJob, MarkReady;
    var op, live := g.ops[ref], LiveIo(g, g.ops[ref].id);
    MildEvolves(op, live);
    ExtractEvolves(op, MarkReady(op), live);
    OneEvolves(g, ref, Extract(MarkReady(op)));
  }

  lemma ActivateEvolves(g: Registry, i: nat, ref: nat)
    requires i < |g.tasks| && ref < |g.ops|
    ensures OnlyEvolves(g, ActivateTask(g, i, ref).ops)
  {
    hide Evolves, OnlyEvolves, Extract, HasJob, LiveIo;
    var op, live := g.ops[ref], LiveIo(g, g.ops[ref].id);
    MildEvolves(op, live);
    ExtractEvolves(op, op.(active := true), live);
    OneEvolves(g, ref, Extract(op.(active := true)));
    OneEvolves(g, ref, op.(active := true));
  }

  lemma SweepTaskEvolves(g: Registry, i: nat, pick: Pick)
    requires i < |g.tasks| && g.tasks[i].Sweep?
    ensures OnlyEvolves(g, SweepTask(g, i, pick).ops)
  {
    hide Publication, CommitRequest, OnlyEvolves;
    NoneEvolves(g, g.ops);
    var t := g.tasks[i];
    match pick {
      case PickRequest(ref) =>
        var h := g.(tasks := g.tasks[i := t.(requests := t.requests - {ref})]);
        CommitRequestEvolves(h, ref);
        SameStart(g, h, CommitRequest(h, ref).ops);
      case PickTcp(ref) => if ref < |g.ops| { PublicationEvolves(g, i, ref, t.(tcps := t.tcps - {ref})); }
      case PickTls(ref) => if ref < |g.ops| { PublicationEvolves(g, i, ref, t.(tlss := t.tlss - {ref})); }
      case _ =>
    }
  }

  lemma SameStart(g: Registry, h: Registry, after: seq<Op>)
    requires OnlyEvolves(h, after) && g.live == h.live && g.ops == h.ops
    ensures OnlyEvolves(g, after)
  {
    hide Evolves;
    assert forall id: nat :: LiveIo(g, id) == LiveIo(h, id);
  }

  lemma OtherTaskEvolves(g: Registry, i: nat, pick: Pick)
    requires i < |g.tasks| && !g.tasks[i].Activate? && !g.tasks[i].Publish? && !g.tasks[i].Sweep?
    ensures TaskStep(g, i, pick).ops == g.ops
  {
    hide SweepTask, Publication, ActivateTask, AbortIo;
    if g.tasks[i].Abort? { AbortIoOps(g, g.tasks[i].io); }
  }

  lemma AbortIoOps(g: Registry, io: nat)
    ensures AbortIo(g, io).ops == g.ops && AbortIo(g, io).phase == g.phase && AbortIo(g, io).stopped == g.stopped
  {
  }

  lemma TaskEvolves(g: Registry, i: nat, pick: Pick)
    requires i < |g.tasks|
    ensures OnlyEvolves(g, TaskStep(g, i, pick).ops)
  {
    NoneEvolves(g, g.ops);
    hide Publication, ActivateTask, SweepTask, OnlyEvolves, AbortIo;
    if g.tasks[i].Activate? {
      if g.tasks[i].ref < |g.ops| { ActivateEvolves(g, i, g.tasks[i].ref); }
    } else if g.tasks[i].Publish? {
      if g.tasks[i].ref < |g.ops| { PublicationEvolves(g, i, g.tasks[i].ref, Finished); }
    } else if g.tasks[i].Sweep? {
      SweepTaskEvolves(g, i, pick);
    } else {
      hide TaskStep;
      OtherTaskEvolves(g, i, pick);
    }
  }

  lemma AdmittedOps(g: Registry, id: nat, kind: Kind, callback: bool, nextId: nat)
    ensures Admitted(g, id, kind, callback, nextId).ops == g.ops + [NewOp(id, kind, callback)]
  {
  }

  lemma AcceptOps(g: Registry, kind: Kind, callback: bool, full: bool)
    ensures g.ops <= Accept(g, kind, callback, full).ops
    ensures !g.phase.Running? ==> Accept(g, kind, callback, full).ops == g.ops
  {
    hide Admitted;
    AdmittedOps(g, g.nextId, kind, callback, g.nextId + 1);
  }

  lemma UpgradeOps(g: Registry, io: nat, callback: bool)
    ensures g.ops <= AcceptUpgrade(g, io, callback).ops
    ensures !g.phase.Running? ==> AcceptUpgrade(g, io, callback).ops == g.ops
  {
    hide Admitted;
    if CanUpgrade(g, io) { AdmittedOps(g, g.ios[io].id, Tls(true), callback, g.nextId); }
  }

  /** The steps of the reactor and the transports that touch no state object. */
  predicate Distant(step: Step) {
    step.StepAbortIo? || step.StepReleaseIo? || step.StepDrain? || step.StepReap? || step.StepTakeCompletion?
    || step.StepClearActive? || step.StepAwait? || step.StepSeal?
  }

  lemma DistantOps(g: Registry, step: Step)
    requires Distant(step)
    ensures Do(g, step).ops == g.ops
  {
    hide Accept, AcceptUpgrade, CommitRequest, TcpConnected, TcpFails, TlsTransport, TlsConnected, TlsFails,
         BeginSweep, TaskStep, SubmitNext, AbortIo;
    if step.StepAbortIo? { AbortIoOps(g, step.io); }
  }

  lemma SubmitOps(g: Registry, immediate: bool)
    ensures var h := SubmitNext(g, immediate);
            h.ops == g.ops || (g.batch != [] && h.ops == CommitRequest(g, g.batch[0]).ops)
  {
    hide CommitRequest;
  }

  /** One critical section changes state objects only in the permitted ways. */
  lemma StepEvolves(g: Registry, step: Step)
    requires Inv(g)
    ensures OnlyEvolves(g, Do(g, step).ops)
  {
    hide Inv, Accept, AcceptUpgrade, CommitRequest, TcpConnected, TcpFails, TlsTransport, TlsConnected, TlsFails,
         BeginSweep, TaskStep, OnlyEvolves, AbortIo, ReleaseIo, SubmitNext;
    NoneEvolves(g, g.ops);
    match step {
      case StepAccept(kind, callback, full) =>
        AcceptOps(g, kind, callback, full);
        NoneEvolves(g, Accept(g, kind, callback, full).ops);
      case StepUpgrade(io, callback) =>
        UpgradeOps(g, io, callback);
        NoneEvolves(g, AcceptUpgrade(g, io, callback).ops);
      case StepCommit(r) => CommitRequestEvolves(g, r);
      case StepTcpConnected(r) => TcpEvolves(g, r);
      case StepTcpFails(r) => TcpEvolves(g, r);
      case StepTlsTransport(r) => TlsEvolves(g, r);
      case StepTlsConnected(r) => TlsEvolves(g, r);
      case StepTlsFails(r) => TlsEvolves(g, r);
      case StepCancelAll => SweepEvolves(g, false);
      case StepShutdown => SweepEvolves(g, true);
      case StepTask(i, pick) => if i < |g.tasks| { TaskEvolves(g, i, pick); }
      case StepSubmit(immediate) =>
        SubmitOps(g, immediate);
        if g.batch != [] { CommitRequestEvolves(g, g.batch[0]); }
      case StepCommitHand => if g.hand.Some? { CommitRequestEvolves(g, g.hand.value); }
      case _ => DistantOps(g, step);
    }
  }

  // ---- arbitration ----

  lemma {:induction false} RunEvolves(steps: seq<Step>, j: nat, k: nat, ref: nat)
    requires j <= k <= |steps| && ref < |After(steps, j).ops| && After(steps, j).ops[ref].terminal
    ensures ref < |After(steps, k).ops|
    ensures var a, b := After(steps, j).ops[ref], After(steps, k).ops[ref];
            && b.terminal && b.failed == a.failed && b.io == a.io && b.wins == a.wins && b.kind == a.kind && b.id == a.id
            && (a.ready ==> b.ready)
    decreases k
  {
    hide Inv, Do;
    if j < k {
      RunEvolves(steps, j, k - 1, ref);
      RunKeeps(steps, k - 1);
      StepEvolves(After(steps, k - 1), steps[k - 1]);
    }
  }

  /**
   * Terminal arbitration. Under every interleaving an operation is decided at most once and stays
   * as decided; a connect still in its map is undecided; a decided connect has been published, or
   * exactly one task still owes its publication; its callback job is taken out at most once, and
   * has been taken out once the callback is active and the result deliverable.
   */
  lemma OneWinner(steps: seq<Step>, k: nat, ref: nat)
    requires k <= |steps| && ref < |After(steps, k).ops|
    ensures var g, op := After(steps, k), After(steps, k).ops[ref];
            && op.wins <= 1 && (op.terminal <==> op.wins == 1) && op.publications <= 1 && op.jobs <= 1
            && (InConnects(g, ref) || InTls(g, ref) ==> !op.terminal)
            && (op.jobs == 1 ==> op.active && (if op.kind.Request? then op.terminal else op.ready))
            && (op.active && (if op.kind.Request? then op.terminal else op.ready) ==> !op.callback)
            && (op.terminal && !op.kind.Request? && op.publications == 0 ==>
                  exists i: nat :: i < |g.tasks| && Owes(g.tasks[i], ref)
                                   && forall j: nat :: j < |g.tasks| && Owes(g.tasks[j], ref) ==> j == i)
            && (op.publications == 1 ==> forall j: nat :: j < |g.tasks| ==> !Owes(g.tasks[j], ref))
  {
    RunKeeps(steps, k);
    var g, op := After(steps, k), After(steps, k).ops[ref];
    hide After, MapInv, AbortInv, ShutdownInv, ReactorInv, CallbackInv, OwnerInv;
    assert OpOk(op);
    if InConnects(g, ref) || InTls(g, ref) { PendingConnect(g, ref); }
    forall j: nat | j < |g.tasks| && Owes(g.tasks[j], ref) ensures op.owner == Some(j) { OwnerAt(g, j, ref); }
    OwnerAt(g, 0, ref);
  }

  /** The transport noted with a failure is aborted before the failure is visible. */
  lemma FailedIsCut(steps: seq<Step>, j: nat, k: nat, ref: nat)
    requires j < k <= |steps| && ref < |After(steps, j).ops|
    requires var a, b := After(steps, j).ops[ref], After(steps, j + 1);
             a.kind.Tls? && !a.terminal && ref < |b.ops| && b.ops[ref].terminal && b.ops[ref].failed
    requires ref < |After(steps, k).ops| && After(steps, k).ops[ref].ready
    ensures var g, h := After(steps, j), After(steps, k);
            var io := LiveIo(g, g.ops[ref].id);
            io.Some? ==> io.value < |h.ios| && h.ios[io.value].aborted
  {
    hide Inv, Do;
    RunKeeps(steps, j);
    StepEvolves(After(steps, j), steps[j]);
    RunEvolves(steps, j + 1, k, ref);
    RunKeeps(steps, k);
    ReadyIsCut(After(steps, k), ref);
  }

  lemma ReadyIsCut(g: Registry, ref: nat)
    requires Inv(g) && ref < |g.ops| && g.ops[ref].ready
    ensures Cut(g.ios, g.ops[ref])
  {
    hide MapInv, OwnerInv, ShutdownInv, ReactorInv, CallbackInv, OpsOk, TaskOk;
  }

  // ---- shutdown ----

  /**
   * An accepted operation that is not terminal is in its registry map; a request that is not
   * terminal is also queued, or active in the reactor, whenever the reactor is between drives.
   */
  lemma NothingIsForgotten(steps: seq<Step>, k: nat, ref: nat)
    requires k <= |steps| && ref < |After(steps, k).ops| && !After(steps, k).ops[ref].terminal
    ensures var g := After(steps, k);
            match g.ops[ref].kind
            case Request => InRequests(g, ref) && (g.batch == [] && g.hand.None? ==> ref in g.queue || ref in g.active)
            case Tcp => InConnects(g, ref)
            case Tls(_) => InTls(g, ref)
  {
    RunKeeps(steps, k);
    var g := After(steps, k);
    hide After, OwnerInv, AbortInv, ShutdownInv, CallbackInv, OpsOk, IdsOk, LiveOk;
    if g.ops[ref].kind.Request? { assert Held(g, ref); }
  }

  /** The Engine stays closed: no new operation, no way back. */
  ghost predicate Shut(g: Registry, h: Registry) {
    h.phase.ShuttingDown? && |h.ops| == |g.ops| && (g.stopped ==> h.stopped)
  }

  lemma ShutCommits(g: Registry, ref: nat)
    requires g.phase.ShuttingDown?
    ensures Shut(g, CommitRequest(g, ref)) && Shut(g, TcpFails(g, ref)) && Shut(g, TlsFails(g, ref))
  {
    hide Extract, HasJob, Commit;
  }

  lemma ShutSweeps(g: Registry, last: bool)
    requires g.phase.ShuttingDown?
    ensures Shut(g, BeginSweep(g, last))
  {
    hide SweptOp;
  }

  lemma ShutAccepts(g: Registry, kind: Kind, callback: bool, full: bool, io: nat)
    requires g.phase.ShuttingDown?
    ensures Accept(g, kind, callback, full) == g && AcceptUpgrade(g, io, callback) == g
    ensures forall ref: nat :: TcpConnected(g, ref) == g && TlsTransport(g, ref) == g && TlsConnected(g, ref) == g
  {
  }

  lemma ShutPublishes(g: Registry, i: nat, ref: nat, rest: Task)
    requires g.phase.ShuttingDown? && i < |g.tasks| && ref < |g.ops|
    ensures Shut(g, Publication(g, i, ref, rest))
  {
    hide Extract, HasJob, MarkReady;
  }

  lemma ShutActivates(g: Registry, i: nat, ref: nat)
    requires g.phase.ShuttingDown? && i < |g.tasks| && ref < |g.ops|
    ensures Shut(g, ActivateTask(g, i, ref))
  {
    hide Extract, HasJob;
  }

  lemma ShutSweepTask(g: Registry, i: nat, pick: Pick)
    requires g.phase.ShuttingDown? && i < |g.tasks| && g.tasks[i].Sweep?
    ensures Shut(g, SweepTask(g, i, pick))
  {
    hide CommitRequest, Publication, AbortIo;
    var t := g.tasks[i];
    match pick {
      case PickRequest(ref) => ShutCommits(g.(tasks := g.tasks[i := t.(requests := t.requests - {ref})]), ref);
      case PickTcp(ref) => if ref < |g.ops| { ShutPublishes(g, i, ref, t.(tcps := t.tcps - {ref})); }
      case PickTls(ref) => if ref < |g.ops| { ShutPublishes(g, i, ref, t.(tlss := t.tlss - {ref})); }
      case PickIo(io) => AbortIoOps(g, io);
      case PickEnd =>
    }
  }

  lemma ShutTask(g: Registry, i: nat, pick: Pick)
    requires g.phase.ShuttingDown? && i < |g.tasks|
    ensures Shut(g, TaskStep(g, i, pick))
  {
    hide SweepTask, Publication, ActivateTask, AbortIo;
    match g.tasks[i] {
      case Activate(ref) => if ref < |g.ops| { ShutActivates(g, i, ref); }
      case Publish(ref) => if ref < |g.ops| { ShutPublishes(g, i, ref, Finished); }
      case Sweep(_, _, _, _, _) => ShutSweepTask(g, i, pick);
      case Abort(_, io) => AbortIoOps(g, io);
      case _ =>
    }
  }

  lemma ReleaseIoOps(g: Registry, io: nat)
    ensures ReleaseIo(g, io).ops == g.ops && ReleaseIo(g, io).phase == g.phase && ReleaseIo(g, io).stopped == g.stopped
  {
    hide LiveIo;
  }

  lemma ShutDistant(g: Registry, step: Step)
    requires g.phase.ShuttingDown? && Distant(step)
    ensures Shut(g, Do(g, step))
  {
    hide Accept, AcceptUpgrade, CommitRequest, TcpConnected, TcpFails, TlsTransport, TlsConnected, TlsFails,
         BeginSweep, TaskStep, SubmitNext, AbortIo, ReleaseIo;
    if step.StepAbortIo? { AbortIoOps(g, step.io); }
    if step.StepReleaseIo? { ReleaseIoOps(g, step.io); }
  }

  lemma ShutSubmits(g: Registry, immediate: bool)
    requires g.phase.ShuttingDown?
    ensures Shut(g, SubmitNext(g, immediate))
  {
    hide CommitRequest, TcpFails, TlsFails;
    if g.batch != [] { ShutCommits(g, g.batch[0]); }
  }

  lemma ShutHand(g: Registry)
    requires g.phase.ShuttingDown? && g.hand.Some?
    ensures Shut(g, CommitRequest(g, g.hand.value).(hand := None)) && Shut(g, g)
  {
    hide CommitRequest, TcpFails, TlsFails;
    ShutCommits(g, g.hand.value);
  }

  lemma ShutSame(g: Registry)
    requires g.phase.ShuttingDown?
    ensures Shut(g, g)
  {
  }

  lemma StaysShut(g: Registry, step: Step)
    requires g.phase.ShuttingDown?
    ensures Shut(g, Do(g, step))
  {
    hide Accept, AcceptUpgrade, CommitRequest, TcpConnected, TcpFails, TlsTransport, TlsConnected, TlsFails, AbortIo,
         ReleaseIo, BeginSweep, TaskStep, SubmitNext, Shut;
    ShutSame(g);
    match step {
      case StepAccept(kind, callback, full) => ShutAccepts(g, kind, callback, full, 0);
      case StepUpgrade(io, callback) => ShutAccepts(g, Request, callback, false, io);
      case StepCommit(ref) => ShutCommits(g, ref);
      case StepTcpConnected(ref) => ShutAccepts(g, Request, false, false, 0);
      case StepTcpFails(ref) => ShutCommits(g, ref);
      case StepTlsTransport(ref) => ShutAccepts(g, Request, false, false, 0);
      case StepTlsConnected(ref) => ShutAccepts(g, Request, false, false, 0);
      case StepTlsFails(ref) => ShutCommits(g, ref);
      case StepCancelAll => ShutSweeps(g, false);
      case StepShutdown => ShutSweeps(g, true);
      case StepTask(i, pick) => if i < |g.tasks| { ShutTask(g, i, pick); }
      case StepSubmit(immediate) => ShutSubmits(g, immediate);
      case StepCommitHand => if g.hand.Some? { ShutHand(g); }
      case _ => ShutDistant(g, step);
    }
  }

  /**
   * Shutdown completeness: once `begin_shutdown` has stored the stop flag, every operation ever
   * accepted is terminal, and from then on none is accepted.
   */
  lemma {:induction false} StopIsComplete(steps: seq<Step>, j: nat, k: nat)
    requires j <= k <= |steps| && After(steps, j).stopped
    ensures var g, h := After(steps, j), After(steps, k);
            && h.stopped && |h.ops| == |g.ops| && forall ref: nat :: ref < |h.ops| ==> h.ops[ref].terminal
    decreases k
  {
    hide Inv, Do;
    RunKeeps(steps, j);
    RunKeeps(steps, k);
    StoppedMeansTerminal(After(steps, j));
    if j < k {
      StopIsComplete(steps, j, k - 1);
      RunKeeps(steps, k - 1);
      StoppedMeansTerminal(After(steps, k - 1));
      StaysShut(After(steps, k - 1), steps[k - 1]);
    }
    StoppedMeansTerminal(After(steps, k));
  }

  function Size(t: Task): (n: nat)
    requires t.Sweep?
  {
    |t.requests| + |t.tcps| + |t.ios| + |t.tlss|
  }

  /** The next thing a sweep does. */
  ghost function NextPick(t: Task): (pick: Pick)
    requires t.Sweep?
  {
    if t.requests != {} then var ref :| ref in t.requests; PickRequest(ref)
    else if t.tcps != {} then var ref :| ref in t.tcps; PickTcp(ref)
    else if t.ios != {} then var io :| io in t.ios; PickIo(io)
    else if t.tlss != {} then var ref :| ref in t.tlss; PickTls(ref)
    else PickEnd
  }

  lemma SweepRefs(g: Registry, i: nat)
    requires Inv(g) && i < |g.tasks| && g.tasks[i].Sweep?
    ensures forall ref :: ref in g.tasks[i].tcps || ref in g.tasks[i].tlss ==> ref < |g.ops|
  {
    hide MapInv, AbortInv, ShutdownInv, ReactorInv, CallbackInv, OpsOk, OwnerInv;
    forall ref | ref in g.tasks[i].tcps || ref in g.tasks[i].tlss ensures ref < |g.ops| { OwnerAt(g, i, ref); }
  }

  lemma CommitTasks(g: Registry, ref: nat)
    ensures g.tasks <= CommitRequest(g, ref).tasks
  {
    hide Extract, HasJob, Commit;
  }

  lemma PublicationTasks(g: Registry, i: nat, ref: nat, rest: Task)
    requires i < |g.tasks| && ref < |g.ops|
    ensures var h := Publication(g, i, ref, rest); i < |h.tasks| && h.tasks[i] == rest
  {
    hide Extract, HasJob, MarkReady;
  }

  lemma RequestPicked(g: Registry, i: nat, ref: nat)
    requires i < |g.tasks| && g.tasks[i].Sweep? && ref in g.tasks[i].requests
    ensures var t, h := g.tasks[i], SweepTask(g, i, PickRequest(ref));
            i < |h.tasks| && h.tasks[i] == t.(requests := t.requests - {ref})
  {
    hide CommitRequest;
    var t := g.tasks[i];
    CommitTasks(g.(tasks := g.tasks[i := t.(requests := t.requests - {ref})]), ref);
  }

  /** The task after a pick. */
  function Crossed(t: Task, pick: Pick): (r: Task)
    requires t.Sweep?
  {
    match pick
    case PickRequest(ref) => t.(requests := t.requests - {ref})
    case PickTcp(ref) => t.(tcps := t.tcps - {ref})
    case PickIo(io) => t.(ios := t.ios - {io})
    case PickTls(ref) => t.(tlss := t.tlss - {ref})
    case PickEnd => Finished
  }

  lemma CrossedShrinks(t: Task)
    requires t.Sweep?
    ensures var r := Crossed(t, NextPick(t));
            if Size(t) == 0 then NextPick(t).PickEnd?
            else r.Sweep? && r.last == t.last && Size(r) < Size(t)
  {
  }

  lemma OtherPicked(g: Registry, i: nat, pick: Pick)
    requires i < |g.tasks| && g.tasks[i].Sweep? && pick == NextPick(g.tasks[i]) && !pick.PickRequest?
    requires pick.PickTcp? || pick.PickTls? ==> pick.ref < |g.ops|
    ensures var h := SweepTask(g, i, pick);
            && i < |h.tasks| && h.tasks[i] == Crossed(g.tasks[i], pick)
            && (pick.PickEnd? ==> h.stopped == (g.stopped || g.tasks[i].last))
  {
    hide CommitRequest, Publication, AbortIo;
    if pick.PickTcp? || pick.PickTls? { PublicationTasks(g, i, pick.ref, Crossed(g.tasks[i], pick)); }
  }

  lemma PickInRange(g: Registry, i: nat)
    requires Inv(g) && i < |g.tasks| && g.tasks[i].Sweep?
    ensures var pick := NextPick(g.tasks[i]); pick.PickTcp? || pick.PickTls? ==> pick.ref < |g.ops|
    ensures var pick := NextPick(g.tasks[i]); pick.PickRequest? ==> pick.ref in g.tasks[i].requests
  {
    hide Inv;
    SweepRefs(g, i);
  }

  lemma SweepShrinks(g: Registry, i: nat)
    requires Inv(g) && i < |g.tasks| && g.tasks[i].Sweep?
    ensures var t, h := g.tasks[i], SweepTask(g, i, NextPick(g.tasks[i]));
            && i < |h.tasks|
            && (Size(t) == 0 ==> h.tasks[i].Finished? && h.stopped == (g.stopped || t.last))
            && (Size(t) > 0 ==> h.tasks[i].Sweep? && h.tasks[i].last == t.last && Size(h.tasks[i]) < Size(t))
  {
    hide Inv, SweepTask, NextPick, Size;
    PickInRange(g, i);
    CrossedShrinks(g.tasks[i]);
    var pick := NextPick(g.tasks[i]);
    if pick.PickRequest? { RequestPicked(g, i, pick.ref); } else { OtherPicked(g, i, pick); }
  }

  /** The rest of `begin_shutdown` or `cancel_all`, with nobody else running in between. */
  ghost function RunSweep(g: Registry, i: nat): (h: Registry)
    requires Inv(g) && i < |g.tasks| && g.tasks[i].Sweep?
    ensures Inv(h) && (g.tasks[i].last ==> h.stopped) && i < |h.tasks| && h.tasks[i].Finished?
    decreases Size(g.tasks[i])
  {
    SweepTaskKeeps(g, i, NextPick(g.tasks[i]));
    SweepShrinks(g, i);
    var h := SweepTask(g, i, NextPick(g.tasks[i]));
    if Size(g.tasks[i]) == 0 then h else RunSweep(h, i)
  }

  /** A shutdown is never stuck: from wherever it stands it can finish alone, and then everything is terminal. */
  lemma ShutdownCanFinish(steps: seq<Step>, k: nat, i: nat)
    requires k <= |steps| && i < |After(steps, k).tasks|
    requires After(steps, k).tasks[i].Sweep? && After(steps, k).tasks[i].last
    ensures Inv(After(steps, k))
    ensures var h := RunSweep(After(steps, k), i); forall ref: nat :: ref < |h.ops| ==> h.ops[ref].terminal
  {
    hide Inv, After, RunSweep;
    RunKeeps(steps, k);
    StoppedMeansTerminal(RunSweep(After(steps, k), i));
  }

  // ---- callbacks ----

  /**
   * An enqueue on the activation path never meets a sealed dispatcher: sealing waits for the
   * activation counter, which counts exactly the activations under way, and admission is closed first.
   */
  lemma ActivationBeatsSeal(steps: seq<Step>, k: nat)
    requires k <= |steps|
    ensures var g := After(steps, k);
            && !g.lost && g.activations == Activations(g.tasks) >= 0
            && (!g.seal.Unsealed? ==> forall i: nat :: i < |g.tasks| ==> IsActivation(g.tasks[i]) == 0)
  {
    RunKeeps(steps, k);
    var g := After(steps, k);
    hide After, OwnerInv, AbortInv, ShutdownInv, OpsOk, MapInv, ReactorInv, IsActivation;
    forall i: nat | i < |g.tasks| ensures IsActivation(g.tasks[i]) <= g.activations { ActivationCounted(g.tasks, i); }
  }
}
