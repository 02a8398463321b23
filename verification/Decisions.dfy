/**
 * Who decides an operation, said from the critical sections a run takes: an undecided connect is
 * decided by its own success or failure, by `cancel_all` or by `begin_shutdown`, a request by its
 * completion, and by nothing else.
 */
module LifecycleDecisions {
  import opened Bytes
  import opened Lifecycle
  import opened LifecycleProof
  import opened LifecycleRuns

  /** The section is the failure or the cancellation of this connect. */
  predicate Fails(g: Registry, step: Step, ref: nat) {
    && ref < |g.ops| && !g.ops[ref].kind.Request?
    && (|| step.StepCancelAll? || step.StepShutdown?
        || (g.ops[ref].kind.Tcp? && step == StepTcpFails(ref))
        || (g.ops[ref].kind.Tls? && step == StepTlsFails(ref)))
  }

  /** A transport is live for this identity and has not been released. */
  predicate HasTransport(g: Registry, id: nat) {
    id in g.live && g.live[id] < |g.ios| && !g.ios[g.live[id]].released
  }

  /** The section is the success of this connect, and comes before any shutdown. */
  predicate Succeeds(g: Registry, step: Step, ref: nat) {
    && ref < |g.ops| && g.phase.Running?
    && (|| (g.ops[ref].kind.Tcp? && step == StepTcpConnected(ref))
        || (g.ops[ref].kind.Tls? && step == StepTlsConnected(ref) && HasTransport(g, g.ops[ref].id)))
  }

  /** A sweep is at this request. */
  predicate SweepsRequest(g: Registry, step: Step, ref: nat) {
    step.StepTask? && step.pick == PickRequest(ref) && step.i < |g.tasks| && g.tasks[step.i].Sweep?
    && ref in g.tasks[step.i].requests
  }

  /** The section completes this request: its transport does, the reactor does, or a sweep. */
  predicate Completes(g: Registry, step: Step, ref: nat) {
    && ref < |g.ops| && g.ops[ref].kind.Request?
    && (|| step == StepCommit(ref)
        || (step.StepCommitHand? && g.hand == Some(ref))
        || (step == StepSubmit(true) && g.batch != [] && g.batch[0] == ref)
        || SweepsRequest(g, step, ref))
  }

  /** What becomes of an undecided operation. */
  predicate Becomes(a: Op, after: seq<Op>, ref: nat, decided: bool, failed: bool) {
    && ref < |after| && after[ref].kind == a.kind && after[ref].id == a.id
    && (after[ref].terminal <==> decided) && (decided ==> after[ref].failed == failed)
  }

  lemma Untouched(g: Registry, after: seq<Op>, ref: nat)
    requires ref < |g.ops| && ref < |after| && after[ref] == g.ops[ref] && !g.ops[ref].terminal
    ensures Becomes(g.ops[ref], after, ref, false, false)
  {
  }

  lemma ExtractKeepsDecision(op: Op)
    ensures Extract(op).terminal == op.terminal && Extract(op).failed == op.failed
    ensures Extract(op).kind == op.kind && Extract(op).id == op.id
  {
  }

  lemma CommitDecides(g: Registry, r: nat, ref: nat)
    requires ref < |g.ops| && !g.ops[ref].terminal
    ensures Becomes(g.ops[ref], CommitRequest(g, r).ops, ref, r == ref && g.ops[ref].kind.Request?, false)
  {
    hide Extract, HasJob;
    if r < |g.ops| { ExtractKeepsDecision(Commit(g.ops[r], false, None, None)); }
  }

  /** Object `r` was replaced; it was decided if it is the one in question. */
  lemma PutDecides(g: Registry, after: seq<Op>, r: nat, op: Op, ref: nat)
    requires ref < |g.ops| && !g.ops[ref].terminal && r < |g.ops| && after == g.ops[r := op]
    requires op.kind == g.ops[r].kind && op.id == g.ops[r].id
    ensures Becomes(g.ops[ref], after, ref, r == ref && op.terminal, r == ref && op.failed)
  {
  }

  lemma TcpConnectedOps(g: Registry, r: nat)
    ensures TcpConnected(g, r).ops
         == if g.phase.Running? && InConnects(g, r) then g.ops[r := Extract(MarkReady(Commit(g.ops[r], false, None, None)))]
            else g.ops
  {
    hide Extract, HasJob, MarkReady, Commit;
  }

  lemma TcpDecides(g: Registry, r: nat, ref: nat)
    requires Inv(g) && ref < |g.ops| && !g.ops[ref].terminal
    ensures Becomes(g.ops[ref], TcpConnected(g, r).ops, ref, r == ref && g.ops[ref].kind.Tcp? && g.phase.Running?, false)
  {
    InItsMap(g, ref);
    hide Inv, Extract, HasJob, TcpConnected, Becomes;
    TcpConnectedOps(g, r);
    Untouched(g, g.ops, ref);
    if g.phase.Running? && InConnects(g, r) {
      ExtractKeepsDecision(MarkReady(Commit(g.ops[r], false, None, None)));
      PutDecides(g, TcpConnected(g, r).ops, r, Extract(MarkReady(Commit(g.ops[r], false, None, None))), ref);
    }
  }

  lemma TcpFailureDecides(g: Registry, r: nat, ref: nat)
    requires Inv(g) && ref < |g.ops| && !g.ops[ref].terminal
    ensures var mine := r == ref && g.ops[ref].kind.Tcp?; Becomes(g.ops[ref], TcpFails(g, r).ops, ref, mine, mine)
  {
    InItsMap(g, ref);
    hide Inv, Becomes;
    Untouched(g, g.ops, ref);
    if InConnects(g, r) { PutDecides(g, TcpFails(g, r).ops, r, Commit(g.ops[r], true, None, Some(|g.tasks|)), ref); }
  }

  /** An undecided operation is in its map. */
  lemma InItsMap(g: Registry, ref: nat)
    requires Inv(g) && ref < |g.ops| && !g.ops[ref].terminal
    ensures g.ops[ref].kind.Tcp? ==> InConnects(g, ref)
    ensures g.ops[ref].kind.Tls? ==> InTls(g, ref)
    ensures g.ops[ref].kind.Request? ==> InRequests(g, ref)
  {
    hide OwnerInv, AbortInv, ShutdownInv, ReactorInv, CallbackInv, OpsOk, IdsOk, LiveOk;
  }

  lemma TransportDecides(g: Registry, r: nat, ref: nat)
    requires ref < |g.ops| && !g.ops[ref].terminal
    ensures Becomes(g.ops[ref], TlsTransport(g, r).ops, ref, false, false)
  {
    hide Becomes;
    Untouched(g, g.ops, ref);
    if TlsTransport(g, r).ops != g.ops {
      if r == ref { Handed(g, r); } else { Untouched(g, TlsTransport(g, r).ops, ref); }
    }
  }

  lemma Handed(g: Registry, r: nat)
    requires r < |g.ops| && !g.ops[r].terminal
    ensures Becomes(g.ops[r], g.ops[r := g.ops[r].(handedOver := true)], r, false, false)
  {
  }

  lemma TlsDecides(g: Registry, r: nat, ref: nat)
    requires Inv(g) && ref < |g.ops| && !g.ops[ref].terminal
    ensures Becomes(g.ops[ref], TlsConnected(g, r).ops, ref,
                    r == ref && g.ops[ref].kind.Tls? && g.phase.Running? && HasTransport(g, g.ops[ref].id), false)
  {
    InItsMap(g, ref);
    hide Inv, Becomes;
    Untouched(g, g.ops, ref);
    if g.phase.Running? && InTls(g, r) && HasTransport(g, g.ops[r].id) {
      PutDecides(g, TlsConnected(g, r).ops, r, Commit(g.ops[r], false, None, Some(|g.tasks|)), ref);
    }
  }

  lemma TlsFailureDecides(g: Registry, r: nat, ref: nat)
    requires Inv(g) && ref < |g.ops| && !g.ops[ref].terminal
    ensures var mine := r == ref && g.ops[ref].kind.Tls?; Becomes(g.ops[ref], TlsFails(g, r).ops, ref, mine, mine)
  {
    InItsMap(g, ref);
    hide Inv, LiveIo, Becomes;
    Untouched(g, g.ops, ref);
    if InTls(g, r) {
      PutDecides(g, TlsFails(g, r).ops, r, Commit(g.ops[r], true, LiveIo(g, g.ops[r].id), Some(|g.tasks|)), ref);
    }
  }

  lemma SweepDecides(g: Registry, last: bool, ref: nat)
    requires Inv(g) && ref < |g.ops| && !g.ops[ref].terminal
    ensures Becomes(g.ops[ref], BeginSweep(g, last).ops, ref, !g.ops[ref].kind.Request?, !g.ops[ref].kind.Request?)
  {
    InItsMap(g, ref);
    hide Inv, LiveIo;
    assert BeginSweep(g, last).ops[ref] == SweptOp(g, ref);
  }

  lemma PublicationDecides(g: Registry, i: nat, r: nat, rest: Task, ref: nat)
    requires i < |g.tasks| && r < |g.ops| && ref < |g.ops| && !g.ops[ref].terminal
    ensures Becomes(g.ops[ref], Publication(g, i, r, rest).ops, ref, false, false)
  {
    hide Extract, HasJob;
    ExtractKeepsDecision(MarkReady(g.ops[r]));
  }

  lemma ActivateDecides(g: Registry, i: nat, r: nat, ref: nat)
    requires i < |g.tasks| && r < |g.ops| && ref < |g.ops| && !g.ops[ref].terminal
    ensures Becomes(g.ops[ref], ActivateTask(g, i, r).ops, ref, false, false)
  {
    hide Extract, HasJob;
    ExtractKeepsDecision(g.ops[r].(active := true));
  }

  lemma SweepTaskDecides(g: Registry, i: nat, pick: Pick, ref: nat)
    requires i < |g.tasks| && g.tasks[i].Sweep? && ref < |g.ops| && !g.ops[ref].terminal
    ensures Becomes(g.ops[ref], SweepTask(g, i, pick).ops, ref,
                    pick == PickRequest(ref) && ref in g.tasks[i].requests && g.ops[ref].kind.Request?, false)
  {
    hide Publication, CommitRequest, Becomes;
    Untouched(g, g.ops, ref);
    var t := g.tasks[i];
    match pick {
      case PickRequest(r) => CommitDecides(g.(tasks := g.tasks[i := t.(requests := t.requests - {r})]), r, ref);
      case PickTcp(r) => if r < |g.ops| { PublicationDecides(g, i, r, t.(tcps := t.tcps - {r}), ref); }
      case PickTls(r) => if r < |g.ops| { PublicationDecides(g, i, r, t.(tlss := t.tlss - {r}), ref); }
      case _ =>
    }
  }

  lemma TaskDecides(g: Registry, i: nat, pick: Pick, ref: nat)
    requires i < |g.tasks| && ref < |g.ops| && !g.ops[ref].terminal
    ensures Becomes(g.ops[ref], TaskStep(g, i, pick).ops, ref,
                    g.ops[ref].kind.Request? && SweepsRequest(g, StepTask(i, pick), ref), false)
  {
    hide Publication, ActivateTask, SweepTask, AbortIo, Becomes;
    Untouched(g, g.ops, ref);
    match g.tasks[i] {
      case Activate(r) => if r < |g.ops| { ActivateDecides(g, i, r, ref); }
      case Publish(r) => if r < |g.ops| { PublicationDecides(g, i, r, Finished, ref); }
      case Abort(_, io) => AbortIoOps(g, io);
      case Sweep(_, _, _, _, _) => SweepTaskDecides(g, i, pick, ref);
      case _ =>
    }
  }

  lemma SubmitDecides(g: Registry, immediate: bool, ref: nat)
    requires ref < |g.ops| && !g.ops[ref].terminal
    ensures Becomes(g.ops[ref], SubmitNext(g, immediate).ops, ref,
                    g.ops[ref].kind.Request? && immediate && g.batch != [] && g.batch[0] == ref, false)
  {
    hide CommitRequest, Becomes;
    Untouched(g, g.ops, ref);
    if g.batch != [] { CommitDecides(g, g.batch[0], ref); }
  }

  /** The section is a failure, a success or a completion of the operation. */
  predicate Concerns(g: Registry, step: Step, ref: nat) {
    Fails(g, step, ref) || Succeeds(g, step, ref) || Completes(g, step, ref)
  }

  predicate IsConnectStep(step: Step) {
    step.StepTcpConnected? || step.StepTcpFails? || step.StepTlsTransport? || step.StepTlsConnected? || step.StepTlsFails?
    || step.StepCancelAll? || step.StepShutdown?
  }

  predicate IsRequestStep(step: Step) {
    step.StepCommit? || step.StepTask? || step.StepSubmit? || step.StepCommitHand?
  }

  lemma ConnectStepDecides(g: Registry, step: Step, ref: nat)
    requires Inv(g) && ref < |g.ops| && !g.ops[ref].terminal && IsConnectStep(step)
    ensures Becomes(g.ops[ref], Do(g, step).ops, ref, Concerns(g, step, ref), Fails(g, step, ref))
  {
    hide Inv, Accept, AcceptUpgrade, CommitRequest, TcpConnected, TcpFails, TlsTransport, TlsConnected, TlsFails,
         BeginSweep, TaskStep, AbortIo, ReleaseIo, SubmitNext, Becomes, HasTransport;
    Untouched(g, g.ops, ref);
    match step {
      case StepTcpConnected(r) => TcpDecides(g, r, ref);
      case StepTcpFails(r) => TcpFailureDecides(g, r, ref);
      case StepTlsTransport(r) => TransportDecides(g, r, ref);
      case StepTlsConnected(r) => TlsDecides(g, r, ref);
      case StepTlsFails(r) => TlsFailureDecides(g, r, ref);
      case StepCancelAll => SweepDecides(g, false, ref);
      case StepShutdown => SweepDecides(g, true, ref);
    }
  }

  lemma RequestStepDecides(g: Registry, step: Step, ref: nat)
    requires ref < |g.ops| && !g.ops[ref].terminal && IsRequestStep(step)
    ensures Becomes(g.ops[ref], Do(g, step).ops, ref, Concerns(g, step, ref), Fails(g, step, ref))
  {
    hide Inv, Accept, AcceptUpgrade, CommitRequest, TcpConnected, TcpFails, TlsTransport, TlsConnected, TlsFails,
         BeginSweep, TaskStep, AbortIo, ReleaseIo, SubmitNext, Becomes, HasTransport;
    Untouched(g, g.ops, ref);
    match step {
      case StepCommit(r) => CommitDecides(g, r, ref);
      case StepTask(i, pick) => if i < |g.tasks| { TaskDecides(g, i, pick, ref); }
      case StepSubmit(immediate) => SubmitDecides(g, immediate, ref);
      case StepCommitHand => if g.hand.Some? { CommitDecides(g, g.hand.value, ref); }
    }
  }

  /** One section decides an undecided operation exactly if it concerns it. */
  lemma StepDecides(g: Registry, step: Step, ref: nat)
    requires Inv(g) && ref < |g.ops| && !g.ops[ref].terminal
    ensures Becomes(g.ops[ref], Do(g, step).ops, ref, Concerns(g, step, ref), Fails(g, step, ref))
  {
    if IsConnectStep(step) {
      hide *;
      ConnectStepDecides(g, step, ref);
    } else if IsRequestStep(step) {
      hide *;
      RequestStepDecides(g, step, ref);
    } else {
      hide Inv, Accept, AcceptUpgrade, CommitRequest, TcpConnected, TcpFails, TlsTransport, TlsConnected, TlsFails,
           BeginSweep, TaskStep, AbortIo, ReleaseIo, SubmitNext, Becomes, HasTransport;
      Untouched(g, g.ops, ref);
      if step.StepAccept? {
        AcceptOps(g, step.kind, step.callback, step.full);
        Untouched(g, Accept(g, step.kind, step.callback, step.full).ops, ref);
      } else if step.StepUpgrade? {
        UpgradeOps(g, step.io, step.callback);
        Untouched(g, AcceptUpgrade(g, step.io, step.callback).ops, ref);
      } else {
        DistantOps(g, step);
      }
    }
  }

  /**
   * In every run an undecided operation is decided by a section exactly if that section is its
   * failure, its success or its completion, or sweeps it; it is recorded as failed exactly by the
   * failures; and as decided then, so it stays.
   */
  lemma DecidedBy(steps: seq<Step>, j: nat, k: nat, ref: nat)
    requires j < k <= |steps| && ref < |After(steps, j).ops| && !After(steps, j).ops[ref].terminal
    ensures ref < |After(steps, j + 1).ops| && ref < |After(steps, k).ops|
    ensures var g, step := After(steps, j), steps[j];
            var decided := Concerns(g, step, ref);
            && (After(steps, j + 1).ops[ref].terminal <==> decided)
            && (decided ==> After(steps, k).ops[ref].terminal && (After(steps, k).ops[ref].failed <==> Fails(g, step, ref)))
            && After(steps, j + 1).ops[ref].kind == g.ops[ref].kind
  {
    hide Inv, Do, Fails, Succeeds, Completes;
    RunKeeps(steps, j);
    StepDecides(After(steps, j), steps[j], ref);
    OpsStay(steps, j + 1, k, ref);
    if After(steps, j + 1).ops[ref].terminal { RunEvolves(steps, j + 1, k, ref); }
  }

  lemma {:induction false} OpsStay(steps: seq<Step>, j: nat, k: nat, ref: nat)
    requires j <= k <= |steps| && ref < |After(steps, j).ops|
    ensures ref < |After(steps, k).ops|
    decreases k
  {
    hide Inv, Do, Evolves;
    if j < k {
      OpsStay(steps, j, k - 1, ref);
      RunKeeps(steps, k - 1);
      StepEvolves(After(steps, k - 1), steps[k - 1]);
    }
  }

  /**
   * A TLS operation that fails, is cancelled or is swept becomes visible, to a waiter or to its
   * callback, only after the transport that was live for it at that moment has been aborted.
   */
  lemma AbortedBeforeVisible(steps: seq<Step>, j: nat, k: nat, ref: nat)
    requires j < k <= |steps| && InTls(After(steps, j), ref)
    requires steps[j] == StepTlsFails(ref) || steps[j].StepCancelAll? || steps[j].StepShutdown?
    ensures ref < |After(steps, j + 1).ops| && ref < |After(steps, k).ops|
    ensures After(steps, j + 1).ops[ref].terminal && After(steps, j + 1).ops[ref].failed
    ensures var g, h := After(steps, j), After(steps, k);
            (h.ops[ref].ready || h.ops[ref].jobs > 0) && g.ops[ref].id in g.live ==>
              g.live[g.ops[ref].id] < |h.ios| && h.ios[g.live[g.ops[ref].id]].aborted
  {
    hide Inv, Do, Concerns, Owes;
    RunKeeps(steps, j);
    var g := After(steps, j);
    StillPending(g, ref);
    DecidedBy(steps, j, k, ref);
    DecidedBy(steps, j, j + 1, ref);
    FailureConcerns(g, steps[j], ref);
    VisibleMeansReady(steps, j + 1, k, ref);
    if After(steps, k).ops[ref].ready { FailedIsCut(steps, j, k, ref); }
  }

  lemma FailureConcerns(g: Registry, step: Step, ref: nat)
    requires InTls(g, ref) && (step == StepTlsFails(ref) || step.StepCancelAll? || step.StepShutdown?)
    ensures Concerns(g, step, ref) && Fails(g, step, ref)
  {
  }

  lemma VisibleMeansReady(steps: seq<Step>, j: nat, k: nat, ref: nat)
    requires j <= k <= |steps| && ref < |After(steps, j).ops| && After(steps, j).ops[ref].terminal
    requires After(steps, j).ops[ref].kind.Tls?
    ensures ref < |After(steps, k).ops| && (After(steps, k).ops[ref].jobs > 0 ==> After(steps, k).ops[ref].ready)
  {
    hide Inv, Do, Owes;
    RunEvolves(steps, j, k, ref);
    OneWinner(steps, k, ref);
  }

  /**
   * The callback of an operation is never lost and never doubled: it is still with the operation, or
   * its one job has been taken out.
   */
  lemma {:induction false} CallbackIsKept(steps: seq<Step>, j: nat, k: nat, ref: nat)
    requires j <= k <= |steps| && ref < |After(steps, j).ops|
    ensures ref < |After(steps, k).ops|
    ensures var a, b := After(steps, j).ops[ref], After(steps, k).ops[ref]; b.jobs + Bit(b.callback) == a.jobs + Bit(a.callback)
    decreases k
  {
    hide Inv, Do;
    if j < k {
      CallbackIsKept(steps, j, k - 1, ref);
      RunKeeps(steps, k - 1);
      StepEvolves(After(steps, k - 1), steps[k - 1]);
    }
  }
}
