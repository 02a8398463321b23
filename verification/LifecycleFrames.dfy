/** What the critical sections leave alone: the seal and the transports. */
module LifecycleFrames {
  import opened Bytes
  import opened Lifecycle
  import opened LifecycleRuns

  /** The same transports, perhaps aborted meanwhile. */
  predicate SameIos(a: seq<Io>, b: seq<Io>) {
    |a| == |b| && forall io: nat :: io < |a| ==>
      a[io].id == b[io].id && a[io].released == b[io].released && (a[io].aborted ==> b[io].aborted)
  }

  /** The same operations, and no transport was handed over for any of them. */
  predicate SameHands(a: seq<Op>, b: seq<Op>) {
    |a| == |b| && forall ref: nat :: ref < |a| ==> a[ref].handedOver == b[ref].handedOver
  }

  predicate Still(g: Registry, h: Registry) {
    h.seal == g.seal && h.live == g.live && SameIos(g.ios, h.ios) && SameHands(g.ops, h.ops)
  }

  lemma Unmoved(g: Registry, h: Registry)
    requires h.seal == g.seal && h.live == g.live && h.ios == g.ios && g.ops == h.ops
    ensures Still(g, h)
  {
  }

  lemma PutStill(g: Registry, h: Registry, ref: nat, op: Op)
    requires ref < |g.ops| && h.ops == g.ops[ref := op] && op.handedOver == g.ops[ref].handedOver
    requires h.seal == g.seal && h.live == g.live && h.ios == g.ios
    ensures Still(g, h)
  {
  }

  lemma HandsStay(op: Op, failed: bool, io: Option<nat>, owner: Option<nat>)
    ensures Commit(op, failed, io, owner).handedOver == op.handedOver
    ensures Extract(op).handedOver == op.handedOver && MarkReady(op).handedOver == op.handedOver
  {
  }

  lemma CommitStill(g: Registry, ref: nat)
    ensures Still(g, CommitRequest(g, ref))
  {
    hide Extract, HasJob, Commit;
    if ref < |g.ops| {
      HandsStay(g.ops[ref], false, None, None);
      HandsStay(Commit(g.ops[ref], false, None, None), false, None, None);
    }
  }

  lemma TcpStill(g: Registry, ref: nat)
    ensures Still(g, TcpFails(g, ref)) && TcpConnected(g, ref).seal == g.seal
  {
    hide Extract, HasJob, Commit, MarkReady;
    if ref < |g.ops| { HandsStay(g.ops[ref], true, None, Some(|g.tasks|)); }
  }

  lemma TlsConnectedStill(g: Registry, ref: nat)
    ensures Still(g, TlsConnected(g, ref))
  {
    hide Commit, LiveIo, Still;
    if TlsConnected(g, ref) == g {
      Unmoved(g, g);
    } else {
      HandsStay(g.ops[ref], false, None, Some(|g.tasks|));
      PutStill(g, TlsConnected(g, ref), ref, Commit(g.ops[ref], false, None, Some(|g.tasks|)));
    }
  }

  lemma TlsStill(g: Registry, ref: nat)
    ensures Still(g, TlsConnected(g, ref)) && Still(g, TlsFails(g, ref))
    ensures TlsTransport(g, ref).seal == g.seal
  {
    hide Commit, LiveIo, Still, TlsConnected;
    TlsConnectedStill(g, ref);
    if TlsFails(g, ref) == g {
      Unmoved(g, g);
    } else {
      var io := LiveIo(g, g.ops[ref].id);
      HandsStay(g.ops[ref], true, io, Some(|g.tasks|));
      PutStill(g, TlsFails(g, ref), ref, Commit(g.ops[ref], true, io, Some(|g.tasks|)));
    }
  }

  /** Nothing but at most one new operation of that identity and kind. */
  predicate Enters(g: Registry, h: Registry, id: nat, kind: Kind, callback: bool) {
    && h.seal == g.seal && h.live == g.live && h.ios == g.ios
    && (h.ops == g.ops || h.ops == g.ops + [NewOp(id, kind, callback)])
  }

  lemma AdmittedEnters(g: Registry, id: nat, kind: Kind, callback: bool, nextId: nat)
    ensures Enters(g, Admitted(g, id, kind, callback, nextId), id, kind, callback)
  {
  }

  lemma AcceptEnters(g: Registry, kind: Kind, callback: bool, full: bool)
    ensures Enters(g, Accept(g, kind, callback, full), g.nextId, kind, callback)
    ensures kind == Tls(true) ==> Accept(g, kind, callback, full) == g
  {
    hide Admitted;
    AdmittedEnters(g, g.nextId, kind, callback, g.nextId + 1);
  }

  lemma UpgradeEnters(g: Registry, io: nat, callback: bool)
    ensures exists id: nat :: Enters(g, AcceptUpgrade(g, io, callback), id, Tls(true), callback)
  {
    hide Admitted, LiveIo;
    if CanUpgrade(g, io) {
      AdmittedEnters(g, g.ios[io].id, Tls(true), callback, g.nextId);
      assert Enters(g, AcceptUpgrade(g, io, callback), g.ios[io].id, Tls(true), callback);
    } else {
      assert Enters(g, AcceptUpgrade(g, io, callback), 0, Tls(true), callback);
    }
  }

  lemma SweepStill(g: Registry, last: bool)
    ensures Still(g, BeginSweep(g, last))
  {
    forall ref: nat | ref < |g.ops| ensures SweptOp(g, ref).handedOver == g.ops[ref].handedOver {
      HandsStay(g.ops[ref], true, None, Some(|g.tasks|));
    }
    hide SweptOp;
  }

  lemma IoStill(g: Registry, io: nat)
    ensures Still(g, AbortIo(g, io)) && ReleaseIo(g, io).seal == g.seal
  {
    hide LiveIo;
  }

  lemma PublicationPuts(g: Registry, i: nat, ref: nat, rest: Task)
    requires i < |g.tasks| && ref < |g.ops|
    ensures var h := Publication(g, i, ref, rest);
      h.seal == g.seal && h.live == g.live && h.ios == g.ios && h.ops == g.ops[ref := Extract(MarkReady(g.ops[ref]))]
  {
    hide Extract, HasJob, MarkReady;
  }

  lemma PublicationStill(g: Registry, i: nat, ref: nat, rest: Task)
    requires i < |g.tasks| && ref < |g.ops|
    ensures Still(g, Publication(g, i, ref, rest))
  {
    hide Extract, HasJob, MarkReady, Still, Publication;
    PublicationPuts(g, i, ref, rest);
    HandsStay(g.ops[ref], false, None, None);
    HandsStay(MarkReady(g.ops[ref]), false, None, None);
    PutStill(g, Publication(g, i, ref, rest), ref, Extract(MarkReady(g.ops[ref])));
  }

  lemma ActivateStill(g: Registry, i: nat, ref: nat)
    requires i < |g.tasks| && ref < |g.ops|
    ensures Still(g, ActivateTask(g, i, ref))
  {
    hide Extract, HasJob, Still;
    var op := g.ops[ref].(active := true);
    HandsStay(op, false, None, None);
    PutStill(g, ActivateTask(g, i, ref), ref, if HasJob(op) then Extract(op) else op);
  }

  lemma SweepTaskStill(g: Registry, i: nat, pick: Pick)
    requires i < |g.tasks| && g.tasks[i].Sweep?
    ensures Still(g, SweepTask(g, i, pick))
  {
    hide CommitRequest, Publication, AbortIo, SameIos, SameHands;
    Unmoved(g, g);
    var t := g.tasks[i];
    match pick {
      case PickRequest(ref) => CommitStill(g.(tasks := g.tasks[i := t.(requests := t.requests - {ref})]), ref);
      case PickTcp(ref) => if ref < |g.ops| { PublicationStill(g, i, ref, t.(tcps := t.tcps - {ref})); }
      case PickTls(ref) => if ref < |g.ops| { PublicationStill(g, i, ref, t.(tlss := t.tlss - {ref})); }
      case PickIo(io) => IoStill(g, io);
      case PickEnd =>
    }
  }

  lemma TaskStill(g: Registry, i: nat, pick: Pick)
    requires i < |g.tasks|
    ensures Still(g, TaskStep(g, i, pick))
  {
    hide Publication, ActivateTask, SweepTask, AbortIo, SameIos, SameHands;
    Unmoved(g, g);
    match g.tasks[i] {
      case Activate(ref) => if ref < |g.ops| { ActivateStill(g, i, ref); }
      case Publish(ref) => if ref < |g.ops| { PublicationStill(g, i, ref, Finished); }
      case Abort(_, io) => IoStill(g, io);
      case Sweep(_, _, _, _, _) => SweepTaskStill(g, i, pick);
      case _ =>
    }
  }

  lemma SubmitStill(g: Registry, immediate: bool)
    ensures Still(g, SubmitNext(g, immediate))
  {
    hide CommitRequest, SameIos, SameHands;
    Unmoved(g, g);
    if g.batch != [] { CommitStill(g, g.batch[0]); }
  }

  lemma HandStill(g: Registry)
    requires g.hand.Some?
    ensures Still(g, CommitRequest(g, g.hand.value).(hand := None))
  {
    hide CommitRequest, SameIos, SameHands;
    CommitStill(g, g.hand.value);
  }

  /** The steps that open a transport, those that admit an operation, and those that move the seal. */
  predicate Opens(step: Step) { step.StepTcpConnected? || step.StepTlsTransport? }
  predicate Admits(step: Step) { step.StepAccept? || step.StepUpgrade? }
  predicate Seals(step: Step) { step.StepAwait? || step.StepSeal? }

  lemma DistantStill(g: Registry, step: Step)
    requires Distant(step) && !step.StepReleaseIo? && !Seals(step)
    ensures Still(g, Do(g, step))
  {
    hide Accept, AcceptUpgrade, CommitRequest, TcpConnected, TcpFails, TlsTransport, TlsConnected, TlsFails,
         BeginSweep, TaskStep, SubmitNext, AbortIo, ReleaseIo, SameIos, SameHands;
    Unmoved(g, g);
    if step.StepAbortIo? { IoStill(g, step.io); }
  }

  /** Every other critical section leaves the operations there are, transports, live map and seal alone. */
  lemma StepStill(g: Registry, step: Step)
    requires !Opens(step) && !Admits(step) && !step.StepReleaseIo? && !Seals(step)
    ensures Still(g, Do(g, step))
  {
    hide Accept, AcceptUpgrade, CommitRequest, TcpConnected, TcpFails, TlsTransport, TlsConnected, TlsFails,
         BeginSweep, TaskStep, SubmitNext, AbortIo, ReleaseIo, Still;
    Unmoved(g, g);
    match step {
      case StepCommit(ref) => CommitStill(g, ref);
      case StepTcpFails(ref) => TcpStill(g, ref);
      case StepTlsConnected(ref) => TlsStill(g, ref);
      case StepTlsFails(ref) => TlsStill(g, ref);
      case StepCancelAll => SweepStill(g, false);
      case StepShutdown => SweepStill(g, true);
      case StepTask(i, pick) => if i < |g.tasks| { TaskStill(g, i, pick); }
      case StepSubmit(immediate) => SubmitStill(g, immediate);
      case StepCommitHand => if g.hand.Some? { HandStill(g); }
      case _ => DistantStill(g, step);
    }
  }

  /** Only the seal step seals. */
  lemma SealMoves(g: Registry, step: Step)
    ensures step.StepSeal? ==> Do(g, step).seal == (if g.seal.Awaited? then Sealed else g.seal)
    ensures !step.StepSeal? ==> (Do(g, step).seal.Sealed? <==> g.seal.Sealed?)
  {
    hide Accept, AcceptUpgrade, CommitRequest, TcpConnected, TcpFails, TlsTransport, TlsConnected, TlsFails,
         BeginSweep, TaskStep, SubmitNext, AbortIo, ReleaseIo, SameIos, SameHands;
    if step.StepAccept? {
      AcceptEnters(g, step.kind, step.callback, step.full);
    } else if step.StepUpgrade? {
      UpgradeEnters(g, step.io, step.callback);
    } else if !Opens(step) && !step.StepReleaseIo? && !Seals(step) {
      hide Do;
      StepStill(g, step);
    } else if Opens(step) {
      TcpStill(g, step.ref);
      TlsStill(g, step.ref);
    } else if step.StepReleaseIo? {
      IoStill(g, step.io);
    }
  }
}
