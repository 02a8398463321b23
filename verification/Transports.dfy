/**
 * The transports of the registry: every live entry is one transport that has not been released and
 * the other way round, because a direct connect opens at most one transport and identities of
 * direct connects are never used twice.
 */
module Transports {
  import opened Bytes
  import opened Lifecycle
  import opened LifecycleFrames
  import LifecycleProof
  import LifecycleRuns

  /** A connect of its own, not the upgrade of a connection there is. */
  predicate Direct(op: Op) { op.kind.Tcp? || op.kind == Tls(false) }

  /** Its transport has been opened, or never will be. */
  predicate Spent(op: Op) { if op.kind.Tcp? then op.terminal else op.handedOver }

  /** An undecided connect that still waits for its transport; it owns a connection slot. */
  predicate Waits(op: Op) { Direct(op) && !op.terminal && !Spent(op) }

  ghost predicate OwnIds(ops: seq<Op>) {
    forall a: nat, b: nat :: a < b < |ops| && Direct(ops[a]) && Direct(ops[b]) ==> ops[a].id != ops[b].id
  }

  ghost predicate OpenedOnce(ops: seq<Op>, ios: seq<Io>) {
    forall ref: nat, io: nat :: ref < |ops| && io < |ios| && Direct(ops[ref]) && ops[ref].id == ios[io].id ==> Spent(ops[ref])
  }

  ghost predicate LiveIsOpen(live: map<nat, nat>, ios: seq<Io>) {
    && (forall id :: id in live ==> live[id] < |ios| && ios[live[id]].id == id && !ios[live[id]].released)
    && (forall io: nat :: io < |ios| && !ios[io].released ==> ios[io].id in live && live[ios[io].id] == io)
  }

  ghost predicate TransportInv(g: Registry) { OwnIds(g.ops) && OpenedOnce(g.ops, g.ios) && LiveIsOpen(g.live, g.ios) }

  /** The same operation, perhaps decided meanwhile. */
  predicate Older(a: Op, b: Op) { b.id == a.id && b.kind == a.kind && b.handedOver == a.handedOver && (a.terminal ==> b.terminal) }

  ghost predicate AllOlder(a: seq<Op>, b: seq<Op>) { |a| == |b| && forall ref: nat :: ref < |a| ==> Older(a[ref], b[ref]) }

  lemma StillOlder(g: Registry, h: Registry)
    requires LifecycleRuns.OnlyEvolves(g, h.ops) && SameHands(g.ops, h.ops)
    ensures AllOlder(g.ops, h.ops)
  {
    hide LiveIo;
  }

  lemma StillKeeps(g: Registry, h: Registry)
    requires TransportInv(g) && AllOlder(g.ops, h.ops) && h.live == g.live && SameIos(g.ios, h.ios)
    ensures TransportInv(h)
  {
    hide TransportInv;
    assert OwnIds(g.ops) && OpenedOnce(g.ops, g.ios) && LiveIsOpen(g.live, g.ios) by { Parts(g); }
    assert OwnIds(h.ops);
    assert OpenedOnce(h.ops, h.ios);
    assert LiveIsOpen(h.live, h.ios);
    Whole(h);
  }

  lemma Parts(g: Registry)
    requires TransportInv(g)
    ensures OwnIds(g.ops) && OpenedOnce(g.ops, g.ios) && LiveIsOpen(g.live, g.ios)
  {
  }

  lemma Whole(g: Registry)
    requires OwnIds(g.ops) && OpenedOnce(g.ops, g.ios) && LiveIsOpen(g.live, g.ios)
    ensures TransportInv(g)
  {
  }

  /** All identities given out are below the next one. */
  ghost predicate Fresh(g: Registry) {
    && (forall ref: nat :: ref < |g.ops| ==> g.ops[ref].id < g.nextId)
    && (forall io: nat :: io < |g.ios| ==> g.ios[io].id < g.nextId)
  }

  lemma InvFresh(g: Registry)
    requires LifecycleProof.Inv(g)
    ensures Fresh(g)
  {
    hide LifecycleProof.OpsOk, LifecycleProof.OwnerInv, LifecycleProof.AbortInv, LifecycleProof.ReactorInv,
         LifecycleProof.ShutdownInv, LifecycleProof.CallbackInv, LifecycleProof.Indexed;
  }

  lemma EntersKeeps(g: Registry, h: Registry, id: nat, kind: Kind, callback: bool)
    requires TransportInv(g) && Fresh(g) && Enters(g, h, id, kind, callback)
    requires kind == Tls(true) || id == g.nextId
    ensures TransportInv(h)
  {
  }

  /** One section opened the transport of a waiting connect. */
  ghost predicate Opened(g: Registry, h: Registry, ref: nat) {
    && ref < |g.ops| && Waits(g.ops[ref]) && |h.ops| == |g.ops| && h.ops == g.ops[ref := h.ops[ref]]
    && h.ops[ref].id == g.ops[ref].id && h.ops[ref].kind == g.ops[ref].kind && Spent(h.ops[ref])
    && h.ios == g.ios + [Io(g.ops[ref].id, false, false)] && h.live == g.live[g.ops[ref].id := |g.ios|]
  }

  lemma OpenedKeeps(g: Registry, h: Registry, ref: nat)
    requires TransportInv(g) && Opened(g, h, ref)
    ensures TransportInv(h) && g.ops[ref].id !in g.live
  {
    hide TransportInv;
    Parts(g);
    var id := g.ops[ref].id;
    assert forall io: nat :: io < |g.ios| ==> g.ios[io].id != id;
    assert LiveIsOpen(h.live, h.ios);
    assert OwnIds(h.ops);
    forall r: nat, io: nat | r < |h.ops| && io < |h.ios| && Direct(h.ops[r]) && h.ops[r].id == h.ios[io].id
      ensures Spent(h.ops[r])
    {
      if r != ref {
        assert h.ops[r] == g.ops[r];
        if io < |g.ios| { assert h.ios[io] == g.ios[io]; }
      }
    }
    Whole(h);
  }

  lemma ReleaseKeeps(g: Registry, io: nat)
    requires TransportInv(g)
    ensures TransportInv(ReleaseIo(g, io)) && ReleaseIo(g, io).ops == g.ops
    ensures ReleaseIo(g, io).ios == if io < |g.ios| then g.ios[io := g.ios[io].(released := true)] else g.ios
    ensures io < |g.ios| && !g.ios[io].released ==> ReleaseIo(g, io).live == g.live - {g.ios[io].id}
  {
    hide TransportInv, OwnIds;
    Parts(g);
    var h := ReleaseIo(g, io);
    assert OpenedOnce(h.ops, h.ios);
    hide OpenedOnce;
    assert LiveIsOpen(h.live, h.ios);
    Whole(h);
  }

  lemma TcpOpens(g: Registry, ref: nat)
    requires LifecycleProof.Inv(g)
    ensures if g.phase.Running? && InConnects(g, ref) then Opened(g, TcpConnected(g, ref), ref) else TcpConnected(g, ref) == g
  {
    hide LifecycleProof.Inv, Extract, HasJob;
    if g.phase.Running? && InConnects(g, ref) {
      LifecycleRuns.StillPending(g, ref);
      ExtractOlder(MarkReady(Commit(g.ops[ref], false, None, None)));
    }
  }

  lemma ExtractOlder(op: Op)
    ensures Older(op, Extract(op)) && Extract(op).terminal == op.terminal
  {
  }

  lemma TlsOpens(g: Registry, ref: nat)
    requires LifecycleProof.Inv(g)
    ensures if g.phase.Running? && InTls(g, ref) && !g.ops[ref].kind.upgrade && !g.ops[ref].handedOver
            then Opened(g, TlsTransport(g, ref), ref) else TlsTransport(g, ref) == g
  {
    hide LifecycleProof.Inv;
    if InTls(g, ref) { LifecycleRuns.StillPending(g, ref); }
  }

  /** The sections that open or release a transport, or admit a connect of its own, are treated apart. */
  predicate Quiet(section: Step) {
    && !Opens(section) && !section.StepReleaseIo?
    && !(section.StepAccept? && (section.kind.Tcp? || section.kind == Tls(false)))
  }

  /** Operations that were there only grow older; new ones want no slot. */
  ghost predicate Settles(g: Registry, h: Registry) {
    && SameIos(g.ios, h.ios) && |g.ops| <= |h.ops| && TransportInv(h)
    && (forall ref: nat :: ref < |g.ops| ==> Older(g.ops[ref], h.ops[ref]))
    && (forall ref: nat :: |g.ops| <= ref < |h.ops| ==> !Waits(h.ops[ref]))
  }

  lemma EntersSettles(g: Registry, h: Registry, id: nat, kind: Kind, callback: bool)
    requires TransportInv(g) && Fresh(g) && Enters(g, h, id, kind, callback)
    requires kind == Tls(true) || (kind.Request? && id == g.nextId)
    ensures Settles(g, h)
  {
    hide TransportInv;
    EntersKeeps(g, h, id, kind, callback);
  }

  lemma QuietSettles(g: Registry, section: Step)
    requires LifecycleProof.Inv(g) && TransportInv(g) && Quiet(section)
    ensures Settles(g, Do(g, section))
  {
    hide LifecycleProof.Inv, TransportInv, Accept, AcceptUpgrade, CommitRequest, TcpConnected, TcpFails,
         TlsTransport, TlsConnected, TlsFails, BeginSweep, TaskStep, SubmitNext, AbortIo, ReleaseIo, Enters;
    InvFresh(g);
    var h := Do(g, section);
    if section.StepAccept? {
      hide Settles;
      AcceptEnters(g, section.kind, section.callback, section.full);
      EntersSettles(g, h, g.nextId, section.kind, section.callback);
    } else if section.StepUpgrade? {
      hide Settles;
      UpgradeEnters(g, section.io, section.callback);
      var id: nat :| Enters(g, h, id, Tls(true), section.callback);
      EntersSettles(g, h, id, Tls(true), section.callback);
    } else if Seals(section) {
      StillKeeps(g, h);
    } else {
      hide Do;
      StepStill(g, section);
      LifecycleRuns.StepEvolves(g, section);
      StillOlder(g, h);
      StillKeeps(g, h);
    }
  }

  // ---- every run ----

  lemma SectionKeeps(g: Registry, step: Step)
    requires LifecycleProof.Inv(g) && TransportInv(g)
    ensures TransportInv(Do(g, step))
  {
    hide LifecycleProof.Inv, TransportInv, Accept, AcceptUpgrade, CommitRequest, TcpConnected, TcpFails,
         TlsTransport, TlsConnected, TlsFails, BeginSweep, TaskStep, SubmitNext, AbortIo, ReleaseIo, Opened, Enters;
    InvFresh(g);
    if Quiet(step) {
      QuietSettles(g, step);
    } else if step.StepAccept? {
      AcceptEnters(g, step.kind, step.callback, step.full);
      EntersKeeps(g, Do(g, step), g.nextId, step.kind, step.callback);
    } else if step.StepReleaseIo? {
      ReleaseKeeps(g, step.io);
    } else {
      TcpOpens(g, step.ref);
      TlsOpens(g, step.ref);
      if Do(g, step) != g { OpenedKeeps(g, Do(g, step), step.ref); }
    }
  }

  lemma {:induction false} RunTransports(steps: seq<Step>, k: nat)
    requires k <= |steps|
    ensures LifecycleProof.Inv(After(steps, k)) && TransportInv(After(steps, k))
    decreases k
  {
    hide Do, LifecycleProof.Inv;
    LifecycleRuns.RunKeeps(steps, k);
    if k > 0 {
      RunTransports(steps, k - 1);
      SectionKeeps(After(steps, k - 1), steps[k - 1]);
    }
  }

  /** The section opens the transport of this connect: it is undecided, waits for one, and the Engine runs. */
  predicate Opening(g: Registry, step: Step) {
    && Opens(step) && g.phase.Running?
    && (step.StepTcpConnected? ==> InConnects(g, step.ref))
    && (step.StepTlsTransport? ==> InTls(g, step.ref) && !g.ops[step.ref].kind.upgrade && !g.ops[step.ref].handedOver)
  }

  /**
   * In every run the live map holds exactly the transports that were opened and not released. A
   * section opens one exactly for an undecided connect that waits for it while the Engine runs: a new
   * one, not aborted, under the identity of the connect; a release takes exactly its own entry away.
   */
  lemma LiveTransports(steps: seq<Step>, k: nat)
    requires k < |steps|
    ensures var g := After(steps, k); LiveIsOpen(g.live, g.ios)
    ensures var g, h, step := After(steps, k), After(steps, k + 1), steps[k];
            && (Opens(step) && Opening(g, step) ==>
                  && h.ios == g.ios + [Io(g.ops[step.ref].id, false, false)]
                  && g.ops[step.ref].id !in g.live && h.live == g.live[g.ops[step.ref].id := |g.ios|])
            && (Opens(step) && !Opening(g, step) ==> h == g)
            && (step.StepReleaseIo? && step.io < |g.ios| && !g.ios[step.io].released ==>
                  h.ios[step.io].released && h.live == g.live - {g.ios[step.io].id})
  {
    RunTransports(steps, k);
    var g, step := After(steps, k), steps[k];
    hide After, LifecycleProof.Inv, TransportInv, Accept, AcceptUpgrade, CommitRequest, TcpConnected, TcpFails,
         TlsTransport, TlsConnected, TlsFails, BeginSweep, TaskStep, SubmitNext, AbortIo, ReleaseIo, LiveIsOpen;
    NextState(steps, k);
    Parts(g);
    if Opens(step) {
      TcpOpens(g, step.ref);
      TlsOpens(g, step.ref);
      if Opening(g, step) { OpenedKeeps(g, Do(g, step), step.ref); }
    } else if step.StepReleaseIo? {
      ReleaseKeeps(g, step.io);
    }
  }

  lemma NextState(steps: seq<Step>, k: nat)
    requires k < |steps|
    ensures After(steps, k + 1) == Do(After(steps, k), steps[k])
  {
  }
}
