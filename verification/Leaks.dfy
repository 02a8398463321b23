/** No operation that is over stays in the registry's maps: its entry is gone, or a thread is about to remove it. */
module LifecycleLeaks {
  import opened Bytes
  import opened Lifecycle
  import opened LifecycleProof
  import opened LifecycleRuns
  import opened LifecycleDecisions

  /** A thread that has completed the request is about to take it out of the map. */
  predicate Removing(g: Registry, i: nat, ref: nat) { i < |g.tasks| && g.tasks[i].Remove? && g.tasks[i].ref == ref }

  ghost predicate Tidy(g: Registry, id: nat) {
    id in g.requests && g.requests[id] < |g.ops| && g.ops[g.requests[id]].terminal ==>
      exists i: nat :: Removing(g, i, g.requests[id])
  }

  // ---- tasks ----

  lemma CommitSpawns(g: Registry, ref: nat)
    ensures var h := CommitRequest(g, ref);
            && g.tasks <= h.tasks && h.requests == g.requests
            && (ref < |g.ops| && g.ops[ref].kind.Request? && !g.ops[ref].terminal ==> Removing(h, |g.tasks|, ref))
  {
    hide Extract, HasJob, Commit;
  }

  /** The request map only loses entries. */
  ghost predicate Entries(g: Registry, h: Registry) {
    forall id :: id in h.requests ==> id in g.requests && h.requests[id] == g.requests[id]
  }

  /** Tasks are only added, and the request map only loses entries. */
  ghost predicate Adds(g: Registry, h: Registry) { g.tasks <= h.tasks && Entries(g, h) }

  lemma TcpConnectedAdds(g: Registry, ref: nat)
    ensures Adds(g, TcpConnected(g, ref))
  {
    hide Extract, HasJob, Commit, MarkReady;
  }

  lemma TcpFailsAdds(g: Registry, ref: nat)
    ensures Adds(g, TcpFails(g, ref))
  {
    hide Commit;
  }

  lemma TlsTransportAdds(g: Registry, ref: nat)
    ensures Adds(g, TlsTransport(g, ref))
  {
  }

  lemma TlsConnectedAdds(g: Registry, ref: nat)
    ensures Adds(g, TlsConnected(g, ref))
  {
    hide Commit;
  }

  lemma TlsFailsAdds(g: Registry, ref: nat)
    ensures Adds(g, TlsFails(g, ref))
  {
    hide Commit, LiveIo;
  }

  lemma SweepAdds(g: Registry, last: bool)
    ensures Adds(g, BeginSweep(g, last))
  {
    hide SweptOp;
  }

  lemma AdmittedTasks(g: Registry, id: nat, kind: Kind, callback: bool, nextId: nat)
    ensures var h := Admitted(g, id, kind, callback, nextId);
            g.tasks <= h.tasks && h.requests == if kind.Request? then g.requests[id := |g.ops|] else g.requests
  {
  }

  lemma AcceptTasks(g: Registry, kind: Kind, callback: bool, full: bool, io: nat)
    ensures g.tasks <= Accept(g, kind, callback, full).tasks
    ensures var h := Accept(g, kind, callback, full);
            forall id :: id in h.requests ==>
              || (id in g.requests && h.requests[id] == g.requests[id])
              || (h.requests[id] == |g.ops| < |h.ops| && !h.ops[|g.ops|].terminal)
    ensures Adds(g, AcceptUpgrade(g, io, callback))
  {
    hide Admitted, LiveIo;
    AdmittedTasks(g, g.nextId, kind, callback, g.nextId + 1);
    AdmittedOps(g, g.nextId, kind, callback, g.nextId + 1);
    if io < |g.ios| { AdmittedTasks(g, g.ios[io].id, Tls(true), callback, g.nextId); }
  }

  lemma PublicationKeepsOthers(g: Registry, i: nat, ref: nat, rest: Task)
    requires i < |g.tasks| && ref < |g.ops|
    ensures var h := Publication(g, i, ref, rest);
            && h.requests == g.requests && |g.tasks| <= |h.tasks|
            && forall k: nat :: k < |g.tasks| && k != i ==> h.tasks[k] == g.tasks[k]
  {
    hide Extract, HasJob, MarkReady;
  }

  /** A task leaves the others alone, and takes at most its own request out of the map. */
  ghost predicate OthersStay(g: Registry, h: Registry, i: nat) {
    && |g.tasks| <= |h.tasks| && (forall k: nat :: k < |g.tasks| && k != i ==> h.tasks[k] == g.tasks[k])
    && Entries(g, h)
  }

  lemma SweepTaskKeepsOthers(g: Registry, i: nat, pick: Pick)
    requires i < |g.tasks| && g.tasks[i].Sweep?
    ensures OthersStay(g, SweepTask(g, i, pick), i)
  {
    hide Publication, CommitRequest, AbortIo;
    var t := g.tasks[i];
    match pick {
      case PickRequest(r) => CommitSpawns(g.(tasks := g.tasks[i := t.(requests := t.requests - {r})]), r);
      case PickTcp(r) => if r < |g.ops| { PublicationKeepsOthers(g, i, r, t.(tcps := t.tcps - {r})); }
      case PickTls(r) => if r < |g.ops| { PublicationKeepsOthers(g, i, r, t.(tlss := t.tlss - {r})); }
      case PickIo(io) => AbortKeepsTasks(g, io);
      case PickEnd =>
    }
  }

  lemma AbortKeepsTasks(g: Registry, io: nat)
    ensures AbortIo(g, io).tasks == g.tasks && AbortIo(g, io).requests == g.requests
  {
  }

  lemma ActivateKeepsOthers(g: Registry, i: nat, ref: nat)
    requires i < |g.tasks| && ref < |g.ops|
    ensures OthersStay(g, ActivateTask(g, i, ref), i)
  {
    hide Extract, HasJob;
  }

  lemma TaskKeepsOthers(g: Registry, i: nat, pick: Pick)
    requires i < |g.tasks|
    ensures OthersStay(g, TaskStep(g, i, pick), i)
    ensures g.tasks[i].Remove? && g.tasks[i].ref < |g.ops| ==> g.ops[g.tasks[i].ref].id !in TaskStep(g, i, pick).requests
  {
    hide Publication, ActivateTask, SweepTask, AbortIo;
    match g.tasks[i] {
      case Activate(r) => if r < |g.ops| { ActivateKeepsOthers(g, i, r); }
      case Publish(r) => if r < |g.ops| { PublicationKeepsOthers(g, i, r, Finished); }
      case Abort(_, io) => AbortKeepsTasks(g, io);
      case Sweep(_, _, _, _, _) => SweepTaskKeepsOthers(g, i, pick);
      case _ =>
    }
  }

  lemma DistantAdds(g: Registry, step: Step)
    requires Distant(step)
    ensures Adds(g, Do(g, step))
  {
    hide Accept, AcceptUpgrade, CommitRequest, TcpConnected, TcpFails, TlsTransport, TlsConnected, TlsFails, AbortIo,
         ReleaseIo, SubmitNext, TaskStep, BeginSweep;
    if step.StepAbortIo? {
      AbortKeepsTasks(g, step.io);
    } else if step.StepReleaseIo? {
      ReleaseKeepsTasks(g, step.io);
    }
  }

  lemma CommitAdds(g: Registry, ref: nat)
    ensures Adds(g, CommitRequest(g, ref)) && Adds(g, CommitRequest(g, ref).(hand := None))
  {
    hide CommitRequest;
    CommitSpawns(g, ref);
  }

  lemma SubmitAdds(g: Registry, immediate: bool)
    ensures Adds(g, SubmitNext(g, immediate))
  {
    hide CommitRequest;
    if g.batch != [] { CommitSpawns(g, g.batch[0]); }
  }

  /** Every other section adds tasks at most. */
  lemma StepAdds(g: Registry, step: Step)
    requires !step.StepTask? && !step.StepAccept?
    ensures Adds(g, Do(g, step))
  {
    hide Accept, AcceptUpgrade, CommitRequest, TcpConnected, TcpFails, TlsTransport, TlsConnected, TlsFails, AbortIo,
         ReleaseIo, SubmitNext, TaskStep, BeginSweep, Adds;
    match step {
      case StepUpgrade(io, callback) => AcceptTasks(g, Request, callback, false, io);
      case StepCommit(r) => CommitAdds(g, r);
      case StepTcpConnected(r) => TcpConnectedAdds(g, r);
      case StepTcpFails(r) => TcpFailsAdds(g, r);
      case StepTlsTransport(r) => TlsTransportAdds(g, r);
      case StepTlsConnected(r) => TlsConnectedAdds(g, r);
      case StepTlsFails(r) => TlsFailsAdds(g, r);
      case StepCancelAll => SweepAdds(g, false);
      case StepShutdown => SweepAdds(g, true);
      case StepSubmit(immediate) => SubmitAdds(g, immediate);
      case StepCommitHand => if g.hand.Some? { CommitAdds(g, g.hand.value); } else { NothingAdded(g); }
      case _ => DistantAdds(g, step);
    }
  }

  lemma NothingAdded(g: Registry)
    ensures Adds(g, g)
  {
  }

  lemma ReleaseKeepsTasks(g: Registry, io: nat)
    ensures ReleaseIo(g, io).tasks == g.tasks && ReleaseIo(g, io).requests == g.requests
  {
    hide LiveIo;
  }

  // ---- a completed request is being removed ----

  lemma CompletionRemoves(g: Registry, step: Step, ref: nat) returns (i: nat)
    requires ref < |g.ops| && g.ops[ref].kind.Request? && !g.ops[ref].terminal && Completes(g, step, ref)
    ensures Removing(Do(g, step), i, ref)
  {
    hide CommitRequest, Accept, AcceptUpgrade, TcpConnected, TcpFails, TlsTransport, TlsConnected, TlsFails, AbortIo,
         ReleaseIo, BeginSweep, Publication;
    CommitSpawns(g, ref);
    i := |g.tasks|;
    if SweepsRequest(g, step, ref) {
      var t := g.tasks[step.i];
      CommitSpawns(g.(tasks := g.tasks[step.i := t.(requests := t.requests - {ref})]), ref);
    }
  }

  lemma StaysRemoving(g: Registry, step: Step, i: nat, ref: nat)
    requires Removing(g, i, ref) && !(step.StepTask? && step.i == i)
    ensures Removing(Do(g, step), i, ref)
  {
    if step.StepTask? {
      hide TaskStep;
      if step.i < |g.tasks| { TaskKeepsOthers(g, step.i, step.pick); }
    } else if step.StepAccept? {
      hide Accept;
      AcceptTasks(g, step.kind, step.callback, step.full, 0);
    } else {
      hide Do;
      StepAdds(g, step);
    }
  }

  lemma EntriesOfStep(g: Registry, step: Step, id: nat)
    ensures var h := Do(g, step);
            id in h.requests ==>
              || (id in g.requests && h.requests[id] == g.requests[id])
              || (h.requests[id] == |g.ops| < |h.ops| && !h.ops[|g.ops|].terminal)
  {
    if step.StepTask? {
      hide TaskStep;
      if step.i < |g.tasks| { TaskKeepsOthers(g, step.i, step.pick); }
    } else if step.StepAccept? {
      hide Accept;
      AcceptTasks(g, step.kind, step.callback, step.full, 0);
    } else {
      hide Do;
      StepAdds(g, step);
    }
  }

  lemma EntryIsIts(g: Registry, id: nat)
    requires Inv(g) && id in g.requests
    ensures g.requests[id] < |g.ops| && g.ops[g.requests[id]].id == id && g.ops[g.requests[id]].kind.Request?
  {
    hide OwnerInv, AbortInv, ShutdownInv, ReactorInv, CallbackInv, OpsOk, IdsOk, LiveOk;
  }

  lemma StepIsTidy(g: Registry, step: Step, id: nat)
    requires Inv(g) && Tidy(g, id)
    ensures Tidy(Do(g, step), id)
  {
    hide Inv, Do, Removing, Completes;
    var h := Do(g, step);
    EntriesOfStep(g, step, id);
    if id in g.requests && id in h.requests && h.requests[id] == g.requests[id] {
      EntryIsIts(g, id);
      var ref := g.requests[id];
      if g.ops[ref].terminal {
        var i: nat :| Removing(g, i, ref);
        if step.StepTask? && step.i == i { Removed(g, step, i, ref); } else { StaysRemoving(g, step, i, ref); }
      } else {
        StepDecides(g, step, ref);
        if Completes(g, step, ref) { var i := CompletionRemoves(g, step, ref); }
      }
    }
  }

  lemma Removed(g: Registry, step: Step, i: nat, ref: nat)
    requires Removing(g, i, ref) && step.StepTask? && step.i == i && ref < |g.ops|
    ensures g.ops[ref].id !in Do(g, step).requests
  {
    hide TaskStep;
    TaskKeepsOthers(g, i, step.pick);
  }

  lemma {:induction false} RunIsTidy(steps: seq<Step>, k: nat, id: nat)
    requires k <= |steps|
    ensures Tidy(After(steps, k), id)
    decreases k
  {
    hide Inv, Do, Removing;
    if k > 0 {
      RunKeeps(steps, k - 1);
      RunIsTidy(steps, k - 1, id);
      StepIsTidy(After(steps, k - 1), steps[k - 1], id);
    }
  }

  /**
   * Nothing that is over stays registered. In every run the connect maps hold undecided operations only,
   * and a request that is decided has left its map, or the thread that completed it is about to remove it.
   */
  lemma NoLeaks(steps: seq<Step>, k: nat, id: nat)
    requires k <= |steps|
    ensures var g := After(steps, k);
            && (id in g.requests ==>
                  && g.requests[id] < |g.ops|
                  && (g.ops[g.requests[id]].terminal ==> exists i: nat :: Removing(g, i, g.requests[id])))
            && (id in g.connects ==> g.connects[id] < |g.ops| && !g.ops[g.connects[id]].terminal)
            && (id in g.tls ==> g.tls[id] < |g.ops| && !g.ops[g.tls[id]].terminal)
  {
    RunKeeps(steps, k);
    RunIsTidy(steps, k, id);
    var g := After(steps, k);
    hide After, OwnerInv, AbortInv, ShutdownInv, ReactorInv, CallbackInv, OpsOk, IdsOk, LiveOk, Removing;
  }
}
