/**
 * What `cancel_all` and `begin_shutdown` reach: everything registered when they begin. And that a
 * shutdown gets as far as sealing the dispatcher.
 */
module LifecycleSweeps {
  import opened Bytes
  import opened Lifecycle
  import opened LifecycleProof
  import opened LifecycleRuns
  import opened LifecycleDecisions
  import opened LifecycleLeaks
  import opened LifecycleProgress
  import opened LifecycleFrames
  import opened Transports

  // ---- a transport that is aborted stays so ----

  lemma AbortedStays(g: Registry, step: Step, io: nat)
    requires Inv(g) && TransportInv(g) && io < |g.ios|
    ensures io < |Do(g, step).ios| && (g.ios[io].aborted ==> Do(g, step).ios[io].aborted)
  {
    hide Inv, TransportInv, Accept, AcceptUpgrade, CommitRequest, TcpConnected, TcpFails, TlsTransport, TlsConnected,
         TlsFails, BeginSweep, TaskStep, SubmitNext, AbortIo, ReleaseIo;
    if step.StepAccept? {
      AcceptEnters(g, step.kind, step.callback, step.full);
    } else if step.StepUpgrade? {
      UpgradeEnters(g, step.io, step.callback);
    } else if Opens(step) {
      TcpOpens(g, step.ref);
      TlsOpens(g, step.ref);
    } else if step.StepReleaseIo? {
      ReleaseKeeps(g, step.io);
    } else if !Seals(step) {
      hide Do;
      StepStill(g, step);
    }
  }

  // ---- a sweep loses nothing from its lists before it is done with it ----

  ghost predicate RequestCaught(g: Registry, i: nat, ref: nat) {
    && ref < |g.ops| && i < |g.tasks| && g.ops[ref].kind.Request?
    && (g.ops[ref].terminal || (g.tasks[i].Sweep? && ref in g.tasks[i].requests))
  }

  ghost predicate ConnectCaught(g: Registry, i: nat, ref: nat) {
    && ref < |g.ops| && i < |g.tasks|
    && (g.ops[ref].ready || (g.tasks[i].Sweep? && Owes(g.tasks[i], ref)))
  }

  ghost predicate IoCaught(g: Registry, i: nat, io: nat) {
    && io < |g.ios| && i < |g.tasks|
    && (g.ios[io].aborted || (g.tasks[i].Sweep? && io in g.tasks[i].ios))
  }

  lemma OtherStepKeepsTask(g: Registry, step: Step, i: nat)
    requires i < |g.tasks| && !(step.StepTask? && step.i == i)
    ensures i < |Do(g, step).tasks| && Do(g, step).tasks[i] == g.tasks[i]
  {
    if step.StepTask? {
      hide TaskStep;
      if step.i < |g.tasks| { TaskKeepsOthers(g, step.i, step.pick); }
    } else if step.StepAccept? {
      hide Accept;
      AcceptTasks(g, step.kind, step.callback, step.full, 0);
    } else {
      hide Do;
      StepAdds(g, step);
    }
  }

  /** What a pick crosses off. */
  lemma SweepTaskLists(g: Registry, i: nat, pick: Pick)
    requires i < |g.tasks| && g.tasks[i].Sweep?
    ensures var t, h := g.tasks[i], SweepTask(g, i, pick);
            && i < |h.tasks|
            && (h.tasks[i] == t || h.tasks[i] == Crossed(t, pick))
            && (h.tasks[i].Finished? ==> t.requests == {} && t.tcps == {} && t.ios == {} && t.tlss == {})
  {
    hide Publication, CommitRequest, AbortIo;
    var t := g.tasks[i];
    match pick {
      case PickRequest(r) => if r in t.requests { RequestPicked(g, i, r); }
      case PickTcp(r) => if r < |g.ops| { PublicationTasks(g, i, r, t.(tcps := t.tcps - {r})); }
      case PickTls(r) => if r < |g.ops| { PublicationTasks(g, i, r, t.(tlss := t.tlss - {r})); }
      case PickIo(io) => AbortKeepsTasks(g, io);
      case PickEnd =>
    }
  }

  lemma SweepTaskPublishes(g: Registry, i: nat, pick: Pick, ref: nat)
    requires i < |g.tasks| && g.tasks[i].Sweep? && ref < |g.ops| && Owes(g.tasks[i], ref)
    ensures var h := SweepTask(g, i, pick);
            ref < |h.ops| && i < |h.tasks| && (h.ops[ref].ready || (h.tasks[i].Sweep? && Owes(h.tasks[i], ref)))
  {
    hide Publication, CommitRequest, AbortIo, Evolves;
    SweepTaskLists(g, i, pick);
    SweepTaskEvolves(g, i, pick);
    var t := g.tasks[i];
    if pick == PickTcp(ref) {
      PublicationIsReady(g, i, ref, t.(tcps := t.tcps - {ref}));
    } else if pick == PickTls(ref) {
      PublicationIsReady(g, i, ref, t.(tlss := t.tlss - {ref}));
    }
  }

  lemma SweepTaskAborts(g: Registry, i: nat, pick: Pick, io: nat)
    requires i < |g.tasks| && g.tasks[i].Sweep? && io < |g.ios| && io in g.tasks[i].ios
    ensures var h := SweepTask(g, i, pick);
            io < |h.ios| && i < |h.tasks| && (h.ios[io].aborted || (h.tasks[i].Sweep? && io in h.tasks[i].ios))
  {
    SweepTaskStill(g, i, pick);
    SweepTaskLists(g, i, pick);
    hide Publication, CommitRequest;
  }

  lemma RequestStaysCaught(g: Registry, step: Step, i: nat, ref: nat)
    requires Inv(g) && RequestCaught(g, i, ref)
    ensures RequestCaught(Do(g, step), i, ref)
  {
    hide Inv, SweepTask, Concerns, Fails;
    StepEvolves(g, step);
    if step.StepTask? && step.i == i {
      TaskIndexStays(g, step);
      if !g.ops[ref].terminal {
        hide Evolves;
        SweepTaskDecides(g, i, step.pick, ref);
        SweepTaskLists(g, i, step.pick);
      } else {
        hide Do;
      }
    } else {
      hide Do;
      OtherStepKeepsTask(g, step, i);
    }
  }

  lemma TaskIndexStays(g: Registry, step: Step)
    requires step.StepTask? && step.i < |g.tasks|
    ensures step.i < |Do(g, step).tasks|
  {
    hide TaskStep;
    TaskKeepsOthers(g, step.i, step.pick);
  }

  lemma ConnectStaysCaught(g: Registry, step: Step, i: nat, ref: nat)
    requires Inv(g) && ConnectCaught(g, i, ref)
    ensures ConnectCaught(Do(g, step), i, ref)
  {
    StepEvolves(g, step);
    if step.StepTask? && step.i == i {
      TaskIndexStays(g, step);
      if !g.ops[ref].ready {
        SweepTaskPublishes(g, i, step.pick, ref);
        hide Inv, SweepTask, Evolves;
      }
    } else {
      OtherStepKeepsTask(g, step, i);
      hide Inv, Do;
    }
  }

  lemma IoStaysCaught(g: Registry, step: Step, i: nat, io: nat)
    requires Inv(g) && TransportInv(g) && IoCaught(g, i, io)
    ensures IoCaught(Do(g, step), i, io)
  {
    AbortedStays(g, step, io);
    if step.StepTask? && step.i == i {
      TaskIndexStays(g, step);
      if !g.ios[io].aborted {
        SweepTaskAborts(g, i, step.pick, io);
        hide Inv, SweepTask, TransportInv;
      }
    } else {
      OtherStepKeepsTask(g, step, i);
      hide Inv, Do;
    }
  }

  // ---- whole sweeps ----

  predicate BeginsSweep(step: Step) { step.StepCancelAll? || step.StepShutdown? }

  /** The lists of a sweep that has just begun. */
  lemma SweepBegins(g: Registry, step: Step)
    requires BeginsSweep(step)
    ensures var h, i := Do(g, step), |g.tasks|;
            && |h.tasks| == i + 1 && h.tasks[i].Sweep? && |h.ops| == |g.ops| && h.ios == g.ios
            && h.tasks[i].requests == g.requests.Values && h.tasks[i].tcps == g.connects.Values
            && h.tasks[i].ios == g.live.Values && h.tasks[i].tlss == g.tls.Values
  {
    hide SweptOp;
  }

  lemma BegunCatchesRequest(g: Registry, step: Step, id: nat)
    requires Inv(g) && BeginsSweep(step) && id in g.requests
    ensures RequestCaught(Do(g, step), |g.tasks|, g.requests[id])
  {
    hide Inv, Do;
    SweepBegins(g, step);
    StepEvolves(g, step);
    EntryIsIts(g, id);
    assert g.requests[id] in g.requests.Values;
  }

  lemma BegunCatchesConnect(g: Registry, step: Step, ref: nat)
    requires Inv(g) && BeginsSweep(step) && ref < |g.ops| && !g.ops[ref].terminal && !g.ops[ref].kind.Request?
    ensures ConnectCaught(Do(g, step), |g.tasks|, ref)
  {
    hide Inv, Do;
    SweepBegins(g, step);
    InItsMap(g, ref);
    var id := g.ops[ref].id;
    assert id in g.connects ==> g.connects[id] in g.connects.Values;
    assert id in g.tls ==> g.tls[id] in g.tls.Values;
  }

  lemma BegunCatchesIo(g: Registry, step: Step, id: nat)
    requires Inv(g) && BeginsSweep(step) && id in g.live
    ensures IoCaught(Do(g, step), |g.tasks|, g.live[id])
  {
    hide Inv, Do;
    SweepBegins(g, step);
    LiveInRange(g);
    assert g.live[id] in g.live.Values;
  }

  lemma LiveInRange(g: Registry)
    requires Inv(g)
    ensures forall id :: id in g.live ==> g.live[id] < |g.ios|
  {
    hide OwnerInv, AbortInv, ShutdownInv, ReactorInv, CallbackInv, OpsOk, IdsOk, Indexed;
  }

  lemma {:induction false} StaysCaught(steps: seq<Step>, j: nat, k: nat, i: nat, n: nat)
    requires j <= k <= |steps|
    ensures RequestCaught(After(steps, j), i, n) ==> RequestCaught(After(steps, k), i, n)
    ensures ConnectCaught(After(steps, j), i, n) ==> ConnectCaught(After(steps, k), i, n)
    ensures IoCaught(After(steps, j), i, n) ==> IoCaught(After(steps, k), i, n)
    decreases k
  {
    hide Inv, Do, TransportInv, RequestCaught, ConnectCaught, IoCaught;
    if j < k {
      StaysCaught(steps, j, k - 1, i, n);
      RunTransports(steps, k - 1);
      var g := After(steps, k - 1);
      if RequestCaught(g, i, n) { RequestStaysCaught(g, steps[k - 1], i, n); }
      if ConnectCaught(g, i, n) { ConnectStaysCaught(g, steps[k - 1], i, n); }
      if IoCaught(g, i, n) { IoStaysCaught(g, steps[k - 1], i, n); }
    }
  }

  /**
   * A sweep that has run to its end has reached everything there was when it began, whatever happened
   * meanwhile: every request registered then is decided, every connect undecided then has failed and is
   * visible, and every transport live then is aborted.
   */
  lemma SweepCompletes(steps: seq<Step>, j: nat, k: nat, n: nat)
    requires j < k <= |steps| && BeginsSweep(steps[j])
    requires var i := |After(steps, j).tasks|; i < |After(steps, k).tasks| && After(steps, k).tasks[i].Finished?
    ensures var g, h := After(steps, j), After(steps, k);
            && (n in g.requests ==> g.requests[n] < |h.ops| && h.ops[g.requests[n]].terminal)
            && (n < |g.ops| && !g.ops[n].terminal && !g.ops[n].kind.Request? ==>
                  n < |h.ops| && h.ops[n].terminal && h.ops[n].failed && h.ops[n].ready)
            && (n in g.live ==> g.live[n] < |h.ios| && h.ios[g.live[n]].aborted)
  {
    hide Inv, Do, RequestCaught, ConnectCaught, IoCaught, Concerns, Fails;
    RunKeeps(steps, j);
    var g, h, i := After(steps, j), After(steps, k), |After(steps, j).tasks|;
    NextState(steps, j);
    if n in g.requests {
      BegunCatchesRequest(g, steps[j], n);
      StaysCaught(steps, j + 1, k, i, g.requests[n]);
      CaughtIsDone(h, i, g.requests[n]);
    }
    if n in g.live {
      BegunCatchesIo(g, steps[j], n);
      StaysCaught(steps, j + 1, k, i, g.live[n]);
      CaughtIsDone(h, i, g.live[n]);
    }
    if n < |g.ops| && !g.ops[n].terminal && !g.ops[n].kind.Request? {
      BegunCatchesConnect(g, steps[j], n);
      StaysCaught(steps, j + 1, k, i, n);
      CaughtIsDone(h, i, n);
      DecidedBy(steps, j, k, n);
      SweepFails(g, steps[j], n);
    }
  }

  lemma CaughtIsDone(g: Registry, i: nat, n: nat)
    requires i < |g.tasks| && g.tasks[i].Finished?
    ensures RequestCaught(g, i, n) ==> n < |g.ops| && g.ops[n].terminal
    ensures ConnectCaught(g, i, n) ==> n < |g.ops| && g.ops[n].ready
    ensures IoCaught(g, i, n) ==> n < |g.ios| && g.ios[n].aborted
  {
  }

  lemma SweepFails(g: Registry, step: Step, ref: nat)
    requires BeginsSweep(step) && ref < |g.ops| && !g.ops[ref].kind.Request?
    ensures Concerns(g, step, ref) && Fails(g, step, ref)
  {
  }

  /** And it can always run to its end by its own steps. */
  lemma SweepCanFinish(steps: seq<Step>, k: nat, i: nat)
    requires k <= |steps| && i < |After(steps, k).tasks| && After(steps, k).tasks[i].Sweep?
    ensures Inv(After(steps, k))
    ensures var h := RunSweep(After(steps, k), i); i < |h.tasks| && h.tasks[i].Finished?
  {
    hide Inv, After, RunSweep;
    RunKeeps(steps, k);
  }

  // ---- shutdown gets to the seal ----

  lemma {:induction false} OneActivation(tasks: seq<Task>) returns (i: nat)
    requires Activations(tasks) > 0
    ensures i < |tasks| && IsActivation(tasks[i]) == 1
  {
    if IsActivation(tasks[0]) == 1 {
      i := 0;
    } else {
      var k := OneActivation(tasks[1..]);
      i := k + 1;
    }
  }

  lemma ActivateMoves(g: Registry, i: nat, ref: nat)
    requires i < |g.tasks| && ref < |g.ops|
    ensures var h := ActivateTask(g, i, ref);
            && h.phase == g.phase && h.seal == g.seal
            && (h.tasks == g.tasks[i := Finished] || h.tasks == g.tasks[i := Enqueue(ref, true)])
  {
    hide Extract, HasJob;
    var op := g.ops[ref].(active := true);
    if HasJob(op) {
      assert ActivateTask(g, i, ref) == Put(g, ref, Extract(op)).(tasks := g.tasks[i := Enqueue(ref, true)]);
    } else {
      assert ActivateTask(g, i, ref) == Put(g, ref, op).(tasks := g.tasks[i := Finished], activations := g.activations - 1);
    }
  }

  /** An activation under way goes on: its callback is not due and it is over, or its job is to be enqueued. */
  lemma ActivationGoesOn(g: Registry, i: nat)
    requires i < |g.tasks| && IsActivation(g.tasks[i]) == 1 && (g.tasks[i].Activate? ==> g.tasks[i].ref < |g.ops|)
    ensures var h, task := Do(g, StepTask(i, PickEnd)), g.tasks[i];
            && h.phase == g.phase && h.seal == g.seal
            && (h.tasks == g.tasks[i := Finished] || (task.Activate? && h.tasks == g.tasks[i := Enqueue(task.ref, true)]))
  {
    hide ActivateTask, SweepTask, Publication, AbortIo, Accept, AcceptUpgrade, CommitRequest, TcpConnected, TcpFails,
         TlsTransport, TlsConnected, TlsFails, BeginSweep, ReleaseIo, SubmitNext;
    if g.tasks[i].Activate? { ActivateMoves(g, i, g.tasks[i].ref); }
  }

  lemma ActivationInRange(g: Registry, i: nat)
    requires Inv(g) && i < |g.tasks|
    ensures g.tasks[i].Activate? ==> g.tasks[i].ref < |g.ops|
  {
    hide OpsOk, MapInv, OwnerInv, ReactorInv, ShutdownInv, CallbackInv, Cut;
    assert TaskOk(g.ops, g.ios, g.tasks[i]);
  }

  lemma FinishesActivation(g: Registry, i: nat) returns (more: seq<Step>)
    requires Inv(g) && i < |g.tasks| && IsActivation(g.tasks[i]) == 1
    ensures var h := Play(g, more);
            && Inv(h) && h.phase == g.phase && h.seal == g.seal && Activations(h.tasks) == Activations(g.tasks) - 1
            && OfTask(more, i)
  {
    hide Inv, Do, Activations;
    var step := StepTask(i, PickEnd);
    ActivationInRange(g, i);
    ActivationGoesOn(g, i);
    StepKeeps(g, step);
    ActivationsUpdate(g.tasks, i, Finished);
    var h := Do(g, step);
    more := [step];
    PlayFirst(g, step, []);
    if h.tasks != g.tasks[i := Finished] {
      ActivationsUpdate(g.tasks, i, Enqueue(g.tasks[i].ref, true));
      ActivationGoesOn(h, i);
      StepKeeps(h, step);
      ActivationsUpdate(h.tasks, i, Finished);
      PlayFirst(h, step, []);
      more := [step] + [step];
      PlayFirst(g, step, [step]);
    }
  }

  lemma Counted(g: Registry)
    requires Inv(g)
    ensures g.activations == Activations(g.tasks)
  {
    hide OpsOk, MapInv, OwnerInv, AbortInv, ReactorInv, ShutdownInv;
  }

  lemma SealSteps(g: Registry)
    requires !g.phase.Running? && g.activations == 0 && !g.seal.Sealed?
    ensures g.seal.Unsealed? ==> Do(Do(g, StepAwait), StepSeal).seal.Sealed?
    ensures g.seal.Awaited? ==> Do(g, StepSeal).seal.Sealed?
  {
  }

  lemma {:induction false} PlayAppends(g: Registry, a: seq<Step>, b: seq<Step>)
    ensures Play(g, a + b) == Play(Play(g, a), b)
    decreases |a|
  {
    hide Do;
    if a == [] {
      assert a + b == b;
    } else {
      assert (a + b)[0] == a[0] && (a + b)[1..] == a[1..] + b;
      PlayAppends(Do(g, a[0]), a[1..], b);
    }
  }

  lemma {:induction false} GetsSealed(g: Registry) returns (more: seq<Step>)
    requires Inv(g) && !g.phase.Running?
    ensures Play(g, more).seal.Sealed?
    decreases Activations(g.tasks)
  {
    hide Inv, Do, Activations;
    more := [];
    if !g.seal.Sealed? {
      if Activations(g.tasks) > 0 {
        var i := OneActivation(g.tasks);
        var first := FinishesActivation(g, i);
        var rest := GetsSealed(Play(g, first));
        more := first + rest;
        PlayAppends(g, first, rest);
      } else {
        Counted(g);
        SealSteps(g);
        if g.seal.Unsealed? {
          more := [StepAwait] + [StepSeal];
          PlayFirst(g, StepAwait, [StepSeal]);
          PlayFirst(Do(g, StepAwait), StepSeal, []);
        } else {
          more := [StepSeal];
          PlayFirst(g, StepSeal, []);
        }
      }
    }
  }

  /** From every state of a shutdown the activations under way can finish, and then the dispatcher is sealed. */
  lemma ShutdownCanSeal(steps: seq<Step>) returns (more: seq<Step>)
    requires After(steps, |steps|).phase.ShuttingDown?
    ensures After(steps + more, |steps + more|).seal.Sealed?
  {
    RunKeeps(steps, |steps|);
    var g := After(steps, |steps|);
    hide After, Do, Inv;
    more := GetsSealed(g);
    AfterAppends(steps, more);
  }
}
