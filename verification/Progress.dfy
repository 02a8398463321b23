/**
 * What a run of the registry can always get done: admissions enter, decided connects become visible,
 * and requests are completed by the reactor.
 */
module LifecycleProgress {
  import opened Bytes
  import opened Lifecycle
  import opened LifecycleProof
  import opened LifecycleRuns
  import opened LifecycleDecisions
  import Transports

  // ---- admission ----

  /** The newest operation: undecided, in its map and last in the queue. */
  ghost predicate Entered(g: Registry, h: Registry, id: nat, kind: Kind, callback: bool) {
    && h.ops == g.ops + [NewOp(id, kind, callback)] && h.queue == g.queue + [|g.ops|]
    && (match kind
        case Request => InRequests(h, |g.ops|)
        case Tcp => InConnects(h, |g.ops|)
        case Tls(_) => InTls(h, |g.ops|))
    && (callback ==> h.tasks == g.tasks + [Activate(|g.ops|)])
  }

  lemma AdmittedEnters(g: Registry, id: nat, kind: Kind, callback: bool, nextId: nat)
    ensures Entered(g, Admitted(g, id, kind, callback, nextId), id, kind, callback)
  {
  }

  /**
   * In every run an admission enters exactly if the Engine is running and the command queue has room,
   * under an identity that no operation and no transport has had; an upgrade enters exactly for a live
   * connection that has no TLS operation pending, and keeps its identity. Otherwise no operation changes.
   */
  lemma AdmissionEnters(steps: seq<Step>, k: nat)
    requires k < |steps|
    ensures var g, h := After(steps, k), After(steps, k + 1);
            && (steps[k].StepAccept? ==>
                  if g.phase.Running? && !steps[k].full && steps[k].kind != Tls(true) then
                    && Entered(g, h, g.nextId, steps[k].kind, steps[k].callback)
                    && (forall ref: nat :: ref < |g.ops| ==> g.ops[ref].id != g.nextId)
                    && (forall io: nat :: io < |g.ios| ==> g.ios[io].id != g.nextId)
                  else h.ops == g.ops)
            && (steps[k].StepUpgrade? ==>
                  var io := steps[k].io;
                  if g.phase.Running? && io < |g.ios| && LiveIo(g, g.ios[io].id) == Some(io) && g.ios[io].id !in g.tls
                  then Entered(g, h, g.ios[io].id, Tls(true), steps[k].callback) else h.ops == g.ops)
  {
    RunKeeps(steps, k);
    var g := After(steps, k);
    Transports.InvFresh(g);
    hide Inv, Admitted, Entered, LiveIo;
    if steps[k].StepAccept? {
      AdmittedEnters(g, g.nextId, steps[k].kind, steps[k].callback, g.nextId + 1);
    } else if steps[k].StepUpgrade? && steps[k].io < |g.ios| {
      AdmittedEnters(g, g.ios[steps[k].io].id, Tls(true), steps[k].callback, g.nextId);
    }
  }

  // ---- runs and their continuations ----

  function Play(g: Registry, steps: seq<Step>): (h: Registry)
    decreases |steps|
  {
    if steps == [] then g else Play(Do(g, steps[0]), steps[1..])
  }

  lemma {:induction false} AfterAppends(steps: seq<Step>, more: seq<Step>)
    ensures After(steps + more, |steps + more|) == Play(After(steps, |steps|), more)
    decreases |more|
  {
    hide Do;
    if more == [] {
      assert steps + more == steps;
    } else {
      var longer := steps + [more[0]];
      assert longer + more[1..] == steps + more;
      AfterAppends(longer, more[1..]);
      SamePrefix(steps, longer, |steps|);
      assert After(longer, |longer|) == Do(After(longer, |steps|), more[0]);
    }
  }

  lemma {:induction false} SamePrefix(a: seq<Step>, b: seq<Step>, k: nat)
    requires k <= |a| <= |b| && a == b[..|a|]
    ensures After(a, k) == After(b, k)
    decreases k
  {
    hide Do;
    if k > 0 { SamePrefix(a, b, k - 1); }
  }

  lemma PlayFirst(g: Registry, step: Step, rest: seq<Step>)
    ensures Play(g, [step] + rest) == Play(Do(g, step), rest)
  {
    hide Do;
    assert ([step] + rest)[1..] == rest;
  }

  // ---- decided connects become visible ----

  predicate OfTask(steps: seq<Step>, i: nat) { forall k :: 0 <= k < |steps| ==> steps[k].StepTask? && steps[k].i == i }

  /** How many steps of its own a task has before it, but for the last. */
  function Left(t: Task): (n: nat) {
    match t
    case Abort(_, _) => 1
    case Sweep(_, _, _, _, _) => Size(t)
    case _ => 0
  }

  lemma PublicationIsReady(g: Registry, i: nat, ref: nat, rest: Task)
    requires i < |g.tasks| && ref < |g.ops|
    ensures var h := Publication(g, i, ref, rest); ref < |h.ops| && h.ops[ref].ready
  {
    hide HasJob;
  }

  /** The task does one thing; it has published, or owes it still and has less left to do. */
  lemma TaskGoesOn(g: Registry, i: nat, ref: nat) returns (pick: Pick)
    requires Inv(g) && i < |g.tasks| && Owes(g.tasks[i], ref) && ref < |g.ops|
    ensures var h := Do(g, StepTask(i, pick));
            && i < |h.tasks| && ref < |h.ops|
            && (h.ops[ref].ready || (Owes(h.tasks[i], ref) && Left(h.tasks[i]) < Left(g.tasks[i])))
  {
    pick := PickEnd;
    match g.tasks[i] {
      case Publish(_) =>
        hide Inv, Publication;
        PublicationIsReady(g, i, ref, Finished);
        PublicationTasks(g, i, ref, Finished);
      case Abort(_, io) =>
        hide Inv, AbortIo;
        AbortIoTasks(g, io);
      case Sweep(_, _, _, _, _) =>
        hide Inv, SweepTask;
        pick := SweepGoesOn(g, i, ref);
    }
  }

  lemma AbortIoTasks(g: Registry, io: nat)
    ensures AbortIo(g, io).tasks == g.tasks && AbortIo(g, io).ops == g.ops
  {
  }

  lemma SweepGoesOn(g: Registry, i: nat, ref: nat) returns (pick: Pick)
    requires Inv(g) && i < |g.tasks| && g.tasks[i].Sweep? && Owes(g.tasks[i], ref) && ref < |g.ops|
    ensures var h := SweepTask(g, i, pick);
            && i < |h.tasks| && ref < |h.ops|
            && (h.ops[ref].ready || (Owes(h.tasks[i], ref) && Left(h.tasks[i]) < Left(g.tasks[i])))
  {
    hide Inv, CommitRequest, Publication, AbortIo, Evolves;
    var t := g.tasks[i];
    pick := NextPick(t);
    PickInRange(g, i);
    SweepShrinks(g, i);
    SweepTaskEvolves(g, i, pick);
    if pick == PickTcp(ref) {
      PublicationIsReady(g, i, ref, t.(tcps := t.tcps - {ref}));
    } else if pick == PickTls(ref) {
      PublicationIsReady(g, i, ref, t.(tlss := t.tlss - {ref}));
    } else {
      hide SweepTask;
      if pick.PickRequest? { RequestPicked(g, i, pick.ref); } else { OtherPicked(g, i, pick); }
    }
  }

  lemma {:induction false} Publishes(g: Registry, i: nat, ref: nat) returns (more: seq<Step>)
    requires Inv(g) && i < |g.tasks| && Owes(g.tasks[i], ref) && ref < |g.ops|
    ensures OfTask(more, i) && ref < |Play(g, more).ops| && Play(g, more).ops[ref].ready
    decreases Left(g.tasks[i])
  {
    hide Inv, Do, Owes, Left;
    var pick := TaskGoesOn(g, i, ref);
    var step := StepTask(i, pick);
    StepKeeps(g, step);
    var h := Do(g, step);
    more := [step];
    PlayFirst(g, step, []);
    if !h.ops[ref].ready {
      var rest := Publishes(h, i, ref);
      more := [step] + rest;
      PlayFirst(g, step, rest);
    }
  }

  /** A connect that is decided is visible, or the thread that owes its publication makes it visible by its own steps. */
  lemma VisibleInTheEnd(steps: seq<Step>, ref: nat) returns (i: nat, more: seq<Step>)
    requires ref < |After(steps, |steps|).ops|
    requires var op := After(steps, |steps|).ops[ref]; op.terminal && !op.kind.Request?
    ensures OfTask(more, i)
    ensures var h := After(steps + more, |steps + more|); ref < |h.ops| && h.ops[ref].ready
  {
    RunKeeps(steps, |steps|);
    var g := After(steps, |steps|);
    hide After, Do;
    i, more := 0, [];
    if g.ops[ref].ready {
      assert steps + more == steps;
    } else {
      i := WhoOwes(g, ref);
      more := Publishes(g, i, ref);
      AfterAppends(steps, more);
    }
  }

  lemma WhoOwes(g: Registry, ref: nat) returns (i: nat)
    requires Inv(g) && ref < |g.ops| && g.ops[ref].terminal && !g.ops[ref].kind.Request? && !g.ops[ref].ready
    ensures i < |g.tasks| && Owes(g.tasks[i], ref)
  {
    hide MapInv, AbortInv, ShutdownInv, ReactorInv, CallbackInv;
    assert OpOk(g.ops[ref]);
    assert OwnerPays(g.ops, g.tasks, ref);
    i := g.ops[ref].owner.value;
  }

  // ---- the reactor completes requests ----

  predicate OfReactor(steps: seq<Step>) {
    forall k :: 0 <= k < |steps| ==>
      steps[k].StepDrain? || steps[k] == StepSubmit(false) || steps[k].StepTakeCompletion? || steps[k].StepCommitHand?
  }

  /** An undecided request. */
  ghost predicate Pending(g: Registry, ref: nat) {
    ref < |g.ops| && g.ops[ref].kind.Request? && !g.ops[ref].terminal
  }

  lemma PendingIsHeld(g: Registry, ref: nat)
    requires Inv(g) && Pending(g, ref)
    ensures Held(g, ref)
  {
    hide OpsOk, MapInv, OwnerInv, AbortInv, ShutdownInv, CallbackInv;
  }

  lemma StaysPending(g: Registry, step: Step, ref: nat)
    requires Inv(g) && Pending(g, ref) && !Concerns(g, step, ref)
    ensures Inv(Do(g, step)) && Pending(Do(g, step), ref)
  {
    hide Inv, Do, Concerns, Fails;
    StepKeeps(g, step);
    StepDecides(g, step, ref);
  }

  /** The next step of the reactor on the way to this request. */
  function Towards(g: Registry, ref: nat): (step: Step) {
    if g.hand.Some? then StepCommitHand
    else if ref in g.active then StepTakeCompletion(ref)
    else if g.batch == [] then StepDrain
    else StepSubmit(false)
  }

  function Distance(g: Registry, ref: nat): (d: (nat, nat, nat)) {
    (if g.hand == Some(ref) then 0 else if ref in g.active then 1 else if ref in g.batch then 2 else 3,
     if g.hand.Some? then 1 else 0,
     |g.batch|)
  }

  predicate Closer(a: (nat, nat, nat), b: (nat, nat, nat)) {
    a.0 < b.0 || (a.0 == b.0 && (a.1 < b.1 || (a.1 == b.1 && a.2 < b.2)))
  }

  lemma CommitLeavesReactor(g: Registry, r: nat)
    ensures var h := CommitRequest(g, r); h.hand == g.hand && h.active == g.active && h.batch == g.batch && h.queue == g.queue
  {
    hide HasJob, Extract, Commit;
  }

  lemma SubmitMoves(g: Registry, ref: nat)
    requires Pending(g, ref) && g.batch != []
    ensures var h, more := SubmitNext(g, false), if g.batch[0] == ref then {ref} else {};
            h.hand == g.hand && h.batch == g.batch[1..] && h.queue == g.queue && g.active + more <= h.active
  {
    hide CommitRequest;
    var r := g.batch[0];
    if r >= |g.ops| || g.ops[r].terminal || !g.ops[r].kind.Request? {
      assert SubmitNext(g, false) == g.(batch := g.batch[1..]);
    } else {
      assert SubmitNext(g, false) == g.(batch := g.batch[1..], active := g.active + {r});
    }
  }

  /** What the next step of the reactor does to the places where requests wait. */
  lemma TowardsMoves(g: Registry, ref: nat)
    requires Pending(g, ref) && g.hand != Some(ref)
    ensures var h := Do(g, Towards(g, ref));
            if g.hand.Some? then h.hand.None? && h.active == g.active && h.batch == g.batch && h.queue == g.queue
            else if ref in g.active then h.hand == Some(ref)
            else if g.batch == [] then h.hand.None? && h.active == g.active && h.batch == g.queue && h.queue == []
            else h.hand.None? && h.batch == g.batch[1..] && h.queue == g.queue && g.active <= h.active
                 && (g.batch[0] == ref ==> ref in h.active)
  {
    hide Accept, AcceptUpgrade, CommitRequest, TcpConnected, TcpFails, TlsTransport, TlsConnected, TlsFails,
         BeginSweep, TaskStep, AbortIo, ReleaseIo, SubmitNext, Pending;
    if g.hand.Some? { CommitLeavesReactor(g, g.hand.value); }
    if g.batch != [] { SubmitMoves(g, ref); }
  }

  lemma TowardsIsCloser(g: Registry, ref: nat)
    requires Pending(g, ref) && Held(g, ref) && g.hand != Some(ref)
    ensures var h := Do(g, Towards(g, ref)); Held(h, ref) ==> Closer(Distance(h, ref), Distance(g, ref))
  {
    hide Do;
    TowardsMoves(g, ref);
    if g.hand.None? && ref !in g.active && g.batch != [] { assert g.batch == [g.batch[0]] + g.batch[1..]; }
  }

  lemma TowardsIsHarmless(g: Registry, ref: nat)
    requires Pending(g, ref) && g.hand != Some(ref)
    ensures !Concerns(g, Towards(g, ref), ref)
  {
  }

  lemma {:induction false} ReactorCompletes(g: Registry, ref: nat) returns (more: seq<Step>)
    requires Inv(g) && Pending(g, ref)
    ensures OfReactor(more) && ref < |Play(g, more).ops| && Play(g, more).ops[ref].terminal
    decreases Distance(g, ref).0, Distance(g, ref).1, Distance(g, ref).2
  {
    hide Inv, Do, Held, Concerns, Distance;
    PendingIsHeld(g, ref);
    if g.hand == Some(ref) {
      more := [StepCommitHand];
      PlayFirst(g, StepCommitHand, []);
      StepDecides(g, StepCommitHand, ref);
      HandConcerns(g, ref);
    } else {
      var step := Towards(g, ref);
      TowardsIsHarmless(g, ref);
      StaysPending(g, step, ref);
      TowardsIsCloser(g, ref);
      PendingIsHeld(Do(g, step), ref);
      var rest := ReactorCompletes(Do(g, step), ref);
      more := [step] + rest;
      PlayFirst(g, step, rest);
    }
  }

  lemma HandConcerns(g: Registry, ref: nat)
    requires Pending(g, ref) && g.hand == Some(ref)
    ensures Concerns(g, StepCommitHand, ref)
  {
  }

  /** Every request that has not been decided is completed by steps of the reactor alone. */
  lemma RequestsCanComplete(steps: seq<Step>, ref: nat) returns (more: seq<Step>)
    requires Pending(After(steps, |steps|), ref)
    ensures OfReactor(more)
    ensures var h := After(steps + more, |steps + more|); ref < |h.ops| && h.ops[ref].terminal
  {
    RunKeeps(steps, |steps|);
    var g := After(steps, |steps|);
    hide After, Do;
    more := ReactorCompletes(g, ref);
    AfterAppends(steps, more);
  }
}
