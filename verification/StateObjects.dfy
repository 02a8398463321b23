/**
 * The per-operation objects of src/registry.rs, each method one critical section of their own lock,
 * against the steps of the lifecycle model. `Job` is what a callback job carries away.
 */
module StateObjects {
  import opened Bytes
  import opened Lifecycle

  datatype Job = Job(completion: nat, inflightPermit: bool)

  /** A buffered request: deliverable as soon as it is terminal. */
  class RequestState {
    const id: nat
    var completion: Option<nat>
    var terminal: bool
    var callback: bool
    var callbackActive: bool
    var inflightPermit: bool
    var callbackPermit: bool
    ghost var wins: nat
    ghost var jobs: nat

    ghost function View(): (op: Op)
      reads this
    {
      Op(id, Request, terminal, false, false, callback, callbackActive, false, None, None, wins, 0, jobs)
    }

    /**
     * The permits live as long as the callback may still need them, and a callback finds its
     * completion and its permits when its time comes, so none of the three extractions can fail.
     */
    ghost predicate Valid()
      reads this
    {
      && (inflightPermit <==> !terminal || callback)
      && (callback ==> callbackPermit)
      && (callback && terminal ==> completion.Some?)
      && (terminal && !callback ==> !callbackPermit)
      && (callback && callbackActive ==> !terminal)
    }

    constructor (id: nat, callback: bool)
      ensures Valid() && View() == NewOp(id, Request, callback)
    {
      this.id, this.callback := id, callback;
      completion, terminal, callbackActive := None, false, false;
      inflightPermit, callbackPermit := true, callback;
      wins, jobs := 0, 0;
    }

    method Decide(result: nat) returns (won: bool, job: Option<Job>)
      requires Valid()
      modifies this
      ensures Valid() && (won <==> !old(terminal))
      ensures View() == if won then Extract(Commit(old(View()), false, None, None)) else old(View())
      ensures job.Some? <==> won && HasJob(Commit(old(View()), false, None, None))
      ensures job.Some? ==> job.value == Job(result, true)
      ensures won && job.None? ==> completion == Some(result)
      ensures !won ==> completion == old(completion)
    {
      if terminal {
        return false, None;
      }
      terminal, completion, wins := true, Some(result), wins + 1;
      job := TakeJob();
      if !callback && job.None? {
        inflightPermit, callbackPermit := false, false;
      }
      won := true;
    }

    method ActivateCallback() returns (job: Option<Job>)
      requires Valid() && !callbackActive
      modifies this
      ensures Valid() && View() == Extract(old(View()).(active := true))
      ensures job.Some? <==> HasJob(old(View()).(active := true))
      ensures job.Some? ==> Some(job.value.completion) == old(completion) && job.value.inflightPermit
    {
      callbackActive := true;
      job := TakeJob();
    }

    method TakeJob() returns (job: Option<Job>)
      requires inflightPermit || !callback
      requires callback ==> callbackPermit
      requires callback && terminal ==> completion.Some?
      modifies this`callback, this`completion, this`inflightPermit, this`callbackPermit, this`jobs
      ensures View() == Extract(old(View()))
      ensures job.Some? <==> HasJob(old(View()))
      ensures job.Some? ==> job.value == Job(old(completion).value, true) && !inflightPermit && !callbackPermit
      ensures job.None? ==> completion == old(completion) && inflightPermit == old(inflightPermit)
                            && callbackPermit == old(callbackPermit)
    {
      if !callbackActive || !terminal {
        return None;
      }
      if !callback {
        return None;
      }
      callback := false;
      job := Some(Job(completion.value, inflightPermit));
      completion := None;
      inflightPermit, callbackPermit := false, false;
      jobs := jobs + 1;
    }

    /**
     * Takes the completion; that leaves the operation terminal. It robs a callback of its completion
     * exactly when the operation is decided and the callback has not been taken out.
     */
    method TryCompletion() returns (r: Option<nat>)
      requires Valid()
      modifies this`completion
      ensures View() == old(View()) && r == old(completion) && completion.None?
      ensures Valid() <==> !callback || !terminal
    {
      r := completion;
      completion := None;
    }
  }

  /** A TCP or TLS connect: terminal first, deliverable only once published. */
  class ConnectState {
    const id: nat
    const kind: Kind
    var completion: Option<nat>
    var terminal: bool
    var deliveryReady: bool
    var callback: bool
    var callbackActive: bool
    var callbackPermit: bool
    var transportPermits: bool
    ghost var failed: bool
    ghost var io: Option<nat>
    ghost var owner: Option<nat>
    ghost var handedOver: bool
    ghost var wins: nat
    ghost var publications: nat
    ghost var jobs: nat

    ghost function View(): (op: Op)
      reads this
    {
      Op(id, kind, terminal, failed, deliveryReady, callback, callbackActive, handedOver, io, owner, wins, publications, jobs)
    }

    ghost predicate Valid()
      reads this
    {
      && !kind.Request?
      && (callback ==> callbackPermit)
      && (callback && terminal ==> completion.Some?)
      && (deliveryReady ==> terminal)
      && (terminal ==> !transportPermits)
      && (callback && callbackActive ==> !deliveryReady)
    }

    constructor (id: nat, kind: Kind, callback: bool)
      requires !kind.Request?
      ensures Valid() && View() == NewOp(id, kind, callback)
    {
      this.id, this.kind, this.callback := id, kind, callback;
      completion, terminal, deliveryReady, callbackActive := None, false, false, false;
      callbackPermit, transportPermits := callback, kind != Tls(true);
      failed, io, owner, handedOver, wins, publications, jobs := false, None, None, false, 0, 0, 0;
    }

    /** The decision; it gives the transport permits back and tells nobody yet. */
    method Decide(result: nat, ghost fails: bool, ghost transport: Option<nat>, ghost task: nat) returns (won: bool)
      requires Valid()
      modifies this
      ensures Valid() && (won <==> !old(terminal))
      ensures View() == if won then Commit(old(View()), fails, transport, Some(task)) else old(View())
      ensures won ==> completion == Some(result) && !transportPermits
    {
      if terminal {
        return false;
      }
      terminal, completion := true, Some(result);
      transportPermits := false;
      failed, io, owner, wins := fails, transport, Some(task), wins + 1;
      won := true;
    }

    /** Only the winner calls this, once; the two debug assertions of the source are its precondition. */
    method Publish() returns (job: Option<Job>)
      requires Valid() && terminal && !deliveryReady
      modifies this
      ensures Valid() && View() == Extract(MarkReady(old(View())))
      ensures job.Some? <==> HasJob(MarkReady(old(View())))
      ensures job.Some? ==> Some(job.value.completion) == old(completion)
    {
      deliveryReady := true;
      owner, publications := None, publications + 1;
      job := TakeJob();
    }

    method ActivateCallback() returns (job: Option<Job>)
      requires Valid() && !callbackActive
      modifies this
      ensures Valid() && View() == Extract(old(View()).(active := true))
      ensures job.Some? <==> HasJob(old(View()).(active := true))
    {
      callbackActive := true;
      job := TakeJob();
    }

    method TakeJob() returns (job: Option<Job>)
      requires !kind.Request? && (callback ==> callbackPermit) && (callback && terminal ==> completion.Some?)
      requires deliveryReady ==> terminal
      modifies this`callback, this`completion, this`callbackPermit, this`jobs
      ensures View() == Extract(old(View()))
      ensures job.Some? <==> HasJob(old(View()))
      ensures job.Some? ==> Some(job.value.completion) == old(completion)
      ensures job.None? ==> completion == old(completion) && callbackPermit == old(callbackPermit)
    {
      if !callbackActive || !deliveryReady {
        return None;
      }
      if !callback {
        return None;
      }
      callback := false;
      job := Some(Job(completion.value, false));
      completion, callbackPermit := None, false;
      jobs := jobs + 1;
    }
  }
}
