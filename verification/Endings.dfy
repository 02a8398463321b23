/**
 * How a submission ends for another reason than its replies: a deadline, a cancellation, a transport
 * that fails. The ending is told from what has crossed the transports, wherever in a poll it comes.
 */
module SmtpEndings {
  import opened Bytes
  import opened SmtpReply
  import opened SmtpRequest
  import opened SmtpEngine
  import opened SmtpWire
  import opened SmtpProof
  import opened SmtpRuns
  import opened SmtpRuling
  import opened SmtpWork
  import opened SmtpProgress

  // ---- where a submission stands ----

  ghost predicate TerminatorSent(r: SendRequest, op: Op) { UpTo(TlsScript(r), |r.recipients| + 5) <= op.tls.sent }

  /** The stage of an unfinished submission, by its transport, the replies read and the units admitted. */
  ghost function Where(r: SendRequest, op: Op): (stage: Stage) {
    if op.transport.None? then if op.plain.replies == [] then AtConnect else AtUpgrade
    else
      var stage := StageOf(r, op.transport.value, |Current(op).replies|);
      if stage.AtDataResult? && !TerminatorSent(r, op) then AtDataBody else stage
  }

  /**
   * How an unfinished submission ends for this reason: accepted if the server has said so, uncertain
   * if it has the whole message, and otherwise not accepted at the stage reached.
   */
  ghost function Ending(r: SendRequest, op: Op, reason: FailureReason): (d: Delivery) {
    if |op.tls.replies| > FinalReplyIndex(r) then Accepted(Summary(op.tls.replies[FinalReplyIndex(r)]))
    else if TerminatorSent(r, op) then Uncertain(AtDataResult, reason)
    else NotAccepted(Where(r, op), reason)
  }

  lemma StageByReplies(r: SendRequest, op: Op)
    requires ActiveInv(r, op, 0)
    ensures op.transport.None? ==> Public(op.phase) == if op.plain.replies == [] then AtConnect else AtUpgrade
    ensures op.transport.Some? && !op.phase.DataBody? && !op.phase.TerminatorSend? ==>
              StageOf(r, op.transport.value, |Current(op).replies|) == Public(op.phase)
    ensures op.phase.DataBody? || op.phase.TerminatorSend? ==>
              op.transport == Some(Tls) && StageOf(r, Tls, |op.tls.replies|) == AtDataResult
  {
    hide SentInv, ReportInv, AcceptInv, Feed;
  }

  /** What the flags of the operation say about the wire. */
  lemma FlagsAreWire(r: SendRequest, op: Op)
    requires Inv(r, op) && op.outcome.None?
    ensures op.accepted.Some? <==> |op.tls.replies| > FinalReplyIndex(r)
    ensures op.accepted.Some? ==> op.accepted.value == Summary(op.tls.replies[FinalReplyIndex(r)])
    ensures op.accepted.None? ==> (op.terminatorAdmitted <==> TerminatorSent(r, op))
  {
    hide WireInv, CurrentInv, OtherInv, ReportInv, TlsScript, UpTo, ReportShape, MaySendData, Feed;
    StopKeeps(r, op, Timeout);
    assert Ended(r, Fail(op, Timeout));
    if |op.tls.replies| > FinalReplyIndex(r) { AnsweredIsClosing(r, op); }
  }

  lemma StageIsWhere(r: SendRequest, op: Op)
    requires Inv(r, op) && op.outcome.None? && op.accepted.None? && !op.terminatorAdmitted
    ensures Public(op.phase) == Where(r, op)
  {
    hide WireInv, TerminatorSent, StageOf;
    StageByReplies(r, op);
    FlagsAreWire(r, op);
    OpenPhases(r, op);
    hide ActiveInv;
  }

  lemma OpenPhases(r: SendRequest, op: Op)
    requires ActiveInv(r, op, 0) && op.accepted.None?
    ensures op.terminatorAdmitted <==> op.phase.DataResult?
    ensures !Closing(op.phase)
  {
    hide CurrentInv, OtherInv, ReportInv;
  }

  /** Failing ends an operation as the wire tells, and touches no transport. */
  lemma FailIsEnding(r: SendRequest, op: Op, reason: FailureReason)
    requires Inv(r, op) && op.outcome.None?
    ensures var end := Fail(op, reason);
            && end.outcome == Some(SendOutcome(op.reports, Ending(r, op, reason)))
            && end.plain == op.plain && end.tls == op.tls
  {
    FlagsAreWire(r, op);
    if op.accepted.None? {
      OpenPhases(r, op);
      if !op.terminatorAdmitted { StageIsWhere(r, op); }
    }
    hide Inv, TerminatorSent, Where, Summary;
  }

  // ---- one step further in a poll ----

  lemma RunSnoc(r: SendRequest, limit: nat, events: seq<Event>, event: Event)
    requires Submittable(r, limit)
    ensures Run(r, limit, events + [event]) == Apply(r, Run(r, limit, events), event)
  {
    hide Inv, Apply;
    SubmitKeeps(r, limit);
    ContinueSplits(r, Submit(r, limit), events, [event]);
  }

  /** In none of these worlds a deadline has passed, and in none anything says "wait". */
  predicate Flows(worlds: seq<World>) { forall i :: 0 <= i < |worlds| ==> !worlds[i].timedOut && !Waits(worlds[i]) }

  /** A poll that is not told to wait, has no outcome and has allowance left, goes on with the next world. */
  lemma {:induction false} PollContinues(r: SendRequest, op: Op, dataBytes: nat, a: seq<World>, b: seq<World>)
    returns (count: nat)
    requires Inv(r, op) && Rationed(op, dataBytes) && Flows(a) && PollLoop(r, op, dataBytes, a).outcome.None?
    requires var done := BodyOctets(r, PollLoop(r, op, dataBytes, a).tls.sent) - BodyOctets(r, op.tls.sent);
             dataBytes + done < MAX_DATA_BYTES_PER_POLL
    ensures var mid := PollLoop(r, op, dataBytes, a);
            && count == dataBytes + BodyOctets(r, mid.tls.sent) - BodyOctets(r, op.tls.sent) && Rationed(mid, count)
            && PollLoop(r, op, dataBytes, a + b) == PollLoop(r, mid, count, b)
    decreases |a|
  {
    hide Advance, ActiveInv, WireInv, Ended, BodyOctets, Ready, Fail, InFlight, Waits;
    count := dataBytes;
    if a == [] {
      assert a + b == b;
    } else {
      assert (a + b)[0] == a[0] && (a + b)[1..] == a[1..] + b;
      AliveBefore(r, op, dataBytes, a);
      AdvanceKeeps(r, op, dataBytes, a[0]);
      ActiveIsReady(r, op, 0);
      StepIsRationed(r, op, dataBytes, a[0]);
      StopMeansOutcome(op, dataBytes, a[0]);
      var step := Advance(op, dataBytes, a[0]);
      if step.again {
        count := PollContinues(r, step.op, step.dataBytes, a[1..], b);
      } else {
        assert false;
      }
    }
  }

  lemma AliveBefore(r: SendRequest, op: Op, dataBytes: nat, worlds: seq<World>)
    requires Inv(r, op) && PollLoop(r, op, dataBytes, worlds).outcome.None?
    ensures op.outcome.None?
  {
    hide Inv;
  }

  /** The body octets a poll has admitted so far. */
  ghost function Admitted(r: SendRequest, limit: nat, events: seq<Event>, worlds: seq<World>): (n: int)
    requires Submittable(r, limit)
  {
    BodyOctets(r, Run(r, limit, events + [Poll(worlds)]).tls.sent) - BodyOctets(r, Run(r, limit, events).tls.sent)
  }

  /** The poll of these worlds has not ended and would take another world: there are steps and octets left to it. */
  ghost predicate GoesOn(r: SendRequest, limit: nat, events: seq<Event>, worlds: seq<World>)
    requires Submittable(r, limit)
  {
    && |worlds| < 64 && Flows(worlds)
    && Run(r, limit, events + [Poll(worlds)]).outcome.None?
    && Admitted(r, limit, events, worlds) < 16384
  }

  lemma PollIsLoop(r: SendRequest, limit: nat, events: seq<Event>, worlds: seq<World>)
    requires Submittable(r, limit) && |worlds| <= 64
    ensures Run(r, limit, events + [Poll(worlds)]) == PollLoop(r, Run(r, limit, events), 0, worlds)
  {
    hide Run, Inv, PollLoop;
    RunSnoc(r, limit, events, Poll(worlds));
  }

  /** The facts of a poll that goes on, said of the loop. */
  lemma LoopGoesOn(r: SendRequest, limit: nat, events: seq<Event>, worlds: seq<World>)
    requires Submittable(r, limit) && GoesOn(r, limit, events, worlds)
    ensures var start := Run(r, limit, events);
            var mid := PollLoop(r, start, 0, worlds);
            && mid == Run(r, limit, events + [Poll(worlds)]) && mid.outcome.None? && Flows(worlds)
            && BodyOctets(r, mid.tls.sent) - BodyOctets(r, start.tls.sent) < MAX_DATA_BYTES_PER_POLL
  {
    hide Run, Inv, PollLoop, BodyOctets, Flows;
    PollIsLoop(r, limit, events, worlds);
  }

  lemma OneMore(r: SendRequest, limit: nat, events: seq<Event>, worlds: seq<World>, next: World, more: seq<World>)
    returns (count: nat)
    requires Submittable(r, limit) && GoesOn(r, limit, events, worlds) && |worlds + [next] + more| <= 64
    ensures var op := Run(r, limit, events + [Poll(worlds)]);
            && Rationed(op, count) && count < MAX_DATA_BYTES_PER_POLL
            && Run(r, limit, events + [Poll(worlds + [next] + more)]) == PollLoop(r, op, count, [next] + more)
  {
    hide Run, Inv, PollLoop, BodyOctets, Flows, GoesOn, Rationed;
    var start := Run(r, limit, events);
    LoopGoesOn(r, limit, events, worlds);
    PollIsLoop(r, limit, events, worlds + [next] + more);
    RunsAreRationed(r, limit, events);
    assert worlds + [next] + more == worlds + ([next] + more);
    count := PollContinues(r, start, 0, worlds, [next] + more);
  }

  lemma RunsAreRationed(r: SendRequest, limit: nat, events: seq<Event>)
    requires Submittable(r, limit)
    ensures Rationed(Run(r, limit, events), 0)
  {
    hide Inv, Continue;
    SubmitKeeps(r, limit);
    RunIsRationed(r, Submit(r, limit), events);
  }

  // ---- deadline and cancellation ----

  /**
   * A deadline that has passed ends the submission, at whatever step of a poll it is noticed: with
   * reason `Timeout`, at the stage reached, unless the server has already accepted. Nothing more
   * crosses a transport, whatever the world would have answered.
   */
  lemma DeadlineEnds(r: SendRequest, limit: nat, events: seq<Event>, worlds: seq<World>, late: World, more: seq<World>)
    requires Submittable(r, limit) && GoesOn(r, limit, events, worlds) && late.timedOut && |worlds + [late] + more| <= 64
    ensures var op, end := Run(r, limit, events + [Poll(worlds)]), Run(r, limit, events + [Poll(worlds + [late] + more)]);
            && end.outcome == Some(SendOutcome(Reports(op), Ending(r, op, Timeout)))
            && end.plain == op.plain && end.tls == op.tls
  {
    hide Run, Inv, GoesOn, Ending;
    var count := OneMore(r, limit, events, worlds, late, more);
    var op := Run(r, limit, events + [Poll(worlds)]);
    Unfinished(r, limit, events, worlds);
    FailIsEnding(r, op, Timeout);
    LateWorld(r, op, count, late, more);
  }

  lemma Unfinished(r: SendRequest, limit: nat, events: seq<Event>, worlds: seq<World>)
    requires Submittable(r, limit) && GoesOn(r, limit, events, worlds)
    ensures Run(r, limit, events + [Poll(worlds)]).outcome.None?
  {
    hide Run;
  }

  lemma LateWorld(r: SendRequest, op: Op, count: nat, late: World, more: seq<World>)
    requires Inv(r, op) && op.outcome.None? && late.timedOut
    ensures PollLoop(r, op, count, [late] + more) == Fail(op, Timeout)
  {
    hide Inv, Fail;
    StopKeeps(r, op, Timeout);
  }

  /** Cancelling ends an unfinished submission at once, with reason `Cancelled` unless the server has accepted. */
  lemma CancellationEnds(r: SendRequest, limit: nat, events: seq<Event>)
    requires Submittable(r, limit) && Run(r, limit, events).outcome.None?
    ensures var op, end := Run(r, limit, events), Run(r, limit, events + [Cancel]);
            && end.outcome == Some(SendOutcome(Reports(op), Ending(r, op, Cancelled)))
            && end.plain == op.plain && end.tls == op.tls
  {
    hide Inv, Fail, Ending, Run;
    RunSnoc(r, limit, events, Cancel);
    FailIsEnding(r, Run(r, limit, events), Cancelled);
  }

  // ---- a poll is not cut short ----

  lemma {:induction false} LoopWorks(r: SendRequest, limit: nat, op: Op, dataBytes: nat, worlds: seq<World>)
    requires Inv(r, op) && Rationed(op, dataBytes) && Flows(worlds) && op.outcome.None? && op.sendLimit <= limit
    requires PollLoop(r, op, dataBytes, worlds).outcome.None?
    requires var done := BodyOctets(r, PollLoop(r, op, dataBytes, worlds).tls.sent) - BodyOctets(r, op.tls.sent);
             dataBytes + done < MAX_DATA_BYTES_PER_POLL
    ensures Indexed(r, op) && Indexed(r, PollLoop(r, op, dataBytes, worlds))
    ensures Measure(r, limit, PollLoop(r, op, dataBytes, worlds)) + |worlds| <= Measure(r, limit, op)
    decreases |worlds|
  {
    hide Advance, ActiveInv, WireInv, Ended, BodyOctets, Ready, Fail, InFlight, Waits, Measure;
    ActiveControl(r, op);
    if worlds != [] {
      AdvanceKeeps(r, op, dataBytes, worlds[0]);
      ActiveIsReady(r, op, 0);
      StepIsRationed(r, op, dataBytes, worlds[0]);
      StopMeansOutcome(op, dataBytes, worlds[0]);
      StepPays(r, limit, op, dataBytes, worlds[0]);
      var step := Advance(op, dataBytes, worlds[0]);
      if step.again {
        AliveBefore(r, step.op, step.dataBytes, worlds[1..]);
        LoopWorks(r, limit, step.op, step.dataBytes, worlds[1..]);
      } else {
        assert false;
      }
    }
  }

  /**
   * A poll is not cut short: as long as nothing says "wait", no outcome is reached and fewer than 16384
   * octets of the message have been admitted, it takes all of up to 64 steps, and each is progress.
   */
  lemma PollIsNotCutShort(r: SendRequest, limit: nat, events: seq<Event>, worlds: seq<World>)
    requires Submittable(r, limit) && |worlds| <= 64 && Flows(worlds)
    requires Run(r, limit, events + [Poll(worlds)]).outcome.None? && Admitted(r, limit, events, worlds) < 16384
    ensures var before, after := Run(r, limit, events), Run(r, limit, events + [Poll(worlds)]);
            && Indexed(r, before) && Indexed(r, after)
            && Measure(r, before.sendLimit, after) + |worlds| <= Measure(r, before.sendLimit, before)
  {
    hide Run, Inv, PollLoop, BodyOctets, Flows, Rationed, Measure, Indexed;
    var start := Run(r, limit, events);
    PollIsLoop(r, limit, events, worlds);
    RunsAreRationed(r, limit, events);
    AliveBefore(r, start, 0, worlds);
    LoopWorks(r, start.sendLimit, start, 0, worlds);
  }
}
