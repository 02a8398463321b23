/** Whole runs of a submission: any number of polls, each answered as the world likes, and cancellation. */
module SmtpRuns {
  import opened Bytes
  import opened DotStuffing
  import opened SmtpReply
  import opened SmtpRequest
  import opened SmtpEngine
  import opened SmtpWire
  import opened SmtpProof

  datatype Event = Poll(worlds: seq<World>) | Cancel

  /** The loop of `poll`: stops at an outcome, at a deadline, or when a step says so. */
  ghost function PollLoop(r: SendRequest, op: Op, dataBytes: nat, worlds: seq<World>): (after: Op)
    requires Inv(r, op)
    ensures Inv(r, after)
    decreases |worlds|
  {
    if worlds == [] || op.outcome.Some? then op
    else if worlds[0].timedOut then StopKeeps(r, op, Timeout); Fail(op, Timeout)
    else
      AdvanceKeeps(r, op, dataBytes, worlds[0]);
      var step := Advance(op, dataBytes, worlds[0]);
      if step.again then PollLoop(r, step.op, step.dataBytes, worlds[1..]) else step.op
  }

  lemma StopKeeps(r: SendRequest, op: Op, reason: FailureReason)
    requires Inv(r, op) && op.outcome.None?
    ensures Inv(r, Fail(op, reason)) && Fail(op, reason).outcome.Some?
  {
    hide ActiveInv, WireInv, Fail;
    ActiveFails(r, op, reason);
  }

  ghost function Apply(r: SendRequest, op: Op, event: Event): (after: Op)
    requires Inv(r, op)
    ensures Inv(r, after)
  {
    match event
    case Poll(worlds) =>
      PollLoop(r, op, 0, if |worlds| <= MAX_STEPS_PER_POLL then worlds else worlds[..MAX_STEPS_PER_POLL])
    case Cancel => if op.outcome.Some? then op else StopKeeps(r, op, Cancelled); Fail(op, Cancelled)
  }

  /** The state after a run of events, from wherever the operation stands. */
  ghost function Continue(r: SendRequest, op: Op, events: seq<Event>): (after: Op)
    requires Inv(r, op)
    ensures Inv(r, after)
    decreases |events|
  {
    if events == [] then op else Continue(r, Apply(r, op, events[0]), events[1..])
  }

  /** A submission exists only for a request with recipients and a positive send window. */
  ghost predicate Submittable(r: SendRequest, limit: nat) { |r.recipients| > 0 && limit > 0 }

  lemma SubmitKeeps(r: SendRequest, limit: nat)
    requires Submittable(r, limit)
    ensures Inv(r, Submit(r, limit))
  {
    var op := Submit(r, limit);
    assert ControlInv(r, op) && OtherInv(r, op) && ReportInv(r, op);
    StaysActive(r, op);
  }

  ghost function Run(r: SendRequest, limit: nat, events: seq<Event>): (op: Op)
    requires Submittable(r, limit)
    ensures Inv(r, op)
  {
    SubmitKeeps(r, limit);
    Continue(r, Submit(r, limit), events)
  }

  // ---- the wire ----

  lemma {:induction false} UpToIsConcat(units: seq<seq<Byte>>, k: nat)
    requires k <= |units|
    ensures UpTo(units, k) == Concat(units[..k])
  {
    if k > 0 {
      UpToIsConcat(units, k - 1);
      assert units[..k] == units[..k - 1] + [units[k - 1]];
      ConcatSnoc(units[..k - 1], units[k - 1]);
    }
  }

  /**
   * In every run, whatever the transports refuse or shrink and wherever polls are cut, the octets
   * admitted on each transport are a prefix of its one transcript, and under implicit TLS the plain
   * transport carries nothing.
   */
  lemma WireRefinement(r: SendRequest, limit: nat, events: seq<Event>)
    requires Submittable(r, limit)
    ensures var op := Run(r, limit, events);
            && op.plain.sent <= Concat(PlainScript(r)) && op.tls.sent <= Concat(TlsScript(r))
            && (r.policy.Implicit? ==> op.plain == UNUSED)
  {
    hide Run, ActiveInv, Ended, Feed;
    UpToIsConcat(PlainScript(r), |PlainScript(r)|);
    UpToIsConcat(TlsScript(r), |TlsScript(r)|);
    assert PlainScript(r)[..|PlainScript(r)|] == PlainScript(r) && TlsScript(r)[..|TlsScript(r)|] == TlsScript(r);
    assert WireInv(r, Run(r, limit, events));
  }

  /**
   * No octet of unit `u` is admitted before every reply it waits for is complete: the greeting where
   * there is one, and the answer to each earlier unit. Those replies are exactly what the octets read
   * on that transport spell, so nothing read before an upgrade counts after it.
   */
  lemma LockStep(r: SendRequest, limit: nat, events: seq<Event>, security: Security, u: nat)
    requires Submittable(r, limit) && u < |Script(r, security)|
    ensures var op := Run(r, limit, events);
            var c := if security.Plain? then op.plain else op.tls;
            && (|c.sent| > |UpTo(Script(r, security), u)| ==>
                  |c.replies| >= Greetings(r, security) + RepliesBefore(r, security, u))
            && c.replies == Feed(INITIAL, c.read).replies
  {
    hide Run, ActiveInv, Ended, Feed, Script;
    assert WireInv(r, Run(r, limit, events));
  }

  /**
   * STARTTLS gate: under required STARTTLS nothing at all crosses the TLS transport unless the plain
   * transport has carried exactly EHLO and STARTTLS and the third plain reply was 220; the mail
   * commands and the message are units of the TLS transcript only.
   */
  lemma StartTlsGate(r: SendRequest, limit: nat, events: seq<Event>)
    requires Submittable(r, limit) && r.policy.RequiredStartTls?
    ensures var op := Run(r, limit, events);
            op.tls != UNUSED ==>
              && op.plain.sent == EhloCommand(r) + StartTlsCommand()
              && |op.plain.replies| == 3 && op.plain.replies[2].code == 220
    ensures var op := Run(r, limit, events);
            op.outcome.None? && InTransaction(op.phase) ==> op.transport == Some(Tls)
    ensures var op := Run(r, limit, events);
            op.outcome.None? && !Reading(op.phase) ==> op.parser == INITIAL
    ensures var op := Run(r, limit, events);
            op.outcome.None? && (op.phase.StartTlsSend? || op.phase.StartTlsReply?) ==> op.transport == Some(Plain) && op.tls == UNUSED
  {
    hide Run, CurrentInv, ReportInv, Ended, Feed, InStep;
    var units := PlainScript(r);
    assert UpTo(units, 2) == UpTo(units, 1) + units[1];
    assert UpTo(units, 1) == [] + units[0];
    assert WireInv(r, Run(r, limit, events));
  }

  // ---- outcomes ----

  /** An outcome is final: no later poll or cancellation changes anything. */
  lemma {:induction false} OutcomeIsFinal(r: SendRequest, op: Op, events: seq<Event>)
    requires Inv(r, op) && op.outcome.Some?
    ensures Continue(r, op, events) == op
    decreases |events|
  {
    hide Inv;
    if events != [] {
      assert Apply(r, op, events[0]) == op;
      OutcomeIsFinal(r, op, events[1..]);
    }
  }

  /** With its outcome an operation gives up request, transports and everything staged. */
  lemma OutcomeLetsGo(r: SendRequest, limit: nat, events: seq<Event>)
    requires Submittable(r, limit) && Run(r, limit, events).outcome.Some?
    ensures var op := Run(r, limit, events);
            op.request.None? && op.pending.None? && op.transport.None? && op.outbound.None? && op.data.None?
  {
    hide Run, WireInv, Honest, ReportShape;
    assert Ended(r, Run(r, limit, events));
  }

  /** A run in two parts is one run. */
  lemma {:induction false} ContinueSplits(r: SendRequest, op: Op, a: seq<Event>, b: seq<Event>)
    requires Inv(r, op)
    ensures Continue(r, op, a + b) == Continue(r, Continue(r, op, a), b)
    decreases |a|
  {
    hide Inv, Apply;
    if a == [] {
      assert a + b == b;
    } else {
      assert (a + b)[0] == a[0] && (a + b)[1..] == a[1..] + b;
      ContinueSplits(r, Apply(r, op, a[0]), a[1..], b);
    }
  }

  /** The server's final 2xx is stored, or already reported. */
  ghost predicate Holds(op: Op, answer: ReplySummary) {
    if op.outcome.None? then op.accepted == Some(answer) && Closing(op.phase)
    else op.outcome.value.delivery == Accepted(answer)
  }

  lemma HeldByFailure(op: Op, answer: ReplySummary, reason: FailureReason)
    requires op.outcome.None? && op.accepted == Some(answer)
    ensures Holds(Fail(op, reason), answer) && Fail(op, reason).outcome.Some?
  {
  }

  lemma HeldBySend(op: Op, answer: ReplySummary, world: World)
    requires Ready(op) && Holds(op, answer) && op.phase.QuitSend?
    ensures Holds(AdvanceSend(op, world.send).0, answer)
  {
    hide OutboundStep;
  }

  lemma HeldByRead(op: Op, answer: ReplySummary, world: World)
    requires Ready(op) && Holds(op, answer) && op.phase.QuitReply?
    ensures Holds(AdvanceRead(op, world.read, world.upgrade).0, answer)
  {
    hide PushByte, Summary;
  }

  lemma HeldByStep(op: Op, answer: ReplySummary, dataBytes: nat, world: World)
    requires Ready(op) && Holds(op, answer)
    ensures Holds(Advance(op, dataBytes, world).op, answer)
  {
    hide AdvanceSend, AdvanceRead;
    if op.outcome.None? {
      if op.phase.QuitSend? {
        HeldBySend(op, answer, world);
      } else if op.phase.QuitReply? {
        HeldByRead(op, answer, world);
      }
    }
  }

  lemma {:induction false} HeldByPoll(r: SendRequest, op: Op, answer: ReplySummary, dataBytes: nat, worlds: seq<World>)
    requires Inv(r, op) && Holds(op, answer)
    ensures Holds(PollLoop(r, op, dataBytes, worlds), answer)
    decreases |worlds|
  {
    hide Inv, Holds, Advance, Fail;
    if worlds != [] && op.outcome.None? {
      HoldsAccepted(op, answer);
      if worlds[0].timedOut {
        HeldByFailure(op, answer, Timeout);
      } else {
        AdvanceKeeps(r, op, dataBytes, worlds[0]);
        HeldByStep(op, answer, dataBytes, worlds[0]);
        var step := Advance(op, dataBytes, worlds[0]);
        if step.again { HeldByPoll(r, step.op, answer, step.dataBytes, worlds[1..]); }
      }
    }
  }

  lemma HoldsAccepted(op: Op, answer: ReplySummary)
    requires Holds(op, answer) && op.outcome.None?
    ensures op.accepted == Some(answer)
  {
  }

  lemma {:induction false} HeldByRun(r: SendRequest, op: Op, answer: ReplySummary, events: seq<Event>)
    requires Inv(r, op) && Holds(op, answer)
    ensures Holds(Continue(r, op, events), answer)
    decreases |events|
  {
    hide Inv, PollLoop, Holds, Fail;
    if events != [] {
      match events[0] {
        case Poll(worlds) =>
          HeldByPoll(r, op, answer, 0, if |worlds| <= MAX_STEPS_PER_POLL then worlds else worlds[..MAX_STEPS_PER_POLL]);
        case Cancel =>
          if op.outcome.None? { HoldsAccepted(op, answer); HeldByFailure(op, answer, Cancelled); }
      }
      HeldByRun(r, Apply(r, op, events[0]), answer, events[1..]);
    }
  }

  /** The final answer has been read exactly when the operation is closing. */
  lemma AnsweredIsClosing(r: SendRequest, op: Op)
    requires Inv(r, op) && op.outcome.None? && |op.tls.replies| > FinalReplyIndex(r)
    ensures Holds(op, Summary(op.tls.replies[FinalReplyIndex(r)]))
  {
    hide WireInv, SentInv, ReportInv, Feed, Ended;
    assert op.transport == Some(Tls);
  }

  /**
   * Once the answer to the terminator has been read and the operation goes on, acceptance is
   * settled: whatever fails, times out or is cancelled afterwards, the outcome, if there is one, is
   * `Accepted` with that very answer, and cancelling reports it at once.
   */
  lemma AcceptanceSurvives(r: SendRequest, limit: nat, before: seq<Event>, after: seq<Event>)
    requires Submittable(r, limit)
    requires Run(r, limit, before).outcome.None?
    requires |Run(r, limit, before).tls.replies| > FinalReplyIndex(r)
    ensures var answer := Summary(Run(r, limit, before).tls.replies[FinalReplyIndex(r)]);
            var op := Run(r, limit, before + after);
            && (op.outcome.Some? ==> op.outcome.value.delivery == Accepted(answer))
            && (Cancel in after ==> op.outcome.Some?)
  {
    hide Inv, Apply;
    SubmitKeeps(r, limit);
    var start, op := Submit(r, limit), Run(r, limit, before);
    ContinueSplits(r, start, before, after);
    AnsweredIsClosing(r, op);
    HeldByRun(r, op, Summary(op.tls.replies[FinalReplyIndex(r)]), after);
    if Cancel in after { CancelEnds(r, op, after); }
  }

  /** A cancelled operation has an outcome. */
  lemma {:induction false} CancelEnds(r: SendRequest, op: Op, events: seq<Event>)
    requires Inv(r, op) && Cancel in events
    ensures Continue(r, op, events).outcome.Some?
    decreases |events|
  {
    hide Inv, PollLoop;
    var next := Apply(r, op, events[0]);
    if next.outcome.Some? { OutcomeIsFinal(r, next, events[1..]); } else { CancelEnds(r, next, events[1..]); }
  }

  // ---- recipients ----

  function Reports(op: Op): (reports: seq<RecipientReport>) {
    if op.outcome.Some? then op.outcome.value.recipients else op.reports
  }

  /**
   * In every reachable state the recipient report keeps the order of the request; a first part
   * carries the server's own answers, at most one recipient is unresolved and the rest were not
   * attempted. An octet of DATA is on the wire only if the policy allows it for those answers.
   */
  lemma RecipientReports(r: SendRequest, limit: nat, events: seq<Event>)
    requires Submittable(r, limit)
    ensures var op := Run(r, limit, events);
            && (exists resolved: nat, unresolved ::
                  ReportShape(r, Reports(op), op.tls.replies, resolved, unresolved))
            && (|op.tls.sent| > |UpTo(TlsScript(r), |r.recipients| + 2)| ==> MaySendData(r, Reports(op)))
  {
    hide Run, WireInv, TlsScript, UpTo, ReportShape, MaySendData, ActiveInv;
    var op := Run(r, limit, events);
    if op.outcome.None? {
      ActiveIsEndable(r, op, 0);
      assert ReportShape(r, Reports(op), op.tls.replies, Resolved(r, op.phase), op.phase.RcptReply?);
    } else {
      var resolved: nat, unresolved :|
        ReportShape(r, op.outcome.value.recipients, op.tls.replies, resolved, unresolved);
      assert ReportShape(r, Reports(op), op.tls.replies, resolved, unresolved);
    }
  }

  // ---- what a reply decides ----

  /**
   * The replies that let a submission go on: 2xx to greeting, EHLO, MAIL, message and QUIT, 3xx to
   * DATA, 220 to STARTTLS, and to RCPT any definite answer but 421, as long as enough recipients
   * remain for the request's policy.
   */
  predicate Wanted(op: Op, reply: Reply, upgrade: UpgradePoll)
    requires Ready(op) && Reading(op.phase)
  {
    match op.phase
    case EhloReply =>
      Positive(reply.code)
      && (op.request.value.policy.RequiredStartTls? && op.transport == Some(Plain) ==> Advertises(reply, Ascii("STARTTLS")))
    case StartTlsReply => reply.code == 220 && op.transport == Some(Plain) && upgrade.UpgradeAdmitted?
    case RcptReply(index) =>
      && (Positive(reply.code) || Negative(reply.code)) && reply.code != 421
      && (index + 1 == |op.reports| ==>
            AnyAccepted(Noted(op, index, reply).reports)
            && (op.request.value.recipientPolicy.RequireAllRecipients? ==> !AnyRefused(Noted(op, index, reply).reports)))
    case DataReply => Intermediate(reply.code)
    case QuitReply => Positive(reply.code) && op.accepted.Some?
    case _ => Positive(reply.code)
  }

  lemma RcptReplyDecides(op: Op, reply: Reply, upgrade: UpgradePoll)
    requires Ready(op) && op.phase.RcptReply?
    ensures HandleRcptReply(op, op.phase.index, reply).outcome.None? <==> Wanted(op, reply, upgrade)
  {
    hide Summary, RcptCommand, AnyAccepted, AnyRefused;
  }

  /**
   * A submission goes on after a reply exactly when the reply is wanted. An unwanted 4xx or 5xx to
   * anything but RCPT and QUIT is reported as that rejection, at the stage it answers.
   */
  lemma ReplyDecides(op: Op, reply: Reply, upgrade: UpgradePoll)
    requires Ready(op) && Reading(op.phase)
    ensures HandleReply(op, reply, upgrade).outcome.None? <==> Wanted(op, reply, upgrade)
    ensures Negative(reply.code) && !op.phase.RcptReply? && !op.phase.QuitReply? ==>
              HandleReply(op, reply, upgrade).outcome
              == Some(SendOutcome(op.reports, Rejected(Public(op.phase), Summary(reply))))
  {
    hide Summary, HandleRcptReply, Advertises, EhloCommand, MailCommand, RcptCommand, AnyAccepted, AnyRefused;
    if op.phase.RcptReply? { RcptReplyDecides(op, reply, upgrade); }
  }
}
