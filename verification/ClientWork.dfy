/** Bounded work: how many replies a run reads, and how much of the message one poll admits. */
module SmtpWork {
  import opened Bytes
  import opened SmtpReply
  import opened SmtpRequest
  import opened SmtpEngine
  import opened SmtpWire
  import opened SmtpProof
  import opened SmtpRuns

  // ---- replies ----

  function RepliesRead(op: Op): (n: nat) { |op.plain.replies| + |op.tls.replies| }

  /** Ending an operation touches no channel. */
  lemma EndingIsQuiet()
    ensures forall op: Op, reason: FailureReason ::
              var end := Fail(op, reason);
              end.plain == op.plain && end.tls == op.tls && (end.outbound == op.outbound || end.outbound.None?)
    ensures forall op: Op, reply: Reply ::
              var end := Reject(op, reply); end.plain == op.plain && end.tls == op.tls
  {
  }

  lemma RcptAnswerReadsNothing(op: Op, index: nat, reply: Reply)
    requires Ready(op) && index < |op.reports|
    ensures var next := HandleRcptReply(op, index, reply); next.plain == op.plain && next.tls == op.tls
  {
    hide Fail, Reject, Summary, AnyAccepted, AnyRefused, RcptCommand;
    EndingIsQuiet();
  }

  lemma AnswerReadsNothing(op: Op, reply: Reply, upgrade: UpgradePoll)
    requires Ready(op)
    ensures var next := HandleReply(op, reply, upgrade); next.plain == op.plain && next.tls == op.tls
  {
    hide Fail, Reject, Summary, Advertises, HandleRcptReply, EhloCommand, RcptCommand, MailCommand;
    EndingIsQuiet();
    if op.phase.RcptReply? { RcptAnswerReadsNothing(op, op.phase.index, reply); }
  }

  lemma ReadReadsOne(op: Op, answer: ReadPoll, upgrade: UpgradePoll)
    requires Ready(op)
    ensures RepliesRead(AdvanceRead(op, answer, upgrade).0) <= RepliesRead(op) + 1
  {
    hide HandleReply, PushByte, Fail;
    EndingIsQuiet();
    if op.transport.Some? && answer.Octet? {
      var (next, progress) := Absorb(op, answer.byte);
      if progress.Complete? { AnswerReadsNothing(next, progress.reply, upgrade); }
    }
  }

  lemma OfferReadsNothing(op: Op, answer: SendPoll)
    requires Ready(op)
    ensures RepliesRead(SendSome(op, answer).0) == RepliesRead(op)
  {
    hide OutboundStep, Ready;
  }

  lemma CommandReadsNothing(op: Op, answer: SendPoll)
    requires Ready(op)
    ensures RepliesRead(AdvanceSend(op, answer).0) == RepliesRead(op)
  {
    hide Fail, SendSome;
    EndingIsQuiet();
    OfferReadsNothing(op, answer);
    SendKeepsReady(op, answer);
    AfterCommandIsQuiet(SendSome(op, answer).0.(outbound := None));
  }

  lemma AfterCommandIsQuiet(op: Op)
    requires Ready(op)
    ensures AfterCommand(op).plain == op.plain && AfterCommand(op).tls == op.tls
  {
    hide Fail;
    EndingIsQuiet();
  }

  lemma BodyReadsNothing(op: Op, dataBytes: nat, answer: SendPoll)
    requires Ready(op) && op.phase.DataBody?
    ensures RepliesRead(AdvanceBody(op, dataBytes, answer).0) == RepliesRead(op)
  {
    hide Fail, SendSome;
    EndingIsQuiet();
    if dataBytes < MAX_DATA_BYTES_PER_POLL {
      OfferReadsNothing(StageChunk(op, Min(MAX_STAGING, MAX_DATA_BYTES_PER_POLL - dataBytes)), answer);
    }
  }

  lemma ActiveReplies(r: SendRequest, op: Op)
    requires Inv(r, op) && op.outcome.None?
    ensures RepliesRead(op) + (if Reading(op.phase) then 1 else 0) <= |r.recipients| + 8
  {
    hide WireInv, SentInv, ReportInv, Feed, Ended;
  }

  lemma StepReplies(r: SendRequest, op: Op, dataBytes: nat, world: World)
    requires Inv(r, op) && op.outcome.None? && Ready(op)
    ensures RepliesRead(Advance(op, dataBytes, world).op) <= |r.recipients| + 8
  {
    hide Inv, AdvanceRead, AdvanceSend, AdvanceBody, Fail, Ready;
    EndingIsQuiet();
    ActiveReplies(r, op);
    if Reading(op.phase) {
      ReadReadsOne(op, world.read, world.upgrade);
    } else if SendingCommand(op.phase) {
      CommandReadsNothing(op, world.send);
    } else if op.phase.DataBody? {
      BodyReadsNothing(op, dataBytes, world.send);
    }
  }

  lemma {:induction false} PollReplies(r: SendRequest, op: Op, dataBytes: nat, worlds: seq<World>)
    requires Inv(r, op) && RepliesRead(op) <= |r.recipients| + 8
    ensures RepliesRead(PollLoop(r, op, dataBytes, worlds)) <= |r.recipients| + 8
    decreases |worlds|
  {
    hide Inv, Advance;
    if worlds != [] && op.outcome.None? && !worlds[0].timedOut {
      AdvanceKeeps(r, op, dataBytes, worlds[0]);
      StepReplies(r, op, dataBytes, worlds[0]);
      var step := Advance(op, dataBytes, worlds[0]);
      if step.again { PollReplies(r, step.op, step.dataBytes, worlds[1..]); }
    }
  }

  lemma {:induction false} RunReplies(r: SendRequest, op: Op, events: seq<Event>)
    requires Inv(r, op) && RepliesRead(op) <= |r.recipients| + 8
    ensures RepliesRead(Continue(r, op, events)) <= |r.recipients| + 8
    decreases |events|
  {
    hide Inv, PollLoop;
    if events != [] {
      if events[0].Poll? {
        var worlds := events[0].worlds;
        PollReplies(r, op, 0, if |worlds| <= MAX_STEPS_PER_POLL then worlds else worlds[..MAX_STEPS_PER_POLL]);
      }
      RunReplies(r, Apply(r, op, events[0]), events[1..]);
    }
  }

  /** A run reads at most eight replies more than there are recipients, however often it is polled. */
  lemma RepliesAreBounded(r: SendRequest, limit: nat, events: seq<Event>)
    requires Submittable(r, limit)
    ensures RepliesRead(Run(r, limit, events)) <= |r.recipients| + 8
  {
    SubmitKeeps(r, limit);
    RunReplies(r, Submit(r, limit), events);
  }

  // ---- body octets ----

  /** Octets of the stuffed message in a log of the TLS transport. */
  function BodyOctets(r: SendRequest, sent: seq<Byte>): (n: nat) {
    var before, body := |UpTo(TlsScript(r), |r.recipients| + 3)|, |TlsScript(r)[|r.recipients| + 3]|;
    if |sent| <= before then 0 else Min(|sent| - before, body)
  }

  /** Octets staged but not admitted while the body is being sent. */
  function InFlight(op: Op): (n: int) {
    if op.phase.DataBody? && op.outbound.Some? then |op.outbound.value.bytes| - op.outbound.value.offset else 0
  }

  /** Nothing staged is larger than what this poll may still admit. */
  predicate Rationed(op: Op, dataBytes: nat) {
    dataBytes <= MAX_DATA_BYTES_PER_POLL && InFlight(op) <= Min(MAX_STAGING, MAX_DATA_BYTES_PER_POLL - dataBytes)
  }

  /** Commands before the message and after it add nothing to it. */
  lemma CommandIsNotBody(r: SendRequest, k: nat, partial: seq<Byte>, more: seq<Byte>)
    requires k < |TlsScript(r)| && k != |r.recipients| + 3 && partial + more <= TlsScript(r)[k]
    ensures var log := UpTo(TlsScript(r), k) + partial;
            BodyOctets(r, log + more) == BodyOctets(r, log)
  {
    hide TlsScript, UpTo;
    var units, n := TlsScript(r), |r.recipients|;
    if k < n + 3 {
      LogBelow(units, k, partial + more, n + 3);
    } else {
      UpToGrows(units, n + 4, k);
      UpToNext(units, n + 3);
    }
  }

  lemma OfferAdmitsNoBody(r: SendRequest, op: Op, answer: SendPoll)
    requires SendingUnit(r, op) && Ready(op)
    ensures BodyOctets(r, SendSome(op, answer).0.tls.sent) == BodyOctets(r, op.tls.sent)
  {
    hide ActiveInv, OutboundStep, BodyOctets, Script, UnitsSent, OutboundOk, Ready;
    SendingFacts(r, op);
    OutboundKeeps(op.outbound.value, op.sendLimit, answer);
    TlsUnit(r, op);
    if op.transport == Some(Tls) {
      var o, admitted := op.outbound.value, OutboundStep(op.outbound.value, op.sendLimit, answer).2;
      assert o.bytes[..o.offset] + admitted <= o.bytes;
      CommandIsNotBody(r, UnitsSent(r, op.phase), o.bytes[..o.offset], admitted);
      assert op.tls.sent + [] == op.tls.sent;
    }
  }

  lemma TlsUnit(r: SendRequest, op: Op)
    requires SendingUnit(r, op)
    ensures op.transport == Some(Tls) ==> Script(r, Tls) == TlsScript(r)
    ensures UnitsSent(r, op.phase) != |r.recipients| + 3
  {
    hide CurrentInv, OtherInv, ReportInv;
  }

  /** While the body is being sent, every octet admitted beyond the commands before it is one of the body. */
  lemma BodyIsCounted(r: SendRequest, op: Op, more: seq<Byte>)
    requires InBody(r, op) && op.outbound.Some? && op.outbound.value.offset <= |op.outbound.value.bytes|
    requires |more| <= |op.outbound.value.bytes| - op.outbound.value.offset
    ensures BodyOctets(r, op.tls.sent + more) == BodyOctets(r, op.tls.sent) + |more|
  {
    hide InBody, TlsScript, UpTo;
    var partial := BodyFacts(r, op);
    assert |BodyLeft(op)| >= |more|;
    assert |partial| + |BodyLeft(op)| == |TlsScript(r)[|r.recipients| + 3]|;
  }

  /** An offer from a rationed chunk admits exactly what it counts. */
  lemma OfferIsRationed(r: SendRequest, op: Op, next: Op, step: SendStep, dataBytes: nat)
    requires Offered(op, next, step) && Rationed(op, dataBytes) && InBody(r, op) && op.phase.DataBody?
    ensures BodyOctets(r, next.tls.sent) == BodyOctets(r, op.tls.sent) + InFlight(op) - InFlight(next)
    ensures InFlight(op) - InFlight(next) == (if step.Progressed? || step.Done? then step.count else 0)
    ensures 0 <= InFlight(next) <= InFlight(op)
  {
    hide BodyOctets, OutboundOk, InBody;
    var o := op.outbound.value;
    BodyIsCounted(r, op, o.bytes[o.offset..next.outbound.value.offset]);
  }

  /** One step admits no more of the message than it adds to the poll's count. */
  lemma BodyIsRationed(r: SendRequest, op: Op, dataBytes: nat, answer: SendPoll)
    requires InBody(r, op) && Ready(op) && op.phase.DataBody? && Rationed(op, dataBytes)
    ensures var (next, count, _) := AdvanceBody(op, dataBytes, answer);
            && Rationed(next, count)
            && BodyOctets(r, next.tls.sent) == BodyOctets(r, op.tls.sent) + count - dataBytes
  {
    hide InBody, StageChunk, SendSome, BodyOctets, OutboundOk, Offered, Fail, Ready;
    var _ := BodyFacts(r, op);
    if dataBytes < MAX_DATA_BYTES_PER_POLL && !(op.outbound.None? && op.data.value == []) {
      var limit := Min(MAX_STAGING, MAX_DATA_BYTES_PER_POLL - dataBytes);
      StagedKeeps(r, op, limit);
      var staged := StageChunk(op, limit);
      StageKeepsFlying(op, limit);
      var _ := BodyFacts(r, staged);
      BodySends(r, staged, answer);
      var (next, step) := SendSome(staged, answer);
      OfferIsRationed(r, staged, next, step, dataBytes);
      if step.Broken? { BrokenIsQuiet(staged, next, step, step.reason); }
    }
  }

  lemma BrokenIsQuiet(op: Op, next: Op, step: SendStep, reason: FailureReason)
    requires Offered(op, next, step) && Ready(op)
    ensures Fail(next, reason).tls == next.tls && InFlight(Fail(next, reason)) == 0
  {
  }

  lemma StageKeepsFlying(op: Op, limit: nat)
    requires op.data.Some?
    ensures op.outbound.Some? ==> StageChunk(op, limit) == op
    ensures StageChunk(op, limit).phase == op.phase
  {
  }

  lemma CommandAdmitsNoBody(r: SendRequest, op: Op, answer: SendPoll)
    requires SendingUnit(r, op) && Ready(op)
    ensures BodyOctets(r, AdvanceSend(op, answer).0.tls.sent) == BodyOctets(r, op.tls.sent)
    ensures InFlight(AdvanceSend(op, answer).0) == 0
  {
    hide ActiveInv, BodyOctets, SendSome, Fail, OutboundOk;
    EndingIsQuiet();
    OfferAdmitsNoBody(r, op, answer);
    SendKeepsReady(op, answer);
    AfterCommandIsQuiet(SendSome(op, answer).0.(outbound := None));
    CommandNotInFlight(op, answer);
  }

  lemma CommandNotInFlight(op: Op, answer: SendPoll)
    requires Ready(op) && SendingCommand(op.phase)
    ensures InFlight(AdvanceSend(op, answer).0) == 0
  {
    hide OutboundStep;
  }

  lemma AnswerIsNotInFlight(op: Op, reply: Reply, upgrade: UpgradePoll)
    requires Ready(op) && Reading(op.phase) && op.outbound.None?
    ensures InFlight(HandleReply(op, reply, upgrade)) == 0
  {
    hide Summary, Advertises, AnyAccepted, AnyRefused, EhloCommand, RcptCommand, MailCommand;
  }

  lemma ReadAdmitsNothing(op: Op, answer: ReadPoll, upgrade: UpgradePoll)
    requires Ready(op) && Reading(op.phase) && op.outbound.None?
    ensures var next := AdvanceRead(op, answer, upgrade).0; next.tls.sent == op.tls.sent && InFlight(next) == 0
  {
    hide HandleReply, PushByte, Fail;
    EndingIsQuiet();
    if op.transport.Some? && answer.Octet? {
      var (next, progress) := Absorb(op, answer.byte);
      if progress.Complete? {
        AnswerReadsNothing(next, progress.reply, upgrade);
        AnswerIsNotInFlight(next, progress.reply, upgrade);
      }
    }
  }

  lemma ConnectAdmitsNothing(op: Op, answer: ConnectPoll)
    requires Ready(op) && (op.phase.Connect? || op.phase.Upgrade?)
    ensures var next := PollConnect(op, answer).0; next.tls.sent == op.tls.sent && InFlight(next) == 0
  {
    hide EhloCommand;
  }

  lemma NothingStaged(r: SendRequest, op: Op)
    requires ActiveInv(r, op, 0)
    ensures Reading(op.phase) ==> op.outbound.None?
  {
    hide CurrentInv, OtherInv, ReportInv;
  }

  lemma StepIsRationed(r: SendRequest, op: Op, dataBytes: nat, world: World)
    requires ActiveInv(r, op, 0) && Ready(op) && Rationed(op, dataBytes)
    ensures var step := Advance(op, dataBytes, world);
            && Rationed(step.op, step.dataBytes)
            && BodyOctets(r, step.op.tls.sent) == BodyOctets(r, op.tls.sent) + step.dataBytes - dataBytes
  {
    hide ActiveInv, AdvanceRead, AdvanceSend, AdvanceBody, PollConnect, Fail, Ready, BodyOctets;
    EndingIsQuiet();
    NothingStaged(r, op);
    if op.phase.Connect? || op.phase.Upgrade? {
      ConnectAdmitsNothing(op, world.connect);
    } else if Reading(op.phase) {
      ReadAdmitsNothing(op, world.read, world.upgrade);
    } else if SendingCommand(op.phase) {
      CommandAdmitsNoBody(r, op, world.send);
    } else if op.phase.DataBody? {
      BodyIsRationed(r, op, dataBytes, world.send);
    } else {
      FinishIsQuiet(op);
    }
  }

  lemma FinishIsQuiet(op: Op)
    requires op.phase.Finish?
    ensures forall reason :: InFlight(Fail(op, reason)) == 0
  {
  }

  lemma FailIsRationed(op: Op, dataBytes: nat, reason: FailureReason)
    requires Ready(op) && Rationed(op, dataBytes)
    ensures Rationed(Fail(op, reason), dataBytes) && Fail(op, reason).tls == op.tls
  {
  }

  lemma {:induction false} PollIsRationed(r: SendRequest, op: Op, dataBytes: nat, worlds: seq<World>)
    requires Inv(r, op) && Rationed(op, dataBytes)
    ensures var after := PollLoop(r, op, dataBytes, worlds);
            && Rationed(after, 0)
            && BodyOctets(r, after.tls.sent) <= BodyOctets(r, op.tls.sent) + MAX_DATA_BYTES_PER_POLL - dataBytes
    decreases |worlds|
  {
    hide Advance, ActiveInv, WireInv, Ended, BodyOctets, Ready, Fail, InFlight;
    if worlds != [] && op.outcome.None? {
      ActiveIsReady(r, op, 0);
      if worlds[0].timedOut {
        FailIsRationed(op, dataBytes, Timeout);
      } else {
        AdvanceKeeps(r, op, dataBytes, worlds[0]);
        StepIsRationed(r, op, dataBytes, worlds[0]);
        var step := Advance(op, dataBytes, worlds[0]);
        if step.again { PollIsRationed(r, step.op, step.dataBytes, worlds[1..]); }
      }
    }
  }

  lemma {:induction false} RunIsRationed(r: SendRequest, op: Op, events: seq<Event>)
    requires Inv(r, op) && Rationed(op, 0)
    ensures Rationed(Continue(r, op, events), 0)
    decreases |events|
  {
    hide ActiveInv, WireInv, Ended, PollLoop, Fail, InFlight, Ready;
    if events != [] {
      match events[0] {
        case Poll(worlds) =>
          PollIsRationed(r, op, 0, if |worlds| <= MAX_STEPS_PER_POLL then worlds else worlds[..MAX_STEPS_PER_POLL]);
        case Cancel =>
          if op.outcome.None? { ActiveIsReady(r, op, 0); FailIsRationed(op, 0, Cancelled); }
      }
      RunIsRationed(r, Apply(r, op, events[0]), events[1..]);
    }
  }

  /**
   * In any run, one more poll admits at most 16384 octets of the message, a chunk staged by an
   * earlier poll included.
   */
  lemma PollAdmitsBoundedBody(r: SendRequest, limit: nat, events: seq<Event>, worlds: seq<World>)
    requires Submittable(r, limit)
    ensures BodyOctets(r, Run(r, limit, events + [Poll(worlds)]).tls.sent)
         <= BodyOctets(r, Run(r, limit, events).tls.sent) + MAX_DATA_BYTES_PER_POLL
  {
    hide Inv, PollLoop, BodyOctets;
    SubmitKeeps(r, limit);
    var start := Submit(r, limit);
    RunIsRationed(r, start, events);
    ContinueSplits(r, start, events, [Poll(worlds)]);
    var op := Continue(r, start, events);
    assert Continue(r, op, [Poll(worlds)]) == Apply(r, op, Poll(worlds));
    PollIsRationed(r, op, 0, if |worlds| <= MAX_STEPS_PER_POLL then worlds else worlds[..MAX_STEPS_PER_POLL]);
  }
}
