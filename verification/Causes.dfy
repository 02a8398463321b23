/** What a step of a poll makes of every answer of the world: it goes on, or ends naming its cause. */
module SmtpCauses {
  import opened Bytes
  import opened DotStuffing
  import opened SmtpReply
  import opened SmtpRequest
  import opened SmtpEngine
  import opened SmtpWire
  import opened SmtpProof
  import opened SmtpRuns
  import opened SmtpRuling
  import opened SmtpWork
  import opened SmtpProgress
  import opened SmtpEndings

  // ---- what a submission is doing, by its transcript ----

  /** The units that are on the wire before reply `k` of a transport can come. */
  function UnitsDue(r: SendRequest, security: Security, k: nat): (u: nat)
    ensures u <= |Script(r, security)|
  {
    var n, j := |r.recipients|, k - Greetings(r, security);
    if j < 0 then 0
    else if security.Plain? then if j == 0 then 1 else 2
    else if j <= n + 2 then j + 1
    else if j == n + 3 then n + 5
    else n + 6
  }

  datatype Doing = Connecting | Sending | Awaiting | Parting

  ghost function DoingWhat(r: SendRequest, op: Op): (doing: Doing) {
    if op.transport.None? then Connecting
    else
      var security, c := op.transport.value, Current(op);
      if |c.sent| < |UpTo(Script(r, security), UnitsDue(r, security, |c.replies|))| then Sending
      else if security.Tls? && |c.replies| >= Greetings(r, Tls) + |r.recipients| + 5 then Parting
      else Awaiting
  }

  lemma DueUnits(r: SendRequest, op: Op)
    requires ActiveInv(r, op, 0) && op.transport.Some?
    ensures var due := UnitsDue(r, op.transport.value, |Current(op).replies|);
            && (Reading(op.phase) || op.phase.Finish? ==> UnitsSent(r, op.phase) == due)
            && (SendingCommand(op.phase) || op.phase.DataBody? ==> UnitsSent(r, op.phase) < due)
    ensures op.transport.value.Tls? && |op.tls.replies| >= Greetings(r, Tls) + |r.recipients| + 5 <==> op.phase.Finish?
    ensures Reading(op.phase) || SendingCommand(op.phase) || op.phase.DataBody? || op.phase.Finish?
  {
    hide SentInv, ReportInv, AcceptInv, Feed, Script;
  }

  lemma LogLength(r: SendRequest, op: Op)
    requires ActiveInv(r, op, 0) && op.transport.Some?
    ensures var units, k := Script(r, op.transport.value), UnitsSent(r, op.phase);
            && k <= |units|
            && (Reading(op.phase) || op.phase.Finish? ==> Current(op).sent == UpTo(units, k))
            && (SendingCommand(op.phase) ==> k < |units| && |Current(op).sent| < |UpTo(units, k + 1)|)
            && (op.phase.DataBody? ==> k + 2 <= |units| && |Current(op).sent| < |UpTo(units, k + 2)|)
  {
    hide OtherInv, ReportInv, AcceptInv, Feed, Script, UpTo, RepliesSeen, UnitsSent;
    if SendingCommand(op.phase) {
      SendingFacts(r, op);
      UpToNext(Script(r, op.transport.value), UnitsSent(r, op.phase));
    } else if op.phase.DataBody? {
      var partial := BodyFacts(r, op);
      BodyUnits(r, op.phase);
      UpToNext(TlsScript(r), |r.recipients| + 3);
      UpToNext(TlsScript(r), |r.recipients| + 4);
    } else {
      var partial :| PartialUnit(r, op, partial)
        && Current(op).sent == UpTo(Script(r, op.transport.value), UnitsSent(r, op.phase)) + partial;
      assert Reading(op.phase) || op.phase.Finish? ==> partial == [];
    }
  }

  lemma BodyUnits(r: SendRequest, phase: Phase)
    requires phase.DataBody?
    ensures UnitsSent(r, phase) == |r.recipients| + 3 && Script(r, Tls) == TlsScript(r) && |TERMINATOR| > 0
  {
  }

  /** The transcript tells what a submission is doing. */
  lemma DoingIsPhase(r: SendRequest, op: Op)
    requires ActiveInv(r, op, 0)
    ensures DoingWhat(r, op) == if op.phase.Connect? || op.phase.Upgrade? then Connecting
                                else if op.phase.Finish? then Parting
                                else if Reading(op.phase) then Awaiting else Sending
  {
    TransportByPhase(r, op);
    if op.transport.Some? {
      DueUnits(r, op);
      LogLength(r, op);
      hide ActiveInv, Script, UpTo, UnitsDue, UnitsSent;
      var units, k := Script(r, op.transport.value), UnitsSent(r, op.phase);
      var due := UnitsDue(r, op.transport.value, |Current(op).replies|);
      if SendingCommand(op.phase) {
        UpToGrows(units, k + 1, due);
      } else if op.phase.DataBody? {
        BodyIsDue(r, op);
        UpToGrows(units, k + 2, due);
      }
    }
  }

  lemma TransportByPhase(r: SendRequest, op: Op)
    requires ActiveInv(r, op, 0)
    ensures op.transport.None? <==> op.phase.Connect? || op.phase.Upgrade?
  {
    hide CurrentInv, OtherInv, ReportInv;
  }

  lemma BodyIsDue(r: SendRequest, op: Op)
    requires ActiveInv(r, op, 0) && op.phase.DataBody?
    ensures op.transport == Some(Tls) && UnitsDue(r, Tls, |op.tls.replies|) == UnitsSent(r, op.phase) + 2
  {
    hide SentInv, ReportInv, AcceptInv, Feed, Script;
  }

  // ---- what the world's answer amounts to ----

  /** A failure of the connect, of the read or of the offer, by its kind. */
  function Trouble(doing: Doing, world: World, limit: nat): (reason: Option<FailureReason>) {
    match doing
    case Connecting =>
      (match world.connect
       case ConnectFailed(kind) => Some(ReasonFromError(kind))
       case ConnectCancelled => Some(Cancelled)
       case UnknownCompletion => Some(Protocol)
       case UnknownWait => Some(Protocol)
       case _ => None)
    case Sending =>
      (match world.send
       case SendEngineStopped => Some(EngineStopped)
       case SendCancelled => Some(Cancelled)
       case SendFailed => Some(Transport)
       case ChunkTooLarge => if limit <= 1 then Some(Transport) else None
       case _ => None)
    case Awaiting =>
      (match world.read
       case ReadFailed(kind) => Some(ReasonFromError(kind))
       case ReadCancelled => Some(Cancelled)
       case UnknownRead => Some(Protocol)
       case NoData => None
       case Octet(_) => None
       case _ => Some(Transport))
    case Parting => if world.finish.FinishPending? then None else Some(Transport)
  }

  /** How a submission that awaits a reply ends with this octet, if it does. */
  ghost function Hearing(r: SendRequest, op: Op, byte: Byte, upgrade: UpgradePoll): (d: Option<Delivery>)
    requires op.transport.Some?
  {
    var fed := Feed(INITIAL, Current(op).read + [byte]);
    if !fed.ok then Some(Ending(r, op, Protocol))
    else if fed.replies == Current(op).replies || fed.replies == [] then None
    else if |op.tls.replies| > FinalReplyIndex(r) then
      if Positive(fed.replies[|fed.replies| - 1].code) then None else Some(Ending(r, op, Protocol))
    else
      var ruling :=
        if op.transport.value.Plain? then Ruling(r, fed.replies, op.tls.replies) else Ruling(r, op.plain.replies, fed.replies);
      if ruling.Some? then ruling
      else if Where(r, op).AtStartTls? && upgrade.UpgradeRefused?
      then Some(NotAccepted(AtStartTls, ReasonFromError(upgrade.kind)))
      else None
  }

  /** How a submission ends in this world, if it does. */
  ghost function Expected(r: SendRequest, op: Op, world: World): (d: Option<Delivery>) {
    var doing := DoingWhat(r, op);
    var trouble := Trouble(doing, world, op.sendLimit);
    if trouble.Some? then Some(Ending(r, op, trouble.value))
    else if doing.Awaiting? && world.read.Octet? && op.transport.Some?
    then Hearing(r, op, world.read.byte, world.upgrade)
    else None
  }

  /** The step ends the submission as expected, or not at all. */
  ghost predicate AsExpected(expected: Option<Delivery>, next: Op) {
    match expected
    case Some(d) => next.outcome.Some? && next.outcome.value.delivery == d
    case None => next.outcome.None?
  }

  // ---- steps ----

  /** Failing after a harmless change ends as failing before it. */
  lemma FailAfter(r: SendRequest, op: Op, next: Op, reason: FailureReason)
    requires Inv(r, op) && op.outcome.None?
    requires next.outcome.None? && next.accepted == op.accepted && next.terminatorAdmitted == op.terminatorAdmitted
    requires next.phase == op.phase
    ensures AsExpected(Some(Ending(r, op, reason)), Fail(next, reason))
  {
    FailIsEnding(r, op, reason);
    hide Inv, Ending;
  }

  lemma ConnectAsExpected(r: SendRequest, op: Op, world: World)
    requires Inv(r, op) && op.outcome.None? && Ready(op) && (op.phase.Connect? || op.phase.Upgrade?)
    ensures AsExpected(Expected(r, op, world), PollConnect(op, world.connect).0)
  {
    hide Inv, ActiveInv, Ending, DoingWhat, Fail, EhloCommand;
    Active(r, op);
    DoingIsPhase(r, op);
    HasPending(r, op);
    var trouble := Trouble(Connecting, world, op.sendLimit);
    if trouble.Some? { FailAfter(r, op, op.(pending := None), trouble.value); }
  }

  lemma HasPending(r: SendRequest, op: Op)
    requires Inv(r, op) && op.outcome.None? && (op.phase.Connect? || op.phase.Upgrade?)
    ensures op.pending.Some?
  {
    hide WireInv, CurrentInv, OtherInv, ReportInv;
  }

  lemma OfferTrouble(op: Op, world: World)
    requires Ready(op) && op.outbound.Some? && OutboundOk(op.outbound.value) && op.transport.Some?
    ensures var (next, step) := SendSome(op, world.send);
            && next.accepted == op.accepted && next.terminatorAdmitted == op.terminatorAdmitted
            && next.phase == op.phase && next.outcome.None?
            && (step.Broken? <==> Trouble(Sending, world, op.sendLimit).Some?)
            && (step.Broken? ==> Trouble(Sending, world, op.sendLimit) == Some(step.reason))
  {
    hide Candidate;
  }

  lemma Active(r: SendRequest, op: Op)
    requires Inv(r, op) && op.outcome.None?
    ensures ActiveInv(r, op, 0)
  {
  }

  /** A step that sends ends exactly by a failed offer. */
  lemma SendingExpects(r: SendRequest, op: Op, world: World, step: SendStep)
    requires DoingWhat(r, op).Sending?
    requires step.Broken? <==> Trouble(Sending, world, op.sendLimit).Some?
    requires step.Broken? ==> Trouble(Sending, world, op.sendLimit) == Some(step.reason)
    ensures Expected(r, op, world) == if step.Broken? then Some(Ending(r, op, step.reason)) else None
  {
    hide DoingWhat, Ending, Hearing;
  }

  lemma CommandAsExpected(r: SendRequest, op: Op, world: World)
    requires Inv(r, op) && op.outcome.None? && Ready(op) && SendingCommand(op.phase)
    ensures AsExpected(Expected(r, op, world), AdvanceSend(op, world.send).0)
  {
    hide Inv, ActiveInv, Ending, DoingWhat, Fail, SendSome, OutboundOk, Expected, Ready, Trouble;
    Active(r, op);
    DoingIsPhase(r, op);
    SendingFacts(r, op);
    OfferTrouble(op, world);
    SendKeepsReady(op, world.send);
    var (next, step) := SendSome(op, world.send);
    SendingExpects(r, op, world, step);
    if step.Broken? { FailAfter(r, op, next, step.reason); }
    if step.Done? { CommandGoesOn(next.(outbound := None)); }
  }

  lemma CommandGoesOn(op: Op)
    requires Ready(op) && SendingCommand(op.phase)
    ensures AfterCommand(op).outcome.None?
  {
  }

  /** The whole message is admitted and nothing of the terminator: the next step may be to stage it. */
  ghost predicate Between(r: SendRequest, op: Op) { op.tls.sent == UpTo(TlsScript(r), |r.recipients| + 4) }

  lemma StagedAsExpected(r: SendRequest, op: Op, staged: Op, dataBytes: nat, world: World)
    requires Inv(r, op) && op.outcome.None? && DoingWhat(r, op).Sending?
    requires Ready(staged) && staged.outbound.Some? && OutboundOk(staged.outbound.value) && staged.transport.Some?
    requires staged.accepted == op.accepted && staged.terminatorAdmitted == op.terminatorAdmitted
    requires staged.phase == op.phase && staged.sendLimit == op.sendLimit
    ensures AsExpected(Expected(r, op, world), SendStaged(staged, dataBytes, world.send).0)
  {
    hide Inv, Ending, DoingWhat, Fail, SendSome, OutboundOk, Expected, Ready, Trouble;
    OfferTrouble(staged, world);
    SendKeepsReady(staged, world.send);
    var (next, step) := SendSome(staged, world.send);
    SendingExpects(r, op, world, step);
    if step.Broken? { FailAfter(r, op, next, step.reason); }
  }

  lemma BodyAsExpected(r: SendRequest, op: Op, dataBytes: nat, world: World)
    requires Inv(r, op) && op.outcome.None? && Ready(op) && op.phase.DataBody?
    requires dataBytes < MAX_DATA_BYTES_PER_POLL && !(op.outbound.None? && op.data.value == [])
    ensures AsExpected(Expected(r, op, world), AdvanceBody(op, dataBytes, world.send).0)
  {
    hide Inv, ActiveInv, DoingWhat, SendStaged, OutboundOk, StageChunk, Expected, AsExpected, Ready;
    Active(r, op);
    DoingIsPhase(r, op);
    var _ := BodyFacts(r, op);
    var limit := Min(MAX_STAGING, MAX_DATA_BYTES_PER_POLL - dataBytes);
    StagedKeeps(r, op, limit);
    StagingIsNeutral(op, limit);
    var staged := StageChunk(op, limit);
    var _ := BodyFacts(r, staged);
    StagedFlags(op, limit);
    StagedAsExpected(r, op, staged, dataBytes, world);
  }

  /** A message that is wholly admitted: its terminator is staged, and nothing else happens in that step. */
  lemma StagesTerminator(r: SendRequest, op: Op, dataBytes: nat, answer: SendPoll)
    requires InBody(r, op) && Ready(op) && op.phase.DataBody? && op.outbound.None? && op.data.value == []
    ensures Between(r, op) && AdvanceBody(op, dataBytes, answer).0.outcome.None?
  {
    hide InBody, TlsScript, UpTo;
    var partial := BodyFacts(r, op);
    UpToNext(TlsScript(r), |r.recipients| + 3);
    assert BodyLeft(op) == [] && partial + [] == partial;
  }

  lemma StagedFlags(op: Op, limit: nat)
    requires op.data.Some?
    ensures var staged := StageChunk(op, limit);
            staged.accepted == op.accepted && staged.terminatorAdmitted == op.terminatorAdmitted && staged.outcome == op.outcome
  {
  }

  lemma FinishAsExpected(r: SendRequest, op: Op, dataBytes: nat, world: World)
    requires Inv(r, op) && op.outcome.None? && Ready(op) && op.phase.Finish?
    ensures AsExpected(Expected(r, op, world), Advance(op, dataBytes, world).op)
  {
    hide Inv, ActiveInv, DoingWhat, Fail, Summary, AdvanceRead, AdvanceSend, AdvanceBody, PollConnect, Where, Hearing;
    Active(r, op);
    DoingIsPhase(r, op);
    TransportByPhase(r, op);
    FailAfter(r, op, op, Transport);
    FailAfter(r, op, op, Protocol);
    FlagsAreWire(r, op);
    FinishHasAnswer(r, op);
  }

  lemma FinishHasAnswer(r: SendRequest, op: Op)
    requires Inv(r, op) && op.outcome.None? && op.phase.Finish?
    ensures op.accepted.Some?
  {
    hide WireInv, CurrentInv, OtherInv, ReportInv;
  }

  // ---- reading ----

  /** The parser of the operation is the parser of everything read. */
  lemma FeedIsAbsorb(r: SendRequest, op: Op, byte: Byte)
    requires ActiveInv(r, op, 0) && op.transport.Some?
    ensures var (next, progress) := Absorb(op, byte);
            var fed := Feed(INITIAL, Current(op).read + [byte]);
            && (fed.ok <==> !progress.Malformed?)
            && fed.replies == (if progress.Complete? then Current(op).replies + [progress.reply] else Current(op).replies)
            && (fed.ok ==> fed.replies == Current(next).replies)
  {
    hide SentInv, PushByte, Feed, ReportInv, AcceptInv, OtherInv;
    FeedSnoc(INITIAL, Current(op).read, byte);
  }

  /** A reply without consequence lets the submission go on, but for an upgrade that is refused. */
  lemma WantedOrRuled(r: SendRequest, op: Op, reply: Reply, upgrade: UpgradePoll)
    requires ControlInv(r, op) && Ready(op) && Reading(op.phase) && !op.phase.QuitReply?
    ensures Wanted(op, reply, upgrade) <==> Consequence(op, reply).None? && (op.phase.StartTlsReply? ==> upgrade.UpgradeAdmitted?)
  {
    hide Summary, Advertises, Noted, AnyAccepted, AnyRefused;
  }

  lemma RefusedUpgrade(r: SendRequest, op: Op, reply: Reply, upgrade: UpgradePoll)
    requires ControlInv(r, op) && Ready(op) && op.phase.StartTlsReply? && Consequence(op, reply).None? && upgrade.UpgradeRefused?
    ensures AsExpected(Some(NotAccepted(AtStartTls, ReasonFromError(upgrade.kind))), HandleReply(op, reply, upgrade))
  {
    hide Summary, Advertises;
  }

  lemma QuitAnswer(r: SendRequest, op: Op, reply: Reply, upgrade: UpgradePoll)
    requires ControlInv(r, op) && Ready(op) && op.phase.QuitReply?
    ensures HandleReply(op, reply, upgrade).outcome.None? <==> Positive(reply.code)
    ensures !Positive(reply.code) ==> HandleReply(op, reply, upgrade) == Fail(op, Protocol)
  {
    hide Fail;
    EndsAtAll(op, Protocol);
  }

  lemma EndsAtAll(op: Op, reason: FailureReason)
    ensures Fail(op, reason).outcome.Some?
  {
  }

  /** The phase in which QUIT is answered is told by the replies, and so is the one of STARTTLS. */
  lemma ReadingStage(r: SendRequest, op: Op)
    requires Inv(r, op) && op.outcome.None? && Reading(op.phase)
    ensures op.phase.QuitReply? <==> |op.tls.replies| > FinalReplyIndex(r)
    ensures op.transport.Some? && (Where(r, op).AtStartTls? <==> op.phase.StartTlsReply?)
    ensures op.transport == Some(Plain) || op.transport == Some(Tls)
  {
    StageByReplies(r, op);
    FlagsAreWire(r, op);
    OnlyQuitReads(r, op);
    hide Inv, TerminatorSent, StageOf, FinalReplyIndex;
  }

  lemma OnlyQuitReads(r: SendRequest, op: Op)
    requires Inv(r, op) && op.outcome.None? && Reading(op.phase)
    ensures op.transport.Some? && (op.accepted.Some? <==> op.phase.QuitReply?)
    ensures !op.phase.DataBody? && !op.phase.TerminatorSend?
  {
    hide WireInv, CurrentInv, OtherInv, ReportInv;
  }

  /** What the parser makes of the octet, in the terms of `Hearing`. */
  lemma HearingByProgress(r: SendRequest, op: Op, byte: Byte, upgrade: UpgradePoll)
    requires ActiveInv(r, op, 0) && op.transport.Some?
    ensures var (next, progress) := Absorb(op, byte);
            match progress
            case Malformed => Hearing(r, op, byte, upgrade) == Some(Ending(r, op, Protocol))
            case More => Hearing(r, op, byte, upgrade).None?
            case Complete(reply) =>
              if |op.tls.replies| > FinalReplyIndex(r) then
                Hearing(r, op, byte, upgrade) == if Positive(reply.code) then None else Some(Ending(r, op, Protocol))
              else
                var ruling := Ruling(r, next.plain.replies, next.tls.replies);
                Hearing(r, op, byte, upgrade)
                == if ruling.Some? then ruling
                   else if Where(r, op).AtStartTls? && upgrade.UpgradeRefused?
                   then Some(NotAccepted(AtStartTls, ReasonFromError(upgrade.kind)))
                   else None
  {
    hide ActiveInv, Ending, Where, PushByte, Feed, Ruling;
    FeedIsAbsorb(r, op, byte);
  }

  lemma OctetAsExpected(r: SendRequest, op: Op, byte: Byte, upgrade: UpgradePoll)
    requires Inv(r, op) && op.outcome.None? && Ready(op) && Reading(op.phase) && op.transport.Some?
    ensures AsExpected(Hearing(r, op, byte, upgrade), AdvanceRead(op, Octet(byte), upgrade).0)
  {
    hide Inv, ActiveInv, Ending, Where, HandleReply, Fail, Absorb, Ruling, Ready, Hearing, JustRead, FinalReplyIndex;
    Active(r, op);
    ReadingStage(r, op);
    HearingByProgress(r, op, byte, upgrade);
    AbsorbIsReady(op, byte);
    AbsorbFlags(op, byte);
    var (next, progress) := Absorb(op, byte);
    if progress.Malformed? {
      FailAfter(r, op, next, Protocol);
    } else if progress.Complete? {
      var reply := progress.reply;
      AbsorbedIsJustRead(r, op, byte);
      JustReadPhase(r, next, reply);
      if op.phase.QuitReply? {
        QuitAnswer(r, next, reply, upgrade);
        FailAfter(r, op, next, Protocol);
      } else {
        AnswerAsExpected(r, next, reply, upgrade);
      }
    }
  }

  lemma AbsorbFlags(op: Op, byte: Byte)
    requires op.transport.Some?
    ensures var next := Absorb(op, byte).0;
            next.accepted == op.accepted && next.terminatorAdmitted == op.terminatorAdmitted
  {
    hide PushByte;
  }

  lemma AnswerAsExpected(r: SendRequest, next: Op, reply: Reply, upgrade: UpgradePoll)
    requires JustRead(r, next, reply) && ControlInv(r, next) && Ready(next) && !next.phase.QuitReply?
    ensures var ruling := Ruling(r, next.plain.replies, next.tls.replies);
            AsExpected(if ruling.Some? then ruling
                       else if next.phase.StartTlsReply? && upgrade.UpgradeRefused?
                       then Some(NotAccepted(AtStartTls, ReasonFromError(upgrade.kind)))
                       else None,
                       HandleReply(next, reply, upgrade))
  {
    assert Reading(next.phase);
    hide JustRead, ControlInv, Ready, HandleReply, Consequence, Ruling, Wanted, ByReply;
    ConsequenceIsRuling(r, next, reply);
    ReplyRules(r, next, reply, upgrade);
    WantedOrRuled(r, next, reply, upgrade);
    ReplyDecides(next, reply, upgrade);
    if Consequence(next, reply).None? && next.phase.StartTlsReply? && upgrade.UpgradeRefused? {
      RefusedUpgrade(r, next, reply, upgrade);
    }
  }

  lemma ReadAsExpected(r: SendRequest, op: Op, world: World)
    requires Inv(r, op) && op.outcome.None? && Ready(op) && Reading(op.phase)
    ensures AsExpected(Expected(r, op, world), AdvanceRead(op, world.read, world.upgrade).0)
  {
    hide Inv, ActiveInv, Ending, DoingWhat, Fail, Hearing, HandleReply, Absorb, Where;
    Active(r, op);
    DoingIsPhase(r, op);
    ReadingStage(r, op);
    if world.read.Octet? { OctetAsExpected(r, op, world.read.byte, world.upgrade); }
    var trouble := Trouble(Awaiting, world, op.sendLimit);
    if trouble.Some? { FailAfter(r, op, op, trouble.value); }
  }

  lemma StepAsExpected(r: SendRequest, op: Op, dataBytes: nat, world: World)
    requires Inv(r, op) && op.outcome.None? && Ready(op) && dataBytes < MAX_DATA_BYTES_PER_POLL
    ensures var next := Advance(op, dataBytes, world).op;
            AsExpected(Expected(r, op, world), next) || (Between(r, op) && next.outcome.None?)
  {
    if op.phase.Finish? {
      hide *;
      FinishAsExpected(r, op, dataBytes, world);
    } else {
      hide Inv, PollConnect, AdvanceRead, AdvanceSend, AdvanceBody, Expected, Ready, Between, AsExpected;
      if op.phase.Connect? || op.phase.Upgrade? {
        ConnectAsExpected(r, op, world);
      } else if Reading(op.phase) {
        ReadAsExpected(r, op, world);
      } else if SendingCommand(op.phase) {
        CommandAsExpected(r, op, world);
      } else if !(op.outbound.None? && op.data == Some([])) {
        HasData(op);
        BodyAsExpected(r, op, dataBytes, world);
      } else {
        Active(r, op);
        StagesTerminator(r, op, dataBytes, world.send);
      }
    }
  }

  lemma HasData(op: Op)
    requires Ready(op)
    ensures op.phase.DataBody? ==> op.data.Some?
  {
  }

  /**
   * Every ending names its cause. In any run, at any step of a poll that goes on, what the world
   * answers decides whether the submission ends with this step, and how: a failed or cancelled connect,
   * read or offer with the reason of its kind at the stage reached, an octet that no reply can have, a
   * reply that ends the submission, a refused upgrade; and nothing else ends it. Only in the step that
   * stages the terminator no offer is made that could fail.
   */
  lemma CauseIsReported(r: SendRequest, limit: nat, events: seq<Event>, worlds: seq<World>, next: World)
    requires Submittable(r, limit) && GoesOn(r, limit, events, worlds) && !next.timedOut
    ensures var op, end := Run(r, limit, events + [Poll(worlds)]), Run(r, limit, events + [Poll(worlds + [next])]);
            match Expected(r, op, next)
            case Some(delivery) =>
              if end.outcome.Some? then end.outcome.value.delivery == delivery else Between(r, op)
            case None => end.outcome.None?
  {
    assert |worlds + [next] + []| <= 64;
    hide Run, Inv, GoesOn, Expected, Between;
    var count := OneMore(r, limit, events, worlds, next, []);
    assert worlds + [next] + [] == worlds + [next];
    var op := Run(r, limit, events + [Poll(worlds)]);
    Unfinished(r, limit, events, worlds);
    AdvanceKeeps(r, op, count, next);
    OneWorld(r, op, count, next);
    StepAsExpected(r, op, count, next);
  }

  lemma OneWorld(r: SendRequest, op: Op, count: nat, next: World)
    requires Inv(r, op) && op.outcome.None? && Ready(op) && !next.timedOut
    ensures PollLoop(r, op, count, [next] + []) == Advance(op, count, next).op
  {
    hide Inv, Advance, Ready;
    AdvanceKeeps(r, op, count, next);
    assert [next] + [] == [next] && [next][1..] == [];
  }
}
