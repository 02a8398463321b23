/**
 * What the replies of a server decide: a run ends as the last complete reply rules, and what only a
 * reply can decide is decided by nothing else.
 */
module SmtpRuling {
  import opened Bytes
  import opened SmtpReply
  import opened SmtpRequest
  import opened SmtpEngine
  import opened SmtpWire
  import opened SmtpProof
  import opened SmtpRuns

  /** The stage answered by the `k`-th reply of a transport: the greeting, then the answer to each command in turn. */
  function StageOf(r: SendRequest, security: Security, k: nat): (stage: Stage) {
    var n, j := |r.recipients|, k - Greetings(r, security);
    if j < 0 then AtGreeting
    else if j == 0 then AtEhlo
    else if security.Plain? then AtStartTls
    else if j == 1 then AtMailFrom
    else if j < n + 2 then AtRcptTo(j - 2)
    else if j == n + 2 then AtDataCommand
    else if j == n + 3 then AtDataResult
    else AtQuit
  }

  /** The codes that answer a stage in the affirmative, or at least to the point. */
  predicate InPlace(stage: Stage, code: nat) {
    match stage
    case AtStartTls => code == 220
    case AtRcptTo(_) => Positive(code) || Negative(code)
    case AtDataCommand => Intermediate(code)
    case _ => Positive(code)
  }

  /** A 4xx or 5xx ends the submission, except the answer to QUIT and, unless it is 421, the answer to RCPT. */
  predicate Ends(stage: Stage, code: nat) {
    Negative(code) && !stage.AtQuit? && (stage.AtRcptTo? ==> code == 421)
  }

  /** Recipient `i` was accepted by these replies on TLS. */
  predicate AcceptedBy(r: SendRequest, replies: seq<Reply>, i: nat) {
    RcptReplyIndex(r, i) < |replies| && Positive(replies[RcptReplyIndex(r, i)].code)
  }

  /** What the answers to RCPT, now complete, rule about the message. */
  function RecipientsRuling(r: SendRequest, replies: seq<Reply>): (ruling: Option<FailureReason>) {
    if forall i: nat :: i < |r.recipients| ==> !AcceptedBy(r, replies, i) then Some(NoAcceptedRecipients)
    else if r.recipientPolicy.RequireAllRecipients? && exists i: nat :: i < |r.recipients| && !AcceptedBy(r, replies, i)
    then Some(RecipientsRejected)
    else None
  }

  /** A reply that has no place where it comes. */
  function Misplaced(stage: Stage): (d: Delivery) {
    if stage.AtDataResult? then Uncertain(stage, Protocol) else NotAccepted(stage, Protocol)
  }

  /** What the last of these replies decides, if it ends the submission. */
  function LastRuling(r: SendRequest, security: Security, replies: seq<Reply>): (ruling: Option<Delivery>) {
    if replies == [] then None
    else
      var stage, last := StageOf(r, security, |replies| - 1), replies[|replies| - 1];
      if stage.AtQuit? then None
      else if Ends(stage, last.code) then Some(Rejected(stage, Summary(last)))
      else if !InPlace(stage, last.code) then Some(Misplaced(stage))
      else if stage.AtEhlo? && security.Plain? && !Advertises(last, Ascii("STARTTLS"))
      then Some(NotAccepted(stage, StartTlsUnavailable))
      else if stage.AtRcptTo? && stage.index + 1 == |r.recipients| && RecipientsRuling(r, replies).Some?
      then Some(NotAccepted(stage, RecipientsRuling(r, replies).value))
      else None
  }

  /** The last complete reply of the run is the last one on TLS, or on the plain transport before there is one. */
  function Ruling(r: SendRequest, plain: seq<Reply>, tls: seq<Reply>): (ruling: Option<Delivery>) {
    if tls != [] then LastRuling(r, Tls, tls) else LastRuling(r, Plain, plain)
  }

  /** Endings that only a reply can bring about. */
  predicate ByReply(d: Delivery) {
    || d.Rejected?
    || (d.NotAccepted?
        && (d.reason.NoAcceptedRecipients? || d.reason.RecipientsRejected? || d.reason.StartTlsUnavailable?))
  }

  ghost predicate Judged(r: SendRequest, op: Op) {
    var ruling := Ruling(r, op.plain.replies, op.tls.replies);
    if op.outcome.None? then ruling.None?
    else if ruling.Some? then op.outcome.value.delivery == ruling.value
    else !ByReply(op.outcome.value.delivery)
  }

  predicate SameReplies(a: Op, b: Op) { a.plain.replies == b.plain.replies && a.tls.replies == b.tls.replies }

  /** Without a new reply an operation goes on, or ends in a way that needs no reply. */
  predicate Unjudged(a: Op, b: Op) {
    SameReplies(a, b) && (b.outcome.Some? ==> !ByReply(b.outcome.value.delivery))
  }

  lemma UnjudgedKeeps(r: SendRequest, a: Op, b: Op)
    requires Judged(r, a) && a.outcome.None? && Unjudged(a, b)
    ensures Judged(r, b)
  {
    hide LastRuling;
  }

  lemma FailureIsNoRejection(op: Op, reason: FailureReason)
    requires op.outcome.None? && !reason.NoAcceptedRecipients? && !reason.RecipientsRejected? && !reason.StartTlsUnavailable?
    ensures Unjudged(op, Fail(op, reason))
  {
  }

  lemma ConnectUnjudged(op: Op, answer: ConnectPoll)
    requires Ready(op)
    ensures Unjudged(op, PollConnect(op, answer).0)
  {
    hide EhloCommand;
  }

  lemma BrokenBySend(op: Op, answer: SendPoll)
    requires Ready(op)
    ensures var step := SendSome(op, answer).1;
            step.Broken? ==> step.reason.Transport? || step.reason.EngineStopped? || step.reason.Cancelled?
  {
  }

  lemma CommandUnjudged(op: Op, answer: SendPoll)
    requires Ready(op)
    ensures Unjudged(op, AdvanceSend(op, answer).0)
  {
    hide SendSome;
    SendKeepsReady(op, answer);
    BrokenBySend(op, answer);
  }

  lemma StagedUnjudged(op: Op, dataBytes: nat, answer: SendPoll)
    requires Ready(op)
    ensures Unjudged(op, SendStaged(op, dataBytes, answer).0)
  {
    hide SendSome, Fail, ByReply;
    SendKeepsReady(op, answer);
    BrokenBySend(op, answer);
    var (next, step) := SendSome(op, answer);
    if step.Broken? { FailureIsNoRejection(next, step.reason); }
  }

  lemma BodyUnjudged(op: Op, dataBytes: nat, answer: SendPoll)
    requires Ready(op) && op.phase.DataBody?
    ensures Unjudged(op, AdvanceBody(op, dataBytes, answer).0)
  {
    hide SendStaged, ByReply;
    if dataBytes < MAX_DATA_BYTES_PER_POLL && !(op.outbound.None? && op.data.value == []) {
      StagedUnjudged(StageChunk(op, Min(MAX_STAGING, MAX_DATA_BYTES_PER_POLL - dataBytes)), dataBytes, answer);
    }
  }

  /** What a reply decides, by the phase it is read in. */
  ghost function Consequence(op: Op, reply: Reply): (ruling: Option<Delivery>)
    requires Ready(op)
  {
    var stage := Public(op.phase);
    if stage.AtQuit? then None
    else if Ends(stage, reply.code) then Some(Rejected(stage, Summary(reply)))
    else if !InPlace(stage, reply.code) then Some(Misplaced(stage))
    else if op.phase.EhloReply? && op.transport == Some(Plain) && !Advertises(reply, Ascii("STARTTLS"))
    then Some(NotAccepted(stage, StartTlsUnavailable))
    else if op.phase.RcptReply? && op.phase.index + 1 == |op.reports| then
      var reports := Noted(op, op.phase.index, reply).reports;
      if !AnyAccepted(reports) then Some(NotAccepted(stage, NoAcceptedRecipients))
      else if AnyRefused(reports) && op.request.value.recipientPolicy.RequireAllRecipients?
      then Some(NotAccepted(stage, RecipientsRejected))
      else None
    else None
  }

  ghost predicate Rules(op: Op, reply: Reply, next: Op)
    requires Ready(op)
  {
    && SameReplies(op, next)
    && if Consequence(op, reply).Some?
       then next.outcome.Some? && next.outcome.value.delivery == Consequence(op, reply).value
       else next.outcome.Some? ==> !ByReply(next.outcome.value.delivery)
  }

  lemma RcptReplyRules(r: SendRequest, op: Op, reply: Reply)
    requires ControlInv(r, op) && Ready(op) && op.phase.RcptReply?
    ensures Rules(op, reply, HandleRcptReply(op, op.phase.index, reply))
  {
    hide Summary, RcptCommand, AnyAccepted, AnyRefused, Advertises;
  }

  lemma EhloRules(r: SendRequest, op: Op, reply: Reply)
    requires ControlInv(r, op) && Ready(op) && op.phase.EhloReply?
    ensures Rules(op, reply, HandleEhloReply(op, reply))
  {
    hide Summary, Advertises, EhloCommand, MailCommand, Noted, AnyAccepted, AnyRefused;
  }

  lemma StartTlsRules(r: SendRequest, op: Op, reply: Reply, upgrade: UpgradePoll)
    requires ControlInv(r, op) && Ready(op) && op.phase.StartTlsReply?
    ensures Rules(op, reply, HandleStartTlsReply(op, reply, upgrade))
  {
    hide Summary, Advertises, Noted, AnyAccepted, AnyRefused;
  }

  lemma OpeningRules(r: SendRequest, op: Op, reply: Reply, upgrade: UpgradePoll)
    requires ControlInv(r, op) && Ready(op) && (op.phase.Greeting? || op.phase.MailReply?)
    ensures Rules(op, reply, HandleReply(op, reply, upgrade))
  {
    hide Summary, HandleRcptReply, HandleEhloReply, HandleStartTlsReply, EhloCommand, RcptCommand, Noted, Advertises;
  }

  lemma DataRules(r: SendRequest, op: Op, reply: Reply, upgrade: UpgradePoll)
    requires ControlInv(r, op) && Ready(op) && (op.phase.DataReply? || op.phase.DataResult?)
    ensures Rules(op, reply, HandleReply(op, reply, upgrade))
  {
    hide Summary, HandleRcptReply, HandleEhloReply, HandleStartTlsReply, Noted, Advertises;
  }

  lemma QuitRules(r: SendRequest, op: Op, reply: Reply, upgrade: UpgradePoll)
    requires ControlInv(r, op) && Ready(op) && op.phase.QuitReply?
    ensures Rules(op, reply, HandleReply(op, reply, upgrade))
  {
    hide Summary, HandleRcptReply, HandleEhloReply, HandleStartTlsReply, Noted, Advertises;
  }

  lemma ReplyRules(r: SendRequest, op: Op, reply: Reply, upgrade: UpgradePoll)
    requires ControlInv(r, op) && Ready(op) && Reading(op.phase)
    ensures Rules(op, reply, HandleReply(op, reply, upgrade))
  {
    hide Rules, HandleRcptReply, HandleEhloReply, HandleStartTlsReply, Fail, Reject, EhloCommand, StartRcpt, Ready, ControlInv;
    match op.phase {
      case RcptReply(_) => RcptReplyRules(r, op, reply);
      case EhloReply => EhloRules(r, op, reply);
      case StartTlsReply => StartTlsRules(r, op, reply, upgrade);
      case QuitReply => QuitRules(r, op, reply, upgrade);
      case DataReply => DataRules(r, op, reply, upgrade);
      case DataResult => DataRules(r, op, reply, upgrade);
      case _ => OpeningRules(r, op, reply, upgrade);
    }
  }

  lemma OneReport(r: SendRequest, reports: seq<RecipientReport>, replies: seq<Reply>, i: nat)
    requires ReportShape(r, reports, replies, |r.recipients|, false) && i < |r.recipients|
    ensures reports[i].status.AcceptedForTransaction? <==> AcceptedBy(r, replies, i)
    ensures reports[i].status.Refused? <==> !AcceptedBy(r, replies, i)
  {
    hide Summary;
    assert Resolves(reports[i].status, replies[RcptReplyIndex(r, i)]);
  }

  /** The reports of the recipients say what the replies said. */
  lemma ReportsAreReplies(r: SendRequest, reports: seq<RecipientReport>, replies: seq<Reply>)
    requires ReportShape(r, reports, replies, |r.recipients|, false)
    ensures AnyAccepted(reports) <==> exists i: nat :: i < |r.recipients| && AcceptedBy(r, replies, i)
    ensures AnyRefused(reports) <==> exists i: nat :: i < |r.recipients| && !AcceptedBy(r, replies, i)
  {
    assert |reports| == |r.recipients|;
    forall i: nat | i < |r.recipients|
      ensures reports[i].status.AcceptedForTransaction? <==> AcceptedBy(r, replies, i)
      ensures reports[i].status.Refused? <==> !AcceptedBy(r, replies, i)
    {
      OneReport(r, reports, replies, i);
    }
    hide AcceptedBy, ReportShape;
  }

  /** The stage of the reply just read is that of the phase, and only a plain EHLO reply need advertise. */
  lemma LastReplyStage(r: SendRequest, op: Op, reply: Reply)
    requires JustRead(r, op, reply)
    ensures op.transport.Some? && Current(op).replies != []
    ensures StageOf(r, op.transport.value, |Current(op).replies| - 1) == Public(op.phase)
    ensures Current(op).replies[|Current(op).replies| - 1] == reply
    ensures op.transport == Some(Plain) ==> op.tls.replies == []
    ensures op.phase.RcptReply? ==> op.transport == Some(Tls) && |op.reports| == |r.recipients|
    ensures op.phase.EhloReply? <==> Public(op.phase).AtEhlo?
    ensures op.phase.RcptReply? <==> Public(op.phase).AtRcptTo?
    ensures op.phase.RcptReply? ==> op.phase.index == Public(op.phase).index
    ensures op.request == Some(r)
  {
    hide SentInv, AcceptInv, Feed, MaySendData;
  }

  lemma ConsequenceIsRuling(r: SendRequest, op: Op, reply: Reply)
    requires JustRead(r, op, reply) && Ready(op)
    ensures Consequence(op, reply) == Ruling(r, op.plain.replies, op.tls.replies)
  {
    hide JustRead, StageOf, Summary, Advertises, Noted, AnyAccepted, AnyRefused, AcceptedBy, ReportShape, ReportInv,
         ControlInv;
    LastReplyStage(r, op, reply);
    if op.phase.RcptReply? && op.phase.index + 1 == |op.reports| && (Positive(reply.code) || Negative(reply.code)) {
      JustReadPhase(r, op, reply);
      NotedShape(r, op, reply);
      ReportsAreReplies(r, Noted(op, op.phase.index, reply).reports, op.tls.replies);
    }
  }

  lemma ReadJudged(r: SendRequest, op: Op, byte: Byte, upgrade: UpgradePoll)
    requires ActiveInv(r, op, 0) && Ready(op) && Reading(op.phase) && Judged(r, op)
    ensures Judged(r, AdvanceRead(op, Octet(byte), upgrade).0)
  {
    hide ActiveInv, HandleReply, PushByte, Ruling, Fail, Consequence, Ready, ByReply;
    ActiveHasTransport(r, op);
    AbsorbIsReady(op, byte);
    var (next, progress) := Absorb(op, byte);
    if progress.Complete? {
      AbsorbKeeps(r, op, byte);
      assert JustRead(r, next, progress.reply);
      JustReadPhase(r, next, progress.reply);
      ReplyRules(r, next, progress.reply, upgrade);
      ConsequenceIsRuling(r, next, progress.reply);
    } else if progress.Malformed? {
      FailureIsNoRejection(next, Protocol);
    }
  }

  lemma OtherReadUnjudged(op: Op, answer: ReadPoll, upgrade: UpgradePoll)
    requires Ready(op) && (op.transport.None? || !answer.Octet?)
    ensures Unjudged(op, AdvanceRead(op, answer, upgrade).0)
  {
    hide HandleReply, Absorb;
  }

  lemma StepJudged(r: SendRequest, op: Op, dataBytes: nat, world: World)
    requires ActiveInv(r, op, 0) && Ready(op) && Judged(r, op)
    ensures Judged(r, Advance(op, dataBytes, world).op)
  {
    hide ActiveInv, PollConnect, AdvanceRead, AdvanceSend, AdvanceBody, Fail, Judged, Unjudged, Ready;
    ReadyIsOpen(op);
    var next := Advance(op, dataBytes, world).op;
    if op.phase.Connect? || op.phase.Upgrade? {
      ConnectUnjudged(op, world.connect);
      UnjudgedKeeps(r, op, next);
    } else if Reading(op.phase) {
      if op.transport.Some? && world.read.Octet? {
        ReadJudged(r, op, world.read.byte, world.upgrade);
      } else {
        OtherReadUnjudged(op, world.read, world.upgrade);
        UnjudgedKeeps(r, op, next);
      }
    } else if SendingCommand(op.phase) {
      CommandUnjudged(op, world.send);
      UnjudgedKeeps(r, op, next);
    } else if op.phase.DataBody? {
      BodyUnjudged(op, dataBytes, world.send);
      UnjudgedKeeps(r, op, next);
    } else if next != op {
      FailureIsNoRejection(op, Transport);
      FailureIsNoRejection(op, Protocol);
      UnjudgedKeeps(r, op, next);
    }
  }

  lemma ReadyIsOpen(op: Op)
    requires Ready(op)
    ensures op.outcome.None?
  {
  }

  lemma {:induction false} PollJudged(r: SendRequest, op: Op, dataBytes: nat, worlds: seq<World>)
    requires Inv(r, op) && Judged(r, op)
    ensures Judged(r, PollLoop(r, op, dataBytes, worlds))
    decreases |worlds|
  {
    hide WireInv, ActiveInv, Ended, Judged, Advance, Fail, Unjudged, Ready;
    if worlds != [] && op.outcome.None? {
      if worlds[0].timedOut {
        FailureIsNoRejection(op, Timeout);
        UnjudgedKeeps(r, op, Fail(op, Timeout));
      } else {
        AdvanceKeeps(r, op, dataBytes, worlds[0]);
        StepJudged(r, op, dataBytes, worlds[0]);
        var step := Advance(op, dataBytes, worlds[0]);
        if step.again { PollJudged(r, step.op, step.dataBytes, worlds[1..]); }
      }
    }
  }

  lemma {:induction false} RunJudged(r: SendRequest, op: Op, events: seq<Event>)
    requires Inv(r, op) && Judged(r, op)
    ensures Judged(r, Continue(r, op, events))
    decreases |events|
  {
    hide Inv, PollLoop, Judged, Fail, Unjudged;
    if events != [] {
      match events[0] {
        case Poll(worlds) =>
          PollJudged(r, op, 0, if |worlds| <= MAX_STEPS_PER_POLL then worlds else worlds[..MAX_STEPS_PER_POLL]);
        case Cancel =>
          if op.outcome.None? {
            FailureIsNoRejection(op, Cancelled);
            UnjudgedKeeps(r, op, Fail(op, Cancelled));
          }
      }
      RunJudged(r, Apply(r, op, events[0]), events[1..]);
    }
  }

  /**
   * The replies decide. In every run, if the last complete reply of the server rules how the submission
   * ends, it has ended so: as that rejection at the stage it answers, for want of STARTTLS, for want of
   * recipients, or for a reply out of place. And as long as it does not, the submission has not ended
   * as anything that only a reply can bring about.
   */
  lemma RepliesDecide(r: SendRequest, limit: nat, events: seq<Event>)
    requires Submittable(r, limit)
    ensures var op := Run(r, limit, events);
            match Ruling(r, op.plain.replies, op.tls.replies)
            case Some(delivery) => op.outcome.Some? && op.outcome.value.delivery == delivery
            case None => op.outcome.Some? ==> !ByReply(op.outcome.value.delivery)
  {
    hide Inv, Continue, LastRuling;
    SubmitKeeps(r, limit);
    assert Judged(r, Submit(r, limit)) by { NothingSaid(r); }
    RunJudged(r, Submit(r, limit), events);
  }

  /**
   * So in every run the outcome is `Rejected(stage, reply)` exactly when the last complete reply of
   * the server is that negative one and answers that stage.
   */
  lemma RejectedIffLastReplyRejects(r: SendRequest, limit: nat, events: seq<Event>, stage: Stage, reply: ReplySummary)
    requires Submittable(r, limit)
    ensures var op := Run(r, limit, events);
            (op.outcome.Some? && op.outcome.value.delivery == Rejected(stage, reply))
            <==> Ruling(r, op.plain.replies, op.tls.replies) == Some(Rejected(stage, reply))
  {
    hide Run, Ruling;
    RepliesDecide(r, limit, events);
  }

  lemma NothingSaid(r: SendRequest)
    ensures Ruling(r, [], []).None?
  {
  }
}
