/** What an SMTP submission may put on the wire, and when: the transcript and the state invariant. */
module SmtpWire {
  import opened Bytes
  import opened DotStuffing
  import opened SmtpReply
  import opened SmtpRequest
  import opened SmtpEngine

  // ---- the canonical transcript ----

  function PlainScript(r: SendRequest): (units: seq<seq<Byte>>) { [EhloCommand(r), StartTlsCommand()] }

  /** EHLO, MAIL, every RCPT in order, DATA, the stuffed message, the terminator, QUIT. */
  function TlsScript(r: SendRequest): (units: seq<seq<Byte>>)
    ensures |units| == |r.recipients| + 6
    ensures units[0] == EhloCommand(r) && units[1] == MailCommand(r)
    ensures forall i :: 0 <= i < |r.recipients| ==> units[2 + i] == RcptCommand(r, i)
    ensures var n := |r.recipients|;
            && units[n + 2] == DataCommand() && units[n + 3] == Stuff(Canonical(r.message), true)
            && units[n + 4] == TERMINATOR && units[n + 5] == QuitCommand()
  {
    [EhloCommand(r), MailCommand(r)]
    + seq(|r.recipients|, i requires 0 <= i < |r.recipients| => RcptCommand(r, i))
    + [DataCommand(), Stuff(Canonical(r.message), true), TERMINATOR, QuitCommand()]
  }

  function Script(r: SendRequest, security: Security): (units: seq<seq<Byte>>) {
    if security.Plain? then PlainScript(r) else TlsScript(r)
  }

  /** The octets of the first `k` units. */
  function UpTo(units: seq<seq<Byte>>, k: nat): (octets: seq<Byte>)
    requires k <= |units|
  {
    if k == 0 then [] else UpTo(units, k - 1) + units[k - 1]
  }

  /** Replies that must be complete before the first octet of unit `u`, beyond a greeting. */
  function RepliesBefore(r: SendRequest, security: Security, u: nat): (n: nat) {
    if security.Tls? && u > |r.recipients| + 3 then u - 1 else u
  }

  /** The connection that was upgraded has no second greeting. */
  function Greetings(r: SendRequest, security: Security): (n: nat) {
    if security.Tls? && r.policy.RequiredStartTls? then 0 else 1
  }

  // ---- where an unfinished operation stands ----

  /** Whole units admitted on the current transport. */
  function UnitsSent(r: SendRequest, phase: Phase): (k: nat) {
    var n := |r.recipients|;
    match phase
    case Connect | Upgrade | Greeting | EhloSend => 0
    case EhloReply | StartTlsSend | MailSend => 1
    case StartTlsReply | MailReply => 2
    case RcptSend(index) => 2 + index
    case RcptReply(index) => 3 + index
    case DataSend => n + 2
    case DataReply | DataBody => n + 3
    case TerminatorSend => n + 4
    case DataResult | QuitSend => n + 5
    case QuitReply | Finish => n + 6
  }

  /** Replies read since the greeting, which counts as the first where there is one. */
  function RepliesSeen(r: SendRequest, phase: Phase): (k: int) {
    var n := |r.recipients|;
    match phase
    case Connect | Upgrade => 0
    case Greeting => -1
    case EhloSend | EhloReply => 0
    case StartTlsSend | StartTlsReply | MailSend | MailReply => 1
    case RcptSend(index) => 2 + index
    case RcptReply(index) => 2 + index
    case DataSend | DataReply => n + 2
    case DataBody | TerminatorSend | DataResult => n + 3
    case QuitSend | QuitReply => n + 4
    case Finish => n + 5
  }

  predicate Closing(phase: Phase) { phase.QuitSend? || phase.QuitReply? || phase.Finish? }

  predicate InTransaction(phase: Phase) {
    phase.MailSend? || phase.MailReply? || phase.RcptSend? || phase.RcptReply? || phase.DataSend?
    || phase.DataReply? || phase.DataBody? || phase.TerminatorSend? || phase.DataResult? || Closing(phase)
  }

  ghost predicate OutboundOk(o: Outbound) {
    && o.offset < |o.bytes|
    && (o.retry.Some? ==> o.retry.value != [] && o.offset + |o.retry.value| <= |o.bytes|
                          && o.retry.value == o.bytes[o.offset..o.offset + |o.retry.value|])
  }

  function FirstSecurity(r: SendRequest): (s: Security) { if r.policy.Implicit? then Tls else Plain }

  /** Which transport a phase runs on, and what else the operation holds in it. */
  ghost predicate ControlInv(r: SendRequest, op: Op) {
    && op.outcome.None? && op.request == Some(r) && op.sendLimit > 0
    && (op.phase.RcptSend? || op.phase.RcptReply? ==> op.phase.index < |r.recipients|)
    && (op.phase.Connect? ==> op.pending == Some(FirstSecurity(r)) && op.transport.None?)
    && (op.phase.Upgrade? ==> op.pending == Some(Tls) && op.transport.None? && r.policy.RequiredStartTls?)
    && (!op.phase.Connect? && !op.phase.Upgrade? ==> op.pending.None? && op.transport.Some?)
    && (op.phase.Greeting? ==> op.transport == Some(FirstSecurity(r)))
    && (op.phase.StartTlsSend? || op.phase.StartTlsReply? ==> op.transport == Some(Plain))
    && (InTransaction(op.phase) ==> op.transport == Some(Tls))
    && (op.transport == Some(Plain) ==> r.policy.RequiredStartTls?)
    && (!Reading(op.phase) ==> op.parser == INITIAL)
    && (op.outbound.Some? ==> OutboundOk(op.outbound.value))
    && (SendingCommand(op.phase) ==> op.outbound.Some?)
    && (op.outbound.Some? ==> SendingCommand(op.phase) || op.phase.DataBody?)
    && (op.phase.DataBody? ==> op.data.Some?)
    && (op.accepted.Some? <==> Closing(op.phase))
    && (op.terminatorAdmitted <==> op.phase.DataResult? || Closing(op.phase))
  }

  /** Stuffed octets that are neither admitted nor lost: in flight, then not yet encoded. */
  function BodyLeft(op: Op): (left: seq<Byte>) {
    (if op.outbound.Some? && op.outbound.value.offset <= |op.outbound.value.bytes|
     then op.outbound.value.bytes[op.outbound.value.offset..] else [])
    + (if op.data.Some? then op.data.value else [])
  }

  /** The admitted part `partial` of the unit being sent. */
  ghost predicate PartialUnit(r: SendRequest, op: Op, partial: seq<Byte>)
    requires op.transport.Some?
  {
    var units, k := Script(r, op.transport.value), UnitsSent(r, op.phase);
    if SendingCommand(op.phase) then
      && op.outbound.Some? && op.outbound.value.offset <= |op.outbound.value.bytes|
      && k < |units| && op.outbound.value.bytes == units[k]
      && partial == op.outbound.value.bytes[..op.outbound.value.offset]
    else if op.phase.DataBody? then
      k < |units| && partial + BodyLeft(op) == units[k]
    else partial == []
  }

  /** The log of the current transport: whole units, then the admitted part of the next. */
  ghost predicate SentInv(r: SendRequest, op: Op)
    requires op.transport.Some?
  {
    var units, k := Script(r, op.transport.value), UnitsSent(r, op.phase);
    k <= |units| && exists partial :: PartialUnit(r, op, partial) && Current(op).sent == UpTo(units, k) + partial
  }

  ghost predicate CurrentInv(r: SendRequest, op: Op, extra: nat) {
    op.transport.Some? ==>
      && SentInv(r, op)
      && |Current(op).replies| == Greetings(r, op.transport.value) + RepliesSeen(r, op.phase) + extra
      && Feed(INITIAL, Current(op).read) == Fed(op.parser, Current(op).replies, true)
  }

  /** The transport that is not in use: untouched before its time, complete after it. */
  ghost predicate OtherInv(r: SendRequest, op: Op) {
    && (r.policy.Implicit? ==> op.plain == UNUSED)
    && (op.phase.Connect? ==> op.plain == UNUSED)
    && (op.transport != Some(Tls) ==> op.tls == UNUSED)
    && (r.policy.RequiredStartTls? && (op.phase.Upgrade? || op.transport == Some(Tls)) ==>
          && op.plain.sent == UpTo(PlainScript(r), 2) && |op.plain.replies| == 3
          && op.plain.replies[2].code == 220)
    && op.plain.replies == Feed(INITIAL, op.plain.read).replies
  }

  // ---- recipients ----

  /** What the reply to one RCPT says about its recipient. */
  predicate Resolves(status: RecipientStatus, reply: Reply) {
    || (Positive(reply.code) && status == AcceptedForTransaction(Summary(reply)))
    || (Negative(reply.code) && status == Refused(Summary(reply)))
  }

  /** The position among TLS replies of the answer to RCPT `i`. */
  function RcptReplyIndex(r: SendRequest, i: nat): (k: nat) { Greetings(r, Tls) + 2 + i }

  /**
   * The first `resolved` recipients carry the server's own answers, at most one more is
   * unresolved, and the rest were not attempted; addresses keep the order of the request.
   */
  ghost predicate ReportShape(
    r: SendRequest, reports: seq<RecipientReport>, replies: seq<Reply>, resolved: nat, unresolved: bool)
  {
    && |reports| == |r.recipients|
    && resolved + (if unresolved then 1 else 0) <= |r.recipients|
    && (forall i :: 0 <= i < |reports| ==> reports[i].address == r.recipients[i])
    && (forall i :: 0 <= i < resolved ==>
          RcptReplyIndex(r, i) < |replies| && Resolves(reports[i].status, replies[RcptReplyIndex(r, i)]))
    && (unresolved ==> reports[resolved].status.Unresolved?)
    && (forall i :: resolved + (if unresolved then 1 else 0) <= i < |reports| ==> reports[i].status.Unattempted?)
  }

  function Resolved(r: SendRequest, phase: Phase): (k: nat) {
    match phase
    case RcptSend(index) => index
    case RcptReply(index) => index
    case DataSend | DataReply | DataBody | TerminatorSend | DataResult | QuitSend | QuitReply | Finish => |r.recipients|
    case _ => 0
  }

  /** The recipients for which DATA may be sent under the request's policy. */
  ghost predicate MaySendData(r: SendRequest, reports: seq<RecipientReport>) {
    && AnyAccepted(reports)
    && (r.recipientPolicy.RequireAllRecipients? ==>
          forall i :: 0 <= i < |reports| ==> reports[i].status.AcceptedForTransaction?)
  }

  predicate AfterDataDecision(phase: Phase) {
    phase.DataSend? || phase.DataReply? || phase.DataBody? || phase.TerminatorSend? || phase.DataResult? || Closing(phase)
  }

  ghost predicate ReportInv(r: SendRequest, op: Op) {
    && 0 < |r.recipients|
    && Resolved(r, op.phase) <= |r.recipients|
    && ReportShape(r, op.reports, op.tls.replies, Resolved(r, op.phase), op.phase.RcptReply?)
    && (AfterDataDecision(op.phase) ==> MaySendData(r, op.reports))
  }

  /** The final answer is the reply that followed the terminator. */
  function FinalReplyIndex(r: SendRequest): (k: nat) { Greetings(r, Tls) + |r.recipients| + 3 }

  ghost predicate AcceptInv(r: SendRequest, op: Op) {
    op.accepted.Some? ==>
      && FinalReplyIndex(r) < |op.tls.replies|
      && Positive(op.tls.replies[FinalReplyIndex(r)].code)
      && op.accepted.value == Summary(op.tls.replies[FinalReplyIndex(r)])
  }

  /** An unfinished operation, `extra` replies (0 or 1) ahead of its phase. */
  ghost predicate ActiveInv(r: SendRequest, op: Op, extra: nat) {
    && ControlInv(r, op) && CurrentInv(r, op, extra) && OtherInv(r, op)
    && ReportInv(r, op) && AcceptInv(r, op)
    && (extra > 0 ==> op.parser == INITIAL)
  }

  // ---- what holds in every state, finished or not ----

  /** Octets are a prefix of the transcript, and no unit starts before the replies it waits for. */
  ghost predicate InStep(r: SendRequest, security: Security, c: Channel) {
    var units := Script(r, security);
    && c.sent <= UpTo(units, |units|)
    && (forall u :: 0 <= u < |units| && |c.sent| > |UpTo(units, u)| ==>
          |c.replies| >= Greetings(r, security) + RepliesBefore(r, security, u))
    && c.replies == Feed(INITIAL, c.read).replies
  }

  /** STARTTLS: nothing on TLS before the plain dialogue ended with 220; no plain octets under implicit TLS. */
  ghost predicate Gate(r: SendRequest, plain: Channel, tls: Channel) {
    && (r.policy.Implicit? ==> plain == UNUSED)
    && (r.policy.RequiredStartTls? && tls != UNUSED ==>
          plain.sent == UpTo(PlainScript(r), 2) && |plain.replies| == 3 && plain.replies[2].code == 220)
  }

  ghost predicate WireInv(r: SendRequest, op: Op) {
    InStep(r, Plain, op.plain) && InStep(r, Tls, op.tls) && Gate(r, op.plain, op.tls)
  }

  /** DATA was begun only for an admissible set of recipients. */
  ghost predicate DataJustified(r: SendRequest, tls: Channel, reports: seq<RecipientReport>) {
    |tls.sent| > |UpTo(TlsScript(r), |r.recipients| + 2)| ==> MaySendData(r, reports)
  }

  /** The outcome tells the truth about the log and the replies. */
  ghost predicate Honest(r: SendRequest, op: Op, outcome: SendOutcome) {
    var n, final := |r.recipients|, FinalReplyIndex(r);
    var dataSent := UpTo(TlsScript(r), n + 5) <= op.tls.sent;
    && DataJustified(r, op.tls, outcome.recipients)
    && match outcome.delivery
       case Accepted(reply) =>
         dataSent && final < |op.tls.replies| && Positive(op.tls.replies[final].code)
         && reply == Summary(op.tls.replies[final])
       case Uncertain(stage, _) =>
         dataSent && stage == AtDataResult
         && (|op.tls.replies| == final
             || (|op.tls.replies| == final + 1
                 && !Positive(op.tls.replies[final].code) && !Negative(op.tls.replies[final].code)))
       case NotAccepted(_, _) => !dataSent
       case Rejected(_, reply) =>
         && Negative(reply.code)
         && (|| (|op.tls.replies| > 0 && reply == Summary(op.tls.replies[|op.tls.replies| - 1]))
             || (op.tls == UNUSED && |op.plain.replies| > 0 && reply == Summary(op.plain.replies[|op.plain.replies| - 1])))
         && (dataSent ==> |op.tls.replies| == final + 1)
  }

  /** An operation that has its outcome has let go of request, transports and everything in flight. */
  predicate LetGo(op: Op) {
    && op.request.None? && op.pending.None? && op.transport.None? && op.outbound.None? && op.data.None?
    && op.reports == [] && op.accepted.None?
  }

  ghost predicate Ended(r: SendRequest, op: Op) {
    && op.outcome.Some? && LetGo(op)
    && Honest(r, op, op.outcome.value)
    && exists resolved: nat, unresolved ::
         ReportShape(r, op.outcome.value.recipients, op.tls.replies, resolved, unresolved)
  }

  /** The invariant of every reachable state. */
  ghost predicate Inv(r: SendRequest, op: Op) {
    && WireInv(r, op)
    && (op.outcome.None? ==> ActiveInv(r, op, 0))
    && (op.outcome.Some? ==> Ended(r, op))
  }
}
