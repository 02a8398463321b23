/**
 * The submission engine of smtp/src/client.rs as a function of its state and of what the outside
 * world answers. The transport, the clock and the server are a `World` per step; the octets that
 * crossed each transport are kept beside the state.
 */
module SmtpEngine {
  import opened Bytes
  import opened DotStuffing
  import opened SmtpReply
  import opened SmtpRequest

  const MAX_STEPS_PER_POLL: nat := 64
  const MAX_DATA_BYTES_PER_POLL: nat := 16 * 1024
  const MAX_STAGING: nat := 2048

  datatype Stage =
    | AtConnect | AtGreeting | AtEhlo | AtStartTls | AtUpgrade | AtMailFrom | AtRcptTo(index: nat)
    | AtDataCommand | AtDataBody | AtDataResult | AtQuit

  datatype FailureReason =
    | Cancelled | Timeout | Transport | Protocol | EngineStopped
    | StartTlsUnavailable | NoAcceptedRecipients | RecipientsRejected

  datatype RecipientStatus =
    | AcceptedForTransaction(reply: ReplySummary)
    | Refused(reply: ReplySummary)
    | Unattempted
    | Unresolved

  datatype RecipientReport = RecipientReport(address: seq<Byte>, status: RecipientStatus)

  datatype Delivery =
    | Accepted(reply: ReplySummary)
    | Rejected(stage: Stage, reply: ReplySummary)
    | NotAccepted(stage: Stage, reason: FailureReason)
    | Uncertain(stage: Stage, reason: FailureReason)

  datatype SendOutcome = SendOutcome(recipients: seq<RecipientReport>, delivery: Delivery)

  datatype Phase =
    | Connect | Greeting | EhloSend | EhloReply | StartTlsSend | StartTlsReply | Upgrade
    | MailSend | MailReply | RcptSend(index: nat) | RcptReply(index: nat)
    | DataSend | DataReply | DataBody | TerminatorSend | DataResult | QuitSend | QuitReply | Finish

  function Public(phase: Phase): (stage: Stage) {
    match phase
    case Connect => AtConnect
    case Greeting => AtGreeting
    case EhloSend | EhloReply => AtEhlo
    case StartTlsSend | StartTlsReply => AtStartTls
    case Upgrade => AtUpgrade
    case MailSend | MailReply => AtMailFrom
    case RcptSend(index) => AtRcptTo(index)
    case RcptReply(index) => AtRcptTo(index)
    case DataSend | DataReply => AtDataCommand
    case DataBody | TerminatorSend => AtDataBody
    case DataResult => AtDataResult
    case QuitSend | QuitReply | Finish => AtQuit
  }

  predicate Reading(phase: Phase) {
    phase.Greeting? || phase.EhloReply? || phase.StartTlsReply? || phase.MailReply? || phase.RcptReply?
    || phase.DataReply? || phase.DataResult? || phase.QuitReply?
  }

  predicate SendingCommand(phase: Phase) {
    phase.EhloSend? || phase.StartTlsSend? || phase.MailSend? || phase.RcptSend? || phase.DataSend?
    || phase.TerminatorSend? || phase.QuitSend?
  }

  datatype Security = Plain | Tls

  /** One transport: octets admitted by it, octets read from it, and the replies they formed. */
  datatype Channel = Channel(sent: seq<Byte>, read: seq<Byte>, replies: seq<Reply>)

  const UNUSED: Channel := Channel([], [], [])

  /** A unit of output being admitted piece by piece; a refused piece comes back whole as `retry`. */
  datatype Outbound = Outbound(bytes: seq<Byte>, offset: nat, retry: Option<seq<Byte>>)

  /** The operation. `data` holds the stuffed octets the encoder has not produced yet. */
  datatype Op = Op(
    request: Option<SendRequest>,
    phase: Phase,
    pending: Option<Security>,
    transport: Option<Security>,
    parser: Parser,
    outbound: Option<Outbound>,
    data: Option<seq<Byte>>,
    reports: seq<RecipientReport>,
    outcome: Option<SendOutcome>,
    accepted: Option<ReplySummary>,
    terminatorAdmitted: bool,
    sendLimit: nat,
    plain: Channel,
    tls: Channel)

  // ---- what the world answers ----

  datatype ErrorKind = TimeoutError | EngineStoppedError | OtherError
  datatype ConnectPoll =
    | StillConnecting | Connected | ConnectFailed(kind: ErrorKind) | ConnectCancelled
    | UnknownCompletion | UnknownWait
  datatype ReadPoll =
    | NoData | Octet(byte: Byte) | OtherCount | Eof | ReadFailed(kind: ErrorKind)
    | ReadCancelled | ReadReset | UnknownRead | UnknownReadError
  datatype SendPoll = Admitted | WouldBlock | ChunkTooLarge | SendEngineStopped | SendCancelled | SendFailed
  datatype UpgradePoll = UpgradeAdmitted | UpgradeRefused(kind: ErrorKind)
  datatype FinishPoll = FinishPending | Finished | FinishFailed

  datatype World = World(
    timedOut: bool, connect: ConnectPoll, read: ReadPoll, send: SendPoll, upgrade: UpgradePoll, finish: FinishPoll)

  function ReasonFromError(kind: ErrorKind): (reason: FailureReason) {
    match kind
    case TimeoutError => Timeout
    case EngineStoppedError => EngineStopped
    case OtherError => Transport
  }

  // ---- commands ----

  function EhloCommand(r: SendRequest): (c: seq<Byte>) { Ascii("EHLO ") + r.ehloName + CRLF }
  function StartTlsCommand(): (c: seq<Byte>) { Ascii("STARTTLS") + CRLF }
  function MailCommand(r: SendRequest): (c: seq<Byte>) { Ascii("MAIL FROM:<") + r.from + Ascii(">") + CRLF }
  function RcptCommand(r: SendRequest, index: nat): (c: seq<Byte>)
    requires index < |r.recipients|
  {
    Ascii("RCPT TO:<") + r.recipients[index] + Ascii(">") + CRLF
  }
  function DataCommand(): (c: seq<Byte>) { Ascii("DATA") + CRLF }
  function QuitCommand(): (c: seq<Byte>) { Ascii("QUIT") + CRLF }

  // ---- state changes ----

  function Submit(r: SendRequest, sendLimit: nat): (op: Op) {
    Op(Some(r), Connect, Some(if r.policy.Implicit? then Tls else Plain), None, INITIAL, None, None,
       seq(|r.recipients|, i requires 0 <= i < |r.recipients| => RecipientReport(r.recipients[i], Unattempted)),
       None, None, false, sendLimit, UNUSED, UNUSED)
  }

  function Terminal(op: Op, delivery: Delivery): (r: Op) {
    if op.outcome.Some? then op
    else op.(pending := None, transport := None, outbound := None, data := None, request := None,
             reports := [], outcome := Some(SendOutcome(op.reports, delivery)))
  }

  function Fail(op: Op, reason: FailureReason): (r: Op) {
    if op.accepted.Some? then Terminal(op.(accepted := None), Accepted(op.accepted.value))
    else if op.terminatorAdmitted then Terminal(op, Uncertain(Public(op.phase), reason))
    else Terminal(op, NotAccepted(Public(op.phase), reason))
  }

  function Reject(op: Op, reply: Reply): (r: Op) {
    Terminal(op, Rejected(Public(op.phase), Summary(reply)))
  }

  function Command(op: Op, phase: Phase, bytes: seq<Byte>): (r: Op) {
    op.(phase := phase, outbound := Some(Outbound(bytes, 0, None)))
  }

  /** Every index, every slice and every `expect` of the source, in one condition on an unfinished operation. */
  ghost predicate Ready(op: Op) {
    && op.outcome.None? && op.request.Some?
    && 0 < |op.request.value.recipients| == |op.reports|
    && (op.phase.RcptSend? || op.phase.RcptReply? ==> op.phase.index < |op.reports|)
    && (op.phase.DataBody? ==> op.data.Some?)
    && (op.outbound.Some? ==> op.outbound.value.offset <= |op.outbound.value.bytes|)
  }

  function Current(op: Op): (c: Channel)
    requires op.transport.Some?
  {
    if op.transport.value.Plain? then op.plain else op.tls
  }

  function WithCurrent(op: Op, c: Channel): (r: Op)
    requires op.transport.Some?
  {
    if op.transport.value.Plain? then op.(plain := c) else op.(tls := c)
  }

  // ---- connecting ----

  function PollConnect(op: Op, answer: ConnectPoll): (r: (Op, bool))
    requires op.request.Some?
  {
    if op.pending.None? then (Fail(op, Protocol), false)
    else match answer
    case StillConnecting => (op, false)
    case UnknownWait => (Fail(op.(pending := None), Protocol), false)
    case UnknownCompletion => (Fail(op.(pending := None), Protocol), true)
    case ConnectCancelled => (Fail(op.(pending := None), Cancelled), true)
    case ConnectFailed(kind) => (Fail(op.(pending := None), ReasonFromError(kind)), true)
    case Connected =>
      var up := op.(pending := None, transport := op.pending);
      if op.pending.value.Tls? && op.phase.Upgrade?
      then (Command(up, EhloSend, EhloCommand(op.request.value)), true)
      else (up.(phase := Greeting), true)
  }

  // ---- sending ----

  datatype SendStep = Blocked | Progressed(count: nat) | Done(count: nat) | Broken(reason: FailureReason)

  /** The piece offered to the transport: the one refused before, or the next within the limit. */
  function Candidate(o: Outbound, limit: nat): (piece: seq<Byte>)
    requires o.offset <= |o.bytes|
  {
    if o.retry.Some? then o.retry.value
    else if o.offset + limit <= |o.bytes| then o.bytes[o.offset..o.offset + limit] else o.bytes[o.offset..]
  }

  /** One offer to an all-or-nothing transport; answers the new outbound, the new limit and what was admitted. */
  function OutboundStep(o: Outbound, limit: nat, answer: SendPoll): (r: (Outbound, nat, seq<Byte>, SendStep))
    requires o.offset <= |o.bytes|
  {
    if o.offset == |o.bytes| then (o, limit, [], Done(0))
    else
      var piece := Candidate(o, limit);
      var untried := o.(retry := None);
      match answer
      case Admitted =>
        var offset := o.offset + |piece|;
        (untried.(offset := offset), limit, piece,
         if offset == |o.bytes| then Done(|piece|) else Progressed(|piece|))
      case WouldBlock => (o.(retry := Some(piece)), limit, [], Blocked)
      case ChunkTooLarge =>
        if limit > 1 then (untried, if limit / 2 > 1 then limit / 2 else 1, [], Progressed(0))
        else (untried, limit, [], Broken(Transport))
      case SendEngineStopped => (untried, limit, [], Broken(EngineStopped))
      case SendCancelled => (untried, limit, [], Broken(Cancelled))
      case SendFailed => (untried, limit, [], Broken(Transport))
  }

  function SendSome(op: Op, answer: SendPoll): (r: (Op, SendStep))
    requires Ready(op)
  {
    if op.outbound.None? || op.transport.None? then (op, Broken(Transport))
    else var (o, limit, admitted, step) := OutboundStep(op.outbound.value, op.sendLimit, answer);
    var c := Current(op);
    (WithCurrent(op, c.(sent := c.sent + admitted)).(outbound := Some(o), sendLimit := limit), step)
  }

  function AfterCommand(op: Op): (r: Op)
    requires Ready(op)
  {
    match op.phase
    case EhloSend => op.(phase := EhloReply)
    case StartTlsSend => op.(phase := StartTlsReply)
    case MailSend => op.(phase := MailReply)
    case RcptSend(index) =>
      op.(phase := RcptReply(index), reports := op.reports[index := op.reports[index].(status := Unresolved)])
    case DataSend => op.(phase := DataReply)
    case TerminatorSend => op.(phase := DataResult, terminatorAdmitted := true)
    case QuitSend => op.(phase := QuitReply)
    case _ => Fail(op, Protocol)
  }

  function AdvanceSend(op: Op, answer: SendPoll): (r: (Op, bool))
    requires Ready(op)
  {
    var (next, step) := SendSome(op, answer);
    match step
    case Blocked => (next, false)
    case Progressed(_) => (next, true)
    case Done(_) => (AfterCommand(next.(outbound := None)), true)
    case Broken(reason) => (Fail(next, reason), false)
  }

  function Min(a: nat, b: nat): (r: nat) { if a < b then a else b }

  /** Stages the next encoded chunk when none is in flight. */
  function StageChunk(op: Op, limit: nat): (r: Op)
    requires op.data.Some?
  {
    if op.outbound.Some? then op
    else
      var count := Min(limit, |op.data.value|);
      op.(outbound := Some(Outbound(op.data.value[..count], 0, None)), data := Some(op.data.value[count..]))
  }

  /** The sending half of a body step, after staging. */
  function SendStaged(op: Op, dataBytes: nat, answer: SendPoll): (r: (Op, nat, bool))
    requires Ready(op)
  {
    var (next, step) := SendSome(op, answer);
    match step
    case Blocked => (next, dataBytes, false)
    case Progressed(count) => (next, dataBytes + count, true)
    case Done(count) => (next.(outbound := None), dataBytes + count, true)
    case Broken(reason) => (Fail(next, reason), dataBytes, false)
  }

  function AdvanceBody(op: Op, dataBytes: nat, answer: SendPoll): (r: (Op, nat, bool))
    requires Ready(op) && op.phase.DataBody?
  {
    if dataBytes >= MAX_DATA_BYTES_PER_POLL then (op, dataBytes, false)
    else if op.outbound.None? && op.data.value == [] then (Command(op, TerminatorSend, TERMINATOR), dataBytes, true)
    else
      SendStaged(StageChunk(op, Min(MAX_STAGING, MAX_DATA_BYTES_PER_POLL - dataBytes)), dataBytes, answer)
  }

  // ---- receiving ----

  predicate Positive(code: nat) { 200 <= code < 300 }
  predicate Intermediate(code: nat) { 300 <= code < 400 }
  predicate Negative(code: nat) { 400 <= code < 600 }

  function StartRcpt(op: Op, index: nat): (r: Op)
    requires op.request.Some? && index < |op.request.value.recipients|
  {
    Command(op, RcptSend(index), RcptCommand(op.request.value, index))
  }

  predicate AnyAccepted(reports: seq<RecipientReport>) {
    exists i :: 0 <= i < |reports| && reports[i].status.AcceptedForTransaction?
  }

  predicate AnyRefused(reports: seq<RecipientReport>) {
    exists i :: 0 <= i < |reports| && reports[i].status.Refused?
  }

  /** After the last RCPT reply: DATA, or the reason there will be none. */
  function AfterRecipients(op: Op): (r: Op)
    requires op.request.Some?
  {
    if !AnyAccepted(op.reports) then Fail(op, NoAcceptedRecipients)
    else if AnyRefused(op.reports) && op.request.value.recipientPolicy.RequireAllRecipients?
    then Fail(op, RecipientsRejected)
    else Command(op, DataSend, DataCommand())
  }

  function HandleRcptReply(op: Op, index: nat, reply: Reply): (r: Op)
    requires Ready(op) && index < |op.reports|
  {
    if !Positive(reply.code) && !Negative(reply.code) then Fail(op, Protocol)
    else
      var status := if Positive(reply.code) then AcceptedForTransaction(Summary(reply)) else Refused(Summary(reply));
      var noted := op.(reports := op.reports[index := op.reports[index].(status := status)]);
      if reply.code == 421 then Reject(noted, reply)
      else if index + 1 < |op.request.value.recipients| then StartRcpt(noted, index + 1)
      else AfterRecipients(noted)
  }

  function HandleEhloReply(op: Op, reply: Reply): (r: Op)
    requires Ready(op)
  {
    if Positive(reply.code) then
      if op.request.value.policy.RequiredStartTls? && op.transport == Some(Plain) then
        if Advertises(reply, Ascii("STARTTLS")) then Command(op, StartTlsSend, StartTlsCommand())
        else Fail(op, StartTlsUnavailable)
      else Command(op, MailSend, MailCommand(op.request.value))
    else if Negative(reply.code) then Reject(op, reply)
    else Fail(op, Protocol)
  }

  function HandleStartTlsReply(op: Op, reply: Reply, upgrade: UpgradePoll): (r: Op)
    requires Ready(op)
  {
    if reply.code == 220 then
      if op.transport != Some(Plain) then Fail(op.(transport := None), Protocol)
      else match upgrade
        case UpgradeAdmitted => op.(transport := None, pending := Some(Tls), phase := Upgrade)
        case UpgradeRefused(kind) => Fail(op.(transport := None), ReasonFromError(kind))
    else if Negative(reply.code) then Reject(op, reply)
    else Fail(op, Protocol)
  }

  function HandleReply(op: Op, reply: Reply, upgrade: UpgradePoll): (r: Op)
    requires Ready(op)
  {
    match op.phase
    case Greeting =>
      if Positive(reply.code) then Command(op, EhloSend, EhloCommand(op.request.value))
      else if Negative(reply.code) then Reject(op, reply) else Fail(op, Protocol)
    case EhloReply => HandleEhloReply(op, reply)
    case StartTlsReply => HandleStartTlsReply(op, reply, upgrade)
    case MailReply =>
      if Positive(reply.code) then StartRcpt(op, 0)
      else if Negative(reply.code) then Reject(op, reply) else Fail(op, Protocol)
    case RcptReply(index) => HandleRcptReply(op, index, reply)
    case DataReply =>
      if Intermediate(reply.code)
      then op.(data := Some(Stuff(Canonical(op.request.value.message), true)), phase := DataBody)
      else if Negative(reply.code) then Reject(op, reply) else Fail(op, Protocol)
    case DataResult =>
      if Positive(reply.code) then Command(op.(accepted := Some(Summary(reply))), QuitSend, QuitCommand())
      else if Negative(reply.code) then Reject(op, reply) else Fail(op, Protocol)
    case QuitReply =>
      if Positive(reply.code) && op.accepted.Some? then op.(phase := Finish) else Fail(op, Protocol)
    case _ => Fail(op, Protocol)
  }

  /** An octet read from the current transport, and the parser's view of it. */
  function Absorb(op: Op, byte: Byte): (r: (Op, Progress))
    requires op.transport.Some?
  {
    var (parser, progress) := PushByte(op.parser, byte);
    var c := Current(op);
    var replies := if progress.Complete? then c.replies + [progress.reply] else c.replies;
    (WithCurrent(op, c.(read := c.read + [byte], replies := replies)).(parser := parser), progress)
  }

  function AdvanceRead(op: Op, answer: ReadPoll, upgrade: UpgradePoll): (r: (Op, bool))
    requires Ready(op)
  {
    if op.transport.None? then (Fail(op, Transport), false)
    else match answer
    case NoData => (op, false)
    case Octet(byte) =>
      var (next, progress) := Absorb(op, byte);
      (match progress
       case More => (next, true)
       case Complete(reply) => (HandleReply(next, reply, upgrade), true)
       case Malformed => (Fail(next, Protocol), false))
    case OtherCount => (Fail(op, Transport), false)
    case Eof => (Fail(op, Transport), false)
    case ReadFailed(kind) => (Fail(op, ReasonFromError(kind)), false)
    case ReadCancelled => (Fail(op, Cancelled), false)
    case ReadReset => (Fail(op, Transport), false)
    case UnknownRead => (Fail(op, Protocol), false)
    case UnknownReadError => (Fail(op, Transport), false)
  }

  // ---- the step and the poll ----

  datatype Advanced = Advanced(op: Op, dataBytes: nat, again: bool)

  function Advance(op: Op, dataBytes: nat, world: World): (r: Advanced)
    requires Ready(op)
  {
    if op.phase.Connect? || op.phase.Upgrade? then
      var (next, again) := PollConnect(op, world.connect);
      Advanced(next, dataBytes, again)
    else if Reading(op.phase) then
      var (next, again) := AdvanceRead(op, world.read, world.upgrade);
      Advanced(next, dataBytes, again)
    else if SendingCommand(op.phase) then
      var (next, again) := AdvanceSend(op, world.send);
      Advanced(next, dataBytes, again)
    else if op.phase.DataBody? then
      var (next, count, again) := AdvanceBody(op, dataBytes, world.send);
      Advanced(next, count, again)
    else if op.transport.None? then Advanced(Fail(op, Transport), dataBytes, false)
    else
      match world.finish
      case FinishPending => Advanced(op, dataBytes, false)
      case Finished => Advanced(Fail(op, Protocol), dataBytes, true)
      case FinishFailed => Advanced(Fail(op, Transport), dataBytes, false)
  }
}
