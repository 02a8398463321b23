/** Every step that asks to go on has made progress, so polls that are never told to wait reach an outcome. */
module SmtpProgress {
  import opened Bytes
  import opened SmtpReply
  import opened SmtpRequest
  import opened SmtpEngine
  import opened SmtpWire
  import opened SmtpProof
  import opened SmtpRuns

  /** Phases still ahead. The EHLO after an upgrade is not the EHLO before it. */
  function PhasesLeft(r: SendRequest, op: Op): (k: nat)
    requires op.phase.RcptSend? || op.phase.RcptReply? ==> op.phase.index < |r.recipients|
  {
    var n, again := |r.recipients|, if op.transport == Some(Tls) then 0 else 5;
    match op.phase
    case Finish => 0
    case QuitReply => 1
    case QuitSend => 2
    case DataResult => 3
    case TerminatorSend => 4
    case DataBody => 5
    case DataReply => 6
    case DataSend => 7
    case RcptReply(index) => 6 + 2 * (n - index)
    case RcptSend(index) => 7 + 2 * (n - index)
    case MailReply => 8 + 2 * n
    case MailSend => 9 + 2 * n
    case EhloReply => 10 + 2 * n + again
    case EhloSend => 11 + 2 * n + again
    case Upgrade => 12 + 2 * n
    case StartTlsReply => 13 + 2 * n
    case StartTlsSend => 14 + 2 * n
    case Greeting => 17 + 2 * n
    case Connect => 18 + 2 * n
  }

  /** Octets left in the phase: of the unit being sent, or of the largest reply still possible. */
  function OctetsLeft(op: Op): (k: nat) {
    if Reading(op.phase) then if op.parser.total <= MAX_TOTAL then MAX_TOTAL - op.parser.total else 0
    else if op.phase.DataBody? then |BodyLeft(op)|
    else if op.outbound.Some? && op.outbound.value.offset <= |op.outbound.value.bytes|
    then |op.outbound.value.bytes| - op.outbound.value.offset
    else 0
  }

  ghost predicate Indexed(r: SendRequest, op: Op) {
    op.phase.RcptSend? || op.phase.RcptReply? ==> op.phase.index < |r.recipients|
  }

  /** An outcome, or a later phase. */
  ghost predicate Moves(r: SendRequest, op: Op, next: Op)
    requires Indexed(r, op)
  {
    next.outcome.None? ==> Indexed(r, next) && PhasesLeft(r, next) < PhasesLeft(r, op)
  }

  /** Otherwise fewer octets left in the phase, or as many under a smaller send limit. */
  ghost predicate Goes(r: SendRequest, op: Op, next: Op)
    requires Indexed(r, op)
  {
    || Moves(r, op, next)
    || (&& Indexed(r, next) && PhasesLeft(r, next) == PhasesLeft(r, op)
        && (OctetsLeft(next) < OctetsLeft(op) || (OctetsLeft(next) == OctetsLeft(op) && next.sendLimit < op.sendLimit)))
  }

  lemma FailingMoves(r: SendRequest, op: Op)
    requires Indexed(r, op)
    ensures forall o: Op, reason: FailureReason :: Moves(r, op, Fail(o, reason))
    ensures forall o: Op, reply: Reply :: Moves(r, op, Reject(o, reply))
  {
    hide PhasesLeft;
  }

  lemma ConnectMoves(r: SendRequest, op: Op, answer: ConnectPoll)
    requires ControlInv(r, op) && (op.phase.Connect? || op.phase.Upgrade?) && PollConnect(op, answer).1
    ensures Moves(r, op, PollConnect(op, answer).0)
  {
    hide Fail, OctetsLeft, EhloCommand;
    FailingMoves(r, op);
  }

  lemma RcptAnswerMoves(r: SendRequest, op: Op, reply: Reply)
    requires ControlInv(r, op) && Ready(op) && op.phase.RcptReply?
    ensures Moves(r, op, HandleRcptReply(op, op.phase.index, reply))
  {
    hide Fail, Reject, OctetsLeft, RcptCommand, Summary, AnyAccepted, AnyRefused;
    FailingMoves(r, op);
  }

  lemma AnswerMoves(r: SendRequest, op: Op, reply: Reply, upgrade: UpgradePoll)
    requires ControlInv(r, op) && Ready(op) && Reading(op.phase)
    ensures Moves(r, op, HandleReply(op, reply, upgrade))
  {
    hide Fail, Reject, OctetsLeft, EhloCommand, MailCommand, RcptCommand, Summary, Advertises, HandleRcptReply;
    FailingMoves(r, op);
    if op.phase.RcptReply? { RcptAnswerMoves(r, op, reply); }
  }

  /** Reading an octet leaves the phase and its measure of phases alone. */
  lemma AbsorbStays(r: SendRequest, op: Op, byte: Byte)
    requires ControlInv(r, op) && Ready(op) && Reading(op.phase) && op.transport.Some?
    ensures var (next, progress) := Absorb(op, byte);
            && ControlInv(r, next) && Ready(next) && Indexed(r, next)
            && next.phase == op.phase && next.transport == op.transport && next.sendLimit == op.sendLimit
            && PhasesLeft(r, next) == PhasesLeft(r, op)
            && (progress.More? ==> OctetsLeft(next) < OctetsLeft(op))
  {
    hide EndLine, OutboundOk, PhasesLeft;
    SamePhasesLeft(r, op, Absorb(op, byte).0);
    MoreCounts(op.parser, byte);
  }

  lemma SamePhasesLeft(r: SendRequest, a: Op, b: Op)
    requires Indexed(r, a) && a.phase == b.phase && a.transport == b.transport
    ensures Indexed(r, b) && PhasesLeft(r, b) == PhasesLeft(r, a)
  {
  }

  lemma MoreCounts(p: Parser, byte: Byte)
    ensures PushByte(p, byte).1.More? ==> PushByte(p, byte).0.total == p.total + 1 <= MAX_TOTAL
  {
  }

  lemma ReadGoes(r: SendRequest, op: Op, answer: ReadPoll, upgrade: UpgradePoll)
    requires ControlInv(r, op) && Ready(op) && Reading(op.phase) && AdvanceRead(op, answer, upgrade).1
    ensures Goes(r, op, AdvanceRead(op, answer, upgrade).0)
  {
    hide Fail, HandleReply, PhasesLeft, OctetsLeft, ControlInv, Ready, Absorb;
    HasTransport(r, op);
    FailingMoves(r, op);
    var (next, progress) := Absorb(op, answer.byte);
    AbsorbStays(r, op, answer.byte);
    if progress.Complete? { AnswerMoves(r, next, progress.reply, upgrade); }
  }

  lemma HasTransport(r: SendRequest, op: Op)
    requires ControlInv(r, op)
    ensures Reading(op.phase) ==> op.transport.Some?
    ensures Indexed(r, op)
  {
  }

  lemma AfterCommandMoves(r: SendRequest, op: Op)
    requires Ready(op) && Indexed(r, op) && SendingCommand(op.phase)
    requires op.phase.StartTlsSend? ==> op.transport == Some(Plain)
    ensures Moves(r, op, AfterCommand(op))
  {
  }

  /** One offer: the phase stays, and octets or the limit go down when it says so. */
  lemma OfferGoes(r: SendRequest, op: Op, answer: SendPoll)
    requires Ready(op) && Indexed(r, op) && op.outbound.Some? && OutboundOk(op.outbound.value)
    requires op.sendLimit > 0 && op.transport.Some? && !Reading(op.phase)
    ensures var (next, step) := SendSome(op, answer);
            && next.phase == op.phase && next.transport == op.transport && next.outcome.None?
            && (step.Progressed? ==> Goes(r, op, next))
            && (step.Done? ==> OctetsLeft(next.(outbound := None)) < OctetsLeft(op))
  {
    hide OutboundStep, OutboundOk, PhasesLeft;
    OutboundKeeps(op.outbound.value, op.sendLimit, answer);
    var (next, step) := SendSome(op, answer);
    SamePhasesLeft(r, op, next);
  }

  lemma CommandGoes(r: SendRequest, op: Op, answer: SendPoll)
    requires SendingUnit(r, op) && Ready(op) && AdvanceSend(op, answer).1
    ensures Indexed(r, op) && Goes(r, op, AdvanceSend(op, answer).0)
  {
    hide ActiveInv, SendSome, Fail, OutboundOk, PhasesLeft, AfterCommand, OctetsLeft;
    SendingFacts(r, op);
    SendingPhase(r, op);
    OfferGoes(r, op, answer);
    var (next, step) := SendSome(op, answer);
    if step.Done? {
      SendKeepsReady(op, answer);
      var done := next.(outbound := None);
      SamePhasesLeft(r, op, done);
      AfterCommandMoves(r, done);
    }
  }

  lemma SendingPhase(r: SendRequest, op: Op)
    requires SendingUnit(r, op)
    ensures Indexed(r, op) && (op.phase.StartTlsSend? ==> op.transport == Some(Plain))
    ensures !Reading(op.phase)
  {
    hide CurrentInv, OtherInv, ReportInv;
  }

  lemma BodyGoes(r: SendRequest, op: Op, dataBytes: nat, answer: SendPoll)
    requires InBody(r, op) && Ready(op) && op.phase.DataBody? && AdvanceBody(op, dataBytes, answer).2
    ensures Indexed(r, op) && Goes(r, op, AdvanceBody(op, dataBytes, answer).0)
  {
    hide InBody, SendSome, StageChunk, Fail, OutboundOk, OctetsLeft;
    var _ := BodyFacts(r, op);
    if !(op.outbound.None? && op.data.value == []) {
      var limit := Min(MAX_STAGING, MAX_DATA_BYTES_PER_POLL - dataBytes);
      StagedKeeps(r, op, limit);
      var staged := StageChunk(op, limit);
      StagingIsNeutral(op, limit);
      var _ := BodyFacts(r, staged);
      OfferGoes(r, staged, answer);
    }
  }

  /** Staging moves octets from the encoder to the transport and loses none. */
  lemma StagingIsNeutral(op: Op, limit: nat)
    requires op.phase.DataBody? && op.data.Some?
    ensures var staged := StageChunk(op, limit);
            && staged.phase == op.phase && staged.transport == op.transport && staged.sendLimit == op.sendLimit
            && OctetsLeft(staged) == OctetsLeft(op)
  {
  }

  /** The answers that mean "try again later". */
  predicate Waits(world: World) {
    world.connect.StillConnecting? || world.read.NoData? || world.send.WouldBlock? || world.finish.FinishPending?
  }

  /** A step that asks to go on has made progress, however much of the poll's byte allowance is used up. */
  lemma StepGoes(r: SendRequest, op: Op, dataBytes: nat, world: World)
    requires ActiveInv(r, op, 0) && Ready(op)
    ensures Indexed(r, op)
    ensures Advance(op, dataBytes, world).again ==> Goes(r, op, Advance(op, dataBytes, world).op)
  {
    hide ActiveInv, PollConnect, AdvanceRead, AdvanceSend, AdvanceBody, Ready, OctetsLeft, PhasesLeft, Fail;
    ActiveControl(r, op);
    FailingMoves(r, op);
    if Advance(op, dataBytes, world).again {
      if op.phase.Connect? || op.phase.Upgrade? {
        ConnectMoves(r, op, world.connect);
      } else if Reading(op.phase) {
        ReadGoes(r, op, world.read, world.upgrade);
      } else if SendingCommand(op.phase) {
        CommandGoes(r, op, world.send);
      } else if op.phase.DataBody? {
        BodyGoes(r, op, dataBytes, world.send);
      }
    }
  }

  lemma ActiveControl(r: SendRequest, op: Op)
    requires ActiveInv(r, op, 0)
    ensures ControlInv(r, op) && Indexed(r, op)
  {
    hide CurrentInv, OtherInv, ReportInv;
  }

  lemma StoppingIsFinal(op: Op, reason: FailureReason)
    ensures Fail(op, reason).outcome.Some?
  {
  }

  lemma OfferStops(op: Op, answer: SendPoll)
    requires Ready(op) && !answer.WouldBlock?
    ensures !SendSome(op, answer).1.Blocked?
  {
  }

  lemma StageKeepsReady(op: Op, limit: nat)
    requires Ready(op) && op.data.Some?
    ensures Ready(StageChunk(op, limit))
  {
  }

  /** A step that stops without being told to wait has an outcome, or the poll has used up its byte allowance. */
  lemma StopMeansOutcome(op: Op, dataBytes: nat, world: World)
    requires Ready(op) && !Waits(world)
    ensures var step := Advance(op, dataBytes, world);
            !step.again ==> step.op.outcome.Some? || (step.op == op && dataBytes >= MAX_DATA_BYTES_PER_POLL)
  {
    hide SendSome, AfterCommand, HandleReply, Fail, PushByte, StageChunk;
    assert forall o: Op, reason: FailureReason :: Fail(o, reason).outcome.Some? by {
      forall o: Op, reason: FailureReason ensures Fail(o, reason).outcome.Some? { StoppingIsFinal(o, reason); }
    }
    OfferStops(op, world.send);
    if op.phase.DataBody? && dataBytes < MAX_DATA_BYTES_PER_POLL {
      var limit := Min(MAX_STAGING, MAX_DATA_BYTES_PER_POLL - dataBytes);
      StageKeepsReady(op, limit);
      OfferStops(StageChunk(op, limit), world.send);
    }
  }

  // ---- how many polls ----

  /** More octets than any phase has to send or to read. */
  function Size(r: SendRequest): (n: nat) {
    MAX_TOTAL + |UpTo(PlainScript(r), 2)| + |UpTo(TlsScript(r), |r.recipients| + 6)|
  }

  lemma UnitFits(units: seq<seq<Byte>>, k: nat)
    requires k < |units|
    ensures |units[k]| <= |UpTo(units, |units|)|
  {
    hide UpTo;
    UpToNext(units, k);
    UpToGrows(units, k + 1, |units|);
  }

  lemma OctetsFit(r: SendRequest, op: Op)
    requires ActiveInv(r, op, 0)
    ensures OctetsLeft(op) <= Size(r)
  {
    hide ActiveInv, TlsScript, PlainScript, UpTo;
    assert |PlainScript(r)| == 2 by { PlainUnits(r); }
    if SendingCommand(op.phase) {
      SendingFacts(r, op);
      UnitFits(Script(r, op.transport.value), UnitsSent(r, op.phase));
    } else if op.phase.DataBody? {
      var partial := BodyFacts(r, op);
      UnitFits(TlsScript(r), |r.recipients| + 3);
    } else {
      IdleHasNothing(r, op);
    }
  }

  lemma PlainUnits(r: SendRequest)
    ensures |PlainScript(r)| == 2
  {
  }

  lemma IdleHasNothing(r: SendRequest, op: Op)
    requires ActiveInv(r, op, 0) && !SendingCommand(op.phase) && !op.phase.DataBody?
    ensures op.outbound.None?
  {
    hide CurrentInv, OtherInv, ReportInv, AcceptInv;
  }

  function Weight(r: SendRequest, limit: nat): (n: nat) { (Size(r) + 1) * (limit + 1) }

  /** Phases, then octets, then the send limit, in one number. */
  function Rank(phases: nat, octets: nat, sendLimit: nat, weight: nat, limit: nat): (n: nat) {
    phases * weight + octets * (limit + 1) + sendLimit
  }

  function Measure(r: SendRequest, limit: nat, op: Op): (n: nat)
    requires Indexed(r, op)
  {
    Rank(PhasesLeft(r, op), OctetsLeft(op), op.sendLimit, Weight(r, limit), limit)
  }

  lemma Carries(p: nat, q: nat, o: nat, u: nat, s: nat, t: nat, size: nat, limit: nat)
    requires u <= size && t <= limit
    requires q < p || (q == p && u < o) || (q == p && u == o && t < s)
    ensures Rank(q, u, t, (size + 1) * (limit + 1), limit) < Rank(p, o, s, (size + 1) * (limit + 1), limit)
  {
    var weight := (size + 1) * (limit + 1);
    if q < p {
      Times(q + 1, p, weight);
      Times(u, size, limit + 1);
      assert weight == size * (limit + 1) + (limit + 1);
      assert (q + 1) * weight == q * weight + weight;
    } else if u < o {
      Times(u + 1, o, limit + 1);
      assert (u + 1) * (limit + 1) == u * (limit + 1) + (limit + 1);
    }
  }

  lemma Times(a: nat, b: nat, c: nat)
    requires a <= b
    ensures a * c <= b * c
  {
  }

  // ---- the send limit ----

  /** The send limit stays, or is halved by a transport that finds the piece too large. */
  predicate Shrinks(op: Op, next: Op, answer: SendPoll) {
    || next.sendLimit == op.sendLimit
    || (&& answer.ChunkTooLarge? && op.sendLimit > 1
        && next.sendLimit == if op.sendLimit / 2 > 1 then op.sendLimit / 2 else 1)
  }

  lemma EndingKeepsLimit()
    ensures forall op: Op, reason: FailureReason :: Fail(op, reason).sendLimit == op.sendLimit
    ensures forall op: Op, reply: Reply :: Reject(op, reply).sendLimit == op.sendLimit
  {
    hide Summary;
  }

  lemma RcptAnswerKeepsLimit(op: Op, reply: Reply)
    requires Ready(op) && op.phase.RcptReply?
    ensures HandleRcptReply(op, op.phase.index, reply).sendLimit == op.sendLimit
  {
    hide Fail, Reject, Summary, RcptCommand, AnyAccepted, AnyRefused;
    EndingKeepsLimit();
  }

  lemma AnswerKeepsLimit(op: Op, reply: Reply, upgrade: UpgradePoll)
    requires Ready(op)
    ensures HandleReply(op, reply, upgrade).sendLimit == op.sendLimit
  {
    hide Fail, Reject, Summary, HandleRcptReply, Advertises, EhloCommand, MailCommand, RcptCommand;
    EndingKeepsLimit();
    if op.phase.RcptReply? { RcptAnswerKeepsLimit(op, reply); }
  }

  lemma ReadKeepsLimit(op: Op, answer: ReadPoll, upgrade: UpgradePoll)
    requires Ready(op)
    ensures AdvanceRead(op, answer, upgrade).0.sendLimit == op.sendLimit
  {
    hide Fail, HandleReply, Absorb, Ready;
    EndingKeepsLimit();
    if op.transport.Some? && answer.Octet? {
      AbsorbIsReady(op, answer.byte);
      var (next, progress) := Absorb(op, answer.byte);
      if progress.Complete? { AnswerKeepsLimit(next, progress.reply, upgrade); }
    }
  }

  lemma OfferLowersLimit(op: Op, answer: SendPoll)
    requires Ready(op)
    ensures Shrinks(op, SendSome(op, answer).0, answer)
  {
    hide Candidate;
  }

  lemma CommandLowersLimit(r: SendRequest, op: Op, answer: SendPoll)
    requires SendingUnit(r, op) && Ready(op)
    ensures Shrinks(op, AdvanceSend(op, answer).0, answer)
  {
    hide ActiveInv, SendSome, Fail, OutboundOk;
    SendingFacts(r, op);
    EndingKeepsLimit();
    OfferLowersLimit(op, answer);
    SendKeepsReady(op, answer);
  }

  lemma BodyLowersLimit(r: SendRequest, op: Op, dataBytes: nat, answer: SendPoll)
    requires InBody(r, op) && Ready(op) && op.phase.DataBody?
    ensures Shrinks(op, AdvanceBody(op, dataBytes, answer).0, answer)
  {
    hide InBody, SendSome, StageChunk, Fail, OutboundOk;
    EndingKeepsLimit();
    var _ := BodyFacts(r, op);
    if dataBytes < MAX_DATA_BYTES_PER_POLL && !(op.outbound.None? && op.data.value == []) {
      var limit := Min(MAX_STAGING, MAX_DATA_BYTES_PER_POLL - dataBytes);
      StagedKeeps(r, op, limit);
      StagingIsNeutral(op, limit);
      var _ := BodyFacts(r, StageChunk(op, limit));
      OfferLowersLimit(StageChunk(op, limit), answer);
    }
  }

  lemma ConnectKeepsLimit(op: Op, answer: ConnectPoll)
    requires Ready(op)
    ensures PollConnect(op, answer).0.sendLimit == op.sendLimit
  {
    hide Fail, EhloCommand;
    EndingKeepsLimit();
  }

  lemma LimitFalls(r: SendRequest, op: Op, dataBytes: nat, world: World)
    requires ActiveInv(r, op, 0) && Ready(op)
    ensures Shrinks(op, Advance(op, dataBytes, world).op, world.send)
  {
    hide ActiveInv, PollConnect, AdvanceRead, AdvanceSend, AdvanceBody, Fail;
    EndingKeepsLimit();
    if op.phase.Connect? || op.phase.Upgrade? {
      ConnectKeepsLimit(op, world.connect);
    } else if Reading(op.phase) {
      ReadKeepsLimit(op, world.read, world.upgrade);
    } else if SendingCommand(op.phase) {
      CommandLowersLimit(r, op, world.send);
    } else if op.phase.DataBody? {
      BodyLowersLimit(r, op, dataBytes, world.send);
    }
  }

  // ---- polls ----

  /** No outcome yet, and this much still to do. */
  ghost predicate Owes(r: SendRequest, limit: nat, op: Op, most: int) {
    op.outcome.None? ==> op.sendLimit <= limit && Indexed(r, op) && Measure(r, limit, op) <= most
  }

  lemma StepPays(r: SendRequest, limit: nat, op: Op, dataBytes: nat, world: World)
    requires Inv(r, op) && op.outcome.None? && op.sendLimit <= limit && !Waits(world)
    ensures Ready(op) && Indexed(r, op)
    ensures var step := Advance(op, dataBytes, world);
            && Owes(r, limit, step.op, Measure(r, limit, op))
            && (step.again || dataBytes < MAX_DATA_BYTES_PER_POLL ==> Owes(r, limit, step.op, Measure(r, limit, op) - 1))
  {
    hide Advance, ActiveInv, WireInv, Ended, OctetsLeft, PhasesLeft, Waits, Size, Rank;
    AdvanceKeeps(r, op, dataBytes, world);
    StepGoes(r, op, dataBytes, world);
    StopMeansOutcome(op, dataBytes, world);
    LimitFalls(r, op, dataBytes, world);
    var next := Advance(op, dataBytes, world).op;
    if Advance(op, dataBytes, world).again && next.outcome.None? {
      OctetsFit(r, next);
      Carries(PhasesLeft(r, op), PhasesLeft(r, next), OctetsLeft(op), OctetsLeft(next), op.sendLimit, next.sendLimit,
              Size(r), limit);
    }
  }

  lemma {:induction false} LoopPays(r: SendRequest, limit: nat, op: Op, dataBytes: nat, worlds: seq<World>, most: int)
    requires Inv(r, op) && Owes(r, limit, op, most)
    requires forall i :: 0 <= i < |worlds| ==> !Waits(worlds[i])
    ensures Owes(r, limit, PollLoop(r, op, dataBytes, worlds), most)
    ensures worlds != [] && dataBytes < MAX_DATA_BYTES_PER_POLL ==> Owes(r, limit, PollLoop(r, op, dataBytes, worlds), most - 1)
    decreases |worlds|
  {
    hide Advance, ActiveInv, WireInv, Ended, Measure, Waits, Fail, Ready;
    if worlds != [] && op.outcome.None? {
      if worlds[0].timedOut {
        StoppingIsFinal(op, Timeout);
      } else {
        AdvanceKeeps(r, op, dataBytes, worlds[0]);
        StepPays(r, limit, op, dataBytes, worlds[0]);
        var step := Advance(op, dataBytes, worlds[0]);
        if step.again { LoopPays(r, limit, step.op, step.dataBytes, worlds[1..], most - 1); }
      }
    }
  }

  /** A poll in which nothing says "wait"; a deadline may pass and anything may fail. */
  predicate Responsive(event: Event) {
    event.Poll? && event.worlds != [] && forall i :: 0 <= i < |event.worlds| ==> !Waits(event.worlds[i])
  }

  lemma PollPays(r: SendRequest, limit: nat, op: Op, event: Event, most: int)
    requires Inv(r, op) && Owes(r, limit, op, most) && Responsive(event)
    ensures Owes(r, limit, Apply(r, op, event), most - 1)
  {
    hide Inv, Owes, PollLoop, Waits;
    var worlds := event.worlds;
    LoopPays(r, limit, op, 0, if |worlds| <= MAX_STEPS_PER_POLL then worlds else worlds[..MAX_STEPS_PER_POLL], most);
  }

  lemma {:induction false} PollsPay(r: SendRequest, limit: nat, op: Op, events: seq<Event>, most: int)
    requires Inv(r, op) && Owes(r, limit, op, most)
    requires forall i :: 0 <= i < |events| ==> Responsive(events[i])
    ensures Owes(r, limit, Continue(r, op, events), most - |events|)
    decreases |events|
  {
    hide Inv, Owes, Apply, Responsive;
    if events != [] {
      PollPays(r, limit, op, events[0], most);
      PollsPay(r, limit, Apply(r, op, events[0]), events[1..], most - 1);
    }
  }

  /** How many polls a submission can need. */
  function PollBound(r: SendRequest, limit: nat): (n: nat) {
    Rank(18 + 2 * |r.recipients|, 0, limit, Weight(r, limit), limit)
  }

  /**
   * Progress of `poll`: after so many polls in which nothing says "wait", whatever else happens in
   * them, a submission has its outcome. The bound depends on the request and the send window alone.
   */
  lemma ResponsivePollsEnd(r: SendRequest, limit: nat, events: seq<Event>)
    requires Submittable(r, limit) && |events| > PollBound(r, limit)
    requires forall i :: 0 <= i < |events| ==> Responsive(events[i])
    ensures Run(r, limit, events).outcome.Some?
  {
    hide Inv, Continue, Weight, Responsive;
    SubmitKeeps(r, limit);
    assert Owes(r, limit, Submit(r, limit), PollBound(r, limit));
    PollsPay(r, limit, Submit(r, limit), events, PollBound(r, limit));
  }
}
