/** The polled object of smtp/src/client.rs, each method against the engine function it implements. */
module SmtpClient {
  import opened Bytes
  import opened DotStuffing
  import opened DataEncoding
  import opened SmtpReply
  import opened SmtpRequest
  import opened SmtpEngine
  import opened SmtpWire
  import opened SmtpProof
  import opened SmtpRuns

  /** Offers the refused piece again, or the next one; a refusal hands the piece back whole. */
  method OfferPiece(unit: Outbound, sendLimit: nat, answer: SendPoll)
    returns (o: Outbound, limit: nat, admitted: seq<Byte>, step: SendStep)
    requires unit.offset <= |unit.bytes|
    ensures (o, limit, admitted, step) == OutboundStep(unit, sendLimit, answer)
  {
    o, limit, admitted := unit, sendLimit, [];
    if o.offset == |o.bytes| {
      return o, limit, admitted, Done(0);
    }
    var piece: seq<Byte>;
    if o.retry.Some? {
      piece := o.retry.value;
    } else {
      var end := if o.offset + limit <= |o.bytes| then o.offset + limit else |o.bytes|;
      piece := o.bytes[o.offset..end];
    }
    assert piece == Candidate(unit, sendLimit);
    o := o.(retry := None);
    match answer {
      case Admitted =>
        o := o.(offset := o.offset + |piece|);
        admitted := piece;
        step := if o.offset == |o.bytes| then Done(|piece|) else Progressed(|piece|);
      case WouldBlock =>
        o := o.(retry := Some(piece));
        step := Blocked;
      case ChunkTooLarge =>
        if limit > 1 {
          limit := if limit / 2 > 1 then limit / 2 else 1;
          step := Progressed(0);
        } else {
          step := Broken(Transport);
        }
      case SendEngineStopped => step := Broken(EngineStopped);
      case SendCancelled => step := Broken(Cancelled);
      case SendFailed => step := Broken(Transport);
    }
  }

  class SendOperation {
    var request: Option<SendRequest>
    var phase: Phase
    var pending: Option<Security>
    var transport: Option<Security>
    const parser: ReplyParser
    var outbound: Option<Outbound>
    var data: DataEncoder?
    var reports: seq<RecipientReport>
    var outcome: Option<SendOutcome>
    var accepted: Option<ReplySummary>
    var terminatorAdmitted: bool
    var sendLimit: nat
    ghost var plain: Channel
    ghost var tls: Channel

    ghost predicate Valid()
      reads this, data
    {
      data != null ==> request.Some? && data.Valid(request.value.message)
    }

    /** The operation as a value; what the encoder has not handed out stands for the encoder. */
    ghost function View(): (op: Op)
      requires Valid()
      reads this, parser, data
    {
      Op(request, phase, pending, transport, parser.State(), outbound,
         if data == null then None else Some(data.Rest(request.value.message)),
         reports, outcome, accepted, terminatorAdmitted, sendLimit, plain, tls)
    }

    constructor (r: SendRequest, limit: nat)
      ensures Valid() && View() == Submit(r, limit)
      ensures fresh(parser) && data == null
    {
      request, phase := Some(r), Connect;
      pending := Some(if r.policy.Implicit? then Tls else Plain);
      transport, outbound, data, outcome, accepted := None, None, null, None, None;
      parser := new ReplyParser();
      reports := seq(|r.recipients|, i requires 0 <= i < |r.recipients| => RecipientReport(r.recipients[i], Unattempted));
      terminatorAdmitted, sendLimit := false, limit;
      plain, tls := UNUSED, UNUSED;
    }

    // ---- ending ----

    method EndWith(delivery: Delivery)
      requires Valid()
      modifies this
      ensures Valid()
      ensures View() == Terminal(old(View()), delivery)
      ensures data == old(data) || data == null
    {
      if outcome.Some? {
        return;
      }
      pending, transport, outbound, data, request, outcome, reports :=
        None, None, None, null, None, Some(SendOutcome(reports, delivery)), [];
    }

    method Fails(reason: FailureReason)
      requires Valid()
      modifies this
      ensures Valid() && View() == Fail(old(View()), reason)
      ensures data == old(data) || data == null
    {
      if accepted.Some? {
        var reply := accepted.value;
        accepted := None;
        EndWith(Accepted(reply));
      } else if terminatorAdmitted {
        EndWith(Uncertain(Public(phase), reason));
      } else {
        EndWith(NotAccepted(Public(phase), reason));
      }
    }

    method Rejects(reply: Reply)
      requires Valid()
      modifies this
      ensures Valid() && View() == Reject(old(View()), reply)
      ensures data == old(data) || data == null
    {
      EndWith(Rejected(Public(phase), Summary(reply)));
    }

    /** An answer that is not the one hoped for: a refusal, or nonsense. */
    method Declined(reply: Reply)
      requires Valid()
      modifies this
      ensures Valid()
      ensures View() == if Negative(reply.code) then Reject(old(View()), reply) else Fail(old(View()), Protocol)
      ensures data == old(data) || data == null
    {
      if Negative(reply.code) {
        Rejects(reply);
      } else {
        Fails(Protocol);
      }
    }

    method Issue(next: Phase, bytes: seq<Byte>)
      requires Valid()
      modifies this`phase, this`outbound
      ensures Valid() && View() == Command(old(View()), next, bytes)
    {
      phase := next;
      outbound := Some(Outbound(bytes, 0, None));
    }

    // ---- connecting ----

    method Connecting(answer: ConnectPoll) returns (again: bool)
      requires Valid() && Ready(View())
      modifies this
      ensures Valid() && (View(), again) == PollConnect(old(View()), answer)
      ensures data == old(data) || data == null
    {
      hide DataEncoder.Rest, DataEncoder.Valid, Fail, EhloCommand;
      if pending.None? {
        Fails(Protocol);
        return false;
      }
      var security := pending.value;
      match answer {
        case StillConnecting => again := false;
        case Connected =>
          pending, transport := None, Some(security);
          if security.Tls? && phase.Upgrade? {
            Issue(EhloSend, EhloCommand(request.value));
          } else {
            phase := Greeting;
          }
          again := true;
        case ConnectFailed(kind) => pending := None; Fails(ReasonFromError(kind)); again := true;
        case ConnectCancelled => pending := None; Fails(Cancelled); again := true;
        case UnknownCompletion => pending := None; Fails(Protocol); again := true;
        case UnknownWait => pending := None; Fails(Protocol); again := false;
      }
    }

    // ---- sending ----

    /** One offer of the unit in flight; what the transport admits goes into its log. */
    method Offer(answer: SendPoll) returns (step: SendStep)
      requires Valid() && Ready(View())
      modifies this`outbound, this`sendLimit, this`plain, this`tls
      ensures Valid() && (View(), step) == SendSome(old(View()), answer)
    {
      hide DataEncoder.Rest, DataEncoder.Valid, OutboundStep;
      if outbound.None? || transport.None? {
        return Broken(Transport);
      }
      var o, limit, admitted, result := OfferPiece(outbound.value, sendLimit, answer);
      outbound, sendLimit, step := Some(o), limit, result;
      if transport.value.Plain? {
        plain := plain.(sent := plain.sent + admitted);
      } else {
        tls := tls.(sent := tls.sent + admitted);
      }
    }

    method CommandAdmitted()
      requires Valid() && Ready(View())
      modifies this
      ensures Valid() && View() == AfterCommand(old(View()))
      ensures data == old(data) || data == null
    {
      hide DataEncoder.Rest, DataEncoder.Valid, Fail;
      match phase {
        case EhloSend => phase := EhloReply;
        case StartTlsSend => phase := StartTlsReply;
        case MailSend => phase := MailReply;
        case RcptSend(index) =>
          reports := reports[index := reports[index].(status := Unresolved)];
          phase := RcptReply(index);
        case DataSend => phase := DataReply;
        case TerminatorSend =>
          terminatorAdmitted := true;
          phase := DataResult;
        case QuitSend => phase := QuitReply;
        case _ => Fails(Protocol);
      }
    }

    method SendCommand(answer: SendPoll) returns (again: bool)
      requires Valid() && Ready(View())
      modifies this
      ensures Valid() && (View(), again) == AdvanceSend(old(View()), answer)
      ensures data == old(data) || data == null
    {
      hide DataEncoder.Rest, DataEncoder.Valid, SendSome, AfterCommand, Fail;
      var step := Offer(answer);
      match step {
        case Blocked => again := false;
        case Progressed(_) => again := true;
        case Done(_) =>
          assert Ready(View().(outbound := None)) by { SendKeepsReady(old(View()), answer); }
          outbound := None;
          CommandAdmitted();
          again := true;
        case Broken(reason) =>
          Fails(reason);
          again := false;
      }
    }

    method SendBody(dataBytes: nat, answer: SendPoll) returns (count: nat, again: bool)
      requires Valid() && Ready(View()) && phase.DataBody?
      modifies this, data
      ensures Valid() && (View(), count, again) == AdvanceBody(old(View()), dataBytes, answer)
      ensures data == old(data) || data == null
    {
      hide DataEncoder.Rest, DataEncoder.Valid, SendSome, StageChunk, Fail, Command;
      count := dataBytes;
      if dataBytes >= MAX_DATA_BYTES_PER_POLL {
        return count, false;
      }
      if outbound.None? {
        if data.Finished(request.value.message) {
          Issue(TerminatorSend, TERMINATOR);
          return count, true;
        }
      }
      Stage(Min(MAX_STAGING, MAX_DATA_BYTES_PER_POLL - dataBytes));
      count, again := OfferStaged(dataBytes, answer);
    }

    method OfferStaged(dataBytes: nat, answer: SendPoll) returns (count: nat, again: bool)
      requires Valid() && Ready(View()) && phase.DataBody?
      modifies this
      ensures data == old(data) || data == null
      ensures Valid() && (View(), count, again) == SendStaged(old(View()), dataBytes, answer)
    {
      hide DataEncoder.Rest, DataEncoder.Valid, SendSome, Fail;
      count := dataBytes;
      var step := Offer(answer);
      match step {
        case Blocked => again := false;
        case Progressed(bytes) =>
          count := dataBytes + bytes;
          again := true;
        case Done(bytes) =>
          count := dataBytes + bytes;
          outbound := None;
          again := true;
        case Broken(reason) =>
          Fails(reason);
          again := false;
      }
    }

    /** Takes the next chunk from the encoder when none is in flight. */
    method Stage(limit: nat)
      requires Valid() && Ready(View()) && data != null
      modifies this`outbound, data
      ensures Valid() && View() == StageChunk(old(View()), limit) && Ready(View())
    {
      if outbound.None? {
        ghost var rest := data.Rest(request.value.message);
        var chunk := data.NextChunk(request.value.message, limit);
        assert rest[..|chunk|] == chunk && rest[|chunk|..] == data.Rest(request.value.message);
        outbound := Some(Outbound(chunk, 0, None));
      }
    }

    // ---- receiving ----

    method RcptAnswered(index: nat, reply: Reply)
      requires Valid() && Ready(View()) && index < |reports|
      modifies this
      ensures Valid() && View() == HandleRcptReply(old(View()), index, reply)
      ensures data == old(data) || data == null
    {
      hide DataEncoder.Rest, DataEncoder.Valid, Fail, Reject, Summary, RcptCommand;
      if Positive(reply.code) {
        reports := reports[index := reports[index].(status := AcceptedForTransaction(Summary(reply)))];
      } else if Negative(reply.code) {
        reports := reports[index := reports[index].(status := Refused(Summary(reply)))];
        if reply.code == 421 {
          Rejects(reply);
          return;
        }
      } else {
        Fails(Protocol);
        return;
      }
      if index + 1 < |request.value.recipients| {
        Issue(RcptSend(index + 1), RcptCommand(request.value, index + 1));
      } else {
        RecipientsAnswered();
      }
    }

    method RecipientsAnswered()
      requires Valid() && request.Some?
      modifies this
      ensures Valid() && View() == AfterRecipients(old(View()))
      ensures data == old(data) || data == null
    {
      hide DataEncoder.Rest, DataEncoder.Valid, Fail;
      var anyAccepted, anyRefused := Survey(reports);
      if !anyAccepted {
        Fails(NoAcceptedRecipients);
      } else if anyRefused && request.value.recipientPolicy.RequireAllRecipients? {
        Fails(RecipientsRejected);
      } else {
        Issue(DataSend, DataCommand());
      }
    }

    method EhloAnswered(reply: Reply)
      requires Valid() && Ready(View())
      modifies this
      ensures Valid() && View() == HandleEhloReply(old(View()), reply)
      ensures data == old(data) || data == null
    {
      hide DataEncoder.Rest, DataEncoder.Valid, Fail, Reject, Summary, Advertises, MailCommand;
      if Positive(reply.code) {
        if request.value.policy.RequiredStartTls? && transport == Some(Plain) {
          if Advertises(reply, Ascii("STARTTLS")) {
            Issue(StartTlsSend, StartTlsCommand());
          } else {
            Fails(StartTlsUnavailable);
          }
        } else {
          Issue(MailSend, MailCommand(request.value));
        }
      } else {
        Declined(reply);
      }
    }

    method StartTlsAnswered(reply: Reply, upgrade: UpgradePoll)
      requires Valid() && Ready(View())
      modifies this
      ensures Valid() && View() == HandleStartTlsReply(old(View()), reply, upgrade)
      ensures data == old(data) || data == null
    {
      hide DataEncoder.Rest, DataEncoder.Valid, Fail, Reject, Summary;
      if reply.code == 220 {
        var taken := transport;
        transport := None;
        if taken != Some(Plain) {
          Fails(Protocol);
          return;
        }
        match upgrade {
          case UpgradeAdmitted => pending, phase := Some(Tls), Upgrade;
          case UpgradeRefused(kind) => Fails(ReasonFromError(kind));
        }
      } else {
        Declined(reply);
      }
    }

    method DataAnswered(reply: Reply, upgrade: UpgradePoll)
      requires Valid() && Ready(View()) && phase.DataReply?
      modifies this
      ensures Valid() && View() == HandleReply(old(View()), reply, upgrade)
      ensures data == old(data) || data == null || fresh(data)
    {
      hide Fail, Reject, Summary, Stuff, Canonical;
      if Intermediate(reply.code) {
        data := new DataEncoder(request.value.message);
        phase := DataBody;
      } else {
        Declined(reply);
      }
    }

    method Answered(reply: Reply, upgrade: UpgradePoll)
      requires Valid() && Ready(View())
      modifies this
      ensures Valid() && View() == HandleReply(old(View()), reply, upgrade)
      ensures data == old(data) || data == null || fresh(data)
    {
      hide DataEncoder.Rest, DataEncoder.Valid, Fail, Reject, Summary, EhloCommand, RcptCommand, Stuff,
           HandleRcptReply, HandleEhloReply, HandleStartTlsReply;
      match phase {
        case Greeting =>
          if Positive(reply.code) {
            Issue(EhloSend, EhloCommand(request.value));
          } else {
            Declined(reply);
          }
        case EhloReply => EhloAnswered(reply);
        case StartTlsReply => StartTlsAnswered(reply, upgrade);
        case MailReply =>
          if Positive(reply.code) {
            Issue(RcptSend(0), RcptCommand(request.value, 0));
          } else {
            Declined(reply);
          }
        case RcptReply(index) => RcptAnswered(index, reply);
        case DataReply => DataAnswered(reply, upgrade);
        case DataResult =>
          if Positive(reply.code) {
            accepted := Some(Summary(reply));
            Issue(QuitSend, QuitCommand());
          } else {
            Declined(reply);
          }
        case QuitReply =>
          if Positive(reply.code) && accepted.Some? {
            phase := Finish;
          } else {
            Fails(Protocol);
          }
        case _ => Fails(Protocol);
      }
    }

    method Read(answer: ReadPoll, upgrade: UpgradePoll) returns (again: bool)
      requires Valid() && Ready(View())
      modifies this, parser
      ensures Valid() && (View(), again) == AdvanceRead(old(View()), answer, upgrade)
      ensures data == old(data) || data == null || fresh(data)
    {
      hide DataEncoder.Rest, DataEncoder.Valid, Fail, HandleReply, PushByte;
      if transport.None? {
        Fails(Transport);
        return false;
      }
      match answer {
        case NoData => again := false;
        case Octet(byte) =>
          var progress := Take(byte);
          match progress {
            case More => again := true;
            case Complete(reply) => Answered(reply, upgrade); again := true;
            case Malformed => Fails(Protocol); again := false;
          }
        case OtherCount => Fails(Transport); again := false;
        case Eof => Fails(Transport); again := false;
        case ReadFailed(kind) => Fails(ReasonFromError(kind)); again := false;
        case ReadCancelled => Fails(Cancelled); again := false;
        case ReadReset => Fails(Transport); again := false;
        case UnknownRead => Fails(Protocol); again := false;
        case UnknownReadError => Fails(Transport); again := false;
      }
    }

    method Take(byte: Byte) returns (progress: Progress)
      requires Valid() && transport.Some?
      modifies parser, this`plain, this`tls
      ensures Valid() && (View(), progress) == Absorb(old(View()), byte)
    {
      hide DataEncoder.Rest, DataEncoder.Valid, PushByte;
      progress := parser.Push(byte);
      ghost var c := if transport.value.Plain? then plain else tls;
      c := Channel(c.sent, c.read + [byte], if progress.Complete? then c.replies + [progress.reply] else c.replies);
      if transport.value.Plain? {
        plain := c;
      } else {
        tls := c;
      }
    }

    // ---- the step and the poll ----

    method Step(dataBytes: nat, world: World) returns (count: nat, again: bool)
      requires Valid() && Ready(View())
      modifies this, parser, data
      ensures Valid() && Advanced(View(), count, again) == Advance(old(View()), dataBytes, world)
      ensures data == old(data) || data == null || fresh(data)
    {
      hide DataEncoder.Rest, DataEncoder.Valid, Fail, AdvanceSend, AdvanceRead, AdvanceBody, PollConnect;
      count := dataBytes;
      if phase.Connect? || phase.Upgrade? {
        again := Connecting(world.connect);
      } else if Reading(phase) {
        again := Read(world.read, world.upgrade);
      } else if SendingCommand(phase) {
        again := SendCommand(world.send);
      } else if phase.DataBody? {
        count, again := SendBody(dataBytes, world.send);
      } else if transport.None? {
        Fails(Transport);
        again := false;
      } else {
        match world.finish {
          case FinishPending => again := false;
          case Finished => Fails(Protocol); again := true;
          case FinishFailed => Fails(Transport); again := false;
        }
      }
    }

    /** At most 64 steps, each preceded by the deadline check; ready exactly when there is an outcome. */
    method Poll(worlds: seq<World>, ghost r: SendRequest) returns (ready: bool)
      requires Valid() && Inv(r, View()) && |worlds| == MAX_STEPS_PER_POLL
      modifies this, parser, data
      ensures Valid() && View() == Apply(r, old(View()), Event.Poll(worlds)) && Inv(r, View())
      ensures ready <==> outcome.Some?
      ensures data == old(data) || data == null || fresh(data)
    {
      hide DataEncoder.Rest, DataEncoder.Valid, Fail, Advance, ActiveInv, WireInv, Ended;
      var dataBytes, step, again := 0, 0, true;
      ghost var target := PollLoop(r, View(), 0, worlds);
      while step < MAX_STEPS_PER_POLL && again && outcome.None?
        invariant Valid() && Inv(r, View()) && step <= MAX_STEPS_PER_POLL
        invariant data == old(data) || data == null || fresh(data)
        invariant again ==> PollLoop(r, View(), dataBytes, worlds[step..]) == target
        invariant !again ==> View() == target
      {
        assert worlds[step..][0] == worlds[step] && worlds[step..][1..] == worlds[step + 1..];
        if worlds[step].timedOut {
          StopKeeps(r, View(), Timeout);
          Fails(Timeout);
          again := false;
        } else {
          AdvanceKeeps(r, View(), dataBytes, worlds[step]);
          dataBytes, again := Step(dataBytes, worlds[step]);
        }
        step := step + 1;
      }
      ready := outcome.Some?;
    }

    method Cancel(ghost r: SendRequest)
      requires Valid() && Inv(r, View())
      modifies this
      ensures Valid() && View() == Apply(r, old(View()), Event.Cancel) && outcome.Some?
    {
      hide DataEncoder.Rest, DataEncoder.Valid, Fail, ActiveInv, WireInv, Ended;
      if outcome.None? {
        StopKeeps(r, View(), Cancelled);
        Fails(Cancelled);
      }
    }
  }

  /** Counts accepted and refused recipients the way the source walks its reports. */
  method Survey(reports: seq<RecipientReport>) returns (anyAccepted: bool, anyRefused: bool)
    ensures anyAccepted <==> AnyAccepted(reports)
    ensures anyRefused <==> AnyRefused(reports)
  {
    anyAccepted, anyRefused := false, false;
    for i := 0 to |reports|
      invariant anyAccepted <==> AnyAccepted(reports[..i])
      invariant anyRefused <==> AnyRefused(reports[..i])
    {
      assert reports[..i + 1] == reports[..i] + [reports[i]];
      assert reports[..i + 1][i] == reports[i];
      assert forall j :: 0 <= j < i ==> reports[..i + 1][j] == reports[..i][j];
      if reports[i].status.AcceptedForTransaction? { anyAccepted := true; }
      if reports[i].status.Refused? { anyRefused := true; }
    }
    assert reports[..|reports|] == reports;
  }
}
