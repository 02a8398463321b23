/** The invariant of `SmtpWire` is kept by every step of `SmtpEngine`. */
module SmtpProof {
  import opened Bytes
  import opened DotStuffing
  import opened SmtpReply
  import opened SmtpRequest
  import opened SmtpEngine
  import opened SmtpWire

  // ---- the transcript ----

  lemma {:induction false} UpToGrows(units: seq<seq<Byte>>, i: nat, j: nat)
    requires i <= j <= |units|
    ensures UpTo(units, i) <= UpTo(units, j)
    decreases j
  {
    if i < j { UpToGrows(units, i, j - 1); }
  }

  lemma UpToPartial(units: seq<seq<Byte>>, k: nat, partial: seq<Byte>)
    requires k < |units| && partial <= units[k]
    ensures UpTo(units, k) + partial <= UpTo(units, k + 1)
    ensures UpTo(units, k) + partial <= UpTo(units, |units|)
    ensures partial < units[k] ==> |UpTo(units, k) + partial| < |UpTo(units, k + 1)|
  {
    assert UpTo(units, k + 1) == UpTo(units, k) + units[k];
    UpToGrows(units, k + 1, |units|);
  }

  lemma UnitsAreNonempty(r: SendRequest, security: Security, k: nat)
    requires k < |Script(r, security)|
    ensures Script(r, security)[k] != []
  {
    hide Stuff;
    if security.Tls? && 2 <= k < |r.recipients| + 2 {
      assert TlsScript(r)[2 + (k - 2)] == RcptCommand(r, k - 2);
    } else if security.Tls? && k == |r.recipients| + 3 {
      StuffNonempty(Canonical(r.message));
    }
  }

  lemma StuffNonempty(s: seq<Byte>)
    requires s != []
    ensures Stuff(s, true) != []
  {
  }

  /** A phase has seen every reply its units wait for. */
  lemma PhaseWaits(r: SendRequest, security: Security, phase: Phase, u: nat)
    requires u <= UnitsSent(r, phase) && (Reading(phase) ==> u < UnitsSent(r, phase))
    requires phase.RcptSend? || phase.RcptReply? ==> phase.index < |r.recipients|
    requires security.Plain? ==> !InTransaction(phase)
    requires !phase.Connect? && !phase.Upgrade?
    ensures RepliesSeen(r, phase) >= RepliesBefore(r, security, u)
  {
  }

  lemma PartialIsPrefix(r: SendRequest, op: Op, partial: seq<Byte>)
    requires op.transport.Some? && PartialUnit(r, op, partial)
    ensures var units, k := Script(r, op.transport.value), UnitsSent(r, op.phase);
            partial == [] || (k < |units| && partial <= units[k])
    ensures !SendingCommand(op.phase) && !op.phase.DataBody? ==> partial == []
  {
  }

  /** Whole units and a part of the next, with the replies of the phase, are in step. */
  lemma LogInStep(r: SendRequest, security: Security, phase: Phase, c: Channel, partial: seq<Byte>)
    requires var units, k := Script(r, security), UnitsSent(r, phase);
             && k <= |units| && c.sent == UpTo(units, k) + partial
             && (partial == [] || (k < |units| && partial <= units[k] && !Reading(phase)))
    requires |c.replies| >= Greetings(r, security) + RepliesSeen(r, phase)
    requires c.replies == Feed(INITIAL, c.read).replies
    requires phase.RcptSend? || phase.RcptReply? ==> phase.index < |r.recipients|
    requires (security.Plain? ==> !InTransaction(phase)) && !phase.Connect? && !phase.Upgrade?
    ensures InStep(r, security, c)
  {
    hide Feed, Script, UnitsSent, RepliesSeen, RepliesBefore, Greetings, Reading;
    var units, k := Script(r, security), UnitsSent(r, phase);
    if partial == [] {
      assert c.sent == UpTo(units, k);
      UpToGrows(units, k, |units|);
    } else {
      UpToPartial(units, k, partial);
    }
    forall u | 0 <= u < |units| && |c.sent| > |UpTo(units, u)|
      ensures |c.replies| >= Greetings(r, security) + RepliesBefore(r, security, u)
    {
      if u > k { UpToGrows(units, k + 1, u); }
      if u == k { assert partial != []; }
      PhaseWaits(r, security, phase, u);
    }
  }

  lemma CurrentInStep(r: SendRequest, op: Op, extra: nat)
    requires ControlInv(r, op) && CurrentInv(r, op, extra) && op.transport.Some?
    ensures InStep(r, op.transport.value, Current(op))
  {
    hide Feed, Script, UnitsSent, RepliesSeen, InStep;
    var partial :| PartialUnit(r, op, partial)
      && Current(op).sent == UpTo(Script(r, op.transport.value), UnitsSent(r, op.phase)) + partial;
    PartialIsPrefix(r, op, partial);
    LogInStep(r, op.transport.value, op.phase, Current(op), partial);
  }

  lemma UnusedInStep(r: SendRequest, security: Security)
    ensures InStep(r, security, UNUSED)
  {
  }

  lemma PlainDoneInStep(r: SendRequest, c: Channel)
    requires c.sent == UpTo(PlainScript(r), 2) && |c.replies| == 3 && c.replies == Feed(INITIAL, c.read).replies
    ensures InStep(r, Plain, c)
  {
    hide Feed;
    assert UpTo(PlainScript(r), 2) <= UpTo(PlainScript(r), |PlainScript(r)|);
  }

  /** Every unfinished operation is in step on both transports. */
  lemma ActiveIsWired(r: SendRequest, op: Op, extra: nat)
    requires ActiveInv(r, op, extra)
    ensures WireInv(r, op)
  {
    hide InStep, CurrentInv, Feed;
    UnusedInStep(r, Plain);
    UnusedInStep(r, Tls);
    if op.transport.Some? { CurrentInStep(r, op, extra); }
    if r.policy.RequiredStartTls? && (op.phase.Upgrade? || op.transport == Some(Tls)) {
      PlainDoneInStep(r, op.plain);
    }
  }

  // ---- ending ----

  /** The whole DATA section is on the wire. */
  ghost predicate DataSent(r: SendRequest, tls: Channel) {
    UpTo(TlsScript(r), |r.recipients| + 5) <= tls.sent
  }

  lemma LogBelow(units: seq<seq<Byte>>, k: nat, partial: seq<Byte>, m: nat)
    requires k < m <= |units| && partial <= units[k]
    ensures |UpTo(units, k) + partial| <= |UpTo(units, m)|
    ensures m == k + 1 && partial < units[k] ==> |UpTo(units, k) + partial| < |UpTo(units, m)|
    ensures m > k + 1 && units[m - 1] != [] ==> |UpTo(units, k) + partial| < |UpTo(units, m)|
  {
    hide UpTo;
    UpToNext(units, m - 1);
    UpToPartial(units, k, partial);
    UpToGrows(units, k + 1, m);
    if m > k + 1 { UpToGrows(units, k + 1, m - 1); }
  }

  /** Where the log stands tells how far the transaction got. */
  lemma LogTellsData(r: SendRequest, phase: Phase, c: Channel, partial: seq<Byte>)
    requires var units, k := TlsScript(r), UnitsSent(r, phase);
             && k <= |units| && c.sent == UpTo(units, k) + partial
             && (partial == [] || (k < |units| && partial <= units[k]))
             && (k == |r.recipients| + 4 ==> partial < units[k])
    requires phase.RcptSend? || phase.RcptReply? ==> phase.index < |r.recipients|
    requires partial != [] ==> SendingCommand(phase) || phase.DataBody?
    ensures DataSent(r, c) <==> UnitsSent(r, phase) >= |r.recipients| + 5
    ensures |c.sent| > |UpTo(TlsScript(r), |r.recipients| + 2)| ==> AfterDataDecision(phase)
  {
    hide TlsScript, UnitsSent, UpTo;
    var units, k, n := TlsScript(r), UnitsSent(r, phase), |r.recipients|;
    UnitsAreNonempty(r, Tls, n + 4);
    if k >= n + 5 {
      UpToGrows(units, n + 5, k);
    } else {
      LogBelow(units, k, partial, n + 5);
    }
    if k < n + 2 {
      LogBelow(units, k, partial, n + 2);
    } else if partial == [] && k == n + 2 {
      assert c.sent == UpTo(units, n + 2);
    } else {
      PhaseFromUnits(r, phase);
    }
  }

  lemma PhaseFromUnits(r: SendRequest, phase: Phase)
    requires phase.RcptSend? || phase.RcptReply? ==> phase.index < |r.recipients|
    ensures UnitsSent(r, phase) > |r.recipients| + 2 ==> AfterDataDecision(phase)
    ensures UnitsSent(r, phase) == |r.recipients| + 2 && (SendingCommand(phase) || phase.DataBody?) ==> AfterDataDecision(phase)
  {
  }

  lemma PartialIsProper(r: SendRequest, op: Op, partial: seq<Byte>)
    requires ControlInv(r, op) && op.transport.Some? && PartialUnit(r, op, partial)
    ensures var units, k := Script(r, op.transport.value), UnitsSent(r, op.phase);
            partial == [] || (k < |units| && partial <= units[k] && (SendingCommand(op.phase) ==> partial < units[k]))
    ensures !SendingCommand(op.phase) && !op.phase.DataBody? ==> partial == []
  {
    hide Script, UnitsSent;
  }

  /** How far an unfinished operation got, in terms of its phase. */
  lemma ActiveTellsData(r: SendRequest, op: Op, extra: nat)
    requires ActiveInv(r, op, extra)
    ensures DataSent(r, op.tls) <==> op.terminatorAdmitted
    ensures DataJustified(r, op.tls, op.reports)
    ensures |op.tls.sent| > |UpTo(TlsScript(r), |r.recipients| + 2)| ==> AfterDataDecision(op.phase)
  {
    hide TlsScript, UpTo, Feed, UnitsSent, ReportShape, MaySendData;
    var n := |r.recipients|;
    if op.transport == Some(Tls) {
      var partial :| PartialUnit(r, op, partial) && op.tls.sent == UpTo(TlsScript(r), UnitsSent(r, op.phase)) + partial;
      PartialIsProper(r, op, partial);
      TerminatorUnit(r, op.phase);
      UnitsAreNonempty(r, Tls, n + 4);
      LogTellsData(r, op.phase, op.tls, partial);
    } else {
      NothingSent(r);
    }
  }

  lemma TerminatorUnit(r: SendRequest, phase: Phase)
    requires phase.RcptSend? || phase.RcptReply? ==> phase.index < |r.recipients|
    ensures UnitsSent(r, phase) == |r.recipients| + 4 <==> phase.TerminatorSend?
    ensures UnitsSent(r, phase) >= |r.recipients| + 5 <==> phase.DataResult? || Closing(phase)
  {
  }

  lemma NothingSent(r: SendRequest)
    ensures !DataSent(r, UNUSED)
    ensures !(|UNUSED.sent| > |UpTo(TlsScript(r), |r.recipients| + 2)|)
  {
    hide TlsScript;
    UnitsAreNonempty(r, Tls, |r.recipients| + 4);
  }

  /** Everything a truthful ending needs. */
  ghost predicate Endable(r: SendRequest, op: Op, resolved: nat, unresolved: bool) {
    && op.outcome.None? && WireInv(r, op)
    && DataJustified(r, op.tls, op.reports)
    && ReportShape(r, op.reports, op.tls.replies, resolved, unresolved)
    && AcceptInv(r, op)
    && (DataSent(r, op.tls) <==> op.terminatorAdmitted)
    && (op.accepted.Some? ==> op.terminatorAdmitted)
    && (op.accepted.None? && op.terminatorAdmitted ==> op.phase.DataResult?)
  }

  /** A missing or unusable final answer. */
  ghost predicate NoFinalAnswer(r: SendRequest, op: Op) {
    || |op.tls.replies| == FinalReplyIndex(r)
    || (|op.tls.replies| == FinalReplyIndex(r) + 1
        && !Positive(op.tls.replies[FinalReplyIndex(r)].code) && !Negative(op.tls.replies[FinalReplyIndex(r)].code))
  }

  lemma FailEnds(r: SendRequest, op: Op, reason: FailureReason, resolved: nat, unresolved: bool)
    requires Endable(r, op, resolved, unresolved)
    requires op.accepted.None? && op.terminatorAdmitted ==> NoFinalAnswer(r, op)
    ensures Inv(r, Fail(op, reason)) && Fail(op, reason).outcome.Some?
  {
    hide WireInv, ReportShape, DataJustified, TlsScript, UpTo;
    var end := Fail(op, reason);
    assert end.plain == op.plain && end.tls == op.tls && end.outcome.value.recipients == op.reports;
    assert WireInv(r, end) by { WireDependsOnChannels(r, op, end); }
    assert ReportShape(r, end.outcome.value.recipients, end.tls.replies, resolved, unresolved);
  }

  lemma WireDependsOnChannels(r: SendRequest, a: Op, b: Op)
    requires WireInv(r, a) && a.plain == b.plain && a.tls == b.tls
    ensures WireInv(r, b)
  {
    hide InStep, Gate;
  }

  lemma ActiveIsEndable(r: SendRequest, op: Op, extra: nat)
    requires ActiveInv(r, op, extra)
    ensures Endable(r, op, Resolved(r, op.phase), op.phase.RcptReply?)
    ensures extra == 0 && op.phase.DataResult? ==> NoFinalAnswer(r, op)
  {
    hide InStep, Gate, DataSent, DataJustified, ReportShape, Feed, SentInv;
    ActiveIsWired(r, op, extra);
    ActiveTellsData(r, op, extra);
  }

  /** An operation that stops where it stands reports the truth. */
  lemma ActiveFails(r: SendRequest, op: Op, reason: FailureReason)
    requires ActiveInv(r, op, 0)
    ensures Inv(r, Fail(op, reason)) && Fail(op, reason).outcome.Some?
  {
    hide ActiveInv, Endable, Inv, Fail, NoFinalAnswer;
    ActiveIsEndable(r, op, 0);
    assert op.accepted.None? && op.terminatorAdmitted ==> op.phase.DataResult? by { EndablePhase(r, op); }
    FailEnds(r, op, reason, Resolved(r, op.phase), op.phase.RcptReply?);
  }

  lemma EndablePhase(r: SendRequest, op: Op)
    requires ActiveInv(r, op, 0)
    ensures op.accepted.None? && op.terminatorAdmitted ==> op.phase.DataResult?
  {
    hide CurrentInv, OtherInv, ReportInv;
  }

  /** What the invariant gives the source's indexes and `expect`s. */
  lemma ActiveIsReady(r: SendRequest, op: Op, extra: nat)
    requires ActiveInv(r, op, extra)
    ensures Ready(op)
  {
    hide CurrentInv, OtherInv, Resolves;
  }

  // ---- connecting ----

  lemma FailWithoutPending(r: SendRequest, op: Op, reason: FailureReason)
    requires ActiveInv(r, op, 0)
    ensures Inv(r, Fail(op.(pending := None), reason)) && Fail(op.(pending := None), reason).outcome.Some?
  {
    ActiveFails(r, op, reason);
    hide ActiveInv, Inv;
    assert Fail(op.(pending := None), reason) == Fail(op, reason);
  }

  lemma OpenChannel(r: SendRequest, op: Op, security: Security)
    requires op.transport == Some(security) && Current(op) == UNUSED && op.parser == INITIAL
    requires UnitsSent(r, op.phase) == 0 && Greetings(r, security) + RepliesSeen(r, op.phase) == 0
    requires if SendingCommand(op.phase) then op.outbound == Some(Outbound(Script(r, security)[0], 0, None))
             else !op.phase.DataBody?
    ensures CurrentInv(r, op, 0)
  {
    assert UpTo(Script(r, security), 0) + [] == [];
    assert PartialUnit(r, op, []);
  }

  lemma ConnectStep(r: SendRequest, op: Op, answer: ConnectPoll)
    requires ActiveInv(r, op, 0) && (op.phase.Connect? || op.phase.Upgrade?)
    ensures Inv(r, PollConnect(op, answer).0)
  {
    ActiveIsWired(r, op, 0);
    match answer
    case StillConnecting =>
    case UnknownWait => FailWithoutPending(r, op, Protocol);
    case UnknownCompletion => FailWithoutPending(r, op, Protocol);
    case ConnectCancelled => FailWithoutPending(r, op, Cancelled);
    case ConnectFailed(kind) => FailWithoutPending(r, op, ReasonFromError(kind));
    case Connected => ConnectedStep(r, op);
  }

  lemma ConnectedStep(r: SendRequest, op: Op)
    requires ActiveInv(r, op, 0) && (op.phase.Connect? || op.phase.Upgrade?)
    ensures Inv(r, PollConnect(op, Connected).0)
  {
    hide UpTo, CurrentInv, ReportShape, Feed, TlsScript, PlainScript, WireInv, EhloCommand;
    var next := PollConnect(op, Connected).0;
    ConnectedControl(r, op);
    EhloIsFirst(r, next.transport.value);
    OpenChannel(r, next, next.transport.value);
    assert OtherInv(r, next) && ReportInv(r, next);
    ActiveIsWired(r, next, 0);
  }

  lemma ConnectedControl(r: SendRequest, op: Op)
    requires ControlInv(r, op) && (op.phase.Connect? || op.phase.Upgrade?)
    ensures ControlInv(r, PollConnect(op, Connected).0)
  {
    assert EhloCommand(r) != [];
    hide EhloCommand;
  }

  lemma EhloIsFirst(r: SendRequest, security: Security)
    ensures Script(r, security)[0] == EhloCommand(r)
  {
  }

  // ---- reading ----

  lemma CurrentDependsOn(r: SendRequest, a: Op, b: Op, extra: nat)
    requires a.transport.Some? && a.transport == b.transport && a.phase == b.phase
    requires a.outbound == b.outbound && a.data == b.data && Current(a).sent == Current(b).sent
    requires SentInv(r, a)
    ensures SentInv(r, b)
  {
    hide Script, UpTo, UnitsSent;
    var partial :| PartialUnit(r, a, partial)
      && Current(a).sent == UpTo(Script(r, a.transport.value), UnitsSent(r, a.phase)) + partial;
    assert PartialUnit(r, b, partial);
  }

  /** An octet the parser accepts keeps the operation where it is, perhaps one reply ahead. */
  lemma AbsorbKeeps(r: SendRequest, op: Op, byte: Byte)
    requires ActiveInv(r, op, 0) && Reading(op.phase)
    ensures var (next, progress) := Absorb(op, byte);
            && (progress.More? ==> ActiveInv(r, next, 0))
            && (progress.Complete? ==> ActiveInv(r, next, 1))
            && (progress.Complete? ==> Current(next).replies == Current(op).replies + [progress.reply])
  {
    hide SentInv, PushByte, Feed, ReportShape, Script, UnitsSent, RepliesSeen, UpTo;
    var (next, progress) := Absorb(op, byte);
    FeedSnoc(INITIAL, Current(op).read, byte);
    CurrentDependsOn(r, op, next, 0);
    CompleteResets(op.parser, byte);
    assert op.tls.replies <= next.tls.replies;
    ReportShapeGrows(r, op.reports, op.tls.replies, next.tls.replies, Resolved(r, op.phase), op.phase.RcptReply?);
  }

  lemma CompleteResets(p: Parser, byte: Byte)
    ensures PushByte(p, byte).1.Complete? ==> PushByte(p, byte).0 == INITIAL
  {
  }

  lemma ReportShapeGrows(
    r: SendRequest, reports: seq<RecipientReport>, a: seq<Reply>, b: seq<Reply>, resolved: nat, unresolved: bool)
    requires ReportShape(r, reports, a, resolved, unresolved) && a <= b
    ensures ReportShape(r, reports, b, resolved, unresolved)
  {
    hide Resolves;
  }

  /** An octet the parser rejects ends the operation. */
  lemma AbsorbMalformed(r: SendRequest, op: Op, byte: Byte)
    requires ActiveInv(r, op, 0) && Reading(op.phase) && Absorb(op, byte).1.Malformed?
    ensures Inv(r, Fail(Absorb(op, byte).0, Protocol))
  {
    assert op.transport.Some? && op.outcome.None?;
    hide PushByte, Feed, ActiveInv, Endable, WireInv, Inv;
    var next := Absorb(op, byte).0;
    ActiveIsEndable(r, op, 0);
    MalformedInStep(r, op, byte);
    EndableReads(r, op, next, Resolved(r, op.phase), op.phase.RcptReply?);
    FailEnds(r, next, Protocol, Resolved(r, op.phase), op.phase.RcptReply?);
  }

  /** Ending depends on what was sent and answered, not on the octets of an unfinished reply. */
  lemma EndableReads(r: SendRequest, a: Op, b: Op, resolved: nat, unresolved: bool)
    requires Endable(r, a, resolved, unresolved) && WireInv(r, b) && b.outcome.None?
    requires a.tls.sent == b.tls.sent && a.tls.replies == b.tls.replies && a.reports == b.reports
    requires a.accepted == b.accepted && a.terminatorAdmitted == b.terminatorAdmitted && a.phase == b.phase
    ensures Endable(r, b, resolved, unresolved)
    ensures (a.accepted.None? && a.terminatorAdmitted ==> NoFinalAnswer(r, a))
        ==> (b.accepted.None? && b.terminatorAdmitted ==> NoFinalAnswer(r, b))
    ensures a.accepted.None? && a.terminatorAdmitted ==> a.phase.DataResult?
  {
    hide ReportShape, TlsScript, UpTo, MaySendData, WireInv;
  }

  lemma MalformedInStep(r: SendRequest, op: Op, byte: Byte)
    requires ActiveInv(r, op, 0) && op.transport.Some? && Absorb(op, byte).1.Malformed?
    ensures WireInv(r, Absorb(op, byte).0)
    ensures Absorb(op, byte).0.tls.sent == op.tls.sent && Absorb(op, byte).0.tls.replies == op.tls.replies
  {
    hide PushByte, Feed, Script, UpTo, SentInv, ReportInv;
    ActiveIsWired(r, op, 0);
    FeedSnoc(INITIAL, Current(op).read, byte);
  }

  // ---- replies ----

  /** A reading phase whose reply has just been completed. */
  ghost predicate Settled(r: SendRequest, op: Op) {
    && op.outcome.None? && op.request == Some(r) && op.sendLimit > 0
    && op.pending.None? && op.transport.Some? && op.outbound.None? && op.parser == INITIAL
    && (op.transport == Some(Plain) ==> r.policy.RequiredStartTls?)
    && (op.phase.RcptReply? ==> op.phase.index < |r.recipients|)
    && Reading(op.phase) && 0 < |r.recipients|
    && OtherInv(r, op) && CurrentInv(r, op, 1)
  }

  lemma ActiveIsSettled(r: SendRequest, op: Op)
    requires ActiveInv(r, op, 1) && Reading(op.phase)
    ensures Settled(r, op)
  {
    hide CurrentInv, OtherInv, ReportShape;
  }

  /** The conditions a following command phase adds. */
  ghost predicate Follows(r: SendRequest, op: Op, phase: Phase, bytes: seq<Byte>)
    requires op.transport.Some?
  {
    && SendingCommand(phase) && !phase.TerminatorSend?
    && (phase.RcptSend? ==> phase.index < |r.recipients|)
    && UnitsSent(r, phase) == UnitsSent(r, op.phase)
    && RepliesSeen(r, phase) == RepliesSeen(r, op.phase) + 1
    && UnitsSent(r, phase) < |Script(r, op.transport.value)|
    && bytes == Script(r, op.transport.value)[UnitsSent(r, phase)]
    && (if InTransaction(phase) then op.transport == Some(Tls)
        else phase.StartTlsSend? ==> op.transport == Some(Plain))
    && ReportShape(r, op.reports, op.tls.replies, Resolved(r, phase), false)
    && (AfterDataDecision(phase) ==> MaySendData(r, op.reports))
    && (op.accepted.Some? <==> Closing(phase)) && (op.terminatorAdmitted <==> Closing(phase))
    && AcceptInv(r, op)
  }

  lemma CommandSent(r: SendRequest, op: Op, phase: Phase, bytes: seq<Byte>)
    requires Settled(r, op) && Follows(r, op, phase, bytes)
    ensures CurrentInv(r, Command(op, phase, bytes), 0)
  {
    hide Script, UnitsSent, RepliesSeen, UpTo, Feed, ReportShape, OtherInv, MaySendData;
    var next := Command(op, phase, bytes);
    var partial :| PartialUnit(r, op, partial)
      && Current(op).sent == UpTo(Script(r, op.transport.value), UnitsSent(r, op.phase)) + partial;
    PartialIsPrefix(r, op, partial);
    ReadingIsNotSending(op.phase);
    assert PartialUnit(r, next, []);
    assert Current(next).sent == UpTo(Script(r, op.transport.value), UnitsSent(r, phase)) + [];
  }

  lemma ReadingIsNotSending(phase: Phase)
    ensures Reading(phase) ==> !SendingCommand(phase) && !phase.DataBody?
  {
  }

  lemma CommandControl(r: SendRequest, op: Op, phase: Phase, bytes: seq<Byte>)
    requires Settled(r, op) && Follows(r, op, phase, bytes)
    ensures ControlInv(r, Command(op, phase, bytes))
  {
    UnitsAreNonempty(r, op.transport.value, UnitsSent(r, phase));
    hide Script, UnitsSent, RepliesSeen, CurrentInv, OtherInv, ReportShape, MaySendData;
  }

  /** After a reply, the next command in the script. */
  lemma CommandFollows(r: SendRequest, op: Op, phase: Phase, bytes: seq<Byte>)
    requires Settled(r, op) && Follows(r, op, phase, bytes)
    ensures Inv(r, Command(op, phase, bytes)) && Command(op, phase, bytes).outcome.None?
  {
    var next := Command(op, phase, bytes);
    CommandSent(r, op, phase, bytes);
    CommandControl(r, op, phase, bytes);
    hide Script, UnitsSent, RepliesSeen, CurrentInv, ControlInv, ReportShape, MaySendData, WireInv, UpTo, Feed;
    assert OtherInv(r, next) && ReportInv(r, next) && AcceptInv(r, next);
    assert ActiveInv(r, next, 0);
    ActiveIsWired(r, next, 0);
  }

  ghost predicate JustRead(r: SendRequest, op: Op, reply: Reply) {
    && ActiveInv(r, op, 1) && Reading(op.phase)
    && |Current(op).replies| > 0 && Current(op).replies[|Current(op).replies| - 1] == reply
  }

  lemma NoFinalAnswerYet(r: SendRequest, op: Op, reply: Reply)
    requires JustRead(r, op, reply) && op.phase.DataResult? && !Positive(reply.code) && !Negative(reply.code)
    ensures NoFinalAnswer(r, op)
  {
    hide SentInv, OtherInv, ReportInv;
  }

  lemma AwaitedOnlyInResult(r: SendRequest, op: Op)
    requires ActiveInv(r, op, 1)
    ensures op.accepted.None? && op.terminatorAdmitted ==> op.phase.DataResult?
  {
    hide CurrentInv, OtherInv, ReportInv;
  }

  /** A reply that ends the operation by failure. */
  lemma ReplyFails(r: SendRequest, op: Op, reply: Reply, reason: FailureReason)
    requires JustRead(r, op, reply)
    requires op.phase.DataResult? ==> !Positive(reply.code) && !Negative(reply.code)
    ensures Inv(r, Fail(op, reason))
  {
    hide ActiveInv, Endable, Inv, Fail, NoFinalAnswer;
    ActiveIsEndable(r, op, 1);
    if op.phase.DataResult? { NoFinalAnswerYet(r, op, reply); }
    AwaitedOnlyInResult(r, op);
    FailEnds(r, op, reason, Resolved(r, op.phase), op.phase.RcptReply?);
  }

  /** A reply that rejects the transaction. */
  lemma ReplyRejects(r: SendRequest, op: Op, reply: Reply, resolved: nat, unresolved: bool)
    requires Endable(r, op, resolved, unresolved) && Negative(reply.code)
    requires op.transport.Some? && (op.transport == Some(Plain) ==> op.tls == UNUSED)
    requires |Current(op).replies| > 0 && Current(op).replies[|Current(op).replies| - 1] == reply
    requires op.terminatorAdmitted ==> |op.tls.replies| == FinalReplyIndex(r) + 1
    ensures Inv(r, Reject(op, reply)) && Reject(op, reply).outcome.Some?
  {
    hide WireInv, ReportShape, DataJustified, TlsScript, UpTo, Join;
    var end := Reject(op, reply);
    assert WireInv(r, end) by { WireDependsOnChannels(r, op, end); }
    assert ReportShape(r, end.outcome.value.recipients, end.tls.replies, resolved, unresolved);
  }

  /** A negative reply rejects, in every phase but the last two. */
  lemma NegativeRejects(r: SendRequest, op: Op, reply: Reply)
    requires JustRead(r, op, reply) && Negative(reply.code)
    requires !op.phase.QuitReply?
    ensures Inv(r, Reject(op, reply))
  {
    ActiveIsEndable(r, op, 1);
    assert op.terminatorAdmitted ==> |op.tls.replies| == FinalReplyIndex(r) + 1;
    hide Endable, ControlInv, CurrentInv, Inv, Reject, ReportInv;
    ReplyRejects(r, op, reply, Resolved(r, op.phase), op.phase.RcptReply?);
  }

  /** The plain facts of a reading phase, for the case splits below. */
  lemma AbsorbedIsJustRead(r: SendRequest, op: Op, byte: Byte)
    requires ActiveInv(r, op, 0) && Reading(op.phase) && op.transport.Some? && Absorb(op, byte).1.Complete?
    ensures JustRead(r, Absorb(op, byte).0, Absorb(op, byte).1.reply) && Absorb(op, byte).0.transport.Some?
  {
    AbsorbKeeps(r, op, byte);
    hide ActiveInv, PushByte;
  }

  lemma JustReadPhase(r: SendRequest, op: Op, reply: Reply)
    requires JustRead(r, op, reply)
    ensures ControlInv(r, op) && ReportInv(r, op) && op.transport.Some?
  {
    hide CurrentInv, OtherInv, AcceptInv;
  }

  lemma JustReadFacts(r: SendRequest, op: Op, reply: Reply)
    requires JustRead(r, op, reply)
    ensures Ready(op) && op.request == Some(r)
    ensures op.phase.QuitReply? ==> op.accepted.Some?
    ensures op.phase.StartTlsReply? ==> op.transport == Some(Plain)
    ensures !(r.policy.RequiredStartTls? && op.transport == Some(Plain)) ==> op.transport == Some(Tls)
  {
    ActiveIsReady(r, op, 1);
    hide CurrentInv, OtherInv, ReportShape;
  }

  /** A reply outside the codes a phase expects. */
  lemma Unexpected(r: SendRequest, op: Op, reply: Reply, reason: FailureReason)
    requires JustRead(r, op, reply)
    ensures Negative(reply.code) && !op.phase.QuitReply? ==> Inv(r, Reject(op, reply))
    ensures (op.phase.DataResult? ==> !Positive(reply.code) && !Negative(reply.code)) ==> Inv(r, Fail(op, reason))
  {
    if Negative(reply.code) && !op.phase.QuitReply? { NegativeRejects(r, op, reply); }
    if op.phase.DataResult? ==> !Positive(reply.code) && !Negative(reply.code) {
      hide Inv, ActiveInv;
      ReplyFails(r, op, reply, reason);
    }
  }

  /** Before any RCPT: nothing accepted, nobody attempted. */
  lemma EarlyFacts(r: SendRequest, op: Op, reply: Reply)
    requires JustRead(r, op, reply) && (op.phase.Greeting? || op.phase.EhloReply? || op.phase.MailReply?)
    ensures Settled(r, op) && op.transport.Some? && 0 < |r.recipients|
    ensures op.accepted.None? && !op.terminatorAdmitted && AcceptInv(r, op)
    ensures ReportShape(r, op.reports, op.tls.replies, 0, false)
    ensures op.phase.MailReply? ==> op.transport == Some(Tls)
  {
    hide CurrentInv, OtherInv, ReportShape, Settled;
    ActiveIsSettled(r, op);
  }

  lemma EarlyFollows(r: SendRequest, op: Op, reply: Reply, phase: Phase, bytes: seq<Byte>)
    requires JustRead(r, op, reply)
    requires || (op.phase.Greeting? && phase == EhloSend)
             || (op.phase.EhloReply? && phase == StartTlsSend && op.transport == Some(Plain))
             || (op.phase.EhloReply? && phase == MailSend && op.transport == Some(Tls))
             || (op.phase.MailReply? && phase == RcptSend(0))
    requires op.transport.Some? && UnitsSent(r, phase) < |Script(r, op.transport.value)|
    requires bytes == Script(r, op.transport.value)[UnitsSent(r, phase)]
    ensures Inv(r, Command(op, phase, bytes))
  {
    hide JustRead, Settled, Inv, ReportShape, Script, Command;
    EarlyFacts(r, op, reply);
    CommandFollows(r, op, phase, bytes);
  }

  lemma GreetingAnswered(r: SendRequest, op: Op, reply: Reply)
    requires JustRead(r, op, reply) && op.phase.Greeting?
    ensures Inv(r, Command(op, EhloSend, EhloCommand(r)))
  {
    hide JustRead, Inv, EhloCommand, TlsScript, Command;
    EarlyFacts(r, op, reply);
    EhloIsFirst(r, op.transport.value);
    EarlyFollows(r, op, reply, EhloSend, EhloCommand(r));
  }

  lemma OnGreeting(r: SendRequest, op: Op, reply: Reply, upgrade: UpgradePoll)
    requires JustRead(r, op, reply) && op.phase.Greeting? && Ready(op)
    ensures Inv(r, HandleReply(op, reply, upgrade))
  {
    hide JustRead, Inv, Command, EhloCommand;
    JustReadFacts(r, op, reply);
    Unexpected(r, op, reply, Protocol);
    GreetingAnswered(r, op, reply);
  }

  lemma StartTlsFollows(r: SendRequest, op: Op, reply: Reply)
    requires JustRead(r, op, reply) && op.phase.EhloReply? && op.transport == Some(Plain)
    ensures Inv(r, Command(op, StartTlsSend, StartTlsCommand()))
  {
    hide JustRead, Inv, StartTlsCommand, EhloCommand, TlsScript, Command;
    EarlyFollows(r, op, reply, StartTlsSend, StartTlsCommand());
  }

  lemma MailFollows(r: SendRequest, op: Op, reply: Reply)
    requires JustRead(r, op, reply) && op.phase.EhloReply? && op.transport == Some(Tls)
    ensures Inv(r, Command(op, MailSend, MailCommand(r)))
  {
    hide JustRead, Inv, MailCommand, TlsScript, Command;
    EarlyFollows(r, op, reply, MailSend, MailCommand(r));
  }

  lemma OnEhlo(r: SendRequest, op: Op, reply: Reply, upgrade: UpgradePoll)
    requires JustRead(r, op, reply) && op.phase.EhloReply? && Ready(op)
    ensures Inv(r, HandleReply(op, reply, upgrade))
  {
    hide JustRead, Inv, Command, MailCommand, StartTlsCommand, Advertises;
    JustReadFacts(r, op, reply);
    Unexpected(r, op, reply, Protocol);
    Unexpected(r, op, reply, StartTlsUnavailable);
    if r.policy.RequiredStartTls? && op.transport == Some(Plain) {
      StartTlsFollows(r, op, reply);
    } else {
      MailFollows(r, op, reply);
    }
  }

  lemma FirstRcptFollows(r: SendRequest, op: Op, reply: Reply)
    requires JustRead(r, op, reply) && op.phase.MailReply?
    ensures 0 < |r.recipients| && Inv(r, Command(op, RcptSend(0), RcptCommand(r, 0)))
  {
    hide JustRead, Inv, RcptCommand, TlsScript, Command;
    EarlyFacts(r, op, reply);
    assert TlsScript(r)[2 + 0] == RcptCommand(r, 0);
    EarlyFollows(r, op, reply, RcptSend(0), RcptCommand(r, 0));
  }

  lemma OnMail(r: SendRequest, op: Op, reply: Reply, upgrade: UpgradePoll)
    requires JustRead(r, op, reply) && op.phase.MailReply? && Ready(op)
    ensures Inv(r, HandleReply(op, reply, upgrade))
  {
    hide JustRead, Inv, Command, RcptCommand;
    JustReadFacts(r, op, reply);
    Unexpected(r, op, reply, Protocol);
    FirstRcptFollows(r, op, reply);
  }

  lemma OnStartTls(r: SendRequest, op: Op, reply: Reply, upgrade: UpgradePoll)
    requires JustRead(r, op, reply) && op.phase.StartTlsReply? && Ready(op)
    ensures Inv(r, HandleReply(op, reply, upgrade))
  {
    hide JustRead, Inv;
    JustReadFacts(r, op, reply);
    Unexpected(r, op, reply, Protocol);
    if reply.code == 220 {
      if upgrade.UpgradeAdmitted? {
        UpgradeBegins(r, op, reply);
      } else {
        var reason := ReasonFromError(upgrade.kind);
        Unexpected(r, op, reply, reason);
        assert Fail(op.(transport := None), reason) == Fail(op, reason);
      }
    }
  }

  /** The plain dialogue is over: EHLO and STARTTLS sent, three replies read, the last of them 220. */
  lemma UpgradeBegins(r: SendRequest, op: Op, reply: Reply)
    requires JustRead(r, op, reply) && op.phase.StartTlsReply? && reply.code == 220
    ensures Inv(r, op.(transport := None, pending := Some(Tls), phase := Upgrade))
  {
    hide Feed, ReportShape, PlainScript, StartTlsCommand, EhloCommand, UpTo, MaySendData;
    var next := op.(transport := None, pending := Some(Tls), phase := Upgrade);
    var partial :| PartialUnit(r, op, partial) && op.plain.sent == UpTo(PlainScript(r), 2) + partial;
    assert op.plain.sent == UpTo(PlainScript(r), 2);
    assert ControlInv(r, next) && OtherInv(r, next);
    assert ReportInv(r, next) && AcceptInv(r, next);
    ActiveIsWired(r, next, 0);
  }

  lemma OnData(r: SendRequest, op: Op, reply: Reply, upgrade: UpgradePoll)
    requires JustRead(r, op, reply) && op.phase.DataReply? && Ready(op)
    ensures Inv(r, HandleReply(op, reply, upgrade))
  {
    hide JustRead, Inv, Stuff, Canonical;
    JustReadFacts(r, op, reply);
    Unexpected(r, op, reply, Protocol);
    BodyBegins(r, op, reply);
  }

  lemma BodyBegins(r: SendRequest, op: Op, reply: Reply)
    requires JustRead(r, op, reply) && op.phase.DataReply?
    ensures Inv(r, op.(data := Some(Stuff(Canonical(r.message), true)), phase := DataBody))
  {
    hide Feed, ReportShape, UpTo, Stuff, MaySendData;
    var next := op.(data := Some(Stuff(Canonical(r.message), true)), phase := DataBody);
    var partial :| PartialUnit(r, op, partial)
      && op.tls.sent == UpTo(TlsScript(r), UnitsSent(r, op.phase)) + partial;
    assert [] + BodyLeft(next) == Stuff(Canonical(r.message), true);
    assert PartialUnit(r, next, []);
    hide TlsScript;
    assert ControlInv(r, next) && OtherInv(r, next) && CurrentInv(r, next, 0);
    ActiveIsWired(r, next, 0);
  }

  lemma OnDataResult(r: SendRequest, op: Op, reply: Reply, upgrade: UpgradePoll)
    requires JustRead(r, op, reply) && op.phase.DataResult? && Ready(op)
    ensures Inv(r, HandleReply(op, reply, upgrade))
  {
    hide JustRead, Inv, Command, QuitCommand, Summary;
    JustReadFacts(r, op, reply);
    Unexpected(r, op, reply, Protocol);
    if Positive(reply.code) { FinalAnswer(r, op, reply); }
  }

  lemma FinalReply(r: SendRequest, op: Op, reply: Reply)
    requires JustRead(r, op, reply) && op.phase.DataResult?
    ensures |op.tls.replies| == FinalReplyIndex(r) + 1 && op.tls.replies[FinalReplyIndex(r)] == reply
    ensures op.terminatorAdmitted && op.accepted.None? && op.transport == Some(Tls)
    ensures ReportShape(r, op.reports, op.tls.replies, |r.recipients|, false) && MaySendData(r, op.reports)
    ensures Settled(r, op)
  {
    hide SentInv, OtherInv, ReportShape, MaySendData, Settled;
    ActiveIsSettled(r, op);
  }

  lemma FinalAnswer(r: SendRequest, op: Op, reply: Reply)
    requires JustRead(r, op, reply) && op.phase.DataResult? && Positive(reply.code)
    ensures Inv(r, Command(op.(accepted := Some(Summary(reply))), QuitSend, QuitCommand()))
  {
    hide JustRead, CurrentInv, Inv, Summary, QuitCommand, ReportShape, MaySendData, TlsScript, Command;
    var noted := op.(accepted := Some(Summary(reply)));
    FinalReply(r, op, reply);
    CurrentIgnores(r, op, noted, 1);
    CommandFollows(r, noted, QuitSend, QuitCommand());
  }

  lemma CurrentIgnores(r: SendRequest, a: Op, b: Op, extra: nat)
    requires CurrentInv(r, a, extra) && a.transport.Some?
    requires b.transport == a.transport && b.phase == a.phase && b.outbound == a.outbound && b.data == a.data
    requires b.plain == a.plain && b.tls == a.tls && b.parser == a.parser
    ensures CurrentInv(r, b, extra)
  {
    hide SentInv, Feed, RepliesSeen, Greetings;
    CurrentDependsOn(r, a, b, extra);
  }

  lemma OnQuit(r: SendRequest, op: Op, reply: Reply, upgrade: UpgradePoll)
    requires JustRead(r, op, reply) && op.phase.QuitReply? && Ready(op)
    ensures Inv(r, HandleReply(op, reply, upgrade))
  {
    hide JustRead, Inv;
    JustReadFacts(r, op, reply);
    Unexpected(r, op, reply, Protocol);
    QuitAnswered(r, op, reply);
  }

  lemma QuitAnswered(r: SendRequest, op: Op, reply: Reply)
    requires JustRead(r, op, reply) && op.phase.QuitReply?
    ensures Inv(r, op.(phase := Finish))
  {
    hide Feed, ReportShape, UpTo, TlsScript, MaySendData;
    var next := op.(phase := Finish);
    var partial :| PartialUnit(r, op, partial)
      && op.tls.sent == UpTo(TlsScript(r), UnitsSent(r, op.phase)) + partial;
    assert PartialUnit(r, next, []);
    assert ControlInv(r, next) && OtherInv(r, next) && CurrentInv(r, next, 0);
    ActiveIsWired(r, next, 0);
  }

  /** The status the reply to RCPT gives its recipient. */
  function StatusFrom(reply: Reply): (status: RecipientStatus) {
    if Positive(reply.code) then AcceptedForTransaction(Summary(reply)) else Refused(Summary(reply))
  }

  function Noted(op: Op, index: nat, reply: Reply): (r: Op)
    requires index < |op.reports|
  {
    op.(reports := op.reports[index := op.reports[index].(status := StatusFrom(reply))])
  }

  lemma NotedShape(r: SendRequest, op: Op, reply: Reply)
    requires JustRead(r, op, reply) && op.phase.RcptReply? && (Positive(reply.code) || Negative(reply.code))
    requires op.phase.index < |op.reports|
    ensures ReportShape(r, Noted(op, op.phase.index, reply).reports, op.tls.replies, op.phase.index + 1, false)
  {
    hide SentInv, Feed, Summary, OtherInv;
    var index, noted := op.phase.index, Noted(op, op.phase.index, reply);
    assert RcptReplyIndex(r, index) == |op.tls.replies| - 1;
    assert Resolves(noted.reports[index].status, op.tls.replies[RcptReplyIndex(r, index)]);
    assert forall i :: 0 <= i < |op.reports| && i != index ==> noted.reports[i] == op.reports[i];
  }

  lemma RcptFacts(r: SendRequest, op: Op, reply: Reply)
    requires JustRead(r, op, reply) && op.phase.RcptReply?
    ensures op.outcome.None? && op.accepted.None? && !op.terminatorAdmitted && op.transport == Some(Tls)
    ensures op.phase.index < |r.recipients|
  {
    hide CurrentInv, OtherInv, ReportInv;
  }

  /** Before DATA any report is justified. */
  lemma RcptJustified(r: SendRequest, op: Op, reply: Reply, reports: seq<RecipientReport>)
    requires JustRead(r, op, reply) && op.phase.RcptReply?
    ensures DataJustified(r, op.tls, reports) && !DataSent(r, op.tls) && WireInv(r, op)
  {
    hide ActiveInv, WireInv, DataSent, MaySendData, TlsScript, UpTo;
    RcptFacts(r, op, reply);
    ActiveTellsData(r, op, 1);
    ActiveIsWired(r, op, 1);
  }

  lemma NotedEndable(r: SendRequest, op: Op, reply: Reply)
    requires JustRead(r, op, reply) && op.phase.RcptReply? && (Positive(reply.code) || Negative(reply.code))
    requires op.phase.index < |op.reports|
    ensures Endable(r, Noted(op, op.phase.index, reply), op.phase.index + 1, false)
  {
    hide JustRead, ReportShape, InStep, Gate, DataSent, DataJustified, StatusFrom;
    var noted := Noted(op, op.phase.index, reply);
    RcptFacts(r, op, reply);
    NotedShape(r, op, reply);
    RcptJustified(r, op, reply, noted.reports);
  }

  lemma NotedSettled(r: SendRequest, op: Op, reply: Reply)
    requires JustRead(r, op, reply) && op.phase.RcptReply? && op.phase.index < |op.reports|
    ensures Settled(r, Noted(op, op.phase.index, reply))
  {
    hide CurrentInv, ActiveInv, StatusFrom;
    ActiveIsSettled(r, op);
    CurrentIgnores(r, op, Noted(op, op.phase.index, reply), 1);
  }

  lemma NotedFollows(r: SendRequest, op: Op, reply: Reply, phase: Phase, bytes: seq<Byte>)
    requires JustRead(r, op, reply) && op.phase.RcptReply? && (Positive(reply.code) || Negative(reply.code))
    requires op.phase.index < |op.reports|
    requires if op.phase.index + 1 < |r.recipients| then phase == RcptSend(op.phase.index + 1)
             else phase == DataSend && MaySendData(r, Noted(op, op.phase.index, reply).reports)
    requires UnitsSent(r, phase) < |TlsScript(r)| && bytes == TlsScript(r)[UnitsSent(r, phase)]
    ensures Inv(r, Command(Noted(op, op.phase.index, reply), phase, bytes))
  {
    hide JustRead, Settled, Inv, ReportShape, TlsScript, MaySendData, StatusFrom, Command;
    RcptFacts(r, op, reply);
    NotedSettled(r, op, reply);
    NotedShape(r, op, reply);
    CommandFollows(r, Noted(op, op.phase.index, reply), phase, bytes);
  }

  lemma NextRcptFollows(r: SendRequest, op: Op, reply: Reply)
    requires JustRead(r, op, reply) && op.phase.RcptReply? && (Positive(reply.code) || Negative(reply.code))
    requires op.phase.index + 1 < |r.recipients| && |op.reports| == |r.recipients|
    ensures var index := op.phase.index;
            Inv(r, Command(Noted(op, index, reply), RcptSend(index + 1), RcptCommand(r, index + 1)))
  {
    hide JustRead, Inv, TlsScript, StatusFrom, RcptCommand, Command;
    var index := op.phase.index;
    assert TlsScript(r)[2 + (index + 1)] == RcptCommand(r, index + 1);
    NotedFollows(r, op, reply, RcptSend(index + 1), RcptCommand(r, index + 1));
  }

  /** All recipients resolved, one accepted and, if all are required, none refused: DATA may go out. */
  lemma DataFollows(r: SendRequest, op: Op, reply: Reply)
    requires JustRead(r, op, reply) && op.phase.RcptReply? && (Positive(reply.code) || Negative(reply.code))
    requires op.phase.index + 1 == |r.recipients| == |op.reports|
    requires AnyAccepted(Noted(op, op.phase.index, reply).reports)
    requires r.recipientPolicy.RequireAllRecipients? ==> !AnyRefused(Noted(op, op.phase.index, reply).reports)
    ensures Inv(r, Command(Noted(op, op.phase.index, reply), DataSend, DataCommand()))
  {
    hide JustRead, Inv, TlsScript, StatusFrom, DataCommand, Command, MaySendData, ReportShape;
    NotedShape(r, op, reply);
    AllAccepted(r, Noted(op, op.phase.index, reply).reports, op.tls.replies);
    NotedFollows(r, op, reply, DataSend, DataCommand());
  }

  lemma AllAccepted(r: SendRequest, reports: seq<RecipientReport>, replies: seq<Reply>)
    requires ReportShape(r, reports, replies, |r.recipients|, false) && AnyAccepted(reports)
    requires r.recipientPolicy.RequireAllRecipients? ==> !AnyRefused(reports)
    ensures MaySendData(r, reports)
  {
    hide Summary;
  }

  lemma NotedFails(r: SendRequest, op: Op, reply: Reply, reason: FailureReason)
    requires JustRead(r, op, reply) && op.phase.RcptReply? && (Positive(reply.code) || Negative(reply.code))
    requires op.phase.index < |op.reports|
    ensures Inv(r, Fail(Noted(op, op.phase.index, reply), reason))
  {
    hide JustRead, Endable, Inv, Fail, StatusFrom;
    RcptFacts(r, op, reply);
    NotedEndable(r, op, reply);
    FailEnds(r, Noted(op, op.phase.index, reply), reason, op.phase.index + 1, false);
  }

  lemma NotedRejects(r: SendRequest, op: Op, reply: Reply)
    requires JustRead(r, op, reply) && op.phase.RcptReply? && Negative(reply.code)
    requires op.phase.index < |op.reports|
    ensures Inv(r, Reject(Noted(op, op.phase.index, reply), reply))
  {
    hide ActiveInv, Endable, Inv, Reject, StatusFrom;
    RcptFacts(r, op, reply);
    NotedEndable(r, op, reply);
    ReplyRejects(r, Noted(op, op.phase.index, reply), reply, op.phase.index + 1, false);
  }

  lemma OnRcpt(r: SendRequest, op: Op, reply: Reply, upgrade: UpgradePoll)
    requires JustRead(r, op, reply) && op.phase.RcptReply? && Ready(op)
    ensures Inv(r, HandleReply(op, reply, upgrade))
  {
    hide JustRead, Inv, Command, RcptCommand, DataCommand, Summary, AnyAccepted, AnyRefused;
    JustReadFacts(r, op, reply);
    Unexpected(r, op, reply, Protocol);
    if Positive(reply.code) || Negative(reply.code) {
      var noted := Noted(op, op.phase.index, reply);
      if reply.code == 421 {
        NotedRejects(r, op, reply);
      } else if op.phase.index + 1 < |r.recipients| {
        NextRcptFollows(r, op, reply);
      } else if !AnyAccepted(noted.reports) {
        NotedFails(r, op, reply, NoAcceptedRecipients);
      } else if AnyRefused(noted.reports) && r.recipientPolicy.RequireAllRecipients? {
        NotedFails(r, op, reply, RecipientsRejected);
      } else {
        DataFollows(r, op, reply);
      }
    }
  }

  lemma ReplyStep(r: SendRequest, op: Op, reply: Reply, upgrade: UpgradePoll)
    requires JustRead(r, op, reply)
    ensures Ready(op) && Inv(r, HandleReply(op, reply, upgrade))
  {
    hide Inv, HandleReply, ActiveInv;
    JustReadFacts(r, op, reply);
    match op.phase
    case Greeting => OnGreeting(r, op, reply, upgrade);
    case EhloReply => OnEhlo(r, op, reply, upgrade);
    case StartTlsReply => OnStartTls(r, op, reply, upgrade);
    case MailReply => OnMail(r, op, reply, upgrade);
    case RcptReply(_) => OnRcpt(r, op, reply, upgrade);
    case DataReply => OnData(r, op, reply, upgrade);
    case DataResult => OnDataResult(r, op, reply, upgrade);
    case QuitReply => OnQuit(r, op, reply, upgrade);
  }

  lemma ActiveHasTransport(r: SendRequest, op: Op)
    requires ActiveInv(r, op, 0) && !op.phase.Connect? && !op.phase.Upgrade?
    ensures op.transport.Some? && op.outcome.None? && Inv(r, op)
  {
    ActiveIsWired(r, op, 0);
    hide CurrentInv, OtherInv, ReportInv, WireInv;
  }

  /** The reason behind an answer that ends reading. */
  function ReadFailure(answer: ReadPoll): (reason: FailureReason) {
    match answer
    case ReadFailed(kind) => ReasonFromError(kind)
    case ReadCancelled => Cancelled
    case UnknownRead => Protocol
    case _ => Transport
  }

  lemma OctetStep(r: SendRequest, op: Op, byte: Byte, upgrade: UpgradePoll)
    requires ActiveInv(r, op, 0) && Reading(op.phase) && Ready(op)
    ensures Inv(r, AdvanceRead(op, Octet(byte), upgrade).0)
  {
    hide ActiveInv, Inv, Fail, HandleReply, PushByte, Ready;
    ActiveHasTransport(r, op);
    AbsorbKeeps(r, op, byte);
    var (next, progress) := Absorb(op, byte);
    match progress {
      case More => ActiveHasTransport(r, next);
      case Complete(reply) => ReplyStep(r, next, reply, upgrade);
      case Malformed => AbsorbMalformed(r, op, byte);
    }
  }

  lemma ReadStep(r: SendRequest, op: Op, answer: ReadPoll, upgrade: UpgradePoll)
    requires ActiveInv(r, op, 0) && Reading(op.phase) && Ready(op)
    ensures Inv(r, AdvanceRead(op, answer, upgrade).0)
  {
    hide ActiveInv, Inv, Fail, HandleReply, PushByte, Ready;
    ActiveHasTransport(r, op);
    if answer.Octet? {
      OctetStep(r, op, answer.byte, upgrade);
    } else if !answer.NoData? {
      ActiveFails(r, op, ReadFailure(answer));
    }
  }

  // ---- sending ----

  /**
   * One offer: what was admitted is the next octets of the unit and nothing else; a step that makes
   * progress lowers the pair (octets left, limit), so shrinking ends.
   */
  lemma OutboundKeeps(o: Outbound, limit: nat, answer: SendPoll)
    requires OutboundOk(o) && limit > 0
    ensures var (o', limit', admitted, step) := OutboundStep(o, limit, answer);
            && 0 < limit' <= limit && o'.bytes == o.bytes
            && o.offset <= o'.offset <= |o.bytes| && admitted == o.bytes[o.offset..o'.offset]
            && (step.Blocked? ==> OutboundOk(o') && o'.offset == o.offset && limit' == limit)
            && (step.Progressed? ==> OutboundOk(o') && step.count == |admitted|
                                     && (o'.offset > o.offset || (o'.offset == o.offset && limit' < limit)))
            && (step.Done? ==> o'.offset == |o.bytes| > o.offset && step.count == |admitted|)
            && (step.Broken? ==> admitted == [])
  {
  }

  lemma AbsorbIsReady(op: Op, byte: Byte)
    requires Ready(op) && op.transport.Some?
    ensures var next := Absorb(op, byte).0;
            Ready(next) && next.phase == op.phase && next.outcome.None? && next.sendLimit == op.sendLimit
    ensures op.outcome.None?
  {
    hide PushByte;
  }

  lemma SendKeepsReady(op: Op, answer: SendPoll)
    requires Ready(op)
    ensures var next := SendSome(op, answer).0;
            && Ready(next.(outbound := None)) && next.outcome.None? && next.phase == op.phase
            && next.plain.replies == op.plain.replies && next.tls.replies == op.tls.replies
            && next.plain.read == op.plain.read && next.tls.read == op.tls.read
  {
    hide OutboundStep;
  }

  ghost predicate SendingUnit(r: SendRequest, op: Op) {
    ActiveInv(r, op, 0) && SendingCommand(op.phase)
  }

  lemma SendingFacts(r: SendRequest, op: Op)
    requires SendingUnit(r, op)
    ensures Ready(op) && op.outbound.Some? && OutboundOk(op.outbound.value) && op.sendLimit > 0 && op.transport.Some?
    ensures UnitsSent(r, op.phase) < |Script(r, op.transport.value)|
    ensures op.outbound.value.bytes == Script(r, op.transport.value)[UnitsSent(r, op.phase)]
    ensures Current(op).sent == UpTo(Script(r, op.transport.value), UnitsSent(r, op.phase))
                              + op.outbound.value.bytes[..op.outbound.value.offset]
  {
    hide Script, UnitsSent, UpTo, Feed, OtherInv, ReportShape, RepliesSeen, MaySendData;
    ActiveIsReady(r, op, 0);
  }

  lemma SendSomeSent(r: SendRequest, op: Op, answer: SendPoll)
    requires SendingUnit(r, op) && Ready(op)
    ensures var (next, step) := SendSome(op, answer);
            && next.outbound.Some? && next.outbound.value.bytes == op.outbound.value.bytes
            && next.outbound.value.offset <= |next.outbound.value.bytes|
            && next.transport == op.transport && next.transport.Some?
            && Current(next) == Current(op).(sent := Current(next).sent)
            && Current(next).sent == UpTo(Script(r, op.transport.value), UnitsSent(r, op.phase))
                                   + next.outbound.value.bytes[..next.outbound.value.offset]
            && next.sendLimit > 0
            && (step.Blocked? || step.Progressed? ==> OutboundOk(next.outbound.value))
            && (step.Done? ==> next.outbound.value.offset == |next.outbound.value.bytes|)
            && (step.Broken? ==> Current(next) == Current(op))
  {
    hide SendingUnit, Script, UnitsSent, UpTo, OutboundStep, OutboundOk;
    SendingFacts(r, op);
    var o := op.outbound.value;
    OutboundKeeps(o, op.sendLimit, answer);
    var o' := OutboundStep(o, op.sendLimit, answer).0;
    assert o.bytes[..o.offset] + o.bytes[o.offset..o'.offset] == o.bytes[..o'.offset];
  }

  /** A unit still in flight. */
  lemma SendContinues(r: SendRequest, op: Op, answer: SendPoll)
    requires SendingUnit(r, op) && Ready(op)
    requires SendSome(op, answer).1.Blocked? || SendSome(op, answer).1.Progressed?
    ensures ActiveInv(r, SendSome(op, answer).0, 0)
  {
    hide Script, UnitsSent, UpTo, Feed, OutboundStep, ReportShape, RepliesSeen, MaySendData, OutboundOk;
    var next := SendSome(op, answer).0;
    SendingFacts(r, op);
    SendSomeSent(r, op, answer);
    assert PartialUnit(r, next, next.outbound.value.bytes[..next.outbound.value.offset]);
    assert SentInv(r, next);
    assert CurrentInv(r, next, 0) && ControlInv(r, next);
  }

  /** The phase that waits for the answer to a unit. */
  function Answering(phase: Phase): (r: Phase)
    requires SendingCommand(phase)
  {
    match phase
    case EhloSend => EhloReply
    case StartTlsSend => StartTlsReply
    case MailSend => MailReply
    case RcptSend(index) => RcptReply(index)
    case DataSend => DataReply
    case TerminatorSend => DataResult
    case QuitSend => QuitReply
  }

  lemma AnsweringCounts(r: SendRequest, phase: Phase)
    requires SendingCommand(phase)
    ensures Reading(Answering(phase)) && UnitsSent(r, Answering(phase)) == UnitsSent(r, phase) + 1
    ensures RepliesSeen(r, Answering(phase)) == RepliesSeen(r, phase)
    ensures InTransaction(Answering(phase)) == InTransaction(phase)
  {
  }

  lemma UnitDone(r: SendRequest, op: Op, done: Op)
    requires SendingUnit(r, op) && op.transport.Some? && done.transport == op.transport
    requires done.phase == Answering(op.phase) && done.outbound.None? && done.parser == op.parser
    requires UnitsSent(r, op.phase) < |Script(r, op.transport.value)|
    requires Current(done).replies == Current(op).replies && Current(done).read == Current(op).read
    requires Current(done).sent == UpTo(Script(r, op.transport.value), UnitsSent(r, op.phase) + 1)
    ensures CurrentInv(r, done, 0)
  {
    hide Script, UnitsSent, UpTo, Feed, ReportInv, OtherInv, RepliesSeen, ControlInv;
    AnsweringCounts(r, op.phase);
    ReadingIsNotSending(done.phase);
    assert PartialUnit(r, done, []);
    assert Current(done).sent == UpTo(Script(r, op.transport.value), UnitsSent(r, done.phase)) + [];
  }

  lemma DoneReports(r: SendRequest, op: Op, done: Op)
    requires SendingUnit(r, op) && Ready(op)
    requires done.phase == Answering(op.phase) && done.tls.replies == op.tls.replies
    requires done.reports == if op.phase.RcptSend?
                             then op.reports[op.phase.index := op.reports[op.phase.index].(status := Unresolved)]
                             else op.reports
    ensures ReportInv(r, done)
  {
    hide CurrentInv, OtherInv, Resolves, AnyAccepted;
  }

  lemma DoneControl(r: SendRequest, op: Op, done: Op)
    requires SendingUnit(r, op) && op.transport.Some?
    requires done == op.(phase := Answering(op.phase), outbound := None, plain := done.plain, tls := done.tls,
                         sendLimit := done.sendLimit, reports := done.reports,
                         terminatorAdmitted := op.terminatorAdmitted || op.phase.TerminatorSend?)
    requires done.sendLimit > 0
    ensures ControlInv(r, done)
  {
    hide CurrentInv, OtherInv, ReportInv;
  }

  /** What `after_command` does in a sending phase. */
  lemma AfterCommandIs(op: Op)
    requires Ready(op) && SendingCommand(op.phase)
    ensures AfterCommand(op) == op.(phase := Answering(op.phase),
      reports := if op.phase.RcptSend?
                 then op.reports[op.phase.index := op.reports[op.phase.index].(status := Unresolved)] else op.reports,
      terminatorAdmitted := op.terminatorAdmitted || op.phase.TerminatorSend?)
  {
  }

  lemma DoneOther(r: SendRequest, op: Op, done: Op)
    requires ActiveInv(r, op, 0) && SendingCommand(op.phase) && op.transport.Some? && done.transport == op.transport
    requires done.phase == Answering(op.phase) && done.accepted == op.accepted
    requires if op.transport == Some(Plain) then done.tls == op.tls && done.plain.replies == op.plain.replies
                                               && done.plain.read == op.plain.read
             else done.plain == op.plain && done.tls.replies == op.tls.replies
    ensures OtherInv(r, done) && AcceptInv(r, done)
  {
    hide Feed, SentInv, ReportInv, UpTo;
  }

  lemma CompletedIsActive(r: SendRequest, op: Op, next: Op, done: Op)
    requires SendingUnit(r, op) && op.transport.Some? && Ready(op)
    requires next == op.(outbound := next.outbound, sendLimit := next.sendLimit, plain := next.plain, tls := next.tls)
    requires if op.transport == Some(Plain) then next.tls == op.tls else next.plain == op.plain
    requires Current(next) == Current(op).(sent := Current(next).sent) && next.sendLimit > 0
    requires UnitsSent(r, op.phase) < |Script(r, op.transport.value)|
    requires Current(next).sent == UpTo(Script(r, op.transport.value), UnitsSent(r, op.phase) + 1)
    requires Ready(next.(outbound := None)) && done == AfterCommand(next.(outbound := None))
    ensures ActiveInv(r, done, 0)
  {
    hide Script, UnitsSent, AfterCommand, ActiveInv, UpTo, Ready;
    assert SendingCommand(op.phase) && op.phase == next.phase;
    AfterCommandIs(next.(outbound := None));
    UnitDone(r, op, done);
    DoneReports(r, op, done);
    DoneControl(r, op, done);
    DoneOther(r, op, done);
    MakeActive(r, done);
  }

  lemma MakeActive(r: SendRequest, op: Op)
    requires ControlInv(r, op) && CurrentInv(r, op, 0) && OtherInv(r, op) && ReportInv(r, op) && AcceptInv(r, op)
    ensures ActiveInv(r, op, 0)
  {
  }

  /** A unit fully admitted: its answer is awaited. */
  lemma SendCompletes(r: SendRequest, op: Op, answer: SendPoll)
    requires SendingUnit(r, op) && Ready(op) && SendSome(op, answer).1.Done?
    ensures Inv(r, AfterCommand(SendSome(op, answer).0.(outbound := None)))
  {
    hide Script, UnitsSent, OutboundStep, ActiveInv, OutboundOk, Inv, UpTo, AfterCommand;
    var next := SendSome(op, answer).0;
    SendingFacts(r, op);
    SendSomeSent(r, op, answer);
    UpToNext(Script(r, op.transport.value), UnitsSent(r, op.phase));
    assert next.outbound.value.bytes[..next.outbound.value.offset] == next.outbound.value.bytes;
    CompletedIsActive(r, op, next, AfterCommand(next.(outbound := None)));
    StaysActive(r, AfterCommand(next.(outbound := None)));
  }

  lemma UpToNext(units: seq<seq<Byte>>, k: nat)
    requires k < |units|
    ensures UpTo(units, k + 1) == UpTo(units, k) + units[k]
  {
  }

  /** A transport that breaks ends the operation where it stood. */
  lemma SendBreaks(r: SendRequest, op: Op, next: Op, reason: FailureReason)
    requires ActiveInv(r, op, 0)
    requires next == op.(outbound := next.outbound, data := next.data, sendLimit := next.sendLimit)
    ensures Inv(r, Fail(next, reason))
  {
    hide ActiveInv, Endable, WireInv, Inv, Fail, NoFinalAnswer;
    ActiveIsEndable(r, op, 0);
    EndableWired(r, op, Resolved(r, op.phase), op.phase.RcptReply?);
    WireDependsOnChannels(r, op, next);
    EndableReads(r, op, next, Resolved(r, op.phase), op.phase.RcptReply?);
    FailEnds(r, next, reason, Resolved(r, op.phase), op.phase.RcptReply?);
  }

  lemma EndableWired(r: SendRequest, op: Op, resolved: nat, unresolved: bool)
    requires Endable(r, op, resolved, unresolved)
    ensures WireInv(r, op) && op.outcome.None?
  {
    hide WireInv;
  }

  lemma CommandStep(r: SendRequest, op: Op, answer: SendPoll)
    requires SendingUnit(r, op) && Ready(op)
    ensures Inv(r, AdvanceSend(op, answer).0)
  {
    hide Inv, Fail, AfterCommand, OutboundStep, ActiveInv;
    SendingFacts(r, op);
    SendSomeSent(r, op, answer);
    var (next, step) := SendSome(op, answer);
    match step
    case Blocked => SendContinues(r, op, answer); StaysActive(r, next);
    case Progressed(_) => SendContinues(r, op, answer); StaysActive(r, next);
    case Done(_) => SendCompletes(r, op, answer);
    case Broken(reason) => SendBreaks(r, op, next, reason);
  }

  lemma StaysActive(r: SendRequest, op: Op)
    requires ActiveInv(r, op, 0)
    ensures Inv(r, op)
  {
    hide CurrentInv, OtherInv, ReportInv, WireInv;
    ActiveIsWired(r, op, 0);
  }

  // ---- the message body ----

  ghost predicate InBody(r: SendRequest, op: Op) { ActiveInv(r, op, 0) && op.phase.DataBody? }

  /** Where the body stands: `partial` admitted, the rest in flight or not yet encoded. */
  ghost predicate BodyAt(r: SendRequest, op: Op, partial: seq<Byte>) {
    && partial + BodyLeft(op) == TlsScript(r)[|r.recipients| + 3]
    && op.tls.sent == UpTo(TlsScript(r), |r.recipients| + 3) + partial
  }

  lemma BodyFacts(r: SendRequest, op: Op) returns (partial: seq<Byte>)
    requires InBody(r, op)
    ensures BodyAt(r, op, partial) && Ready(op)
    ensures op.transport == Some(Tls) && op.data.Some? && op.sendLimit > 0
    ensures op.outbound.Some? ==> OutboundOk(op.outbound.value)
  {
    hide TlsScript, UpTo, Feed, OtherInv, ReportShape, MaySendData, BodyLeft;
    ActiveIsReady(r, op, 0);
    partial :| PartialUnit(r, op, partial)
      && op.tls.sent == UpTo(TlsScript(r), UnitsSent(r, op.phase)) + partial;
  }

  /** The body goes on: same phase, same replies, more of the body admitted. */
  lemma BodyGoesOn(r: SendRequest, op: Op, next: Op, partial: seq<Byte>)
    requires InBody(r, op) && BodyAt(r, next, partial)
    requires next == op.(outbound := next.outbound, data := next.data, sendLimit := next.sendLimit, tls := next.tls)
    requires next.tls == op.tls.(sent := next.tls.sent) && next.sendLimit > 0 && next.data.Some?
    requires next.outbound.Some? ==> OutboundOk(next.outbound.value)
    ensures InBody(r, next)
  {
    hide TlsScript, UpTo, Feed, ReportShape, MaySendData, BodyLeft, OutboundOk;
    assert PartialUnit(r, next, partial);
    assert SentInv(r, next) && CurrentInv(r, next, 0) && ControlInv(r, next) && OtherInv(r, next);
  }

  lemma StagedKeeps(r: SendRequest, op: Op, limit: nat)
    requires InBody(r, op) && limit > 0 && op.data.Some? && (op.outbound.None? ==> op.data.value != [])
    ensures InBody(r, StageChunk(op, limit)) && StageChunk(op, limit).outbound.Some?
    ensures op.outbound.None? ==> |StageChunk(op, limit).outbound.value.bytes| <= limit
                                  && StageChunk(op, limit).outbound.value.offset == 0
    ensures StageChunk(op, limit).tls == op.tls && StageChunk(op, limit).outcome == op.outcome
  {
    hide ActiveInv, TlsScript, UpTo;
    var partial := BodyFacts(r, op);
    var staged := StageChunk(op, limit);
    if op.outbound.None? {
      var count := Min(limit, |op.data.value|);
      assert op.data.value[..count] + op.data.value[count..] == op.data.value;
      assert BodyLeft(staged) == BodyLeft(op);
    }
    BodyGoesOn(r, op, staged, partial);
  }

  /** The effect of one offer on the operation. */
  ghost predicate Offered(op: Op, next: Op, step: SendStep) {
    && op.outbound.Some? && next.outbound.Some? && op.transport == Some(Tls)
    && next == op.(outbound := next.outbound, sendLimit := next.sendLimit, tls := next.tls)
    && var o, o' := op.outbound.value, next.outbound.value;
    && o'.bytes == o.bytes && o.offset <= o'.offset <= |o.bytes|
    && next.tls == op.tls.(sent := op.tls.sent + o.bytes[o.offset..o'.offset])
    && 0 < next.sendLimit
    && (step.Blocked? || step.Progressed? ==> OutboundOk(o'))
    && (step.Done? ==> o'.offset == |o.bytes|)
    && (step.Broken? || step.Blocked? ==> o'.offset == o.offset)
    && (step.Progressed? || step.Done? ==> step.count == o'.offset - o.offset)
  }

  lemma OfferedByStep(op: Op, answer: SendPoll)
    requires Ready(op) && op.outbound.Some? && OutboundOk(op.outbound.value) && op.sendLimit > 0
    requires op.transport == Some(Tls)
    ensures Offered(op, SendSome(op, answer).0, SendSome(op, answer).1)
  {
    hide Ready, OutboundStep, OutboundOk;
    OutboundKeeps(op.outbound.value, op.sendLimit, answer);
  }

  function BodyData(op: Op): (r: seq<Byte>) { if op.data.Some? then op.data.value else [] }

  lemma Regroup(a: seq<Byte>, b: seq<Byte>, c: seq<Byte>, d: seq<Byte>)
    ensures a + ((b + c) + d) == (a + b) + (c + d) && a + b + c == a + (b + c)
  {
  }

  lemma BodyMoves(r: SendRequest, op: Op, next: Op, step: SendStep, partial: seq<Byte>)
    requires BodyAt(r, op, partial) && Offered(op, next, step)
    ensures var o := op.outbound.value;
            BodyAt(r, next, partial + o.bytes[o.offset..next.outbound.value.offset])
  {
    hide TlsScript, UpTo, OutboundOk;
    var o, o' := op.outbound.value, next.outbound.value;
    var admitted, left, data := o.bytes[o.offset..o'.offset], o.bytes[o'.offset..], BodyData(op);
    assert o.bytes[o.offset..] == admitted + left;
    assert BodyLeft(op) == (admitted + left) + data && BodyLeft(next) == left + data;
    Regroup(partial, admitted, left, data);
    Regroup(UpTo(TlsScript(r), |r.recipients| + 3), partial, admitted, []);
    assert next.tls.sent == UpTo(TlsScript(r), |r.recipients| + 3) + partial + admitted;
  }

  lemma BodySends(r: SendRequest, op: Op, answer: SendPoll)
    requires InBody(r, op) && op.outbound.Some? && Ready(op)
    ensures var (next, step) := SendSome(op, answer);
            && Offered(op, next, step)
            && (step.Blocked? || step.Progressed? ==> InBody(r, next))
            && (step.Done? ==> InBody(r, next.(outbound := None)))
  {
    hide ActiveInv, SendSome, OutboundOk, Ready, BodyAt;
    var partial := BodyFacts(r, op);
    OfferedByStep(op, answer);
    var (next, step) := SendSome(op, answer);
    BodyMoves(r, op, next, step, partial);
    var o := op.outbound.value;
    var admitted := o.bytes[o.offset..next.outbound.value.offset];
    if step.Blocked? || step.Progressed? {
      BodyGoesOn(r, op, next, partial + admitted);
    } else if step.Done? {
      BodyDropsEmpty(r, next, partial + admitted);
      BodyGoesOn(r, op, next.(outbound := None), partial + admitted);
    }
  }

  lemma BodyDropsEmpty(r: SendRequest, op: Op, partial: seq<Byte>)
    requires BodyAt(r, op, partial) && op.outbound.Some? && op.outbound.value.offset == |op.outbound.value.bytes|
    ensures BodyAt(r, op.(outbound := None), partial)
  {
    hide TlsScript, UpTo;
    assert BodyLeft(op.(outbound := None)) == BodyLeft(op);
  }

  lemma TerminatorFollows(r: SendRequest, op: Op)
    requires InBody(r, op) && op.outbound.None? && op.data == Some([])
    ensures ActiveInv(r, Command(op, TerminatorSend, TERMINATOR), 0)
  {
    hide UpTo, Feed, ReportShape, MaySendData, TlsScript;
    var partial := BodyFacts(r, op);
    var next := Command(op, TerminatorSend, TERMINATOR);
    UpToNext(TlsScript(r), |r.recipients| + 3);
    assert BodyLeft(op) == [] && partial + [] == partial;
    assert next.tls.sent == UpTo(TlsScript(r), |r.recipients| + 4) + [];
    assert PartialUnit(r, next, []);
    assert SentInv(r, next) && CurrentInv(r, next, 0) && ControlInv(r, next) && OtherInv(r, next) && ReportInv(r, next);
  }

  lemma BodyStep(r: SendRequest, op: Op, dataBytes: nat, answer: SendPoll)
    requires InBody(r, op) && Ready(op)
    ensures Inv(r, AdvanceBody(op, dataBytes, answer).0)
  {
    hide ActiveInv, Inv, Fail, OutboundStep, StageChunk, SendSome, Command;
    var _ := BodyFacts(r, op);
    if dataBytes >= MAX_DATA_BYTES_PER_POLL {
      StaysActive(r, op);
    } else if op.outbound.None? && op.data.value == [] {
      TerminatorFollows(r, op);
      StaysActive(r, Command(op, TerminatorSend, TERMINATOR));
    } else {
      var limit := Min(MAX_STAGING, MAX_DATA_BYTES_PER_POLL - dataBytes);
      StagedKeeps(r, op, limit);
      var staged := StageChunk(op, limit);
      var _ := BodyFacts(r, staged);
      BodySends(r, staged, answer);
      var (next, step) := SendSome(staged, answer);
      match step
      case Blocked => StaysActive(r, next);
      case Progressed(_) => StaysActive(r, next);
      case Done(_) => StaysActive(r, next.(outbound := None));
      case Broken(reason) =>
        assert next.tls.sent == staged.tls.sent;
        SendBreaks(r, staged, next, reason);
    }
  }

  // ---- every step ----

  lemma FinishStep(r: SendRequest, op: Op, dataBytes: nat, world: World)
    requires ActiveInv(r, op, 0) && op.phase.Finish? && Ready(op)
    ensures Inv(r, Advance(op, dataBytes, world).op)
  {
    hide ActiveInv, Inv, Fail;
    StaysActive(r, op);
    ActiveFails(r, op, Transport);
    ActiveFails(r, op, Protocol);
  }

  /** Every step of an unfinished operation, whatever the world answers, keeps the invariant. */
  lemma AdvanceKeeps(r: SendRequest, op: Op, dataBytes: nat, world: World)
    requires Inv(r, op) && op.outcome.None?
    ensures Ready(op) && Inv(r, Advance(op, dataBytes, world).op)
  {
    hide ActiveInv, PollConnect, AdvanceRead, AdvanceSend, AdvanceBody, WireInv, Ended;
    ActiveIsReady(r, op, 0);
    if op.phase.Connect? || op.phase.Upgrade? {
      ConnectStep(r, op, world.connect);
    } else if Reading(op.phase) {
      ReadStep(r, op, world.read, world.upgrade);
    } else if SendingCommand(op.phase) {
      CommandStep(r, op, world.send);
    } else if op.phase.DataBody? {
      BodyStep(r, op, dataBytes, world.send);
    } else {
      FinishStep(r, op, dataBytes, world);
    }
  }
}
