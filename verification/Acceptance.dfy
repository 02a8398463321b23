/** A submission to a server that accepts it, over transports that work, is accepted. */
module SmtpAcceptance {
  import opened Bytes
  import opened SmtpReply
  import opened SmtpRequest
  import opened SmtpEngine
  import opened SmtpWire
  import opened SmtpProof
  import opened SmtpRuns
  import opened SmtpProgress
  import SmtpWork

  /** Everything a server says on each transport, fixed beforehand. */
  datatype Server = Server(plain: seq<Printed>, tls: seq<Printed>)

  /** 2xx, or under the lenient policy a refusal that leaves the session alone. */
  predicate RcptGood(r: SendRequest, code: nat) {
    Positive(code) || (r.recipientPolicy.AcceptedRecipients? && Negative(code) && code != 421)
  }

  /** The plain dialogue of STARTTLS: greeting, EHLO with the extension, 220. */
  ghost predicate PlainGood(r: SendRequest, said: seq<Printed>) {
    if r.policy.Implicit? then said == []
    else
      && |said| == 3 && Positive(said[0].code) && Positive(said[1].code) && said[2].code == 220
      && Advertises(Meaning(said[1]), Ascii("STARTTLS"))
  }

  /**
   * A greeting unless the transport was upgraded, EHLO, MAIL, every RCPT with at least one accepted,
   * DATA, the message; and any answer at all to QUIT.
   */
  ghost predicate TlsGood(r: SendRequest, said: seq<Printed>) {
    var n, first := |r.recipients|, Greetings(r, Tls);
    && |said| == first + n + 5
    && (forall k :: 0 <= k < first + 2 ==> Positive(said[k].code))
    && (forall i :: 0 <= i < n ==> RcptGood(r, said[RcptReplyIndex(r, i)].code))
    && (exists i :: 0 <= i < n && Positive(said[RcptReplyIndex(r, i)].code))
    && Intermediate(said[first + n + 2].code) && Positive(said[FinalReplyIndex(r)].code)
  }

  ghost predicate Accepts(r: SendRequest, server: Server) {
    && AllWithinLimits(server.plain) && AllWithinLimits(server.tls)
    && PlainGood(r, server.plain) && TlsGood(r, server.tls)
  }

  /** Nothing fails and no deadline passes; anything may ask to wait or for smaller pieces. Closing may fail as it likes. */
  predicate Working(world: World) {
    && !world.timedOut
    && (world.connect.StillConnecting? || world.connect.Connected?)
    && (world.read.NoData? || world.read.Octet?)
    && (world.send.Admitted? || world.send.WouldBlock? || world.send.ChunkTooLarge?)
    && world.upgrade.UpgradeAdmitted?
  }

  /** How often a send limit can be halved. */
  function Halvings(limit: nat): (n: nat) { if limit <= 1 then 0 else 1 + Halvings(limit / 2) }

  /** How often a transport says that a piece is too large. */
  function TooLarge(worlds: seq<World>): (n: nat) {
    if worlds == [] then 0 else (if worlds[0].send.ChunkTooLarge? then 1 else 0) + TooLarge(worlds[1..])
  }

  function TooLargeIn(events: seq<Event>): (n: nat) {
    if events == [] then 0 else (if events[0].Poll? then TooLarge(events[0].worlds) else 0) + TooLargeIn(events[1..])
  }

  /** Every octet read came from the server, in order. */
  ghost predicate Heard(server: Server, plain: Channel, tls: Channel)
    requires AllWithinLimits(server.plain) && AllWithinLimits(server.tls)
  {
    plain.read <= PrintAll(server.plain) && tls.read <= PrintAll(server.tls)
  }

  // ---- what was read is what the server said ----

  lemma {:induction false} OkBefore(a: seq<Byte>, b: seq<Byte>)
    requires Feed(INITIAL, a + b).ok
    ensures Feed(INITIAL, a).ok
    decreases |b|
  {
    hide PushByte;
    if b == [] {
      assert a + b == a;
    } else {
      var init := b[..|b| - 1];
      assert a + b == a + init + [b[|b| - 1]];
      FeedSnoc(INITIAL, a + init, b[|b| - 1]);
      OkBefore(a, init);
    }
  }

  lemma ReadIsSaid(read: seq<Byte>, said: seq<Printed>)
    requires AllWithinLimits(said) && read <= PrintAll(said)
    ensures Feed(INITIAL, read).ok && Feed(INITIAL, read).replies <= Meanings(said)
  {
    hide Feed, PrintAll;
    var rest := PrintAll(said)[|read|..];
    assert PrintAll(said) == read + rest;
    ParsePrinted(said);
    OkBefore(read, rest);
    FeedAppend(INITIAL, read, rest);
  }

  /** On the transport in use, the next octet forms no malformed reply, and a complete one is the server's next. */
  lemma NextOctetParses(r: SendRequest, server: Server, op: Op, byte: Byte)
    requires ActiveInv(r, op, 0) && Reading(op.phase) && op.transport.Some? && Accepts(r, server)
    requires Heard(server, Absorb(op, byte).0.plain, Absorb(op, byte).0.tls)
    ensures !Absorb(op, byte).1.Malformed?
  {
    hide SentInv, PushByte, Feed, ReportInv, OtherInv, AcceptInv, PlainGood, TlsGood, PrintAll;
    FeedSnoc(INITIAL, Current(op).read, byte);
    var said := if op.transport.value.Plain? then server.plain else server.tls;
    ReadIsSaid(Current(op).read + [byte], said);
  }

  /** Replies are the server's, in order. */
  lemma RepliesAreSaid(r: SendRequest, server: Server, op: Op, extra: nat)
    requires ActiveInv(r, op, extra) && op.transport.Some? && Accepts(r, server) && Heard(server, op.plain, op.tls)
    ensures op.plain.replies <= Meanings(server.plain) && op.tls.replies <= Meanings(server.tls)
  {
    hide SentInv, Feed, ReportInv, AcceptInv, PlainGood, TlsGood, PrintAll, UpTo;
    ReadIsSaid(op.plain.read, server.plain);
    ReadIsSaid(op.tls.read, server.tls);
  }

  // ---- the server's replies are wanted ----

  /** The last reply is the one the script has for this phase. */
  lemma LastIsSaid(r: SendRequest, server: Server, op: Op, reply: Reply)
    requires JustRead(r, op, reply) && Accepts(r, server)
    requires op.plain.replies <= Meanings(server.plain) && op.tls.replies <= Meanings(server.tls)
    ensures op.transport.Some?
    ensures var said := if op.transport.value.Plain? then server.plain else server.tls;
            var k := Greetings(r, op.transport.value) + RepliesSeen(r, op.phase);
            0 <= k < |said| && reply == Meaning(said[k])
  {
    hide SentInv, Feed, ReportInv, AcceptInv, OtherInv, PlainGood, TlsGood, Meaning;
  }

  lemma NotedIsSaid(r: SendRequest, server: Server, op: Op, reply: Reply)
    requires JustRead(r, op, reply) && Ready(op) && Accepts(r, server) && op.phase.RcptReply?
    requires op.phase.index + 1 == |op.reports| && (Positive(reply.code) || Negative(reply.code))
    requires op.tls.replies <= Meanings(server.tls)
    ensures var reports := Noted(op, op.phase.index, reply).reports;
            AnyAccepted(reports) && (r.recipientPolicy.RequireAllRecipients? ==> !AnyRefused(reports))
  {
    hide JustRead, Noted, PlainGood, Feed, ControlInv, MaySendData, Summary, Ready, WithinLimits;
    JustReadPhase(r, op, reply);
    NotedShape(r, op, reply);
    var reports, n := Noted(op, op.phase.index, reply).reports, |r.recipients|;
    forall i | 0 <= i < n ensures Resolves(reports[i].status, Meaning(server.tls[RcptReplyIndex(r, i)])) {
      assert op.tls.replies[RcptReplyIndex(r, i)] == Meaning(server.tls[RcptReplyIndex(r, i)]);
    }
    var i :| 0 <= i < n && Positive(server.tls[RcptReplyIndex(r, i)].code);
    assert reports[i].status.AcceptedForTransaction?;
  }

  lemma PlainIsWanted(r: SendRequest, server: Server, op: Op, reply: Reply, upgrade: UpgradePoll)
    requires ControlInv(r, op) && Ready(op) && Reading(op.phase) && op.transport == Some(Plain)
    requires PlainGood(r, server.plain) && upgrade.UpgradeAdmitted?
    requires var k := 1 + RepliesSeen(r, op.phase); 0 <= k < |server.plain| && reply == Meaning(server.plain[k])
    ensures Wanted(op, reply, upgrade)
  {
    hide Advertises;
    MeaningKeepsCode(server.plain[1 + RepliesSeen(r, op.phase)]);
    hide Meaning;
  }

  lemma MeaningKeepsCode(w: Printed)
    ensures Meaning(w).code == w.code
  {
  }

  lemma TlsIsWanted(r: SendRequest, server: Server, op: Op, reply: Reply, upgrade: UpgradePoll)
    requires ControlInv(r, op) && Ready(op) && Reading(op.phase) && op.transport == Some(Tls)
    requires !op.phase.QuitReply? && !op.phase.RcptReply? && TlsGood(r, server.tls)
    requires var k := Greetings(r, Tls) + RepliesSeen(r, op.phase); 0 <= k < |server.tls| && reply.code == server.tls[k].code
    ensures Wanted(op, reply, upgrade)
  {
    hide Advertises, RcptGood;
  }

  lemma RcptIsWanted(r: SendRequest, server: Server, op: Op, reply: Reply, upgrade: UpgradePoll)
    requires JustRead(r, op, reply) && Ready(op) && Accepts(r, server) && op.phase.RcptReply?
    requires op.tls.replies <= Meanings(server.tls)
    requires op.phase.index < |r.recipients| && reply.code == server.tls[RcptReplyIndex(r, op.phase.index)].code
    requires op.request == Some(r)
    ensures Wanted(op, reply, upgrade)
  {
    hide JustRead, AnyAccepted, AnyRefused, Noted, PlainGood;
    if op.phase.index + 1 == |op.reports| { NotedIsSaid(r, server, op, reply); }
  }

  lemma SaidIsWanted(r: SendRequest, server: Server, op: Op, reply: Reply, upgrade: UpgradePoll)
    requires JustRead(r, op, reply) && Ready(op) && Accepts(r, server) && upgrade.UpgradeAdmitted? && !op.phase.QuitReply?
    requires op.plain.replies <= Meanings(server.plain) && op.tls.replies <= Meanings(server.tls)
    ensures Reading(op.phase) && Wanted(op, reply, upgrade)
  {
    hide ActiveInv, Wanted, Ready, PlainGood, TlsGood, Meaning, ReportInv;
    JustReadPhase(r, op, reply);
    LastIsSaid(r, server, op, reply);
    if op.transport.value.Plain? {
      PlainIsWanted(r, server, op, reply, upgrade);
    } else {
      MeaningKeepsCode(server.tls[Greetings(r, Tls) + RepliesSeen(r, op.phase)]);
      if op.phase.RcptReply? {
        RcptIsWanted(r, server, op, reply, upgrade);
      } else {
        TlsIsWanted(r, server, op, reply, upgrade);
      }
    }
  }

  // ---- a step with working transports ----

  ghost predicate Fine(r: SendRequest, server: Server, op: Op)
    requires Accepts(r, server)
  {
    op.outcome.Some? ==> op.outcome.value.delivery == Accepted(Summary(Meaning(server.tls[FinalReplyIndex(r)])))
  }

  lemma ReadIsFine(r: SendRequest, server: Server, op: Op, world: World)
    requires ActiveInv(r, op, 0) && Ready(op) && Reading(op.phase) && !op.phase.QuitReply?
    requires Accepts(r, server) && Working(world)
    requires var next := AdvanceRead(op, world.read, world.upgrade).0; Heard(server, next.plain, next.tls)
    ensures AdvanceRead(op, world.read, world.upgrade).0.outcome.None?
  {
    hide ActiveInv, Accepts, HandleReply, Fail, Absorb, Wanted, Ready, Heard;
    ActiveControl(r, op);
    HasTransport(r, op);
    ReadyIsUndecided(op);
    if world.read.Octet? {
      AbsorbIsReady(op, world.read.byte);
      AbsorbKeeps(r, op, world.read.byte);
      var (next, progress) := Absorb(op, world.read.byte);
      OctetReadsOne(op, world);
      NextOctetParses(r, server, op, world.read.byte);
      if progress.Complete? {
        AbsorbedIsJustRead(r, op, world.read.byte);
        RepliesAreSaid(r, server, next, 1);
        SaidIsWanted(r, server, next, progress.reply, world.upgrade);
        ReplyDecides(next, progress.reply, world.upgrade);
      }
    }
  }

  lemma ReadyIsUndecided(op: Op)
    requires Ready(op)
    ensures op.outcome.None?
  {
  }

  lemma OctetReadsOne(op: Op, world: World)
    requires Ready(op) && op.transport.Some? && world.read.Octet?
    ensures var (absorbed, next) := (Absorb(op, world.read.byte).0, AdvanceRead(op, world.read, world.upgrade).0);
            next.plain == absorbed.plain && next.tls == absorbed.tls
  {
    hide HandleReply, Absorb, Ready, Fail;
    SmtpWork.EndingIsQuiet();
    AbsorbIsReady(op, world.read.byte);
    var (absorbed, progress) := Absorb(op, world.read.byte);
    if progress.Complete? { SmtpWork.AnswerReadsNothing(absorbed, progress.reply, world.upgrade); }
  }

  /** An answer that does not end the submission at this limit. */
  predicate Taken(answer: SendPoll, limit: nat) {
    answer.Admitted? || answer.WouldBlock? || (answer.ChunkTooLarge? && limit > 1)
  }

  lemma OfferIsTaken(op: Op, answer: SendPoll)
    requires Ready(op) && op.outbound.Some? && op.transport.Some? && Taken(answer, op.sendLimit)
    ensures !SendSome(op, answer).1.Broken?
  {
  }

  lemma CommandIsFine(r: SendRequest, op: Op, answer: SendPoll)
    requires SendingUnit(r, op) && Ready(op) && Taken(answer, op.sendLimit)
    ensures AdvanceSend(op, answer).0.outcome.None?
  {
    hide ActiveInv, SendSome, Fail, OutboundOk;
    SendingFacts(r, op);
    OfferIsTaken(op, answer);
    SendKeepsReady(op, answer);
  }

  lemma BodyIsFine(r: SendRequest, op: Op, dataBytes: nat, answer: SendPoll)
    requires InBody(r, op) && Ready(op) && op.phase.DataBody? && Taken(answer, op.sendLimit)
    ensures AdvanceBody(op, dataBytes, answer).0.outcome.None?
  {
    hide InBody, SendSome, StageChunk, Fail, OutboundOk;
    var _ := BodyFacts(r, op);
    if dataBytes < MAX_DATA_BYTES_PER_POLL && !(op.outbound.None? && op.data.value == []) {
      var limit := Min(MAX_STAGING, MAX_DATA_BYTES_PER_POLL - dataBytes);
      StagedKeeps(r, op, limit);
      StagingIsNeutral(op, limit);
      var _ := BodyFacts(r, StageChunk(op, limit));
      OfferIsTaken(StageChunk(op, limit), answer);
      SendKeepsReady(StageChunk(op, limit), answer);
    }
  }

  lemma ConnectIsFine(r: SendRequest, op: Op, answer: ConnectPoll)
    requires ControlInv(r, op) && Ready(op) && (op.phase.Connect? || op.phase.Upgrade?)
    requires answer.StillConnecting? || answer.Connected?
    ensures PollConnect(op, answer).0.outcome.None?
  {
    hide EhloCommand;
  }

  /** Once the message is answered, that answer is the server's own and is kept. */
  lemma ClosingIsFine(r: SendRequest, server: Server, op: Op, dataBytes: nat, world: World)
    requires ActiveInv(r, op, 0) && Ready(op) && Closing(op.phase) && Accepts(r, server) && Heard(server, op.plain, op.tls)
    ensures Fine(r, server, Advance(op, dataBytes, world).op)
  {
    hide Advance, CurrentInv, OtherInv, ReportInv, Accepts, Heard, Meaning, Summary;
    RepliesAreSaid(r, server, op, 0);
    assert op.tls.replies[FinalReplyIndex(r)] == Meaning(server.tls[FinalReplyIndex(r)]);
    HeldByStep(op, Summary(Meaning(server.tls[FinalReplyIndex(r)])), dataBytes, world);
  }

  // ---- what was read stays read ----

  predicate Hears(a: Op, b: Op) { a.plain.read <= b.plain.read && a.tls.read <= b.tls.read }

  predicate SameRead(a: Op, b: Op) { a.plain.read == b.plain.read && a.tls.read == b.tls.read }

  lemma ReadHears(op: Op, world: World)
    requires Ready(op)
    ensures Hears(op, AdvanceRead(op, world.read, world.upgrade).0)
  {
    hide HandleReply, Ready, Fail;
    SmtpWork.EndingIsQuiet();
    if op.transport.Some? && world.read.Octet? {
      OctetReadsOne(op, world);
      hide PushByte, AdvanceRead;
    }
  }

  lemma CommandHears(op: Op, answer: SendPoll)
    requires Ready(op)
    ensures SameRead(op, AdvanceSend(op, answer).0)
  {
    hide SendSome, Fail;
    SmtpWork.EndingIsQuiet();
    SendKeepsReady(op, answer);
  }

  lemma BodyHears(op: Op, dataBytes: nat, answer: SendPoll)
    requires Ready(op) && op.phase.DataBody?
    ensures SameRead(op, AdvanceBody(op, dataBytes, answer).0)
  {
    hide SendSome, Fail;
    SmtpWork.EndingIsQuiet();
    if dataBytes < MAX_DATA_BYTES_PER_POLL && !(op.outbound.None? && op.data.value == []) {
      SendKeepsReady(StageChunk(op, Min(MAX_STAGING, MAX_DATA_BYTES_PER_POLL - dataBytes)), answer);
    }
  }

  lemma ConnectHears(op: Op, answer: ConnectPoll)
    requires Ready(op)
    ensures SameRead(op, PollConnect(op, answer).0)
  {
    hide Fail, EhloCommand;
    SmtpWork.EndingIsQuiet();
  }

  lemma StepHears(op: Op, dataBytes: nat, world: World)
    requires Ready(op)
    ensures Hears(op, Advance(op, dataBytes, world).op)
  {
    hide PollConnect, AdvanceRead, AdvanceSend, AdvanceBody, Fail, Ready;
    SmtpWork.EndingIsQuiet();
    if op.phase.Connect? || op.phase.Upgrade? {
      ConnectHears(op, world.connect);
    } else if Reading(op.phase) {
      ReadHears(op, world);
    } else if SendingCommand(op.phase) {
      CommandHears(op, world.send);
    } else if op.phase.DataBody? {
      BodyHears(op, dataBytes, world.send);
    }
  }

  lemma {:induction false} PollHears(r: SendRequest, op: Op, dataBytes: nat, worlds: seq<World>)
    requires Inv(r, op)
    ensures Hears(op, PollLoop(r, op, dataBytes, worlds))
    decreases |worlds|
  {
    hide Inv, Advance, Fail;
    if worlds != [] && op.outcome.None? {
      SmtpWork.EndingIsQuiet();
      if !worlds[0].timedOut {
        AdvanceKeeps(r, op, dataBytes, worlds[0]);
        StepHears(op, dataBytes, worlds[0]);
        var step := Advance(op, dataBytes, worlds[0]);
        if step.again { PollHears(r, step.op, step.dataBytes, worlds[1..]); }
      }
    }
  }

  lemma {:induction false} RunHears(r: SendRequest, op: Op, events: seq<Event>)
    requires Inv(r, op)
    ensures Hears(op, Continue(r, op, events))
    decreases |events|
  {
    hide Inv, PollLoop, Fail;
    if events != [] {
      SmtpWork.EndingIsQuiet();
      if events[0].Poll? {
        var worlds := events[0].worlds;
        PollHears(r, op, 0, if |worlds| <= MAX_STEPS_PER_POLL then worlds else worlds[..MAX_STEPS_PER_POLL]);
      }
      RunHears(r, Apply(r, op, events[0]), events[1..]);
    }
  }

  // ---- runs ----

  lemma HeardBefore(server: Server, a: Op, b: Op)
    requires AllWithinLimits(server.plain) && AllWithinLimits(server.tls)
    requires Hears(a, b) && Heard(server, b.plain, b.tls)
    ensures Heard(server, a.plain, a.tls)
  {
    hide PrintAll;
  }

  lemma StepIsFine(r: SendRequest, server: Server, op: Op, dataBytes: nat, world: World)
    requires ActiveInv(r, op, 0) && Ready(op) && Accepts(r, server) && Working(world)
    requires world.send.ChunkTooLarge? ==> op.sendLimit > 1
    requires var next := Advance(op, dataBytes, world).op; Heard(server, next.plain, next.tls)
    ensures Fine(r, server, Advance(op, dataBytes, world).op)
  {
    hide ActiveInv, PollConnect, AdvanceRead, AdvanceSend, AdvanceBody, Fail, Ready, TlsGood, PlainGood, Heard, Working, Meaning, Summary;
    ActiveControl(r, op);
    if Closing(op.phase) {
      hide Advance;
      StepHears(op, dataBytes, world);
      HeardBefore(server, op, Advance(op, dataBytes, world).op);
      ClosingIsFine(r, server, op, dataBytes, world);
    } else if op.phase.Connect? || op.phase.Upgrade? {
      WorkingAnswers(world);
      ConnectIsFine(r, op, world.connect);
    } else if Reading(op.phase) {
      ReadIsFine(r, server, op, world);
    } else if SendingCommand(op.phase) {
      WorkingAnswers(world);
      CommandIsFine(r, op, world.send);
    } else {
      WorkingAnswers(world);
      BodyIsFine(r, op, dataBytes, world.send);
    }
  }

  lemma WorkingAnswers(world: World)
    requires Working(world)
    ensures world.connect.StillConnecting? || world.connect.Connected?
    ensures world.send.Admitted? || world.send.WouldBlock? || world.send.ChunkTooLarge?
  {
  }

  lemma HalvedOnce(op: Op, next: Op, answer: SendPoll)
    requires Shrinks(op, next, answer)
    ensures Halvings(next.sendLimit) >= Halvings(op.sendLimit) - (if answer.ChunkTooLarge? then 1 else 0)
  {
  }

  lemma {:induction false} PollHalves(r: SendRequest, op: Op, dataBytes: nat, worlds: seq<World>)
    requires Inv(r, op)
    ensures Halvings(PollLoop(r, op, dataBytes, worlds).sendLimit) >= Halvings(op.sendLimit) - TooLarge(worlds)
    decreases |worlds|
  {
    hide WireInv, ActiveInv, Ended, Advance, Fail, Ready, Halvings, Shrinks;
    if worlds != [] && op.outcome.None? {
      EndingKeepsLimit();
      if !worlds[0].timedOut {
        AdvanceKeeps(r, op, dataBytes, worlds[0]);
        LimitFalls(r, op, dataBytes, worlds[0]);
        var step := Advance(op, dataBytes, worlds[0]);
        HalvedOnce(op, step.op, worlds[0].send);
        if step.again { PollHalves(r, step.op, step.dataBytes, worlds[1..]); }
      }
    }
  }

  lemma {:induction false} FewerTooLarge(worlds: seq<World>, k: nat)
    requires k <= |worlds|
    ensures TooLarge(worlds[..k]) <= TooLarge(worlds)
  {
    if k > 0 {
      assert worlds[..k][1..] == worlds[1..][..k - 1];
      FewerTooLarge(worlds[1..], k - 1);
    }
  }

  lemma {:induction false} PollIsFine(r: SendRequest, server: Server, op: Op, dataBytes: nat, worlds: seq<World>)
    requires Inv(r, op) && Accepts(r, server) && Fine(r, server, op)
    requires forall i :: 0 <= i < |worlds| ==> Working(worlds[i])
    requires TooLarge(worlds) <= Halvings(op.sendLimit)
    requires var end := PollLoop(r, op, dataBytes, worlds); Heard(server, end.plain, end.tls)
    ensures Fine(r, server, PollLoop(r, op, dataBytes, worlds))
    decreases |worlds|
  {
    hide WireInv, ActiveInv, Ended, Advance, Fail, Ready, Fine, Heard, TlsGood, PlainGood, Shrinks;
    if worlds != [] && op.outcome.None? {
      AdvanceKeeps(r, op, dataBytes, worlds[0]);
      var step := Advance(op, dataBytes, worlds[0]);
      LimitFalls(r, op, dataBytes, worlds[0]);
      HalvedOnce(op, step.op, worlds[0].send);
      if step.again {
        PollHears(r, step.op, step.dataBytes, worlds[1..]);
        HeardBefore(server, step.op, PollLoop(r, op, dataBytes, worlds));
        StepIsFine(r, server, op, dataBytes, worlds[0]);
        PollIsFine(r, server, step.op, step.dataBytes, worlds[1..]);
      } else {
        StepIsFine(r, server, op, dataBytes, worlds[0]);
      }
    }
  }

  /** A poll over working transports. */
  predicate WorkingPoll(event: Event) {
    event.Poll? && forall i :: 0 <= i < |event.worlds| ==> Working(event.worlds[i])
  }

  lemma EventIsFine(r: SendRequest, server: Server, op: Op, event: Event)
    requires Inv(r, op) && Accepts(r, server) && Fine(r, server, op) && WorkingPoll(event)
    requires TooLarge(event.worlds) <= Halvings(op.sendLimit)
    requires var end := Apply(r, op, event); Heard(server, end.plain, end.tls)
    ensures Fine(r, server, Apply(r, op, event))
    ensures Halvings(Apply(r, op, event).sendLimit) >= Halvings(op.sendLimit) - TooLarge(event.worlds)
  {
    hide Inv, PollLoop, Fine, Heard, Accepts, Working, Halvings, TooLarge;
    var worlds := event.worlds;
    if |worlds| > MAX_STEPS_PER_POLL { FewerTooLarge(worlds, MAX_STEPS_PER_POLL); }
    PollHalves(r, op, 0, if |worlds| <= MAX_STEPS_PER_POLL then worlds else worlds[..MAX_STEPS_PER_POLL]);
    PollIsFine(r, server, op, 0, if |worlds| <= MAX_STEPS_PER_POLL then worlds else worlds[..MAX_STEPS_PER_POLL]);
  }

  lemma {:induction false} RunIsFine(r: SendRequest, server: Server, op: Op, events: seq<Event>)
    requires Inv(r, op) && Accepts(r, server) && Fine(r, server, op)
    requires forall i :: 0 <= i < |events| ==> WorkingPoll(events[i])
    requires TooLargeIn(events) <= Halvings(op.sendLimit)
    requires var end := Continue(r, op, events); Heard(server, end.plain, end.tls)
    ensures Fine(r, server, Continue(r, op, events))
    decreases |events|
  {
    hide Inv, Apply, Fine, Heard, TlsGood, PlainGood, Halvings, TooLarge, Working;
    if events != [] {
      var next := Apply(r, op, events[0]);
      RunHears(r, next, events[1..]);
      HeardBefore(server, next, Continue(r, op, events));
      EventIsFine(r, server, op, events[0]);
      RunIsFine(r, server, next, events[1..]);
    }
  }

  /**
   * A server that says what accepts a submission, over transports that work, is never misunderstood:
   * in every run in which the octets read are the server's, wherever reads, sends and polls are cut
   * and as long as pieces are not found too large more often than the send window can be halved, there
   * is no outcome but `Accepted` with the server's own final answer.
   */
  lemma OnlyAcceptance(r: SendRequest, limit: nat, events: seq<Event>, server: Server)
    requires Submittable(r, limit) && Accepts(r, server)
    requires forall i :: 0 <= i < |events| ==> WorkingPoll(events[i])
    requires TooLargeIn(events) <= Halvings(limit)
    requires var op := Run(r, limit, events); Heard(server, op.plain, op.tls)
    ensures var op := Run(r, limit, events);
            op.outcome.Some? ==> op.outcome.value.delivery == Accepted(Summary(Meaning(server.tls[FinalReplyIndex(r)])))
  {
    hide Inv, Continue, Heard, Accepts, WorkingPoll, Halvings, TooLargeIn;
    SubmitKeeps(r, limit);
    RunIsFine(r, server, Submit(r, limit), events);
  }

  /** And when nothing says "wait" it is accepted, within the number of polls of `PollBound`. */
  lemma GoodServerAccepts(r: SendRequest, limit: nat, events: seq<Event>, server: Server)
    requires Submittable(r, limit) && Accepts(r, server) && |events| > PollBound(r, limit)
    requires forall i :: 0 <= i < |events| ==> WorkingPoll(events[i]) && Responsive(events[i])
    requires TooLargeIn(events) <= Halvings(limit)
    requires var op := Run(r, limit, events); Heard(server, op.plain, op.tls)
    ensures var op := Run(r, limit, events);
            && op.outcome.Some?
            && op.outcome.value.delivery == Accepted(Summary(Meaning(server.tls[FinalReplyIndex(r)])))
  {
    hide Run, Inv, Heard, Accepts, WorkingPoll, Responsive, PollBound, Halvings, TooLargeIn;
    OnlyAcceptance(r, limit, events, server);
    ResponsivePollsEnd(r, limit, events);
  }

  /** The client never reads more than such a server says: while it reads, there is a next octet. */
  lemma ServerHasMore(r: SendRequest, op: Op, server: Server)
    requires ActiveInv(r, op, 0) && Reading(op.phase) && Accepts(r, server) && Heard(server, op.plain, op.tls)
    ensures op.transport.Some?
    ensures var said := if op.transport.value.Plain? then server.plain else server.tls;
            |Current(op).read| < |PrintAll(said)|
  {
    hide SentInv, Feed, ReportInv, AcceptInv, PrintAll, RcptGood, Advertises;
    var said := if op.transport.value.Plain? then server.plain else server.tls;
    if |Current(op).read| >= |PrintAll(said)| {
      assert Current(op).read == PrintAll(said);
      ParsePrinted(said);
    }
  }

  // ---- such a run exists ----

  /** A world that answers at once, with the server's next octet. */
  ghost function Answer(server: Server, op: Op): (world: World)
    requires AllWithinLimits(server.plain) && AllWithinLimits(server.tls)
  {
    var next :=
      if op.transport.None? then Octet(0)
      else
        var said := PrintAll(if op.transport.value.Plain? then server.plain else server.tls);
        Octet(if |Current(op).read| < |said| then said[|Current(op).read|] else 0);
    World(false, Connected, next, SendPoll.Admitted, UpgradeAdmitted, FinishPoll.Finished)
  }

  lemma ReadIsHeard(r: SendRequest, server: Server, op: Op)
    requires ActiveInv(r, op, 0) && Ready(op) && Reading(op.phase) && Accepts(r, server) && Heard(server, op.plain, op.tls)
    ensures var world := Answer(server, op);
            var next := AdvanceRead(op, world.read, world.upgrade).0;
            Heard(server, next.plain, next.tls)
  {
    hide ActiveInv, Ready, TlsGood, PlainGood, PrintAll, AdvanceRead, PushByte;
    ServerHasMore(r, op, server);
    OctetReadsOne(op, Answer(server, op));
  }

  lemma StepIsHeard(r: SendRequest, server: Server, op: Op, dataBytes: nat)
    requires ActiveInv(r, op, 0) && Ready(op) && Accepts(r, server) && Heard(server, op.plain, op.tls)
    ensures var next := Advance(op, dataBytes, Answer(server, op)).op; Heard(server, next.plain, next.tls)
  {
    hide ActiveInv, PollConnect, AdvanceRead, AdvanceSend, AdvanceBody, Fail, Ready, TlsGood, PlainGood, PrintAll;
    SmtpWork.EndingIsQuiet();
    var world := Answer(server, op);
    if op.phase.Connect? || op.phase.Upgrade? {
      ConnectHears(op, world.connect);
    } else if Reading(op.phase) {
      ReadIsHeard(r, server, op);
    } else if SendingCommand(op.phase) {
      CommandHears(op, world.send);
    } else if op.phase.DataBody? {
      BodyHears(op, dataBytes, world.send);
    }
  }

  /** A poll that goes on as long as it can, every step answered at once by the server. */
  lemma {:induction false} ServedPoll(r: SendRequest, server: Server, op: Op, dataBytes: nat, n: nat) returns (worlds: seq<World>)
    requires Inv(r, op) && Accepts(r, server) && Heard(server, op.plain, op.tls) && n > 0
    ensures 0 < |worlds| <= n && forall i :: 0 <= i < |worlds| ==> Working(worlds[i]) && !Waits(worlds[i])
    ensures TooLarge(worlds) == 0
    ensures var end := PollLoop(r, op, dataBytes, worlds); Heard(server, end.plain, end.tls)
    decreases n
  {
    hide WireInv, ActiveInv, Ended, Advance, Fail, Ready, Heard, TlsGood, PlainGood, PrintAll;
    worlds := [Answer(server, op)];
    if op.outcome.None? {
      AdvanceKeeps(r, op, dataBytes, worlds[0]);
      StepIsHeard(r, server, op, dataBytes);
      var step := Advance(op, dataBytes, worlds[0]);
      assert worlds[1..] == [];
      if step.again && n > 1 {
        var rest := ServedPoll(r, server, step.op, step.dataBytes, n - 1);
        worlds := worlds + rest;
        assert worlds[1..] == rest;
      }
    }
  }

  lemma {:induction false} ServedRun(r: SendRequest, server: Server, op: Op, k: nat) returns (events: seq<Event>)
    requires Inv(r, op) && Accepts(r, server) && Heard(server, op.plain, op.tls)
    ensures |events| == k && forall i :: 0 <= i < |events| ==> WorkingPoll(events[i]) && Responsive(events[i])
    ensures TooLargeIn(events) == 0
    ensures var end := Continue(r, op, events); Heard(server, end.plain, end.tls)
    decreases k
  {
    hide Inv, PollLoop, Heard, Working, Waits, Accepts;
    events := [];
    if k > 0 {
      var worlds := ServedPoll(r, server, op, 0, MAX_STEPS_PER_POLL);
      var event := Poll(worlds);
      var rest := ServedRun(r, server, Apply(r, op, event), k - 1);
      events := [event] + rest;
      assert events[1..] == rest;
    }
  }

  /** For every request and every server that accepts it there are runs as `GoodServerAccepts` asks for, and they end accepted. */
  lemma AcceptedRunExists(r: SendRequest, limit: nat, server: Server) returns (events: seq<Event>)
    requires Submittable(r, limit) && Accepts(r, server)
    ensures forall i :: 0 <= i < |events| ==> WorkingPoll(events[i]) && Responsive(events[i])
    ensures var op := Run(r, limit, events);
            && Heard(server, op.plain, op.tls) && op.outcome.Some?
            && op.outcome.value.delivery == Accepted(Summary(Meaning(server.tls[FinalReplyIndex(r)])))
  {
    hide Inv, Continue, Accepts, WorkingPoll, Responsive, PollBound;
    SubmitKeeps(r, limit);
    events := ServedRun(r, server, Submit(r, limit), PollBound(r, limit) + 1);
    GoodServerAccepts(r, limit, events, server);
  }
}
