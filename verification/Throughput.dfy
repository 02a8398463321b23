/** A poll admits as much of the message as its allowance permits, when the transport takes what it is offered. */
module SmtpThroughput {
  import opened Bytes
  import opened SmtpReply
  import opened SmtpRequest
  import opened SmtpEngine
  import opened SmtpWire
  import opened SmtpProof
  import opened SmtpRuns
  import opened SmtpWork
  import opened SmtpProgress
  import opened SmtpEndings

  // ---- what was admitted stays admitted ----

  lemma BodyCountGrows(op: Op, dataBytes: nat, answer: SendPoll)
    requires Ready(op) && op.phase.DataBody?
    ensures AdvanceBody(op, dataBytes, answer).1 >= dataBytes
  {
    hide Fail, SendSome;
    if dataBytes < MAX_DATA_BYTES_PER_POLL {
      var step := SendSome(StageChunk(op, Min(MAX_STAGING, MAX_DATA_BYTES_PER_POLL - dataBytes)), answer).1;
    }
  }

  lemma CountGrows(op: Op, dataBytes: nat, world: World)
    requires Ready(op)
    ensures Advance(op, dataBytes, world).dataBytes >= dataBytes
  {
    hide PollConnect, AdvanceRead, AdvanceSend, AdvanceBody, Fail;
    if op.phase.DataBody? { BodyCountGrows(op, dataBytes, world.send); }
  }

  lemma {:induction false} OctetsStay(r: SendRequest, op: Op, dataBytes: nat, worlds: seq<World>)
    requires Inv(r, op) && Rationed(op, dataBytes)
    ensures BodyOctets(r, PollLoop(r, op, dataBytes, worlds).tls.sent) >= BodyOctets(r, op.tls.sent)
    decreases |worlds|
  {
    hide Advance, ActiveInv, WireInv, Ended, BodyOctets, Ready, Fail, InFlight;
    if worlds != [] && op.outcome.None? {
      ActiveIsReady(r, op, 0);
      if worlds[0].timedOut {
        FailIsRationed(op, dataBytes, Timeout);
      } else {
        AdvanceKeeps(r, op, dataBytes, worlds[0]);
        StepIsRationed(r, op, dataBytes, worlds[0]);
        CountGrows(op, dataBytes, worlds[0]);
        var step := Advance(op, dataBytes, worlds[0]);
        if step.again { OctetsStay(r, step.op, step.dataBytes, worlds[1..]); }
      }
    }
  }

  // ---- steps of the body ----

  /** The transport takes the piece it is offered. */
  predicate Takes(world: World) { !world.timedOut && world.send.Admitted? }

  /** Offers until the chunk in flight is admitted: a piece refused before comes first. */
  function Offers(op: Op): (n: nat) {
    if op.outbound.None? then 0 else if op.outbound.value.retry.Some? then 2 else 1
  }

  /** Chunks of 2048 octets that the allowance still permits. */
  function Chunks(allowance: int): (n: nat) { if allowance <= 0 then 0 else 1 + Chunks(allowance - 2048) }

  /** An admitted offer under a limit no smaller than a chunk. */
  lemma OfferAdmits(op: Op)
    requires Ready(op) && op.outbound.Some? && OutboundOk(op.outbound.value) && op.transport == Some(Tls)
    requires op.sendLimit >= |op.outbound.value.bytes| - op.outbound.value.offset
    ensures var (next, step) := SendSome(op, SendPoll.Admitted);
            && next.sendLimit == op.sendLimit && next.data == op.data && next.phase == op.phase
            && (step.Done? || step.Progressed?)
            && (op.outbound.value.retry.None? ==> step.Done?)
            && (step.Progressed? ==> next.outbound.Some? && next.outbound.value.retry.None?)
  {
  }

  /** One step: the chunk in flight is admitted, or a first piece of it; the next chunk is as large as may be. */
  lemma ChunkStep(r: SendRequest, op: Op, dataBytes: nat)
    requires InBody(r, op) && Ready(op) && op.phase.DataBody? && Rationed(op, dataBytes) && op.sendLimit >= 2048
    requires dataBytes < MAX_DATA_BYTES_PER_POLL && !(op.outbound.None? && op.data.value == [])
    ensures var (next, count, again) := AdvanceBody(op, dataBytes, SendPoll.Admitted);
            && again && next.phase.DataBody? && next.sendLimit == op.sendLimit && next.outcome == op.outcome
            && (next.outbound.Some? ==> op.outbound.Some? && Offers(next) < Offers(op) && next.data == op.data)
            && (op.outbound.None? && next.outbound.None? ==>
                  count - dataBytes == Min(Min(2048, MAX_DATA_BYTES_PER_POLL - dataBytes), |op.data.value|))
  {
    hide InBody, SendStaged, OutboundOk, StageChunk;
    var _ := BodyFacts(r, op);
    var limit := Min(MAX_STAGING, MAX_DATA_BYTES_PER_POLL - dataBytes);
    StagedKeeps(r, op, limit);
    StagingIsNeutral(op, limit);
    var staged := StageChunk(op, limit);
    var _ := BodyFacts(r, staged);
    ChunkSize(op, limit);
    StagedStep(r, staged, dataBytes);
  }

  lemma ChunkSize(op: Op, limit: nat)
    requires op.data.Some?
    ensures op.outbound.Some? ==> StageChunk(op, limit) == op
    ensures op.outbound.None? ==>
              var staged := StageChunk(op, limit);
              staged.outbound == Some(Outbound(op.data.value[..Min(limit, |op.data.value|)], 0, None))
  {
  }

  lemma StagedStep(r: SendRequest, op: Op, dataBytes: nat)
    requires InBody(r, op) && Ready(op) && op.outbound.Some? && OutboundOk(op.outbound.value) && op.transport == Some(Tls)
    requires op.phase.DataBody? && op.sendLimit >= |op.outbound.value.bytes| - op.outbound.value.offset
    ensures var (next, count, again) := SendStaged(op, dataBytes, SendPoll.Admitted);
            && again && next.phase.DataBody? && next.sendLimit == op.sendLimit && next.outcome == op.outcome
            && next.data == op.data
            && (next.outbound.Some? ==> Offers(next) < Offers(op))
            && (next.outbound.None? && op.outbound.value.retry.None? ==>
                  count - dataBytes == |op.outbound.value.bytes| - op.outbound.value.offset)
  {
    hide InBody, SendSome, OutboundOk, Fail;
    OfferAdmits(op);
    BodySends(r, op, SendPoll.Admitted);
    SendKeepsReady(op, SendPoll.Admitted);
  }

  // ---- a poll ----

  /** What there is left of the message. */
  function LeftOver(r: SendRequest, op: Op): (n: int) {
    |TlsScript(r)[|r.recipients| + 3]| - BodyOctets(r, op.tls.sent)
  }

  lemma LeftIsBody(r: SendRequest, op: Op)
    requires InBody(r, op)
    ensures LeftOver(r, op) == |BodyLeft(op)|
    ensures op.outbound.None? && op.data.Some? ==> LeftOver(r, op) == |op.data.value|
  {
    hide InBody, TlsScript, UpTo;
    var partial := BodyFacts(r, op);
  }

  /** The message is being sent, and the transport has not asked for pieces smaller than a chunk. */
  predicate SendsBody(op: Op) { op.outcome.None? && op.phase.DataBody? && op.sendLimit >= 2048 }

  ghost predicate Filling(r: SendRequest, op: Op, dataBytes: nat) {
    Inv(r, op) && SendsBody(op) && Rationed(op, dataBytes)
  }

  /** From `op` to `after` the rest of the allowance was used, or the rest of the message admitted. */
  ghost predicate Filled(r: SendRequest, op: Op, dataBytes: nat, after: Op) {
    var admitted := BodyOctets(r, after.tls.sent) - BodyOctets(r, op.tls.sent);
    admitted >= MAX_DATA_BYTES_PER_POLL - dataBytes || admitted >= LeftOver(r, op)
  }

  /** Steps that suffice to use the rest of the allowance. */
  function StepsToFill(op: Op, dataBytes: nat): (n: nat) { Offers(op) + Chunks(MAX_DATA_BYTES_PER_POLL - dataBytes) }

  /** One step: one fewer remains, or the message is all admitted. */
  lemma StepFills(r: SendRequest, op: Op, dataBytes: nat, world: World)
    requires Filling(r, op, dataBytes) && Takes(world)
    requires dataBytes < MAX_DATA_BYTES_PER_POLL && LeftOver(r, op) > 0
    ensures var step := Advance(op, dataBytes, world);
            && step.again && Filling(r, step.op, step.dataBytes)
            && BodyOctets(r, step.op.tls.sent) - BodyOctets(r, op.tls.sent) == step.dataBytes - dataBytes
            && (StepsToFill(step.op, step.dataBytes) < StepsToFill(op, dataBytes) || LeftOver(r, step.op) == 0)
  {
    hide Advance, ActiveInv, WireInv, Ended, BodyOctets, Ready, InFlight, LeftOver, AdvanceBody, BodyLeft;
    LeftIsBody(r, op);
    ActiveIsReady(r, op, 0);
    var _ := BodyFacts(r, op);
    AdvanceKeeps(r, op, dataBytes, world);
    StepIsRationed(r, op, dataBytes, world);
    ChunkStep(r, op, dataBytes);
    BodyAdvance(op, dataBytes, world);
    BodyCountGrows(op, dataBytes, world.send);
    var step := Advance(op, dataBytes, world);
    Moved(r, op, step.op);
    FewerChunks(MAX_DATA_BYTES_PER_POLL - dataBytes, MAX_DATA_BYTES_PER_POLL - step.dataBytes);
  }

  lemma {:induction false} LoopFills(r: SendRequest, op: Op, dataBytes: nat, worlds: seq<World>)
    requires Filling(r, op, dataBytes) && |worlds| >= StepsToFill(op, dataBytes)
    requires forall i :: 0 <= i < |worlds| ==> Takes(worlds[i])
    ensures Filled(r, op, dataBytes, PollLoop(r, op, dataBytes, worlds))
    decreases |worlds|
  {
    hide Advance, Inv, Rationed, BodyOctets, LeftOver, StepsToFill;
    OctetsStay(r, op, dataBytes, worlds);
    Bounds(r, op);
    if dataBytes < MAX_DATA_BYTES_PER_POLL && LeftOver(r, op) > 0 {
      ToFill(r, op, dataBytes);
      StepFills(r, op, dataBytes, worlds[0]);
      var step := Advance(op, dataBytes, worlds[0]);
      Moved(r, op, step.op);
      if LeftOver(r, step.op) == 0 {
        OctetsStay(r, step.op, step.dataBytes, worlds[1..]);
      } else {
        LoopFills(r, step.op, step.dataBytes, worlds[1..]);
      }
    }
  }

  lemma ToFill(r: SendRequest, op: Op, dataBytes: nat)
    requires Filling(r, op, dataBytes) && dataBytes < MAX_DATA_BYTES_PER_POLL
    ensures Ready(op) && StepsToFill(op, dataBytes) > 0
  {
    hide ActiveInv, Ready;
    ActiveIsReady(r, op, 0);
  }

  lemma Bounds(r: SendRequest, op: Op)
    requires Inv(r, op)
    ensures LeftOver(r, op) >= 0
  {
    hide Inv, TlsScript, UpTo;
  }

  lemma Moved(r: SendRequest, a: Op, b: Op)
    ensures LeftOver(r, b) == LeftOver(r, a) - (BodyOctets(r, b.tls.sent) - BodyOctets(r, a.tls.sent))
  {
    hide TlsScript, BodyOctets;
  }

  lemma BodyAdvance(op: Op, dataBytes: nat, world: World)
    requires Ready(op) && op.phase.DataBody? && world.send.Admitted?
    ensures var (next, count, again) := AdvanceBody(op, dataBytes, SendPoll.Admitted);
            Advance(op, dataBytes, world) == Advanced(next, count, again)
  {
    hide AdvanceBody;
  }

  lemma {:induction false} FewerChunks(more: int, fewer: int)
    requires fewer <= more
    ensures Chunks(fewer) <= Chunks(more)
    ensures fewer <= more - 2048 && more > 0 ==> Chunks(fewer) <= Chunks(more) - 1
    decreases if more < 0 then 0 else more
  {
    if fewer > 0 {
      FewerChunks(more - 2048, fewer - 2048);
      if fewer <= more - 2048 { FewerChunks(more - 2048, fewer); }
    }
  }

  lemma ManySteps()
    ensures Chunks(MAX_DATA_BYTES_PER_POLL) == 8
  {
    assert Chunks(2048) == 1;
    assert Chunks(3 * 2048) == 1 + Chunks(2 * 2048);
    assert Chunks(5 * 2048) == 1 + Chunks(4 * 2048);
    assert Chunks(7 * 2048) == 1 + Chunks(6 * 2048);
    assert Chunks(8 * 2048) == 1 + Chunks(7 * 2048);
  }

  /**
   * In every run, a poll that begins while the message is being sent, over a transport that takes every
   * piece and has not asked for pieces below 2048 octets, admits exactly 16384 octets of it, or all
   * that is left; ten of the 64 steps of a poll suffice.
   */
  lemma PollFillsAllowance(r: SendRequest, limit: nat, events: seq<Event>, worlds: seq<World>)
    requires Submittable(r, limit) && 10 <= |worlds| <= 64 && forall i :: 0 <= i < |worlds| ==> Takes(worlds[i])
    requires SendsBody(Run(r, limit, events))
    ensures SmtpEndings.Admitted(r, limit, events, worlds) == Min(16384, LeftOver(r, Run(r, limit, events)))
  {
    hide Run, Inv, PollLoop, BodyOctets, Rationed, LeftOver, Chunks, InFlight;
    var start := Run(r, limit, events);
    PollIsLoop(r, limit, events, worlds);
    RunsAreRationed(r, limit, events);
    ManySteps();
    LoopFills(r, start, 0, worlds);
    PollAdmitsBoundedBody(r, limit, events, worlds);
    Bounds(r, start);
    Bounds(r, Run(r, limit, events + [Poll(worlds)]));
    Moved(r, start, Run(r, limit, events + [Poll(worlds)]));
  }
}
