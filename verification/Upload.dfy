/**
 * The bounded upload channel of src/stream.rs: a unique sender, a unique receiving body, one lock.
 * Ghost histories hold every byte the sender had accepted and every byte the body took out.
 */
module UploadChannel {
  import opened Bytes

  const U64_MAX: nat := 0xFFFF_FFFF_FFFF_FFFF

  datatype Framing = Fixed(length: nat) | Chunked
  datatype Producer = Open | Finished | Abandoned | LengthMismatch
  datatype RunMode = Spawned | Manual
  datatype PushErrorKind =
    | WouldBlock | ChunkTooLarge | LengthExceeded | TotalLimitExceeded | Closed | NotSubmitted | WrongMode
  datatype PushResult = Accepted | Refused(kind: PushErrorKind, chunk: seq<Byte>) | StillWaiting(rest: seq<Byte>)
  datatype Poll = Pending | Chunk(bytes: seq<Byte>) | Ended | Failed
  datatype BindResult = Bound | QueueLimit | BoundTwice | BodyClosed | SenderDropped | WrongLength | BodyLimit
  datatype FinishResult = Done | Mismatch(expected: nat, accepted: nat) | ReceiverGone

  /** What the receiving side may do whenever the sender does not hold the lock. */
  datatype Action = Pop | Close

  predicate Pops(actions: seq<Action>) { actions != [] && actions[0].Pop? }

  /** The receiver pops before each hold of the lock. */
  predicate Steady(turns: seq<seq<Action>>) { forall k :: 0 <= k < |turns| ==> Pops(turns[k]) }

  /** The receiver does not close. */
  predicate Unclosed(turns: seq<seq<Action>>) { forall k :: 0 <= k < |turns| ==> Close !in turns[k] }

  /** Room for this many bytes in all, by the declared length and by the limit the Engine bound. */
  predicate Allowed(framing: Framing, totalLimit: Option<nat>, total: nat) {
    total <= U64_MAX && (totalLimit.Some? ==> total <= totalLimit.value) && (framing.Fixed? ==> total <= framing.length)
  }

  /** One call of either side. */
  datatype Call =
    | CallBind(maxQueue: nat, limit: nat, mode: RunMode)
    | CallTryPush(chunk: seq<Byte>)
    | CallPush(chunk: seq<Byte>, turns: seq<seq<Action>>)
    | CallFinish
    | CallDropSender
    | CallPop
    | CallClose

  /** `after` extends `before` by all of `chunk` but its suffix `rest`. */
  ghost predicate TookAllBut(before: seq<Byte>, after: seq<Byte>, chunk: seq<Byte>, rest: seq<Byte>) {
    && |rest| <= |chunk| && rest == chunk[|chunk| - |rest|..]
    && after == before + chunk[..|chunk| - |rest|]
  }

  lemma TookUpTo(before: seq<Byte>, after: seq<Byte>, chunk: seq<Byte>, offset: nat)
    requires offset <= |chunk| && after == before + chunk[..offset]
    ensures TookAllBut(before, after, chunk, chunk[offset..])
    ensures offset == |chunk| ==> after == before + chunk
  {
    assert chunk[..|chunk|] == chunk;
  }

  lemma TakeMore(before: seq<Byte>, after: seq<Byte>, chunk: seq<Byte>, offset: nat, end: nat)
    requires offset <= end <= |chunk| && after == before + chunk[..offset]
    ensures after + chunk[offset..end] == before + chunk[..end]
  {
    assert chunk[..offset] + chunk[offset..end] == chunk[..end];
  }

  class Upload {
    const framing: Framing
    const capacity: nat
    var queue: seq<seq<Byte>>
    var queuedBytes: nat
    var acceptedBytes: nat
    var producer: Producer
    var receiverAlive: bool
    var totalLimit: Option<nat>
    var runMode: Option<RunMode>
    var terminated: bool
    ghost var accepted: seq<Byte>
    ghost var popped: seq<Byte>

    ghost predicate Valid()
      reads this
    {
      && capacity > 0
      && queuedBytes == |Concat(queue)| <= capacity
      && acceptedBytes == |accepted|
      && Allowed(framing, totalLimit, acceptedBytes)
      && (forall i :: 0 <= i < |queue| ==> queue[i] != [])
      && (receiverAlive ==> popped + Concat(queue) == accepted)
      && (!receiverAlive ==> queue == [] && popped <= accepted)
      && (runMode.Some? <==> totalLimit.Some?)
      && (producer.Finished? && framing.Fixed? ==> acceptedBytes == framing.length)
      && (!producer.Open? ==> terminated)
    }

    constructor (framing: Framing, capacity: nat)
      requires capacity > 0
      ensures Valid() && this.framing == framing && this.capacity == capacity
      ensures accepted == [] && popped == [] && producer.Open? && receiverAlive && !terminated && totalLimit.None?
      ensures queue == []
    {
      this.framing, this.capacity := framing, capacity;
      queue, queuedBytes, acceptedBytes, producer, receiverAlive := [], 0, 0, Open, true;
      totalLimit, runMode, terminated := None, None, false;
      accepted, popped := [], [];
    }

    // ---- the Engine's side ----

    method Bind(maxQueue: nat, limit: nat, mode: RunMode) returns (r: BindResult)
      requires Valid() && limit <= U64_MAX
      modifies this`totalLimit, this`runMode
      ensures Valid()
      ensures r.Bound? <==> capacity <= maxQueue && old(totalLimit).None? && receiverAlive
                            && (producer.Open? || producer.Finished?)
                            && acceptedBytes <= limit && (framing.Fixed? ==> framing.length <= limit)
      ensures r.Bound? ==> totalLimit == Some(limit) && runMode == Some(mode)
      ensures !r.Bound? ==> totalLimit == old(totalLimit) && runMode == old(runMode)
      ensures r.QueueLimit? <==> capacity > maxQueue
      ensures r.BoundTwice? <==> capacity <= maxQueue && old(totalLimit).Some?
      ensures r.BodyClosed? <==> capacity <= maxQueue && old(totalLimit).None? && !receiverAlive
      ensures r.SenderDropped? ==> producer.Abandoned?
      ensures r.WrongLength? ==> producer.LengthMismatch?
      ensures r.BodyLimit? ==> acceptedBytes > limit || (framing.Fixed? && framing.length > limit)
    {
      if capacity > maxQueue {
        return QueueLimit;
      }
      if totalLimit.Some? {
        return BoundTwice;
      }
      if !receiverAlive {
        return BodyClosed;
      }
      match producer {
        case Abandoned => return SenderDropped;
        case LengthMismatch => return WrongLength;
        case _ =>
      }
      if acceptedBytes > limit || (framing.Fixed? && framing.length > limit) {
        return BodyLimit;
      }
      totalLimit, runMode := Some(limit), Some(mode);
      return Bound;
    }

    /**
     * While the body is open a pop answers the oldest chunk as long as anything accepted has not been
     * taken, and after that what became of the sender. `Ended` means that a fixed length is met exactly.
     */
    method TryPop() returns (r: Poll)
      requires Valid()
      modifies this`queue, this`queuedBytes, this`popped
      ensures Valid()
      ensures popped == old(popped) + (if r.Chunk? then r.bytes else [])
      ensures r.Chunk? <==> receiverAlive && old(popped) != accepted
      ensures r.Chunk? ==> r.bytes != [] && old(queue) == [r.bytes] + queue
      ensures r.Failed? <==> !receiverAlive || (old(popped) == accepted && (producer.Abandoned? || producer.LengthMismatch?))
      ensures !r.Chunk? ==> queue == old(queue)
      ensures r.Ended? <==> receiverAlive && producer.Finished? && old(popped) == accepted
      ensures r.Ended? && framing.Fixed? ==> |popped| == framing.length
      ensures r.Pending? <==> receiverAlive && producer.Open? && old(popped) == accepted
    {
      if !receiverAlive {
        return Failed;
      }
      if queue != [] {
        var chunk := queue[0];
        assert |Concat(queue)| >= |chunk| > 0;
        assert popped + (chunk + Concat(queue[1..])) == (popped + chunk) + Concat(queue[1..]);
        assert |popped + Concat(queue)| > |popped|;
        queue, queuedBytes := queue[1..], queuedBytes - |chunk|;
        popped := popped + chunk;
        return Chunk(chunk);
      }
      assert popped + Concat(queue) == popped;
      match producer {
        case Open => return Pending;
        case Finished => return Ended;
        case Abandoned => return Failed;
        case LengthMismatch => return Failed;
      }
    }

    method CloseBody()
      requires Valid()
      modifies this`queue, this`queuedBytes, this`receiverAlive
      ensures Valid() && !receiverAlive && queue == []
    {
      if receiverAlive { PopsArePrefix(); }
      receiverAlive, queue, queuedBytes := false, [], 0;
    }

    lemma PopsArePrefix()
      requires Valid()
      ensures popped <= accepted
    {
    }

    // ---- the sender's side ----

    /**
     * One complete chunk or nothing. `WouldBlock` means that only room in the queue is missing, and
     * any refusal returns the chunk unchanged.
     */
    method TryPush(chunk: seq<Byte>) returns (r: PushResult)
      requires Valid() && !terminated
      modifies this`queue, this`queuedBytes, this`acceptedBytes, this`accepted
      ensures Valid()
      ensures accepted == old(accepted) + (if r.Accepted? then chunk else [])
      ensures !r.StillWaiting? && (r.Refused? ==> r.chunk == chunk)
      ensures r.Accepted? <==> receiverAlive && producer.Open? && |chunk| <= capacity - old(queuedBytes)
                               && Allowed(framing, totalLimit, old(acceptedBytes) + |chunk|)
      ensures (r.Refused? && r.kind.WouldBlock?) <==>
                receiverAlive && producer.Open? && Allowed(framing, totalLimit, old(acceptedBytes) + |chunk|)
                && capacity - old(queuedBytes) < |chunk| <= capacity
      ensures (r.Refused? && r.kind.ChunkTooLarge?) <==> |chunk| > capacity
      ensures (r.Refused? && r.kind.Closed?) <==> |chunk| <= capacity && (!receiverAlive || !producer.Open?)
      ensures (r.Refused? && r.kind.TotalLimitExceeded?) <==>
                |chunk| <= capacity && receiverAlive && producer.Open? && old(acceptedBytes) + |chunk| <= U64_MAX
                && totalLimit.Some? && old(acceptedBytes) + |chunk| > totalLimit.value
      ensures r.Refused? ==> !r.kind.NotSubmitted? && !r.kind.WrongMode?
      ensures |queue| <= |old(queue)| + (if r.Accepted? then 1 else 0)
    {
      if |chunk| > capacity {
        return Refused(ChunkTooLarge, chunk);
      }
      if !receiverAlive {
        return Refused(Closed, chunk);
      }
      if !producer.Open? {
        return Refused(Closed, chunk);
      }
      var next := acceptedBytes + |chunk|;
      if next > U64_MAX {
        return Refused(LengthExceeded, chunk);
      }
      if totalLimit.Some? && next > totalLimit.value {
        return Refused(TotalLimitExceeded, chunk);
      }
      if framing.Fixed? && next > framing.length {
        return Refused(LengthExceeded, chunk);
      }
      if |chunk| > capacity - queuedBytes {
        return Refused(WouldBlock, chunk);
      }
      Enqueue(chunk);
      return Accepted;
    }

    method Enqueue(chunk: seq<Byte>)
      requires Valid() && receiverAlive && producer.Open? && |chunk| <= capacity - queuedBytes
      requires Allowed(framing, totalLimit, acceptedBytes + |chunk|)
      modifies this`queue, this`queuedBytes, this`acceptedBytes, this`accepted
      ensures Valid() && accepted == old(accepted) + chunk && queuedBytes == old(queuedBytes) + |chunk|
      ensures |queue| <= |old(queue)| + 1
    {
      ConcatSnoc(queue, chunk);
      assert popped + (Concat(queue) + chunk) == (popped + Concat(queue)) + chunk;
      acceptedBytes := acceptedBytes + |chunk|;
      queuedBytes := queuedBytes + |chunk|;
      accepted := accepted + chunk;
      if chunk != [] {
        queue := queue + [chunk];
      }
    }

    /** Everything the receiving side does in one stretch of having the lock; `taken` is what it popped. */
    method ReceiverTurn(actions: seq<Action>) returns (taken: seq<Byte>)
      requires Valid()
      modifies this`queue, this`queuedBytes, this`popped, this`receiverAlive
      ensures Valid() && popped == old(popped) + taken && |queue| <= |old(queue)|
      ensures Close !in actions ==> receiverAlive == old(receiverAlive)
      ensures Pops(actions) ==> queuedBytes < capacity
    {
      hide Concat;
      taken := [];
      ghost var before := popped;
      QueueCounts();
      for i := 0 to |actions|
        invariant Valid() && popped == old(popped) + taken && |queue| <= |old(queue)|
        invariant Close !in actions[..i] ==> receiverAlive == old(receiverAlive)
        invariant i > 0 && Pops(actions) ==> queuedBytes < capacity
        invariant i == 0 ==> popped == before && queuedBytes <= capacity
      {
        assert actions[..i + 1] == actions[..i] + [actions[i]];
        QueueCounts();
        if actions[i].Pop? {
          var r := TryPop();
          if r.Chunk? { taken := taken + r.bytes; }
        } else {
          CloseBody();
        }
        QueueCounts();
      }
      assert actions[..|actions|] == actions;
    }

    /** What is queued is what was accepted and not taken. */
    lemma QueueCounts()
      requires Valid()
      ensures receiverAlive ==> queuedBytes == |accepted| - |popped| && (queue == [] <==> popped == accepted)
      ensures !receiverAlive ==> queuedBytes == 0
    {
      if receiverAlive && queue != [] { assert |Concat(queue)| >= |queue[0]| > 0; }
    }

    /**
     * The blocking push. `turns[k]` is what the receiver does before the sender has the lock for the
     * `k`-th time; a sender still waiting when they run out has not returned. Whatever happens, the
     * bytes accepted are exactly a prefix of `chunk`, and a failure returns exactly the rest of it. A
     * receiver that pops once before each hold of the lock is enough for the sender to return.
     */
    method Push(chunk: seq<Byte>, turns: seq<seq<Action>>) returns (r: PushResult, taken: seq<Byte>)
      requires Valid() && !terminated
      modifies this
      ensures Valid() && !terminated && producer == old(producer) && totalLimit == old(totalLimit)
      ensures popped == old(popped) + taken
      ensures r.Accepted? ==> accepted == old(accepted) + chunk
      ensures r.Refused? ==> TookAllBut(old(accepted), accepted, chunk, r.chunk)
      ensures r.Refused? && !r.kind.Closed? ==> r.chunk == chunk && popped == old(popped) && queue == old(queue)
      ensures r.StillWaiting? ==> TookAllBut(old(accepted), accepted, chunk, r.rest)
                                  && r.rest != [] && queuedBytes == capacity
      ensures (r.Refused? && r.kind.NotSubmitted?) <==> runMode.None?
      ensures (r.Refused? && r.kind.WrongMode?) <==> runMode == Some(Manual)
      ensures !Allowed(framing, totalLimit, old(acceptedBytes) + |chunk|) && chunk != [] ==> r.Refused? && r.chunk == chunk
      ensures r.Refused? && r.kind.Closed? ==> runMode == Some(Spawned) && chunk != [] && (!receiverAlive || !producer.Open?)
      ensures r.Refused? && !r.kind.Closed? && !r.kind.NotSubmitted? && !r.kind.WrongMode? ==>
                !Allowed(framing, totalLimit, old(acceptedBytes) + |chunk|)
      ensures (r.Refused? && r.kind.TotalLimitExceeded?) <==>
                runMode == Some(Spawned) && chunk != [] && old(receiverAlive) && old(acceptedBytes) + |chunk| <= U64_MAX
                && totalLimit.Some? && old(acceptedBytes) + |chunk| > totalLimit.value
      ensures r.Refused? ==> !r.kind.WouldBlock? && !r.kind.ChunkTooLarge?
      ensures |turns| >= |chunk| && Steady(turns) ==> !r.StillWaiting?
      ensures Unclosed(turns) ==> receiverAlive == old(receiverAlive)
      ensures |queue| <= |old(queue)| + (|accepted| - |old(accepted)|)
    {
      assert accepted == accepted + chunk[..0];
      TookUpTo(accepted, accepted, chunk, 0);
      assert chunk[0..] == chunk;
      if runMode.None? {
        return Refused(NotSubmitted, chunk), [];
      }
      if runMode.value.Manual? {
        return Refused(WrongMode, chunk), [];
      }
      if chunk == [] {
        return Accepted, [];
      }
      if !receiverAlive || !producer.Open? {
        return Refused(Closed, chunk), [];
      }
      var next := acceptedBytes + |chunk|;
      if next > U64_MAX {
        return Refused(LengthExceeded, chunk), [];
      }
      if totalLimit.Some? && next > totalLimit.value {
        return Refused(TotalLimitExceeded, chunk), [];
      }
      if framing.Fixed? && next > framing.length {
        return Refused(LengthExceeded, chunk), [];
      }
      r, taken := PushProgressively(chunk, turns);
    }

    method PushProgressively(chunk: seq<Byte>, turns: seq<seq<Action>>) returns (r: PushResult, taken: seq<Byte>)
      requires Valid() && Allowed(framing, totalLimit, acceptedBytes + |chunk|)
      modifies this`queue, this`queuedBytes, this`acceptedBytes, this`accepted, this`popped, this`receiverAlive
      ensures Valid() && popped == old(popped) + taken
      ensures r.Accepted? ==> accepted == old(accepted) + chunk
      ensures r.Refused? ==> r.kind.Closed? && (!receiverAlive || !producer.Open?)
                             && TookAllBut(old(accepted), accepted, chunk, r.chunk)
      ensures r.StillWaiting? ==> TookAllBut(old(accepted), accepted, chunk, r.rest)
                                  && r.rest != [] && queuedBytes == capacity
      ensures |turns| >= |chunk| && Steady(turns) ==> !r.StillWaiting?
      ensures Unclosed(turns) ==> receiverAlive == old(receiverAlive)
      ensures |queue| <= |old(queue)| + (|accepted| - |old(accepted)|)
    {
      hide Concat, Steady, Unclosed;
      ghost var before := accepted;
      ghost var length := |queue|;
      taken := [];
      var offset, k := 0, 0;
      assert accepted == before + chunk[..0];
      while offset < |chunk|
        invariant Valid() && offset <= |chunk| && k <= |turns|
        invariant accepted == before + chunk[..offset] && popped == old(popped) + taken
        invariant (|turns| >= |chunk| && Steady(turns) ==> k <= offset) && (Unclosed(turns) ==> receiverAlive == old(receiverAlive))
        invariant |queue| <= length + offset
        decreases |chunk| - offset
      {
        var more;
        k, more := AwaitRoom(turns, k);
        taken := taken + more;
        TookUpTo(before, accepted, chunk, offset);
        if !receiverAlive || !producer.Open? {
          return Refused(Closed, chunk[offset..]), taken;
        }
        if queuedBytes == capacity {
          return StillWaiting(chunk[offset..]), taken;
        }
        var available := capacity - queuedBytes;
        var count := if available < |chunk| - offset then available else |chunk| - offset;
        TakeMore(before, accepted, chunk, offset, offset + count);
        Enqueue(chunk[offset..offset + count]);
        offset := offset + count;
      }
      TookUpTo(before, accepted, chunk, offset);
      return Accepted, taken;
    }

    /** Takes the lock, waiting while the queue is full and both ends are open. */
    method AwaitRoom(turns: seq<seq<Action>>, from: nat) returns (k: nat, taken: seq<Byte>)
      requires Valid() && from <= |turns|
      modifies this`queue, this`queuedBytes, this`popped, this`receiverAlive
      ensures Valid() && from <= k <= |turns| && popped == old(popped) + taken
      ensures receiverAlive && producer.Open? && queuedBytes == capacity ==> k == |turns|
      ensures from < |turns| && Steady(turns) ==> k == from + 1 && queuedBytes < capacity
      ensures Unclosed(turns) ==> receiverAlive == old(receiverAlive)
      ensures |queue| <= |old(queue)|
    {
      hide Concat;
      k, taken := from, [];
      if k < |turns| {
        taken := ReceiverTurn(turns[k]);
        k := k + 1;
      }
      while receiverAlive && producer.Open? && queuedBytes == capacity && k < |turns|
        invariant Valid() && from <= k <= |turns| && popped == old(popped) + taken
        invariant from < |turns| && Steady(turns) ==> k == from + 1 && queuedBytes < capacity
        invariant (Unclosed(turns) ==> receiverAlive == old(receiverAlive)) && |queue| <= |old(queue)|
        decreases |turns| - k
      {
        var more := ReceiverTurn(turns[k]);
        taken := taken + more;
        k := k + 1;
      }
    }

    method Finish() returns (r: FinishResult)
      requires Valid() && !terminated
      modifies this`producer, this`terminated
      ensures Valid() && terminated
      ensures r.Done? <==> receiverAlive && (framing.Fixed? ==> acceptedBytes == framing.length)
      ensures r.Done? ==> producer.Finished?
      ensures r.Mismatch? ==> producer.LengthMismatch? && framing == Fixed(r.expected) && r.accepted == acceptedBytes != r.expected
      ensures r.ReceiverGone? <==> !receiverAlive
      ensures r.ReceiverGone? ==> producer == old(producer)
    {
      terminated := true;
      if !receiverAlive {
        return ReceiverGone;
      } else if framing.Fixed? && framing.length != acceptedBytes {
        producer := LengthMismatch;
        return Mismatch(framing.length, acceptedBytes);
      } else {
        producer := Finished;
        return Done;
      }
    }

    method DropSender()
      requires Valid()
      modifies this`producer, this`terminated
      ensures Valid() && terminated
      ensures producer == if old(terminated) || !old(producer).Open? then old(producer) else Abandoned
    {
      if terminated {
        return;
      }
      if producer.Open? {
        producer := Abandoned;
      }
      terminated := true;
    }

    method ServePush(call: Call) returns (pushed: seq<Byte>, taken: seq<Byte>, pieces: nat)
      requires Valid() && (call.CallTryPush? || call.CallPush?)
      modifies this
      ensures Valid() && accepted == old(accepted) + pushed && popped == old(popped) + taken
      ensures totalLimit == old(totalLimit) && producer == old(producer) && terminated == old(terminated)
      ensures old(terminated) ==> pushed == [] && taken == []
      ensures !Closes(call) ==> receiverAlive == old(receiverAlive)
      ensures |queue| <= |old(queue)| + pieces
    {
      hide Concat;
      pushed, taken, pieces := [], [], 0;
      if terminated {
        return;
      }
      if call.CallTryPush? {
        var r := TryPush(call.chunk);
        if r.Accepted? { pushed, pieces := call.chunk, 1; }
      } else {
        var r;
        r, taken := Push(call.chunk, call.turns);
        pushed := Reported(call.chunk, r);
        pieces := |pushed|;
      }
    }

    /** Serves one call and reports what its caller can see; calls on a consumed sender do nothing. */
    method Serve(call: Call)
      returns (pushed: seq<Byte>, taken: seq<Byte>, ended: bool, bound: Option<nat>, finished: bool, pieces: nat)
      requires Valid() && (call.CallBind? ==> call.limit <= U64_MAX)
      modifies this
      ensures Valid() && accepted == old(accepted) + pushed && popped == old(popped) + taken
      ensures ended ==> producer.Finished? && popped == accepted && (framing.Fixed? ==> |popped| == framing.length)
      ensures totalLimit == if bound.Some? then bound else old(totalLimit)
      ensures old(producer).Finished? ==> producer.Finished? && pushed == []
      ensures old(popped) == old(accepted) && old(producer).Finished? ==> taken == []
      ensures finished ==> producer.Finished?
      ensures !Closes(call) ==> receiverAlive == old(receiverAlive)
      ensures |queue| <= |old(queue)| + pieces
    {
      hide Concat;
      pushed, taken, ended, bound, finished, pieces := [], [], false, None, false, 0;
      PopsArePrefix();
      match call {
        case CallBind(maxQueue, limit, mode) =>
          var r := Bind(maxQueue, limit, mode);
          if r.Bound? { bound := Some(limit); }
        case CallTryPush(chunk) => pushed, taken, pieces := ServePush(call);
        case CallPush(chunk, turns) => pushed, taken, pieces := ServePush(call);
        case CallFinish =>
          if !terminated {
            var r := Finish();
            finished := r.Done?;
          }
        case CallDropSender => DropSender();
        case CallPop =>
          var r := TryPop();
          if r.Chunk? { taken := r.bytes; }
          ended := r.Ended?;
        case CallClose => CloseBody();
      }
      PopsArePrefix();
    }

    /** So many pops in a row: chunk by chunk in order, and then the end. */
    method PopEach(pops: nat) returns (taken: seq<Byte>, ended: bool)
      requires Valid()
      modifies this`queue, this`queuedBytes, this`popped
      ensures Valid() && popped == old(popped) + taken
      ensures receiverAlive && pops >= |old(queue)| ==> popped == accepted
      ensures ended <==> receiverAlive && producer.Finished? && pops > |old(queue)|
    {
      hide Concat;
      taken, ended := [], false;
      QueueCounts();
      for i := 0 to pops
        invariant Valid() && popped == old(popped) + taken
        invariant receiverAlive ==> |queue| == if i <= |old(queue)| then |old(queue)| - i else 0
        invariant ended <==> receiverAlive && producer.Finished? && i > |old(queue)|
      {
        QueueCounts();
        var r := TryPop();
        if r.Chunk? { taken := taken + r.bytes; }
        ended := ended || r.Ended?;
      }
      QueueCounts();
    }
  }

  /** A call during which the body may be closed. */
  predicate Closes(call: Call) {
    call.CallClose? || (call.CallPush? && exists k :: 0 <= k < |call.turns| && Close in call.turns[k])
  }

  /** What a caller knows was accepted: everything but what the result hands back. */
  function Reported(chunk: seq<Byte>, r: PushResult): (bytes: seq<Byte>) {
    match r
    case Accepted => chunk
    case Refused(_, kept) => if |kept| <= |chunk| then chunk[..|chunk| - |kept|] else []
    case StillWaiting(kept) => if |kept| <= |chunk| then chunk[..|chunk| - |kept|] else []
  }

  /**
   * Any calls of both sides in any order, then some pops, seen from outside: `pushed` collects what
   * pushes reported as accepted, `popped` what pops returned, `finished` is whether a finish was
   * accepted, and `pieces` bounds the chunks accepted (a blocking push counts its bytes). Bytes arrive
   * in order, none is lost before the end is reported, and the limits hold for what was actually
   * accepted. A finished body that is not closed arrives whole, and its end is reported, after one pop
   * more than there are pieces.
   */
  method Transfer(framing: Framing, capacity: nat, calls: seq<Call>, pops: nat)
    returns (pushed: seq<Byte>, popped: seq<Byte>, ended: bool, bound: Option<nat>, finished: bool, pieces: nat)
    requires capacity > 0
    requires forall i :: 0 <= i < |calls| && calls[i].CallBind? ==> calls[i].limit <= U64_MAX
    ensures popped <= pushed
    ensures ended ==> popped == pushed && (framing.Fixed? ==> |popped| == framing.length)
    ensures framing.Fixed? ==> |pushed| <= framing.length
    ensures bound.Some? ==> |pushed| <= bound.value
    ensures (forall i :: 0 <= i < |calls| ==> !Closes(calls[i])) && pops >= pieces ==> popped == pushed
    ensures (forall i :: 0 <= i < |calls| ==> !Closes(calls[i])) && pops > pieces && finished ==> ended
  {
    hide Concat;
    var upload := new Upload(framing, capacity);
    pushed, popped, ended, bound, finished, pieces := [], [], false, None, false, 0;
    ghost var unclosed := forall i :: 0 <= i < |calls| ==> !Closes(calls[i]);
    for i := 0 to |calls|
      invariant fresh(upload) && upload.Valid() && upload.framing == framing
      invariant pushed == upload.accepted && popped == upload.popped && bound == upload.totalLimit
      invariant ended ==> popped == pushed && upload.producer.Finished? && (framing.Fixed? ==> |popped| == framing.length)
      invariant (finished ==> upload.producer.Finished?) && |upload.queue| <= pieces && (unclosed ==> upload.receiverAlive)
    {
      var more, taken, end, limit, done, added := upload.Serve(calls[i]);
      pushed, popped, ended := pushed + more, popped + taken, ended || end;
      bound := if limit.Some? then limit else bound;
      finished, pieces := finished || done, pieces + added;
    }
    upload.PopsArePrefix();
    var rest, end := upload.PopEach(pops);
    upload.PopsArePrefix();
    popped, ended := popped + rest, ended || end;
  }
}
