/**
 * The bounded response channel of src/stream.rs: a sink fed by the transport, a cancellation-only
 * control, and a unique reader, meeting at one lock and a generation counter. Ghost histories hold
 * the bytes pushed, the bytes delivered and the terminals recorded.
 */
module ResponseChannel {
  import opened Bytes

  const USIZE_MAX: nat := 0xFFFF_FFFF_FFFF_FFFF
  const COLLECT_BUFFER: nat := 16 * 1024

  datatype Terminal = Complete | Failed(error: nat) | Cancelled
  datatype RunMode = Spawned | Manual
  datatype HeadPoll = HeadReady(status: nat) | HeadPending | HeadFailed(error: ReadError)
  datatype ReadError = StreamFailed(error: nat) | StreamCancelled | CompletedWithoutHead | BodyAlreadyRead | WrongMode
  datatype ReadPoll = Pending | Data(bytes: seq<Byte>) | Eof | Errored(error: ReadError)
  datatype PushResult = Pushed | WouldBlock | Closed | Protocol | Limit
  datatype Collected = Collected(status: nat, body: seq<Byte>) | CollectFailed(error: ReadError) | StillWaiting

  /** The chunk being read and how far. */
  datatype Partial = Partial(chunk: seq<Byte>, offset: nat)

  /** What the transport and the canceller may do whenever the reader does not hold the lock. */
  datatype Call =
    | Publish(status: nat, noBody: bool)
    | Push(chunk: seq<Byte>)
    | SinkEnds(terminal: Terminal)
    | SinkDrops
    | ControlFails(error: nat)
    | ControlCancels

  /** One call of either side. */
  datatype Step = Producing(call: Call) | Heading | Reading(size: nat, between: seq<Call>) | ReaderLeaves

  /** The failure a sink leaves behind that goes away without a result. */
  const UNFINISHED: nat := 0

  /** Calls after which the outcome is decided, whether by them or before. */
  predicate Decides(call: Call) { call.SinkEnds? || call.SinkDrops? || call.ControlFails? || call.ControlCancels? }

  /** The outcome a call stands for, if it comes first. */
  function Decision(call: Call): (terminal: Option<Terminal>) {
    match call
    case Publish(_, noBody) => if noBody then Some(Complete) else None
    case Push(_) => None
    case SinkEnds(t) => Some(t)
    case SinkDrops => Some(Failed(UNFINISHED))
    case ControlFails(error) => Some(Failed(error))
    case ControlCancels => Some(Cancelled)
  }

  function ErrorOf(terminal: Terminal): (e: ReadError) {
    match terminal
    case Failed(error) => StreamFailed(error)
    case Cancelled => StreamCancelled
    case Complete => CompletedWithoutHead
  }

  lemma UnreadGrows(part: seq<Byte>, queue: seq<seq<Byte>>, chunk: seq<Byte>, delivered: seq<Byte>, pushed: seq<Byte>)
    requires delivered + (part + Concat(queue)) == pushed
    ensures var longer := if chunk == [] then queue else queue + [chunk];
            delivered + (part + Concat(longer)) == pushed + chunk && |Concat(longer)| == |Concat(queue)| + |chunk|
  {
    ConcatSnoc(queue, chunk);
    hide Concat;
    assert delivered + (part + (Concat(queue) + chunk)) == (delivered + (part + Concat(queue))) + chunk;
  }

  /** Taking `count` bytes off the chunk being read. */
  lemma UnreadShrinks(chunk: seq<Byte>, offset: nat, count: nat, rest: seq<Byte>, delivered: seq<Byte>, pushed: seq<Byte>)
    requires offset + count <= |chunk| && delivered + (chunk[offset..] + rest) == pushed
    ensures delivered + chunk[offset..offset + count] + (chunk[offset + count..] + rest) == pushed
    ensures delivered + chunk[offset..offset + count] <= pushed
  {
    assert chunk[offset..] == chunk[offset..offset + count] + chunk[offset + count..];
  }

  function Least(a: nat, b: nat): (n: nat) { if a < b then a else b }

  class Response {
    const capacity: nat
    const totalLimit: nat
    const runMode: RunMode
    // behind the lock
    var head: Option<nat>
    var noBody: bool
    var queue: seq<seq<Byte>>
    var queuedBytes: nat
    var receivedBytes: nat
    var terminal: Option<Terminal>
    var readerAlive: bool
    var generation: nat
    // the reader's own
    var readerHead: Option<nat>
    var current: Option<Partial>
    var bodyStarted: bool
    var eofReached: bool
    var seenGeneration: nat
    // the sink's own
    var sinkTerminal: bool
    var sinkDropped: bool

    ghost var pushed: seq<Byte>
    ghost var delivered: seq<Byte>
    ghost var recorded: seq<Terminal>
    /** The reader's last look found nothing. */
    ghost var foundNothing: bool

    ghost function Unread(): (bytes: seq<Byte>)
      reads this
    {
      (if current.Some? && current.value.offset <= |current.value.chunk|
       then current.value.chunk[current.value.offset..] else [])
      + Concat(queue)
    }

    /** Still delivering: the reader is there and nothing has failed or been cancelled. */
    ghost predicate Flowing()
      reads this
    {
      readerAlive && (terminal.None? || terminal.value.Complete?)
    }

    /** Nothing for the reader to learn: no terminal, and no head or no bytes. */
    ghost predicate Quiet()
      reads this
    {
      terminal.None? && (head.None? || (current.None? && queue == []))
    }

    ghost predicate Accounted()
      reads this
    {
      && queuedBytes <= capacity
      && receivedBytes == |pushed| <= totalLimit <= USIZE_MAX
      && delivered <= pushed
      && (Flowing() ==> delivered + Unread() == pushed && queuedBytes == |Unread()|)
      && (!Flowing() ==> queue == [] && queuedBytes == 0)
      && (forall i :: 0 <= i < |queue| ==> queue[i] != [])
      && (current.Some? ==> current.value.offset < |current.value.chunk|)
    }

    ghost predicate Valid()
      reads this
    {
      && Accounted()
      && recorded == (if terminal.Some? then [terminal.value] else [])
      && (eofReached ==> terminal == Some(Complete) && delivered == pushed && readerHead.Some?)
      && (noBody ==> head.Some? && terminal == Some(Complete) && pushed == [])
      && (head.None? ==> pushed == [])
      && (readerHead.Some? ==> readerHead == head)
      && (bodyStarted <==> delivered != [])
      && seenGeneration <= generation
      && (foundNothing && seenGeneration == generation ==> Quiet())
      && (sinkTerminal || sinkDropped ==> terminal.Some?)
    }

    constructor (capacity: nat, totalLimit: nat, runMode: RunMode)
      requires totalLimit <= USIZE_MAX
      ensures Valid() && pushed == [] && delivered == [] && terminal.None? && readerAlive && !sinkDropped && !bodyStarted
      ensures this.capacity == capacity && this.totalLimit == totalLimit && this.runMode == runMode
    {
      this.capacity, this.totalLimit, this.runMode := capacity, totalLimit, runMode;
      head, noBody, queue, queuedBytes, receivedBytes, terminal := None, false, [], 0, 0, None;
      readerAlive, generation := true, 0;
      readerHead, current, bodyStarted, eofReached, seenGeneration := None, None, false, false, 0;
      sinkTerminal, sinkDropped := false, false;
      pushed, delivered, recorded, foundNothing := [], [], [], false;
    }

    // ---- the sink ----

    method PublishHead(status: nat, withoutBody: bool) returns (ok: bool)
      requires Valid() && !sinkDropped
      modifies this`head, this`noBody, this`terminal, this`generation, this`sinkTerminal, this`recorded
      ensures Valid()
      ensures ok <==> old(head).None? && old(terminal).None? && readerAlive
      ensures ok ==> head == Some(status) && generation > old(generation)
                     && terminal == if withoutBody then Some(Complete) else None
      ensures !ok ==> head == old(head) && terminal == old(terminal) && generation == old(generation)
    {
      hide Concat;
      if head.Some? || terminal.Some? || !readerAlive {
        return false;
      }
      head, noBody := Some(status), withoutBody;
      if withoutBody {
        terminal, sinkTerminal, recorded := Some(Complete), true, [Complete];
      }
      generation := generation + 1;
      return true;
    }

    /** One complete chunk or nothing; `WouldBlock` means that only room is missing. */
    method TryPush(chunk: seq<Byte>) returns (r: PushResult)
      requires Valid() && !sinkDropped
      modifies this`queue, this`queuedBytes, this`receivedBytes, this`generation, this`pushed
      ensures Valid()
      ensures pushed == old(pushed) + (if r.Pushed? then chunk else [])
      ensures r.Pushed? <==> readerAlive && terminal.None? && head.Some? && |old(pushed)| + |chunk| <= totalLimit
                             && |chunk| <= capacity - old(queuedBytes)
      ensures r.WouldBlock? <==> readerAlive && terminal.None? && head.Some? && |old(pushed)| + |chunk| <= totalLimit
                                 && |chunk| > capacity - old(queuedBytes)
      ensures r.Closed? <==> !readerAlive || terminal.Some?
      ensures r.Protocol? <==> readerAlive && terminal.None? && head.None?
      ensures generation == old(generation) + (if r.Pushed? then 1 else 0)
      ensures !r.Pushed? ==> queue == old(queue)
    {
      hide Concat;
      if !readerAlive || terminal.Some? {
        return Closed;
      }
      if head.None? {
        return Protocol;
      }
      if receivedBytes + |chunk| > USIZE_MAX || receivedBytes + |chunk| > totalLimit {
        return Limit;
      }
      if |chunk| > capacity - queuedBytes {
        return WouldBlock;
      }
      Enqueue(chunk);
      return Pushed;
    }

    method Enqueue(chunk: seq<Byte>)
      requires Valid() && readerAlive && terminal.None? && head.Some?
      requires |chunk| <= capacity - queuedBytes && |pushed| + |chunk| <= totalLimit
      modifies this`queue, this`queuedBytes, this`receivedBytes, this`generation, this`pushed
      ensures Valid() && pushed == old(pushed) + chunk && generation == old(generation) + 1
    {
      hide Concat, Response.Quiet;
      ghost var part := if current.Some? then current.value.chunk[current.value.offset..] else [];
      UnreadGrows(part, queue, chunk, delivered, pushed);
      receivedBytes, queuedBytes := receivedBytes + |chunk|, queuedBytes + |chunk|;
      if chunk != [] {
        queue := queue + [chunk];
      }
      pushed := pushed + chunk;
      generation := generation + 1;
    }

    /** Shared by sink and control: the first terminal stays, and only completion keeps the queue. */
    method Commit(t: Terminal) returns (won: bool)
      requires Valid()
      modifies this`queue, this`queuedBytes, this`terminal, this`generation, this`recorded
      ensures Valid()
      ensures won <==> old(terminal).None?
      ensures terminal == if won then Some(t) else old(terminal)
      ensures recorded == if won then old(recorded) + [t] else old(recorded)
      ensures !won ==> queue == old(queue)
      ensures generation == old(generation) + (if won then 1 else 0)
    {
      hide Concat;
      if terminal.Some? {
        return false;
      }
      if !t.Complete? {
        queue, queuedBytes := [], 0;
      }
      terminal, recorded := Some(t), [t];
      generation := generation + 1;
      return true;
    }

    method EndBySink(t: Terminal)
      requires Valid() && !sinkDropped
      modifies this`queue, this`queuedBytes, this`terminal, this`generation, this`recorded, this`sinkTerminal
      ensures Valid() && terminal == if old(terminal).None? then Some(t) else old(terminal)
      ensures generation >= old(generation) && (old(terminal).Some? <==> generation == old(generation))
      ensures generation == old(generation) ==> queue == old(queue)
    {
      hide Concat;
      var won := Commit(t);
      if won {
        sinkTerminal := true;
      }
    }

    /** A sink that goes away leaves a terminal behind, whoever set it. */
    method DropSink()
      requires Valid() && !sinkDropped
      modifies this`queue, this`queuedBytes, this`terminal, this`generation, this`recorded, this`sinkTerminal, this`sinkDropped
      ensures Valid() && sinkDropped
      ensures terminal == if old(terminal).None? then Some(Failed(UNFINISHED)) else old(terminal)
      ensures generation >= old(generation) && (old(terminal).Some? <==> generation == old(generation))
      ensures generation == old(generation) ==> queue == old(queue)
    {
      hide Concat;
      if !sinkTerminal {
        EndBySink(Failed(UNFINISHED));
      }
      sinkDropped := true;
    }

    /**
     * One call of the sink or the control; a dropped sink makes no calls. Whatever changes for the
     * reader also changes the generation, so a reader that waits is not left asleep.
     */
    method Produce(call: Call) returns (added: seq<Byte>, won: bool)
      requires Valid()
      modifies this`head, this`noBody, this`queue, this`queuedBytes, this`receivedBytes, this`terminal, this`generation,
               this`recorded, this`sinkTerminal, this`sinkDropped, this`pushed
      ensures Valid() && pushed == old(pushed) + added && generation >= old(generation)
      ensures won <==> old(terminal).None? && terminal.Some?
      ensures won ==> terminal == Decision(call)
      ensures Decides(call) ==> terminal.Some?
      ensures old(terminal).Some? ==> terminal == old(terminal) && added == []
      ensures old(head).Some? ==> head == old(head)
      ensures !readerAlive ==> added == []
      ensures generation == old(generation) ==>
                head == old(head) && terminal == old(terminal) && queue == old(queue) && added == []
    {
      hide Concat;
      added := [];
      var had := terminal.Some?;
      match call {
        case Publish(status, withoutBody) => if !sinkDropped { var _ := PublishHead(status, withoutBody); }
        case Push(chunk) =>
          if !sinkDropped {
            var r := TryPush(chunk);
            if r.Pushed? { added := chunk; }
          }
        case SinkEnds(t) => if !sinkDropped { EndBySink(t); }
        case SinkDrops => if !sinkDropped { DropSink(); }
        case ControlFails(error) => var _ := Commit(Failed(error));
        case ControlCancels => var _ := Commit(Cancelled);
      }
      won := !had && terminal.Some?;
    }

    method ProduceAll(calls: seq<Call>) returns (added: seq<Byte>)
      requires Valid()
      modifies this`head, this`noBody, this`queue, this`queuedBytes, this`receivedBytes, this`terminal, this`generation,
               this`recorded, this`sinkTerminal, this`sinkDropped, this`pushed
      ensures Valid() && pushed == old(pushed) + added && generation >= old(generation)
      ensures old(terminal).Some? ==> terminal == old(terminal) && added == []
      ensures old(head).Some? ==> head == old(head)
      ensures !readerAlive ==> added == []
      ensures calls == [] ==> added == [] && terminal == old(terminal) && queue == old(queue)
      ensures (exists i :: 0 <= i < |calls| && Decides(calls[i])) ==> terminal.Some?
    {
      hide Response.Accounted;
      added := [];
      for i := 0 to |calls|
        invariant Valid() && pushed == old(pushed) + added && generation >= old(generation)
        invariant old(terminal).Some? ==> terminal == old(terminal) && added == []
        invariant old(head).Some? ==> head == old(head)
        invariant !readerAlive ==> added == []
        invariant i == 0 ==> terminal == old(terminal) && added == [] && queue == old(queue)
        invariant (exists k :: 0 <= k < i && Decides(calls[k])) ==> terminal.Some?
      {
        var more, won := Produce(calls[i]);
        added := added + more;
      }
    }

    // ---- the reader ----

    method TryHead() returns (r: HeadPoll)
      requires Valid() && readerAlive
      modifies this`readerHead, this`eofReached, this`seenGeneration, this`foundNothing
      ensures Valid()
      ensures r.HeadReady? <==> head.Some?
      ensures r.HeadReady? ==> head == readerHead == Some(r.status)
      ensures r.HeadPending? <==> head.None? && terminal.None?
      ensures r.HeadPending? ==> foundNothing && seenGeneration == generation
      ensures r.HeadFailed? ==> terminal.Some? && r.error == ErrorOf(terminal.value)
      ensures eofReached <==> old(KnowsEnd())
    {
      hide Concat;
      if readerHead.None? {
        seenGeneration, foundNothing := generation, false;
        if head.Some? {
          readerHead := head;
          if noBody && terminal == Some(Complete) {
            eofReached := true;
          }
        } else if terminal.Some? {
          return HeadFailed(ErrorOf(terminal.value));
        } else {
          foundNothing := true;
          return HeadPending;
        }
      }
      return HeadReady(readerHead.value);
    }

    /** The reader knows of the end, or learns of it with the head of a response without body. */
    ghost predicate KnowsEnd()
      reads this
    {
      eofReached || (readerHead.None? && noBody)
    }

    /** A read of this size comes to look at the body. */
    ghost predicate Looks(size: nat)
      reads this
    {
      head.Some? && !KnowsEnd() && size > 0
    }

    /** The length of the chunk that is read next, as far as there is one. */
    ghost function NextLength(): (n: nat)
      reads this
    {
      if current.Some? && current.value.offset < |current.value.chunk| then |current.value.chunk| - current.value.offset
      else if queue != [] then |queue[0]| else 0
    }

    /**
     * Reads at most `size` bytes; `between` is what the producers do after the look for the head and
     * before the look at the body. Whatever comes back continues what was delivered before: bytes as
     * long as there are any and nothing has failed, the end exactly when a complete response has been
     * delivered whole, a failure as soon as there is one, and nothing only while nothing is known.
     */
    method TryRead(size: nat, between: seq<Call>) returns (r: ReadPoll, added: seq<Byte>)
      requires Valid() && readerAlive
      modifies this
      ensures Valid() && readerAlive && pushed == old(pushed) + added
      ensures old(terminal).Some? ==> terminal == old(terminal) && added == []
      ensures old(head).Some? ==> head == old(head)
      ensures delivered == old(delivered) + (if r.Data? then r.bytes else [])
      ensures !old(Looks(size)) ==> terminal == old(terminal) && head == old(head) && added == []
      ensures !old(Looks(size)) ==>
                r == if head.None? then if terminal.None? then Pending else Errored(ErrorOf(terminal.value))
                     else if old(KnowsEnd()) then Eof else Data([])
      ensures old(Looks(size)) ==>
                && (r.Errored? <==> terminal.Some? && !terminal.value.Complete?)
                && (r.Errored? ==> r.error == ErrorOf(terminal.value))
                && (r.Eof? <==> terminal == Some(Complete) && old(delivered) == pushed)
                && (r.Data? <==> Flowing() && old(delivered) != pushed)
                && (r.Pending? <==> terminal.None? && old(delivered) == pushed)
                && (r.Data? ==> 0 < |r.bytes| <= size)
                && (r.Data? && between == [] ==> |r.bytes| == Least(size, old(NextLength())))
      ensures eofReached <==> old(KnowsEnd()) || (old(Looks(size)) && terminal == Some(Complete) && delivered == pushed)
      ensures r.Pending? ==> Quiet() && foundNothing && seenGeneration == generation
      ensures between == [] ==> head == old(head) && terminal == old(terminal) && added == []
    {
      hide Concat, Response.Accounted, Response.Quiet;
      added := [];
      var h := TryHead();
      if h.HeadFailed? {
        return Errored(h.error), [];
      }
      if h.HeadPending? {
        return Pending, [];
      }
      if eofReached {
        return Eof, [];
      }
      if size == 0 {
        return Data([]), [];
      }
      added := ProduceAll(between);
      r := ReadBody(size);
    }

    /** The look at the body, in one hold of the lock. */
    method ReadBody(size: nat) returns (r: ReadPoll)
      requires Valid() && readerAlive && readerHead.Some? && !eofReached && size > 0
      modifies this`eofReached, this`seenGeneration, this`foundNothing, this`current, this`queue,
               this`queuedBytes, this`generation, this`bodyStarted, this`delivered
      ensures Valid()
      ensures delivered == old(delivered) + (if r.Data? then r.bytes else [])
      ensures r.Errored? <==> terminal.Some? && !terminal.value.Complete?
      ensures r.Errored? ==> r.error == ErrorOf(terminal.value)
      ensures r.Eof? <==> terminal == Some(Complete) && old(delivered) == pushed
      ensures r.Data? <==> Flowing() && old(delivered) != pushed
      ensures r.Pending? <==> terminal.None? && old(delivered) == pushed
      ensures r.Data? ==> 0 < |r.bytes| == Least(size, old(NextLength()))
      ensures eofReached <==> terminal == Some(Complete) && delivered == pushed
      ensures r.Pending? ==> Quiet() && foundNothing && seenGeneration == generation
    {
      hide Concat;
      seenGeneration, foundNothing := generation, false;
      if terminal.Some? && !terminal.value.Complete? {
        current := None;
        return Errored(ErrorOf(terminal.value));
      }
      r := ReadChunk(size);
    }

    /** The part of a read that needs a chunk: the one begun before, or the next of the queue. */
    method ReadChunk(size: nat) returns (r: ReadPoll)
      requires Valid() && Flowing() && readerHead.Some? && !eofReached && size > 0
      requires seenGeneration == generation && !foundNothing
      modifies this`current, this`queue, this`queuedBytes, this`generation, this`seenGeneration, this`bodyStarted,
               this`eofReached, this`delivered, this`foundNothing
      ensures Valid() && !r.Errored?
      ensures delivered == old(delivered) + (if r.Data? then r.bytes else [])
      ensures r.Eof? <==> terminal == Some(Complete) && old(delivered) == pushed
      ensures r.Data? <==> old(delivered) != pushed
      ensures r.Data? ==> 0 < |r.bytes| == Least(size, old(NextLength()))
      ensures eofReached <==> terminal == Some(Complete) && delivered == pushed
      ensures r.Pending? ==> Quiet() && foundNothing && seenGeneration == generation
    {
      hide Concat;
      ReadsWhatIsLeft();
      if current.None? {
        if queue == [] {
          NothingUnread();
          if terminal == Some(Complete) {
            eofReached := true;
            return Eof;
          }
          foundNothing := true;
          return Pending;
        }
        TakeChunk();
      }
      var bytes := Copy(size);
      return Data(bytes);
    }

    lemma ReadsWhatIsLeft()
      requires Valid() && Flowing()
      ensures delivered == pushed <==> current.None? && queue == []
    {
      if current.None? && queue != [] { assert |Concat(queue)| >= |queue[0]| > 0; }
    }

    lemma NothingUnread()
      requires Valid() && Flowing() && current.None? && queue == []
      ensures delivered == pushed && queuedBytes == 0
    {
      assert Unread() == [];
    }

    method TakeChunk()
      requires Valid() && Flowing() && current.None? && queue != [] && !foundNothing && !eofReached
      modifies this`current, this`queue
      ensures Valid() && current.Some? && NextLength() == old(NextLength())
    {
      assert [] + Concat(queue) == queue[0] + Concat(queue[1..]);
      current, queue := Some(Partial(queue[0], 0)), queue[1..];
      assert current.value.chunk[0..] == current.value.chunk;
    }

    /** Copies what fits, gives the room back and looks ahead for the end. */
    method Copy(size: nat) returns (bytes: seq<Byte>)
      requires Valid() && Flowing() && readerHead.Some? && current.Some? && size > 0 && !eofReached && !foundNothing
      modifies this`current, this`queuedBytes, this`generation, this`seenGeneration, this`bodyStarted, this`eofReached,
               this`delivered
      ensures Valid() && delivered == old(delivered) + bytes && 0 < |bytes| == Least(size, old(NextLength()))
      ensures eofReached <==> terminal == Some(Complete) && delivered == pushed
    {
      hide Concat;
      var left := |current.value.chunk| - current.value.offset;
      bytes := Consume(Least(size, left));
      ReadsWhatIsLeft();
      if current.None? && queue == [] {
        NothingUnread();
        if terminal == Some(Complete) {
          eofReached := true;
        }
      }
    }

    method Consume(count: nat) returns (bytes: seq<Byte>)
      requires Valid() && Flowing() && current.Some? && !eofReached && !foundNothing
      requires 0 < count <= |current.value.chunk| - current.value.offset
      modifies this`current, this`queuedBytes, this`generation, this`seenGeneration, this`bodyStarted, this`delivered
      ensures Valid() && delivered == old(delivered) + bytes && |bytes| == count
    {
      hide Concat, Response.Quiet;
      var Partial(chunk, offset) := current.value;
      UnreadShrinks(chunk, offset, count, Concat(queue), delivered, pushed);
      bytes := chunk[offset..offset + count];
      current := if offset + count == |chunk| then None else Some(Partial(chunk, offset + count));
      delivered, bodyStarted, queuedBytes := delivered + bytes, true, queuedBytes - count;
      generation, seenGeneration := generation + 1, generation + 1;
    }

    /** Whether `wait_for_change` would sleep: never while there is something the reader has not seen. */
    method WouldSleep() returns (sleeps: bool)
      requires Valid()
      ensures sleeps <==> generation == seenGeneration
      ensures sleeps && foundNothing ==> Quiet()
    {
      sleeps := generation == seenGeneration;
    }

    /**
     * The reader leaves. It asks for cancellation exactly when it does not know of the end itself,
     * which it does only after a look that met the completion with everything delivered.
     */
    method DropReader() returns (cancels: bool)
      requires Valid() && readerAlive
      modifies this`readerAlive, this`queue, this`queuedBytes, this`generation
      ensures Valid() && !readerAlive
      ensures !cancels ==> terminal == Some(Complete) && delivered == pushed
      ensures cancels <==> !eofReached
    {
      hide Concat;
      readerAlive, queue, queuedBytes := false, [], 0;
      generation := generation + 1;
      cancels := !eofReached;
    }

    /**
     * The whole drop of a reader: it leaves, others act, and then its request for cancellation is
     * served. A terminal that was recorded before, completion included, is not changed by it, and
     * without one the response ends: cancelled, unless someone else decided it meanwhile.
     */
    method Leave(between: seq<Call>)
      requires Valid() && readerAlive
      modifies this
      ensures Valid() && !readerAlive && terminal.Some?
      ensures old(terminal).Some? ==> terminal == old(terminal) && recorded == old(recorded)
      ensures old(terminal).None? && between == [] ==> terminal == Some(Cancelled)
    {
      hide Concat, Response.Accounted, Response.Quiet;
      var cancels := DropReader();
      var _ := ProduceAll(between);
      if cancels {
        var won := Commit(Cancelled);
      }
    }

    method Serve(step: Step) returns (added: seq<Byte>, got: seq<Byte>, ended: bool, won: bool)
      requires Valid()
      modifies this
      ensures Valid() && pushed == old(pushed) + added && delivered == old(delivered) + got
      ensures won <==> old(terminal).None? && terminal.Some?
      ensures old(terminal).Some? ==> terminal == old(terminal) && added == []
      ensures ended ==> terminal == Some(Complete) && delivered == pushed
      ensures step.Producing? && Decides(step.call) ==> terminal.Some?
      ensures !old(readerAlive) ==> !readerAlive && got == [] && added == []
      ensures old(readerAlive) && !step.ReaderLeaves? ==> readerAlive
    {
      hide Concat, Response.Accounted;
      added, got, ended, won := [], [], false, false;
      match step {
        case Producing(call) => added, won := Produce(call);
        case Heading => if readerAlive { var _ := TryHead(); }
        case Reading(size, between) =>
          if readerAlive {
            var had := terminal.Some?;
            var r;
            r, added := TryRead(size, between);
            if r.Data? { got := r.bytes; }
            ended := r.Eof?;
            won := !had && terminal.Some?;
          }
        case ReaderLeaves => if readerAlive { var _ := DropReader(); }
      }
    }

    /** So many reads in a row, with nothing between them. */
    method ReadEach(times: nat, size: nat) returns (got: seq<Byte>, ended: bool)
      requires Valid() && readerAlive && size > 0
      modifies this
      ensures Valid() && readerAlive && pushed == old(pushed) && terminal == old(terminal) && head == old(head)
      ensures delivered == old(delivered) + got
      ensures ended ==> terminal == Some(Complete) && delivered == pushed
      ensures head.Some? && terminal == Some(Complete) && times > |pushed| - |old(delivered)| ==> ended
    {
      hide Concat, Response.Accounted, Response.Quiet, Response.NextLength, Response.Unread;
      got, ended := [], false;
      var i := 0;
      while i < times
        invariant Valid() && readerAlive && pushed == old(pushed) && terminal == old(terminal) && head == old(head)
        invariant delivered == old(delivered) + got && i <= times
        invariant ended ==> terminal == Some(Complete) && delivered == pushed
        invariant head.Some? && terminal == Some(Complete) && !ended ==> |got| >= i
      {
        var r, added := TryRead(size, []);
        if r.Data? { got := got + r.bytes; }
        ended := ended || r.Eof?;
        InOrder(this);
        i := i + 1;
      }
      InOrder(this);
    }

    /**
     * Reads to the end. `turns[k]` is what the producers do before the reader has the lock for the
     * `k`-th time. An untouched reader in spawned mode collects exactly the bytes pushed, all of them,
     * if and only if the response is complete; it fails with the terminal's own error, and still waits
     * only if no producer has decided the outcome in any of the turns.
     */
    method Collect(turns: seq<seq<Call>>) returns (r: Collected)
      requires Valid() && readerAlive
      modifies this
      ensures Valid()
      ensures runMode.Manual? <==> r == CollectFailed(WrongMode)
      ensures old(delivered) != [] && runMode.Spawned? <==> r == CollectFailed(BodyAlreadyRead)
      ensures old(delivered) == [] && runMode.Spawned? ==>
                && (r.Collected? <==> terminal == Some(Complete) && head.Some?)
                && (r.StillWaiting? <==> terminal.None?)
                && (r.CollectFailed? ==> r.error == ErrorOf(terminal.value))
      ensures r.Collected? ==> r.body == pushed && head == Some(r.status)
      ensures r.StillWaiting? ==> forall k, i :: 0 <= k < |turns| && 0 <= i < |turns[k]| ==> !Decides(turns[k][i])
    {
      hide Concat, Response.Accounted, Response.Quiet;
      if runMode.Manual? {
        return CollectFailed(WrongMode);
      }
      if bodyStarted {
        return CollectFailed(BodyAlreadyRead);
      }
      var k, body := 0, [];
      while true
        invariant Valid() && readerAlive && k <= |turns| && body == delivered
        invariant terminal.None? ==> forall j, i :: 0 <= j < k && 0 <= i < |turns[j]| ==> !Decides(turns[j][i])
        decreases |turns| - k, |pushed| - |delivered|
      {
        var last := k == |turns|;
        if !last {
          var _ := ProduceAll(turns[k]);
          k := k + 1;
        }
        var poll, _ := TryRead(COLLECT_BUFFER, []);
        InOrder(this);
        match poll {
          case Data(bytes) => body := body + bytes;
          case Eof => return Collected(readerHead.value, body);
          case Errored(error) => return CollectFailed(error);
          case Pending => if last { return StillWaiting; }
        }
      }
    }
  }

  /**
   * Any calls of sink, control and reader in any order, then some reads of `size` bytes, seen from
   * outside: `pushed` collects what pushes reported as taken, `delivered` what reads returned, and
   * `terminals` counts the calls that decided the outcome. The reader may look for the head, read and
   * leave at any time, and producers may act in the middle of a read. Bytes arrive in order, the end
   * is reported only after the last of them, and the outcome is decided at most once. A response that
   * is complete and whose reader stays arrives whole, and its end is reported, after one read more
   * than it has bytes.
   */
  method Exchange(capacity: nat, totalLimit: nat, steps: seq<Step>, times: nat, size: nat)
    returns (pushed: seq<Byte>, delivered: seq<Byte>, eof: bool, terminals: nat, outcome: Option<Terminal>, headed: bool)
    requires totalLimit <= USIZE_MAX && size > 0
    ensures delivered <= pushed && |pushed| <= totalLimit
    ensures eof ==> delivered == pushed && outcome == Some(Complete)
    ensures terminals == if outcome.Some? then 1 else 0
    ensures (exists i :: 0 <= i < |steps| && steps[i].Producing? && Decides(steps[i].call)) ==> outcome.Some?
    ensures ReaderLeaves !in steps && outcome == Some(Complete) && headed && times > |pushed| ==> eof
  {
    hide Concat, Response.Accounted;
    var response := new Response(capacity, totalLimit, Spawned);
    pushed, delivered, eof, terminals := [], [], false, 0;
    for i := 0 to |steps|
      invariant fresh(response) && response.Valid() && response.totalLimit == totalLimit
      invariant pushed == response.pushed && delivered == response.delivered
      invariant terminals == (if response.terminal.Some? then 1 else 0)
      invariant eof ==> response.terminal == Some(Complete) && delivered == pushed
      invariant (exists k :: 0 <= k < i && steps[k].Producing? && Decides(steps[k].call)) ==> response.terminal.Some?
      invariant ReaderLeaves !in steps[..i] ==> response.readerAlive
    {
      assert steps[..i + 1] == steps[..i] + [steps[i]];
      var added, got, ended, won := response.Serve(steps[i]);
      InOrder(response);
      pushed, delivered, eof := pushed + added, delivered + got, eof || ended;
      terminals := terminals + if won then 1 else 0;
    }
    assert steps[..|steps|] == steps;
    if response.readerAlive {
      var got, ended := response.ReadEach(times, size);
      delivered, eof := delivered + got, eof || ended;
    }
    InOrder(response);
    outcome, headed := response.terminal, response.head.Some?;
  }

  lemma InOrder(response: Response)
    requires response.Valid()
    ensures response.delivered <= response.pushed && |response.pushed| <= response.totalLimit
    ensures response.readerAlive && response.terminal.None? && response.pushed == response.delivered ==> response.queuedBytes == 0
  {
  }

  /**
   * A reader that takes the last byte before completion is recorded does not know of the end: it
   * leaves a complete, completely delivered response with a request for cancellation.
   */
  method UnseenCompletion(byte: Byte) returns (pushed: seq<Byte>, delivered: seq<Byte>, terminal: Option<Terminal>, cancels: bool)
    ensures cancels && terminal == Some(Complete) && delivered == pushed == [byte]
  {
    hide Concat, Response.Accounted, Response.Flowing, Response.Quiet, Response.Unread, Response.NextLength;
    var response := new Response(1, 1, Spawned);
    var published := response.PublishHead(200, false);
    InOrder(response);
    var r := response.TryPush([byte]);
    var poll, _ := response.TryRead(1, []);
    InOrder(response);
    assert [] + poll.bytes == poll.bytes && [] + [byte] == [byte];
    response.EndBySink(Complete);
    pushed, delivered, terminal := [byte], poll.bytes, response.terminal;
    cancels := response.DropReader();
  }
}
