/**
 * The buffered-body ledger of src/body_budget.rs as it runs concurrently: any number of buffers,
 * each at some point of an admission, a reservation or a growth, sharing one byte budget whose
 * `used` and `peak` are changed by single atomic operations.
 */
module BodyLedger {
  import opened Bytes

  const USIZE_MAX: nat := 0xFFFF_FFFF_FFFF_FFFF
  const ISIZE_MAX: nat := 0x7FFF_FFFF_FFFF_FFFF

  // ---- one buffer ----

  /** What an acquisition is for. `tail` is appended once the larger storage is in place. */
  datatype Goal =
    | Admit(bytes: seq<Byte>, capacity: nat)
    | Plan(capacity: nat)
    | Grow(capacity: nat, tail: seq<Byte>)

  datatype Stage =
    | Idle
    | Loaded(want: nat, seen: nat, goal: Goal)   // `used` has been read, the exchange has not been tried
    | Won(want: nat, next: nat, goal: Goal)      // the exchange succeeded, `peak` has not been raised
    | Replacing                                  // the new reservation is held, the one before it is not refunded
    | Charged(goal: Goal)                        // the permit for the new storage is held
    | Allocated(goal: Goal)                      // old and new storage exist side by side
    | Freed(goal: Goal)                          // the old storage is gone, its permit is not
    | Dropping                                   // the storage is gone, both permits are not
    | Refunded                                   // only the reservation is left to refund
    | Gone

  /**
   * `permit` covers the storage and `reserved` is the future permit; `incoming` is a third one, of a
   * growth or of a reservation that has just been replaced.
   */
  datatype Buffer = Buffer(
    bytes: seq<Byte>, capacity: nat, permit: nat, reserved: Option<nat>, planned: nat, incoming: nat, stage: Stage)

  const NEW_BUFFER: Buffer := Buffer([], 0, 0, None, 0, 0, Idle)

  function Reservation(b: Buffer): (n: nat) { if b.reserved.Some? then b.reserved.value else 0 }

  /** Bytes of the budget this buffer's live permits stand for. */
  function Held(b: Buffer): (n: nat) {
    b.permit + Reservation(b) + b.incoming + (if b.stage.Won? then b.stage.want else 0)
  }

  /** Bytes of budget-owned storage this buffer has allocated. */
  function Storage(b: Buffer): (n: nat) { b.capacity + (if b.stage.Allocated? then b.stage.goal.capacity else 0) }

  /** Between operations: the charge is the capacity, and the plan is the reservation. */
  ghost predicate Settled(b: Buffer) {
    b.permit == b.capacity && |b.bytes| <= b.capacity && b.planned == Reservation(b) && b.incoming == 0
  }

  ghost predicate GoalOk(b: Buffer, want: nat, goal: Goal) {
    match goal
    case Admit(bytes, capacity) => b.(stage := Idle) == NEW_BUFFER && |bytes| <= capacity && want == capacity
    case Plan(capacity) => want == capacity
    case Grow(capacity, tail) =>
      b.capacity < capacity && b.planned <= capacity && |b.bytes| + |tail| <= capacity
      && want + Reservation(b) == capacity
  }

  ghost predicate BufferOk(b: Buffer) {
    match b.stage
    case Idle => Settled(b)
    case Loaded(want, _, goal) => Settled(b) && GoalOk(b, want, goal)
    case Won(want, _, goal) => Settled(b) && GoalOk(b, want, goal)
    case Replacing => b.permit == b.capacity && |b.bytes| <= b.capacity && b.planned == Reservation(b)
    case Charged(goal) =>
      goal.Grow? && b.permit == b.capacity && b.incoming == goal.capacity && b.reserved.None? && b.planned == 0
      && |b.bytes| <= b.capacity && |b.bytes| + |goal.tail| <= goal.capacity
    case Allocated(goal) =>
      goal.Grow? && b.permit == b.capacity && b.incoming == goal.capacity && b.reserved.None? && b.planned == 0
      && |b.bytes| <= b.capacity && |b.bytes| + |goal.tail| <= goal.capacity
    case Freed(goal) =>
      goal.Grow? && b.incoming == b.capacity == goal.capacity && b.reserved.None? && b.planned == 0
      && |b.bytes| + |goal.tail| <= goal.capacity
    case Dropping => b.capacity == 0 && b.bytes == [] && b.incoming == 0
    case Refunded => b.capacity == 0 && b.bytes == [] && b.permit == 0 && b.incoming == 0
    case Gone => Storage(b) == 0 && Held(b) == 0
  }

  // ---- the shared budget ----

  datatype Ledger = Ledger(limit: Option<nat>, used: nat, peak: nat, buffers: seq<Buffer>)

  /** The checked addition and the limit of `acquire`. */
  predicate Fits(limit: Option<nat>, used: nat) { used <= USIZE_MAX && (limit.Some? ==> used <= limit.value) }

  function Max(a: nat, b: nat): (m: nat) { if a < b then b else a }

  /** The atomic subtraction wraps; that it never does is part of what is proved. */
  function Release(l: Ledger, n: nat): (r: Ledger) {
    l.(used := if n <= l.used then l.used - n else Max(l.used + USIZE_MAX + 1, n) - n)
  }

  datatype Step =
    | NewBuffer
    | Begin(i: nat, goal: Goal)
    | Exchange(i: nat, spurious: bool)
    | Record(i: nat)
    | Allocate(i: nat)
    | FreeOld(i: nat)
    | Install(i: nat)
    | Append(i: nat, tail: seq<Byte>)
    | Drop(i: nat)
    | Refund(i: nat)
    | IntoVec(i: nat)

  function With(l: Ledger, i: nat, b: Buffer): (r: Ledger)
    requires i < |l.buffers|
  {
    l.(buffers := l.buffers[i := b])
  }

  /** The buffer once the permit for its goal is held and `peak` is up to date. */
  function Acquired(b: Buffer, want: nat, goal: Goal): (r: Buffer) {
    match goal
    case Admit(bytes, capacity) => b.(bytes := bytes, capacity := capacity, permit := want, stage := Idle)
    case Plan(capacity) =>
      b.(reserved := Some(want), planned := capacity, incoming := Reservation(b), stage := Replacing)
    case Grow(_, _) => b.(reserved := None, planned := 0, incoming := Reservation(b) + want, stage := Charged(goal))
  }

  /** The goal as the operation computes it: a growth never asks for less than was planned. */
  function Adjusted(b: Buffer, goal: Goal): (g: Goal) {
    if goal.Grow? then goal.(capacity := Max(goal.capacity, b.planned)) else goal
  }

  function Want(b: Buffer, goal: Goal): (n: int) {
    if goal.Grow? then goal.capacity - Reservation(b) else goal.capacity
  }

  predicate Admissible(b: Buffer, goal: Goal) {
    match goal
    case Admit(bytes, capacity) => b == NEW_BUFFER && |bytes| <= capacity
    case Plan(capacity) => capacity <= ISIZE_MAX
    case Grow(capacity, tail) =>
      capacity <= ISIZE_MAX && b.capacity < capacity && |b.bytes| + |tail| <= capacity && Want(b, goal) >= 0
  }

  function BeginStep(l: Ledger, i: nat, goal: Goal): (r: Ledger)
    requires i < |l.buffers|
  {
    var b := l.buffers[i];
    var g := Adjusted(b, goal);
    if !b.stage.Idle? || !Admissible(b, g) then l
    else if Want(b, g) == 0 then With(l, i, Acquired(b, 0, g))
    else With(l, i, b.(stage := Loaded(Want(b, g), l.used, g)))
  }

  /** One round of the compare-exchange loop; a round that no longer fits gives up and changes nothing. */
  function ExchangeStep(l: Ledger, i: nat, spurious: bool): (r: Ledger)
    requires i < |l.buffers|
  {
    var b := l.buffers[i];
    if !b.stage.Loaded? then l
    else
      var Loaded(want, seen, goal) := b.stage;
      if !Fits(l.limit, seen + want) then With(l, i, b.(stage := Idle))
      else if l.used == seen && !spurious
      then With(l, i, b.(stage := Won(want, seen + want, goal))).(used := seen + want)
      else With(l, i, b.(stage := Loaded(want, l.used, goal)))
  }

  function RecordStep(l: Ledger, i: nat): (r: Ledger)
    requires i < |l.buffers|
  {
    var b := l.buffers[i];
    if !b.stage.Won? then l
    else
      var Won(want, next, goal) := b.stage;
      With(l, i, Acquired(b, want, goal)).(peak := Max(l.peak, next))
  }

  function Do(l: Ledger, step: Step): (r: Ledger) {
    match step
    case NewBuffer => l.(buffers := l.buffers + [NEW_BUFFER])
    case Begin(i, goal) => if i < |l.buffers| then BeginStep(l, i, goal) else l
    case Exchange(i, spurious) => if i < |l.buffers| then ExchangeStep(l, i, spurious) else l
    case Record(i) => if i < |l.buffers| then RecordStep(l, i) else l
    case Allocate(i) =>
      if i < |l.buffers| && l.buffers[i].stage.Charged?
      then With(l, i, l.buffers[i].(stage := Allocated(l.buffers[i].stage.goal))) else l
    case FreeOld(i) =>
      if i < |l.buffers| && l.buffers[i].stage.Allocated?
      then With(l, i, l.buffers[i].(capacity := l.buffers[i].stage.goal.capacity, stage := Freed(l.buffers[i].stage.goal)))
      else l
    case Install(i) =>
      if i < |l.buffers| && l.buffers[i].stage.Freed? && l.buffers[i].stage.goal.Grow? then
        var b := l.buffers[i];
        Release(With(l, i, b.(bytes := b.bytes + b.stage.goal.tail, permit := b.incoming, incoming := 0, stage := Idle)), b.permit)
      else l
    case Append(i, tail) =>
      if i < |l.buffers| && l.buffers[i].stage.Idle? && |l.buffers[i].bytes| + |tail| <= l.buffers[i].capacity
      then With(l, i, l.buffers[i].(bytes := l.buffers[i].bytes + tail)) else l
    case Drop(i) =>
      if i < |l.buffers| && l.buffers[i].stage.Idle?
      then With(l, i, l.buffers[i].(bytes := [], capacity := 0, stage := Dropping)) else l
    case Refund(i) =>
      if i < |l.buffers| && l.buffers[i].stage.Dropping?
      then Release(With(l, i, l.buffers[i].(permit := 0, stage := Refunded)), l.buffers[i].permit)
      else if i < |l.buffers| && l.buffers[i].stage.Replacing?
      then Release(With(l, i, l.buffers[i].(incoming := 0, stage := Idle)), l.buffers[i].incoming)
      else if i < |l.buffers| && l.buffers[i].stage.Refunded?
      then Release(With(l, i, l.buffers[i].(reserved := None, planned := 0, stage := Gone)), Reservation(l.buffers[i]))
      else l
    case IntoVec(i) =>
      if i < |l.buffers| && l.buffers[i].stage.Idle?
      then Release(With(l, i, l.buffers[i].(bytes := [], capacity := 0, permit := 0, stage := Refunded)), l.buffers[i].permit)
      else l
  }

  // ---- conservation ----

  function SumHeld(bs: seq<Buffer>): (n: nat) { if bs == [] then 0 else Held(bs[0]) + SumHeld(bs[1..]) }
  function SumStorage(bs: seq<Buffer>): (n: nat) { if bs == [] then 0 else Storage(bs[0]) + SumStorage(bs[1..]) }

  lemma {:induction false} SumHeldUpdate(bs: seq<Buffer>, i: nat, b: Buffer)
    requires i < |bs|
    ensures SumHeld(bs[i := b]) == SumHeld(bs) - Held(bs[i]) + Held(b)
    ensures Held(bs[i]) <= SumHeld(bs)
  {
    if i == 0 {
      assert bs[i := b][1..] == bs[1..];
    } else {
      assert bs[i := b][1..] == bs[1..][i - 1 := b];
      SumHeldUpdate(bs[1..], i - 1, b);
    }
  }

  lemma {:induction false} SumHeldAppend(bs: seq<Buffer>, b: Buffer)
    ensures SumHeld(bs + [b]) == SumHeld(bs) + Held(b)
  {
    if bs == [] {
      assert bs + [b] == [b] && [b][1..] == [];
    } else {
      assert (bs + [b])[1..] == bs[1..] + [b];
      SumHeldAppend(bs[1..], b);
    }
  }

  lemma {:induction false} StorageIsCovered(bs: seq<Buffer>)
    requires forall i :: 0 <= i < |bs| ==> BufferOk(bs[i])
    ensures SumStorage(bs) <= SumHeld(bs)
  {
    if bs != [] {
      assert BufferOk(bs[0]);
      StorageIsCovered(bs[1..]);
    }
  }

  ghost predicate Inv(l: Ledger) {
    && (forall i :: 0 <= i < |l.buffers| ==> BufferOk(l.buffers[i]))
    && l.used == SumHeld(l.buffers)
    && Fits(l.limit, l.used)
  }

  /** A step that changes one buffer keeps the books if what it holds moves with `used`. */
  lemma OneBuffer(l: Ledger, i: nat, b: Buffer, used: nat, peak: nat)
    requires Inv(l) && i < |l.buffers| && BufferOk(b)
    requires used - Held(b) == l.used - Held(l.buffers[i]) && Fits(l.limit, used)
    ensures Inv(With(l, i, b).(used := used, peak := peak))
  {
    hide BufferOk, Held;
    SumHeldUpdate(l.buffers, i, b);
  }

  lemma OthersCovered(l: Ledger, i: nat)
    requires Inv(l) && i < |l.buffers|
    ensures Held(l.buffers[i]) <= l.used
  {
    SumHeldUpdate(l.buffers, i, l.buffers[i]);
  }

  lemma BeginKeeps(l: Ledger, i: nat, goal: Goal)
    requires Inv(l) && i < |l.buffers|
    ensures Inv(BeginStep(l, i, goal))
  {
    var b := l.buffers[i];
    var g := Adjusted(b, goal);
    OthersCovered(l, i);
    if b.stage.Idle? && Admissible(b, g) {
      if Want(b, g) == 0 {
        OneBuffer(l, i, Acquired(b, 0, g), l.used, l.peak);
      } else {
        OneBuffer(l, i, b.(stage := Loaded(Want(b, g), l.used, g)), l.used, l.peak);
      }
    }
  }

  lemma ExchangeKeeps(l: Ledger, i: nat, spurious: bool)
    requires Inv(l) && i < |l.buffers|
    ensures Inv(ExchangeStep(l, i, spurious))
  {
    var b := l.buffers[i];
    if b.stage.Loaded? {
      var Loaded(want, seen, goal) := b.stage;
      if !Fits(l.limit, seen + want) {
        OneBuffer(l, i, b.(stage := Idle), l.used, l.peak);
      } else if l.used == seen && !spurious {
        OneBuffer(l, i, b.(stage := Won(want, seen + want, goal)), seen + want, l.peak);
      } else {
        OneBuffer(l, i, b.(stage := Loaded(want, l.used, goal)), l.used, l.peak);
      }
    }
  }

  lemma RecordKeeps(l: Ledger, i: nat)
    requires Inv(l) && i < |l.buffers|
    ensures Inv(RecordStep(l, i))
  {
    var b := l.buffers[i];
    OthersCovered(l, i);
    if b.stage.Won? {
      var Won(want, next, goal) := b.stage;
      OneBuffer(l, i, Acquired(b, want, goal), l.used, Max(l.peak, next));
    }
  }

  /**
   * The books balance after every atomic step: `used` is the sum of all live permits, it is within
   * the limit, and no refund takes more than is there.
   */
  lemma StepKeeps(l: Ledger, step: Step)
    requires Inv(l)
    ensures Inv(Do(l, step))
  {
    hide BeginStep, ExchangeStep, RecordStep;
    match step {
      case NewBuffer => SumHeldAppend(l.buffers, NEW_BUFFER);
      case Begin(i, goal) => if i < |l.buffers| { BeginKeeps(l, i, goal); }
      case Exchange(i, spurious) => if i < |l.buffers| { ExchangeKeeps(l, i, spurious); }
      case Record(i) => if i < |l.buffers| { RecordKeeps(l, i); }
      case Allocate(i) =>
        if i < |l.buffers| && l.buffers[i].stage.Charged? {
          OneBuffer(l, i, l.buffers[i].(stage := Allocated(l.buffers[i].stage.goal)), l.used, l.peak);
        }
      case FreeOld(i) => if i < |l.buffers| { FreeKeeps(l, i); }
      case Install(i) => if i < |l.buffers| { InstallKeeps(l, i); }
      case Append(i, tail) =>
        if i < |l.buffers| && l.buffers[i].stage.Idle? && |l.buffers[i].bytes| + |tail| <= l.buffers[i].capacity {
          OneBuffer(l, i, l.buffers[i].(bytes := l.buffers[i].bytes + tail), l.used, l.peak);
        }
      case Drop(i) =>
        if i < |l.buffers| && l.buffers[i].stage.Idle? {
          OneBuffer(l, i, l.buffers[i].(bytes := [], capacity := 0, stage := Dropping), l.used, l.peak);
        }
      case Refund(i) => if i < |l.buffers| { RefundKeeps(l, i); }
      case IntoVec(i) => if i < |l.buffers| { IntoVecKeeps(l, i); }
    }
  }

  lemma FreeKeeps(l: Ledger, i: nat)
    requires Inv(l) && i < |l.buffers|
    ensures Inv(Do(l, FreeOld(i)))
  {
    var b := l.buffers[i];
    if b.stage.Allocated? {
      OneBuffer(l, i, b.(capacity := b.stage.goal.capacity, stage := Freed(b.stage.goal)), l.used, l.peak);
    }
  }

  lemma InstallKeeps(l: Ledger, i: nat)
    requires Inv(l) && i < |l.buffers|
    ensures Inv(Do(l, Install(i)))
  {
    var b := l.buffers[i];
    OthersCovered(l, i);
    if b.stage.Freed? {
      OneBuffer(l, i, b.(bytes := b.bytes + b.stage.goal.tail, permit := b.incoming, incoming := 0, stage := Idle),
                l.used - b.permit, l.peak);
    }
  }

  lemma RefundKeeps(l: Ledger, i: nat)
    requires Inv(l) && i < |l.buffers|
    ensures Inv(Do(l, Refund(i)))
  {
    var b := l.buffers[i];
    OthersCovered(l, i);
    if b.stage.Dropping? {
      OneBuffer(l, i, b.(permit := 0, stage := Refunded), l.used - b.permit, l.peak);
    } else if b.stage.Replacing? {
      OneBuffer(l, i, b.(incoming := 0, stage := Idle), l.used - b.incoming, l.peak);
    } else if b.stage.Refunded? {
      OneBuffer(l, i, b.(reserved := None, planned := 0, stage := Gone), l.used - Reservation(b), l.peak);
    }
  }

  lemma IntoVecKeeps(l: Ledger, i: nat)
    requires Inv(l) && i < |l.buffers|
    ensures Inv(Do(l, IntoVec(i)))
  {
    var b := l.buffers[i];
    OthersCovered(l, i);
    if b.stage.Idle? {
      OneBuffer(l, i, b.(bytes := [], capacity := 0, permit := 0, stage := Refunded), l.used - b.permit, l.peak);
    }
  }

  // ---- whole runs ----

  /** The ledger after the first `k` steps. */
  function After(limit: Option<nat>, steps: seq<Step>, k: nat): (l: Ledger)
    requires k <= |steps|
  {
    if k == 0 then Ledger(limit, 0, 0, []) else Do(After(limit, steps, k - 1), steps[k - 1])
  }

  /** The largest value `used` has had in the first `k` steps. */
  function Highest(limit: Option<nat>, steps: seq<Step>, k: nat): (m: nat)
    requires k <= |steps|
    ensures forall j :: 0 <= j <= k ==> After(limit, steps, j).used <= m
    ensures exists j :: 0 <= j <= k && After(limit, steps, j).used == m
  {
    var now := After(limit, steps, k).used;
    if k == 0 then now else Max(Highest(limit, steps, k - 1), now)
  }

  lemma {:induction false} RunKeeps(limit: Option<nat>, steps: seq<Step>, k: nat)
    requires k <= |steps|
    ensures Inv(After(limit, steps, k)) && After(limit, steps, k).limit == limit
  {
    if k > 0 {
      hide Inv, Do;
      RunKeeps(limit, steps, k - 1);
      StepKeeps(After(limit, steps, k - 1), steps[k - 1]);
      LimitStays(After(limit, steps, k - 1), steps[k - 1]);
    }
  }

  lemma LimitStays(l: Ledger, step: Step)
    ensures Do(l, step).limit == l.limit
  {
  }

  /**
   * Conservation: at every moment of every concurrent run `used` is exactly the sum of the live
   * permits, is within the limit, and covers all budget-owned storage, the old and the new storage
   * of a buffer in the middle of growing included.
   */
  lemma BooksBalance(limit: Option<nat>, steps: seq<Step>, k: nat)
    requires k <= |steps|
    ensures var l := After(limit, steps, k);
            && l.used == SumHeld(l.buffers)
            && SumStorage(l.buffers) <= l.used
            && (limit.Some? ==> l.used <= limit.value)
            && (forall i :: 0 <= i < |l.buffers| && l.buffers[i].stage.Idle? ==>
                  var b := l.buffers[i]; Held(b) == b.capacity + b.planned && |b.bytes| <= b.capacity)
  {
    RunKeeps(limit, steps, k);
    var l := After(limit, steps, k);
    hide After, SumHeld, SumStorage;
    StorageIsCovered(l.buffers);
    forall i | 0 <= i < |l.buffers| && l.buffers[i].stage.Idle?
      ensures var b := l.buffers[i]; Held(b) == b.capacity + b.planned && |b.bytes| <= b.capacity
    {
      assert BufferOk(l.buffers[i]);
    }
  }

  // ---- the peak ----

  /** Either `peak` has caught up with the highest use, or a winner of the exchange is about to raise it. */
  ghost predicate PeakInv(l: Ledger, highest: nat) {
    && l.peak <= highest && l.used <= highest
    && (forall i :: 0 <= i < |l.buffers| && l.buffers[i].stage.Won? ==> l.buffers[i].stage.next <= highest)
    && (l.peak == highest || exists i :: WinnerOf(l, highest, i))
  }

  ghost predicate WinnerOf(l: Ledger, highest: nat, i: nat) {
    i < |l.buffers| && l.buffers[i].stage.Won? && l.buffers[i].stage.next == highest
  }

  /** A step that makes no winner, unmakes none and does not raise `used` leaves the peak argument alone. */
  lemma QuietStep(l: Ledger, next: Ledger, highest: nat)
    requires PeakInv(l, highest) && next.peak == l.peak && next.used <= l.used
    requires |l.buffers| <= |next.buffers|
    requires forall i :: 0 <= i < |l.buffers| ==>
               (l.buffers[i].stage.Won? || next.buffers[i].stage.Won? ==> next.buffers[i].stage == l.buffers[i].stage)
    requires forall i :: |l.buffers| <= i < |next.buffers| ==> !next.buffers[i].stage.Won?
    ensures PeakInv(next, Max(highest, next.used))
  {
    if l.peak != highest {
      var i: nat :| WinnerOf(l, highest, i);
      assert WinnerOf(next, highest, i);
    }
  }

  lemma ExchangePeaks(l: Ledger, i: nat, spurious: bool, highest: nat)
    requires PeakInv(l, highest) && i < |l.buffers|
    ensures var next := ExchangeStep(l, i, spurious); PeakInv(next, Max(highest, next.used))
  {
    var next := ExchangeStep(l, i, spurious);
    if next.buffers[i].stage.Won? && !l.buffers[i].stage.Won? {
      if next.used >= highest {
        assert WinnerOf(next, next.used, i);
      } else if l.peak != highest {
        var j: nat :| WinnerOf(l, highest, j);
        assert WinnerOf(next, highest, j);
      }
    } else {
      QuietStep(l, next, highest);
    }
  }

  lemma RecordPeaks(l: Ledger, i: nat, highest: nat)
    requires Inv(l) && PeakInv(l, highest) && i < |l.buffers|
    ensures var next := RecordStep(l, i); PeakInv(next, Max(highest, next.used))
  {
    OthersCovered(l, i);
    var next := RecordStep(l, i);
    if l.buffers[i].stage.Won? && next.peak != highest {
      var j: nat :| WinnerOf(l, highest, j);
      assert j != i;
      assert WinnerOf(next, highest, j);
    }
  }

  /** At most buffer `i` changed, it is no winner before or after, and `used` did not rise. */
  ghost predicate Touches(l: Ledger, next: Ledger, i: nat) {
    && |next.buffers| == |l.buffers| && next.peak == l.peak && next.used <= l.used
    && (forall j :: 0 <= j < |l.buffers| && j != i ==> next.buffers[j] == l.buffers[j])
    && (i < |l.buffers| ==> next == l || (!l.buffers[i].stage.Won? && !next.buffers[i].stage.Won?))
  }

  lemma BeginTouches(l: Ledger, i: nat, goal: Goal)
    requires Inv(l) && i < |l.buffers|
    ensures Touches(l, BeginStep(l, i, goal), i)
  {
    OthersCovered(l, i);
  }

  lemma OtherTouches(l: Ledger, step: Step)
    requires Inv(l) && !step.NewBuffer? && !step.Exchange? && !step.Record?
    ensures Touches(l, Do(l, step), step.i)
  {
    hide BeginStep, BufferOk, SumHeld;
    if step.i < |l.buffers| {
      OthersCovered(l, step.i);
      if step.Begin? { BeginTouches(l, step.i, step.goal); }
    }
  }

  lemma StepPeaks(l: Ledger, step: Step, highest: nat)
    requires Inv(l) && PeakInv(l, highest)
    ensures var next := Do(l, step); PeakInv(next, Max(highest, next.used))
  {
    hide ExchangeStep, RecordStep, BeginStep, PeakInv, Inv, Release;
    match step {
      case Exchange(i, spurious) =>
        if i < |l.buffers| { ExchangePeaks(l, i, spurious, highest); } else { QuietStep(l, l, highest); }
      case Record(i) =>
        if i < |l.buffers| { RecordPeaks(l, i, highest); } else { QuietStep(l, l, highest); }
      case NewBuffer => QuietStep(l, Do(l, step), highest);
      case _ => TouchingPeaks(l, step, highest);
    }
  }

  lemma TouchingPeaks(l: Ledger, step: Step, highest: nat)
    requires Inv(l) && PeakInv(l, highest) && !step.NewBuffer? && !step.Exchange? && !step.Record?
    ensures PeakInv(Do(l, step), Max(highest, Do(l, step).used))
  {
    hide Do, PeakInv, Inv;
    OtherTouches(l, step);
    QuietStep(l, Do(l, step), highest);
  }

  lemma {:induction false} RunPeaks(limit: Option<nat>, steps: seq<Step>, k: nat)
    requires k <= |steps|
    ensures PeakInv(After(limit, steps, k), Highest(limit, steps, k))
  {
    if k > 0 {
      hide Do, PeakInv, Inv;
      RunKeeps(limit, steps, k - 1);
      RunPeaks(limit, steps, k - 1);
      StepPeaks(After(limit, steps, k - 1), steps[k - 1], Highest(limit, steps, k - 1));
    }
  }

  /** When no acquisition is between its exchange and its `fetch_max`, `peak` is the largest use of the whole run. */
  lemma PeakIsHighest(limit: Option<nat>, steps: seq<Step>, k: nat)
    requires k <= |steps|
    requires forall i :: 0 <= i < |After(limit, steps, k).buffers| ==> !After(limit, steps, k).buffers[i].stage.Won?
    ensures After(limit, steps, k).peak == Highest(limit, steps, k)
  {
    RunPeaks(limit, steps, k);
  }

  // ---- contents ----

  predicate Ends(step: Step) { step.Drop? || step.IntoVec? }

  /** The buffer lost nothing, and if its acquisition failed it is as it was before. */
  ghost predicate Intact(b: Buffer, c: Buffer) {
    b.bytes <= c.bytes && (b.stage.Loaded? && c.stage.Idle? ==> c == b.(stage := Idle) && Settled(c))
  }

  lemma AcquiringIsIntact(l: Ledger, i: nat, goal: Goal, spurious: bool)
    requires Inv(l) && i < |l.buffers|
    ensures Intact(l.buffers[i], BeginStep(l, i, goal).buffers[i])
    ensures Intact(l.buffers[i], ExchangeStep(l, i, spurious).buffers[i])
    ensures Intact(l.buffers[i], RecordStep(l, i).buffers[i])
  {
    assert BufferOk(l.buffers[i]);
    hide Admissible, Want;
  }

  /**
   * No step but an ending loses or changes a byte of any buffer, and a failed acquisition leaves
   * bytes, storage, charge and reservation exactly as they were.
   */
  lemma BytesSurvive(l: Ledger, step: Step, j: nat)
    requires Inv(l) && j < |l.buffers|
    ensures j < |Do(l, step).buffers|
    ensures !Ends(step) || step.i != j ==> Intact(l.buffers[j], Do(l, step).buffers[j])
  {
    hide BeginStep, ExchangeStep, RecordStep, BufferOk, Settled;
    match step {
      case Begin(i, goal) => if i < |l.buffers| { AcquiringIsIntact(l, i, goal, false); OnlyOne(l, i, goal, false, j); }
      case Exchange(i, spurious) =>
        if i < |l.buffers| { AcquiringIsIntact(l, i, Plan(0), spurious); OnlyOne(l, i, Plan(0), spurious, j); }
      case Record(i) => if i < |l.buffers| { AcquiringIsIntact(l, i, Plan(0), false); OnlyOne(l, i, Plan(0), false, j); }
      case _ =>
    }
  }

  lemma OnlyOne(l: Ledger, i: nat, goal: Goal, spurious: bool, j: nat)
    requires i < |l.buffers| && j < |l.buffers|
    ensures var a, b, c := BeginStep(l, i, goal), ExchangeStep(l, i, spurious), RecordStep(l, i);
            && |a.buffers| == |b.buffers| == |c.buffers| == |l.buffers|
            && (i != j ==> a.buffers[j] == b.buffers[j] == c.buffers[j] == l.buffers[j])
  {
    hide Admissible, Want;
  }
}
