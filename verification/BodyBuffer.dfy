/**
 * The budget and the buffer of src/body_budget.rs as objects. What other owners of the budget do
 * between two atomic operations of a call is an argument of the call, so a contract speaks about
 * every interference.
 */
module BodyBuffers {
  import opened Bytes
  import opened BodyLedger

  /** One stretch of other owners' work: what it adds to `used`, and a value it raises `peak` to. */
  datatype Others = Others(delta: int, peak: nat)

  const NOTHING: Others := Others(0, 0)

  /** `used` after the first `k` stretches. */
  function Drift(used: int, others: seq<Others>, k: nat): (n: int)
    requires k <= |others|
  {
    if k == 0 then used else Drift(used, others, k - 1) + others[k - 1].delta
  }

  function Raised(peak: nat, others: seq<Others>, k: nat): (n: nat)
    requires k <= |others|
  {
    if k == 0 then peak else Max(Raised(peak, others, k - 1), others[k - 1].peak)
  }

  /**
   * Others keep within the limit and never give back the `mine` bytes of this owner: in each stretch
   * before this owner's exchange, and in `last`, the one between its exchange and its `fetch_max`.
   */
  ghost predicate Lawful(limit: Option<nat>, used: nat, mine: nat, bytes: int, others: seq<Others>, last: Others) {
    && (forall k: nat :: k <= |others| ==> mine <= Drift(used, others, k) && FitsInt(limit, Drift(used, others, k)))
    && var seen := Drift(used, others, |others|);
       mine <= seen + last.delta && (FitsInt(limit, seen + bytes) ==> FitsInt(limit, seen + bytes + last.delta))
  }

  predicate FitsInt(limit: Option<nat>, used: int) { used >= 0 && Fits(limit, used) }

  class BodyBudget {
    const limit: Option<nat>
    var used: nat
    var peak: nat

    ghost predicate Valid()
      reads this
    {
      Fits(limit, used)
    }

    constructor (limit: Option<nat>)
      ensures Valid() && used == 0 && peak == 0 && this.limit == limit
    {
      this.limit, used, peak := limit, 0, 0;
    }

    /**
     * The compare-exchange loop. Each stretch of `others` makes one round lose; one that adds nothing
     * is a weak exchange failing for no reason. The loop wins on the first round that meets no
     * interference, unless an earlier one finds no room, and then changes nothing of its own.
     */
    method Acquire(bytes: nat, ghost mine: nat, others: seq<Others>, last: Others) returns (ok: bool, rounds: nat)
      requires Valid() && Lawful(limit, used, mine, bytes, others, last)
      modifies this
      ensures Valid() && rounds <= |others|
      ensures bytes == 0 ==> ok && rounds == 0 && used == old(used) && peak == old(peak)
      ensures ok && bytes > 0 ==>
                var won := Drift(old(used), others, rounds) + bytes;
                && rounds == |others| && FitsInt(limit, won) && used == won + last.delta
                && peak == Max(Max(Raised(old(peak), others, rounds), last.peak), won)
      ensures !ok ==> !FitsInt(limit, Drift(old(used), others, rounds) + bytes)
                      && used == Drift(old(used), others, rounds) && peak == Raised(old(peak), others, rounds)
      ensures forall i: nat :: i < rounds ==> FitsInt(limit, Drift(old(used), others, i) + bytes)
    {
      rounds := 0;
      if bytes == 0 {
        return true, rounds;
      }
      var seen := used;
      while true
        invariant rounds <= |others| && Valid() && used == seen == Drift(old(used), others, rounds)
        invariant peak == Raised(old(peak), others, rounds)
        invariant forall i: nat :: i < rounds ==> FitsInt(limit, Drift(old(used), others, i) + bytes)
        decreases |others| - rounds
      {
        var next := seen + bytes;
        if !Fits(limit, next) {
          return false, rounds;
        }
        if rounds == |others| {
          used := next;
          used, peak := used + last.delta, Max(peak, last.peak);
          peak := Max(peak, next);
          return true, rounds;
        }
        assert mine <= Drift(old(used), others, rounds + 1);
        used, peak := used + others[rounds].delta, Max(peak, others[rounds].peak);
        seen := used;
        rounds := rounds + 1;
      }
    }

    method Refund(bytes: nat)
      requires Valid() && bytes <= used
      modifies this`used
      ensures Valid() && used == old(used) - bytes
    {
      used := used - bytes;
    }
  }

  function Amount(permit: Option<nat>): (n: nat) { if permit.Some? then permit.value else 0 }

  /** All the steps of one operation on buffer 0, run without interference. */
  function Alone(l: Ledger, goal: Goal): (r: Ledger)
    requires |l.buffers| > 0
  {
    var charged := Do(Do(Do(l, Begin(0, goal)), Exchange(0, false)), Record(0));
    if goal.Plan? then Do(charged, Refund(0)) else Do(Do(Do(charged, Allocate(0)), FreeOld(0)), Install(0))
  }

  /** A reservation in one go: all or nothing, and it replaces the one before. */
  function Planned(l: Ledger, wanted: nat): (r: Ledger)
    requires |l.buffers| == 1 && Reservation(l.buffers[0]) <= l.used
  {
    var b := l.buffers[0];
    if wanted > ISIZE_MAX || !Fits(l.limit, l.used + wanted) then l
    else Ledger(l.limit, l.used + wanted - Reservation(b), Max(l.peak, l.used + wanted),
                [b.(reserved := Some(wanted), planned := wanted)])
  }

  /** A growth in one go: old and new storage are charged together before the old charge goes. */
  function Grown(l: Ledger, wanted: nat, tail: seq<Byte>): (r: Ledger)
    requires |l.buffers| == 1 && Reservation(l.buffers[0]) + l.buffers[0].permit <= l.used
  {
    var b := l.buffers[0];
    var goal := Max(wanted, b.planned);
    var both := l.used - Reservation(b) + goal;
    if goal > ISIZE_MAX || goal <= b.capacity || goal < |b.bytes| + |tail| || !Fits(l.limit, both) then l
    else Ledger(l.limit, both - b.permit, Max(l.peak, both), [Buffer(b.bytes + tail, goal, goal, None, 0, 0, Idle)])
  }

  /** The state a lone operation starts from. */
  ghost predicate Fresh(l: Ledger) {
    && |l.buffers| == 1 && l.buffers[0].stage.Idle? && Settled(l.buffers[0])
    && Held(l.buffers[0]) <= l.used <= l.peak && Fits(l.limit, l.used)
  }

  lemma LonePlan(l: Ledger, wanted: nat)
    requires Fresh(l)
    ensures Alone(l, Plan(wanted)) == Planned(l, wanted)
  {
    var begun := Do(l, Begin(0, Plan(wanted)));
    var tried := Do(begun, Exchange(0, false));
    var recorded := Do(tried, Record(0));
    var done := Do(recorded, Refund(0));
    assert done == Planned(l, wanted);
  }

  lemma LoneGrowCharges(l: Ledger, wanted: nat, tail: seq<Byte>)
    requires Fresh(l)
    ensures var b, charged := l.buffers[0], Do(Do(Do(l, Begin(0, Grow(wanted, tail))), Exchange(0, false)), Record(0));
            var goal := Max(wanted, b.planned);
            var both := l.used - Reservation(b) + goal;
            if goal > ISIZE_MAX || goal <= b.capacity || goal < |b.bytes| + |tail| || !Fits(l.limit, both) then charged == l
            else charged == Ledger(l.limit, both, Max(l.peak, both),
                                   [b.(reserved := None, planned := 0, incoming := goal, stage := Charged(Grow(goal, tail)))])
  {
    var begun := Do(l, Begin(0, Grow(wanted, tail)));
    var tried := Do(begun, Exchange(0, false));
  }

  /** Uninterrupted, the many atomic steps of a growth amount to the growth in one go. */
  lemma LoneGrow(l: Ledger, wanted: nat, tail: seq<Byte>)
    requires Fresh(l)
    ensures Alone(l, Grow(wanted, tail)) == Grown(l, wanted, tail)
  {
    hide BeginStep, ExchangeStep, RecordStep;
    LoneGrowCharges(l, wanted, tail);
    var charged := Do(Do(Do(l, Begin(0, Grow(wanted, tail))), Exchange(0, false)), Record(0));
    var both := Do(charged, Allocate(0));
    var freed := Do(both, FreeOld(0));
  }

  /** Room for `needed` bytes, for twice what there is, and for a first 4096. */
  predicate Roomy(n: nat, current: nat, needed: nat) { n >= needed && n >= 2 * current && n >= 4096 }

  /**
   * The capacity `extend` asks for. With a plan it is the plan or what is needed, whichever is more;
   * without one it is the least roomy number, cut at the ceiling.
   */
  function Target(current: nat, planned: nat, needed: nat, ceiling: nat): (capacity: nat)
    requires current <= ISIZE_MAX
    ensures planned != 0 ==> capacity >= planned && capacity >= needed && (capacity == planned || capacity == needed)
    ensures planned == 0 ==> capacity <= ceiling && (capacity == ceiling || Roomy(capacity, current, needed))
                             && forall n: nat :: Roomy(n, current, needed) ==> capacity <= n
  {
    if planned != 0 then Max(planned, needed)
    else
      var doubled := if 2 * current <= USIZE_MAX then 2 * current else USIZE_MAX;
      var wished := Max(Max(needed, doubled), 4096);
      if wished <= ceiling then wished else ceiling
  }

  function Power(k: nat): (n: nat)
    ensures n > 0
  {
    if k == 0 then 1 else 2 * Power(k - 1)
  }

  /** After so many growths there is so much capacity, and so many bytes have made them necessary. */
  predicate Amortised(growths: nat, capacity: nat, size: nat, ceiling: nat) {
    && (growths == 0 <==> capacity == 0)
    && (0 < growths && capacity < ceiling ==> capacity >= 4096 * Power(growths - 1))
    && (growths >= 2 ==> size > 4096 * Power(growths - 2))
  }

  /** A full buffer below its ceiling grows to the next capacity for one byte more. */
  lemma DoublingAmortises(growths: nat, capacity: nat, ceiling: nat)
    requires Amortised(growths, capacity, capacity, ceiling) && capacity < ceiling
    ensures var wished := Max(2 * capacity, 4096);
            Amortised(growths + 1, if ceiling < wished then ceiling else wished, capacity + 1, ceiling)
  {
  }

  class BodyBuffer {
    var bytes: seq<Byte>
    var capacity: nat
    var permit: Option<nat>
    const budget: BodyBudget
    var future: Option<nat>
    var planned: nat

    ghost function View(): (b: Buffer)
      reads this
    {
      Buffer(bytes, capacity, Amount(permit), future, planned, 0, Idle)
    }

    ghost function Charge(): (n: nat)
      reads this
    {
      Held(View())
    }

    /** The charge is the capacity and the reservation, and it is part of what the budget counts. */
    ghost predicate Valid()
      reads this, budget
    {
      Settled(View()) && budget.Valid() && Charge() <= budget.used && capacity <= ISIZE_MAX
    }

    /** What the budget counts for the other owners. */
    ghost function Elsewhere(): (n: int)
      reads this, budget
    {
      budget.used - Charge()
    }

    /** This buffer and its budget, as the concurrent model sees them. */
    ghost function Solo(): (l: Ledger)
      reads this, budget
    {
      Ledger(budget.limit, budget.used, budget.peak, [View()])
    }

    /** Nobody else is in the middle of an acquisition. */
    ghost predicate Calm(others: seq<Others>, last: Others)
      reads budget
    {
      others == [] && last == NOTHING && budget.used <= budget.peak
    }

    constructor (budget: BodyBudget)
      requires budget.Valid()
      ensures Valid() && bytes == [] && capacity == 0 && Charge() == 0 && this.budget == budget
    {
      this.budget := budget;
      bytes, capacity, permit, future, planned := [], 0, None, None, 0;
    }

    /** Reserves, then gives up the reservation it replaces; without room nothing changes. */
    method PlanCapacity(wanted: nat, others: seq<Others>, last: Others) returns (ok: bool, rounds: nat)
      requires Valid() && Lawful(budget.limit, budget.used, Charge(), wanted, others, last)
      modifies this, budget
      ensures Valid() && rounds <= |others|
      ensures ok <==> wanted <= ISIZE_MAX && FitsInt(budget.limit, Drift(old(budget.used), others, rounds) + wanted)
      ensures View() == if ok then old(View()).(reserved := Some(wanted), planned := wanted) else old(View())
      ensures Elsewhere() == Drift(old(Elsewhere()), others, rounds) + (if ok && wanted > 0 then last.delta else 0)
      ensures ok ==> wanted == 0 || rounds == |others|
      ensures old(Calm(others, last)) ==> Solo() == Planned(old(Solo()), wanted)
    {
      hide Drift, Raised;
      DriftShifts(budget.used, Charge(), others);
      NoDrift(budget.used, Elsewhere(), budget.peak, others);
      if wanted > ISIZE_MAX {
        return false, 0;
      }
      ok, rounds := budget.Acquire(wanted, Charge(), others, last);
      if ok {
        var replaced := Amount(future);
        future, planned := Some(wanted), wanted;
        budget.Refund(replaced);
      }
    }

    /** The capacity of the storage a growth to `wanted` would have. */
    ghost function Goal(wanted: nat): (goal: nat)
      reads this
    {
      Max(wanted, planned)
    }

    /** What such a growth still has to acquire. */
    ghost function Shortfall(wanted: nat): (n: int)
      reads this
    {
      Goal(wanted) - Amount(future)
    }

    /** Charges the new storage while the old is still charged; without room nothing changes. */
    method ReserveCapacity(wanted: nat, others: seq<Others>, last: Others) returns (ok: bool, rounds: nat)
      requires Valid() && Lawful(budget.limit, budget.used, Charge(), Shortfall(wanted), others, last)
      modifies this, budget
      ensures Valid() && rounds <= |others|
      ensures ok <==> old(Goal(wanted)) <= ISIZE_MAX
                      && (old(Goal(wanted)) <= old(capacity)
                          || FitsInt(budget.limit, Drift(old(budget.used), others, rounds) + old(Shortfall(wanted))))
      ensures bytes == old(bytes) && (!ok || old(Goal(wanted)) <= old(capacity) ==> View() == old(View()))
      ensures ok && old(Goal(wanted)) > old(capacity) ==>
                View() == Buffer(bytes, old(Goal(wanted)), old(Goal(wanted)), None, 0, 0, Idle)
      ensures Elsewhere() == Drift(old(Elsewhere()), others, rounds) +
                (if ok && old(Goal(wanted)) > old(capacity) && old(Shortfall(wanted)) > 0 then last.delta else 0)
      ensures old(Goal(wanted)) <= old(capacity) || old(Goal(wanted)) > ISIZE_MAX ==> rounds == 0
      ensures old(Calm(others, last)) ==> Solo() == Grown(old(Solo()), wanted, [])
    {
      hide Drift, Raised;
      DriftShifts(budget.used, Charge(), others);
      NoDrift(budget.used, Elsewhere(), budget.peak, others);
      assert bytes + [] == bytes;
      var goal := Max(wanted, planned);
      if goal > ISIZE_MAX {
        return false, 0;
      }
      if goal <= capacity {
        return true, 0;
      }
      ok, rounds := ChargeReplacement(goal, others, last);
      if ok {
        planned := 0;
        capacity := goal;
        var charged := Amount(permit);
        permit := Some(goal);
        budget.Refund(charged);
      }
    }

    /** The permit for the replacement: a reservation is topped up, never refunded and taken again. */
    method ChargeReplacement(goal: nat, others: seq<Others>, last: Others) returns (ok: bool, rounds: nat)
      requires Valid() && goal >= planned
      requires Lawful(budget.limit, budget.used, Charge(), goal - Amount(future), others, last)
      modifies this`future, budget
      ensures budget.Valid() && rounds <= |others|
      ensures ok <==> FitsInt(budget.limit, Drift(old(budget.used), others, rounds) + goal - Amount(old(future)))
      ensures ok ==> future.None?
      ensures ok && goal > Amount(old(future)) ==>
                var won := Drift(old(budget.used), others, rounds) + goal - Amount(old(future));
                budget.used == won + last.delta && rounds == |others|
                && budget.peak == Max(Max(Raised(old(budget.peak), others, rounds), last.peak), won)
      ensures goal == Amount(old(future)) ==>
                ok && rounds == 0 && budget.used == old(budget.used) && budget.peak == old(budget.peak)
      ensures !ok ==> future == old(future) && budget.used == Drift(old(budget.used), others, rounds)
                      && budget.peak == Raised(old(budget.peak), others, rounds)
    {
      ok, rounds := true, 0;
      if future.Some? {
        if goal > future.value {
          ok, rounds := budget.Acquire(goal - future.value, Charge(), others, last);
          if !ok {
            return;
          }
        }
        future := None;
      } else {
        ok, rounds := budget.Acquire(goal, Charge(), others, last);
      }
    }

    /** The capacity of a growth to `needed` bytes: as planned, or doubled from 4096 on and cut at the ceiling. */
    ghost function NextCapacity(needed: nat, ceiling: nat): (goal: nat)
      reads this
    {
      if planned > 0 then Max(planned, needed)
      else if ceiling < Max(Max(needed, 2 * capacity), 4096) then ceiling
      else Max(Max(needed, 2 * capacity), 4096)
    }

    lemma NextIsTarget(needed: nat, ceiling: nat)
      requires capacity <= ISIZE_MAX
      ensures NextCapacity(needed, ceiling) == Target(capacity, planned, needed, ceiling)
      ensures needed <= ceiling ==> NextCapacity(needed, ceiling) >= needed && NextCapacity(needed, ceiling) >= planned
    {
    }

    /** Whether `extra` more bytes go in, when `used` stands at `seen`; the ceiling is asked before the budget. */
    ghost predicate Growable(extra: nat, ceiling: nat, seen: int)
      reads this, budget
    {
      && |bytes| + extra <= ceiling
      && (|bytes| + extra <= capacity
          || (&& NextCapacity(|bytes| + extra, ceiling) <= ISIZE_MAX
              && FitsInt(budget.limit, seen - Amount(future) + NextCapacity(|bytes| + extra, ceiling))))
    }

    /** Appends, growing first when the bytes do not fit; a refusal changes nothing. */
    method Extend(tail: seq<Byte>, ceiling: nat, others: seq<Others>, last: Others) returns (ok: bool, rounds: nat)
      requires Valid()
      requires Lawful(budget.limit, budget.used, Charge(), Shortfall(NextCapacity(|bytes| + |tail|, ceiling)),
                      others, last)
      modifies this, budget
      ensures Valid() && rounds <= |others|
      ensures ok <==> old(Growable(|tail|, ceiling, Drift(budget.used, others, rounds)))
      ensures bytes == if ok then old(bytes) + tail else old(bytes)
      ensures !ok ==> View() == old(View())
      ensures ok ==> |bytes| <= ceiling && |bytes| <= capacity
      ensures ok && |bytes| > old(capacity) ==> capacity == old(NextCapacity(|bytes| + |tail|, ceiling)) && planned == 0
      ensures !ok ==> Elsewhere() == Drift(old(Elsewhere()), others, rounds)
      ensures |old(bytes)| + |tail| <= old(capacity) ==> rounds == 0 && capacity == old(capacity)
                                                         && budget.used == old(budget.used)
    {
      hide Settled, Lawful, Drift, BodyBuffer.NextCapacity, Target;
      rounds := 0;
      var needed := |bytes| + |tail|;
      NextIsTarget(needed, ceiling);
      NoDrift(budget.used, Elsewhere(), budget.peak, others);
      if needed > ceiling {
        return false, 0;
      }
      if needed > capacity {
        PlannedFits(View());
        ok, rounds := ReserveCapacity(Target(capacity, planned, needed, ceiling), others, last);
        if !ok {
          return;
        }
      }
      AppendFits(View(), tail);
      bytes := bytes + tail;
      ok := true;
    }

    /** One byte: without asking ceiling or budget while there is room, otherwise as `Extend`. */
    method Push(byte: Byte, ceiling: nat, others: seq<Others>, last: Others) returns (ok: bool, rounds: nat)
      requires Valid()
      requires Lawful(budget.limit, budget.used, Charge(), Shortfall(NextCapacity(|bytes| + 1, ceiling)),
                      others, last)
      modifies this, budget
      ensures Valid() && rounds <= |others|
      ensures ok <==> |old(bytes)| < old(capacity) || old(Growable(1, ceiling, Drift(budget.used, others, rounds)))
      ensures bytes == if ok then old(bytes) + [byte] else old(bytes)
      ensures !ok ==> View() == old(View()) && Elsewhere() == Drift(old(Elsewhere()), others, rounds)
      ensures |old(bytes)| < old(capacity) ==> capacity == old(capacity) && planned == old(planned)
                                               && budget.used == old(budget.used)
      ensures ok && |old(bytes)| >= old(capacity) ==>
                |bytes| <= ceiling && |bytes| <= capacity == old(NextCapacity(|bytes| + 1, ceiling)) && planned == 0
    {
      if |bytes| < capacity {
        bytes := bytes + [byte];
        ok, rounds := true, 0;
      } else {
        ok, rounds := Extend([byte], ceiling, others, last);
      }
    }

    /**
     * Bytes that arrive one at a time, up to the first refusal. The buffer grows at most
     * logarithmically often: each growth but the first two doubles what was already full.
     */
    method PushEach(data: seq<Byte>, ceiling: nat) returns (count: nat, growths: nat)
      requires Valid() && bytes == [] && capacity == 0 && planned == 0
      modifies this, budget
      ensures Valid() && count <= |data| && bytes == data[..count]
      ensures count < |data| ==> count == capacity && !Growable(1, ceiling, budget.used)
      ensures 0 < growths && capacity < ceiling ==> capacity >= 4096 * Power(growths - 1)
      ensures growths >= 2 ==> |bytes| > 4096 * Power(growths - 2)
    {
      hide Settled, Lawful, Power;
      count, growths := 0, 0;
      while count < |data|
        invariant Valid() && count <= |data| && bytes == data[..count] && planned == 0
        invariant count <= capacity <= ceiling
        invariant Amortised(growths, capacity, count, ceiling)
      {
        var full := count == capacity;
        Undisturbed(budget.limit, budget.used, Charge(), Shortfall(NextCapacity(|bytes| + 1, ceiling)));
        var ok, _ := Push(data[count], ceiling, [], NOTHING);
        if !ok {
          return;
        }
        if full {
          DoublingAmortises(growths, count, ceiling);
          growths := growths + 1;
        }
        count := count + 1;
      }
    }

    /** Hands the bytes to the application: the charge ends although the storage lives on, now unbudgeted. */
    method IntoVec() returns (contents: seq<Byte>)
      requires Valid()
      modifies this, budget
      ensures Valid() && contents == old(bytes) && Charge() == 0
      ensures budget.used == old(Elsewhere())
    {
      contents := bytes;
      var charged := Amount(permit) + Amount(future);
      bytes, capacity, permit, future, planned := [], 0, None, None, 0;
      budget.Refund(charged);
    }
  }

  /** Others' work moves what the budget counts for them by just as much. */
  lemma {:induction false} DriftShift(used: int, charge: int, others: seq<Others>, k: nat)
    requires k <= |others|
    ensures Drift(used - charge, others, k) == Drift(used, others, k) - charge
  {
    if k > 0 { DriftShift(used, charge, others, k - 1); }
  }

  lemma DriftShifts(used: int, charge: int, others: seq<Others>)
    ensures forall k: nat :: k <= |others| ==> Drift(used - charge, others, k) == Drift(used, others, k) - charge
  {
    forall k: nat | k <= |others| ensures Drift(used - charge, others, k) == Drift(used, others, k) - charge {
      DriftShift(used, charge, others, k);
    }
  }

  lemma NoDrift(used: int, elsewhere: int, peak: nat, others: seq<Others>)
    ensures Drift(used, others, 0) == used && Drift(elsewhere, others, 0) == elsewhere && Raised(peak, others, 0) == peak
  {
  }

  lemma Undisturbed(limit: Option<nat>, used: nat, mine: nat, bytes: int)
    requires Fits(limit, used) && mine <= used
    ensures Lawful(limit, used, mine, bytes, [], NOTHING) && Drift(used, [], 0) == used
  {
  }

  lemma PlannedFits(b: Buffer)
    requires Settled(b)
    ensures b.planned == Reservation(b)
  {
  }

  lemma AppendFits(b: Buffer, tail: seq<Byte>)
    requires Settled(b) && |b.bytes| + |tail| <= b.capacity
    ensures Settled(b.(bytes := b.bytes + tail)) && Held(b.(bytes := b.bytes + tail)) == Held(b)
  {
  }
}
