/** What the shared budgets say in every run. */
module BudgetsRuns {
  import opened Budgets
  import opened BudgetsProof

  ghost function After(limits: Permits, steps: seq<Step>, k: nat): (b: Books)
    requires k <= |steps|
    ensures Inv(b) && b.limits == limits
  {
    if k == 0 then
      assert forall r: nat :: r < RESOURCES ==> Sum([], r) == 0;
      Books(limits, NONE, [])
    else
      var before := After(limits, steps, k - 1);
      StepKeeps(before, steps[k - 1]);
      LimitsStay(before, steps[k - 1]);
      Do(before, steps[k - 1])
  }

  lemma LimitsStay(b: Books, step: Step)
    requires |b.counters| == RESOURCES
    ensures Do(b, step).limits == b.limits
  {
  }

  // ---- the byte budgets ----

  /**
   * Not between two steps of an admission or a release, as far as bytes and connections go: a holder
   * that keeps a callback or resolver permit after its end is at rest.
   */
  predicate Resting(h: Holder) {
    h.stage.Settled?
    || h.permits[QUEUED] == h.permits[STREAM_QUEUED] == h.permits[TCP_QUEUED] == h.permits[CONNECTIONS] == 0
  }

  predicate AtRest(holders: seq<Holder>) { forall i: nat :: i < |holders| ==> Resting(holders[i]) }

  /** The holders of one connection slot each. */
  function SlotHolders(holders: seq<Holder>): (s: set<nat>) {
    set i: nat | i < |holders| && holders[i].stage.Settled? && HoldsSlot(holders[i].kind)
  }

  lemma SlotHoldersSnoc(init: seq<Holder>, h: Holder)
    ensures |SlotHolders(init + [h])| == |SlotHolders(init)| + (if h.stage.Settled? && HoldsSlot(h.kind) then 1 else 0)
  {
    var all := init + [h];
    assert SlotHolders(all) == SlotHolders(init) + (if h.stage.Settled? && HoldsSlot(h.kind) then {|init|} else {});
  }

  lemma RestingBalances(h: Holder)
    requires HolderOk(h) && Resting(h)
    ensures h.permits[QUEUED] == h.permits[STREAM_QUEUED] + h.permits[TCP_QUEUED]
    ensures h.permits[CONNECTIONS] == (if h.stage.Settled? && HoldsSlot(h.kind) then 1 else 0)
  {
    hide Gathered, Recipe;
  }

  lemma {:induction false} RestBalances(holders: seq<Holder>)
    requires AtRest(holders) && forall i: nat :: i < |holders| ==> HolderOk(holders[i])
    ensures Sum(holders, QUEUED) == Sum(holders, STREAM_QUEUED) + Sum(holders, TCP_QUEUED)
    ensures Sum(holders, CONNECTIONS) == |SlotHolders(holders)|
  {
    if holders == [] {
      assert SlotHolders(holders) == {};
    } else {
      hide HolderOk, Resting, SlotHolders, Sum;
      var n, init := |holders| - 1, holders[..|holders| - 1];
      var h := holders[n];
      RestBalances(init);
      assert holders == init + [h];
      RestingBalances(h);
      SumAppend(init, h, QUEUED);
      SumAppend(init, h, STREAM_QUEUED);
      SumAppend(init, h, TCP_QUEUED);
      SumAppend(init, h, CONNECTIONS);
      SlotHoldersSnoc(init, h);
    }
  }

  /**
   * Conservation of the shared budgets: at every atomic step of every run each counter is exactly
   * the permits held against it and within its limit. Whenever no admission or release is between
   * two of its steps, the shared byte budget is the sum of its two parts, and the connection counter
   * is the number of operations and connections that own a slot.
   */
  lemma BudgetsBalance(limits: Permits, steps: seq<Step>, k: nat)
    requires k <= |steps|
    ensures var b := After(limits, steps, k);
            && (forall r: nat :: r < RESOURCES ==> 0 <= b.counters[r] == Sum(b.holders, r) <= limits[r])
            && (AtRest(b.holders) ==>
                  && b.counters[QUEUED] == b.counters[STREAM_QUEUED] + b.counters[TCP_QUEUED] <= limits[QUEUED]
                  && b.counters[CONNECTIONS] == |SlotHolders(b.holders)|)
  {
    var b := After(limits, steps, k);
    if AtRest(b.holders) {
      hide Sum, After, SlotHolders, HolderOk;
      RestBalances(b.holders);
    }
  }

  // ---- rejected admissions ----

  /** The step turns holder `i` down: there is no room for its next claim, or the admission ends for another reason. */
  predicate Refuses(b: Books, i: nat, step: Step) {
    && i < |b.holders| && b.holders[i].stage.Acquiring? && |b.counters| == RESOURCES
    && (|| step == Reject(i)
        || (&& step == Acquire(i) && b.holders[i].stage.next < |b.holders[i].recipe|
            && var claim := b.holders[i].recipe[b.holders[i].stage.next];
               && claim.resource < RESOURCES
               && b.counters[claim.resource] + claim.amount > b.limits[claim.resource]))
  }

  lemma RefusalReleases(b: Books, i: nat, step: Step)
    requires Refuses(b, i, step)
    ensures Do(b, step) == SetHolder(b, i, b.holders[i].(stage := Releasing))
  {
  }

  /** Nothing but its own releases touches a holder that is giving back. */
  lemma ReleasingStays(b: Books, i: nat, step: Step, r: nat)
    requires |b.counters| == RESOURCES && i < |b.holders| && b.holders[i].stage.Releasing? && r < RESOURCES
    ensures var c := Do(b, step);
            && i < |c.holders| && c.holders[i].stage.Releasing?
            && c.holders[i].permits[r] == if step == Free(i, r) then 0 else b.holders[i].permits[r]
  {
    hide Recipe, Kept, Carried, Joined, Take;
  }

  /** What the other holders have of a resource. */
  function Elsewhere(b: Books, i: nat, r: nat): (n: nat)
    requires i < |b.holders| && r < RESOURCES
  {
    Sum(b.holders[..i] + b.holders[i + 1..], r)
  }

  lemma {:induction false} SumSplit(holders: seq<Holder>, i: nat, r: nat)
    requires r < RESOURCES && i < |holders|
    ensures Sum(holders, r) == Sum(holders[..i] + holders[i + 1..], r) + holders[i].permits[r]
  {
    if i == 0 {
      assert holders[..0] + holders[1..] == holders[1..];
    } else {
      SumSplit(holders[1..], i - 1, r);
      var rest := holders[..i] + holders[i + 1..];
      assert rest[0] == holders[0] && rest[1..] == holders[1..][..i - 1] + holders[1..][i..];
    }
  }

  /** Resource `r` was given back between two moments. */
  predicate Freed(steps: seq<Step>, from: nat, until: nat, i: nat, r: nat) {
    exists t: nat :: from <= t < until <= |steps| && steps[t] == Free(i, r)
  }

  lemma AfterNext(limits: Permits, steps: seq<Step>, t: nat)
    requires t < |steps|
    ensures |After(limits, steps, t).counters| == RESOURCES
    ensures After(limits, steps, t + 1) == Do(After(limits, steps, t), steps[t])
  {
    hide Do, Inv;
    SevenCounters(After(limits, steps, t));
  }

  predicate AllFreed(steps: seq<Step>, from: nat, until: nat, i: nat) {
    forall r: nat :: r < RESOURCES ==> Freed(steps, from, until, i, r)
  }

  lemma NotFreedYet(steps: seq<Step>, from: nat, i: nat, r: nat)
    ensures !Freed(steps, from, from, i, r)
  {
  }

  lemma FreedLater(steps: seq<Step>, from: nat, t: nat, i: nat, r: nat)
    requires from <= t < |steps|
    ensures Freed(steps, from, t + 1, i, r) <==> Freed(steps, from, t, i, r) || steps[t] == Free(i, r)
  {
    if Freed(steps, from, t + 1, i, r) && steps[t] != Free(i, r) {
      var u: nat :| from <= u < t + 1 && steps[u] == Free(i, r);
      assert u < t;
    }
  }

  lemma {:induction false} GivesBack(limits: Permits, steps: seq<Step>, from: nat, until: nat, i: nat, r: nat)
    requires from <= until <= |steps| && r < RESOURCES
    requires i < |After(limits, steps, from).holders| && After(limits, steps, from).holders[i].stage.Releasing?
    ensures i < |After(limits, steps, until).holders| && After(limits, steps, until).holders[i].stage.Releasing?
    ensures After(limits, steps, until).holders[i].permits[r]
         == if Freed(steps, from, until, i, r) then 0 else After(limits, steps, from).holders[i].permits[r]
    decreases until
  {
    hide Inv, Do, Freed, After;
    if from == until {
      NotFreedYet(steps, from, i, r);
    } else {
      var t := until - 1;
      GivesBack(limits, steps, from, t, i, r);
      AfterNext(limits, steps, t);
      ReleasingStays(After(limits, steps, t), i, steps[t], r);
      FreedLater(steps, from, t, i, r);
    }
  }

  /**
   * A rejected admission leaves nothing behind. In any run, holder `i` is turned down at step `m`,
   * whatever it has taken by then; others go on acquiring, handing over and releasing, and `i` gives
   * its permits back one by one. Once each has been given back it holds nothing, and every counter is
   * its value at the rejection, less what `i` had taken, plus the net change of the others.
   */
  lemma RejectionLeavesNothing(limits: Permits, steps: seq<Step>, m: nat, k: nat, i: nat)
    requires m < k <= |steps| && Refuses(After(limits, steps, m), i, steps[m])
    requires AllFreed(steps, m + 1, k, i)
    ensures var before, after := After(limits, steps, m), After(limits, steps, k);
            && i < |after.holders| && after.holders[i].permits == NONE
            && (forall r: nat :: r < RESOURCES ==>
                  after.counters[r] == before.counters[r] - before.holders[i].permits[r]
                                       + (Elsewhere(after, i, r) - Elsewhere(before, i, r)))
  {
    var before, after := After(limits, steps, m), After(limits, steps, k);
    assert After(limits, steps, m + 1) == SetHolder(before, i, before.holders[i].(stage := Releasing)) by {
      RefusalReleases(before, i, steps[m]);
    }
    hide After, Do, Refuses, Freed;
    forall r: nat | r < RESOURCES
      ensures i < |after.holders| && after.holders[i].permits[r] == 0
      ensures after.counters[r] == before.counters[r] - before.holders[i].permits[r]
                                   + (Elsewhere(after, i, r) - Elsewhere(before, i, r))
    {
      GivesBack(limits, steps, m + 1, k, i, r);
      CounterSplits(before, i, r);
      CounterSplits(after, i, r);
    }
    GivesBack(limits, steps, m + 1, k, i, 0);
  }

  lemma CounterSplits(b: Books, i: nat, r: nat)
    requires Inv(b) && i < |b.holders| && r < RESOURCES
    ensures b.counters[r] == Elsewhere(b, i, r) + b.holders[i].permits[r]
  {
    hide Sum, HolderOk;
    SumSplit(b.holders, i, r);
  }

  /** All the releases of holder `i`, from resource `r` on. */
  ghost function FreeAll(b: Books, i: nat, r: nat): (c: Books)
    requires |b.counters| == RESOURCES && r <= RESOURCES
    ensures |c.counters| == RESOURCES
    decreases RESOURCES - r
  {
    if r == RESOURCES then b else FreeAll(Do(b, Free(i, r)), i, r + 1)
  }

  /** A holder that is giving back can always finish by its own steps, which touch no other holder. */
  lemma {:induction false} ReleaseCanFinish(b: Books, i: nat, r: nat)
    requires Inv(b) && i < |b.holders| && b.holders[i].stage.Releasing? && r <= RESOURCES
    ensures var c := FreeAll(b, i, r);
            && Inv(c) && c.holders == b.holders[i := c.holders[i]]
            && (forall q: nat :: q < RESOURCES ==>
                  && c.holders[i].permits[q] == (if q < r then b.holders[i].permits[q] else 0)
                  && c.counters[q] == b.counters[q] - b.holders[i].permits[q] + c.holders[i].permits[q])
    decreases RESOURCES - r
  {
    if r < RESOURCES {
      StepKeeps(b, Free(i, r));
      hide Inv, Sum;
      ReleaseCanFinish(Do(b, Free(i, r)), i, r + 1);
    }
  }
}
