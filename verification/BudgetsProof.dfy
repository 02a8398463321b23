/** Every single atomic step of an admission, a rejection, a hand-over or a release keeps the books. */
module BudgetsProof {
  import opened Budgets

  /** A step that changes one holder keeps the books when the counters move with it. */
  lemma OneHolder(b: Books, i: nat, h: Holder, counters: seq<int>)
    requires Inv(b) && i < |b.holders| && HolderOk(h) && |counters| == RESOURCES
    requires forall r: nat :: r < RESOURCES ==>
               counters[r] == b.counters[r] - b.holders[i].permits[r] + h.permits[r] <= b.limits[r]
    ensures Inv(SetHolder(b, i, h).(counters := counters))
  {
    hide HolderOk, Sum;
    forall r: nat | r < RESOURCES ensures counters[r] == Sum(b.holders[i := h], r) <= b.limits[r] {
      SumUpdate(b.holders, i, h, r);
    }
  }

  lemma AcquireKeeps(b: Books, i: nat)
    requires Inv(b) && i < |b.holders|
    ensures Inv(AcquireStep(b, i))
  {
    hide Gathered, Recipe, Sum;
    var h := b.holders[i];
    assert HolderOk(h);
    if h.stage.Acquiring? && h.stage.next < |h.recipe| {
      var claim := h.recipe[h.stage.next];
      GatheredNext(h.recipe, h.stage.next);
      if b.counters[claim.resource] + claim.amount <= b.limits[claim.resource] {
        OneHolder(b, i, h.(permits := Take(h.permits, claim), stage := Acquiring(h.stage.next + 1)),
                  b.counters[claim.resource := b.counters[claim.resource] + claim.amount]);
      } else {
        OneHolder(b, i, h.(stage := Releasing), b.counters);
      }
    }
  }

  lemma FreeKeeps(b: Books, i: nat, resource: nat)
    requires Inv(b) && i < |b.holders|
    ensures Inv(FreeStep(b, i, resource))
  {
    hide Gathered, Recipe, Sum;
    var h := b.holders[i];
    assert HolderOk(h);
    if resource < RESOURCES && (h.stage.Releasing? || (h.stage.Settled? && Loose(resource))) {
      OneHolder(b, i, h.(permits := h.permits[resource := 0]),
                b.counters[resource := b.counters[resource] - h.permits[resource]]);
    }
  }

  lemma RestageKeeps(b: Books, i: nat, stage: Stage)
    requires Inv(b) && i < |b.holders|
    requires stage.Releasing? || (stage.Settled? && Complete(b.holders[i]) && !b.holders[i].kind.Upgrade?)
    ensures Inv(SetHolder(b, i, b.holders[i].(stage := stage)))
  {
    hide Gathered, Recipe, Sum;
    var h := b.holders[i];
    assert HolderOk(h);
    if stage.Settled? { CompleteIsBalanced(h); }
    OneHolder(b, i, h.(stage := stage), b.counters);
  }

  lemma SplitPermits(p: Permits, r: nat)
    requires r < RESOURCES
    ensures Kept(p)[r] + Carried(p)[r] == p[r]
  {
  }

  lemma HandOverKeeps(b: Books, i: nat)
    requires Inv(b) && i < |b.holders|
    ensures Inv(HandOverStep(b, i)) && HandOverStep(b, i).counters == b.counters
  {
    hide Gathered, Recipe, Sum;
    var h := b.holders[i];
    assert HolderOk(h);
    if h.stage.Settled? && (h.kind.Connect? || h.kind.TlsConnect?) {
      var left, live := h.(kind := Delivered, permits := Kept(h.permits)), Holder(Connection, [], Carried(h.permits), Settled);
      var after := b.holders[i := left] + [live];
      forall r: nat | r < RESOURCES ensures b.counters[r] == Sum(after, r) {
        SumUpdate(b.holders, i, left, r);
        SumAppend(b.holders[i := left], live, r);
        SplitPermits(h.permits, r);
      }
      forall k: nat | k < |after| ensures HolderOk(after[k]) {
        if k < |b.holders| { assert HolderOk(b.holders[k]); }
      }
    }
  }

  lemma AttachKeeps(b: Books, i: nat, connection: nat)
    requires Inv(b) && i < |b.holders| && connection < |b.holders|
    ensures Inv(AttachStep(b, i, connection))
  {
    hide Gathered, Recipe, Sum;
    var h, c := b.holders[i], b.holders[connection];
    assert HolderOk(h) && HolderOk(c);
    if i != connection && Complete(h) && h.kind.Upgrade? && c.kind.Connection? && c.stage.Settled? {
      CompleteIsBalanced(h);
      var left, more := h.(permits := Kept(h.permits), stage := Settled), c.(permits := Joined(c.permits, Carried(h.permits)));
      var after := b.holders[i := left][connection := more];
      forall r: nat | r < RESOURCES ensures b.counters[r] == Sum(after, r) {
        SumUpdate(b.holders, i, left, r);
        SumUpdate(b.holders[i := left], connection, more, r);
        SplitPermits(h.permits, r);
      }
      forall k: nat | k < |after| ensures HolderOk(after[k]) { assert HolderOk(b.holders[k]); }
    }
  }

  lemma SubmitKeeps(b: Books, kind: Kind, bytes: nat, hostname: bool, callback: bool)
    requires Inv(b)
    ensures Inv(Do(b, Submit(kind, bytes, hostname, callback)))
  {
    hide Sum, Recipe;
    var h := Holder(kind, Recipe(kind, bytes, hostname, callback), NONE,
                    if kind.Connection? || kind.Delivered? then Releasing else Acquiring(0));
    assert h.recipe[..0] == [];
    forall r: nat | r < RESOURCES ensures b.counters[r] == Sum(b.holders + [h], r) { SumAppend(b.holders, h, r); }
    assert HolderOk(h);
    hide HolderOk;
  }

  lemma StepKeeps(b: Books, step: Step)
    requires Inv(b)
    ensures Inv(Do(b, step))
  {
    hide Inv, AcquireStep, AttachStep, HandOverStep, FreeStep, Recipe, Complete;
    assert |b.counters| == RESOURCES by { SevenCounters(b); }
    match step {
      case Submit(kind, bytes, hostname, callback) => SubmitKeeps(b, kind, bytes, hostname, callback);
      case Acquire(i) => if i < |b.holders| { AcquireKeeps(b, i); }
      case Accept(i) =>
        if i < |b.holders| && Complete(b.holders[i]) && !b.holders[i].kind.Upgrade? { RestageKeeps(b, i, Settled); }
      case Reject(i) => if i < |b.holders| { RestageKeeps(b, i, Releasing); }
      case Attach(i, c) => if i < |b.holders| && c < |b.holders| { AttachKeeps(b, i, c); }
      case HandOver(i) => if i < |b.holders| { HandOverKeeps(b, i); }
      case End(i) => if i < |b.holders| { RestageKeeps(b, i, Releasing); }
      case Free(i, resource) => if i < |b.holders| { FreeKeeps(b, i, resource); }
    }
  }

  lemma SevenCounters(b: Books)
    requires Inv(b)
    ensures |b.counters| == RESOURCES
  {
  }
}
