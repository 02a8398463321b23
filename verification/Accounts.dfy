/**
 * The lifecycle of src/registry.rs and its shared budgets as one machine. A connect enters the registry
 * with the permits it has acquired, its transport takes the connection slot and the byte windows over,
 * a decided operation gives back what it still has, and a connection gives its permits back before it
 * leaves the live map. So the connection counter can be compared with the registry's own maps.
 */
module Accounts {
  import opened Bytes
  import L = Lifecycle
  import LifecycleProof
  import LifecycleRuns
  import opened LifecycleFrames
  import opened Transports
  import B = Budgets
  import BudgetsProof
  import BudgetsRuns

  /** What a holder of permits belongs to. */
  datatype Owner = Nobody | OfOp(ref: nat) | OfIo(io: nat)

  datatype Account = Account(g: L.Registry, b: B.Books, owner: seq<Owner>)

  /** A critical section, with the holder whose permits it moves if it moves any, or a step of the budgets alone. */
  datatype Step = Life(section: L.Step, holder: nat) | Money(work: B.Step)

  predicate Shaped(a: Account) { |a.owner| == |a.b.holders| && |a.b.counters| == B.RESOURCES }

  predicate IsConnect(kind: B.Kind) { kind.Connect? || kind.TlsConnect? }

  predicate Matches(kind: L.Kind, permits: B.Kind) {
    (kind.Tcp? && permits.Connect?) || (kind == L.Tls(false) && permits.TlsConnect?)
  }

  /** A decided operation starts to give back. */
  function Ended(h: B.Holder, owner: Owner, ops: seq<L.Op>): (r: B.Holder) {
    if h.stage.Settled? && owner.OfOp? && owner.ref < |ops| && ops[owner.ref].terminal then h.(stage := B.Releasing) else h
  }

  function EndAll(b: B.Books, owner: seq<Owner>, ops: seq<L.Op>): (r: B.Books)
    requires |owner| == |b.holders|
  {
    b.(holders := seq(|owner|, i requires 0 <= i < |owner| => Ended(b.holders[i], owner[i], ops)))
  }

  /** An admission that needs a connection slot: nothing happens without a complete set of permits. */
  function Enter(a: Account, section: L.Step, holder: nat): (r: Account)
    requires Shaped(a) && section.StepAccept?
    ensures Shaped(r)
  {
    var g := L.Do(a.g, section);
    if holder < |a.owner| && a.owner[holder].Nobody? && B.Complete(a.b.holders[holder])
       && Matches(section.kind, a.b.holders[holder].kind) then
      if g.ops == a.g.ops then Account(g, B.Do(a.b, B.Reject(holder)), a.owner)
      else Account(g, B.Do(a.b, B.Accept(holder)), a.owner[holder := OfOp(|a.g.ops|)])
    else a
  }

  /** A transport is opened and takes over the permits of its connect. */
  function Open(a: Account, section: L.Step, holder: nat): (r: Account)
    requires Shaped(a) && Opens(section)
    ensures Shaped(r)
  {
    var g := L.Do(a.g, section);
    if g != a.g && holder < |a.owner| && a.owner[holder] == OfOp(section.ref) then
      var b := B.Do(a.b, B.HandOver(holder));
      var owner := if |b.holders| > |a.owner| then a.owner + [OfIo(|a.g.ios|)] else a.owner;
      Account(g, EndAll(b, owner, g.ops), owner)
    else a
  }

  /** A connection leaves the live map after its slot and its byte windows are given back. */
  function Close(a: Account, section: L.Step, holder: nat): (r: Account)
    requires Shaped(a) && section.StepReleaseIo?
    ensures Shaped(r)
  {
    if && holder < |a.owner| && a.owner[holder] == OfIo(section.io) && a.b.holders[holder].stage.Releasing?
       && var p := a.b.holders[holder].permits; p[B.CONNECTIONS] == p[B.QUEUED] == p[B.TCP_QUEUED] == 0
    then a.(g := L.Do(a.g, section)) else a
  }

  /** Who needs the registry for it does not settle, hand over or end by a step of the budgets. */
  predicate Independent(b: B.Books, work: B.Step) {
    match work
    case HandOver(_) => false
    case Accept(i) => i < |b.holders| ==> !B.HoldsSlot(b.holders[i].kind)
    case End(i) => i < |b.holders| ==> !IsConnect(b.holders[i].kind)
    case _ => true
  }

  function Do(a: Account, step: Step): (r: Account)
    requires Shaped(a)
    ensures Shaped(r)
  {
    match step
    case Money(work) =>
      if Independent(a.b, work) then
        a.(b := B.Do(a.b, work), owner := if work.Submit? then a.owner + [Nobody] else a.owner)
      else a
    case Life(section, holder) =>
      if section.StepAccept? && (section.kind.Tcp? || section.kind == L.Tls(false)) then Enter(a, section, holder)
      else if Opens(section) then Open(a, section, holder)
      else if section.StepReleaseIo? then Close(a, section, holder)
      else
        var g := L.Do(a.g, section);
        Account(g, EndAll(a.b, a.owner, g.ops), a.owner)
  }

  // ---- who owns a slot ----

  /** A settled slot belongs to a waiting connect or an open transport; a waiting connect has settled permits. */
  ghost predicate Seated(ops: seq<L.Op>, ios: seq<L.Io>, h: B.Holder, owner: Owner) {
    && (h.stage.Settled? && IsConnect(h.kind) ==> owner.OfOp? && owner.ref < |ops| && Waits(ops[owner.ref]))
    && (h.stage.Settled? && h.kind.Connection? ==> owner.OfIo? && owner.io < |ios| && !ios[owner.io].released)
    && (owner.OfOp? ==> && owner.ref < |ops| && !h.stage.Acquiring? && !h.kind.Connection?
                        && (Waits(ops[owner.ref]) ==> h.stage.Settled? && IsConnect(h.kind)))
    && (owner.OfIo? ==> owner.io < |ios| && h.kind.Connection? && !h.stage.Acquiring?)
  }

  ghost predicate AllSeated(ops: seq<L.Op>, ios: seq<L.Io>, holders: seq<B.Holder>, owner: seq<Owner>) {
    |owner| == |holders| && forall i: nat :: i < |owner| ==> Seated(ops, ios, holders[i], owner[i])
  }

  ghost predicate AllOwned(ops: seq<L.Op>, ios: seq<L.Io>, owner: seq<Owner>) {
    && (forall ref: nat :: ref < |ops| && Waits(ops[ref]) ==> OfOp(ref) in owner)
    && (forall io: nat :: io < |ios| && !ios[io].released ==> OfIo(io) in owner)
  }

  ghost predicate OneEach(owner: seq<Owner>) {
    forall i: nat, k: nat :: i < k < |owner| && owner[i] == owner[k] ==> owner[i].Nobody?
  }

  ghost predicate Owned(ops: seq<L.Op>, ios: seq<L.Io>, holders: seq<B.Holder>, owner: seq<Owner>) {
    AllSeated(ops, ios, holders, owner) && AllOwned(ops, ios, owner) && OneEach(owner)
  }

  ghost predicate Inv(a: Account) {
    && B.Inv(a.b) && LifecycleProof.Inv(a.g) && TransportInv(a.g)
    && Owned(a.g.ops, a.g.ios, a.b.holders, a.owner)
  }

  // ---- a step of the budgets alone ----

  predicate Moves(h: B.Holder, k: B.Holder) {
    && k.kind == h.kind
    && (|| k.stage == h.stage
        || (h.stage.Acquiring? && !(k.stage.Settled? && B.HoldsSlot(k.kind)))
        || (h.stage.Settled? && k.stage.Releasing? && !IsConnect(h.kind)))
  }

  predicate AllMove(before: seq<B.Holder>, after: seq<B.Holder>) {
    |before| == |after| && forall i: nat :: i < |before| ==> Moves(before[i], after[i])
  }

  lemma OneMoves(before: seq<B.Holder>, i: nat, h: B.Holder)
    requires i < |before| && Moves(before[i], h)
    ensures AllMove(before, before[i := h])
  {
  }

  lemma WorkMoves(b: B.Books, work: B.Step)
    requires |b.counters| == B.RESOURCES && Independent(b, work) && !work.Submit? && !work.Attach?
    ensures AllMove(b.holders, B.Do(b, work).holders)
  {
    hide B.Take, B.Recipe, AllMove;
    var c := B.Do(b, work);
    if |b.holders| > 0 { OneMoves(b.holders, 0, b.holders[0]); assert b.holders[0 := b.holders[0]] == b.holders; }
    else { assert AllMove([], []) by { Nothing(); } }
    if work.Acquire? || work.Accept? || work.Reject? || work.End? || work.Free? {
      if work.i < |b.holders| {
        OneMoves(b.holders, work.i, c.holders[work.i]);
        assert c.holders == b.holders[work.i := c.holders[work.i]];
      }
    }
  }

  lemma Nothing()
    ensures AllMove([], [])
  {
  }

  lemma AttachMoves(b: B.Books, i: nat, connection: nat)
    requires |b.counters| == B.RESOURCES
    ensures AllMove(b.holders, B.Do(b, B.Attach(i, connection)).holders)
  {
    hide B.Kept, B.Joined, B.Carried;
  }

  lemma MovedSeats(ops: seq<L.Op>, ios: seq<L.Io>, before: seq<B.Holder>, after: seq<B.Holder>, owner: seq<Owner>)
    requires Owned(ops, ios, before, owner) && AllMove(before, after)
    ensures Owned(ops, ios, after, owner)
  {
    forall i: nat | i < |owner| ensures Seated(ops, ios, after[i], owner[i]) {
      assert Seated(ops, ios, before[i], owner[i]) && Moves(before[i], after[i]);
    }
  }

  lemma SubmittedSeats(ops: seq<L.Op>, ios: seq<L.Io>, holders: seq<B.Holder>, owner: seq<Owner>, h: B.Holder)
    requires Owned(ops, ios, holders, owner) && !h.stage.Settled?
    ensures Owned(ops, ios, holders + [h], owner + [Nobody])
  {
    hide Waits;
    var after, owners := holders + [h], owner + [Nobody];
    forall i: nat | i < |owners| ensures Seated(ops, ios, after[i], owners[i]) {
      if i < |owner| { assert Seated(ops, ios, holders[i], owner[i]); }
    }
    assert forall o :: o in owner ==> o in owners;
  }

  lemma MoneyKeeps(a: Account, work: B.Step)
    requires Inv(a) && Shaped(a)
    ensures Inv(Do(a, Money(work)))
  {
    hide LifecycleProof.Inv, TransportInv, B.Inv, Owned, B.Do;
    BudgetsProof.StepKeeps(a.b, work);
    if Independent(a.b, work) {
      var c := B.Do(a.b, work);
      if work.Submit? {
        var h := Submitted(a.b, work);
        SubmittedSeats(a.g.ops, a.g.ios, a.b.holders, a.owner, h);
      } else {
        if work.Attach? { AttachMoves(a.b, work.i, work.connection); } else { WorkMoves(a.b, work); }
        MovedSeats(a.g.ops, a.g.ios, a.b.holders, c.holders, a.owner);
      }
    }
  }

  lemma Submitted(b: B.Books, work: B.Step) returns (h: B.Holder)
    requires |b.counters| == B.RESOURCES && work.Submit?
    ensures B.Do(b, work).holders == b.holders + [h] && !h.stage.Settled?
  {
    hide B.Recipe;
    h := B.Holder(work.kind, B.Recipe(work.kind, work.bytes, work.hostname, work.callback), B.NONE,
                  if work.kind.Connection? || work.kind.Delivered? then B.Releasing else B.Acquiring(0));
  }

  // ---- a critical section that moves no permit ----

  lemma EndedSeat(ops: seq<L.Op>, ios: seq<L.Io>, later: seq<L.Op>, iosLater: seq<L.Io>, h: B.Holder, owner: Owner)
    requires Seated(ops, ios, h, owner) && SameIos(ios, iosLater)
    requires |ops| <= |later| && forall ref: nat :: ref < |ops| ==> Older(ops[ref], later[ref])
    ensures Seated(later, iosLater, Ended(h, owner, later), owner)
  {
  }

  lemma EndedSeats(a: Account, g: L.Registry)
    requires Owned(a.g.ops, a.g.ios, a.b.holders, a.owner) && SameIos(a.g.ios, g.ios) && |a.g.ops| <= |g.ops|
    requires forall ref: nat :: ref < |a.g.ops| ==> Older(a.g.ops[ref], g.ops[ref])
    requires forall ref: nat :: |a.g.ops| <= ref < |g.ops| ==> !Waits(g.ops[ref])
    ensures Owned(g.ops, g.ios, EndAll(a.b, a.owner, g.ops).holders, a.owner)
  {
    var after := EndAll(a.b, a.owner, g.ops).holders;
    forall i: nat | i < |a.owner| ensures Seated(g.ops, g.ios, after[i], a.owner[i]) {
      EndedSeat(a.g.ops, a.g.ios, g.ops, g.ios, a.b.holders[i], a.owner[i]);
    }
    hide Seated;
    assert AllSeated(g.ops, g.ios, after, a.owner);
    assert AllOwned(g.ops, g.ios, a.owner);
  }

  lemma {:induction false} SumSame(before: seq<B.Holder>, after: seq<B.Holder>, r: nat)
    requires r < B.RESOURCES && |before| == |after|
    requires forall i: nat :: i < |before| ==> after[i].permits == before[i].permits
    ensures B.Sum(after, r) == B.Sum(before, r)
  {
    if before != [] { SumSame(before[1..], after[1..], r); }
  }

  lemma EndAllKeeps(b: B.Books, owner: seq<Owner>, ops: seq<L.Op>)
    requires B.Inv(b) && |owner| == |b.holders|
    ensures B.Inv(EndAll(b, owner, ops))
  {
    hide B.Sum, B.Recipe, B.Gathered;
    var after := EndAll(b, owner, ops);
    forall i: nat | i < |after.holders| ensures B.HolderOk(after.holders[i]) { assert B.HolderOk(b.holders[i]); }
    hide B.HolderOk;
    forall r: nat | r < B.RESOURCES ensures after.counters[r] == B.Sum(after.holders, r) <= after.limits[r] {
      SumSame(b.holders, after.holders, r);
    }
  }

  lemma QuietKeeps(a: Account, section: L.Step, holder: nat)
    requires Inv(a) && Shaped(a) && Quiet(section)
    ensures Inv(Do(a, Life(section, holder)))
  {
    hide LifecycleProof.Inv, TransportInv, B.Inv, Owned, L.Do, EndAll;
    var g := L.Do(a.g, section);
    LifecycleProof.StepKeeps(a.g, section);
    QuietSettles(a.g, section);
    EndedSeats(a, g);
    EndAllKeeps(a.b, a.owner, g.ops);
  }

  // ---- an admission with a slot ----

  lemma EnteredSeats(ops: seq<L.Op>, ios: seq<L.Io>, holders: seq<B.Holder>, owner: seq<Owner>, i: nat, op: L.Op, h: B.Holder)
    requires Owned(ops, ios, holders, owner) && i < |owner| && owner[i].Nobody?
    requires h.stage.Settled? && IsConnect(h.kind) && Waits(op)
    ensures Owned(ops + [op], ios, holders[i := h], owner[i := OfOp(|ops|)])
  {
    hide Waits;
    var later, after, owners := ops + [op], holders[i := h], owner[i := OfOp(|ops|)];
    forall k: nat | k < |owners| ensures Seated(later, ios, after[k], owners[k]) {
      if k != i { assert Seated(ops, ios, holders[k], owner[k]); }
    }
    assert owners[i] == OfOp(|ops|);
    forall o: Owner | o in owner && !o.Nobody? ensures o in owners {
      var k: nat :| k < |owner| && owner[k] == o;
      assert owners[k] == o;
    }
    assert AllOwned(later, ios, owners);
    assert forall k: nat :: k < |owner| ==> Seated(ops, ios, holders[k], owner[k]);
  }

  lemma EnterKeeps(a: Account, section: L.Step, holder: nat)
    requires Inv(a) && Shaped(a) && section.StepAccept? && (section.kind.Tcp? || section.kind == L.Tls(false))
    ensures Inv(Enter(a, section, holder))
  {
    hide LifecycleProof.Inv, TransportInv, B.Inv, Owned, L.Accept, B.Recipe;
    var g := L.Do(a.g, section);
    LifecycleProof.StepKeeps(a.g, section);
    InvFresh(a.g);
    AcceptEnters(a.g, section.kind, section.callback, section.full);
    EntersKeeps(a.g, g, a.g.nextId, section.kind, section.callback);
    if Enter(a, section, holder) != a {
      var h := a.b.holders[holder];
      if g.ops == a.g.ops {
        BudgetsProof.StepKeeps(a.b, B.Reject(holder));
        OneMoves(a.b.holders, holder, h.(stage := B.Releasing));
        MovedSeats(a.g.ops, a.g.ios, a.b.holders, a.b.holders[holder := h.(stage := B.Releasing)], a.owner);
      } else {
        BudgetsProof.StepKeeps(a.b, B.Accept(holder));
        EnteredSeats(a.g.ops, a.g.ios, a.b.holders, a.owner, holder,
                     L.NewOp(a.g.nextId, section.kind, section.callback), h.(stage := B.Settled));
      }
    }
  }

  // ---- a transport is opened ----

  lemma OpenedSeats(a: Account, g: L.Registry, i: nat, ref: nat, b: B.Books, owner: seq<Owner>)
    requires Owned(a.g.ops, a.g.ios, a.b.holders, a.owner) && Opened(a.g, g, ref)
    requires i < |a.owner| && a.owner[i] == OfOp(ref) && owner == a.owner + [OfIo(|a.g.ios|)]
    requires |b.holders| == |owner| && b.holders[i].kind.Delivered? && !b.holders[i].stage.Acquiring?
    requires b.holders[|a.owner|].kind.Connection? && b.holders[|a.owner|].stage.Settled?
    requires forall k: nat :: k < |a.owner| && k != i ==> b.holders[k] == a.b.holders[k]
    ensures Owned(g.ops, g.ios, EndAll(b, owner, g.ops).holders, owner)
  {
    var after := EndAll(b, owner, g.ops).holders;
    forall k: nat | k < |owner| ensures Seated(g.ops, g.ios, after[k], owner[k]) {
      if k < |a.owner| {
        assert Seated(a.g.ops, a.g.ios, a.b.holders[k], a.owner[k]);
        assert k != i ==> a.owner[k] != OfOp(ref);
      }
    }
    hide Seated;
    assert AllSeated(g.ops, g.ios, after, owner);
    assert OneEach(owner) by {
      forall k: nat | k < |a.owner| ensures a.owner[k] != OfIo(|a.g.ios|) { SeatInRange(a, k); }
    }
    assert owner[|a.owner|] == OfIo(|a.g.ios|);
    assert forall o :: o in a.owner ==> o in owner;
    assert AllOwned(g.ops, g.ios, owner);
  }

  lemma SeatInRange(a: Account, k: nat)
    requires Owned(a.g.ops, a.g.ios, a.b.holders, a.owner) && k < |a.owner|
    ensures a.owner[k].OfIo? ==> a.owner[k].io < |a.g.ios|
  {
    assert Seated(a.g.ops, a.g.ios, a.b.holders[k], a.owner[k]);
  }

  lemma SectionOpens(g: L.Registry, section: L.Step)
    requires LifecycleProof.Inv(g) && Opens(section)
    ensures L.Do(g, section) == g || Opened(g, L.Do(g, section), section.ref)
  {
    hide LifecycleProof.Inv, L.Accept, L.AcceptUpgrade, L.CommitRequest, L.TcpConnected, L.TcpFails, Opened,
         L.TlsTransport, L.TlsConnected, L.TlsFails, L.BeginSweep, L.TaskStep, L.SubmitNext, L.AbortIo, L.ReleaseIo;
    TcpOpens(g, section.ref);
    TlsOpens(g, section.ref);
  }

  /** The holder of a waiting connect is the connect's own, settled. */
  lemma WaitingSeat(a: Account, i: nat, ref: nat)
    requires Owned(a.g.ops, a.g.ios, a.b.holders, a.owner) && i < |a.owner| && a.owner[i] == OfOp(ref)
    requires ref < |a.g.ops| && Waits(a.g.ops[ref])
    ensures a.b.holders[i].stage.Settled? && IsConnect(a.b.holders[i].kind)
  {
    assert Seated(a.g.ops, a.g.ios, a.b.holders[i], a.owner[i]);
  }

  lemma OpenKeeps(a: Account, section: L.Step, holder: nat)
    requires Inv(a) && Shaped(a) && Opens(section)
    ensures Inv(Open(a, section, holder))
  {
    hide LifecycleProof.Inv, TransportInv, B.Inv, Owned, L.Do, EndAll, B.Kept, B.Carried;
    var g := L.Do(a.g, section);
    SectionOpens(a.g, section);
    if g != a.g && holder < |a.owner| && a.owner[holder] == OfOp(section.ref) {
      LifecycleProof.StepKeeps(a.g, section);
      OpenedKeeps(a.g, g, section.ref);
      WaitingSeat(a, holder, section.ref);
      BudgetsProof.StepKeeps(a.b, B.HandOver(holder));
      var b := B.Do(a.b, B.HandOver(holder));
      var owner := a.owner + [OfIo(|a.g.ios|)];
      OpenedSeats(a, g, holder, section.ref, b, owner);
      EndAllKeeps(b, owner, g.ops);
    }
  }

  // ---- a connection leaves ----

  lemma ClosedSeats(a: Account, io: nat, i: nat)
    requires Owned(a.g.ops, a.g.ios, a.b.holders, a.owner)
    requires i < |a.owner| && a.owner[i] == OfIo(io) && a.b.holders[i].stage.Releasing?
    ensures Owned(a.g.ops, L.ReleaseIo(a.g, io).ios, a.b.holders, a.owner)
  {
    hide L.LiveIo, Waits;
    var ios := L.ReleaseIo(a.g, io).ios;
    forall k: nat | k < |a.owner| ensures Seated(a.g.ops, ios, a.b.holders[k], a.owner[k]) {
      assert Seated(a.g.ops, a.g.ios, a.b.holders[k], a.owner[k]);
      assert k != i ==> a.owner[k] != OfIo(io);
    }
    assert AllOwned(a.g.ops, ios, a.owner);
  }

  lemma CloseKeeps(a: Account, section: L.Step, holder: nat)
    requires Inv(a) && Shaped(a) && section.StepReleaseIo?
    ensures Inv(Close(a, section, holder))
  {
    hide LifecycleProof.Inv, TransportInv, B.Inv, Owned, L.ReleaseIo;
    if Close(a, section, holder) != a {
      LifecycleProof.StepKeeps(a.g, section);
      ReleaseKeeps(a.g, section.io);
      ClosedSeats(a, section.io, holder);
    }
  }

  lemma StepKeeps(a: Account, step: Step)
    requires Inv(a) && Shaped(a)
    ensures Inv(Do(a, step))
  {
    hide Inv, Enter, Open, Close, B.Do, L.Do, EndAll;
    match step {
      case Money(work) => MoneyKeeps(a, work);
      case Life(section, holder) =>
        if Quiet(section) {
          QuietKeeps(a, section, holder);
        } else if section.StepAccept? {
          EnterKeeps(a, section, holder);
        } else if Opens(section) {
          OpenKeeps(a, section, holder);
        } else {
          CloseKeeps(a, section, holder);
        }
    }
  }

  ghost function After(limits: B.Permits, steps: seq<Step>, k: nat): (a: Account)
    requires k <= |steps|
    ensures Inv(a) && Shaped(a)
  {
    if k == 0 then
      LifecycleRuns.RunKeeps([], 0);
      assert forall r: nat :: r < B.RESOURCES ==> B.Sum([], r) == 0;
      Account(L.START, B.Books(limits, B.NONE, []), [])
    else
      var before := After(limits, steps, k - 1);
      StepKeeps(before, steps[k - 1]);
      Do(before, steps[k - 1])
  }

  // ---- counting ----

  lemma {:induction false} InjectionSize<A, C>(m: map<A, C>)
    requires forall x, y :: x in m && y in m && m[x] == m[y] ==> x == y
    ensures |m.Values| == |m|
  {
    if m != map[] {
      var x :| x in m;
      var rest := m - {x};
      InjectionSize(rest);
      assert m.Values == rest.Values + {m[x]};
      assert m[x] !in rest.Values;
      assert m.Keys == rest.Keys + {x};
    }
  }

  /** TLS connects of their own whose transport is not there yet. */
  function TlsWaiting(g: L.Registry): (s: set<nat>) {
    set id | id in g.tls && g.tls[id] < |g.ops| && Waits(g.ops[g.tls[id]])
  }

  /** The release of this transport has begun. */
  predicate Closing(a: Account, io: nat) {
    exists i: nat :: i < |a.owner| && i < |a.b.holders| && a.owner[i] == OfIo(io) && a.b.holders[i].stage.Releasing?
  }

  /** Live connections whose release has not begun. */
  function OpenIds(a: Account): (s: set<nat>) { set id | id in a.g.live && !Closing(a, a.g.live[id]) }

  /** The owner of each slot there is. */
  function Seats(a: Account): (m: map<nat, Owner>)
    requires Shaped(a)
  {
    map i | i in BudgetsRuns.SlotHolders(a.b.holders) :: a.owner[i]
  }

  lemma SeatOwner(a: Account, i: nat)
    requires Owned(a.g.ops, a.g.ios, a.b.holders, a.owner) && i in BudgetsRuns.SlotHolders(a.b.holders)
    ensures i < |a.owner| && !a.owner[i].Nobody?
    ensures a.owner[i].OfOp? ==> a.owner[i].ref < |a.g.ops| && Waits(a.g.ops[a.owner[i].ref])
    ensures a.owner[i].OfIo? ==> && a.owner[i].io < |a.g.ios| && !a.g.ios[a.owner[i].io].released
                                 && !a.b.holders[i].stage.Releasing?
  {
    hide Waits;
    assert Seated(a.g.ops, a.g.ios, a.b.holders[i], a.owner[i]);
  }

  lemma SeatsDiffer(a: Account)
    requires Shaped(a) && Owned(a.g.ops, a.g.ios, a.b.holders, a.owner)
    ensures |Seats(a).Values| == |BudgetsRuns.SlotHolders(a.b.holders)|
  {
    var m := Seats(a);
    forall x, y | x in m && y in m && m[x] == m[y] ensures x == y {
      SeatOwner(a, x);
      assert x < y || y < x || x == y;
    }
    InjectionSize(m);
    assert m.Keys == BudgetsRuns.SlotHolders(a.b.holders);
  }

  function ConnectSeats(g: L.Registry): (m: map<nat, Owner>) { map id | id in g.connects :: OfOp(g.connects[id]) }

  function TlsSeats(g: L.Registry): (m: map<nat, Owner>) { map id | id in TlsWaiting(g) :: OfOp(g.tls[id]) }

  function IoSeats(a: Account): (m: map<nat, Owner>) { map id | id in OpenIds(a) :: OfIo(a.g.live[id]) }

  lemma MapsIndexed(g: L.Registry)
    requires LifecycleProof.Inv(g)
    ensures LifecycleProof.Indexed(g.connects, g.ops, 1) && LifecycleProof.Indexed(g.tls, g.ops, 2)
  {
    hide LifecycleProof.OpsOk, LifecycleProof.OwnerInv, LifecycleProof.AbortInv, LifecycleProof.ReactorInv,
         LifecycleProof.ShutdownInv, LifecycleProof.CallbackInv, LifecycleProof.Indexed;
  }

  lemma SeatSizes(a: Account)
    requires LifecycleProof.Inv(a.g) && LiveIsOpen(a.g.live, a.g.ios)
    ensures |ConnectSeats(a.g).Values| == |a.g.connects| && |TlsSeats(a.g).Values| == |TlsWaiting(a.g)|
    ensures |IoSeats(a).Values| == |OpenIds(a)|
    ensures ConnectSeats(a.g).Values !! TlsSeats(a.g).Values && IoSeats(a).Values !! ConnectSeats(a.g).Values
    ensures IoSeats(a).Values !! TlsSeats(a.g).Values
  {
    hide LifecycleProof.Inv, Waits, Closing;
    MapsIndexed(a.g);
    InjectionSize(ConnectSeats(a.g));
    InjectionSize(TlsSeats(a.g));
    InjectionSize(IoSeats(a));
    assert ConnectSeats(a.g).Keys == a.g.connects.Keys;
    assert TlsSeats(a.g).Keys == TlsWaiting(a.g);
    assert IoSeats(a).Keys == OpenIds(a);
  }

  lemma TakenSeat(a: Account, i: nat)
    requires Inv(a) && Shaped(a) && i in BudgetsRuns.SlotHolders(a.b.holders)
    ensures a.owner[i] in ConnectSeats(a.g).Values + TlsSeats(a.g).Values + IoSeats(a).Values
  {
    hide LifecycleProof.Inv, B.Inv, Owned;
    SeatOwner(a, i);
    MapsIndexed(a.g);
    var o := a.owner[i];
    if o.OfOp? {
      var id := a.g.ops[o.ref].id;
      if a.g.ops[o.ref].kind.Tcp? { assert id in ConnectSeats(a.g) && ConnectSeats(a.g)[id] == o; }
      else { assert id in TlsSeats(a.g) && TlsSeats(a.g)[id] == o; }
    } else {
      var id := a.g.ios[o.io].id;
      NotClosing(a, i);
      assert id in IoSeats(a) && IoSeats(a)[id] == o;
    }
  }

  lemma NotClosing(a: Account, i: nat)
    requires Owned(a.g.ops, a.g.ios, a.b.holders, a.owner) && i < |a.owner| && a.owner[i].OfIo?
    ensures Closing(a, a.owner[i].io) <==> a.b.holders[i].stage.Releasing?
  {
    forall k: nat | k < |a.owner| && a.owner[k] == a.owner[i] ensures k == i {
      assert k < i || i < k || k == i;
    }
  }

  lemma OpSeatTaken(a: Account, ref: nat)
    requires Shaped(a) && Owned(a.g.ops, a.g.ios, a.b.holders, a.owner) && ref < |a.g.ops| && Waits(a.g.ops[ref])
    ensures OfOp(ref) in Seats(a).Values
  {
    var i: nat :| i < |a.owner| && a.owner[i] == OfOp(ref);
    WaitingSeat(a, i, ref);
    assert i in Seats(a) && Seats(a)[i] == OfOp(ref);
  }

  lemma IoSeatTaken(a: Account, io: nat)
    requires Shaped(a) && Owned(a.g.ops, a.g.ios, a.b.holders, a.owner) && io < |a.g.ios| && !a.g.ios[io].released
    requires !Closing(a, io)
    ensures OfIo(io) in Seats(a).Values
  {
    hide Closing;
    var i: nat :| i < |a.owner| && a.owner[i] == OfIo(io);
    NotClosing(a, i);
    assert Seated(a.g.ops, a.g.ios, a.b.holders[i], a.owner[i]);
    assert i in Seats(a) && Seats(a)[i] == OfIo(io);
  }

  lemma SeatsAreTaken(a: Account)
    requires Inv(a) && Shaped(a)
    ensures Seats(a).Values == ConnectSeats(a.g).Values + TlsSeats(a.g).Values + IoSeats(a).Values
  {
    hide LifecycleProof.Inv, B.Inv, Owned, Closing;
    MapsIndexed(a.g);
    forall o | o in Seats(a).Values ensures o in ConnectSeats(a.g).Values + TlsSeats(a.g).Values + IoSeats(a).Values {
      var i :| i in Seats(a) && Seats(a)[i] == o;
      TakenSeat(a, i);
    }
    forall id | id in ConnectSeats(a.g) ensures ConnectSeats(a.g)[id] in Seats(a).Values {
      OpSeatTaken(a, a.g.connects[id]);
    }
    forall id | id in TlsSeats(a.g) ensures TlsSeats(a.g)[id] in Seats(a).Values { OpSeatTaken(a, a.g.tls[id]); }
    forall id | id in IoSeats(a) ensures IoSeats(a)[id] in Seats(a).Values { IoSeatTaken(a, a.g.live[id]); }
  }

  lemma SlotsCounted(a: Account)
    requires Inv(a) && Shaped(a)
    ensures |BudgetsRuns.SlotHolders(a.b.holders)| == |a.g.connects| + |TlsWaiting(a.g)| + |OpenIds(a)|
  {
    hide LifecycleProof.Inv, B.Inv, Owned, Closing, Seats, ConnectSeats, TlsSeats, IoSeats, TlsWaiting, OpenIds,
         BudgetsRuns.SlotHolders;
    SeatsDiffer(a);
    SeatSizes(a);
    SeatsAreTaken(a);
  }

  /** The books of an account are within their limits and balance. */
  lemma BooksBalance(b: B.Books)
    requires B.Inv(b)
    ensures |b.counters| == B.RESOURCES
    ensures forall r: nat :: r < B.RESOURCES ==> 0 <= b.counters[r] == B.Sum(b.holders, r) <= b.limits[r]
    ensures BudgetsRuns.AtRest(b.holders) ==>
              && b.counters[B.QUEUED] == b.counters[B.STREAM_QUEUED] + b.counters[B.TCP_QUEUED]
              && b.counters[B.CONNECTIONS] == |BudgetsRuns.SlotHolders(b.holders)|
  {
    hide B.Sum, BudgetsRuns.SlotHolders, B.HolderOk, BudgetsRuns.AtRest;
    if BudgetsRuns.AtRest(b.holders) { BudgetsRuns.RestBalances(b.holders); }
  }

  /**
   * The resource ledger against the registry. In every run of the registry and its budgets together, at
   * every moment when no admission or release is between two of its steps, the connection counter is the
   * number of pending connects, of TLS connects whose transport is not there yet, and of live
   * connections, less those whose release has given the permits back and not yet left the live map.
   */
  lemma ConnectionsCounted(limits: B.Permits, steps: seq<Step>, k: nat)
    requires k <= |steps|
    ensures var a := After(limits, steps, k);
            BudgetsRuns.AtRest(a.b.holders) ==>
              && a.b.counters[B.QUEUED] == a.b.counters[B.STREAM_QUEUED] + a.b.counters[B.TCP_QUEUED]
              && a.b.counters[B.CONNECTIONS] == |a.g.connects| + |TlsWaiting(a.g)| + |OpenIds(a)|
              && OpenIds(a) <= a.g.live.Keys
              && ((forall id :: id in a.g.live ==> !Closing(a, a.g.live[id])) ==> OpenIds(a) == a.g.live.Keys)
  {
    var a := After(limits, steps, k);
    hide Inv, After, BudgetsRuns.AtRest, B.Inv, TlsWaiting, Closing;
    SlotsCounted(a);
    assert B.Inv(a.b) by { HasBooks(a); }
    BooksBalance(a.b);
  }

  lemma HasBooks(a: Account)
    requires Inv(a)
    ensures B.Inv(a.b)
  {
  }

  lemma OpenGoes(a: Account, section: L.Step, holder: nat)
    requires Shaped(a) && Opens(section) && holder < |a.owner| && a.owner[holder] == OfOp(section.ref)
    ensures Do(a, Life(section, holder)).g == L.Do(a.g, section)
  {
    hide L.Do, B.Do, EndAll;
  }

  lemma FindsOwner(a: Account, g: L.Registry, ref: nat) returns (holder: nat)
    requires Owned(a.g.ops, a.g.ios, a.b.holders, a.owner) && Opened(a.g, g, ref)
    ensures holder < |a.owner| && a.owner[holder] == OfOp(ref)
  {
    hide AllSeated, OneEach;
    holder :| holder < |a.owner| && a.owner[holder] == OfOp(ref);
  }

  lemma Unopened(a: Account, section: L.Step)
    requires Shaped(a) && Opens(section) && L.Do(a.g, section) == a.g
    ensures Do(a, Life(section, 0)) == a
  {
    hide L.Do, B.Do, EndAll;
  }

  /** The permits never hold a transport up: whenever the registry opens one, its connect has what it takes over. */
  lemma OpeningFindsPermits(limits: B.Permits, steps: seq<Step>, k: nat, section: L.Step)
    requires k <= |steps| && Opens(section)
    ensures var a := After(limits, steps, k);
            exists holder: nat :: Do(a, Life(section, holder)).g == L.Do(a.g, section)
  {
    var a := After(limits, steps, k);
    hide After, L.Do, Do, LifecycleProof.Inv, TransportInv, B.Inv, Owned, Opened;
    SectionOpens(a.g, section);
    if L.Do(a.g, section) == a.g {
      Unopened(a, section);
    } else {
      var holder := FindsOwner(a, L.Do(a.g, section), section.ref);
      OpenGoes(a, section, holder);
    }
  }

  // ---- admissions enter and connections close ----

  lemma AcceptDecides(g: L.Registry, section: L.Step)
    requires section.StepAccept? && section.kind != L.Tls(true)
    ensures L.Do(g, section).ops
         == if g.phase.Running? && !section.full then g.ops + [L.NewOp(g.nextId, section.kind, section.callback)] else g.ops
  {
    hide L.Admitted;
    LifecycleRuns.AdmittedOps(g, g.nextId, section.kind, section.callback, g.nextId + 1);
  }

  lemma EnterDecides(a: Account, section: L.Step, i: nat)
    requires Shaped(a) && section.StepAccept? && (section.kind.Tcp? || section.kind == L.Tls(false))
    requires i < |a.owner| && a.owner[i].Nobody? && B.Complete(a.b.holders[i]) && Matches(section.kind, a.b.holders[i].kind)
    ensures var c, entered := Enter(a, section, i), L.Do(a.g, section).ops != a.g.ops;
            && c.g == L.Do(a.g, section) && |c.owner| == |a.owner| && c.b.counters == a.b.counters
            && c.b.holders == a.b.holders[i := a.b.holders[i].(stage := if entered then B.Settled else B.Releasing)]
            && (entered ==> c.owner[i] == OfOp(|a.g.ops|))
  {
    hide L.Do;
  }

  /**
   * An admission that has acquired everything enters exactly if the Engine is running and the command
   * queue has room, and its permits are then those of the new operation; otherwise it gives them back.
   */
  lemma AdmissionTakesPermits(limits: B.Permits, steps: seq<Step>, section: L.Step, i: nat)
    requires section.StepAccept? && (section.kind.Tcp? || section.kind == L.Tls(false))
    requires var a := After(limits, steps, |steps|);
             i < |a.owner| && a.owner[i].Nobody? && B.Complete(a.b.holders[i]) && Matches(section.kind, a.b.holders[i].kind)
    ensures var a := After(limits, steps, |steps|);
            var c := Do(a, Life(section, i));
            && |c.owner| == |a.owner| && c.b.counters == a.b.counters
            && if a.g.phase.Running? && !section.full then
                 && c.g.ops == a.g.ops + [L.NewOp(a.g.nextId, section.kind, section.callback)]
                 && c.owner[i] == OfOp(|a.g.ops|)
                 && c.b.holders == a.b.holders[i := a.b.holders[i].(stage := B.Settled)]
               else c.g.ops == a.g.ops && c.b.holders == a.b.holders[i := a.b.holders[i].(stage := B.Releasing)]
  {
    var a := After(limits, steps, |steps|);
    hide After, Inv, L.Do, B.Do, Enter, Open, Close, EndAll;
    AcceptDecides(a.g, section);
    EnterDecides(a, section, i);
  }

  /** The release of a connection: it ends, gives its three permits back one by one, and leaves the live map. */
  function Closed(a: Account, i: nat, io: nat): (c: Account)
    requires Shaped(a)
    ensures Shaped(c)
  {
    var ended := Do(a, Money(B.End(i)));
    var slot := Do(ended, Money(B.Free(i, B.CONNECTIONS)));
    var queued := Do(slot, Money(B.Free(i, B.QUEUED)));
    var freed := Do(queued, Money(B.Free(i, B.TCP_QUEUED)));
    Do(freed, Life(L.StepReleaseIo(io), i))
  }

  lemma EndsOne(a: Account, i: nat)
    requires Shaped(a) && i < |a.owner| && a.b.holders[i].kind.Connection? && !a.b.holders[i].stage.Acquiring?
    ensures Do(a, Money(B.End(i))) == a.(b := B.SetHolder(a.b, i, a.b.holders[i].(stage := B.Releasing)))
  {
    assert a.b.holders[i].stage.Releasing? ==> a.b.holders[i := a.b.holders[i].(stage := B.Releasing)] == a.b.holders;
  }

  lemma FreesOne(a: Account, i: nat, r: nat)
    requires Shaped(a) && i < |a.owner| && a.b.holders[i].stage.Releasing? && r < B.RESOURCES
    ensures var c, h := Do(a, Money(B.Free(i, r))), a.b.holders[i];
            && c.g == a.g && c.owner == a.owner && c.b.holders[i] == h.(permits := h.permits[r := 0])
            && c.b.counters == a.b.counters[r := a.b.counters[r] - h.permits[r]]
  {
  }

  lemma LeavesMap(a: Account, i: nat, io: nat)
    requires Shaped(a) && i < |a.owner| && a.owner[i] == OfIo(io) && a.b.holders[i].stage.Releasing?
    requires var p := a.b.holders[i].permits; p[B.CONNECTIONS] == p[B.QUEUED] == p[B.TCP_QUEUED] == 0
    ensures Do(a, Life(L.StepReleaseIo(io), i)) == a.(g := L.ReleaseIo(a.g, io))
  {
    hide L.ReleaseIo;
  }

  lemma ClosedBooks(a: Account, i: nat, io: nat)
    requires Shaped(a) && i < |a.owner| && a.owner[i] == OfIo(io)
    requires a.b.holders[i].kind.Connection? && !a.b.holders[i].stage.Acquiring?
    ensures var c := Closed(a, i, io);
            && c.g == L.ReleaseIo(a.g, io) && c.owner == a.owner
            && c.b.counters[B.CONNECTIONS] == a.b.counters[B.CONNECTIONS] - a.b.holders[i].permits[B.CONNECTIONS]
  {
    hide L.ReleaseIo, Do;
    var ended := Do(a, Money(B.End(i)));
    var slot := Do(ended, Money(B.Free(i, B.CONNECTIONS)));
    var queued := Do(slot, Money(B.Free(i, B.QUEUED)));
    EndsOne(a, i);
    FreesOne(ended, i, B.CONNECTIONS);
    FreesOne(slot, i, B.QUEUED);
    FreesOne(queued, i, B.TCP_QUEUED);
    LeavesMap(Do(queued, Money(B.Free(i, B.TCP_QUEUED))), i, io);
  }

  /** Every open connection can close by its own steps: its slot is free again and its live entry is gone. */
  lemma ConnectionCanClose(limits: B.Permits, steps: seq<Step>, io: nat) returns (i: nat)
    requires var a := After(limits, steps, |steps|); io < |a.g.ios| && !a.g.ios[io].released
    ensures var a := After(limits, steps, |steps|);
            var c := Closed(a, i, io);
            && i < |a.b.holders| && a.b.holders[i].kind.Connection?
            && io < |c.g.ios| && c.g.ios[io].released && c.g.live == a.g.live - {a.g.ios[io].id}
            && c.b.counters[B.CONNECTIONS] == a.b.counters[B.CONNECTIONS] - a.b.holders[i].permits[B.CONNECTIONS]
            && (a.b.holders[i].stage.Settled? ==> a.b.holders[i].permits[B.CONNECTIONS] == 1)
  {
    var a := After(limits, steps, |steps|);
    hide After, Closed, L.ReleaseIo, TransportInv, LifecycleProof.Inv, B.Inv;
    i := OwnerOf(a, io);
    ClosedBooks(a, i, io);
    ReleaseKeeps(a.g, io);
    if a.b.holders[i].stage.Settled? { ConnectionHasSlot(a.b, i); }
  }

  lemma OwnerOf(a: Account, io: nat) returns (i: nat)
    requires Owned(a.g.ops, a.g.ios, a.b.holders, a.owner) && io < |a.g.ios| && !a.g.ios[io].released
    ensures i < |a.owner| && |a.owner| == |a.b.holders| && a.owner[i] == OfIo(io)
    ensures a.b.holders[i].kind.Connection? && !a.b.holders[i].stage.Acquiring?
  {
    hide Waits;
    i :| i < |a.owner| && a.owner[i] == OfIo(io);
    assert Seated(a.g.ops, a.g.ios, a.b.holders[i], a.owner[i]);
  }

  lemma ConnectionHasSlot(b: B.Books, i: nat)
    requires B.Inv(b) && i < |b.holders| && b.holders[i].kind.Connection? && b.holders[i].stage.Settled?
    ensures b.holders[i].permits[B.CONNECTIONS] == 1
  {
    hide B.Sum, B.Recipe, B.Gathered;
    assert B.HolderOk(b.holders[i]);
  }
}
