/**
 * The shared admission budgets of src/registry.rs. Every counter is an atomic; an operation acquires
 * its permits one at a time, hands some of them to the connection it becomes, and gives each back
 * by its own atomic subtraction, so any number of admissions, rejections and releases interleave.
 */
module Budgets {

  const INFLIGHT: nat := 0
  const CALLBACK: nat := 1
  const CONNECTIONS: nat := 2
  const RESOLUTIONS: nat := 3
  const QUEUED: nat := 4
  const STREAM_QUEUED: nat := 5
  const TCP_QUEUED: nat := 6
  const RESOURCES: nat := 7

  const TLS_EXTRA_RESERVE: nat := 256 * 1024

  /** `Delivered` is a connect whose transport has become a connection of its own. */
  datatype Kind = Buffered | Resolve | Stream | Connect | TlsConnect | Upgrade | Connection | Delivered

  /** One acquisition: so many units of a resource. */
  datatype Claim = Claim(resource: nat, amount: nat)

  function When(condition: bool, claim: Claim): (claims: seq<Claim>) { if condition then [claim] else [] }

  /** The permits an admission takes, in order. `bytes` is the sum of its two queue windows. */
  function Recipe(kind: Kind, bytes: nat, hostname: bool, callback: bool): (claims: seq<Claim>)
    ensures forall i :: 0 <= i < |claims| ==> claims[i].resource < RESOURCES
  {
    match kind
    case Buffered => [Claim(INFLIGHT, 1)] + When(callback, Claim(CALLBACK, 1))
    case Resolve => [Claim(RESOLUTIONS, 1)] + When(callback, Claim(CALLBACK, 1))
    case Stream => [Claim(INFLIGHT, 1), Claim(STREAM_QUEUED, bytes), Claim(QUEUED, bytes)]
    case Connect =>
      [Claim(CONNECTIONS, 1), Claim(QUEUED, bytes), Claim(TCP_QUEUED, bytes)]
      + When(hostname, Claim(RESOLUTIONS, 1)) + When(callback, Claim(CALLBACK, 1))
    case TlsConnect =>
      [Claim(CONNECTIONS, 1), Claim(QUEUED, bytes + TLS_EXTRA_RESERVE), Claim(TCP_QUEUED, bytes + TLS_EXTRA_RESERVE)]
      + When(hostname, Claim(RESOLUTIONS, 1)) + When(callback, Claim(CALLBACK, 1))
    case Upgrade =>
      [Claim(QUEUED, TLS_EXTRA_RESERVE), Claim(TCP_QUEUED, TLS_EXTRA_RESERVE)] + When(callback, Claim(CALLBACK, 1))
    case Connection => []
    case Delivered => []
  }

  type Permits = p: seq<nat> | |p| == RESOURCES witness [0, 0, 0, 0, 0, 0, 0]

  const NONE: Permits := [0, 0, 0, 0, 0, 0, 0]

  function Take(p: Permits, claim: Claim): (r: Permits)
    requires claim.resource < RESOURCES
  {
    p[claim.resource := p[claim.resource] + claim.amount]
  }

  /** What the claims amount to. */
  function Gathered(claims: seq<Claim>): (p: Permits)
    requires forall i :: 0 <= i < |claims| ==> claims[i].resource < RESOURCES
  {
    if claims == [] then NONE else Take(Gathered(claims[..|claims| - 1]), claims[|claims| - 1])
  }

  datatype Stage = Acquiring(next: nat) | Settled | Releasing

  datatype Holder = Holder(kind: Kind, recipe: seq<Claim>, permits: Permits, stage: Stage)

  datatype Books = Books(limits: Permits, counters: seq<int>, holders: seq<Holder>)

  datatype Step =
    | Submit(kind: Kind, bytes: nat, hostname: bool, callback: bool)
    | Acquire(i: nat)
    | Accept(i: nat) | Reject(i: nat)
    | Attach(i: nat, connection: nat)
    | HandOver(i: nat)
    | End(i: nat)
    | Free(i: nat, resource: nat)

  function SetHolder(b: Books, i: nat, h: Holder): (r: Books)
    requires i < |b.holders|
  {
    b.(holders := b.holders[i := h])
  }

  /** One `try_acquire`: the counter moves only within its limit, otherwise everything taken so far is given back. */
  function AcquireStep(b: Books, i: nat): (r: Books)
    requires i < |b.holders| && |b.counters| == RESOURCES
  {
    var h := b.holders[i];
    if !h.stage.Acquiring? || h.stage.next >= |h.recipe| || h.recipe[h.stage.next].resource >= RESOURCES then b
    else
      var claim := h.recipe[h.stage.next];
      if b.counters[claim.resource] + claim.amount <= b.limits[claim.resource] then
        SetHolder(b, i, h.(permits := Take(h.permits, claim), stage := Acquiring(h.stage.next + 1)))
        .(counters := b.counters[claim.resource := b.counters[claim.resource] + claim.amount])
      else SetHolder(b, i, h.(stage := Releasing))
  }

  predicate Complete(h: Holder) { h.stage.Acquiring? && h.stage.next == |h.recipe| }

  /** The permits a live connection keeps. */
  function Carried(p: Permits): (r: Permits) {
    NONE[CONNECTIONS := p[CONNECTIONS]][QUEUED := p[QUEUED]][TCP_QUEUED := p[TCP_QUEUED]]
  }

  function Kept(p: Permits): (r: Permits) { p[CONNECTIONS := 0][QUEUED := 0][TCP_QUEUED := 0] }

  function Joined(p: Permits, q: Permits): (r: Permits) {
    seq(RESOURCES, r requires 0 <= r < RESOURCES => p[r] + q[r])
  }

  /** The connect becomes a live connection, which takes over the permits it needs. */
  function HandOverStep(b: Books, i: nat): (r: Books)
    requires i < |b.holders|
  {
    var h := b.holders[i];
    if h.stage.Settled? && (h.kind.Connect? || h.kind.TlsConnect?) then
      var left := SetHolder(b, i, h.(kind := Delivered, permits := Kept(h.permits)));
      left.(holders := left.holders + [Holder(Connection, [], Carried(h.permits), Settled)])
    else b
  }

  /** An upgrade gives its reserve to the connection it upgrades. */
  function AttachStep(b: Books, i: nat, connection: nat): (r: Books)
    requires i < |b.holders| && connection < |b.holders|
  {
    var h, c := b.holders[i], b.holders[connection];
    if i != connection && Complete(h) && h.kind.Upgrade? && c.kind.Connection? && c.stage.Settled? then
      SetHolder(SetHolder(b, i, h.(permits := Kept(h.permits), stage := Settled)),
                connection, c.(permits := Joined(c.permits, Carried(h.permits))))
    else b
  }

  /** Resources that do not take part in the byte and connection balance. */
  predicate Loose(resource: nat) { resource == INFLIGHT || resource == CALLBACK || resource == RESOLUTIONS }

  function FreeStep(b: Books, i: nat, resource: nat): (r: Books)
    requires i < |b.holders| && |b.counters| == RESOURCES
  {
    var h := b.holders[i];
    if resource < RESOURCES && (h.stage.Releasing? || (h.stage.Settled? && Loose(resource))) then
      SetHolder(b, i, h.(permits := h.permits[resource := 0]))
      .(counters := b.counters[resource := b.counters[resource] - h.permits[resource]])
    else b
  }

  function Do(b: Books, step: Step): (r: Books)
    requires |b.counters| == RESOURCES
  {
    match step
    case Submit(kind, bytes, hostname, callback) =>
      b.(holders := b.holders + [Holder(kind, Recipe(kind, bytes, hostname, callback), NONE,
                                        if kind.Connection? || kind.Delivered? then Releasing else Acquiring(0))])
    case Acquire(i) => if i < |b.holders| then AcquireStep(b, i) else b
    case Accept(i) =>
      if i < |b.holders| && Complete(b.holders[i]) && !b.holders[i].kind.Upgrade?
      then SetHolder(b, i, b.holders[i].(stage := Settled)) else b
    case Reject(i) =>
      if i < |b.holders| && b.holders[i].stage.Acquiring?
      then SetHolder(b, i, b.holders[i].(stage := Releasing)) else b
    case Attach(i, connection) => if i < |b.holders| && connection < |b.holders| then AttachStep(b, i, connection) else b
    case HandOver(i) => if i < |b.holders| then HandOverStep(b, i) else b
    case End(i) =>
      if i < |b.holders| && b.holders[i].stage.Settled? then SetHolder(b, i, b.holders[i].(stage := Releasing)) else b
    case Free(i, resource) => if i < |b.holders| then FreeStep(b, i, resource) else b
  }

  // ---- conservation ----

  function Sum(holders: seq<Holder>, r: nat): (n: nat)
    requires r < RESOURCES
  {
    if holders == [] then 0 else holders[0].permits[r] + Sum(holders[1..], r)
  }

  lemma {:induction false} SumUpdate(holders: seq<Holder>, i: nat, h: Holder, r: nat)
    requires r < RESOURCES && i < |holders|
    ensures Sum(holders[i := h], r) == Sum(holders, r) - holders[i].permits[r] + h.permits[r]
    ensures holders[i].permits[r] <= Sum(holders, r)
  {
    if i == 0 {
      assert holders[i := h][1..] == holders[1..];
    } else {
      assert holders[i := h][1..] == holders[1..][i - 1 := h];
      SumUpdate(holders[1..], i - 1, h, r);
    }
  }

  lemma {:induction false} SumAppend(holders: seq<Holder>, h: Holder, r: nat)
    requires r < RESOURCES
    ensures Sum(holders + [h], r) == Sum(holders, r) + h.permits[r]
  {
    if holders == [] {
      assert holders + [h] == [h] && [h][1..] == [];
    } else {
      assert (holders + [h])[1..] == holders[1..] + [h];
      SumAppend(holders[1..], h, r);
    }
  }

  predicate HoldsSlot(kind: Kind) { kind.Connect? || kind.TlsConnect? || kind.Connection? }

  /** The byte windows are counted twice, in the shared budget and in the one of their own. */
  ghost predicate Balanced(h: Holder) {
    && h.permits[QUEUED] == h.permits[STREAM_QUEUED] + h.permits[TCP_QUEUED]
    && (!h.kind.Stream? ==> h.permits[STREAM_QUEUED] == 0)
    && h.permits[CONNECTIONS] == (if HoldsSlot(h.kind) then 1 else 0)
  }

  ghost predicate ClaimsOk(recipe: seq<Claim>) { forall i :: 0 <= i < |recipe| ==> recipe[i].resource < RESOURCES }

  /** Between admission and release an operation is balanced; while acquiring it has a prefix of its recipe. */
  ghost predicate HolderOk(h: Holder) {
    && ClaimsOk(h.recipe)
    && (h.stage.Settled? ==> Balanced(h))
    && (h.stage.Acquiring? ==>
          && h.stage.next <= |h.recipe| && h.permits == Gathered(h.recipe[..h.stage.next]) && !h.kind.Connection? && !h.kind.Delivered?
          && exists bytes, hostname, callback :: h.recipe == Recipe(h.kind, bytes, hostname, callback))
  }

  ghost predicate Inv(b: Books) {
    && |b.counters| == RESOURCES
    && (forall r: nat :: r < RESOURCES ==> b.counters[r] == Sum(b.holders, r) <= b.limits[r])
    && (forall i: nat :: i < |b.holders| ==> HolderOk(b.holders[i]))
  }

  // ---- a complete recipe is balanced ----

  lemma GatheredNext(claims: seq<Claim>, k: nat)
    requires ClaimsOk(claims) && k < |claims|
    ensures Gathered(claims[..k + 1]) == Take(Gathered(claims[..k]), claims[k])
  {
    assert claims[..k + 1][..k] == claims[..k];
  }

  lemma GatheredSnoc(claims: seq<Claim>, claim: Claim)
    requires ClaimsOk(claims) && claim.resource < RESOURCES
    ensures ClaimsOk(claims + [claim]) && Gathered(claims + [claim]) == Take(Gathered(claims), claim)
  {
    assert (claims + [claim])[..|claims|] == claims;
  }

  /** The tail of a recipe does not touch bytes or connections. */
  lemma LooseTail(claims: seq<Claim>, condition: bool, claim: Claim)
    requires ClaimsOk(claims) && Loose(claim.resource)
    ensures ClaimsOk(claims + When(condition, claim))
    ensures var p, q := Gathered(claims), Gathered(claims + When(condition, claim));
            q[QUEUED] == p[QUEUED] && q[STREAM_QUEUED] == p[STREAM_QUEUED] && q[TCP_QUEUED] == p[TCP_QUEUED]
            && q[CONNECTIONS] == p[CONNECTIONS]
  {
    GatheredSnoc(claims, claim);
    assert claims + [] == claims;
  }

  lemma ThreeClaims(a: Claim, b: Claim, c: Claim)
    requires a.resource < RESOURCES && b.resource < RESOURCES && c.resource < RESOURCES
    ensures Gathered([a]) == Take(NONE, a)
    ensures Gathered([a, b]) == Take(Take(NONE, a), b)
    ensures Gathered([a, b, c]) == Take(Take(Take(NONE, a), b), c)
  {
    GatheredSnoc([], a);
    GatheredSnoc([a], b);
    GatheredSnoc([a, b], c);
    assert [] + [a] == [a] && [a] + [b] == [a, b] && [a, b] + [c] == [a, b, c];
  }

  lemma RecipeBalances(kind: Kind, bytes: nat, hostname: bool, callback: bool)
    requires !kind.Connection? && !kind.Delivered?
    ensures var p := Gathered(Recipe(kind, bytes, hostname, callback));
            && p[QUEUED] == p[STREAM_QUEUED] + p[TCP_QUEUED]
            && p[CONNECTIONS] == (if HoldsSlot(kind) then 1 else 0)
            && (!kind.Stream? ==> p[STREAM_QUEUED] == 0)
  {
    hide Gathered;
    match kind {
      case Buffered =>
        ThreeClaims(Claim(INFLIGHT, 1), Claim(INFLIGHT, 1), Claim(INFLIGHT, 1));
        LooseTail([Claim(INFLIGHT, 1)], callback, Claim(CALLBACK, 1));
      case Resolve =>
        ThreeClaims(Claim(RESOLUTIONS, 1), Claim(INFLIGHT, 1), Claim(INFLIGHT, 1));
        LooseTail([Claim(RESOLUTIONS, 1)], callback, Claim(CALLBACK, 1));
      case Stream => ThreeClaims(Claim(INFLIGHT, 1), Claim(STREAM_QUEUED, bytes), Claim(QUEUED, bytes));
      case Connect => ConnectBalances(bytes, hostname, callback);
      case TlsConnect => ConnectBalances(bytes + TLS_EXTRA_RESERVE, hostname, callback);
      case Upgrade =>
        ThreeClaims(Claim(QUEUED, TLS_EXTRA_RESERVE), Claim(TCP_QUEUED, TLS_EXTRA_RESERVE), Claim(INFLIGHT, 1));
        LooseTail([Claim(QUEUED, TLS_EXTRA_RESERVE), Claim(TCP_QUEUED, TLS_EXTRA_RESERVE)], callback, Claim(CALLBACK, 1));
    }
  }

  lemma ConnectBalances(bytes: nat, hostname: bool, callback: bool)
    ensures var base := [Claim(CONNECTIONS, 1), Claim(QUEUED, bytes), Claim(TCP_QUEUED, bytes)];
            var claims := base + When(hostname, Claim(RESOLUTIONS, 1)) + When(callback, Claim(CALLBACK, 1));
            && ClaimsOk(claims)
            && var p := Gathered(claims);
               p[STREAM_QUEUED] == 0 && p[QUEUED] == p[TCP_QUEUED] && p[CONNECTIONS] == 1
  {
    hide Gathered;
    var base := [Claim(CONNECTIONS, 1), Claim(QUEUED, bytes), Claim(TCP_QUEUED, bytes)];
    ThreeClaims(base[0], base[1], base[2]);
    LooseTail(base, hostname, Claim(RESOLUTIONS, 1));
    LooseTail(base + When(hostname, Claim(RESOLUTIONS, 1)), callback, Claim(CALLBACK, 1));
  }

  lemma CompleteIsBalanced(h: Holder)
    requires HolderOk(h) && Complete(h)
    ensures h.permits[QUEUED] == h.permits[STREAM_QUEUED] + h.permits[TCP_QUEUED]
    ensures h.permits[CONNECTIONS] == (if HoldsSlot(h.kind) then 1 else 0)
    ensures !h.kind.Stream? ==> h.permits[STREAM_QUEUED] == 0
  {
    hide Gathered, Recipe;
    var bytes, hostname, callback :| h.recipe == Recipe(h.kind, bytes, hostname, callback);
    assert h.recipe[..|h.recipe|] == h.recipe;
    RecipeBalances(h.kind, bytes, hostname, callback);
  }
}
