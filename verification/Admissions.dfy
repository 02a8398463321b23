/** What an admission takes from the shared budgets, when it gets it, and that all of it comes back. */
module BudgetsAdmission {
  import opened Bytes
  import opened Budgets
  import opened BudgetsProof
  import opened BudgetsRuns

  // ---- what a kind of operation holds ----

  /** The bytes an operation reserves for its queue windows; TLS takes its own reserve on top. */
  function Window(kind: Kind, bytes: nat): (n: nat) {
    match kind
    case Stream => bytes
    case Connect => bytes
    case TlsConnect => bytes + 256 * 1024
    case Upgrade => 256 * 1024
    case _ => 0
  }

  lemma TwoMore(claims: seq<Claim>, first: bool, a: Claim, second: bool, b: Claim)
    requires ClaimsOk(claims) && a.resource < RESOURCES && b.resource < RESOURCES
    ensures ClaimsOk(claims + When(first, a)) && ClaimsOk(claims + When(first, a) + When(second, b))
    ensures var p := Gathered(claims);
            var q := if first then Take(p, a) else p;
            Gathered(claims + When(first, a)) == q
            && Gathered(claims + When(first, a) + When(second, b)) == if second then Take(q, b) else q
  {
    hide Gathered;
    var more := claims + When(first, a);
    if first { GatheredSnoc(claims, a); } else { assert more == claims; }
    if second { GatheredSnoc(more, b); } else { assert more + When(second, b) == more; }
  }

  /**
   * The permits of a complete admission, resource by resource: HTTP requests count as inflight,
   * connects own a connection slot, whoever resolves a name a place in the resolver, whoever has a
   * callback a place among the callbacks, and every byte window is in the shared budget and in the
   * one of its own.
   */
  lemma RecipeTable(kind: Kind, bytes: nat, hostname: bool, callback: bool)
    requires !kind.Connection? && !kind.Delivered?
    ensures var p := Gathered(Recipe(kind, bytes, hostname, callback));
            && p[INFLIGHT] == Bit(kind.Buffered? || kind.Stream?)
            && p[CONNECTIONS] == Bit(kind.Connect? || kind.TlsConnect?)
            && p[RESOLUTIONS] == Bit(kind.Resolve? || (hostname && (kind.Connect? || kind.TlsConnect?)))
            && p[CALLBACK] == Bit(callback && !kind.Stream?)
            && p[QUEUED] == Window(kind, bytes)
            && p[STREAM_QUEUED] == (if kind.Stream? then Window(kind, bytes) else 0)
            && p[TCP_QUEUED] == (if kind.Stream? then 0 else Window(kind, bytes))
  {
    hide Gathered;
    var taken := Claim(CALLBACK, 1);
    match kind {
      case Buffered => OneClaim(Claim(INFLIGHT, 1), callback);
      case Resolve => OneClaim(Claim(RESOLUTIONS, 1), callback);
      case Stream => ThreeClaims(Claim(INFLIGHT, 1), Claim(STREAM_QUEUED, bytes), Claim(QUEUED, bytes));
      case Connect => ConnectTable(bytes, hostname, callback);
      case TlsConnect => ConnectTable(bytes + TLS_EXTRA_RESERVE, hostname, callback);
      case Upgrade =>
        var a, b := Claim(QUEUED, TLS_EXTRA_RESERVE), Claim(TCP_QUEUED, TLS_EXTRA_RESERVE);
        ThreeClaims(a, b, taken);
        TwoMore([a, b], false, taken, callback, taken);
        assert [a, b] + When(false, taken) == [a, b];
    }
  }

  lemma OneClaim(claim: Claim, callback: bool)
    requires claim.resource < RESOURCES
    ensures ClaimsOk([claim] + When(callback, Claim(CALLBACK, 1)))
    ensures Gathered([claim] + When(callback, Claim(CALLBACK, 1)))
         == if callback then Take(Take(NONE, claim), Claim(CALLBACK, 1)) else Take(NONE, claim)
  {
    hide Gathered;
    ThreeClaims(claim, claim, claim);
    TwoMore([claim], false, claim, callback, Claim(CALLBACK, 1));
    assert [claim] + When(false, claim) == [claim];
  }

  lemma ConnectTable(bytes: nat, hostname: bool, callback: bool)
    ensures var base := [Claim(CONNECTIONS, 1), Claim(QUEUED, bytes), Claim(TCP_QUEUED, bytes)];
            var claims := base + When(hostname, Claim(RESOLUTIONS, 1)) + When(callback, Claim(CALLBACK, 1));
            && ClaimsOk(claims)
            && Gathered(claims) == [0, Bit(callback), 1, Bit(hostname), bytes, 0, bytes]
  {
    hide Gathered;
    var base := [Claim(CONNECTIONS, 1), Claim(QUEUED, bytes), Claim(TCP_QUEUED, bytes)];
    ThreeClaims(base[0], base[1], base[2]);
    TwoMore(base, hostname, Claim(RESOLUTIONS, 1), callback, Claim(CALLBACK, 1));
  }

  // ---- when an admission succeeds ----

  /** The next `n` acquisitions of holder `i`, with nobody else in between. */
  function AcquireAll(b: Books, i: nat, n: nat): (c: Books)
    requires |b.counters| == RESOURCES
    ensures |c.counters| == RESOURCES
    decreases n
  {
    if n == 0 then b else AcquireAll(Do(b, Acquire(i)), i, n - 1)
  }

  lemma {:induction false} GatheredGrows(claims: seq<Claim>, k: nat, r: nat)
    requires ClaimsOk(claims) && k <= |claims| && r < RESOURCES
    ensures Gathered(claims[..k])[r] <= Gathered(claims)[r]
    decreases |claims| - k
  {
    if k == |claims| {
      assert claims[..k] == claims;
    } else {
      GatheredNext(claims, k);
      GatheredGrows(claims, k + 1, r);
    }
  }

  /** What holder `i` still lacks fits beside everything held. */
  predicate Fits(b: Books, i: nat)
    requires |b.counters| == RESOURCES && i < |b.holders| && ClaimsOk(b.holders[i].recipe)
  {
    forall r: nat :: r < RESOURCES ==>
      b.counters[r] + Gathered(b.holders[i].recipe)[r] - b.holders[i].permits[r] <= b.limits[r]
  }

  /** One claim: taken exactly if it fits. */
  lemma ClaimTaken(b: Books, i: nat)
    requires Inv(b) && i < |b.holders| && b.holders[i].stage.Acquiring? && b.holders[i].stage.next < |b.holders[i].recipe|
    ensures HolderOk(b.holders[i])
    ensures var h, c := b.holders[i], Do(b, Acquire(i));
            var claim := h.recipe[h.stage.next];
            && claim.resource < RESOURCES && c.limits == b.limits && |c.holders| == |b.holders|
            && (b.counters[claim.resource] + claim.amount <= b.limits[claim.resource] ==>
                  && c.holders[i] == h.(permits := Take(h.permits, claim), stage := Acquiring(h.stage.next + 1))
                  && c.counters == b.counters[claim.resource := b.counters[claim.resource] + claim.amount])
            && (b.counters[claim.resource] + claim.amount > b.limits[claim.resource] ==> c.holders[i].stage.Releasing?)
  {
    hide Recipe, Gathered, Sum;
  }

  lemma {:induction false} StaysReleasing(b: Books, i: nat, n: nat)
    requires |b.counters| == RESOURCES && i < |b.holders| && b.holders[i].stage.Releasing?
    ensures AcquireAll(b, i, n) == b
  {
    if n > 0 { StaysReleasing(b, i, n - 1); }
  }

  /** A claim that does not fit keeps the whole from fitting. */
  lemma MisfitIsFinal(b: Books, i: nat)
    requires Inv(b) && i < |b.holders| && b.holders[i].stage.Acquiring? && b.holders[i].stage.next < |b.holders[i].recipe|
    requires HolderOk(b.holders[i])
    ensures var claim := b.holders[i].recipe[b.holders[i].stage.next];
            b.counters[claim.resource] + claim.amount > b.limits[claim.resource] ==> !Fits(b, i)
  {
    hide Sum, Recipe, Gathered;
    var h := b.holders[i];
    var claim := h.recipe[h.stage.next];
    GatheredNext(h.recipe, h.stage.next);
    GatheredGrows(h.recipe, h.stage.next + 1, claim.resource);
  }

  lemma NothingLacking(b: Books, i: nat)
    requires Inv(b) && i < |b.holders| && Complete(b.holders[i])
    ensures HolderOk(b.holders[i]) && Fits(b, i) && b.holders[i].permits == Gathered(b.holders[i].recipe)
  {
    hide Sum, Recipe, Gathered;
    assert HolderOk(b.holders[i]);
    assert b.holders[i].recipe[..|b.holders[i].recipe|] == b.holders[i].recipe;
  }

  lemma {:induction false} AcquisitionDecides(b: Books, i: nat, n: nat)
    requires Inv(b) && i < |b.holders| && b.holders[i].stage.Acquiring? && HolderOk(b.holders[i])
    requires b.holders[i].stage.next + n == |b.holders[i].recipe|
    ensures var h, c := b.holders[i], AcquireAll(b, i, n);
            && Inv(c) && |c.holders| == |b.holders| && c.holders[i].recipe == h.recipe && c.holders[i].kind == h.kind
            && (Complete(c.holders[i]) <==> Fits(b, i))
            && (!Fits(b, i) ==> c.holders[i].stage.Releasing?)
            && (Fits(b, i) ==> c.holders[i].permits == Gathered(h.recipe))
            && (Fits(b, i) ==> forall r: nat :: r < RESOURCES ==>
                  c.counters[r] == b.counters[r] + Gathered(h.recipe)[r] - h.permits[r])
    decreases n
  {
    hide Inv, HolderOk, Gathered;
    SevenCounters(b);
    if n == 0 {
      NothingLacking(b, i);
    } else {
      var h, c := b.holders[i], Do(b, Acquire(i));
      ClaimTaken(b, i);
      MisfitIsFinal(b, i);
      StepKeeps(b, Acquire(i));
      AcquireKeepsRest(b, i);
      if c.holders[i].stage.Releasing? {
        StaysReleasing(c, i, n - 1);
      } else {
        IsOk(c, i);
        assert Fits(c, i) <==> Fits(b, i);
        AcquisitionDecides(c, i, n - 1);
      }
    }
  }

  lemma AcquireKeepsRest(b: Books, i: nat)
    requires |b.counters| == RESOURCES && i < |b.holders|
    ensures var c := Do(b, Acquire(i));
            && |c.counters| == RESOURCES && c.holders == b.holders[i := c.holders[i]]
            && c.holders[i].recipe == b.holders[i].recipe && c.holders[i].kind == b.holders[i].kind
  {
    hide Take;
  }

  lemma IsOk(b: Books, i: nat)
    requires Inv(b) && i < |b.holders|
    ensures HolderOk(b.holders[i])
  {
  }

  /** The admission of a new operation, from submission to the last claim. */
  function Admit(b: Books, kind: Kind, bytes: nat, hostname: bool, callback: bool): (c: Books)
    requires |b.counters| == RESOURCES
  {
    AcquireAll(Do(b, Submit(kind, bytes, hostname, callback)), |b.holders|, |Recipe(kind, bytes, hostname, callback)|)
  }

  /** Every budget has room for so much more. */
  predicate Room(b: Books, total: Permits)
    requires |b.counters| == RESOURCES
  {
    forall r: nat :: r < RESOURCES ==> b.counters[r] + total[r] <= b.limits[r]
  }

  lemma NewHolderFits(b: Books, c: Books, h: Holder)
    requires |b.counters| == RESOURCES && c.counters == b.counters && c.limits == b.limits
    requires |c.holders| == |b.holders| + 1 && c.holders[|b.holders|] == h && ClaimsOk(h.recipe) && h.permits == NONE
    ensures Fits(c, |b.holders|) <==> Room(b, Gathered(h.recipe))
  {
    hide Gathered;
  }

  /**
   * An admission that is not interrupted succeeds exactly if everything its kind needs fits beside
   * everything held, budget by budget. Then it holds exactly that, and every counter has grown by as
   * much; otherwise it starts to give back.
   */
  lemma AdmissionDecides(limits: Permits, steps: seq<Step>, kind: Kind, bytes: nat, hostname: bool, callback: bool)
    requires !kind.Connection? && !kind.Delivered?
    ensures var b, total := After(limits, steps, |steps|), Gathered(Recipe(kind, bytes, hostname, callback));
            var i, c := |b.holders|, Admit(b, kind, bytes, hostname, callback);
            && i < |c.holders| && |c.counters| == RESOURCES && c.holders[i].kind == kind
            && (Complete(c.holders[i]) <==> Room(b, total)) && (!Room(b, total) ==> c.holders[i].stage.Releasing?)
            && (Room(b, total) ==> c.holders[i].permits == total
                                   && forall r: nat :: r < RESOURCES ==> c.counters[r] == b.counters[r] + total[r])
  {
    var b := After(limits, steps, |steps|);
    hide After;
    AdmissionFrom(b, kind, bytes, hostname, callback);
  }

  lemma AdmissionFrom(b: Books, kind: Kind, bytes: nat, hostname: bool, callback: bool)
    requires Inv(b) && !kind.Connection? && !kind.Delivered?
    ensures var total := Gathered(Recipe(kind, bytes, hostname, callback));
            var i, c := |b.holders|, Admit(b, kind, bytes, hostname, callback);
            && i < |c.holders| && |c.counters| == RESOURCES && c.holders[i].kind == kind
            && (Complete(c.holders[i]) <==> Room(b, total)) && (!Room(b, total) ==> c.holders[i].stage.Releasing?)
            && (Room(b, total) ==> c.holders[i].permits == total
                                   && forall r: nat :: r < RESOURCES ==> c.counters[r] == b.counters[r] + total[r])
  {
    hide Inv, Recipe, Gathered, HolderOk, Do, Room, Fits;
    SevenCounters(b);
    var submit := Submit(kind, bytes, hostname, callback);
    StepKeeps(b, submit);
    SubmitAdds(b, submit);
    var i, c := |b.holders|, Do(b, submit);
    IsOk(c, i);
    NewHolderFits(b, c, c.holders[i]);
    AcquisitionDecides(c, i, |c.holders[i].recipe|);
  }

  lemma SubmitAdds(b: Books, step: Step)
    requires |b.counters| == RESOURCES && step.Submit? && !step.kind.Connection? && !step.kind.Delivered?
    ensures var c, i := Do(b, step), |b.holders|;
            && c.counters == b.counters && c.limits == b.limits && |c.holders| == i + 1
            && c.holders[i] == Holder(step.kind, Recipe(step.kind, step.bytes, step.hostname, step.callback), NONE, Acquiring(0))
  {
    hide Recipe;
  }

  // ---- everything comes back ----

  /** Whoever holder `i` is, it ends and gives back what it has. */
  ghost function Wound(b: Books, i: nat): (c: Books)
    requires |b.counters| == RESOURCES
    ensures |c.counters| == RESOURCES
  {
    FreeAll(Do(Do(b, Reject(i)), End(i)), i, 0)
  }

  ghost function WoundUp(b: Books, n: nat): (c: Books)
    requires |b.counters| == RESOURCES
    ensures |c.counters| == RESOURCES
  {
    if n == 0 then b else Wound(WoundUp(b, n - 1), n - 1)
  }

  lemma EndReleases(b: Books, i: nat)
    requires |b.counters| == RESOURCES && i < |b.holders|
    ensures var c := Do(Do(b, Reject(i)), End(i));
            && c.holders == b.holders[i := b.holders[i].(stage := Releasing)] && c.counters == b.counters
  {
  }

  lemma WoundIsEmpty(b: Books, i: nat)
    requires Inv(b) && i < |b.holders|
    ensures var c := Wound(b, i); Inv(c) && c.holders == b.holders[i := c.holders[i]] && c.holders[i].permits == NONE
  {
    EndReleases(b, i);
    StepKeeps(b, Reject(i));
    StepKeeps(Do(b, Reject(i)), End(i));
    hide Inv, Do;
    ReleaseCanFinish(Do(Do(b, Reject(i)), End(i)), i, 0);
  }

  lemma {:induction false} WoundUpIsEmpty(b: Books, n: nat)
    requires Inv(b) && n <= |b.holders|
    ensures var c := WoundUp(b, n);
            && Inv(c) && |c.holders| == |b.holders| && forall i: nat :: i < n ==> c.holders[i].permits == NONE
  {
    hide Inv, Wound;
    SevenCounters(b);
    if n > 0 {
      WoundUpIsEmpty(b, n - 1);
      WoundIsEmpty(WoundUp(b, n - 1), n - 1);
    }
  }

  lemma {:induction false} EmptySum(holders: seq<Holder>, r: nat)
    requires r < RESOURCES && forall i: nat :: i < |holders| ==> holders[i].permits == NONE
    ensures Sum(holders, r) == 0
  {
    if holders != [] { EmptySum(holders[1..], r); }
  }

  /** From every reachable state all operations can end, and then every shared counter is zero. */
  lemma AllReturned(limits: Permits, steps: seq<Step>)
    ensures var b := After(limits, steps, |steps|);
            var c := WoundUp(b, |b.holders|);
            |c.counters| == RESOURCES && forall r: nat :: r < RESOURCES ==> c.counters[r] == 0
  {
    var b := After(limits, steps, |steps|);
    hide After, WoundUp, HolderOk;
    WoundUpIsEmpty(b, |b.holders|);
    var c := WoundUp(b, |b.holders|);
    forall r: nat | r < RESOURCES ensures c.counters[r] == 0 { EmptySum(c.holders, r); }
  }

  /** A place in the resolver, among the callbacks or inflight is given back on its own, by an operation that goes on. */
  lemma LoosePermitsGoAlone(b: Books, i: nat, r: nat)
    requires Inv(b) && i < |b.holders| && b.holders[i].stage.Settled?
    requires r == INFLIGHT || r == CALLBACK || r == RESOLUTIONS
    ensures var c := Do(b, Free(i, r));
            && c.holders == b.holders[i := b.holders[i].(permits := b.holders[i].permits[r := 0])]
            && c.counters == b.counters[r := b.counters[r] - b.holders[i].permits[r]]
  {
    hide Sum, HolderOk;
  }

  // ---- permits change hands ----

  /** Resources a live connection owns. */
  predicate OfConnection(r: nat) { r == CONNECTIONS || r == QUEUED || r == TCP_QUEUED }

  /**
   * An established connect leaves slot and byte windows to the connection and keeps the rest, its
   * callback permit above all; nobody else is touched.
   */
  lemma HandOverSplits(b: Books, i: nat)
    requires Inv(b) && i < |b.holders| && b.holders[i].stage.Settled?
    requires b.holders[i].kind.Connect? || b.holders[i].kind.TlsConnect?
    ensures var c, n := Do(b, HandOver(i)), |b.holders|;
            && |c.holders| == n + 1 && c.holders[n].kind.Connection? && c.holders[n].stage.Settled?
            && c.holders[i].stage.Settled? && (forall k: nat :: k < n && k != i ==> c.holders[k] == b.holders[k])
            && (forall r: nat :: r < RESOURCES ==>
                  && c.holders[n].permits[r] == (if OfConnection(r) then b.holders[i].permits[r] else 0)
                  && c.holders[i].permits[r] == (if OfConnection(r) then 0 else b.holders[i].permits[r]))
  {
    hide Sum, Recipe, Gathered;
  }

  /** A completed upgrade leaves its reserve to the connection it upgrades. */
  lemma AttachJoins(b: Books, i: nat, connection: nat)
    requires Inv(b) && i < |b.holders| && connection < |b.holders| && i != connection
    requires Complete(b.holders[i]) && b.holders[i].kind.Upgrade?
    requires b.holders[connection].kind.Connection? && b.holders[connection].stage.Settled?
    ensures var c := Do(b, Attach(i, connection));
            && |c.holders| == |b.holders| && c.holders[i].stage.Settled? && c.holders[connection].stage.Settled?
            && (forall k: nat :: k < |b.holders| && k != i && k != connection ==> c.holders[k] == b.holders[k])
            && (forall r: nat :: r < RESOURCES ==>
                  && c.holders[connection].permits[r]
                     == b.holders[connection].permits[r] + (if OfConnection(r) then b.holders[i].permits[r] else 0)
                  && c.holders[i].permits[r] == (if OfConnection(r) then 0 else b.holders[i].permits[r]))
  {
    hide Sum, Recipe, Gathered;
  }
}
