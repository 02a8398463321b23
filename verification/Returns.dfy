/** Every buffer can end by its own steps, whatever it is in the middle of, and then the budget is whole again. */
module BodyReturns {
  import opened Bytes
  import opened BodyLedger

  /** The next step of the owner of buffer `i` on the way to dropping it. */
  function Onward(l: Ledger, i: nat): (step: Step)
    requires i < |l.buffers|
  {
    match l.buffers[i].stage
    case Loaded(_, _, _) => Exchange(i, false)
    case Won(_, _, _) => Record(i)
    case Charged(_) => Allocate(i)
    case Allocated(_) => FreeOld(i)
    case Freed(_) => Install(i)
    case Idle => Drop(i)
    case _ => Refund(i)
  }

  /** Steps left at most; an exchange that meets interference is tried again. */
  function Ahead(l: Ledger, i: nat): (n: nat)
    requires i < |l.buffers|
  {
    match l.buffers[i].stage
    case Gone => 0
    case Refunded => 1
    case Dropping => 2
    case Idle => 3
    case Replacing => 4
    case Freed(_) => 4
    case Allocated(_) => 5
    case Charged(_) => 6
    case Won(_, _, _) => 7
    case Loaded(_, seen, _) => if seen == l.used then 8 else 9
  }

  lemma OnwardGoes(l: Ledger, i: nat)
    requires i < |l.buffers| && BufferOk(l.buffers[i]) && !l.buffers[i].stage.Gone?
    ensures var m := Do(l, Onward(l, i));
            i < |m.buffers| && m.buffers == l.buffers[i := m.buffers[i]] && Ahead(m, i) < Ahead(l, i)
  {
  }

  ghost function Ended(l: Ledger, i: nat): (m: Ledger)
    requires Inv(l) && i < |l.buffers|
    ensures Inv(m) && i < |m.buffers| && m.buffers == l.buffers[i := m.buffers[i]] && m.buffers[i].stage.Gone?
    decreases Ahead(l, i)
  {
    if l.buffers[i].stage.Gone? then l
    else
      OnwardGoes(l, i);
      StepKeeps(l, Onward(l, i));
      Ended(Do(l, Onward(l, i)), i)
  }

  ghost function AllEnded(l: Ledger, n: nat): (m: Ledger)
    requires Inv(l) && n <= |l.buffers|
    ensures Inv(m) && |m.buffers| == |l.buffers| && forall i: nat :: i < n ==> m.buffers[i].stage.Gone?
  {
    if n == 0 then l else Ended(AllEnded(l, n - 1), n - 1)
  }

  lemma {:induction false} NothingHeld(bs: seq<Buffer>)
    requires forall i: nat :: i < |bs| ==> BufferOk(bs[i]) && bs[i].stage.Gone?
    ensures SumHeld(bs) == 0 && SumStorage(bs) == 0
  {
    if bs != [] {
      assert BufferOk(bs[0]);
      NothingHeld(bs[1..]);
    }
  }

  /** From every reachable ledger all buffers can end, each by its own steps, and then nothing is charged and nothing stored. */
  lemma BudgetComesBack(limit: Option<nat>, steps: seq<Step>)
    ensures Inv(After(limit, steps, |steps|))
    ensures var l := After(limit, steps, |steps|);
            var m := AllEnded(l, |l.buffers|);
            m.used == 0 && SumStorage(m.buffers) == 0
  {
    RunKeeps(limit, steps, |steps|);
    var l := After(limit, steps, |steps|);
    hide After, AllEnded;
    NothingHeld(AllEnded(l, |l.buffers|).buffers);
  }
}
