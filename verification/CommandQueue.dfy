/** The bounded command queue of src/registry.rs and its one owner, who sleeps on a generation counter. */
module OwnerWakeup {
  import opened Bytes

  /** What other threads do while the owner does not hold the lock. */
  datatype Action = Push(item: nat) | Wake

  function Wakes(actions: seq<Action>): (n: nat) {
    if actions == [] then 0 else Wakes(actions[..|actions| - 1]) + (if actions[|actions| - 1].Wake? then 1 else 0)
  }

  /** One stretch before a step of the owner, and whether a transport then wants polling. */
  datatype Turn = Turn(actions: seq<Action>, polls: bool)

  /** For how many turns nothing has happened. */
  function QuietFor(turns: seq<Turn>): (n: nat) {
    if turns == [] || turns[|turns| - 1] != Turn([], false) then 0 else QuietFor(turns[..|turns| - 1]) + 1
  }

  /** Steps left to an undisturbed owner: perhaps a drive, a look, another drive, and the look that lets it sleep. */
  function StepsToSleep(driving: bool, seenAll: bool): (n: nat) {
    if seenAll then if driving then 2 else 1 else if driving then 4 else 3
  }

  class CommandQueue {
    const capacity: nat
    var submissions: seq<nat>
    var generation: nat

    constructor (capacity: nat)
      ensures submissions == [] && generation == 0 && this.capacity == capacity
    {
      this.capacity, submissions, generation := capacity, [], 0;
    }

    method TryPush(item: nat) returns (ok: bool)
      modifies this
      ensures ok <==> |old(submissions)| < capacity
      ensures ok ==> submissions == old(submissions) + [item] && generation == old(generation) + 1
      ensures !ok ==> submissions == old(submissions) && generation == old(generation)
    {
      if |submissions| >= capacity {
        return false;
      }
      submissions := submissions + [item];
      generation := generation + 1;
      return true;
    }

    method Drain() returns (drained: seq<nat>)
      modifies this`submissions
      ensures drained == old(submissions) && submissions == []
    {
      drained := submissions;
      submissions := [];
    }

    method Signal()
      modifies this`generation
      ensures generation == old(generation) + 1
    {
      generation := generation + 1;
    }

    /** The condition of the condition-variable loop: a push, a wake or a stop since `seen` was sampled ends it. */
    predicate Sleeps(seen: nat, stopping: bool)
      reads this
    {
      submissions == [] && generation == seen && !stopping
    }

    /** Everything other threads do in one stretch; `pushed` is what they got in. */
    method Others(actions: seq<Action>) returns (pushed: seq<nat>)
      requires |submissions| <= capacity
      modifies this
      ensures submissions == old(submissions) + pushed && |submissions| <= capacity
      ensures generation == old(generation) + |pushed| + Wakes(actions)
      ensures |pushed| <= |actions| && forall item :: item in pushed ==> Push(item) in actions
    {
      pushed := [];
      for i := 0 to |actions|
        invariant submissions == old(submissions) + pushed && |submissions| <= capacity
        invariant generation == old(generation) + |pushed| + Wakes(actions[..i])
        invariant |pushed| <= i && forall item :: item in pushed ==> Push(item) in actions
      {
        assert actions[..i + 1][..i] == actions[..i];
        if actions[i].Push? {
          var ok := TryPush(actions[i].item);
          if ok { pushed := pushed + [actions[i].item]; }
        } else {
          Signal();
        }
      }
      assert actions[..|actions|] == actions;
    }

    /**
     * The manual owner samples the generation, drives, and then waits. The lock is free between
     * sample and drain, during the drive and before the wait; a push or a wake in any of the three
     * stretches keeps the wait from sleeping, even if the drain has already taken what was pushed.
     */
    method ManualTurn(between: seq<Action>, during: seq<Action>, after: seq<Action>)
      returns (pushed: seq<nat>, drained: seq<nat>, sleeps: bool)
      requires |submissions| <= capacity
      modifies this
      ensures sleeps <==> pushed == [] && Wakes(between) == Wakes(during) == Wakes(after) == 0
      ensures old(submissions) + pushed == drained + submissions
      ensures sleeps ==> submissions == [] && drained == old(submissions)
    {
      var seen := generation;
      var early := Others(between);
      drained := Drain();
      var meanwhile := Others(during);
      var late := Others(after);
      pushed := early + meanwhile + late;
      sleeps := Sleeps(seen, false);
    }
  }

  /**
   * The spawned owner: it waits, unless a transport wants polling, and then drives, forever. `turns`
   * is what the others do before each of its steps. `wakes` counts the wake-ups so far and `answered`
   * those that came before the latest drive began. Submissions are taken in order, and an owner that
   * is asleep has drained everything that was pushed and driven after every wake-up. It gets there: when
   * nothing happens for four of its steps, it has driven for what came before and is asleep.
   */
  method Spawned(capacity: nat, turns: seq<Turn>)
    returns (pushed: seq<nat>, drained: seq<nat>, wakes: nat, answered: nat, asleep: bool)
    ensures drained <= pushed && |pushed| - |drained| <= capacity && answered <= wakes
    ensures asleep ==> drained == pushed && answered == wakes
    ensures QuietFor(turns) >= 4 ==> asleep
  {
    var queue := new CommandQueue(capacity);
    pushed, drained, wakes, answered, asleep := [], [], 0, 0, true;
    var seen: nat, driving := 0, false;
    ghost var sampled: nat := 0;  // the wake-ups that had come when `seen` was read
    for k := 0 to |turns|
      invariant fresh(queue) && queue.capacity == capacity && |queue.submissions| <= capacity
      invariant drained + queue.submissions == pushed
      invariant sampled <= wakes && answered <= wakes && (driving || sampled <= answered)
      invariant queue.generation >= seen + (wakes - sampled)
      invariant asleep ==> !driving && queue.Sleeps(seen, false)
      invariant !driving && queue.generation == seen ==> queue.submissions == []
      invariant asleep || StepsToSleep(driving, queue.generation == seen) <= 4 - QuietFor(turns[..k])
    {
      assert turns[..k + 1][..k] == turns[..k];
      var more := queue.Others(turns[k].actions);
      pushed, wakes := pushed + more, wakes + Wakes(turns[k].actions);
      if driving {
        var batch := queue.Drain();
        drained, answered := drained + batch, wakes;
        driving, asleep := false, false;
      } else if turns[k].polls {
        driving, asleep := true, false;
      } else {
        asleep := queue.Sleeps(seen, false);
        if !asleep {
          seen, driving := queue.generation, true;
          sampled := wakes;
        }
      }
    }
    assert turns[..|turns|] == turns;
  }
}
