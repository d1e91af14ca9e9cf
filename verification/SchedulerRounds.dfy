/** The dispatcher keeping up: a full pass after every interrupt. */
module SchedulerRounds {

  import opened Wrappers
  import opened Scheduler

  predicate Uninterrupted(cs: seq<Call>) {
    forall k :: 0 <= k < |cs| ==> !cs[k].Interrupt?
  }

  // In turn `i` the task is done before the next interrupt, and does not refill its own slot.
  predicate PoliteTurn(t: Table, i: nat, behaviour: nat -> seq<Call>)
    requires i < |t.slots|
  {
    t.slots[i].task.Some? ==>
      var cs := behaviour(t.slots[i].task.value);
      var after := CalledAll(t, cs).slots[i];
      Uninterrupted(cs) && (after == t.slots[i] || after.task == None)
  }

  ghost predicate Polite(t: Table, n: nat, behaviour: nat -> seq<Call>)
    requires n <= |t.slots|
  {
    forall i :: 0 <= i < n ==> PoliteTurn(DispatchedTo(t, i, behaviour), i, behaviour)
  }

  // Calls without interrupts never raise a flag.
  lemma {:induction false} CallsRaiseNothing(t: Table, cs: seq<Call>, j: nat)
    requires Uninterrupted(cs) && j < |t.slots|
    ensures CalledAll(t, cs).slots[j].runMe == t.slots[j].runMe || CalledAll(t, cs).slots[j].runMe == 0
  {
    if cs != [] {
      assert Uninterrupted(cs[..|cs| - 1]);
      CallsRaiseNothing(t, cs[..|cs| - 1], j);
    }
  }

  lemma TurnLowers(t: Table, i: nat, behaviour: nat -> seq<Call>, j: nat)
    requires TableOk(t) && i < |t.slots| && j < |t.slots| && PoliteTurn(t, i, behaviour)
    requires t.slots[i].runMe <= 1
    ensures var t' := DispatchedSlot(t, i, behaviour);
            t'.slots[i].runMe == 0 && (t'.slots[j].runMe == t.slots[j].runMe || t'.slots[j].runMe == 0)
  {
    if t.slots[i].runMe > 0 {
      var cs := behaviour(t.slots[i].task.value);
      CallsRaiseNothing(t, cs, j);
      CallsRaiseNothing(t, cs, i);
      CallsKeepSafe(t, cs);
      assert SlotOk(CalledAll(t, cs).slots[i]);
    }
  }

  // The dispatcher has been past the first `n` slots.
  predicate LowTo(t: Table, n: nat) {
    forall j :: 0 <= j < |t.slots| ==> t.slots[j].runMe <= (if j < n then 0 else 1)
  }

  lemma {:induction false} PassLowers(t: Table, n: nat, behaviour: nat -> seq<Call>)
    requires TableOk(t) && n <= |t.slots| && Polite(t, n, behaviour)
    requires LowTo(t, 0)
    ensures LowTo(DispatchedTo(t, n, behaviour), n)
  {
    if n > 0 {
      PassLowers(t, n - 1, behaviour);
      DispatchKeepsSafe(t, n - 1, behaviour);
      var before := DispatchedTo(t, n - 1, behaviour);
      assert PoliteTurn(before, n - 1, behaviour);
      var after := DispatchedSlot(before, n - 1, behaviour);
      forall j | 0 <= j < |t.slots| ensures after.slots[j].runMe <= (if j < n then 0 else 1) {
        assert before.slots[j].runMe <= (if j < n - 1 then 0 else 1);
        TurnLowers(before, n - 1, behaviour, j);
      }
    }
  }

  /** One interrupt followed by a full pass of the dispatcher, `k` times over. */
  function Rounds(t: Table, k: nat, behaviour: nat -> seq<Call>): (t': Table)
    ensures |t'.slots| == |t.slots|
  {
    if k == 0 then t
    else
      var ticked := Called(Rounds(t, k - 1, behaviour), Interrupt);
      DispatchedTo(ticked, |ticked.slots|, behaviour)
  }

  ghost predicate PoliteRounds(t: Table, k: nat, behaviour: nat -> seq<Call>) {
    forall r :: 0 <= r < k ==>
      var ticked := Called(Rounds(t, r, behaviour), Interrupt);
      Polite(ticked, |t.slots|, behaviour)
  }

  /** If a full pass follows every interrupt, and no task overruns or refills its own slot, then no flag
      ever exceeds one, and every pass leaves nothing due. */
  lemma {:induction false} NoBacklog(t: Table, k: nat, behaviour: nat -> seq<Call>)
    requires TableOk(t) && PoliteRounds(t, k, behaviour)
    requires forall j :: 0 <= j < |t.slots| ==> t.slots[j].runMe == 0
    ensures TableOk(Rounds(t, k, behaviour))
    ensures forall j :: 0 <= j < |t.slots| ==>
              Rounds(t, k, behaviour).slots[j].runMe == 0
              && Called(Rounds(t, k, behaviour), Interrupt).slots[j].runMe <= 1
  {
    if k > 0 {
      NoBacklog(t, k - 1, behaviour);
      var ticked := Called(Rounds(t, k - 1, behaviour), Interrupt);
      CallKeepsSafe(Rounds(t, k - 1, behaviour), Interrupt);
      PassLowers(ticked, |t.slots|, behaviour);
      DispatchKeepsSafe(ticked, |t.slots|, behaviour);
      var done := Rounds(t, k, behaviour);
      assert done == DispatchedTo(ticked, |t.slots|, behaviour);
      forall j | 0 <= j < |t.slots| ensures done.slots[j].runMe == 0 && Tick(done.slots[j]).runMe <= 1 {
        assert done.slots[j].runMe <= 0;
      }
    }
  }
}
