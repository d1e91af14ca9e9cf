/**
 A pass of the dispatcher, taken whole, is a run of the machine that cuts it: what the tasks do stands, step by
 step, between the start of each and the decrement of its flag.
 */
module SchedulerPass {

  import opened Wrappers
  import opened Scheduler
  import opened SchedulerRuns

  // ---- the steps of a pass ----

  function CallLabels(t: Table, c: Call): seq<Label> {
    match c
    case Interrupt => [Interrupted]
    case Add(f, delay, period) =>
      [Adds(f, delay, period)] + (if Gap(t.slots) < |t.slots| then [Assign, Assign, Assign] else [])
    case Delete(i) => if i < |t.slots| then [Deletes(i)] else []
  }

  function CallsLabels(t: Table, cs: seq<Call>): seq<Label> {
    if cs == [] then []
    else
      var last := |cs| - 1;
      CallsLabels(t, cs[..last]) + CallLabels(CalledAll(t, cs[..last]), cs[last])
  }

  predicate Due(s: Slot) { s.runMe > 0 && s.task.Some? }

  /** A turn of slot `i`: nothing, or its task from start to end with all that it does, the decrement, and the
      test for a one-shot task. */
  function TurnLabels(t: Table, i: nat, behaviour: nat -> seq<Call>): seq<Label>
    requires i < |t.slots|
  {
    if !Due(t.slots[i]) then []
    else [Begin(i)] + CallsLabels(t, behaviour(t.slots[i].task.value)) + [Return, LowerFlag, Decide]
  }

  function PassLabels(t: Table, n: nat, behaviour: nat -> seq<Call>): seq<Label>
    requires n <= |t.slots|
  {
    if n == 0 then []
    else PassLabels(t, n - 1, behaviour) + TurnLabels(DispatchedTo(t, n - 1, behaviour), n - 1, behaviour)
  }

  // ---- a task's calls ----

  // Somebody may call the scheduler.
  predicate Calm(s: State) {
    |s.table.slots| == |s.books| && s.adder == None && (s.at.Idle? || s.at.Running?)
  }

  // The task in slot `i` is another one, or has been neither run nor struck.
  predicate Untouched(s: State, s': State, i: nat)
    requires i < |s.books| == |s'.books|
  {
    var b, b' := s.books[i], s'.books[i];
    b'.generation >= b.generation && (b'.generation == b.generation ==> b'.runs == b.runs && b'.struck == b.struck)
  }

  lemma OneIsRun(s: State, l: Label)
    requires |s.table.slots| == |s.books| && Enabled(s, l)
    ensures IsRun(s, [l]) && Execute(s, [l]) == Apply(s, l)
  {
    hide Apply;
    assert [l][1..] == [];
  }

  lemma ThreeAreRun(s: State, l1: Label, l2: Label, l3: Label)
    requires |s.table.slots| == |s.books| && Enabled(s, l1) && Enabled(Apply(s, l1), l2)
    requires Enabled(Apply(Apply(s, l1), l2), l3)
    ensures IsRun(s, [l1, l2, l3]) && Execute(s, [l1, l2, l3]) == Apply(Apply(Apply(s, l1), l2), l3)
  {
    hide Apply, Enabled;
    OneIsRun(Apply(Apply(s, l1), l2), l3);
    assert [l1, l2, l3][1..] == [l2, l3] && [l2, l3][1..] == [l3];
    assert IsRun(Apply(s, l1), [l2, l3]);
    assert Execute(Apply(s, l1), [l2, l3]) == Execute(Apply(Apply(s, l1), l2), [l3]);
  }

  // The four assignments, one after the other.
  lemma AddStarts(s: State, f: nat, delay: nat, period: nat)
    requires Calm(s) && Gap(s.table.slots) < |s.books|
    ensures Enabled(s, Adds(f, delay, period))
    ensures var s1 := Apply(s, Adds(f, delay, period));
            && |s1.table.slots| == |s1.books| && Enabled(s1, Assign)
            && var s2 := Apply(s1, Assign);
            && Enabled(s2, Assign)
            && var s3 := Apply(s2, Assign);
            && Enabled(s3, Assign)
            && var s4 := Apply(s3, Assign);
            && s4.table == Added(s.table, f, delay, period) && s4.at == s.at && s4.adder == None
            && |s4.books| == |s.books| && forall i :: 0 <= i < |s.books| ==> Untouched(s, s4, i)
  {
    hide BookDelay, BookPeriod, BookFlag;
    BooksKeepGeneration();
  }

  lemma BooksKeepGeneration()
    ensures forall b :: BookDelay(b).generation == b.generation
    ensures forall b :: BookPeriod(b).generation == b.generation
    ensures forall b :: BookFlag(b).generation == b.generation
  {}

  lemma AddIsRun(s: State, f: nat, delay: nat, period: nat)
    requires Calm(s) && Gap(s.table.slots) < |s.books|
    ensures var ls := [Adds(f, delay, period), Assign, Assign, Assign];
            && IsRun(s, ls)
            && var e := Execute(s, ls);
            && e.table == Added(s.table, f, delay, period) && e.at == s.at && e.adder == None
            && forall i :: 0 <= i < |s.books| ==> Untouched(s, e, i)
  {
    hide Apply, Enabled, Untouched;
    AddStarts(s, f, delay, period);
    var s1 := Apply(s, Adds(f, delay, period));
    ThreeAreRun(s1, Assign, Assign, Assign);
    OneIsRun(s, Adds(f, delay, period));
    RunConcat(s, [Adds(f, delay, period)], [Assign, Assign, Assign]);
    assert [Adds(f, delay, period)] + [Assign, Assign, Assign] == [Adds(f, delay, period), Assign, Assign, Assign];
  }

  lemma CallIsRun(s: State, c: Call)
    requires Calm(s)
    ensures IsRun(s, CallLabels(s.table, c))
    ensures var e := Execute(s, CallLabels(s.table, c));
            && e.table == Called(s.table, c) && e.at == s.at && Calm(e)
            && forall i :: 0 <= i < |s.books| ==> Untouched(s, e, i)
  {
    if c.Add? && Gap(s.table.slots) < |s.table.slots| {
      AddIsRun(s, c.f, c.delay, c.period);
    } else if CallLabels(s.table, c) != [] {
      OneIsRun(s, CallLabels(s.table, c)[0]);
      assert CallLabels(s.table, c) == [CallLabels(s.table, c)[0]];
    }
  }

  lemma {:induction false} CallsAreRun(s: State, cs: seq<Call>)
    requires Calm(s)
    ensures IsRun(s, CallsLabels(s.table, cs))
    ensures var e := Execute(s, CallsLabels(s.table, cs));
            && e.table == CalledAll(s.table, cs) && e.at == s.at && Calm(e)
            && forall i :: 0 <= i < |s.books| ==> Untouched(s, e, i)
    decreases |cs|
  {
    hide Apply, CallLabels;
    if cs != [] {
      var last := |cs| - 1;
      CallsAreRun(s, cs[..last]);
      var s1 := Execute(s, CallsLabels(s.table, cs[..last]));
      CallIsRun(s1, cs[last]);
      RunConcat(s, CallsLabels(s.table, cs[..last]), CallLabels(s1.table, cs[last]));
      var e := Execute(s1, CallLabels(s1.table, cs[last]));
      forall i | 0 <= i < |s.books| ensures Untouched(s, e, i) {
        assert Untouched(s, s1, i) && Untouched(s1, e, i);
      }
    }
  }

  // ---- a turn ----

  // The end of the turn, once the task has returned.
  lemma EndIsRun(s: State, i: nat)
    requires Calm(s) && s.at.Running? && s.at.i == i < |s.books|
    ensures IsRun(s, [Return, LowerFlag, Decide])
    ensures var e := Execute(s, [Return, LowerFlag, Decide]);
            var slots := s.table.slots[i := Lower(s.table.slots[i])];
            && e.table == (if slots[i].period == 0 then Deleted(s.table.(slots := slots), i)
                           else s.table.(slots := slots))
            && e.at == Idle && e.adder == None
            && (forall j :: 0 <= j < |s.books| && j != i ==> Untouched(s, e, j))
            && e.books[i].generation == s.books[i].generation
            && e.books[i].runs == s.books[i].runs + (if s.at.generation == s.books[i].generation then 1 else 0)
  {
    hide IsRun, Execute;
    ThreeAreRun(s, Return, LowerFlag, Decide);
  }

  lemma DueIsRun(s: State, i: nat, behaviour: nat -> seq<Call>) returns (s2: State)
    requires |s.table.slots| == |s.books| && s.at == Idle && s.adder == None && i < |s.books| && Due(s.table.slots[i])
    ensures Calm(s2) && s2.at == Running(i, s.books[i].generation) && |s2.books| == |s.books|
    ensures s2.table == CalledAll(s.table, behaviour(s.table.slots[i].task.value))
    ensures forall j :: 0 <= j < |s.books| ==> Untouched(s, s2, j)
    ensures IsRun(s2, [Return, LowerFlag, Decide]) ==>
              && IsRun(s, TurnLabels(s.table, i, behaviour))
              && Execute(s, TurnLabels(s.table, i, behaviour)) == Execute(s2, [Return, LowerFlag, Decide])
  {
    hide IsRun, Execute, CallsLabels, CalledAll;
    var cs := behaviour(s.table.slots[i].task.value);
    var s1 := Apply(s, Begin(i));
    CallsAreRun(s1, cs);
    s2 := Execute(s1, CallsLabels(s.table, cs));
    OneIsRun(s, Begin(i));
    RunConcat(s, [Begin(i)], CallsLabels(s.table, cs));
    if IsRun(s2, [Return, LowerFlag, Decide]) {
      RunConcat(s, [Begin(i)] + CallsLabels(s.table, cs), [Return, LowerFlag, Decide]);
    }
    forall j | 0 <= j < |s.books| ensures Untouched(s, s2, j) {
      assert Untouched(s1, s2, j);
    }
  }

  /** A turn is a run.  If the slot is due its task runs once, for the account of that task exactly if it has
      not been replaced, and its flag is one lower than its calls and the interrupts have left it. */
  lemma TurnIsRun(s: State, i: nat, behaviour: nat -> seq<Call>)
    requires |s.table.slots| == |s.books| && s.at == Idle && s.adder == None && i < |s.books|
    ensures IsRun(s, TurnLabels(s.table, i, behaviour))
    ensures var e := Execute(s, TurnLabels(s.table, i, behaviour));
            && e.table == DispatchedSlot(s.table, i, behaviour) && e.at == Idle && e.adder == None
            && (forall j :: 0 <= j < |s.books| && j != i ==> Untouched(s, e, j))
            && (!Due(s.table.slots[i]) ==> e == s)
            && (Due(s.table.slots[i]) && e.books[i].generation == s.books[i].generation ==>
                  e.books[i].runs == s.books[i].runs + 1)
    ensures var e := Execute(s, TurnLabels(s.table, i, behaviour));
            Due(s.table.slots[i]) && e.table.slots[i].task.Some? ==>
              var called := CalledAll(s.table, behaviour(s.table.slots[i].task.value));
              e.table.slots[i] == Lower(called.slots[i])
  {
    hide Apply, CalledAll, Lower, CallsLabels;
    if Due(s.table.slots[i]) {
      var s2 := DueIsRun(s, i, behaviour);
      EndIsRun(s2, i);
      var e := Execute(s2, [Return, LowerFlag, Decide]);
      forall j | 0 <= j < |s.books| && j != i ensures Untouched(s, e, j) {
        assert Untouched(s, s2, j) && Untouched(s2, e, j);
      }
      assert Untouched(s, s2, i);
    }
  }

  // ---- a pass ----

  /** A pass of the dispatcher is the run of its turns: the table it leaves is the one that the machine reaches
      by running every due task with all that it does. */
  lemma {:induction false} PassIsRun(s: State, n: nat, behaviour: nat -> seq<Call>)
    requires |s.table.slots| == |s.books| && s.at == Idle && s.adder == None && n <= |s.books|
    ensures IsRun(s, PassLabels(s.table, n, behaviour))
    ensures var e := Execute(s, PassLabels(s.table, n, behaviour));
            e.table == DispatchedTo(s.table, n, behaviour) && e.at == Idle && e.adder == None
    decreases n
  {
    hide Apply, TurnLabels, DispatchedSlot, Untouched;
    if n > 0 {
      PassIsRun(s, n - 1, behaviour);
      var s1 := Execute(s, PassLabels(s.table, n - 1, behaviour));
      TurnIsRun(s1, n - 1, behaviour);
      RunConcat(s, PassLabels(s.table, n - 1, behaviour), TurnLabels(s1.table, n - 1, behaviour));
    }
  }

  function Begins(ls: seq<Label>, i: nat): nat {
    multiset(ls)[Begin(i)]
  }

  lemma {:induction false} CallsBeginNothing(t: Table, cs: seq<Call>, i: nat)
    ensures Begins(CallsLabels(t, cs), i) == 0
    decreases |cs|
  {
    hide CalledAll, Gap;
    if cs != [] {
      CallsBeginNothing(t, cs[..|cs| - 1], i);
      assert Begin(i) !in CallLabels(CalledAll(t, cs[..|cs| - 1]), cs[|cs| - 1]);
    }
  }

  lemma TurnBegins(t: Table, n: nat, behaviour: nat -> seq<Call>, i: nat)
    requires n < |t.slots|
    ensures Begins(TurnLabels(t, n, behaviour), i) == if i == n && Due(t.slots[n]) then 1 else 0
  {
    hide CallsLabels;
    if Due(t.slots[n]) {
      CallsBeginNothing(t, behaviour(t.slots[n].task.value), i);
    }
  }

  /** In a pass every slot that is due at its turn is begun exactly once, and no other. */
  lemma {:induction false} PassBegins(t: Table, n: nat, behaviour: nat -> seq<Call>, i: nat)
    requires n <= |t.slots|
    ensures Begins(PassLabels(t, n, behaviour), i)
         == if i < n && Due(DispatchedTo(t, i, behaviour).slots[i]) then 1 else 0
    decreases n
  {
    hide TurnLabels, DispatchedTo, Due;
    if n > 0 {
      PassBegins(t, n - 1, behaviour, i);
      TurnBegins(DispatchedTo(t, n - 1, behaviour), n - 1, behaviour, i);
    }
  }
}
