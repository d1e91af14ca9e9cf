/** How a release is lost: runs that reach the two losses, and exactly when an addition causes one. */
module SchedulerLosses {

  import opened Wrappers
  import opened Scheduler
  import opened ReleaseTimes
  import opened SchedulerRuns

  ghost predicate On(s: State) {
    |s.table.slots| == |s.books| && Reachable(s)
  }

  lemma Go(s: State, l: Label) returns (s': State)
    requires On(s) && Enabled(s, l)
    ensures s' == Apply(s, l) && On(s')
  {
    hide Apply;
    s' := Apply(s, l);
    var s0: State, ls :| Init(s0) && IsRun(s0, ls) && Execute(s0, ls) == s;
    assert [l][1..] == [] && IsRun(s', []);
    RunConcat(s0, ls, [l]);
  }

  lemma Beginning() returns (s: State)
    ensures On(s) && s.at == Idle && s.adder == None && |s.books| == MAX_TASKS && Gap(s.table.slots) == 0
  {
    s := State(Table(seq(MAX_TASKS, _ => Slot(None, 0, 0, 0)), 0),
               seq(MAX_TASKS, _ => Book(0, 0, 0, 0, 0, 0, 0, 0, 0, [], 0)), Idle, None);
    assert IsRun(s, []) && Execute(s, []) == s;
  }

  // Nothing but interrupts: slot `i` ticks.
  lemma {:induction false} Interrupts(s: State, n: nat, i: nat) returns (s': State)
    requires On(s) && i < |s.books| && s.table.slots[i].task.Some?
    ensures On(s') && |s'.books| == |s.books| && s'.adder == s.adder && s'.at == s.at
    ensures s'.table.slots[i] == TicksOf(s.table.slots[i], n) && s'.table.slots[i].task.Some?
    ensures var b, b' := s.books[i], s'.books[i];
            b' == b.(ticks := b.ticks + n, releases := b'.releases, wraps := b'.wraps)
    decreases n
  {
    hide Reachable;
    s' := s;
    if n > 0 {
      s' := Interrupts(s, n - 1, i);
      s' := Go(s', Interrupted);
    }
  }

  /** An addition to an empty slot, with any numbers of interrupts between its assignments: the run that makes
      it, and the slot that it leaves.  If it erases no release, it is as if it had been made at once at some
      moment within it. */
  lemma AddCut(s: State, f: nat, delay: nat, period: nat, m1: nat, m2: nat, m3: nat) returns (s': State)
    requires On(s) && Enabled(s, Adds(f, delay, period)) && Gap(s.table.slots) < |s.books|
    ensures On(s') && |s'.books| == |s.books| && s'.adder == None && s'.at == s.at
    ensures var i := Gap(s.table.slots);
            var slot, b := s'.table.slots[i], s'.books[i];
            && slot == AddedUnder(f, delay, period, m1, m2, m3)
            && b.delay == delay && b.period == period && b.generation == s.books[i].generation + 1
            && b.runs == 0 && b.struck == 0 && b.gaps == [m1, m2, m3]
            && b.releases == b.erased == Releases(Remaining(delay, m2), period, m3)
            && (b.erased == 0 ==> Timely(slot, delay, period, m2 + m3))
  {
    hide Reachable, TicksOf;
    var i := Gap(s.table.slots);
    ReachableInv(s);
    assert SlotSafe(s, i);
    var s1 := Go(s, Adds(f, delay, period));
    var s2 := Interrupts(s1, m1, i);
    var s3 := Go(s2, Assign);
    var s4 := Interrupts(s3, m2, i);
    var s5 := Go(s4, Assign);
    var s6 := Interrupts(s5, m3, i);
    s' := Go(s6, Assign);
    assert s'.table.slots[i] == AddedUnder(f, delay, period, m1, m2, m3);
    ReachableInv(s4);
    assert s5.books[i].ticks == delay - Remaining(delay, m2);
    assert s'.books[i].gaps == [m1, m2, m3];
    ErasedIsExact(s', i);
    AddIsTimely(f, delay, period, m1, m2, m3);
  }

  /** Uncut, it is the addition as one step. */
  lemma AddUncut(t: Table, f: nat, delay: nat, period: nat)
    requires Gap(t.slots) < |t.slots|
    ensures Added(t, f, delay, period).slots[Gap(t.slots)] == AddedUnder(f, delay, period, 0, 0, 0)
  {}

  /** A task added without a delay loses its first release to one interrupt before the last assignment: it has
      been released and not run, and is not due. */
  lemma FirstReleaseErased(f: nat, period: nat) returns (s: State)
    requires period > 0
    ensures On(s) && |s.books| == MAX_TASKS && Open(s, 0)
    ensures s.table.slots[0].task == Some(f) && s.table.slots[0].runMe == 0
    ensures s.books[0].releases == 1 && s.books[0].runs == 0 && !Balanced(s.table.slots[0], s.books[0])
  {
    s := Beginning();
    s := AddCut(s, f, 0, period, 0, 0, 1);
    AddErases(f, 0, period, 0, 0, 1);
    AddedDelay(f, 0, period, 0, 0, 1);
    ReleasesAreConserved(s, 0);
  }

  /** A task frees its slot and has it filled again; its run is then taken from the flag of the new task. */
  lemma RefillReached(f: nat, g: nat, delay: nat, period: nat) returns (s: State)
    ensures On(s) && |s.books| == MAX_TASKS && Enabled(s, LowerFlag)
    ensures s.at.i == 0 && s.books[0].generation != s.at.generation
    ensures s.table.slots[0] == Slot(Some(g), delay, period, 0)
  {
    s := Beginning();
    s := AddCut(s, f, 0, 0, 0, 0, 0);
    assert TicksOf(s.table.slots[0], 1) == Tick(TicksOf(s.table.slots[0], 0));
    s := Interrupts(s, 1, 0);
    s := Go(s, Begin(0));
    s := Go(s, Deletes(0));
    s := AddCut(s, g, delay, period, 0, 0, 0);
    s := Go(s, Return);
  }
}
