/**
 Every interleaving of timer interrupts, task calls and dispatches, with an account book for each slot.

 The program is cut at every point where an interrupt changes what it does: the dispatcher between the start
 of a task and its end, between the end and the decrement, and before the test for a one-shot task; an
 addition between its four assignments.  A deletion is one step, since its first assignment takes the slot
 away from the interrupt routine.
 */
module SchedulerRuns {

  import opened Wrappers
  import opened Scheduler
  import opened ReleaseTimes

  // ---- the state machine ----

  // The account of the task that occupies a slot: how it was added, the interrupts since its delay was set,
  // and how often it was released and run.  `wraps` counts how often the flag, a byte, went over 255, less
  // how often it went below 0.  Releases that are never run: `early` are those before the period was set,
  // when every interrupt that finds the delay run down raises the flag (those interrupts are not in `ticks`);
  // `erased` are those after it, and up to the assignment that clears the flag; `struck` are those taken from
  // the flag after the run of an earlier task.  `gaps` are the numbers of interrupts between the assignments
  // of the addition.  `generation` counts the tasks the slot has held.
  datatype Book = Book(
    delay: nat,
    period: nat,
    ticks: nat,
    releases: nat,
    runs: nat,
    wraps: int,
    early: nat,
    erased: nat,
    struck: nat,
    gaps: seq<nat>,
    generation: nat)

  datatype Dispatcher =
    | Idle
    | Running(i: nat, generation: nat)
    | Lowering(i: nat, generation: nat)
    | Deciding(i: nat, generation: nat)

  datatype Assignment = SetDelay | SetPeriod | ClearFlag

  // The addition under way: the task is in slot `i`, and `next` is the next assignment.
  datatype Adder = Adder(i: nat, delay: nat, period: nat, next: Assignment)

  datatype State = State(table: Table, books: seq<Book>, at: Dispatcher, adder: Option<Adder>)

  datatype Label =
    | Interrupted
    | Adds(f: nat, delay: nat, period: nat)
    | Assign
    | Deletes(i: nat)
    | Begin(i: nat)
    | Return
    | LowerFlag
    | Decide

  ghost predicate Init(s: State) {
    && |s.table.slots| == |s.books| && s.at == Idle && s.adder == None
    && (forall i :: 0 <= i < |s.books| ==> Cleared(s.table.slots[i]) && s.books[i].runs == 0)
  }

  predicate Enabled(s: State, l: Label)
    requires |s.table.slots| == |s.books|
  {
    match l
    case Interrupted => true
    // Tasks and the main program call the scheduler; the dispatcher itself does not.
    case Adds(_, _, _) => s.adder == None && (s.at.Idle? || s.at.Running?)
    case Assign => s.adder.Some? && s.adder.value.i < |s.books|
    case Deletes(i) => i < |s.books| && s.adder == None && (s.at.Idle? || s.at.Running?)
    case Begin(i) => i < |s.books| && s.adder == None && s.at.Idle? && s.table.slots[i].runMe > 0
    case Return => s.adder == None && s.at.Running?
    case LowerFlag => s.adder == None && s.at.Lowering? && s.at.i < |s.books|
    case Decide => s.adder == None && s.at.Deciding? && s.at.i < |s.books|
  }

  function TickBook(s: Slot, b: Book): Book {
    if s.task == None then b
    else if s.delay > 0 then b.(ticks := b.ticks + 1)
    else
      b.(ticks := b.ticks + 1, releases := b.releases + 1,
         wraps := if s.runMe == BYTE - 1 then b.wraps + 1 else b.wraps)
  }

  // What the assignments of an addition mean to the account.
  function BookDelay(b: Book): Book {
    b.(early := b.releases, ticks := 0, releases := 0, gaps := [b.ticks])
  }

  function BookPeriod(b: Book): Book {
    b.(early := b.early + b.releases, ticks := if b.releases <= b.ticks then b.ticks - b.releases else 0,
       releases := 0, gaps := b.gaps + [b.ticks])
  }

  function BookFlag(b: Book): Book {
    var before := if |b.gaps| == 2 then b.delay - Remaining(b.delay, b.gaps[1]) else 0;
    b.(erased := b.releases, wraps := 0, gaps := b.gaps + [if before <= b.ticks then b.ticks - before else 0])
  }

  function Assigned(s: State, a: Adder): (s': State)
    requires |s.table.slots| == |s.books| && a.i < |s.books|
    ensures |s'.table.slots| == |s'.books| == |s.books|
  {
    var slot := s.table.slots[a.i];
    match a.next
    case SetDelay =>
      s.(table := s.table.(slots := s.table.slots[a.i := slot.(delay := a.delay)]),
         books := s.books[a.i := BookDelay(s.books[a.i])],
         adder := Some(a.(next := SetPeriod)))
    case SetPeriod =>
      s.(table := s.table.(slots := s.table.slots[a.i := slot.(period := a.period)]),
         books := s.books[a.i := BookPeriod(s.books[a.i])],
         adder := Some(a.(next := ClearFlag)))
    case ClearFlag =>
      s.(table := s.table.(slots := s.table.slots[a.i := slot.(runMe := 0)]),
         books := s.books[a.i := BookFlag(s.books[a.i])],
         adder := None)
  }

  function Apply(s: State, l: Label): (s': State)
    requires |s.table.slots| == |s.books| && Enabled(s, l)
    ensures |s'.table.slots| == |s'.books| == |s.books|
  {
    match l
    case Interrupted =>
      s.(table := Called(s.table, Interrupt),
         books := seq(|s.books|, i requires 0 <= i < |s.books| => TickBook(s.table.slots[i], s.books[i])))
    case Adds(f, delay, period) =>
      var i := Gap(s.table.slots);
      if i == |s.books| then s.(table := Added(s.table, f, delay, period))
      else
        s.(table := s.table.(slots := s.table.slots[i := s.table.slots[i].(task := Some(f))]),
           books := s.books[i := Book(delay, period, 0, 0, 0, 0, 0, 0, 0, [], s.books[i].generation + 1)],
           adder := Some(Adder(i, delay, period, SetDelay)))
    case Assign => Assigned(s, s.adder.value)
    case Deletes(i) => s.(table := Deleted(s.table, i))
    case Begin(i) => s.(at := Running(i, s.books[i].generation))
    case Return => s.(at := Lowering(s.at.i, s.at.generation))
    case LowerFlag =>
      var i := s.at.i;
      var b := if s.table.slots[i].runMe == 0 then s.books[i].(wraps := s.books[i].wraps - 1) else s.books[i];
      s.(table := s.table.(slots := s.table.slots[i := Lower(s.table.slots[i])]),
         books := s.books[i := if b.generation == s.at.generation then b.(runs := b.runs + 1)
                               else b.(struck := b.struck + 1)],
         at := Deciding(i, s.at.generation))
    case Decide =>
      s.(table := if s.table.slots[s.at.i].period == 0 then Deleted(s.table, s.at.i) else s.table, at := Idle)
  }

  predicate IsRun(s: State, ls: seq<Label>)
    requires |s.table.slots| == |s.books|
    decreases |ls|
  {
    ls == [] || (Enabled(s, ls[0]) && IsRun(Apply(s, ls[0]), ls[1..]))
  }

  function Execute(s: State, ls: seq<Label>): (s': State)
    requires |s.table.slots| == |s.books| && IsRun(s, ls)
    ensures |s'.table.slots| == |s'.books| == |s.books|
    decreases |ls|
  {
    if ls == [] then s else Execute(Apply(s, ls[0]), ls[1..])
  }

  lemma {:induction false} RunConcat(s: State, a: seq<Label>, b: seq<Label>)
    requires |s.table.slots| == |s.books| && IsRun(s, a) && IsRun(Execute(s, a), b)
    ensures IsRun(s, a + b) && Execute(s, a + b) == Execute(Execute(s, a), b)
    decreases |a|
  {
    hide Apply;
    if a == [] {
      assert a + b == b;
    } else {
      assert (a + b)[1..] == a[1..] + b;
      RunConcat(Apply(s, a[0]), a[1..], b);
    }
  }

  ghost predicate Reachable(s: State) {
    exists s0: State, ls :: Init(s0) && IsRun(s0, ls) && Execute(s0, ls) == s
  }

  // ---- slot safety ----

  predicate At(s: State, i: nat) {
    (s.at.Running? || s.at.Lowering? || s.at.Deciding?) && s.at.i == i
  }

  /** An empty slot has no delay, period or run flag, except that the flag of a slot whose task deleted
      itself has wrapped to 255 until the dispatcher deletes the slot a second time. */
  predicate SlotSafe(s: State, i: nat)
    requires i < |s.table.slots|
  {
    var slot := s.table.slots[i];
    && slot.runMe < BYTE
    && (slot.task == None ==> slot.delay == 0 && slot.period == 0)
    && (slot.task == None ==> slot.runMe == if At(s, i) && s.at.Deciding? then BYTE - 1 else 0)
  }

  // Before the period was set, every interrupt raised the flag but those that ran the delay down.
  predicate EarlyOk(b: Book) {
    |b.gaps| >= 2 && b.early == b.gaps[0] + b.gaps[1] - (b.delay - Remaining(b.delay, b.gaps[1]))
  }

  // Whoever adds is the main program or a task, and the slot it fills holds the new task already.
  predicate AdderOk(s: State)
    requires |s.table.slots| == |s.books|
  {
    match s.adder
    case None => true
    case Some(a) =>
      && a.i < |s.books| && (s.at.Idle? || s.at.Running?)
      && var slot, b := s.table.slots[a.i], s.books[a.i];
      && slot.task.Some? && b.delay == a.delay && b.period == a.period
      && b.runs == 0 && b.erased == 0 && b.struck == 0
      && slot.runMe + BYTE * b.wraps == b.early + b.releases
      && (match a.next
          case SetDelay =>
            slot.delay == 0 && slot.period == 0 && b.early == 0 && b.releases == b.ticks && b.gaps == []
          case SetPeriod =>
            && slot.delay == Remaining(a.delay, b.ticks) && slot.period == 0
            && b.ticks == b.releases + (a.delay - slot.delay)
            && |b.gaps| == 1 && b.early == b.gaps[0]
          case ClearFlag =>
            && slot.period == a.period && EarlyOk(b) && |b.gaps| == 2
            && b.ticks >= a.delay - Remaining(a.delay, b.gaps[1])
            && PhaseAfter(a.delay, a.period, b.ticks) == Phase(slot.delay, b.releases))
  }

  predicate Safe(s: State) {
    && |s.table.slots| == |s.books|
    && (forall i :: 0 <= i < |s.books| ==> SlotSafe(s, i))
    && AdderOk(s)
  }

  lemma KeepAdder(s: State, l: Label)
    requires Safe(s) && Enabled(s, l)
    ensures AdderOk(Apply(s, l))
  {
    if l.Adds? && Gap(s.table.slots) < |s.books| {
      assert SlotSafe(s, Gap(s.table.slots));
    } else if s.adder.Some? {
      assert SlotSafe(s, s.adder.value.i);
      if l.Assign? && s.adder.value.next.SetPeriod? {
        PhaseAt(s.adder.value.delay, s.adder.value.period, s.table.slots[s.adder.value.i].delay);
      }
    }
  }

  lemma KeepSafe(s: State, l: Label)
    requires Safe(s) && Enabled(s, l)
    ensures Safe(Apply(s, l))
  {
    KeepAdder(s, l);
    forall i | 0 <= i < |s.books| ensures SlotSafe(Apply(s, l), i) {
      assert SlotSafe(s, i);
    }
  }

  // ---- one-shot tasks ----

  // The addition to slot `i`, if there was any, is complete.
  predicate Open(s: State, i: nat) {
    s.adder.Some? ==> s.adder.value.i != i
  }

  // A one-shot task that has been run is about to be deleted or has gone, and is not being run.
  predicate OneShot(s: State, i: nat)
    requires i < |s.books| == |s.table.slots|
  {
    var slot, b := s.table.slots[i], s.books[i];
    && (slot.task.Some? && Open(s, i) ==> slot.period == b.period)
    && (b.period == 0 && b.runs > 0 ==>
          && b.runs == 1
          && (slot.task == None || s.at == Deciding(i, b.generation))
          && s.at != Running(i, b.generation) && s.at != Lowering(i, b.generation))
  }

  // ---- accounts ----

  // What the addition erased are the releases between its last two assignments.
  predicate ErasedOk(b: Book) {
    && EarlyOk(b) && |b.gaps| == 3
    && b.ticks >= b.delay - Remaining(b.delay, b.gaps[1]) + b.gaps[2]
    && b.erased == Releases(Remaining(b.delay, b.gaps[1]), b.period, b.gaps[2])
  }

  /** The counter of a slot is where the interrupts since its task was added have put it, and its flag holds
      the releases that were neither run nor lost, as a byte that may have wrapped. */
  predicate Accounted(slot: Slot, b: Book) {
    && PhaseAfter(b.delay, b.period, b.ticks) == Phase(slot.delay, b.releases)
    && b.releases == b.runs + b.erased + b.struck + slot.runMe + BYTE * b.wraps
    && ErasedOk(b)
  }

  // A task is struck at most once: by the dispatcher that ran an earlier task of its slot.
  predicate StruckOnce(s: State, i: nat)
    requires i < |s.books|
  {
    s.books[i].struck > 0 ==>
      && s.books[i].struck == 1
      && ((s.at.Running? || s.at.Lowering?) && s.at.i == i ==> s.at.generation == s.books[i].generation)
  }

  predicate BookOk(s: State, i: nat)
    requires i < |s.books| == |s.table.slots|
  {
    && OneShot(s, i)
    && (s.table.slots[i].task.Some? ==> StruckOnce(s, i) && (Open(s, i) ==> Accounted(s.table.slots[i], s.books[i])))
  }

  predicate Inv(s: State) {
    Safe(s) && forall i :: 0 <= i < |s.books| ==> BookOk(s, i)
  }

  lemma AccountedTick(slot: Slot, b: Book)
    requires Accounted(slot, b) && slot.task.Some? && slot.period == b.period && slot.runMe < BYTE
    ensures Accounted(Tick(slot), TickBook(slot, b))
  {}

  lemma AccountedRun(slot: Slot, b: Book)
    requires Accounted(slot, b) && slot.runMe < BYTE
    ensures var w := if slot.runMe == 0 then b.wraps - 1 else b.wraps;
            && Accounted(Lower(slot), b.(wraps := w, runs := b.runs + 1))
            && Accounted(Lower(slot), b.(wraps := w, struck := b.struck + 1))
  {}

  lemma AccountedOpened(s: State)
    requires Safe(s) && s.adder.Some? && s.adder.value.next.ClearFlag?
    ensures var i := s.adder.value.i; Accounted(s.table.slots[i].(runMe := 0), BookFlag(s.books[i]))
  {
    var b := s.books[s.adder.value.i];
    ReleaseArithmetic(b.delay, b.period, b.ticks);
  }

  lemma KeepOneShot(s: State, l: Label, i: nat)
    requires Safe(s) && Enabled(s, l) && i < |s.books| && OneShot(s, i)
    ensures OneShot(Apply(s, l), i)
  {
    assert SlotSafe(s, i);
  }

  lemma KeepStruck(s: State, l: Label, i: nat)
    requires Safe(s) && Enabled(s, l) && i < |s.books|
    requires s.table.slots[i].task.Some? ==> StruckOnce(s, i)
    requires Apply(s, l).table.slots[i].task.Some?
    ensures StruckOnce(Apply(s, l), i)
  {}

  lemma KeepAccount(s: State, l: Label, i: nat)
    requires Inv(s) && Enabled(s, l) && i < |s.books|
    requires Apply(s, l).table.slots[i].task.Some? && Open(Apply(s, l), i)
    ensures Accounted(Apply(s, l).table.slots[i], Apply(s, l).books[i])
  {
    hide Accounted, BookFlag;
    var slot, b := s.table.slots[i], s.books[i];
    assert BookOk(s, i) && SlotSafe(s, i);
    if !Open(s, i) {
      AccountedOpened(s);
    } else if slot.task.Some? {
      AccountedTick(slot, b);
      AccountedRun(slot, b);
    }
  }

  lemma KeepInv(s: State, l: Label)
    requires Inv(s) && Enabled(s, l)
    ensures Inv(Apply(s, l))
  {
    KeepSafe(s, l);
    hide Apply, Safe, OneShot, StruckOnce, Accounted, Open;
    forall i | 0 <= i < |s.books| ensures BookOk(Apply(s, l), i) {
      assert BookOk(s, i);
      KeepOneShot(s, l, i);
      if Apply(s, l).table.slots[i].task.Some? {
        KeepStruck(s, l, i);
        if Open(Apply(s, l), i) {
          KeepAccount(s, l, i);
        }
      }
    }
  }

  lemma {:induction false} KeepRun(s: State, ls: seq<Label>)
    requires Inv(s) && IsRun(s, ls)
    ensures Inv(Execute(s, ls))
    decreases |ls|
  {
    if ls != [] {
      KeepInv(s, ls[0]);
      KeepRun(Apply(s, ls[0]), ls[1..]);
    }
  }

  lemma ReachableInv(s: State)
    requires Reachable(s)
    ensures Inv(s)
  {
    var s0: State, ls :| Init(s0) && IsRun(s0, ls) && Execute(s0, ls) == s;
    KeepRun(s0, ls);
  }

  // ---- main results ----

  /** In every run the dispatcher starts only tasks that exist, and an empty slot is clear whenever the
      dispatcher is not about to delete it. */
  lemma DispatchNeverCallsNull(s: State, i: nat)
    requires Reachable(s) && i < |s.books| == |s.table.slots|
    ensures Enabled(s, Begin(i)) ==> s.table.slots[i].task.Some?
    ensures s.table.slots[i].task == None && !(s.at.Deciding? && s.at.i == i) ==> Cleared(s.table.slots[i])
  {
    ReachableInv(s);
    assert SlotSafe(s, i);
  }

  /** In every run a task added without a period runs at most once, however late it is dispatched, whether
      it is still in its slot or gone, and even if a task refills its own slot. */
  lemma OneShotRunsOnce(s: State, i: nat)
    requires Reachable(s) && i < |s.books|
    ensures s.books[i].period == 0 ==> s.books[i].runs <= 1
  {
    ReachableInv(s);
    assert BookOk(s, i);
  }

  /** Runs and flag alone, with its wraps, account for the releases. */
  predicate Balanced(slot: Slot, b: Book) {
    && PhaseAfter(b.delay, b.period, b.ticks) == Phase(slot.delay, b.releases)
    && b.releases == b.runs + slot.runMe + BYTE * b.wraps
  }

  lemma BalancedExactly(s: State, i: nat)
    requires Inv(s) && i < |s.books| == |s.table.slots| && s.table.slots[i].task.Some? && Open(s, i)
    ensures Balanced(s.table.slots[i], s.books[i]) <==> s.books[i].erased == 0 && s.books[i].struck == 0
  {
    assert BookOk(s, i);
  }

  /** In every run, whatever is done to other slots and however late tasks are dispatched, a task in its slot
      has been released as the closed form says for the interrupts since it was added.  Its releases are its
      runs, its flag and what it lost, exactly as long as that backlog fits in the flag.  At most one was lost
      to the run of an earlier task; and runs and flag alone account for the releases exactly if none was
      lost to that or to the addition. */
  lemma ReleasesAreConserved(s: State, i: nat)
    requires Reachable(s) && i < |s.books| == |s.table.slots| && s.table.slots[i].task.Some? && Open(s, i)
    ensures var slot, b := s.table.slots[i], s.books[i];
            var backlog := b.releases - b.runs - b.erased - b.struck;
            && slot.period == b.period && b.releases == Releases(b.delay, b.period, b.ticks)
            && backlog == slot.runMe + BYTE * b.wraps
            && (b.releases == b.runs + slot.runMe + b.erased + b.struck <==> 0 <= backlog < BYTE)
            && b.struck <= 1
            && (Balanced(slot, b) <==> b.erased == 0 && b.struck == 0)
  {
    ReachableInv(s);
    assert BookOk(s, i) && SlotSafe(s, i);
    BalancedExactly(s, i);
    ReleaseArithmetic(s.books[i].delay, s.books[i].period, s.books[i].ticks);
  }

  /** In every run, an addition erases the releases for the interrupts between its last two assignments, in
      closed form: none exactly if those do not use up what was left of the delay when the period was set.
      Before that, every interrupt that did not run the delay down raised the flag in vain. */
  lemma ErasedIsExact(s: State, i: nat)
    requires Reachable(s) && i < |s.books| == |s.table.slots| && s.table.slots[i].task.Some? && Open(s, i)
    ensures var b := s.books[i];
            && |b.gaps| == 3
            && var left := Remaining(b.delay, b.gaps[1]);
            && b.erased == Releases(left, b.period, b.gaps[2]) && (b.erased == 0 <==> b.gaps[2] <= left)
            && b.early == b.gaps[0] + b.gaps[1] - (b.delay - left)
            && b.ticks >= b.delay - left + b.gaps[2]
  {
    ReachableInv(s);
    assert BookOk(s, i);
  }

  /** The flag that the last assignment clears holds, as a byte, every release since the addition began. */
  lemma LastAssignmentClears(s: State)
    requires Reachable(s) && |s.books| == |s.table.slots| && s.adder.Some? && s.adder.value.next.ClearFlag?
    ensures var i := s.adder.value.i;
            && i < |s.books| && s.table.slots[i].runMe == (s.books[i].early + s.books[i].releases) % BYTE
            && Apply(s, Assign).table.slots[i].runMe == 0 && Apply(s, Assign).books[i].erased == s.books[i].releases
  {
    ReachableInv(s);
    assert SlotSafe(s, s.adder.value.i);
  }

  /** During an addition nothing can happen but interrupts and the next assignment. */
  lemma AdditionIsExclusive(s: State, l: Label)
    requires Reachable(s) && |s.books| == |s.table.slots| && s.adder.Some?
    ensures Enabled(s, Assign)
    ensures Enabled(s, l) ==> l.Interrupted? || l.Assign?
  {
    ReachableInv(s);
  }

  // An account that is open stays open, and what is lost stays lost, until the slot is filled again.
  lemma {:induction false} LossesStay(s: State, ls: seq<Label>, i: nat)
    requires |s.table.slots| == |s.books| && IsRun(s, ls) && i < |s.books| && Open(s, i)
    ensures var e := Execute(s, ls);
            var b, b' := s.books[i], e.books[i];
            && b'.generation >= b.generation
            && (b'.generation == b.generation ==> Open(e, i) && b'.erased == b.erased && b'.struck >= b.struck)
    decreases |ls|
  {
    if ls != [] {
      var s' := Apply(s, ls[0]);
      if s'.books[i].generation == s.books[i].generation {
        LossesStay(s', ls[1..], i);
      } else {
        GenerationsGrow(s', ls[1..], i);
      }
    }
  }

  lemma {:induction false} GenerationsGrow(s: State, ls: seq<Label>, i: nat)
    requires |s.table.slots| == |s.books| && IsRun(s, ls) && i < |s.books|
    ensures Execute(s, ls).books[i].generation >= s.books[i].generation
    decreases |ls|
  {
    if ls != [] {
      GenerationsGrow(Apply(s, ls[0]), ls[1..], i);
    }
  }

  /** An account that does not balance does not balance again, whatever happens, for as long as the task is
      in its slot. */
  lemma ImbalanceStays(s: State, ls: seq<Label>, i: nat)
    requires Reachable(s) && |s.table.slots| == |s.books| && IsRun(s, ls) && i < |s.books|
    requires s.table.slots[i].task.Some? && Open(s, i) && !Balanced(s.table.slots[i], s.books[i])
    ensures var e := Execute(s, ls);
            e.table.slots[i].task.Some? && e.books[i].generation == s.books[i].generation ==>
              !Balanced(e.table.slots[i], e.books[i])
  {
    hide Inv, PhaseAfter, Balanced;
    ReachableInv(s);
    KeepRun(s, ls);
    LossesStay(s, ls, i);
    BalancedExactly(s, i);
    if Execute(s, ls).table.slots[i].task.Some? && Open(Execute(s, ls), i) {
      BalancedExactly(Execute(s, ls), i);
    }
  }

  /** The decrement keeps the balance of the slot's task exactly if it is still the task that was run.  If the
      task freed its slot and had it filled again, the decrement strikes the new task: with no release due
      its flag wraps to 255, and if it is a one-shot task it is deleted before it has run. */
  lemma RefillIsExact(s: State)
    requires Reachable(s) && |s.books| == |s.table.slots| && Enabled(s, LowerFlag)
    requires s.table.slots[s.at.i].task.Some?
    ensures var (i, s') := (s.at.i, Apply(s, LowerFlag));
            Balanced(s'.table.slots[i], s'.books[i]) <==>
            Balanced(s.table.slots[i], s.books[i]) && s.books[i].generation == s.at.generation
    ensures var (i, s') := (s.at.i, Apply(s, LowerFlag));
            s.books[i].generation != s.at.generation ==>
              && s.books[i].struck == 0 && s'.books[i].struck == 1
              && (s.table.slots[i].runMe == 0 ==> s'.table.slots[i].runMe == BYTE - 1)
              && (s.table.slots[i].period == 0 ==>
                    s'.books[i].runs == 0 && Apply(s', Decide).table.slots[i].task == None)
  {
    ReachableInv(s);
    assert BookOk(s, s.at.i) && SlotSafe(s, s.at.i);
  }

  // ---- isolation ----

  /** What a step means to one slot. */
  datatype SlotEvent = Ticks | Names(f: nat) | Sets(next: Assignment, x: nat) | Clears | Lowers | Nothing

  function Project(s: State, l: Label, i: nat): SlotEvent
    requires |s.table.slots| == |s.books| && Enabled(s, l)
  {
    match l
    case Interrupted => Ticks
    case Adds(f, _, _) => if Gap(s.table.slots) == i then Names(f) else Nothing
    case Assign =>
      var a := s.adder.value;
      if a.i != i then Nothing else Sets(a.next, if a.next.SetDelay? then a.delay else a.period)
    case Deletes(j) => if j == i then Clears else Nothing
    case LowerFlag => if s.at.i == i then Lowers else Nothing
    case Decide => if s.at.i == i && s.table.slots[i].period == 0 then Clears else Nothing
    case _ => Nothing
  }

  function SlotAfter(slot: Slot, e: SlotEvent): Slot {
    match e
    case Ticks => Tick(slot)
    case Names(f) => slot.(task := Some(f))
    case Sets(SetDelay, x) => slot.(delay := x)
    case Sets(SetPeriod, x) => slot.(period := x)
    case Sets(ClearFlag, _) => slot.(runMe := 0)
    case Clears => Clear(slot)
    case Lowers => Lower(slot)
    case Nothing => slot
  }

  function Projected(s: State, ls: seq<Label>, i: nat): seq<SlotEvent>
    requires |s.table.slots| == |s.books| && IsRun(s, ls)
    decreases |ls|
  {
    if ls == [] then [] else [Project(s, ls[0], i)] + Projected(Apply(s, ls[0]), ls[1..], i)
  }

  function SlotAlone(slot: Slot, es: seq<SlotEvent>): Slot
    decreases |es|
  {
    if es == [] then slot else SlotAlone(SlotAfter(slot, es[0]), es[1..])
  }

  /** A slot in the table behaves as it would alone, given the events that concern it: nothing that is done
      to other slots changes it. */
  lemma {:induction false} SlotIsIsolated(s: State, ls: seq<Label>, i: nat)
    requires |s.table.slots| == |s.books| && IsRun(s, ls) && i < |s.books|
    ensures Execute(s, ls).table.slots[i] == SlotAlone(s.table.slots[i], Projected(s, ls, i))
    decreases |ls|
  {
    if ls != [] {
      var s' := Apply(s, ls[0]);
      assert s'.table.slots[i] == SlotAfter(s.table.slots[i], Project(s, ls[0], i));
      hide Apply, Project, SlotAfter;
      SlotIsIsolated(s', ls[1..], i);
      assert Projected(s, ls, i)[1..] == Projected(s', ls[1..], i);
    }
  }
}
