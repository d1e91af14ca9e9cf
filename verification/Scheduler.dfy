/** The task table of the time-triggered scheduler and its operations. */
module Scheduler {

  import opened Wrappers

  const MAX_TASKS: nat := 4
  const BYTE: nat := 256

  const TOO_MANY_TASKS: nat := 1
  const CANNOT_DELETE_TASK: nat := 2
  const NORMAL: nat := 0
  const ERROR: nat := 1

  // Tasks are named by numbers.  `runMe` is a byte and wraps; `delay` is only decremented above zero and
  // `period` never changes, so the width of their words does not matter.
  datatype Slot = Slot(task: Option<nat>, delay: nat, period: nat, runMe: nat)

  predicate Cleared(s: Slot) { s.task == None && s.delay == 0 && s.period == 0 && s.runMe == 0 }

  function Clear(s: Slot): (r: Slot)
    ensures Cleared(r)
  {
    s.(task := None, delay := 0, period := 0, runMe := 0)
  }

  /** One timer interrupt, seen from one slot. */
  function Tick(s: Slot): Slot {
    if s.task == None then s
    else if s.delay > 0 then s.(delay := s.delay - 1)
    else s.(runMe := (s.runMe + 1) % BYTE, delay := if s.period > 0 then s.period else s.delay)
  }

  function Lower(s: Slot): Slot { s.(runMe := (s.runMe + BYTE - 1) % BYTE) }

  datatype Table = Table(slots: seq<Slot>, error: nat)

  function Ticked(slots: seq<Slot>): (r: seq<Slot>)
    ensures |r| == |slots| && forall i :: 0 <= i < |r| ==> r[i] == Tick(slots[i])
  {
    seq(|slots|, i requires 0 <= i < |slots| => Tick(slots[i]))
  }

  /** The first empty slot, or the size of the table if there is none. */
  function Gap(slots: seq<Slot>): (i: nat)
    ensures i <= |slots| && (i < |slots| ==> slots[i].task == None)
    ensures forall j :: 0 <= j < i ==> slots[j].task != None
  {
    if slots == [] || slots[0].task == None then 0 else 1 + Gap(slots[1..])
  }

  function Added(t: Table, f: nat, delay: nat, period: nat): Table {
    var i := Gap(t.slots);
    if i == |t.slots| then t.(error := TOO_MANY_TASKS)
    else t.(slots := t.slots[i := Slot(Some(f), delay, period, 0)])
  }

  function Deleted(t: Table, i: nat): Table
    requires i < |t.slots|
  {
    Table(t.slots[i := Clear(t.slots[i])], if t.slots[i].task == None then CANNOT_DELETE_TASK else t.error)
  }

  // What a task does while it runs: it calls the scheduler, and the timer interrupts it between the calls.
  datatype Call = Interrupt | Add(f: nat, delay: nat, period: nat) | Delete(i: nat)

  function Called(t: Table, c: Call): (t': Table)
    ensures |t'.slots| == |t.slots|
  {
    match c
    case Interrupt => t.(slots := Ticked(t.slots))
    case Add(f, delay, period) => Added(t, f, delay, period)
    case Delete(i) => if i < |t.slots| then Deleted(t, i) else t
  }

  function CalledAll(t: Table, cs: seq<Call>): (t': Table)
    ensures |t'.slots| == |t.slots|
  {
    if cs == [] then t else Called(CalledAll(t, cs[..|cs| - 1]), cs[|cs| - 1])
  }

  lemma CalledSnoc(t: Table, cs: seq<Call>, c: Call)
    ensures CalledAll(t, cs + [c]) == Called(CalledAll(t, cs), c)
  {
    assert (cs + [c])[..|cs|] == cs;
  }

  /** One turn of the dispatch loop; `behaviour` says what each task does when it is run. */
  function DispatchedSlot(t: Table, i: nat, behaviour: nat -> seq<Call>): (t': Table)
    requires i < |t.slots|
    ensures |t'.slots| == |t.slots|
  {
    var s := t.slots[i];
    if s.runMe == 0 || s.task == None then t
    else
      var ran := CalledAll(t, behaviour(s.task.value));
      var lowered := ran.(slots := ran.slots[i := Lower(ran.slots[i])]);
      if lowered.slots[i].period == 0 then Deleted(lowered, i) else lowered
  }

  function DispatchedTo(t: Table, n: nat, behaviour: nat -> seq<Call>): (t': Table)
    requires n <= |t.slots|
    ensures |t'.slots| == |t.slots|
  {
    if n == 0 then t else DispatchedSlot(DispatchedTo(t, n - 1, behaviour), n - 1, behaviour)
  }

  /** The error code tells the last failure: an addition to a table without an empty slot, or the deletion of an
      empty one.  A failed addition changes nothing else. */
  lemma ErrorIsLastFailure(t: Table, c: Call)
    ensures var full := forall i :: 0 <= i < |t.slots| ==> t.slots[i].task.Some?;
            var t' := Called(t, c);
            && t'.error == (if c.Add? && full then TOO_MANY_TASKS
                            else if c.Delete? && c.i < |t.slots| && t.slots[c.i].task == None then CANNOT_DELETE_TASK
                            else t.error)
            && (c.Add? && full ==> t'.slots == t.slots)
  {}

  // ---- slot safety ----

  /** An empty slot has nothing scheduled; in particular dispatch never calls a null task. */
  predicate SlotOk(s: Slot) {
    s.runMe < BYTE && (s.task == None ==> Cleared(s))
  }

  predicate TableOk(t: Table) {
    forall i :: 0 <= i < |t.slots| ==> SlotOk(t.slots[i])
  }

  lemma CallKeepsSafe(t: Table, c: Call)
    requires TableOk(t)
    ensures TableOk(Called(t, c))
  {}

  lemma {:induction false} CallsKeepSafe(t: Table, cs: seq<Call>)
    requires TableOk(t)
    ensures TableOk(CalledAll(t, cs))
  {
    if cs != [] {
      CallsKeepSafe(t, cs[..|cs| - 1]);
      CallKeepsSafe(CalledAll(t, cs[..|cs| - 1]), cs[|cs| - 1]);
    }
  }

  /** Whatever the tasks do to their own or other slots while they run, and whenever the timer interrupts
      them, a pass of the dispatcher leaves every empty slot clear. */
  lemma {:induction false} DispatchKeepsSafe(t: Table, n: nat, behaviour: nat -> seq<Call>)
    requires TableOk(t) && n <= |t.slots|
    ensures TableOk(DispatchedTo(t, n, behaviour))
  {
    if n > 0 {
      DispatchKeepsSafe(t, n - 1, behaviour);
      var t1 := DispatchedTo(t, n - 1, behaviour);
      var s := t1.slots[n - 1];
      if s.runMe > 0 {
        CallsKeepSafe(t1, behaviour(s.task.value));
      }
    }
  }

  // ---- the object ----

  /** The scheduler, with its table updated in place.  An interrupt comes between two calls of a task here;
      `SchedulerRuns` lets it come between the statements of the dispatcher and of an addition. */
  class RawScheduler {
    const tasks: array<Slot>
    var errorCode: nat

    ghost predicate Valid()
      reads this, tasks
    {
      tasks.Length == MAX_TASKS && TableOk(View())
    }

    ghost function View(): Table
      reads this, tasks
    {
      Table(tasks[..], errorCode)
    }

    /** `SCH_Init_T2`: every slot is deleted, and the errors that this raises are forgotten. */
    constructor ()
      ensures Valid() && fresh(tasks) && errorCode == 0
      ensures forall i :: 0 <= i < MAX_TASKS ==> Cleared(tasks[i])
    {
      tasks := new Slot[MAX_TASKS](_ => Slot(None, 0, 0, 0));
      errorCode := 0;
      new;
      for i := 0 to MAX_TASKS
        invariant forall j :: 0 <= j < tasks.Length ==> Cleared(tasks[j])
      {
        var code := DeleteTask(i);
      }
      errorCode := 0;
    }

    method DeleteTask(i: nat) returns (code: nat)
      requires tasks.Length == MAX_TASKS && i < MAX_TASKS
      modifies this, tasks
      ensures View() == Deleted(old(View()), i)
      ensures errorCode == if old(tasks[i].task) == None then CANNOT_DELETE_TASK else old(errorCode)
      ensures code == if old(tasks[i].task) == None then ERROR else NORMAL
    {
      if tasks[i].task == None {
        errorCode := CANNOT_DELETE_TASK;
        code := ERROR;
      } else {
        code := NORMAL;
      }
      tasks[i] := tasks[i].(task := None, delay := 0, period := 0, runMe := 0);
    }

    method Update()
      requires tasks.Length == MAX_TASKS
      modifies tasks
      ensures View() == old(View()).(slots := Ticked(old(View()).slots))
    {
      for i := 0 to MAX_TASKS
        invariant forall j :: 0 <= j < i ==> tasks[j] == Tick(old(tasks[..])[j])
        invariant forall j :: i <= j < MAX_TASKS ==> tasks[j] == old(tasks[..])[j]
      {
        if tasks[i].task != None {
          if tasks[i].delay == 0 {
            tasks[i] := tasks[i].(runMe := (tasks[i].runMe + 1) % BYTE);
            if tasks[i].period != 0 {
              tasks[i] := tasks[i].(delay := tasks[i].period);
            }
          } else {
            tasks[i] := tasks[i].(delay := tasks[i].delay - 1);
          }
        }
      }
    }

    /** The index is tested before the slot is read, unlike in the source, where the order is immaterial. */
    method AddTask(f: nat, delay: nat, period: nat) returns (index: nat)
      requires tasks.Length == MAX_TASKS
      modifies this, tasks
      ensures View() == Added(old(View()), f, delay, period)
      ensures errorCode == if index == MAX_TASKS then TOO_MANY_TASKS else old(errorCode)
      ensures index == Gap(old(View()).slots)
    {
      index := 0;
      while index < MAX_TASKS && tasks[index].task != None
        invariant 0 <= index <= MAX_TASKS
        invariant forall j :: 0 <= j < index ==> tasks[j].task != None
      {
        index := index + 1;
      }
      if index == MAX_TASKS {
        errorCode := TOO_MANY_TASKS;
        return MAX_TASKS;
      }
      tasks[index] := Slot(Some(f), delay, period, 0);
    }

    // The body of a task.
    method RunTask(calls: seq<Call>)
      requires tasks.Length == MAX_TASKS
      modifies this, tasks
      ensures View() == CalledAll(old(View()), calls)
    {
      var k := 0;
      while k < |calls|
        invariant 0 <= k <= |calls|
        invariant View() == CalledAll(old(View()), calls[..k])
      {
        CalledSnoc(old(View()), calls[..k], calls[k]);
        assert calls[..k + 1] == calls[..k] + [calls[k]];
        match calls[k] {
          case Interrupt => Update();
          case Add(f, delay, period) => var index := AddTask(f, delay, period);
          case Delete(i) =>
            if i < MAX_TASKS {
              var code := DeleteTask(i);
            }
        }
        k := k + 1;
      }
      assert calls[..k] == calls;
    }

    method DispatchTasks(behaviour: nat -> seq<Call>)
      requires Valid()
      modifies this, tasks
      ensures View() == DispatchedTo(old(View()), MAX_TASKS, behaviour) && Valid()
    {
      ghost var before := View();
      for i := 0 to MAX_TASKS
        invariant View() == DispatchedTo(before, i, behaviour) && Valid()
      {
        DispatchKeepsSafe(before, i + 1, behaviour);
        DispatchOne(i, behaviour);
      }
    }

    method DispatchOne(i: nat, behaviour: nat -> seq<Call>)
      requires Valid() && i < MAX_TASKS
      modifies this, tasks
      ensures View() == DispatchedSlot(old(View()), i, behaviour)
    {
      if tasks[i].runMe > 0 {
        RunTask(behaviour(tasks[i].task.value));
        tasks[i] := tasks[i].(runMe := (tasks[i].runMe + BYTE - 1) % BYTE);
        if tasks[i].period == 0 {
          var code := DeleteTask(i);
        }
      }
    }
  }
}
