/** The serial queue: a serialising executor made of one boolean and one deque. */
module SerialQueue {

  import opened Wrappers

  type Task(==, !new)

  datatype Mode = Single | All

  // ---- the object and its critical sections ----

  /** What the mutex protects. */
  datatype Shared = Shared(running: bool, queue: seq<Task>)

  // `enqueue`: the caller submits a drain exactly if nothing was running.
  function AppendTask(q: Shared, f: Task): (Shared, bool) {
    (Shared(true, q.queue + [f]), !q.running)
  }

  function PopTask(q: Shared): (Shared, Task)
    requires q.queue != []
  {
    (q.(queue := q.queue[1..]), q.queue[0])
  }

  function TakeTasks(q: Shared): (Shared, seq<Task>) {
    (q.(queue := []), q.queue)
  }

  function TestEmpty(q: Shared): (Shared, bool) {
    (q.(running := q.running && q.queue != []), q.queue == [])
  }

  /** The queue, updated in place.  The functions that specify the methods are the steps of `Apply`:
      `TokenInvariant`, `RefinesFifo` and `QuietIsDrained` say what they achieve together. */
  class SerialInstance {
    const mode: Mode
    var running: bool
    var queue: seq<Task>

    ghost function View(): Shared
      reads this
    {
      Shared(running, queue)
    }

    constructor (mode: Mode)
      ensures this.mode == mode && View() == Shared(false, [])
    {
      this.mode := mode;
      running, queue := false, [];
    }

    method Append(f: Task) returns (kick: bool)
      modifies this
      ensures (View(), kick) == AppendTask(old(View()), f)
    {
      var wasRunning := true;
      queue := queue + [f];
      wasRunning, running := running, wasRunning;
      kick := !wasRunning;
    }

    method Pop() returns (f: Task)
      requires queue != []
      modifies this
      ensures (View(), f) == PopTask(old(View()))
    {
      f := queue[0];
      queue := queue[1..];
    }

    method TakeAll() returns (local: seq<Task>)
      modifies this
      ensures (View(), local) == TakeTasks(old(View()))
    {
      local := [];
      local, queue := queue, local;
    }

    method Empty() returns (empty: bool)
      modifies this
      ensures (View(), empty) == TestEmpty(old(View()))
    {
      empty := queue == [];
      if empty {
        running := false;
      }
    }

    // What a task does that enqueues `children` on the queue it is running on: nothing is submitted.
    method AppendEach(children: seq<Task>)
      requires running
      modifies this
      ensures queue == old(queue) + children && running
    {
      var i := 0;
      while i < |children|
        invariant 0 <= i <= |children| && queue == old(queue) + children[..i] && running
      {
        var kick := Append(children[i]);
        i := i + 1;
      }
      assert children[..i] == children;
    }

    /** One drain in mode `Single` without interference: the oldest task runs, and its children join the tail. */
    method DrainSingle(spawn: Task -> seq<Task>) returns (again: bool, ghost executed: Task)
      requires mode == Single && running && queue != []
      modifies this
      ensures executed == old(queue[0]) && queue == old(queue)[1..] + spawn(executed)
      ensures again == running == (queue != [])
    {
      var f := Pop();
      AppendEach(spawn(f));
      executed := f;
      var empty := Empty();
      again := !empty;
    }

    /** One drain in mode `All` without interference, each task enqueuing its own children when it is run:
        the tasks found in the queue run in order and leave behind their children, in order. */
    method DrainAll(spawn: Task -> seq<Task>, ghost executed: seq<Task>)
        returns (again: bool, ghost executed': seq<Task>)
      requires mode == All && running
      modifies this
      ensures executed' == executed + old(queue) && queue == Children(spawn, old(queue))
      ensures again == running == (queue != [])
    {
      executed' := executed;
      var local := TakeAll();
      ghost var taken := local;
      ghost var done := 0;
      while local != []
        invariant done <= |taken| && local == taken[done..] && running
        invariant executed' == executed + taken[..done]
        invariant queue == Children(spawn, taken[..done])
        decreases |local|
      {
        var f := local[0];
        local := local[1..];
        AppendEach(spawn(f));
        ChildrenSnoc(spawn, taken[..done], f);
        executed' := executed' + [f];
        done := done + 1;
        assert taken[..done] == taken[..done - 1] + [f];
      }
      assert taken[..done] == taken;
      var empty := Empty();
      again := !empty;
    }
  }

  function Children(spawn: Task -> seq<Task>, fs: seq<Task>): seq<Task> {
    if fs == [] then [] else Children(spawn, fs[..|fs| - 1]) + spawn(fs[|fs| - 1])
  }

  lemma ChildrenSnoc(spawn: Task -> seq<Task>, fs: seq<Task>, f: Task)
    ensures Children(spawn, fs + [f]) == Children(spawn, fs) + spawn(f)
  {
    assert (fs + [f])[..|fs|] == fs;
  }

  // ---- all interleavings ----

  /** A closure of the executor that is draining the queue, between two critical sections. */
  datatype Drainer =
    | Taking
    | Working(local: seq<Task>, current: Option<Task>)
    | Checking

  // `submitting` counts the threads that left a critical section owing the executor a drain; `log` is the
  // order of the enqueues, `executed` that of the completed tasks; `batches` are the tasks that each drain so
  // far has taken from the queue; `fault` is an access to an empty deque.
  datatype State = State(
    mode: Mode,
    inst: Shared,
    submitting: nat,
    pending: nat,
    drainers: seq<Drainer>,
    log: seq<Task>,
    executed: seq<Task>,
    batches: seq<seq<Task>>,
    fault: bool)

  datatype Label =
    | Enqueue(f: Task)     // by any thread, including a task that is running on this queue
    | Submit
    | StartDrain
    | Step(d: nat)

  ghost predicate Init(s: State) {
    && !s.inst.running && s.inst.queue == [] && s.submitting == 0 && s.pending == 0 && s.drainers == []
    && s.log == [] && s.executed == [] && s.batches == [] && !s.fault
  }

  predicate Enabled(s: State, l: Label) {
    match l
    case Enqueue(_) => true
    case Submit => s.submitting > 0
    case StartDrain => s.pending > 0
    case Step(d) => d < |s.drainers|
  }

  function Apply(s: State, l: Label): State
    requires Enabled(s, l)
  {
    match l
    case Enqueue(f) =>
      var (inst, kick) := AppendTask(s.inst, f);
      s.(inst := inst, log := s.log + [f], submitting := if kick then s.submitting + 1 else s.submitting)
    case Submit => s.(submitting := s.submitting - 1, pending := s.pending + 1)
    case StartDrain => s.(pending := s.pending - 1, drainers := s.drainers + [Taking])
    case Step(d) => StepDrainer(s, d)
  }

  function StepDrainer(s: State, d: nat): State
    requires d < |s.drainers|
  {
    match s.drainers[d]
    case Taking =>
      if s.mode == All then
        var (inst, local) := TakeTasks(s.inst);
        s.(inst := inst, drainers := s.drainers[d := Working(local, None)], batches := s.batches + [local])
      else if s.inst.queue == [] then s.(fault := true)
      else
        var (inst, f) := PopTask(s.inst);
        s.(inst := inst, drainers := s.drainers[d := Working([f], None)], batches := s.batches + [[f]])
    case Working(local, current) =>
      if current.Some? then
        s.(executed := s.executed + [current.value], drainers := s.drainers[d := Working(local, None)])
      else if local != [] then
        s.(drainers := s.drainers[d := Working(local[1..], Some(local[0]))])
      else
        s.(drainers := s.drainers[d := Checking])
    case Checking =>
      var left := s.drainers[..d] + s.drainers[d + 1..];
      var (inst, empty) := TestEmpty(s.inst);
      s.(inst := inst, drainers := left, submitting := if empty then s.submitting else s.submitting + 1)
  }

  predicate IsRun(s: State, ls: seq<Label>)
    decreases |ls|
  {
    ls == [] || (Enabled(s, ls[0]) && IsRun(Apply(s, ls[0]), ls[1..]))
  }

  function Execute(s: State, ls: seq<Label>): State
    requires IsRun(s, ls)
    decreases |ls|
  {
    if ls == [] then s else Execute(Apply(s, ls[0]), ls[1..])
  }

  ghost predicate Reachable(s: State) {
    exists s0, ls :: Init(s0) && IsRun(s0, ls) && Execute(s0, ls) == s
  }

  // ---- the invariant ----

  /** Outstanding drains: about to be submitted, submitted, or draining. */
  function Tokens(s: State): nat { s.submitting + s.pending + |s.drainers| }

  // What a drainer has taken from the queue and not completed, in order.
  function InHand(d: Drainer): seq<Task> {
    match d
    case Working(local, Some(f)) => [f] + local
    case Working(local, None) => local
    case _ => []
  }

  function AllInHand(s: State): seq<Task> {
    if |s.drainers| == 1 then InHand(s.drainers[0]) else []
  }

  predicate Inv(s: State) {
    && Tokens(s) == (if s.inst.running then 1 else 0)
    && (!s.inst.running ==> s.inst.queue == [])
    && (s.inst.running && (s.drainers == [] || s.drainers[0].Taking?) ==> s.inst.queue != [])
    && s.log == s.executed + AllInHand(s) + s.inst.queue
    && !s.fault
  }

  lemma KeepEnqueue(s: State, f: Task)
    requires Inv(s)
    ensures Inv(Apply(s, Enqueue(f)))
  {
    assert s.log + [f] == s.executed + AllInHand(s) + (s.inst.queue + [f]);
  }

  lemma KeepTaking(s: State)
    requires Inv(s) && |s.drainers| == 1 && s.drainers[0].Taking?
    ensures Inv(StepDrainer(s, 0))
  {
    assert s.inst.queue == [s.inst.queue[0]] + s.inst.queue[1..];
    var s' := StepDrainer(s, 0);
    assert AllInHand(s') + s'.inst.queue == s.inst.queue;
    assert s.executed + [] + s.inst.queue == s.executed + AllInHand(s') + s'.inst.queue;
  }

  lemma KeepWorking(s: State)
    requires Inv(s) && |s.drainers| == 1 && s.drainers[0].Working?
    ensures Inv(StepDrainer(s, 0))
  {
    var Working(local, current) := s.drainers[0];
    if current.Some? {
      assert s.log == (s.executed + [current.value]) + local + s.inst.queue;
    } else if local != [] {
      assert local == [local[0]] + local[1..];
    }
  }

  lemma KeepStep(s: State, l: Label)
    requires Inv(s) && Enabled(s, l)
    ensures Inv(Apply(s, l))
  {
    match l
    case Enqueue(f) => KeepEnqueue(s, f);
    case Step(d) =>
      match s.drainers[d] {
        case Taking => KeepTaking(s);
        case Working(_, _) => KeepWorking(s);
        case Checking =>
      }
    case _ =>
  }

  lemma {:induction false} KeepRun(s: State, ls: seq<Label>)
    requires Inv(s) && IsRun(s, ls)
    ensures Inv(Execute(s, ls))
    decreases |ls|
  {
    if ls != [] {
      KeepStep(s, ls[0]);
      KeepRun(Apply(s, ls[0]), ls[1..]);
    }
  }

  lemma ReachableInv(s: State)
    requires Reachable(s)
    ensures Inv(s)
  {
    var s0, ls :| Init(s0) && IsRun(s0, ls) && Execute(s0, ls) == s;
    KeepRun(s0, ls);
  }

  // ---- main results ----

  /** `running` holds exactly when one drain is outstanding; an idle queue is empty; at most one task
      executes at a time; and nothing is ever popped from an empty deque. */
  lemma TokenInvariant(s: State)
    requires Reachable(s)
    ensures s.inst.running <==> Tokens(s) == 1
    ensures !s.inst.running <==> Tokens(s) == 0
    ensures !s.inst.running ==> s.inst.queue == []
    ensures |s.drainers| <= 1
    ensures !s.fault
  {
    ReachableInv(s);
  }

  /** Executed, in flight, taken and queued tasks are the enqueue history, in order. */
  lemma FifoOrder(s: State)
    requires Reachable(s)
    ensures s.log == s.executed + AllInHand(s) + s.inst.queue
    ensures s.executed <= s.log
  {
    ReachableInv(s);
  }

  /** The executor that both modes implement: one task at a time, in the order of the enqueues. */
  datatype Fifo = Fifo(waiting: seq<Task>, current: Option<Task>, executed: seq<Task>)

  predicate FifoNext(a: Fifo, b: Fifo) {
    || (|b.waiting| == |a.waiting| + 1 && b == a.(waiting := b.waiting) && a.waiting <= b.waiting)
    || (a.current == None && a.waiting != [] && b == a.(current := Some(a.waiting[0]), waiting := a.waiting[1..]))
    || (a.current.Some? && b == a.(current := None, executed := a.executed + [a.current.value]))
  }

  function Abstract(s: State): Fifo {
    var hand := AllInHand(s);
    if |s.drainers| == 1 && s.drainers[0].Working? && s.drainers[0].current.Some? then
      Fifo(hand[1..] + s.inst.queue, Some(hand[0]), s.executed)
    else
      Fifo(hand + s.inst.queue, None, s.executed)
  }

  /** In either mode, every step is a step of the FIFO executor or invisible to it. */
  lemma RefinesFifo(s: State, l: Label)
    requires Reachable(s) && Enabled(s, l)
    ensures Abstract(Apply(s, l)) == Abstract(s) || FifoNext(Abstract(s), Abstract(Apply(s, l)))
    ensures l.Enqueue? ==> Abstract(Apply(s, l)).waiting == Abstract(s).waiting + [l.f]
  {
    ReachableInv(s);
    match l
    case Enqueue(f) => EnqueueRefines(s, f);
    case Step(d) =>
      match s.drainers[d] {
        case Taking => assert s.inst.queue == [s.inst.queue[0]] + s.inst.queue[1..];
        case Working(_, _) => WorkRefines(s);
        case Checking =>
      }
    case _ =>
  }

  lemma EnqueueRefines(s: State, f: Task)
    requires Inv(s)
    ensures Abstract(Apply(s, Enqueue(f))) == Abstract(s).(waiting := Abstract(s).waiting + [f])
  {
    var hand := AllInHand(s);
    assert hand + (s.inst.queue + [f]) == (hand + s.inst.queue) + [f];
    if Abstract(s).current.Some? {
      assert hand[1..] + (s.inst.queue + [f]) == (hand[1..] + s.inst.queue) + [f];
    }
  }

  lemma WorkRefines(s: State)
    requires Inv(s) && |s.drainers| == 1 && s.drainers[0].Working?
    ensures Abstract(StepDrainer(s, 0)) == Abstract(s) || FifoNext(Abstract(s), Abstract(StepDrainer(s, 0)))
  {
    var Working(local, current) := s.drainers[0];
    var hand := AllInHand(s);
    if current.Some? {
      assert hand[1..] == local;
    } else if local != [] {
      assert AllInHand(StepDrainer(s, 0))[1..] == local[1..];
      assert (hand + s.inst.queue)[1..] == local[1..] + s.inst.queue;
    }
  }

  // ---- what a drain takes ----

  function Flat(batches: seq<seq<Task>>): seq<Task> {
    if batches == [] then [] else Flat(batches[..|batches| - 1]) + batches[|batches| - 1]
  }

  lemma FlatSnoc(batches: seq<seq<Task>>, batch: seq<Task>)
    ensures Flat(batches + [batch]) == Flat(batches) + batch
  {
    assert (batches + [batch])[..|batches|] == batches;
  }

  lemma {:induction false} FlatOfSingles(batches: seq<seq<Task>>)
    requires forall k :: 0 <= k < |batches| ==> |batches[k]| == 1
    ensures |Flat(batches)| == |batches|
  {
    if batches != [] {
      FlatOfSingles(batches[..|batches| - 1]);
    }
  }

  // What the drains have taken has been executed or is in hand; in mode `Single` each has taken one task.
  predicate BatchesOk(s: State) {
    && s.executed + AllInHand(s) == Flat(s.batches)
    && (s.mode == Single ==> forall k :: 0 <= k < |s.batches| ==> |s.batches[k]| == 1)
    && (s.mode == Single ==> |AllInHand(s)| <= 1)
  }

  lemma KeepBatchesTaking(s: State)
    requires Inv(s) && BatchesOk(s) && |s.drainers| == 1 && s.drainers[0].Taking?
    ensures BatchesOk(StepDrainer(s, 0))
  {
    hide Flat;
    if s.mode == Single {
      FlatSnoc(s.batches, [s.inst.queue[0]]);
    } else {
      FlatSnoc(s.batches, s.inst.queue);
    }
  }

  lemma KeepBatchesWorking(s: State)
    requires Inv(s) && BatchesOk(s) && |s.drainers| == 1 && s.drainers[0].Working?
    ensures BatchesOk(StepDrainer(s, 0))
  {
    hide Flat;
    var Working(local, current) := s.drainers[0];
    if current.Some? {
      assert s.executed + ([current.value] + local) == (s.executed + [current.value]) + local;
    } else if local != [] {
      assert [local[0]] + local[1..] == local;
    }
  }

  lemma KeepBatches(s: State, l: Label)
    requires Inv(s) && BatchesOk(s) && Enabled(s, l)
    ensures BatchesOk(Apply(s, l))
  {
    hide Flat;
    if l.Step? && s.drainers[l.d].Taking? {
      KeepBatchesTaking(s);
    } else if l.Step? && s.drainers[l.d].Working? {
      KeepBatchesWorking(s);
    }
  }

  lemma {:induction false} BatchesOkRun(s: State, ls: seq<Label>)
    requires Inv(s) && BatchesOk(s) && IsRun(s, ls)
    ensures BatchesOk(Execute(s, ls))
    decreases |ls|
  {
    if ls != [] {
      KeepStep(s, ls[0]);
      KeepBatches(s, ls[0]);
      BatchesOkRun(Apply(s, ls[0]), ls[1..]);
    }
  }

  lemma ReachableBatches(s: State)
    requires Reachable(s)
    ensures Inv(s) && BatchesOk(s)
  {
    var s0, ls :| Init(s0) && IsRun(s0, ls) && Execute(s0, ls) == s;
    KeepRun(s0, ls);
    BatchesOkRun(s0, ls);
  }

  /** In mode `Single` a drain takes the oldest task alone: no drain ever has more than one task in hand, and
      as many tasks are executed or in hand as drains have taken one. */
  lemma SingleTakesOne(s: State, d: nat)
    requires Reachable(s) && s.mode == Single
    ensures |s.executed| + |AllInHand(s)| == |s.batches| && |AllInHand(s)| <= 1
    ensures d < |s.drainers| && s.drainers[d].Taking? ==>
              var s' := Apply(s, Step(d));
              && s.inst.queue != [] && s'.inst.queue == s.inst.queue[1..]
              && AllInHand(s') == [s.inst.queue[0]] && s'.batches == s.batches + [[s.inst.queue[0]]]
  {
    ReachableBatches(s);
    FlatOfSingles(s.batches);
  }

  /** In mode `All` a drain takes the whole queue and leaves it empty, and has executed exactly what it took,
      and all that was taken before, when it comes to its check. */
  lemma AllTakesEverything(s: State, d: nat)
    requires Reachable(s) && s.mode == All && d < |s.drainers|
    ensures s.drainers[d].Taking? ==>
              var s' := Apply(s, Step(d));
              && s'.inst.queue == [] && AllInHand(s') == s.inst.queue
              && s'.batches == s.batches + [s.inst.queue]
    ensures s.drainers[d].Checking? ==> s.executed == Flat(s.batches)
  {
    ReachableBatches(s);
  }

  // ---- draining ----

  predicate Internal(l: Label) { !l.Enqueue? }

  function DrainerWork(d: Drainer): nat {
    match d
    case Taking => 1
    case Working(local, current) => 5 + 4 * |local| + (if current.Some? then 3 else 0)
    case Checking => 4
  }

  function Work(s: State): nat {
    10 * |s.inst.queue| + 3 * s.submitting + 2 * s.pending
    + (if |s.drainers| == 1 then DrainerWork(s.drainers[0]) else 0)
  }

  lemma StepDoesWork(s: State, l: Label)
    requires Inv(s) && Enabled(s, l) && Internal(l)
    ensures Work(Apply(s, l)) < Work(s) && Apply(s, l).log == s.log
  {
  }

  ghost predicate Quiet(s: State) {
    forall l: Label :: Internal(l) ==> !Enabled(s, l)
  }

  /** No lost wake-up: when no step is enabled every enqueued task has been executed. */
  lemma QuietIsDrained(s: State)
    requires Reachable(s) && Quiet(s)
    ensures s.executed == s.log && !s.inst.running
  {
    ReachableInv(s);
    assert !Enabled(s, Submit) && !Enabled(s, StartDrain) && !Enabled(s, Step(0));
  }

  /** Draining terminates: once nothing is enqueued, a run is no longer than the work in its first state. */
  lemma {:induction false} DrainTerminates(s: State, ls: seq<Label>)
    requires Inv(s) && IsRun(s, ls) && forall k :: 0 <= k < |ls| ==> Internal(ls[k])
    ensures |ls| + Work(Execute(s, ls)) <= Work(s) && Execute(s, ls).log == s.log
    decreases |ls|
  {
    if ls != [] {
      KeepStep(s, ls[0]);
      StepDoesWork(s, ls[0]);
      DrainTerminates(Apply(s, ls[0]), ls[1..]);
    }
  }

  /** And some run of internal steps does drain the queue, from every reachable state. */
  lemma {:induction false} DrainExists(s: State) returns (ls: seq<Label>)
    requires Inv(s)
    ensures IsRun(s, ls) && (forall k :: 0 <= k < |ls| ==> Internal(ls[k]))
    ensures Execute(s, ls).executed == s.log && !Execute(s, ls).inst.running
    decreases Work(s)
  {
    if Tokens(s) == 0 {
      ls := [];
    } else {
      var l := if s.submitting > 0 then Submit else if s.pending > 0 then StartDrain else Step(0);
      KeepStep(s, l);
      StepDoesWork(s, l);
      var rest := DrainExists(Apply(s, l));
      ls := [l] + rest;
      assert ls[1..] == rest;
    }
  }
}
