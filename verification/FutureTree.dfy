/**
 Trees of `then` and `recover` continuations as a state machine.

 Users attach continuations, copy and drop the handles of root tasks, and run root tasks, at any time
 and from any thread; the executor runs each submitted task once, at any later time and in any order.
 All futures are kept alive.
 */
module FutureTree {

  import opened Wrappers
  import opened FutureState

  datatype Kind =
    | Root(outcome: Outcome)              // a packaged task and what running it yields
    | Then(f: Data -> Outcome)            // the continuation may throw: it yields a value or an error
    | Recover(g: Outcome -> Outcome)

  datatype Forest = Forest(kind: seq<Kind>, parent: seq<nat>)

  ghost predicate WellFormed(t: Forest) {
    && |t.kind| == |t.parent|
    && (forall c :: 0 <= c < |t.kind| && !t.kind[c].Root? ==> t.parent[c] < c)
    && (forall c :: 0 <= c < |t.kind| && t.kind[c].Root? ==> t.parent[c] == c)
  }

  /** What a task yields, given the outcome of its parent: `then` passes an exception through. */
  function Call(k: Kind, up: Outcome): Outcome {
    match k
    case Root(o) => o
    case Then(f) => if up.Error? then up else f(up.data)
    case Recover(g) => g(up)
  }

  // `busy`: the task is being run; `moved`: the continuations its thread has still to dispatch.
  datatype Act = Act(attached: bool, busy: bool, moved: seq<nat>)

  // `handles` counts the packaged_task objects that users hold on each root, apart from what the promise
  // count says; `pending` are the tasks submitted to the executor, `log` every task ever submitted; `broken`
  // are the futures that a dying promise has made ready.
  datatype State = State(
    cells: seq<Shared>,
    acts: seq<Act>,
    handles: seq<nat>,
    pending: seq<nat>,
    log: seq<nat>,
    broken: set<nat>)

  datatype Label =
    | AttachTask(c: nat)
    | CopyHandle(r: nat)
    | DropHandle(r: nat)
    | RunRoot(r: nat)
    | RunTask(k: nat)        // the executor takes the k-th submitted task
    | Proceed(c: nat)
    | Dispatch(c: nat)
    | Finish(c: nat)

  predicate Fresh(f: Shared) {
    !f.ready && f.result == None && f.conts == [] && f.live && f.promises == 1
  }

  ghost predicate Init(t: Forest, s: State) {
    && |s.cells| == |s.acts| == |s.handles| == |t.kind| && s.pending == [] && s.log == [] && s.broken == {}
    && forall c :: 0 <= c < |s.cells| ==>
         && Fresh(s.cells[c]) && s.handles[c] == 1
         && !s.acts[c].busy && s.acts[c].moved == [] && s.acts[c].attached == t.kind[c].Root?
  }

  ghost predicate Typed(t: Forest, s: State) {
    WellFormed(t) && |s.cells| == |s.acts| == |s.handles| == |t.kind|
  }

  predicate Enabled(t: Forest, s: State, l: Label)
    requires |s.cells| == |s.acts| == |s.handles| == |t.kind| == |t.parent|
  {
    match l
    case AttachTask(c) =>
      c < |t.kind| && !t.kind[c].Root? && !s.acts[c].attached
      && t.parent[c] < |t.kind| && s.acts[t.parent[c]].attached
    case CopyHandle(r) => r < |t.kind| && t.kind[r].Root? && s.handles[r] > 0
    // A thread that runs the task keeps the handle through which it does so.
    case DropHandle(r) =>
      r < |t.kind| && t.kind[r].Root? && s.handles[r] > (if s.acts[r].busy then 1 else 0)
    // One invocation at a time; once run, the task has lost its function and does nothing.
    case RunRoot(r) =>
      r < |t.kind| && t.kind[r].Root? && s.handles[r] > 0 && s.cells[r].live && !s.acts[r].busy
    case RunTask(k) => k < |s.pending| && s.pending[k] < |t.kind|
    case Proceed(c) => c < |t.kind| && s.acts[c].busy && !s.cells[c].ready
    case Dispatch(c) => c < |t.kind| && s.acts[c].moved != []
    case Finish(c) => c < |t.kind| && s.acts[c].busy && s.cells[c].ready && s.acts[c].moved == []
  }

  predicate Internal(l: Label) {
    l.RunTask? || l.Proceed? || l.Dispatch? || l.Finish?
  }

  function Put(s: State, c: nat, f: Shared, a: Act): State
    requires c < |s.cells| == |s.acts|
  {
    s.(cells := s.cells[c := f], acts := s.acts[c := a])
  }

  // `get_ready` on the parent; the value read if it is not ready is arbitrary.
  function Read(s: State, p: nat): Outcome
    requires p < |s.cells|
  {
    if s.cells[p].result.Some? then s.cells[p].result.value else Error(BrokenPromise)
  }

  // The task computes its result, outside any critical section.
  function Compute(t: Forest, s: State, c: nat): State
    requires |s.cells| == |s.acts| == |t.kind| == |t.parent| && c < |s.cells| && t.parent[c] < |s.cells|
  {
    if !s.cells[c].live then s
    else Put(s, c, s.cells[c].(result := Some(Call(t.kind[c], Read(s, t.parent[c])))), s.acts[c].(busy := true))
  }

  ghost function Apply(t: Forest, s: State, l: Label): (s': State)
    requires Typed(t, s) && Enabled(t, s, l)
    ensures Typed(t, s')
  {
    match l
    case AttachTask(c) =>
      var (up, ready) := Attach(s.cells[t.parent[c]], c);
      s.(cells := s.cells[t.parent[c] := up], acts := s.acts[c := s.acts[c].(attached := true)],
         pending := if ready then s.pending + [c] else s.pending,
         log := if ready then s.log + [c] else s.log)
    case CopyHandle(r) =>
      s.(cells := s.cells[r := s.cells[r].(promises := s.cells[r].promises + 1)],
         handles := s.handles[r := s.handles[r] + 1])
    case DropHandle(r) =>
      var last := s.cells[r].promises == 1 && !s.cells[r].ready;
      s.(cells := RemovePromise(s.cells, r),
         handles := s.handles[r := s.handles[r] - 1],
         broken := if last then s.broken + Family(t, s, r) else s.broken)
    case RunRoot(r) => Compute(t, s, r)
    case RunTask(k) => Compute(t, s.(pending := s.pending[..k] + s.pending[k + 1..]), s.pending[k])
    case Proceed(c) =>
      var (f, moved) := Publish(s.cells[c]);
      Put(s, c, f, s.acts[c].(moved := moved))
    case Dispatch(c) =>
      var d := s.acts[c].moved[0];
      s.(acts := s.acts[c := s.acts[c].(moved := s.acts[c].moved[1..])],
         pending := s.pending + [d], log := s.log + [d])
    case Finish(c) =>
      // The function is cleared; the executor then destroys its task, the user keeps that of a root.
      var f := s.cells[c].(live := false);
      var left := if f.promises > 0 then f.promises - 1 else 0;
      Put(s, c, if t.kind[c].Root? then f else f.(promises := left), s.acts[c].(busy := false))
  }

  ghost function Family(t: Forest, s: State, r: nat): set<nat>
    requires |t.parent| == |s.cells|
  {
    set c | 0 <= c < |s.cells| && Doomed(t.parent, s.cells, r, c)
  }

  ghost predicate IsRun(t: Forest, s: State, ls: seq<Label>)
    requires Typed(t, s)
    decreases |ls|
  {
    ls == [] || (Enabled(t, s, ls[0]) && IsRun(t, Apply(t, s, ls[0]), ls[1..]))
  }

  ghost function Execute(t: Forest, s: State, ls: seq<Label>): (s': State)
    requires Typed(t, s) && IsRun(t, s, ls)
    ensures Typed(t, s')
    decreases |ls|
  {
    if ls == [] then s else Execute(t, Apply(t, s, ls[0]), ls[1..])
  }

  ghost predicate Reachable(t: Forest, s: State) {
    WellFormed(t) && exists s0: State, ls :: Init(t, s0) && IsRun(t, s0, ls) && Execute(t, s0, ls) == s
  }

  // ---- the meaning of a tree ----

  /** Direct sequential evaluation, where the futures in `broken` hold a broken promise. */
  ghost function Eval(t: Forest, broken: set<nat>, c: nat): Outcome
    requires WellFormed(t) && c < |t.kind|
    decreases c
  {
    if c in broken then Error(BrokenPromise)
    else if t.kind[c].Root? then t.kind[c].outcome
    else Call(t.kind[c], Eval(t, broken, t.parent[c]))
  }
}
