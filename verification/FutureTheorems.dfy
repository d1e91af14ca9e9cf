/** Schedule independence, exactly-once dispatch, and broken promises. */
module FutureTheorems {

  import opened Wrappers
  import opened FutureState
  import opened FutureTree
  import opened FutureInvariant

  // ---- confluence ----

  /** No future on the way from `c` up to its root was broken. */
  ghost predicate Unbroken(t: Forest, broken: set<nat>, c: nat)
    requires WellFormed(t) && c < |t.kind|
    decreases c
  {
    c !in broken && (t.kind[c].Root? || Unbroken(t, broken, t.parent[c]))
  }

  lemma {:induction false} UnbrokenEval(t: Forest, broken: set<nat>, c: nat)
    requires WellFormed(t) && c < |t.kind| && Unbroken(t, broken, c)
    ensures Eval(t, broken, c) == Eval(t, {}, c)
    decreases c
  {
    if !t.kind[c].Root? {
      UnbrokenEval(t, broken, t.parent[c]);
    }
  }

  /** Whatever the schedule, a ready future holds the outcome of direct sequential evaluation. */
  lemma Confluent(t: Forest, s: State, c: nat)
    requires Reachable(t, s) && c < |s.cells| && s.cells[c].ready
    ensures s.cells[c].result == Some(Eval(t, s.broken, c))
    ensures Unbroken(t, s.broken, c) ==> s.cells[c].result == Some(Eval(t, {}, c))
  {
    ReachableInv(t, s);
    assert NodeInv(t, s, c) && ValueInv(t, s, c);
    if Unbroken(t, s.broken, c) {
      UnbrokenEval(t, s.broken, c);
    }
  }

  /** What each task makes of its parent's outcome, in every reachable state: a root yields its own; a
      `recover` continuation is called with the outcome whatever it is; a `then` continuation is called with a
      value, and passes an exception on. */
  lemma ContinuationLaw(t: Forest, s: State, c: nat)
    requires Reachable(t, s) && Typed(t, s) && c < |s.cells| && s.cells[c].ready && c !in s.broken
    ensures t.kind[c].Root? ==> s.cells[c].result == Some(t.kind[c].outcome)
    ensures !t.kind[c].Root? ==>
              && s.cells[t.parent[c]].ready && s.cells[t.parent[c]].result.Some?
              && var o := s.cells[t.parent[c]].result.value;
              && (t.kind[c].Recover? ==> s.cells[c].result == Some(t.kind[c].g(o)))
              && (t.kind[c].Then? && o.Value? ==> s.cells[c].result == Some(t.kind[c].f(o.data)))
              && (t.kind[c].Then? && o.Error? ==> s.cells[c].result == Some(o))
  {
    ReachableInv(t, s);
    Confluent(t, s, c);
    if !t.kind[c].Root? {
      At(t, s, c);
      Confluent(t, s, t.parent[c]);
    }
  }

  /** Only `then` continuations lie between `x` and `c`. */
  ghost predicate OnlyThens(t: Forest, x: nat, c: nat)
    requires WellFormed(t) && c < |t.kind|
    decreases c
  {
    c == x || (t.kind[c].Then? && OnlyThens(t, x, t.parent[c]))
  }

  /** An exception reaches every future below it unchanged, if only `then` lies between. */
  lemma {:induction false} ExceptionPasses(t: Forest, s: State, x: nat, c: nat, e: Exception)
    requires Reachable(t, s) && Typed(t, s) && x < |s.cells| && c < |s.cells| && OnlyThens(t, x, c)
    requires s.cells[x].ready && s.cells[x].result == Some(Error(e)) && s.cells[c].ready
    ensures s.cells[c].result == Some(Error(e))
    decreases c
  {
    if c != x {
      ReachableInv(t, s);
      At(t, s, c);
      At(t, s, t.parent[c]);
      if c in s.broken {
        Confluent(t, s, c);
      } else {
        ContinuationLaw(t, s, c);
      }
      ExceptionPasses(t, s, x, t.parent[c], e);
      if c in s.broken {
        Confluent(t, s, t.parent[c]);
      }
    }
  }

  /** And the first `recover` below it is called with exactly that exception. */
  lemma FirstRecoverSees(t: Forest, s: State, x: nat, c: nat, e: Exception)
    requires Reachable(t, s) && Typed(t, s) && x < |s.cells| && c < |s.cells|
    requires t.kind[c].Recover? && OnlyThens(t, x, t.parent[c])
    requires s.cells[x].ready && s.cells[x].result == Some(Error(e)) && s.cells[c].ready && c !in s.broken
    ensures s.cells[c].result == Some(t.kind[c].g(Error(e)))
  {
    ContinuationLaw(t, s, c);
    ExceptionPasses(t, s, x, t.parent[c], e);
  }

  /** Two runs that break the same promises agree on every future that both have resolved. */
  lemma SchedulesAgree(t: Forest, s1: State, s2: State, c: nat)
    requires Reachable(t, s1) && Reachable(t, s2) && s1.broken == s2.broken
    requires c < |t.kind| == |s1.cells| == |s2.cells| && s1.cells[c].ready && s2.cells[c].ready
    ensures s1.cells[c].result == s2.cells[c].result
  {
    Confluent(t, s1, c);
    Confluent(t, s2, c);
  }

  // ---- dispatch ----

  /** A continuation is submitted at most once, never before its parent is ready, and exactly once if it
      was resolved by being run. */
  lemma DispatchedOnce(t: Forest, s: State, c: nat)
    requires Reachable(t, s) && c < |s.cells| && !t.kind[c].Root?
    ensures multiset(s.log)[c] <= 1
    ensures multiset(s.log)[c] == 1 ==> s.cells[t.parent[c]].ready
    ensures s.cells[c].ready && c !in s.broken ==> multiset(s.log)[c] == 1
    ensures c in s.broken ==> multiset(s.log)[c] == 0
  {
    ReachableInv(t, s);
    assert ContInv(t, s, c) && NodeInv(t, s, c);
  }

  /** `get_ready` is never called before its future is ready. */
  lemma GetReadyIsReady(t: Forest, s: State, k: nat)
    requires Reachable(t, s) && Typed(t, s) && Enabled(t, s, RunTask(k))
    ensures s.cells[t.parent[s.pending[k]]].ready
  {
    ReachableInv(t, s);
    ParentReady(t, s, k);
  }

  // The continuations that a run attaches to future `p`, in order.
  function AttachedTo(t: Forest, ls: seq<Label>, p: nat): seq<nat> {
    if ls == [] then []
    else
      (if ls[0].AttachTask? && ls[0].c < |t.parent| && t.parent[ls[0].c] == p then [ls[0].c] else [])
      + AttachedTo(t, ls[1..], p)
  }

  lemma StepKeepsWaiters(t: Forest, s: State, l: Label, p: nat)
    requires Inv(t, s) && Enabled(t, s, l) && p < |s.cells| && !Apply(t, s, l).cells[p].ready
    ensures !s.cells[p].ready
    ensures Apply(t, s, l).cells[p].conts
         == s.cells[p].conts + (if l.AttachTask? && t.parent[l.c] == p then [l.c] else [])
  {
    hide NodeInv, ContInv, ValueInv, Doomed;
    if l.DropHandle? && LastHandle(t, s, l.r) {
      BreakIsExact(t, s, l.r);
    } else if l.DropHandle? {
      assert s.cells[l.r].promises == s.handles[l.r];
    }
  }

  /** While a future is not ready, the continuations that wait for it are those attached to it, in order. */
  lemma {:induction false} WaitersInOrder(t: Forest, s: State, ls: seq<Label>, p: nat)
    requires Inv(t, s) && IsRun(t, s, ls) && p < |s.cells| && !Execute(t, s, ls).cells[p].ready
    ensures !s.cells[p].ready && Execute(t, s, ls).cells[p].conts == s.cells[p].conts + AttachedTo(t, ls, p)
    decreases |ls|
  {
    if ls != [] {
      KeepStep(t, s, ls[0]);
      assert Typed(t, Apply(t, s, ls[0])) && |Apply(t, s, ls[0]).cells| == |s.cells|;
      WaitersInOrder(t, Apply(t, s, ls[0]), ls[1..], p);
      StepKeepsWaiters(t, s, ls[0], p);
    }
  }

  /** The thread that resolved a future submits its continuations in that order, one after the other. */
  lemma DispatchedInOrder(t: Forest, s: State, c: nat)
    requires Reachable(t, s) && Typed(t, s) && Enabled(t, s, Dispatch(c))
    ensures var s' := Apply(t, s, Dispatch(c));
            && |s'.log| == |s.log| + 1 && s.log <= s'.log && s'.log[|s.log|] in s'.pending
            && s.acts[c].moved == [s'.log[|s.log|]] + s'.acts[c].moved
  {}

  // ---- broken promises ----

  /** The promise count is the number of live handles: what the users hold on a root, and the one handle of
      a continuation wherever it is. */
  lemma PromiseCountIsHandles(t: Forest, s: State, c: nat)
    requires Reachable(t, s) && c < |s.cells| && s.acts[c].attached
    ensures s.cells[c].promises
         == if t.kind[c].Root? then s.handles[c]
            else Waiting(t, s, c) + Moved(t, s, c) + multiset(s.pending)[c] + Bit(s.acts[c].busy)
  {
    ReachableInv(t, s);
    assert NodeInv(t, s, c);
    if !t.kind[c].Root? {
      assert ContInv(t, s, c);
    }
  }

  function Times(ls: seq<Label>, l: Label): nat {
    if ls == [] then 0 else (if ls[0] == l then 1 else 0) + Times(ls[1..], l)
  }

  /** The handles that users hold on a root are those they have copied, less those they have dropped. */
  lemma {:induction false} HandlesAreHistory(t: Forest, s: State, ls: seq<Label>, r: nat)
    requires Typed(t, s) && IsRun(t, s, ls) && r < |s.handles|
    ensures Execute(t, s, ls).handles[r] + Times(ls, DropHandle(r)) == s.handles[r] + Times(ls, CopyHandle(r))
    decreases |ls|
  {
    if ls != [] {
      var s' := Apply(t, s, ls[0]);
      assert s'.handles[r] == s.handles[r] + (if ls[0] == CopyHandle(r) then 1 else 0)
                                           - (if ls[0] == DropHandle(r) then 1 else 0);
      hide Apply, Enabled;
      HandlesAreHistory(t, s', ls[1..], r);
    }
  }

  /** Running a root that has not been run resolves it with its outcome, and not running it does not. */
  lemma RunResolves(t: Forest, s: State, r: nat)
    requires Reachable(t, s) && Typed(t, s) && Enabled(t, s, RunRoot(r))
    ensures !s.cells[r].ready && Enabled(t, Apply(t, s, RunRoot(r)), Proceed(r))
    ensures var s' := Apply(t, Apply(t, s, RunRoot(r)), Proceed(r));
            && s'.cells[r].ready && s'.cells[r].result == Some(t.kind[r].outcome)
            && s'.acts[r].moved == s.cells[r].conts && s'.cells[r].conts == []
  {
    ReachableInv(t, s);
    At(t, s, r);
  }

  ghost predicate Descendant(t: Forest, r: nat, c: nat)
    requires WellFormed(t) && c < |t.kind|
    decreases c
  {
    c == r || (!t.kind[c].Root? && Descendant(t, r, t.parent[c]))
  }

  // Everything attached below a root that has not been run is waiting for it.
  lemma {:induction false} DescendantsWait(t: Forest, s: State, r: nat, c: nat)
    requires Inv(t, s) && c < |s.cells| && r < |s.cells| && Descendant(t, r, c) && s.acts[c].attached
    requires t.kind[r].Root? && s.cells[r].live && !s.acts[r].busy
    ensures Doomed(t.parent, s.cells, r, c)
    decreases c
  {
    if c != r {
      var p := t.parent[c];
      assert ContInv(t, s, c) && NodeInv(t, s, c);
      DescendantsWait(t, s, r, p);
      DoomedIsUnrun(t, s, r, p);
      DoomedAbove(t.parent, s.cells, r, p);
      assert NodeInv(t, s, p);
      assert Moved(t, s, c) == 0;
      assert c in multiset(s.cells[p].conts);
    }
  }

  /** When the last handle of an unrun task dies, every future attached below it, at any depth, becomes
      ready with a broken promise and has lost its continuations; no other future is touched. */
  lemma BrokenPromiseCascades(t: Forest, s: State, r: nat, c: nat)
    requires Reachable(t, s) && Typed(t, s) && LastHandle(t, s, r) && c < |s.cells|
    ensures var s' := Apply(t, s, DropHandle(r));
            if Descendant(t, r, c) && s.acts[c].attached then
              && s'.cells[c].ready && s'.cells[c].result == Some(Error(BrokenPromise))
              && s'.cells[c].conts == [] && !s'.cells[c].live
            else
              s'.cells[c] == s.cells[c]
  {
    ReachableInv(t, s);
    BreakIsExact(t, s, r);
    if Descendant(t, r, c) && s.acts[c].attached {
      DescendantsWait(t, s, r, c);
    } else if Doomed(t.parent, s.cells, r, c) {
      DoomedIsUnrun(t, s, r, c);
      DoomedDescends(t, s, r, c);
    }
  }

  lemma {:induction false} DoomedDescends(t: Forest, s: State, r: nat, c: nat)
    requires Inv(t, s) && r < |s.cells| && c < |s.cells| && Doomed(t.parent, s.cells, r, c)
    ensures Descendant(t, r, c)
    decreases c
  {
    if c != r {
      WaitingIsUnrun(t, s, t.parent[c], c);
      DoomedDescends(t, s, r, t.parent[c]);
    }
  }

  // ---- draining ----

  function Steps(f: Shared, a: Act, submitted: bool): nat {
    if !f.live then 0
    else if a.busy then (if f.ready then 1 else 2)
    else if submitted then 3
    else 4
  }

  ghost function WorkFrom(t: Forest, s: State, k: nat): nat
    requires Typed(t, s)
    decreases |s.cells| - k
  {
    if k >= |s.cells| then 0
    else Steps(s.cells[k], s.acts[k], k in s.pending) + WorkFrom(t, s, k + 1)
  }

  /** A bound on the number of internal steps still to come. */
  ghost function Work(t: Forest, s: State): nat
    requires Typed(t, s)
  {
    WorkFrom(t, s, 0)
  }

  lemma {:induction false} OneStepOnce(t: Forest, s: State, s': State, c: nat, k: nat)
    requires Typed(t, s) && Typed(t, s') && c < |s.cells|
    requires Steps(s'.cells[c], s'.acts[c], c in s'.pending) < Steps(s.cells[c], s.acts[c], c in s.pending)
    requires forall d :: 0 <= d < |s.cells| && d != c ==>
               Steps(s'.cells[d], s'.acts[d], d in s'.pending) == Steps(s.cells[d], s.acts[d], d in s.pending)
    ensures if k <= c then WorkFrom(t, s', k) < WorkFrom(t, s, k) else WorkFrom(t, s', k) == WorkFrom(t, s, k)
    decreases |s.cells| - k
  {
    if k < |s.cells| {
      OneStepOnce(t, s, s', c, k + 1);
    }
  }

  lemma RunTaskWorks(t: Forest, s: State, k: nat)
    requires Inv(t, s) && Enabled(t, s, RunTask(k))
    ensures Work(t, Apply(t, s, RunTask(k))) < Work(t, s)
  {
    var s' := Apply(t, s, RunTask(k));
    var c := s.pending[k];
    ParentReady(t, s, k);
    assert c in multiset(s.pending);
    hide Inv;
    forall d | 0 <= d < |s.cells| && d != c ensures d in s'.pending <==> d in s.pending {
      RemoveAt(s.pending, k);
      assert d in multiset(s.pending) <==> d in multiset(s.pending[..k] + s.pending[k + 1..]);
    }
    OneStepOnce(t, s, s', c, 0);
  }

  lemma DispatchWorks(t: Forest, s: State, c: nat)
    requires Inv(t, s) && Enabled(t, s, Dispatch(c))
    ensures Work(t, Apply(t, s, Dispatch(c))) < Work(t, s)
  {
    var s' := Apply(t, s, Dispatch(c));
    var d := s.acts[c].moved[0];
    assert NodeInv(t, s, c) && d in s.acts[c].moved && Belongs(t, c, d);
    assert d in multiset(s.acts[c].moved);
    assert ContInv(t, s, d) && NodeInv(t, s, d);
    assert d !in multiset(s.pending);
    hide Inv;
    forall x | 0 <= x < |s.cells| && x != d ensures x in s'.pending <==> x in s.pending {}
    assert d in s'.pending;
    OneStepOnce(t, s, s', d, 0);
  }

  /** Every internal step strictly decreases the remaining work. */
  lemma StepDoesWork(t: Forest, s: State, l: Label)
    requires Inv(t, s) && Enabled(t, s, l) && Internal(l)
    ensures Work(t, Apply(t, s, l)) < Work(t, s)
  {
    match l
    case RunTask(k) => RunTaskWorks(t, s, k);
    case Dispatch(c) => DispatchWorks(t, s, c);
    case Proceed(c) =>
      assert NodeInv(t, s, c);
      hide Inv;
      OneStepOnce(t, s, Apply(t, s, l), c, 0);
    case Finish(c) =>
      assert NodeInv(t, s, c);
      hide Inv;
      OneStepOnce(t, s, Apply(t, s, l), c, 0);
  }

  lemma {:induction false} DrainTerminates(t: Forest, s: State, ls: seq<Label>)
    requires Inv(t, s) && IsRun(t, s, ls) && forall k :: 0 <= k < |ls| ==> Internal(ls[k])
    ensures |ls| + Work(t, Execute(t, s, ls)) <= Work(t, s)
    decreases |ls|
  {
    if ls != [] {
      KeepStep(t, s, ls[0]);
      StepDoesWork(t, s, ls[0]);
      hide Inv, Apply, Work;
      DrainTerminates(t, Apply(t, s, ls[0]), ls[1..]);
    }
  }

  ghost predicate Quiet(t: Forest, s: State)
    requires Typed(t, s)
  {
    forall l: Label :: Internal(l) ==> !Enabled(t, s, l)
  }

  lemma QuietAt(t: Forest, s: State, c: nat)
    requires Inv(t, s) && Quiet(t, s) && c < |s.cells|
    ensures s.pending == [] && s.acts[c].moved == [] && !s.acts[c].busy
  {
    hide NodeInv, ContInv, ValueInv, HandlesOk;
    assert s.pending != [] ==> s.pending[0] in s.pending;
    assert !Enabled(t, s, Dispatch(c)) && !Enabled(t, s, Proceed(c)) && !Enabled(t, s, Finish(c));
    assert !Enabled(t, s, RunTask(0));
  }

  // A continuation that is in nobody's hands below a ready parent has been resolved.
  lemma QuietBelow(t: Forest, s: State, c: nat)
    requires Typed(t, s) && c < |s.cells| && !t.kind[c].Root? && s.acts[c].attached
    requires NodeInv(t, s, c) && ContInv(t, s, c) && NodeInv(t, s, t.parent[c]) && s.cells[t.parent[c]].ready
    requires s.pending == [] && s.acts[t.parent[c]].moved == [] && !s.acts[c].busy
    ensures s.cells[c].ready
  {
    assert Waiting(t, s, c) == 0 && Moved(t, s, c) == 0 && multiset(s.pending)[c] == 0;
  }

  /** When no step is enabled, every future attached below a ready one is ready, whatever the order in
      which continuations were attached and tasks were run. */
  lemma {:induction false} QuietIsResolved(t: Forest, s: State, r: nat, c: nat)
    requires Reachable(t, s) && Typed(t, s) && Quiet(t, s) && c < |s.cells| && r < |s.cells|
    requires Descendant(t, r, c) && s.acts[c].attached && s.cells[r].ready
    ensures s.cells[c].ready
    decreases c
  {
    if c != r {
      var p := t.parent[c];
      hide Reachable, Inv, NodeInv, ValueInv, Quiet;
      ReachableInv(t, s);
      At(t, s, c);
      At(t, s, p);
      AttachedAbove(t, s, c);
      QuietIsResolved(t, s, r, p);
      QuietAt(t, s, c);
      QuietAt(t, s, p);
      QuietBelow(t, s, c);
    }
  }

  lemma AttachedAbove(t: Forest, s: State, c: nat)
    requires Inv(t, s) && c < |s.cells| && !t.kind[c].Root? && s.acts[c].attached
    ensures s.acts[t.parent[c]].attached
  {
    assert ContInv(t, s, c);
  }

  // ---- a broken promise is seen only by continuations attached too late ----

  /** What the continuations below `x` on the way to `c` make of a broken promise at `x`. */
  ghost function Through(t: Forest, x: nat, c: nat): Outcome
    requires WellFormed(t) && c < |t.kind| && Descendant(t, x, c)
    decreases c
  {
    if c == x then Error(BrokenPromise) else Call(t.kind[c], Through(t, x, t.parent[c]))
  }

  lemma {:induction false} DescendantIsAfter(t: Forest, r: nat, c: nat)
    requires WellFormed(t) && c < |t.kind| && Descendant(t, r, c)
    ensures r <= c
    decreases c
  {
    if c != r {
      DescendantIsAfter(t, r, t.parent[c]);
    }
  }

  // Below a broken root the outcome is decided by the last future on the way that is itself broken.
  lemma {:induction false} EvalThrough(t: Forest, broken: set<nat>, r: nat, c: nat) returns (x: nat)
    requires WellFormed(t) && c < |t.kind| && Descendant(t, r, c) && r in broken
    ensures x < |t.kind| && Descendant(t, r, x) && Descendant(t, x, c)
    ensures Eval(t, broken, c) == Through(t, x, c)
    decreases c
  {
    if c in broken {
      x := c;
    } else {
      x := EvalThrough(t, broken, r, t.parent[c]);
      DescendantIsAfter(t, x, t.parent[c]);
    }
  }

  ghost predicate On(t: Forest, s: State) {
    Typed(t, s) && Reachable(t, s)
  }

  lemma Go(t: Forest, s: State, l: Label) returns (s': State)
    requires On(t, s) && Enabled(t, s, l)
    ensures s' == Apply(t, s, l) && On(t, s')
  {
    hide Apply;
    s' := Apply(t, s, l);
    var s0: State, ls :| Init(t, s0) && IsRun(t, s0, ls) && Execute(t, s0, ls) == s;
    Snoc(t, s0, ls, l);
  }

  lemma {:induction false} Snoc(t: Forest, s: State, ls: seq<Label>, l: Label)
    requires Typed(t, s) && IsRun(t, s, ls) && Enabled(t, Execute(t, s, ls), l)
    ensures IsRun(t, s, ls + [l]) && Execute(t, s, ls + [l]) == Apply(t, Execute(t, s, ls), l)
    decreases |ls|
  {
    hide Apply;
    if ls == [] {
      assert [l][1..] == [];
      assert ls + [l] == [l];
    } else {
      assert (ls + [l])[1..] == ls[1..] + [l];
      Snoc(t, Apply(t, s, ls[0]), ls[1..], l);
    }
  }

  predicate Untouched(t: Forest, s: State, d: nat)
    requires d < |s.cells| == |s.acts| == |t.kind|
  {
    Fresh(s.cells[d]) && !s.acts[d].busy && s.acts[d].moved == [] && s.acts[d].attached == t.kind[d].Root?
  }

  ghost predicate UntouchedAfter(t: Forest, s: State, m: nat)
    requires Typed(t, s)
  {
    forall d :: m < d < |s.cells| ==> Untouched(t, s, d)
  }

  // Continuations are attached, and nothing else has happened.
  ghost predicate Dormant(t: Forest, s: State) {
    && On(t, s) && s.pending == [] && s.broken == {}
    && forall d :: 0 <= d < |s.cells| ==> !s.cells[d].ready && !s.acts[d].busy && s.handles[d] == 1
  }

  lemma AttachOne(t: Forest, s: State, x: nat) returns (s': State)
    requires Dormant(t, s) && x < |t.kind| && !t.kind[x].Root?
    requires s.acts[t.parent[x]].attached && UntouchedAfter(t, s, t.parent[x])
    ensures Dormant(t, s') && s'.acts[x].attached && UntouchedAfter(t, s', x)
  {
    hide Reachable;
    assert Untouched(t, s, x);
    s' := Go(t, s, AttachTask(x));
    forall d | x < d < |s.cells| ensures Untouched(t, s', d) {
      assert Untouched(t, s, d);
    }
  }

  /** The way from `r` down to `x` is attached. */
  lemma {:induction false} AttachTo(t: Forest, s: State, r: nat, x: nat) returns (s': State)
    requires Dormant(t, s) && (forall d :: 0 <= d < |s.cells| ==> Untouched(t, s, d))
    requires r < |t.kind| && t.kind[r].Root? && x < |t.kind| && Descendant(t, r, x)
    ensures Dormant(t, s') && s'.acts[x].attached && UntouchedAfter(t, s', x)
    decreases x
  {
    if x == r {
      assert Untouched(t, s, r);
      s' := s;
    } else {
      hide Dormant;
      s' := AttachTo(t, s, r, t.parent[x]);
      s' := AttachOne(t, s', x);
    }
  }

  // A future whose outcome is known and to which nothing below is attached.
  ghost predicate Settled(t: Forest, s: State, c: nat, o: Outcome)
    requires c < |t.kind|
  {
    && On(t, s) && s.pending == [] && UntouchedAfter(t, s, c)
    && s.cells[c].ready && s.cells[c].result == Some(o) && s.acts[c].attached
  }

  /** The root dies: everything attached by now is broken. */
  lemma BreakDown(t: Forest, s: State, r: nat, x: nat) returns (s': State)
    requires Dormant(t, s) && r < |t.kind| && t.kind[r].Root? && x < |t.kind| && Descendant(t, r, x)
    requires s.acts[x].attached && UntouchedAfter(t, s, x)
    ensures Settled(t, s', x, Error(BrokenPromise)) && r in s'.broken
  {
    hide Reachable, Inv;
    assert LastHandle(t, s, r);
    ReachableInv(t, s);
    BreakIsExact(t, s, r);
    s' := Go(t, s, DropHandle(r));
    BrokenPromiseCascades(t, s, r, x);
    forall d | x < d < |s.cells| ensures Untouched(t, s', d) {
      assert Untouched(t, s, d);
      DescendantIsAfter(t, r, x);
      BrokenPromiseCascades(t, s, r, d);
    }
  }

  lemma RunOne(t: Forest, s: State, c: nat, o: Outcome) returns (s': State)
    requires WellFormed(t) && c < |t.kind| && !t.kind[c].Root? && Settled(t, s, t.parent[c], o)
    ensures Settled(t, s', c, Call(t.kind[c], o)) && s'.broken == s.broken
  {
    hide Reachable, Call;
    assert Untouched(t, s, c);
    var s1 := Go(t, s, AttachTask(c));
    assert s1.pending == [c];
    var s2 := Go(t, s1, RunTask(0));
    assert s2.pending == [] && s2.cells[c].result == Some(Call(t.kind[c], o));
    s' := Go(t, s2, Proceed(c));
    forall d | c < d < |s.cells| ensures Untouched(t, s', d) {
      assert Untouched(t, s, d);
    }
  }

  /** The rest of the way is attached to what is broken already, and runs. */
  lemma {:induction false} RunDown(t: Forest, s: State, x: nat, c: nat) returns (s': State)
    requires WellFormed(t) && x < |t.kind| && c < |t.kind| && Descendant(t, x, c)
    requires Settled(t, s, x, Error(BrokenPromise))
    ensures Settled(t, s', c, Through(t, x, c)) && s'.broken == s.broken
    decreases c
  {
    if c == x {
      s' := s;
    } else {
      hide Settled;
      DescendantIsAfter(t, x, t.parent[c]);
      s' := RunDown(t, s, x, t.parent[c]);
      s' := RunOne(t, s', c, Through(t, x, t.parent[c]));
    }
  }

  lemma Beginning(t: Forest) returns (s: State)
    requires WellFormed(t)
    ensures Dormant(t, s) && forall d :: 0 <= d < |s.cells| ==> Untouched(t, s, d)
  {
    var n := |t.kind|;
    s := State(
      seq(n, _ => Shared(false, None, [], true, 1)),
      seq(n, c requires 0 <= c < n => Act(t.kind[c].Root?, false, [])),
      seq(n, _ => 1), [], [], {});
    assert Init(t, s) && IsRun(t, s, []) && Execute(t, s, []) == s;
  }

  /** A run in which the promise of `r` breaks when everything down to `x` is attached and nothing below. */
  lemma BreaksAt(t: Forest, r: nat, x: nat, c: nat) returns (s: State)
    requires WellFormed(t) && r < |t.kind| && t.kind[r].Root? && x < |t.kind| && c < |t.kind|
    requires Descendant(t, r, x) && Descendant(t, x, c)
    ensures BrokenRun(t, s, r, c) && s.cells[c].result == Some(Through(t, x, c))
  {
    s := Beginning(t);
    s := AttachTo(t, s, r, x);
    s := BreakDown(t, s, r, x);
    s := RunDown(t, s, x, c);
  }

  ghost predicate BrokenRun(t: Forest, s: State, r: nat, c: nat)
    requires WellFormed(t) && c < |t.kind|
  {
    Reachable(t, s) && |s.cells| == |t.kind| && s.cells[c].ready && r in s.broken
  }

  /** All runs in which the promise of root `r` breaks give future `c` the same outcome. */
  ghost predicate OneOutcome(t: Forest, r: nat, c: nat)
    requires WellFormed(t) && c < |t.kind|
  {
    forall s1, s2 :: BrokenRun(t, s1, r, c) && BrokenRun(t, s2, r, c) ==> s1.cells[c].result == s2.cells[c].result
  }

  lemma ThroughNothing(t: Forest, c: nat)
    requires WellFormed(t) && c < |t.kind|
    ensures Descendant(t, c, c) && Through(t, c, c) == Error(BrokenPromise)
  {}

  lemma BrokenSomewhere(t: Forest, s: State, r: nat, c: nat) returns (x: nat)
    requires WellFormed(t) && c < |t.kind| && Descendant(t, r, c) && BrokenRun(t, s, r, c)
    ensures x < |t.kind| && Descendant(t, r, x) && Descendant(t, x, c) && s.cells[c].result == Some(Through(t, x, c))
  {
    Confluent(t, s, c);
    x := EvalThrough(t, s.broken, r, c);
  }

  /** In any forest, the outcome of a future below a root whose promise breaks is independent of the schedule
      exactly if, from every future on the way on, the remaining continuations map a broken promise to
      itself: those attached before the break are destroyed unrun, those attached after it are run. */
  lemma BrokenPromiseIsRacy(t: Forest, r: nat, c: nat)
    requires WellFormed(t) && r < |t.kind| && t.kind[r].Root? && c < |t.kind| && Descendant(t, r, c)
    ensures OneOutcome(t, r, c) <==>
            forall x :: 0 <= x < |t.kind| && Descendant(t, r, x) && Descendant(t, x, c) ==>
              Through(t, x, c) == Error(BrokenPromise)
  {
    hide Through, Descendant;
    if OneOutcome(t, r, c) {
      ThroughNothing(t, c);
      var unseen := BreaksAt(t, r, c, c);
      forall x | 0 <= x < |t.kind| && Descendant(t, r, x) && Descendant(t, x, c)
        ensures Through(t, x, c) == Error(BrokenPromise)
      {
        var seen := BreaksAt(t, r, x, c);
      }
    } else {
      var s1, s2 :| BrokenRun(t, s1, r, c) && BrokenRun(t, s2, r, c) && s1.cells[c].result != s2.cells[c].result;
      var x1 := BrokenSomewhere(t, s1, r, c);
      var x2 := BrokenSomewhere(t, s2, r, c);
    }
  }
}
