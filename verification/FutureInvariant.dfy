/** The invariant of continuation trees, kept by every step of every schedule. */
module FutureInvariant {

  import opened Wrappers
  import opened FutureState
  import opened FutureTree

  function Bit(b: bool): nat { if b then 1 else 0 }

  // Where the task of a continuation can be: in its parent's list, in the hands of the thread that
  // resolved its parent, or submitted to the executor.
  function Waiting(t: Forest, s: State, c: nat): nat
    requires |s.cells| == |s.acts| == |t.parent| && c < |t.parent| && t.parent[c] < |s.cells|
  {
    multiset(s.cells[t.parent[c]].conts)[c]
  }

  function Moved(t: Forest, s: State, c: nat): nat
    requires |s.cells| == |s.acts| == |t.parent| && c < |t.parent| && t.parent[c] < |s.cells|
  {
    multiset(s.acts[t.parent[c]].moved)[c]
  }

  predicate Belongs(t: Forest, p: nat, d: nat)
    requires |t.kind| == |t.parent|
  {
    d < |t.kind| && !t.kind[d].Root? && t.parent[d] == p
  }

  /** The life of one task: unrun, running, run or broken. */
  predicate Life(root: bool, broken: bool, f: Shared, a: Act) {
    && (f.ready ==> f.result.Some? && f.conts == [])
    && (a.busy ==> f.live && f.result.Some?)
    && (f.live && !a.busy ==> !f.ready && f.result == None)
    && (!f.live ==> f.ready && !a.busy)
    && (a.moved != [] ==> a.busy && f.ready)
    && (broken ==> !f.live)
    && (if root then a.attached && (f.promises == 0 ==> f.ready && !a.busy) else f.promises == Bit(f.live))
  }

  ghost predicate NodeInv(t: Forest, s: State, c: nat)
    requires Typed(t, s) && c < |s.cells|
  {
    && Life(t.kind[c].Root?, c in s.broken, s.cells[c], s.acts[c])
    && (forall d :: d in s.cells[c].conts ==> Belongs(t, c, d))
    && (forall d :: d in s.acts[c].moved ==> Belongs(t, c, d))
  }

  /** A continuation is in exactly one place, and was submitted once if it has left its parent alive. */
  ghost predicate ContInv(t: Forest, s: State, c: nat)
    requires Typed(t, s) && c < |s.cells| && !t.kind[c].Root?
  {
    var f, a, up := s.cells[c], s.acts[c], s.cells[t.parent[c]];
    && Waiting(t, s, c) + Moved(t, s, c) + multiset(s.pending)[c] + Bit(a.busy) + Bit(!f.live) == Bit(a.attached)
    && multiset(s.log)[c] == multiset(s.pending)[c] + Bit(a.busy) + Bit(!f.live && c !in s.broken)
    && (multiset(s.pending)[c] > 0 || (f.result.Some? && c !in s.broken) ==> up.ready)
    && (a.attached ==> s.acts[t.parent[c]].attached)
    && (c in s.broken ==> t.parent[c] in s.broken)
  }

  ghost predicate ValueInv(t: Forest, s: State, c: nat)
    requires Typed(t, s) && c < |s.cells|
  {
    s.cells[c].result.Some? ==> s.cells[c].result.value == Eval(t, s.broken, c)
  }

  /** The promise count of a root is the number of its handles. */
  ghost predicate HandlesOk(t: Forest, s: State)
    requires Typed(t, s)
  {
    forall r :: 0 <= r < |s.cells| && t.kind[r].Root? ==> s.cells[r].promises == s.handles[r]
  }

  ghost predicate Inv(t: Forest, s: State) {
    && Typed(t, s) && HandlesOk(t, s)
    && (forall d :: d in s.pending ==> d < |t.kind| && !t.kind[d].Root?)
    && (forall c :: 0 <= c < |s.cells| ==> NodeInv(t, s, c))
    && (forall c :: 0 <= c < |s.cells| && !t.kind[c].Root? ==> ContInv(t, s, c))
    && (forall c :: 0 <= c < |s.cells| ==> ValueInv(t, s, c))
  }

  lemma InvTyped(t: Forest, s: State)
    requires Inv(t, s)
    ensures Typed(t, s)
  {}

  // The invariant at one future.
  lemma At(t: Forest, s: State, c: nat)
    requires Inv(t, s) && c < |s.cells|
    ensures Typed(t, s) && NodeInv(t, s, c) && ValueInv(t, s, c) && (!t.kind[c].Root? ==> ContInv(t, s, c))
  {}

  // ---- sequences as bags ----

  lemma RemoveAt(xs: seq<nat>, k: nat)
    requires k < |xs|
    ensures multiset(xs) == multiset(xs[..k] + xs[k + 1..]) + multiset{xs[k]}
    ensures forall x :: x in xs[..k] + xs[k + 1..] ==> x in xs
  {
    assert xs == xs[..k] + [xs[k]] + xs[k + 1..];
  }

  lemma OnceIsDistinct(xs: seq<nat>)
    requires forall x :: multiset(xs)[x] <= 1
    ensures Distinct(xs)
  {
    forall i, j | 0 <= i < j < |xs| ensures xs[i] != xs[j] {
      RemoveAt(xs, i);
      var rest := xs[..i] + xs[i + 1..];
      assert rest[j - 1] == xs[j] && xs[j] in multiset(rest);
      assert multiset(xs)[xs[i]] <= 1;
    }
  }

  // ---- the steps ----

  lemma InitInv(t: Forest, s: State)
    requires WellFormed(t) && Init(t, s)
    ensures Inv(t, s)
  {}

  lemma Append(xs: seq<nat>, x: nat, d: nat)
    ensures multiset(xs + [x])[d] == multiset(xs)[d] + Bit(d == x)
    ensures d in xs + [x] <==> d in xs || d == x
  {}

  // A node that a step does not touch.
  lemma FrameNode(t: Forest, s: State, s': State, d: nat)
    requires Inv(t, s) && Typed(t, s') && d < |s.cells| && s'.broken == s.broken
    requires s'.cells[d] == s.cells[d] && s'.acts[d] == s.acts[d]
    ensures NodeInv(t, s', d) && ValueInv(t, s', d)
  {
    hide Life, Eval, ContInv;
    assert NodeInv(t, s, d) && ValueInv(t, s, d);
  }

  // The nodes are as they should be: what is left are the continuations' places.
  lemma Conclude(t: Forest, s: State, s': State, changed: set<nat>)
    requires Inv(t, s) && Typed(t, s') && s'.broken == s.broken && HandlesOk(t, s')
    requires forall d :: d in s'.pending ==> d < |t.kind| && !t.kind[d].Root?
    requires forall d :: 0 <= d < |s.cells| && d !in changed ==>
               s'.cells[d] == s.cells[d] && s'.acts[d] == s.acts[d]
    requires forall d :: 0 <= d < |s.cells| && d in changed ==> NodeInv(t, s', d) && ValueInv(t, s', d)
    requires forall d :: 0 <= d < |s.cells| && !t.kind[d].Root? ==> ContInv(t, s', d)
    ensures Inv(t, s')
  {
    hide NodeInv, ValueInv, ContInv, Apply;
    forall d | 0 <= d < |s.cells| ensures NodeInv(t, s', d) && ValueInv(t, s', d) {
      if d !in changed {
        FrameNode(t, s, s', d);
      }
    }
  }

  lemma AttachCounts(t: Forest, s: State, c: nat, d: nat)
    requires Typed(t, s) && Enabled(t, s, AttachTask(c)) && d < |s.cells| && !t.kind[d].Root?
    ensures var s' := Apply(t, s, AttachTask(c));
            var ready := s.cells[t.parent[c]].ready;
            && Waiting(t, s', d) == Waiting(t, s, d) + Bit(d == c && !ready)
            && Moved(t, s', d) == Moved(t, s, d)
            && multiset(s'.pending)[d] == multiset(s.pending)[d] + Bit(d == c && ready)
            && multiset(s'.log)[d] == multiset(s.log)[d] + Bit(d == c && ready)
  {
    Append(s.cells[t.parent[c]].conts, c, d);
    Append(s.pending, c, d);
    Append(s.log, c, d);
  }

  lemma AttachConts(t: Forest, s: State, c: nat, d: nat)
    requires Typed(t, s) && Enabled(t, s, AttachTask(c)) && d < |s.cells| && !t.kind[d].Root?
    requires NodeInv(t, s, c) && ContInv(t, s, d)
    ensures ContInv(t, Apply(t, s, AttachTask(c)), d)
  {
    hide Waiting, Moved;
    AttachCounts(t, s, c, d);
  }

  lemma AttachNodes(t: Forest, s: State, c: nat)
    requires Inv(t, s) && Enabled(t, s, AttachTask(c))
    ensures var s', p := Apply(t, s, AttachTask(c)), t.parent[c];
            NodeInv(t, s', c) && NodeInv(t, s', p) && ValueInv(t, s', c) && ValueInv(t, s', p)
  {
    hide Inv, Eval, ContInv, HandlesOk;
    InvTyped(t, s);
    At(t, s, c);
    At(t, s, t.parent[c]);
  }

  lemma KeepAttach(t: Forest, s: State, c: nat)
    requires Inv(t, s) && Enabled(t, s, AttachTask(c))
    ensures Inv(t, Apply(t, s, AttachTask(c)))
  {
    hide NodeInv, ValueInv, ContInv;
    var s' := Apply(t, s, AttachTask(c));
    var p := t.parent[c];
    AttachNodes(t, s, c);
    forall d | 0 <= d < |s.cells| && !t.kind[d].Root? ensures ContInv(t, s', d) {
      At(t, s, c);
      At(t, s, d);
      AttachConts(t, s, c, d);
    }
    Conclude(t, s, s', {c, p});
  }

  lemma KeepCopy(t: Forest, s: State, r: nat)
    requires Inv(t, s) && Enabled(t, s, CopyHandle(r))
    ensures Inv(t, Apply(t, s, CopyHandle(r)))
  {
    var s' := Apply(t, s, CopyHandle(r));
    KeepCount(t, s, s', r);
  }

  // Only the handle count of a root changes.
  lemma KeepCount(t: Forest, s: State, s': State, r: nat)
    requires Inv(t, s) && r < |s.cells| == |s'.cells| && t.kind[r].Root?
    requires |s'.handles| == |s.handles| && s'.handles == s.handles[r := s'.cells[r].promises]
    requires s' == s.(cells := s.cells[r := s.cells[r].(promises := s'.cells[r].promises)], handles := s'.handles)
    requires s'.cells[r].promises == 0 ==> s.cells[r].ready && !s.acts[r].busy
    ensures Inv(t, s')
  {
    forall d | 0 <= d < |s.cells| ensures NodeInv(t, s', d) && ValueInv(t, s', d) {
      assert NodeInv(t, s, d) && ValueInv(t, s, d);
    }
    forall d | 0 <= d < |s.cells| && !t.kind[d].Root? ensures ContInv(t, s', d) {
      assert ContInv(t, s, d);
    }
  }

  lemma RunRootCounts(t: Forest, s: State, r: nat, d: nat)
    requires Typed(t, s) && Enabled(t, s, RunRoot(r)) && d < |s.cells| && !t.kind[d].Root?
    ensures var s' := Apply(t, s, RunRoot(r));
            Waiting(t, s', d) == Waiting(t, s, d) && Moved(t, s', d) == Moved(t, s, d)
  {}

  lemma RunRootConts(t: Forest, s: State, r: nat, d: nat)
    requires Typed(t, s) && Enabled(t, s, RunRoot(r)) && d < |s.cells| && !t.kind[d].Root?
    requires NodeInv(t, s, r) && ContInv(t, s, d)
    ensures ContInv(t, Apply(t, s, RunRoot(r)), d)
  {
    hide Waiting, Moved;
    RunRootCounts(t, s, r, d);
  }

  lemma KeepRunRoot(t: Forest, s: State, r: nat)
    requires Inv(t, s) && Enabled(t, s, RunRoot(r))
    ensures Inv(t, Apply(t, s, RunRoot(r)))
  {
    var s' := Apply(t, s, RunRoot(r));
    assert NodeInv(t, s, r) && ValueInv(t, s, r);
    hide ContInv;
    assert NodeInv(t, s', r) && ValueInv(t, s', r);
    forall d | 0 <= d < |s.cells| && !t.kind[d].Root? ensures ContInv(t, s', d) {
      At(t, s, r);
      At(t, s, d);
      RunRootConts(t, s, r, d);
    }
    Conclude(t, s, s', {r});
  }

  lemma RunTaskCounts(t: Forest, s: State, k: nat, d: nat)
    requires Typed(t, s) && Enabled(t, s, RunTask(k)) && d < |s.cells| && !t.kind[d].Root?
    ensures var s' := Apply(t, s, RunTask(k));
            && Waiting(t, s', d) == Waiting(t, s, d) && Moved(t, s', d) == Moved(t, s, d)
            && multiset(s.pending)[d] == multiset(s'.pending)[d] + Bit(d == s.pending[k])
  {
    RemoveAt(s.pending, k);
  }

  lemma RunTaskConts(t: Forest, s: State, k: nat, d: nat)
    requires Inv(t, s) && Enabled(t, s, RunTask(k)) && d < |s.cells| && !t.kind[d].Root?
    ensures ContInv(t, Apply(t, s, RunTask(k)), d)
  {
    hide Inv, Waiting, Moved, ValueInv, HandlesOk;
    At(t, s, d);
    RunTaskCounts(t, s, k, d);
  }

  /** The parent of a task that the executor takes is ready, and holds its outcome. */
  lemma ParentReady(t: Forest, s: State, k: nat)
    requires Inv(t, s) && Enabled(t, s, RunTask(k))
    ensures var up := s.cells[t.parent[s.pending[k]]]; up.ready && up.result.Some?
    ensures s.cells[s.pending[k]].live && !s.acts[s.pending[k]].busy && s.pending[k] !in s.broken
  {
    var c := s.pending[k];
    assert multiset(s.pending)[c] > 0;
    assert ContInv(t, s, c) && NodeInv(t, s, c) && NodeInv(t, s, t.parent[c]);
  }

  lemma RunTaskPending(t: Forest, s: State, k: nat)
    requires Inv(t, s) && Enabled(t, s, RunTask(k))
    ensures forall d :: d in Apply(t, s, RunTask(k)).pending ==> d < |t.kind| && !t.kind[d].Root?
  {
    RemoveAt(s.pending, k);
    forall d | d in Apply(t, s, RunTask(k)).pending ensures d in s.pending {
      assert d in s.pending[..k] + s.pending[k + 1..];
    }
  }

  lemma KeepRunTask(t: Forest, s: State, k: nat)
    requires Inv(t, s) && Enabled(t, s, RunTask(k))
    ensures Inv(t, Apply(t, s, RunTask(k)))
  {
    var s' := Apply(t, s, RunTask(k));
    var c := s.pending[k];
    RunTaskPending(t, s, k);
    ParentReady(t, s, k);
    assert NodeInv(t, s, c) && ValueInv(t, s, t.parent[c]);
    hide ContInv;
    assert NodeInv(t, s', c) && ValueInv(t, s', c);
    forall d | 0 <= d < |s.cells| && !t.kind[d].Root? ensures ContInv(t, s', d) {
      RunTaskConts(t, s, k, d);
    }
    Conclude(t, s, s', {c});
  }

  // The list of continuations moves as a whole.
  lemma ProceedCounts(t: Forest, s: State, c: nat, d: nat)
    requires Typed(t, s) && Enabled(t, s, Proceed(c)) && d < |s.cells| && !t.kind[d].Root?
    requires s.acts[c].moved == []
    ensures var s' := Apply(t, s, Proceed(c));
            Waiting(t, s', d) + Moved(t, s', d) == Waiting(t, s, d) + Moved(t, s, d)
  {}

  lemma ProceedConts(t: Forest, s: State, c: nat, d: nat)
    requires Typed(t, s) && Enabled(t, s, Proceed(c)) && d < |s.cells| && !t.kind[d].Root?
    requires NodeInv(t, s, c) && ContInv(t, s, d)
    ensures ContInv(t, Apply(t, s, Proceed(c)), d)
  {
    hide Waiting, Moved;
    ProceedCounts(t, s, c, d);
  }

  lemma KeepProceed(t: Forest, s: State, c: nat)
    requires Inv(t, s) && Enabled(t, s, Proceed(c))
    ensures Inv(t, Apply(t, s, Proceed(c)))
  {
    var s' := Apply(t, s, Proceed(c));
    assert NodeInv(t, s, c) && ValueInv(t, s, c);
    hide ContInv;
    assert NodeInv(t, s', c) && ValueInv(t, s', c);
    forall d | 0 <= d < |s.cells| && !t.kind[d].Root? ensures ContInv(t, s', d) {
      At(t, s, c);
      At(t, s, d);
      ProceedConts(t, s, c, d);
    }
    Conclude(t, s, s', {c});
  }

  lemma Behead(xs: seq<nat>, d: nat)
    requires xs != []
    ensures multiset(xs)[d] == multiset(xs[1..])[d] + Bit(d == xs[0])
  {
    assert xs == [xs[0]] + xs[1..];
  }

  lemma DispatchCounts(t: Forest, s: State, c: nat, d: nat)
    requires Typed(t, s) && Enabled(t, s, Dispatch(c)) && d < |s.cells| && !t.kind[d].Root?
    requires Belongs(t, c, s.acts[c].moved[0])
    ensures var s' := Apply(t, s, Dispatch(c));
            var first := Bit(d == s.acts[c].moved[0]);
            && Waiting(t, s', d) == Waiting(t, s, d)
            && Moved(t, s, d) == Moved(t, s', d) + first
            && multiset(s'.pending)[d] == multiset(s.pending)[d] + first
            && multiset(s'.log)[d] == multiset(s.log)[d] + first
  {
    var moved := s.acts[c].moved;
    Behead(moved, d);
    Append(s.pending, moved[0], d);
    Append(s.log, moved[0], d);
  }

  lemma DispatchReady(t: Forest, s: State, c: nat)
    requires Inv(t, s) && Enabled(t, s, Dispatch(c))
    ensures s.cells[c].ready
  {
    assert NodeInv(t, s, c);
  }

  lemma DispatchConts(t: Forest, s: State, c: nat, d: nat)
    requires Inv(t, s) && Enabled(t, s, Dispatch(c)) && d < |s.cells| && !t.kind[d].Root?
    ensures ContInv(t, Apply(t, s, Dispatch(c)), d)
  {
    hide Inv, Waiting, Moved, ValueInv, HandlesOk, Life;
    InvTyped(t, s);
    var first := s.acts[c].moved[0];
    At(t, s, d);
    At(t, s, c);
    DispatchReady(t, s, c);
    assert first in s.acts[c].moved && Belongs(t, c, first);
    DispatchCounts(t, s, c, d);
  }

  lemma KeepDispatch(t: Forest, s: State, c: nat)
    requires Inv(t, s) && Enabled(t, s, Dispatch(c))
    ensures Inv(t, Apply(t, s, Dispatch(c)))
  {
    var s' := Apply(t, s, Dispatch(c));
    var first := s.acts[c].moved[0];
    assert NodeInv(t, s, c) && ValueInv(t, s, c) && first in s.acts[c].moved && Belongs(t, c, first);
    hide ContInv, Eval;
    assert NodeInv(t, s', c) && ValueInv(t, s', c);
    forall d | 0 <= d < |s.cells| && !t.kind[d].Root? ensures ContInv(t, s', d) {
      DispatchConts(t, s, c, d);
    }
    Conclude(t, s, s', {c});
  }

  lemma FinishCounts(t: Forest, s: State, c: nat, d: nat)
    requires Typed(t, s) && Enabled(t, s, Finish(c)) && d < |s.cells| && !t.kind[d].Root?
    ensures var s' := Apply(t, s, Finish(c));
            Waiting(t, s', d) == Waiting(t, s, d) && Moved(t, s', d) == Moved(t, s, d)
  {}

  lemma FinishConts(t: Forest, s: State, c: nat, d: nat)
    requires Typed(t, s) && Enabled(t, s, Finish(c)) && d < |s.cells| && !t.kind[d].Root?
    requires NodeInv(t, s, c) && ContInv(t, s, d)
    ensures ContInv(t, Apply(t, s, Finish(c)), d)
  {
    hide Waiting, Moved;
    FinishCounts(t, s, c, d);
  }

  lemma KeepFinish(t: Forest, s: State, c: nat)
    requires Inv(t, s) && Enabled(t, s, Finish(c))
    ensures Inv(t, Apply(t, s, Finish(c)))
  {
    var s' := Apply(t, s, Finish(c));
    assert NodeInv(t, s, c) && ValueInv(t, s, c);
    hide ContInv;
    assert NodeInv(t, s', c) && ValueInv(t, s', c);
    forall d | 0 <= d < |s.cells| && !t.kind[d].Root? ensures ContInv(t, s', d) {
      At(t, s, c);
      At(t, s, d);
      FinishConts(t, s, c, d);
    }
    Conclude(t, s, s', {c});
  }

  // ---- the cascade ----

  // The waiting continuations of a tree are as the cascade expects them.
  lemma WaitingIsTidy(t: Forest, s: State)
    requires Inv(t, s)
    ensures TidyFrom(t.parent, s.cells, 0)
  {
    forall p | 0 <= p < |s.cells| ensures Distinct(s.cells[p].conts) {
      forall x ensures multiset(s.cells[p].conts)[x] <= 1 {
        if x in multiset(s.cells[p].conts) {
          assert x in s.cells[p].conts;
          assert NodeInv(t, s, p) && Belongs(t, p, x) && ContInv(t, s, x);
        }
      }
      OnceIsDistinct(s.cells[p].conts);
    }
    forall p, c | 0 <= p < |s.cells| && c in s.cells[p].conts ensures Waits(t.parent, s.cells, p, c) {
      WaitingIsUnrun(t, s, p, c);
    }
  }

  lemma WaitingIsUnrun(t: Forest, s: State, p: nat, c: nat)
    requires Inv(t, s) && p < |s.cells| && c in s.cells[p].conts
    ensures Belongs(t, p, c) && Waits(t.parent, s.cells, p, c)
    ensures s.cells[c].live && !s.acts[c].busy && s.acts[c].attached && s.acts[c].moved == [] && c !in s.broken
    ensures Waiting(t, s, c) == 1 && Moved(t, s, c) == 0 && multiset(s.pending)[c] == 0
    ensures multiset(s.log)[c] == 0
  {
    assert NodeInv(t, s, p) && Belongs(t, p, c);
    assert c in multiset(s.cells[p].conts);
    assert ContInv(t, s, c) && NodeInv(t, s, c);
    hide ValueInv;
  }

  // Everything that the cascade reaches is unrun.
  lemma DoomedIsUnrun(t: Forest, s: State, r: nat, c: nat)
    requires Inv(t, s) && r < |s.cells| && t.kind[r].Root? && s.cells[r].live && !s.acts[r].busy
    requires Doomed(t.parent, s.cells, r, c)
    ensures c < |s.cells| && s.cells[c].live && !s.acts[c].busy && s.acts[c].attached && c !in s.broken
    ensures !s.cells[c].ready && s.cells[c].result == None && s.acts[c].moved == []
    ensures c != r ==> !t.kind[c].Root? && Waiting(t, s, c) == 1 && Moved(t, s, c) == 0
                       && multiset(s.pending)[c] == 0 && multiset(s.log)[c] == 0
  {
    if c != r {
      WaitingIsUnrun(t, s, t.parent[c], c);
    }
    assert NodeInv(t, s, c);
  }

  // Outcomes of resolved futures do not depend on what breaks later.
  lemma {:induction false} EvalFrame(t: Forest, s: State, broken': set<nat>, c: nat)
    requires Inv(t, s) && c < |s.cells| && s.cells[c].result.Some?
    requires s.broken <= broken'
    requires forall x :: x in broken' && x !in s.broken ==> x < |s.cells| && s.cells[x].result == None
    ensures Eval(t, broken', c) == Eval(t, s.broken, c)
    decreases c
  {
    if c !in s.broken && !t.kind[c].Root? {
      assert ContInv(t, s, c) && NodeInv(t, s, t.parent[c]);
      EvalFrame(t, s, broken', t.parent[c]);
    }
  }

  ghost predicate LastHandle(t: Forest, s: State, r: nat)
    requires Typed(t, s)
  {
    Enabled(t, s, DropHandle(r)) && s.handles[r] == 1 && !s.cells[r].ready
  }

  /** What the death of the last handle of an unrun root does to the whole forest. */
  lemma BreakIsExact(t: Forest, s: State, r: nat)
    requires Inv(t, s) && LastHandle(t, s, r)
    ensures s.cells[r].live && !s.acts[r].busy
    ensures var s' := Apply(t, s, DropHandle(r));
            && s'.acts == s.acts && s'.pending == s.pending && s'.log == s.log
            && s'.broken == s.broken + Family(t, s, r)
            && forall c :: 0 <= c < |s.cells| ==>
                 s'.cells[c] == if Doomed(t.parent, s.cells, r, c) then Break(s.cells[c]) else s.cells[c]
  {
    assert NodeInv(t, s, r);
    WaitingIsTidy(t, s);
    CascadeIsExact(t.parent, s.cells, r);
  }

  lemma BreakNode(t: Forest, s: State, r: nat, c: nat)
    requires Inv(t, s) && LastHandle(t, s, r) && c < |s.cells|
    ensures NodeInv(t, Apply(t, s, DropHandle(r)), c) && ValueInv(t, Apply(t, s, DropHandle(r)), c)
  {
    BreakIsExact(t, s, r);
    var s' := Apply(t, s, DropHandle(r));
    assert NodeInv(t, s, c) && ValueInv(t, s, c);
    hide Apply, ContInv;
    forall x | x in s'.broken && x !in s.broken ensures s.cells[x].result == None {
      DoomedIsUnrun(t, s, r, x);
    }
    if Doomed(t.parent, s.cells, r, c) {
      DoomedIsUnrun(t, s, r, c);
    } else if s.cells[c].result.Some? {
      EvalFrame(t, s, s'.broken, c);
    }
  }

  lemma BrokenCont(t: Forest, s: State, s': State, c: nat)
    requires Typed(t, s) && Typed(t, s') && c < |s.cells| && !t.kind[c].Root?
    requires s'.acts == s.acts && s'.pending == s.pending && s'.log == s.log
    requires s'.cells[c] == Break(s.cells[c]) && s'.cells[t.parent[c]] == Break(s.cells[t.parent[c]])
    requires s.acts[c].attached && !s.acts[c].busy && s.acts[t.parent[c]].attached && Moved(t, s, c) == 0
    requires multiset(s.pending)[c] == 0 && multiset(s.log)[c] == 0
    requires c in s'.broken && t.parent[c] in s'.broken
    ensures ContInv(t, s', c)
  {
    assert s'.cells[t.parent[c]].conts == [];
  }

  lemma DoomedParent(t: Forest, s: State, r: nat, c: nat)
    requires Inv(t, s) && LastHandle(t, s, r) && c < |s.cells| && !t.kind[c].Root?
    requires Doomed(t.parent, s.cells, r, c)
    ensures c != r && Doomed(t.parent, s.cells, r, t.parent[c]) && s.acts[t.parent[c]].attached
    ensures {c, t.parent[c]} <= Family(t, s, r)
  {
    BreakIsExact(t, s, r);
    DoomedIsUnrun(t, s, r, c);
    assert ContInv(t, s, c);
  }

  // A continuation dies with its parent: it was attached and waited there, and now waits no more.
  lemma BreakDoomed(t: Forest, s: State, r: nat, c: nat)
    requires Inv(t, s) && LastHandle(t, s, r) && c < |s.cells| && !t.kind[c].Root?
    requires Doomed(t.parent, s.cells, r, c)
    ensures ContInv(t, Apply(t, s, DropHandle(r)), c)
  {
    hide NodeInv, ContInv, ValueInv, HandlesOk, Doomed, Family, Eval, RemovePromise;
    BreakIsExact(t, s, r);
    DoomedIsUnrun(t, s, r, c);
    DoomedParent(t, s, r, c);
    BrokenCont(t, s, Apply(t, s, DropHandle(r)), c);
  }

  lemma BreakSpared(t: Forest, s: State, r: nat, c: nat)
    requires Inv(t, s) && LastHandle(t, s, r) && c < |s.cells| && !t.kind[c].Root?
    requires !Doomed(t.parent, s.cells, r, c)
    ensures ContInv(t, Apply(t, s, DropHandle(r)), c)
  {
    BreakIsExact(t, s, r);
    var p := t.parent[c];
    assert ContInv(t, s, c);
    if Doomed(t.parent, s.cells, r, p) {
      DoomedAbove(t.parent, s.cells, r, p);
      assert c !in s.cells[p].conts;
      DoomedIsUnrun(t, s, r, p);
    }
    hide Apply, NodeInv, ValueInv, Eval, Doomed;
  }

  lemma BreakCont(t: Forest, s: State, r: nat, c: nat)
    requires Inv(t, s) && LastHandle(t, s, r) && c < |s.cells| && !t.kind[c].Root?
    ensures ContInv(t, Apply(t, s, DropHandle(r)), c)
  {
    if Doomed(t.parent, s.cells, r, c) {
      BreakDoomed(t, s, r, c);
    } else {
      BreakSpared(t, s, r, c);
    }
  }

  lemma KeepDrop(t: Forest, s: State, r: nat)
    requires Inv(t, s) && Enabled(t, s, DropHandle(r))
    ensures Inv(t, Apply(t, s, DropHandle(r)))
  {
    var s' := Apply(t, s, DropHandle(r));
    if LastHandle(t, s, r) {
      BreakIsExact(t, s, r);
      hide NodeInv, ContInv, ValueInv, Apply;
      forall c | 0 <= c < |s.cells| ensures NodeInv(t, s', c) && ValueInv(t, s', c) {
        BreakNode(t, s, r, c);
      }
      forall c | 0 <= c < |s.cells| && !t.kind[c].Root? ensures ContInv(t, s', c) {
        BreakCont(t, s, r, c);
      }
    } else {
      assert NodeInv(t, s, r);
      KeepCount(t, s, s', r);
    }
  }

  /** Every step keeps the invariant. */
  lemma KeepStep(t: Forest, s: State, l: Label)
    requires Inv(t, s) && Enabled(t, s, l)
    ensures Inv(t, Apply(t, s, l))
  {
    hide Inv, Apply;
    match l
    case AttachTask(c) => KeepAttach(t, s, c);
    case CopyHandle(r) => KeepCopy(t, s, r);
    case DropHandle(r) => KeepDrop(t, s, r);
    case RunRoot(r) => KeepRunRoot(t, s, r);
    case RunTask(k) => KeepRunTask(t, s, k);
    case Proceed(c) => KeepProceed(t, s, c);
    case Dispatch(c) => KeepDispatch(t, s, c);
    case Finish(c) => KeepFinish(t, s, c);
  }

  lemma {:induction false} KeepRun(t: Forest, s: State, ls: seq<Label>)
    requires Inv(t, s) && IsRun(t, s, ls)
    ensures Inv(t, Execute(t, s, ls))
    decreases |ls|
  {
    if ls != [] {
      KeepStep(t, s, ls[0]);
      assert Typed(t, Apply(t, s, ls[0]));
      hide Inv, Apply;
      KeepRun(t, Apply(t, s, ls[0]), ls[1..]);
    }
  }

  lemma ReachableInv(t: Forest, s: State)
    requires Reachable(t, s)
    ensures Inv(t, s)
  {
    var s0: State, ls :| Init(t, s0) && IsRun(t, s0, ls) && Execute(t, s0, ls) == s;
    InitInv(t, s0);
    KeepRun(t, s0, ls);
  }
}
