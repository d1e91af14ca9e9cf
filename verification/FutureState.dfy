/**
 The shared state of a copyable future, its critical sections, and the broken-promise cascade.

 Futures are numbered; the continuation attached to future `p` that resolves future `c` is named by `c`,
 and `parent[c] == p < c`, since a future exists before anything is attached to it.
 */
module FutureState {

  import opened Wrappers

  type Data(==, !new)
  type Failure(==, !new)

  datatype Exception = BrokenPromise | Thrown(failure: Failure)

  datatype Outcome = Value(data: Data) | Error(exception: Exception)

  // `conts` are the tasks in `_then`; `live` says that the task has its function; `promises` counts the
  // packaged_task handles.
  datatype Shared = Shared(ready: bool, result: Option<Outcome>, conts: seq<nat>, live: bool, promises: nat)

  // `then` and `recover`: the task of a new continuation is stored, unless the future is ready already.
  function Attach(f: Shared, c: nat): (Shared, bool) {
    (if f.ready then f else f.(conts := f.conts + [c]), f.ready)
  }

  // `proceed` and `set_exception`: the future becomes ready and hands its continuations over.
  function Publish(f: Shared): (Shared, seq<nat>) {
    (f.(ready := true, conts := []), f.conts)
  }

  function Break(f: Shared): Shared {
    f.(ready := true, result := Some(Error(BrokenPromise)), conts := [], live := false, promises := 0)
  }

  /** One shared state, updated in place.  `FutureTree.Apply` takes the functions that specify the methods as
      its steps: `FutureTheorems.Confluent` and `DispatchedOnce` say what they achieve together. */
  class SharedState {
    var ready: bool
    var result: Option<Outcome>
    var conts: seq<nat>
    var live: bool
    var promises: nat

    ghost function View(): Shared
      reads this
    {
      Shared(ready, result, conts, live, promises)
    }

    constructor ()
      ensures View() == Shared(false, None, [], true, 1)
    {
      ready, result, conts, live, promises := false, None, [], true, 1;
    }

    method Recover(c: nat) returns (isReady: bool)
      modifies this
      ensures (View(), isReady) == Attach(old(View()), c)
    {
      isReady := ready;
      if !isReady {
        conts := conts + [c];
      }
    }

    method Proceed() returns (moved: seq<nat>)
      modifies this
      ensures (View(), moved) == Publish(old(View()))
    {
      ready := true;
      moved := conts;
      conts := [];
    }
  }

  // ---- the cascade ----

  /** One handle of task `n` dies.  If it was the last and the future is not ready, the waiting
      continuations are destroyed with their handles, and the future gets a broken promise. */
  function RemovePromise(cells: seq<Shared>, n: nat): (r: seq<Shared>)
    requires n < |cells|
    ensures |r| == |cells|
    decreases |cells| - n, 1, 0
  {
    var f := cells[n];
    var left := if f.promises > 0 then f.promises - 1 else 0;
    var counted := cells[n := f.(promises := left)];
    if left == 0 && !f.ready then
      var cleared := RemoveEach(counted, n, f.conts);
      cleared[n := Break(cleared[n])]
    else
      counted
  }

  function RemoveEach(cells: seq<Shared>, n: nat, conts: seq<nat>): (r: seq<Shared>)
    requires n < |cells|
    ensures |r| == |cells|
    decreases |cells| - n, 0, |conts|
  {
    if conts == [] then cells
    else RemoveEach(if n < conts[0] < |cells| then RemovePromise(cells, conts[0]) else cells, n, conts[1..])
  }

  /** The same cascade in place: destroying a continuation removes its promise, and so on down.
      `CascadeIsExact` says which futures it breaks. */
  class PromiseGraph {
    var cells: seq<Shared>

    method Remove(n: nat)
      requires n < |cells|
      modifies this
      ensures cells == RemovePromise(old(cells), n)
      decreases |cells| - n
    {
      var f := cells[n];
      var left := if f.promises > 0 then f.promises - 1 else 0;
      cells := cells[n := f.(promises := left)];
      if left == 0 && !f.ready {
        ghost var start := cells;
        var i := 0;
        while i < |f.conts|
          invariant 0 <= i <= |f.conts| && |cells| == |start|
          invariant RemoveEach(cells, n, f.conts[i..]) == RemoveEach(start, n, f.conts)
        {
          var d := f.conts[i];
          assert f.conts[i..][1..] == f.conts[i + 1..];
          if n < d < |cells| {
            Remove(d);
          }
          i := i + 1;
        }
        cells := cells[n := Break(cells[n])];
      }
    }
  }

  // ---- exactly which futures break ----

  predicate Distinct(ds: seq<nat>) {
    forall x, y :: 0 <= x < y < |ds| ==> ds[x] != ds[y]
  }

  // A continuation that waits for its parent: one handle, not ready.
  predicate Waits(parent: seq<nat>, cells: seq<Shared>, p: nat, c: nat)
    requires |parent| == |cells|
  {
    p < c < |cells| && parent[c] == p && cells[c].promises == 1 && !cells[c].ready
  }

  ghost predicate TidyFrom(parent: seq<nat>, cells: seq<Shared>, m: nat) {
    && |parent| == |cells|
    && (forall p :: m <= p < |cells| ==> Distinct(cells[p].conts))
    && (forall p, c :: m <= p < |cells| && c in cells[p].conts ==> Waits(parent, cells, p, c))
  }

  /** `c` is `n`, or waits for a future that waits for ... `n`. */
  ghost predicate Doomed(parent: seq<nat>, cells: seq<Shared>, n: nat, c: nat)
    requires |parent| == |cells|
    decreases c
  {
    c == n
    || (n < c < |cells| && parent[c] < c && c in cells[parent[c]].conts && Doomed(parent, cells, n, parent[c]))
  }

  lemma {:induction false} SiblingsApart(parent: seq<nat>, cells: seq<Shared>, d: nat, e: nat, c: nat)
    requires |parent| == |cells| && d != e && d < |cells| && e < |cells|
    requires parent[d] == parent[e] && parent[d] < d && parent[e] < e
    requires Doomed(parent, cells, d, c)
    ensures !Doomed(parent, cells, e, c)
    decreases c
  {
    if c != d && c != e {
      SiblingsApart(parent, cells, d, e, parent[c]);
    } else if c == e {
      DoomedAbove(parent, cells, d, parent[c]);
    } else if Doomed(parent, cells, e, d) {
      DoomedAbove(parent, cells, e, parent[d]);
    }
  }

  lemma DoomedAbove(parent: seq<nat>, cells: seq<Shared>, n: nat, c: nat)
    requires |parent| == |cells|
    ensures Doomed(parent, cells, n, c) ==> n <= c
  {}

  // Breaking the family of `d` changes nothing in the family of its sibling `e`.
  lemma {:induction false} DoomedSame(
      parent: seq<nat>, cells: seq<Shared>, cells': seq<Shared>, d: nat, e: nat, c: nat)
    requires |parent| == |cells| == |cells'| && d != e && d < |cells| && e < |cells|
    requires parent[d] == parent[e] && parent[d] < d && parent[e] < e
    requires forall x :: 0 <= x < |cells| ==>
               cells'[x] == if Doomed(parent, cells, d, x) then Break(cells[x]) else cells[x]
    ensures Doomed(parent, cells', e, c) == Doomed(parent, cells, e, c)
    decreases c
  {
    if e < c < |cells| && parent[c] < c {
      var p := parent[c];
      DoomedSame(parent, cells, cells', d, e, p);
      if Doomed(parent, cells, e, p) && Doomed(parent, cells, d, p) {
        SiblingsApart(parent, cells, d, e, p);
      }
    }
  }

  /** The last handle of an unrun task dies: its future and everything that waits for it, directly or
      through other waiting futures, becomes ready with a broken promise; nothing else changes. */
  lemma {:induction false} CascadeIsExact(parent: seq<nat>, cells: seq<Shared>, n: nat)
    requires n < |cells| && TidyFrom(parent, cells, n) && cells[n].promises == 1 && !cells[n].ready
    ensures forall c :: 0 <= c < |cells| ==>
              RemovePromise(cells, n)[c] == if Doomed(parent, cells, n, c) then Break(cells[c]) else cells[c]
    decreases |cells| - n, 1, 0
  {
    var f := cells[n];
    var counted := cells[n := f.(promises := 0)];
    forall c | 0 <= c < |cells| ensures Doomed(parent, counted, n, c) == Doomed(parent, cells, n, c) {
      DoomedConts(parent, cells, counted, n, c);
    }
    forall d | d in f.conts ensures Waits(parent, counted, n, d) {
      assert Waits(parent, cells, n, d);
    }
    assert TidyFrom(parent, counted, n + 1) by {
      forall p, c | n + 1 <= p < |cells| && c in counted[p].conts ensures Waits(parent, counted, p, c) {
        assert Waits(parent, cells, p, c);
      }
    }
    EachIsExact(parent, counted, n, f.conts);
    forall c | 0 <= c < |cells| && c != n
      ensures Doomed(parent, cells, n, c) <==> exists d :: d in f.conts && Doomed(parent, counted, d, c)
    {
      DoomedThrough(parent, counted, n, c);
    }
  }

  lemma {:induction false} DoomedConts(
      parent: seq<nat>, cells: seq<Shared>, cells': seq<Shared>, n: nat, c: nat)
    requires |parent| == |cells| == |cells'| && n < |cells|
    requires cells' == cells[n := cells[n].(promises := cells'[n].promises)]
    ensures Doomed(parent, cells', n, c) == Doomed(parent, cells, n, c)
    decreases c
  {
    if n < c < |cells| && parent[c] < c {
      DoomedConts(parent, cells, cells', n, parent[c]);
    }
  }

  // A doomed future other than `n` itself is doomed through one of the continuations of `n`.
  lemma {:induction false} DoomedThrough(parent: seq<nat>, cells: seq<Shared>, n: nat, c: nat)
    requires |parent| == |cells| && n < |cells| && c != n
    requires forall d :: d in cells[n].conts ==> n < d < |cells| && parent[d] == n
    ensures Doomed(parent, cells, n, c) <==> exists d :: d in cells[n].conts && Doomed(parent, cells, d, c)
    decreases c
  {
    if n < c < |cells| && parent[c] < c {
      var p := parent[c];
      if p != n {
        DoomedThrough(parent, cells, n, p);
        if Doomed(parent, cells, n, c) {
          var d :| d in cells[n].conts && Doomed(parent, cells, d, p);
          DoomedAbove(parent, cells, d, p);
          assert Doomed(parent, cells, d, c);
        }
      } else {
        if Doomed(parent, cells, n, c) {
          assert Doomed(parent, cells, c, c);
        }
        forall d | d in cells[n].conts && Doomed(parent, cells, d, c) ensures d == c {
          DoomedAbove(parent, cells, d, n);
        }
      }
    } else {
      forall d | d in cells[n].conts ensures !Doomed(parent, cells, d, c) {
        DoomedAbove(parent, cells, d, c);
      }
    }
  }

  lemma {:induction false} EachIsExact(parent: seq<nat>, cells: seq<Shared>, n: nat, conts: seq<nat>)
    requires n < |cells| && TidyFrom(parent, cells, n + 1) && Distinct(conts)
    requires forall d :: d in conts ==> Waits(parent, cells, n, d)
    ensures forall c :: 0 <= c < |cells| ==>
              RemoveEach(cells, n, conts)[c] ==
              if exists d :: d in conts && Doomed(parent, cells, d, c) then Break(cells[c]) else cells[c]
    decreases |cells| - n, 0, |conts|
  {
    if conts != [] {
      var d, rest := conts[0], conts[1..];
      assert Waits(parent, cells, n, d);
      CascadeIsExact(parent, cells, d);
      var cells' := RemovePromise(cells, d);
      forall e | e in rest ensures e != d && Waits(parent, cells', n, e) {
        assert Waits(parent, cells, n, e);
        if Doomed(parent, cells, d, e) {
          SiblingsApart(parent, cells, d, e, e);
        }
      }
      TidyAfter(parent, cells, cells', n, d);
      EachIsExact(parent, cells', n, rest);
      forall c | 0 <= c < |cells|
        ensures (exists e :: e in conts && Doomed(parent, cells, e, c))
           <==> Doomed(parent, cells, d, c) || exists e :: e in rest && Doomed(parent, cells', e, c)
      {
        forall e | e in rest ensures Doomed(parent, cells', e, c) == Doomed(parent, cells, e, c) {
          DoomedSame(parent, cells, cells', d, e, c);
        }
        assert forall e :: e in conts <==> e == d || e in rest by {
          assert conts == [d] + rest;
        }
      }
      assert forall c :: 0 <= c < |cells| ==> Break(Break(cells[c])) == Break(cells[c]);
    }
  }

  lemma TidyAfter(parent: seq<nat>, cells: seq<Shared>, cells': seq<Shared>, n: nat, d: nat)
    requires n < |cells| && TidyFrom(parent, cells, n + 1) && Waits(parent, cells, n, d)
    requires |cells'| == |cells|
    requires forall x :: 0 <= x < |cells| ==>
               cells'[x] == if Doomed(parent, cells, d, x) then Break(cells[x]) else cells[x]
    ensures TidyFrom(parent, cells', n + 1)
  {
    forall p, c | n + 1 <= p < |cells| && c in cells'[p].conts ensures Waits(parent, cells', p, c) {
      assert Waits(parent, cells, p, c);
    }
  }
}
