/**
 What back-pressure does for the order of messages: in a tree that is not throttled a message can overtake
 another.

 The run that shows it sends three messages, each when everything but process `u` has come to rest.  `u`
 hands the first on without suspending itself.  The child's late acknowledgement then lets `u` take the
 third message while it is still at work on the second.
 */
module ChannelOrder {

  import opened ChannelProcess
  import opened ChannelNetwork
  import opened ChannelInvariant
  import opened ChannelSafety
  import opened ChannelBuffers

  // ---- the shapes of a process ----

  // Message `v` has arrived; earlier steps may be under way.
  predicate Loaded(n: Node, v: Value) {
    && n.pending == 1 && n.proc.queue == [v] && n.proc.running
    && n.proc.receivers == 0 && n.proc.suspend == 0 && !n.proc.closeQueue && !n.proc.final
  }

  // Ready to take a message, whatever steps are under way.
  predicate Vacant(n: Node) {
    && n.pending == 0 && n.proc.queue == [] && !n.proc.running
    && n.proc.receivers == 0 && n.proc.suspend == 0 && !n.proc.closeQueue && !n.proc.final
  }

  // Its broadcast is out, and `k` acknowledgements are due.
  predicate Waiting(n: Node, k: nat) {
    && n.pending == 0 && n.active == [] && n.proc.queue == [] && n.proc.running == (k > 0)
    && n.proc.receivers == 0 && n.proc.suspend == k && !n.proc.closeQueue && !n.proc.final
  }

  function Taken(n: Node, v: Value, w: Value): Node {
    n.(pending := 0, proc := n.proc.(queue := []), active := n.active + [Scan(w, 0, SIZE_RANGE - 1)],
       taken := n.taken + [v])
  }

  // ---- branches of the tree ----

  /** The position of the child of `c` through which `x` is reached. */
  ghost function Branch(t: Tree, c: nat, x: nat): nat
    requires WellFormed(t) && x < |t.kids| && Under(t, c, x) && x != c
    decreases x
  {
    if t.parent[x] == c then t.rank[x] else Branch(t, c, t.parent[x])
  }

  lemma {:induction false} BranchIsUnder(t: Tree, c: nat, j: nat, x: nat)
    requires WellFormed(t) && c < |t.kids| && j < |t.kids[c]| && x < |t.kids|
    ensures Under(t, Child(t, c, j), x) <==> Under(t, c, x) && x != c && Branch(t, c, x) == j
    decreases x
  {
    var d := Child(t, c, j);
    if x != d && x > 0 {
      BranchIsUnder(t, c, j, t.parent[x]);
      if Under(t, d, x) {
        UnderIsAfter(t, d, x);
      }
    }
  }

  lemma {:induction false} BranchIsChild(t: Tree, c: nat, x: nat)
    requires WellFormed(t) && c < |t.kids| && x < |t.kids| && Under(t, c, x) && x != c
    ensures Branch(t, c, x) < |t.kids[c]|
    decreases x
  {
    if t.parent[x] != c {
      BranchIsChild(t, c, t.parent[x]);
    }
  }

  // ---- steps ----

  /** The message is taken, and the upstream is told. */
  lemma Take(t: Tree, s: State, i: nat, v: Value) returns (s': State)
    requires On(t, s) && i < |s.nodes| && Loaded(s.nodes[i], v)
    requires i > 0 ==> !s.nodes[t.parent[i]].proc.final
    ensures On(t, s') && |s'.nodes| == |s.nodes| && Env(s') == Env(s)
    ensures s'.nodes[i] == Taken(s.nodes[i], v, t.stage[i](v))
    ensures forall x :: 0 <= x < |s.nodes| && x != i ==>
              s'.nodes[x] == if i > 0 && x == t.parent[i] then After(s.nodes[x], ClearToSend(s.nodes[x].proc))
                             else s.nodes[x]
  {
    hide Reachable;
    var k := |s.nodes[i].active|;
    s' := Go(t, s, Run(i));
    if i > 0 {
      s' := Go(t, s', Advance(i, k));
      s' := Go(t, s', Advance(i, k));
    }
  }

  // How many acknowledgements a broadcast of `u` waits for.
  ghost function Shares(t: Tree, u: nat): nat
    requires u < |t.kids|
  {
    if exists k :: Tight(t, u, k) then |t.kids[u]| else 0
  }

  /** A broadcast by a process that has nothing else to do. */
  lemma Broadcasted(t: Tree, s: State, c: nat) returns (s': State)
    requires On(t, s) && c < |s.nodes| && Stalled(s.nodes[c]) && s.nodes[c].proc.queue == []
    requires s.nodes[c].proc.receivers == 0 && !s.nodes[c].proc.closeQueue
    requires forall x :: c < x < |s.nodes| && t.parent[x] == c ==> s.nodes[x].proc.queue == []
    ensures On(t, s') && |s'.nodes| == |s.nodes| && Env(s') == Env(s)
    ensures Waiting(s'.nodes[c], Shares(t, c)) && s'.nodes[c].taken == s.nodes[c].taken
    ensures forall x :: 0 <= x < |s.nodes| && x != c ==>
              s'.nodes[x] == if x > 0 && t.parent[x] == c
                             then After(s.nodes[x], Enqueue(s.nodes[x].proc, s.nodes[c].active[0].w))
                             else s.nodes[x]
  {
    hide Reachable;
    forall x | 0 < x < |s.nodes| && t.parent[x] == c ensures c < x && t.rank[x] < |t.kids[c]| {
      assert IsChild(t, c, t.rank[x], x);
    }
    if t.kids[c] == [] {
      s' := SuspendedLeaf(t, s, c);
    } else {
      s' := Suspended(t, s, c);
      s' := SendTo(t, s', c, |t.kids[c]|);
    }
    s' := Released(t, s', c);
  }

  lemma SuspendedLeaf(t: Tree, s: State, c: nat) returns (s': State)
    requires On(t, s) && c < |s.nodes| && Stalled(s.nodes[c]) && t.kids[c] == []
    ensures On(t, s') && Env(s') == Env(s) && s'.nodes == s.nodes[c := s'.nodes[c]]
    ensures var (n, n') := (s.nodes[c], s'.nodes[c]);
            n' == n.(active := [Send(n.active[0].w, 0)], proc := n.proc.(suspend := 1))
  {
    hide Reachable;
    s' := Go(t, s, Advance(c, 0));
    s' := Go(t, s', Advance(c, 0));
  }

  // ---- a message runs its course ----

  ghost predicate IdleBelow(t: Tree, s: State, c: nat)
    requires On(t, s) && c < |s.nodes|
  {
    forall x :: 0 <= x < |s.nodes| && Under(t, c, x) && x != c ==> Idle(s.nodes[x])
  }

  // The acknowledgements still due when the children before position `k` have given theirs, but for child `skip`.
  ghost function Left(t: Tree, c: nat, k: nat, skip: nat): nat
    requires c < |t.kids| && k <= |t.kids[c]|
  {
    if Shares(t, c) == 0 then 0 else |t.kids[c]| - k + (if skip < k then 1 else 0)
  }

  /** Process `c` takes its message and hands it on, and everything below comes to rest. */
  lemma {:induction false} Deliver(t: Tree, s: State, c: nat, v: Value) returns (s': State)
    requires On(t, s) && 0 < c < |s.nodes| && Loaded(s.nodes[c], v) && s.nodes[c].active == []
    requires IdleBelow(t, s, c) && !s.nodes[t.parent[c]].proc.final
    ensures On(t, s') && |s'.nodes| == |s.nodes| && Env(s') == Env(s)
    ensures s'.nodes[c].taken == s.nodes[c].taken + [v]
    ensures forall x :: 0 <= x < |s.nodes| ==>
              if Under(t, c, x) then Idle(s'.nodes[x])
              else s'.nodes[x] == if x == t.parent[c] then After(s.nodes[x], ClearToSend(s.nodes[x].proc))
                                  else s.nodes[x]
    decreases |t.kids| - c, 1, 0
  {
    hide Reachable;
    var s1 := Take(t, s, c, v);
    forall x | 0 <= x < |s.nodes| && Under(t, c, x) ensures c <= x && x != t.parent[c] {
      UnderIsAfter(t, c, x);
    }
    forall x | c < x < |s.nodes| && t.parent[x] == c ensures Idle(s1.nodes[x]) {
      assert Under(t, c, x);
    }
    var s2 := Broadcasted(t, s1, c);
    s' := DeliverAll(t, s2, c, 0, |t.kids[c]|, t.stage[c](v));
    forall x | 0 <= x < |s.nodes| && Under(t, c, x) && x != c ensures Idle(s'.nodes[x]) {
      BranchIsChild(t, c, x);
    }
  }

  // The children of `c` from position `k` on deliver their messages, one after the other, but for child `skip`.
  lemma {:induction false} DeliverAll(t: Tree, s: State, c: nat, k: nat, skip: nat, w: Value) returns (s': State)
    requires On(t, s) && c < |s.nodes| && k <= |t.kids[c]| && Waiting(s.nodes[c], Left(t, c, k, skip))
    requires forall x :: 0 <= x < |s.nodes| && Under(t, c, x) && x != c && k <= Branch(t, c, x) != skip ==>
               if t.parent[x] == c then Loaded(s.nodes[x], w) && s.nodes[x].active == [] else Idle(s.nodes[x])
    ensures On(t, s') && |s'.nodes| == |s.nodes| && Env(s') == Env(s)
    ensures Waiting(s'.nodes[c], Left(t, c, |t.kids[c]|, skip)) && s'.nodes[c].taken == s.nodes[c].taken
    ensures forall x :: 0 <= x < |s.nodes| && x != c ==>
              if Under(t, c, x) && k <= Branch(t, c, x) != skip then Idle(s'.nodes[x])
              else s'.nodes[x] == s.nodes[x]
    decreases |t.kids| - c, 0, |t.kids[c]| - k
  {
    hide Reachable;
    s' := s;
    if k < |t.kids[c]| {
      if k != skip {
        var d := Child(t, c, k);
        forall x | 0 <= x < |s.nodes|
          ensures Under(t, d, x) <==> Under(t, c, x) && x != c && Branch(t, c, x) == k
        {
          BranchIsUnder(t, c, k, x);
        }
        assert Under(t, d, d);
        forall x | 0 <= x < |s.nodes| && Under(t, d, x) && x != d ensures Idle(s.nodes[x]) {
          assert t.parent[x] != c;
        }
        s' := Deliver(t, s, d, w);
      }
      s' := DeliverAll(t, s', c, k + 1, skip, w);
    }
  }

  // ---- a message travels to `u` ----

  ghost predicate Identity(t: Tree) {
    forall i, v :: 0 <= i < |t.stage| ==> t.stage[i](v) == v
  }

  // Everything is at rest, but `u` and what is below it.
  ghost predicate RestOutside(t: Tree, s: State, u: nat)
    requires On(t, s)
  {
    forall x :: 0 <= x < |s.nodes| && !Under(t, u, x) ==> Idle(s.nodes[x])
  }

  // The message is on its way: it has reached `i`, and the parent of `i` waits at most for `i`.
  ghost predicate OnItsWay(t: Tree, s: State, i: nat, u: nat, v: Value)
    requires On(t, s)
  {
    && i < |s.nodes| && u < |s.nodes| && Under(t, i, u) && Loaded(s.nodes[i], v)
    && (i != u ==> s.nodes[i].active == [] && Vacant(s.nodes[u]))
    && (i > 0 ==> Waiting(s.nodes[t.parent[i]], 0) || Waiting(s.nodes[t.parent[i]], 1))
    && (forall x :: 0 <= x < |s.nodes| && x != i && !Under(t, u, x) ==>
          (i > 0 && x == t.parent[i]) || Idle(s.nodes[x]))
  }

  lemma ClearedWaiter(n: Node, n': Node)
    requires (Waiting(n, 0) || Waiting(n, 1)) && n' == After(n, ClearToSend(n.proc))
    ensures Idle(n')
  {}

  lemma {:induction false} UnderTransitive(t: Tree, a: nat, b: nat, c: nat)
    requires WellFormed(t) && b < |t.kids| && c < |t.kids| && Under(t, a, b) && Under(t, b, c)
    ensures Under(t, a, c)
    decreases c
  {
    if c != b {
      UnderTransitive(t, a, b, t.parent[c]);
    }
  }

  lemma UnderApart(t: Tree, i: nat, u: nat, x: nat)
    requires WellFormed(t) && u < |t.kids| && x < |t.kids| && Under(t, i, u) && !Under(t, i, x)
    ensures !Under(t, u, x)
  {
    if Under(t, u, x) {
      UnderTransitive(t, i, u, x);
    }
  }

  // What is below `u` is reached from `i` through the child `p` on the way.
  lemma BelowIsOnTheWay(t: Tree, i: nat, p: nat, u: nat, x: nat)
    requires WellFormed(t) && i < p < |t.kids| && t.parent[p] == i && u < |t.kids| && Under(t, p, u)
    requires x < |t.kids| && Under(t, u, x)
    ensures i < x && Under(t, p, x) && Under(t, i, x) && Branch(t, i, x) == t.rank[p] && (x == p ==> u == p)
  {
    UnderTransitive(t, p, u, x);
    UnderIsAfter(t, p, u);
    UnderIsAfter(t, u, x);
    assert IsChild(t, i, t.rank[p], p);
    BranchIsUnder(t, i, t.rank[p], x);
  }

  // Process `i` has handed the message on to all its children.
  ghost predicate HandedOn(t: Tree, s: State, s': State, i: nat, v: Value)
    requires WellFormed(t) && |s.nodes| == |t.kids| && i < |s.nodes|
  {
    && |s'.nodes| == |s.nodes| && Waiting(s'.nodes[i], Shares(t, i))
    && forall x :: 0 <= x < |s.nodes| && x != i ==>
         if x > 0 && t.parent[x] == i then s'.nodes[x] == After(s.nodes[x], Enqueue(s.nodes[x].proc, v))
         else if i > 0 && x == t.parent[i] then Idle(s'.nodes[x])
         else s'.nodes[x] == s.nodes[x]
  }

  lemma HandOn(t: Tree, s: State, i: nat, p: nat, u: nat, v: Value) returns (s': State)
    requires On(t, s) && Identity(t) && OnItsWay(t, s, i, u, v)
    requires i < p < |s.nodes| && t.parent[p] == i && Under(t, p, u)
    ensures On(t, s') && Env(s') == Env(s) && HandedOn(t, s, s', i, v)
  {
    hide Reachable;
    UnderIsAfter(t, p, u);
    var s1 := Take(t, s, i, v);
    if i > 0 {
      ClearedWaiter(s.nodes[t.parent[i]], s1.nodes[t.parent[i]]);
    }
    forall x | i < x < |s.nodes| && t.parent[x] == i ensures s1.nodes[x].proc.queue == [] {
      if Under(t, u, x) {
        BelowIsOnTheWay(t, i, p, u, x);
        ChildOnTheWay(t, i, p, x);
      }
    }
    s' := Broadcasted(t, s1, i);
  }

  lemma Elsewhere(t: Tree, s: State, s': State, i: nat, u: nat, v: Value, x: nat)
    requires On(t, s) && OnItsWay(t, s, i, u, v) && HandedOn(t, s, s', i, v)
    requires x < |s.nodes| && !Under(t, i, x)
    ensures Idle(s'.nodes[x])
  {
    hide Reachable, Loaded, Vacant, Idle;
    assert Under(t, i, i);
    UnderApart(t, i, u, x);
  }

  // What is beside the way has its message, or nothing to do; the child on the way has its message.
  lemma Beside(t: Tree, s: State, s': State, i: nat, p: nat, u: nat, v: Value, x: nat)
    requires On(t, s) && OnItsWay(t, s, i, u, v) && HandedOn(t, s, s', i, v)
    requires i < p < |s.nodes| && t.parent[p] == i && Under(t, p, u) && x < |s.nodes| && x != i && Under(t, i, x)
    ensures !Under(t, p, x) ==>
              if t.parent[x] == i then Loaded(s'.nodes[x], v) && s'.nodes[x].active == [] else Idle(s'.nodes[x])
    ensures Under(t, p, x) && x != p ==> s'.nodes[x] == s.nodes[x] && (!Under(t, u, x) ==> Idle(s'.nodes[x]))
    ensures x == p ==> Loaded(s'.nodes[x], v) && (x != u ==> s'.nodes[x].active == [])
    ensures Under(t, u, x) ==> Under(t, p, x) && (x == p ==> u == p)
  {
    hide Reachable;
    UnderIsAfter(t, p, u);
    UnderIsAfter(t, i, x);
    if Under(t, u, x) {
      BelowIsOnTheWay(t, i, p, u, x);
    }
    if Under(t, p, x) {
      ChildOnTheWay(t, i, p, x);
    }
  }

  lemma ChildOnTheWay(t: Tree, i: nat, p: nat, x: nat)
    requires WellFormed(t) && i < p < |t.kids| && t.parent[p] == i && i < x < |t.kids| && Under(t, p, x)
    ensures t.parent[x] == i ==> x == p
  {
    if x != p {
      UnderIsAfter(t, p, t.parent[x]);
    }
  }

  lemma Arrived(t: Tree, s: State, s1: State, s': State, i: nat, p: nat, u: nat, v: Value)
    requires On(t, s) && OnItsWay(t, s, i, u, v) && i != u && HandedOn(t, s, s1, i, v) && On(t, s')
    requires i < p < |s.nodes| && t.parent[p] == i && Under(t, p, u)
    requires Waiting(s'.nodes[i], 0) || Waiting(s'.nodes[i], 1)
    requires forall x :: 0 <= x < |s.nodes| && x != i ==>
               if Under(t, i, x) && !Under(t, p, x) then Idle(s'.nodes[x]) else s'.nodes[x] == s1.nodes[x]
    ensures OnItsWay(t, s', p, u, v)
    ensures s'.nodes[u] == if p == u then After(s.nodes[u], Enqueue(s.nodes[u].proc, v)) else s.nodes[u]
    ensures forall x :: 0 <= x < |s.nodes| && Under(t, u, x) && x != u ==> s'.nodes[x] == s.nodes[x]
  {
    hide Reachable, HandedOn, Idle, Loaded, Waiting, Vacant;
    forall x | 0 <= x < |s.nodes| && x != i
      ensures !Under(t, u, x) && x != p ==> Idle(s'.nodes[x])
      ensures x == p ==> Loaded(s'.nodes[x], v) && (x != u ==> s'.nodes[x].active == [])
      ensures Under(t, u, x) && x != p ==> s'.nodes[x] == s.nodes[x]
      ensures Under(t, u, x) && x == p ==> u == p
    {
      if Under(t, p, x) {
        UnderChild(t, i, p, x);
      }
      if Under(t, i, x) {
        Beside(t, s, s1, i, p, u, v, x);
      } else {
        Elsewhere(t, s, s1, i, u, v, x);
        UnderApart(t, i, u, x);
      }
    }
    UnderIsAfter(t, p, u);
    forall x | 0 <= x < |s.nodes| && Under(t, u, x) ensures x != i {
      UnderIsAfter(t, u, x);
    }
    ArrivedAt(t, s, s1, i, p, v);
  }

  lemma ArrivedAt(t: Tree, s: State, s1: State, i: nat, p: nat, v: Value)
    requires WellFormed(t) && i < p < |s.nodes| == |t.kids| && t.parent[p] == i
    requires HandedOn(t, s, s1, i, v)
    ensures s1.nodes[p] == After(s.nodes[p], Enqueue(s.nodes[p].proc, v))
  {}

  /** It moves on to the next process on the way, and everything beside the way delivers it. */
  lemma MoveOn(t: Tree, s: State, i: nat, u: nat, v: Value) returns (s': State, p: nat)
    requires On(t, s) && Identity(t) && OnItsWay(t, s, i, u, v) && i != u
    ensures On(t, s') && |s'.nodes| == |s.nodes| && Env(s') == Env(s)
    ensures i < p && OnItsWay(t, s', p, u, v)
    ensures s'.nodes[u] == if p == u then After(s.nodes[u], Enqueue(s.nodes[u].proc, v)) else s.nodes[u]
    ensures forall x :: 0 <= x < |s.nodes| && Under(t, u, x) && x != u ==> s'.nodes[x] == s.nodes[x]
  {
    hide Reachable, Idle, Vacant, Loaded;
    p := NextOnPath(t, i, u);
    var k := t.rank[p];
    assert IsChild(t, i, k, p);
    UnderIsAfter(t, p, u);
    var s1 := HandOn(t, s, i, p, u, v);
    forall x | 0 <= x < |s.nodes| && Under(t, i, x) && x != i ensures Under(t, p, x) <==> Branch(t, i, x) == k {
      BranchIsUnder(t, i, k, x);
    }
    forall x | 0 <= x < |s.nodes| && Under(t, i, x) && x != i && Branch(t, i, x) != k
      ensures if t.parent[x] == i then Loaded(s1.nodes[x], v) && s1.nodes[x].active == [] else Idle(s1.nodes[x])
    {
      Beside(t, s, s1, i, p, u, v, x);
    }
    s' := DeliverAll(t, s1, i, 0, k, v);
    Arrived(t, s, s1, s', i, p, u, v);
  }

  lemma {:induction false} Travel(t: Tree, s: State, i: nat, u: nat, v: Value) returns (s': State)
    requires On(t, s) && Identity(t) && OnItsWay(t, s, i, u, v)
    ensures On(t, s') && |s'.nodes| == |s.nodes| && Env(s') == Env(s) && RestOutside(t, s', u)
    ensures s'.nodes[u] == Taken(if i == u then s.nodes[u] else After(s.nodes[u], Enqueue(s.nodes[u].proc, v)), v, v)
    ensures forall x :: 0 <= x < |s.nodes| && Under(t, u, x) && x != u ==> s'.nodes[x] == s.nodes[x]
    decreases |t.kids| - i
  {
    hide Reachable;
    if i == u {
      s' := Take(t, s, u, v);
      forall x | 0 <= x < |s.nodes| && Under(t, u, x) ensures u == 0 || x != t.parent[u] {
        UnderIsAfter(t, u, x);
      }
      if u > 0 {
        ClearedWaiter(s.nodes[t.parent[u]], s'.nodes[t.parent[u]]);
      }
    } else {
      var s1, p := MoveOn(t, s, i, u, v);
      s' := Travel(t, s1, p, u, v);
    }
  }

  /** A message sent while everything but `u` is at rest: `u` takes it, and the rest comes to rest again. */
  lemma Trip(t: Tree, s: State, u: nat, v: Value) returns (s': State)
    requires On(t, s) && Identity(t) && u < |s.nodes| && Vacant(s.nodes[u]) && RestOutside(t, s, u)
    requires s.users > 0
    ensures On(t, s') && |s'.nodes| == |s.nodes| && Env(s') == (s.sent + [v], s.users)
    ensures RestOutside(t, s', u) && s'.nodes[u] == Taken(After(s.nodes[u], Enqueue(s.nodes[u].proc, v)), v, v)
    ensures forall x :: 0 <= x < |s.nodes| && Under(t, u, x) && x != u ==> s'.nodes[x] == s.nodes[x]
  {
    hide Reachable;
    UnderRoot(t, u);
    var s1 := Go(t, s, EnvSend(v));
    forall x | 0 <= x < |s.nodes| && Under(t, u, x) ensures u <= x {
      UnderIsAfter(t, u, x);
    }
    s' := Travel(t, s1, 0, u, v);
  }

  /** The later of two steps of `u` sends first. */
  lemma SendsFirst(t: Tree, s: State, u: nat, x: Value, w: Value) returns (s': State)
    requires On(t, s) && u < |s.nodes| && t.kids[u] != []
    requires s.nodes[u].active == [Scan(x, 0, SIZE_RANGE - 1), Scan(w, 0, SIZE_RANGE - 1)]
    requires !s.nodes[u].proc.final
    ensures On(t, s') && |s'.nodes| == |s.nodes| && Env(s') == Env(s)
    ensures !s'.nodes[u].proc.final
    ensures var c := Child(t, u, 0); s'.nodes[c] == After(s.nodes[c], Enqueue(s.nodes[c].proc, w))
  {
    hide Reachable, FreeBuffer;
    s' := s;
    while !s'.nodes[u].active[1].Send?
      invariant On(t, s') && |s'.nodes| == |s.nodes| && Env(s') == Env(s)
      invariant forall y :: 0 <= y < |s.nodes| && y != u ==> s'.nodes[y] == s.nodes[y]
      invariant |s'.nodes[u].active| == 2 && !s'.nodes[u].proc.final
      invariant match s'.nodes[u].active[1]
                case Scan(w', next, _) => w' == w && next <= |t.kids[u]|
                case Suspend(w', _) => w' == w
                case Send(w', next) => w' == w && next == 0
                case _ => false
      decreases match s'.nodes[u].active[1]
                case Scan(_, next, _) => 2 + |t.kids[u]| - next
                case Suspend(_, _) => 1
                case _ => 0
    {
      s' := Go(t, s', Advance(u, 1));
    }
    s' := Go(t, s', Advance(u, 1));
  }

  // `u` is at work on the second message, and its child has finished with the first.
  lemma FirstTwo(t: Tree, u: nat, d: nat, a: Value, b: Value) returns (s: State)
    requires WellFormed(t) && Identity(t) && u < d < |t.kids| && t.parent[d] == u
    requires !exists k :: Tight(t, u, k)
    ensures On(t, s) && RestOutside(t, s, u) && Env(s) == ([a, b], 1)
    ensures Vacant(s.nodes[u]) && s.nodes[u].active == [Scan(b, 0, SIZE_RANGE - 1)]
    ensures Idle(s.nodes[d]) && s.nodes[d].taken == [a]
  {
    hide Reachable;
    assert Under(t, u, u);
    forall x | 0 <= x < |t.kids| && Under(t, d, x) ensures d <= x && Under(t, u, x) {
      UnderChild(t, u, d, x);
      UnderIsAfter(t, d, x);
    }
    var s0 := Beginning(t);
    var s1 := Trip(t, s0, u, a);
    var s2 := Broadcasted(t, s1, u);
    var s3 := Trip(t, s2, u, b);
    forall x | 0 <= x < |t.kids| && Under(t, d, x) && x != d ensures Idle(s3.nodes[x]) {
      ChildOnTheWay(t, u, d, x);
    }
    s := Deliver(t, s3, d, a);
    assert s.sent == [] + [a] + [b] == [a, b];
  }

  /** Below a process that is not throttled, the third message overtakes the second. */
  lemma Overtaking(t: Tree, u: nat, a: Value, b: Value, c: Value) returns (s: State, d: nat)
    requires WellFormed(t) && Identity(t) && u < |t.kids|
    requires t.kids[u] != [] && !exists k :: Tight(t, u, k)
    ensures On(t, s) && d < |s.nodes| && s.sent == [a, b, c] && s.nodes[d].taken == [a, c]
  {
    d := Child(t, u, 0);
    assert Under(t, u, d) by { assert Under(t, u, u); }
    s := FirstTwo(t, u, d, a, b);
    var s1 := Trip(t, s, u, c);
    var s2 := SendsFirst(t, s1, u, b, c);
    hide Reachable;
    s := Take(t, s2, d, c);
  }

  // ---- the order of messages ----

  /** In every run every stage consumes a prefix of what it is to consume. */
  ghost predicate InOrder(t: Tree)
    requires WellFormed(t)
  {
    forall s, i :: Reachable(t, s) && 0 <= i < |s.nodes| == |t.kids| ==> s.nodes[i].taken <= Expected(t, i, s.sent)
  }

  function WithStages(t: Tree, fs: seq<Value -> Value>): Tree {
    t.(stage := fs)
  }

  lemma StagesDoNotMatter(t: Tree, fs: seq<Value -> Value>)
    requires WellFormed(t) && |fs| == |t.kids|
    ensures WellFormed(WithStages(t, fs)) && (Throttled(t) ==> Throttled(WithStages(t, fs)))
  {
    var t' := WithStages(t, fs);
    forall u | 0 <= u < |t'.kids| && t'.kids[u] != [] && Throttled(t) ensures exists k :: Tight(t', u, k) {
      var k :| Tight(t, u, k);
      assert Tight(t', u, k);
    }
    forall u, k | 0 <= u < |t'.kids| && 0 <= k < |t'.kids[u]| ensures IsChild(t', u, k, t'.kids[u][k]) {
      assert IsChild(t, u, k, t.kids[u][k]);
    }
  }

  lemma {:induction false} ExpectedIsSent(t: Tree, i: nat, sent: seq<Value>)
    requires WellFormed(t) && Identity(t) && i < |t.kids|
    ensures Expected(t, i, sent) == sent
    decreases i
  {
    if i > 0 {
      ExpectedIsSent(t, t.parent[i], sent);
    }
  }

  /** Whatever the stages compute, no message is lost, repeated or overtaken at any stage in any run, exactly if
      every process with anything downstream feeds some process whose buffer size is one. */
  lemma OrderNeedsThrottle(t: Tree, b: Value, c: Value)
    requires WellFormed(t) && b != c
    ensures (forall fs :: |fs| == |t.kids| ==> WellFormed(WithStages(t, fs)) && InOrder(WithStages(t, fs)))
       <==> Throttled(t)
  {
    if Throttled(t) {
      forall fs | |fs| == |t.kids| ensures WellFormed(WithStages(t, fs)) && InOrder(WithStages(t, fs)) {
        StagesDoNotMatter(t, fs);
        ThrottledIsInOrder(WithStages(t, fs));
      }
    } else {
      var u :| 0 <= u < |t.kids| && t.kids[u] != [] && !exists k :: Tight(t, u, k);
      var fs: seq<Value -> Value> := seq(|t.kids|, _ => (v: Value) => v);
      var t' := WithStages(t, fs);
      StagesDoNotMatter(t, fs);
      forall k: nat ensures !Tight(t', u, k) {
        assert !Tight(t, u, k);
      }
      var s, d := Overtaking(t', u, b, b, c);
      ExpectedIsSent(t', d, s.sent);
      assert s.nodes[d].taken[1] == c && s.sent[1] == b;
    }
  }

  lemma ThrottledIsInOrder(t: Tree)
    requires WellFormed(t) && Throttled(t)
    ensures InOrder(t)
  {
    forall s, i | Reachable(t, s) && 0 <= i < |s.nodes| == |t.kids|
      ensures s.nodes[i].taken <= Expected(t, i, s.sent)
    {
      PipelineRefinement(t, s, i);
    }
  }
}
