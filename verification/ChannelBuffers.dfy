/**
 Why some buffer size below every process matters: without one, back-pressure does not hold and a process
 can be submitted to the executor twice.

 The run that shows it sends two messages down the path to the process.  Everything beside the path takes
 the first message, acknowledges it, and stalls.
 */
module ChannelBuffers {

  import opened ChannelProcess
  import opened ChannelNetwork
  import opened ChannelSafety
  import opened ChannelProgress

  ghost predicate On(t: Tree, s: State) {
    WellFormed(t) && |s.nodes| == |t.kids| && Reachable(t, s)
  }

  lemma Go(t: Tree, s: State, l: Label) returns (s': State)
    requires On(t, s) && Enabled(t, s, l)
    ensures s' == Apply(t, s, l) && On(t, s')
  {
    hide Apply, WellFormed, Reachable;
    s' := Apply(t, s, l);
    assert [l][1..] == [];
    assert IsRun(t, s', []) && Execute(t, s, [l]) == Execute(t, s', []);
    ReachableRun(t, s, [l]);
  }

  // What no step but the environment's own changes.
  function Env(s: State): (seq<Value>, nat) {
    (s.sent, s.users)
  }

  // ---- the shapes of a process on the way ----

  // Set ready, with nothing to do.
  predicate Idle(n: Node) {
    && n.pending == 0 && n.active == [] && n.proc.queue == [] && !n.proc.running
    && n.proc.receivers == 0 && n.proc.suspend == 0 && !n.proc.closeQueue && !n.proc.final
  }

  // Its first message has arrived.
  predicate Fed(n: Node) {
    && n.pending == 1 && n.active == [] && |n.proc.queue| == 1 && n.proc.running
    && n.proc.suspend == 0 && !n.proc.final
  }

  // The message is acknowledged, and about to be broadcast.
  predicate Stalled(n: Node) {
    && n.pending == 0 && |n.active| == 1 && n.active[0].Scan? && n.active[0].next == 0
    && n.active[0].free == SIZE_RANGE - 1 && n.proc.running && n.proc.suspend == 0 && !n.proc.final
  }

  // Submitted, unsuspended, with another message.
  predicate Due(n: Node) {
    && n.pending == 1 && n.active == [] && n.proc.queue != [] && n.proc.running
    && n.proc.suspend == 0 && !n.proc.final
  }

  /** `c` is `i` or somewhere downstream of it. */
  ghost predicate Under(t: Tree, i: nat, c: nat)
    requires WellFormed(t) && c < |t.kids|
    decreases c
  {
    c == i || (c > 0 && Under(t, i, t.parent[c]))
  }

  lemma {:induction false} UnderIsAfter(t: Tree, i: nat, c: nat)
    requires WellFormed(t) && c < |t.kids| && Under(t, i, c)
    ensures i <= c
    decreases c
  {
    if c != i {
      UnderIsAfter(t, i, t.parent[c]);
    }
  }

  lemma {:induction false} UnderRoot(t: Tree, c: nat)
    requires WellFormed(t) && c < |t.kids|
    ensures Under(t, 0, c)
    decreases c
  {
    if c > 0 {
      UnderRoot(t, t.parent[c]);
    }
  }

  lemma {:induction false} UnderChild(t: Tree, i: nat, p: nat, c: nat)
    requires WellFormed(t) && 0 < p < |t.kids| && t.parent[p] == i && c < |t.kids| && Under(t, p, c)
    ensures Under(t, i, c)
    decreases c
  {
    if c != p {
      UnderChild(t, i, p, t.parent[c]);
    }
  }

  // The child of `i` on the way to `u`.
  lemma {:induction false} NextOnPath(t: Tree, i: nat, u: nat) returns (p: nat)
    requires WellFormed(t) && u < |t.kids| && Under(t, i, u) && u != i
    ensures i < p < |t.kids| && t.parent[p] == i && Under(t, p, u)
    decreases u
  {
    if t.parent[u] == i {
      p := u;
    } else {
      p := NextOnPath(t, i, t.parent[u]);
    }
  }

  /** Process `i` is about to broadcast one message and has another, and everything below it is idle. */
  ghost predicate Stuffed(t: Tree, s: State, i: nat) {
    && On(t, s) && i < |s.nodes| && Stalled(s.nodes[i]) && s.nodes[i].proc.queue != []
    && forall c :: i < c < |s.nodes| && Under(t, i, c) ==> Idle(s.nodes[c])
  }

  // ---- steps of one broadcast ----

  lemma ScanOne(t: Tree, s: State, i: nat) returns (s': State)
    requires On(t, s) && i < |s.nodes| && |s.nodes[i].active| == 1 && s.nodes[i].active[0].Scan?
    requires s.nodes[i].active[0].next < |t.kids[i]|
    requires var c := t.kids[i][s.nodes[i].active[0].next]; c < |s.nodes| && s.nodes[c].proc.queue == []
    ensures On(t, s') && Env(s') == Env(s) && s'.nodes == s.nodes[i := s.nodes[i].(active := s'.nodes[i].active)]
    ensures var (Scan(w, next, free), active) := (s.nodes[i].active[0], s'.nodes[i].active);
            |active| == 1 && active[0].Scan? && active[0].w == w && active[0].next == next + 1
            && (active[0].free <= 1 <==> free <= 1 || Tight(t, i, next))
  {
    hide Reachable;
    s' := Go(t, s, Advance(i, 0));
  }

  // Every free buffer is read; the minimum tells whether some child has a buffer of one.
  lemma {:induction false} ScanAll(t: Tree, s: State, i: nat) returns (s': State)
    requires On(t, s) && i < |s.nodes| && |s.nodes[i].active| == 1 && s.nodes[i].active[0].Scan?
    requires s.nodes[i].active[0].next <= |t.kids[i]|
    requires forall c :: i < c < |s.nodes| && t.parent[c] == i ==> s.nodes[c].proc.queue == []
    ensures On(t, s') && Env(s') == Env(s) && s'.nodes == s.nodes[i := s.nodes[i].(active := s'.nodes[i].active)]
    ensures var (Scan(w, next, free), active) := (s.nodes[i].active[0], s'.nodes[i].active);
            |active| == 1 && active[0].Scan? && active[0].w == w && active[0].next == |t.kids[i]|
            && (active[0].free <= 1 <==> free <= 1 || exists k :: next <= k && Tight(t, i, k))
    decreases |t.kids[i]| - s.nodes[i].active[0].next
  {
    var next := s.nodes[i].active[0].next;
    if next == |t.kids[i]| {
      s' := s;
    } else {
      var c := Child(t, i, next);
      hide On, Reachable;
      s' := ScanOne(t, s, i);
      s' := ScanAll(t, s', i);
    }
  }

  lemma SendOne(t: Tree, s: State, i: nat) returns (s': State)
    requires On(t, s) && i < |s.nodes| && |s.nodes[i].active| == 1 && s.nodes[i].active[0].Send?
    requires s.nodes[i].active[0].next < |t.kids[i]|
    ensures On(t, s') && Env(s') == Env(s)
    ensures var (Send(w, next), c) := (s.nodes[i].active[0], Child(t, i, s.nodes[i].active[0].next));
            s'.nodes == s.nodes[c := After(s.nodes[c], Enqueue(s.nodes[c].proc, w))]
                               [i := s.nodes[i].(active := [Send(w, next + 1)])]
  {
    hide Reachable;
    s' := Go(t, s, Advance(i, 0));
    assert s'.nodes[i].active == [Send(s.nodes[i].active[0].w, s.nodes[i].active[0].next + 1)];
  }

  // The broadcaster enqueues at its children up to position `m`.
  lemma {:induction false} SendTo(t: Tree, s: State, i: nat, m: nat) returns (s': State)
    requires On(t, s) && i < |s.nodes| && |s.nodes[i].active| == 1 && s.nodes[i].active[0].Send?
    requires s.nodes[i].active[0].next <= m <= |t.kids[i]|
    ensures On(t, s') && Env(s') == Env(s) && |s'.nodes| == |s.nodes|
    ensures s'.nodes[i] == s.nodes[i].(active := [Send(s.nodes[i].active[0].w, m)])
    ensures forall c :: 0 <= c < |s.nodes| && c != i ==>
              s'.nodes[c] == if c > 0 && t.parent[c] == i && s.nodes[i].active[0].next <= t.rank[c] < m
                             then After(s.nodes[c], Enqueue(s.nodes[c].proc, s.nodes[i].active[0].w))
                             else s.nodes[c]
    decreases m - s.nodes[i].active[0].next
  {
    var next := s.nodes[i].active[0].next;
    if next == m {
      s' := s;
    } else {
      var c := Child(t, i, next);
      hide Reachable, After, Enqueue;
      var s1 := SendOne(t, s, i);
      s' := SendTo(t, s1, i, m);
    }
  }

  // All free buffers are read and the suspend count is set.
  lemma Suspended(t: Tree, s: State, i: nat) returns (s': State)
    requires On(t, s) && i < |s.nodes| && Stalled(s.nodes[i]) && t.kids[i] != []
    requires forall c :: i < c < |s.nodes| && t.parent[c] == i ==> s.nodes[c].proc.queue == []
    ensures On(t, s') && Env(s') == Env(s) && s'.nodes == s.nodes[i := s'.nodes[i]]
    ensures var n, n' := s.nodes[i], s'.nodes[i];
            && n' == n.(active := n'.active, proc := n.proc.(suspend := n'.proc.suspend))
            && n'.active == [Send(n.active[0].w, 0)]
            && n'.proc.suspend == if exists k :: Tight(t, i, k) then |t.kids[i]| + 1 else 1
  {
    hide Reachable;
    var s1 := ScanAll(t, s, i);
    var s2 := Go(t, s1, Advance(i, 0));
    assert s2.nodes[i].active[0].Suspend?;
    assert s2.nodes[i].active[0].all <==> exists k :: Tight(t, i, k);
    s' := Go(t, s2, Advance(i, 0));
  }

  // The broadcaster has sent to every child and releases itself.
  lemma Released(t: Tree, s: State, i: nat) returns (s': State)
    requires On(t, s) && i < |s.nodes|
    requires var n := s.nodes[i];
             |n.active| == 1 && n.active[0].Send? && n.active[0].next == |t.kids[i]| && !n.proc.final
    ensures On(t, s') && Env(s') == Env(s)
    ensures s'.nodes == s.nodes[i := After(s.nodes[i].(active := []), ClearToSend(s.nodes[i].proc))]
  {
    hide Reachable;
    s' := Go(t, s, Advance(i, 0));
    assert s'.nodes[i].active == [SelfCheck];
    s' := Go(t, s', Advance(i, 0));
    assert s'.nodes[i].active == [SelfDown];
    assert Leave(s'.nodes[i], 0) == s.nodes[i].(active := []);
    s' := Go(t, s', Advance(i, 0));
  }

  // A whole broadcast to idle children.
  lemma Spread(t: Tree, s: State, i: nat) returns (s': State)
    requires Stuffed(t, s, i) && t.kids[i] != []
    ensures On(t, s') && |s'.nodes| == |s.nodes|
    ensures var n, n' := s.nodes[i], s'.nodes[i];
            if exists k :: Tight(t, i, k)
            then n' == n.(active := [], proc := n.proc.(suspend := |t.kids[i]|))
            else Due(n')
    ensures forall c :: i < c < |s.nodes| && t.parent[c] == i ==> Fed(s'.nodes[c])
    ensures forall c :: 0 <= c < |s.nodes| && c != i && (c == 0 || t.parent[c] != i) ==> s'.nodes[c] == s.nodes[c]
  {
    hide Reachable;
    forall c | i < c < |s.nodes| && t.parent[c] == i ensures Idle(s.nodes[c]) {
      assert Under(t, i, c);
    }
    var s1 := Suspended(t, s, i);
    var s2 := SendTo(t, s1, i, |t.kids[i]|);
    s' := Released(t, s2, i);
  }

  // Child `c` takes its message and acknowledges it, whatever its buffer size.
  lemma Acknowledge(t: Tree, s: State, i: nat, c: nat) returns (s': State)
    requires On(t, s) && i < c < |s.nodes| && t.parent[c] == i && Fed(s.nodes[c]) && !s.nodes[i].proc.final
    ensures On(t, s') && s'.nodes == s.nodes[i := After(s.nodes[i], ClearToSend(s.nodes[i].proc))][c := s'.nodes[c]]
    ensures Stalled(s'.nodes[c]) && s'.nodes[c].proc.queue == []
  {
    hide Reachable, ClearToSend;
    s' := Go(t, s, Run(c));
    s' := Go(t, s', Advance(c, 0));
    s' := Go(t, s', Advance(c, 0));
  }

  // All children from position `k` on do; the last one to do so wakes the broadcaster.
  lemma {:induction false} AcknowledgeFrom(t: Tree, s: State, i: nat, k: nat) returns (s': State)
    requires On(t, s) && i < |s.nodes| && k < |t.kids[i]|
    requires var n := s.nodes[i];
             && n.pending == 0 && n.active == [] && n.proc.queue != [] && n.proc.running && !n.proc.final
             && n.proc.suspend == |t.kids[i]| - k
    requires forall c :: i < c < |s.nodes| && t.parent[c] == i && k <= t.rank[c] ==> Fed(s.nodes[c])
    ensures On(t, s') && |s'.nodes| == |s.nodes| && Due(s'.nodes[i])
    ensures forall c :: i < c < |s.nodes| && t.parent[c] == i && k <= t.rank[c] ==>
              Stalled(s'.nodes[c]) && s'.nodes[c].proc.queue == []
    ensures forall c :: 0 <= c < |s.nodes| && c != i && (c == 0 || t.parent[c] != i || t.rank[c] < k) ==>
              s'.nodes[c] == s.nodes[c]
    decreases |t.kids[i]| - k
  {
    var c := Child(t, i, k);
    hide Reachable, Fed, Stalled;
    s' := Acknowledge(t, s, i, c);
    if k + 1 < |t.kids[i]| {
      s' := AcknowledgeFrom(t, s', i, k + 1);
    }
  }

  // The next run pops a message and, if there is an upstream to be told, tells it.
  lemma Resumed(t: Tree, s: State, i: nat) returns (s': State)
    requires On(t, s) && i < |s.nodes| && Due(s.nodes[i])
    ensures On(t, s') && |s'.nodes| == |s.nodes| && Stalled(s'.nodes[i])
    ensures forall c :: i < c < |s.nodes| ==> s'.nodes[c] == s.nodes[c]
  {
    hide Reachable;
    s' := Go(t, s, Run(i));
    while !s'.nodes[i].active[0].Scan?
      invariant On(t, s') && |s'.nodes| == |s.nodes|
      invariant forall c :: i < c < |s.nodes| ==> s'.nodes[c] == s.nodes[c]
      invariant var n := s'.nodes[i];
                && n.pending == 0 && |n.active| == 1 && n.proc.running && n.proc.suspend == 0 && !n.proc.final
                && (n.active[0] == Broadcast(t, i, s.nodes[i].proc.queue[0])
                    || (i > 0 && (n.active[0].CtsCheck? || n.active[0].CtsDown?)
                        && n.active[0].v == s.nodes[i].proc.queue[0]))
      decreases match s'.nodes[i].active[0] case CtsCheck(_) => 2 case CtsDown(_) => 1 case _ => 0
    {
      s' := Go(t, s', Advance(i, 0));
    }
  }

  // ---- down the path ----

  // The first message has gone to every child and been acknowledged; the second has been popped.
  lemma FirstMessage(t: Tree, s: State, i: nat) returns (s': State)
    requires Stuffed(t, s, i) && exists k :: Tight(t, i, k)
    ensures On(t, s') && |s'.nodes| == |s.nodes| && Stalled(s'.nodes[i])
    ensures forall c :: i < c < |s.nodes| ==>
              if t.parent[c] == i then Stalled(s'.nodes[c]) && s'.nodes[c].proc.queue == []
              else s'.nodes[c] == s.nodes[c]
  {
    assert t.kids[i] != [] by {
      var k :| Tight(t, i, k);
    }
    hide Reachable, Idle;
    s' := Spread(t, s, i);
    s' := AcknowledgeFrom(t, s', i, 0);
    s' := Resumed(t, s', i);
  }

  // The second message arrives at child `p`, which has not finished with the first.
  lemma SecondMessage(t: Tree, s: State, i: nat, p: nat) returns (s': State)
    requires On(t, s) && i < p < |s.nodes| && t.parent[p] == i && Stalled(s.nodes[i])
    requires forall c :: i < c < |s.nodes| && t.parent[c] == i ==> Stalled(s.nodes[c]) && s.nodes[c].proc.queue == []
    ensures On(t, s') && |s'.nodes| == |s.nodes| && Stalled(s'.nodes[p]) && s'.nodes[p].proc.queue != []
    ensures forall c :: i < c < |s.nodes| && t.parent[c] != i ==> s'.nodes[c] == s.nodes[c]
  {
    hide Reachable, Tight;
    assert IsChild(t, i, t.rank[p], p);
    s' := Suspended(t, s, i);
    s' := SendTo(t, s', i, t.rank[p] + 1);
  }

  /** Back-pressure holds at `i`: the two messages move on to child `p`. */
  lemma PushDown(t: Tree, s: State, i: nat, p: nat) returns (s': State)
    requires Stuffed(t, s, i) && (exists k :: Tight(t, i, k)) && i < p < |s.nodes| && t.parent[p] == i
    ensures Stuffed(t, s', p)
  {
    hide Reachable, Idle, Tight, Stalled;
    s' := FirstMessage(t, s, i);
    s' := SecondMessage(t, s', i, p);
    forall c | p < c < |s.nodes| && Under(t, p, c) ensures Idle(s'.nodes[c]) {
      UnderIsAfter(t, p, t.parent[c]);
      UnderChild(t, i, p, c);
    }
  }

  /** It does not hold: `i` is submitted a second time while its next run is pending. */
  lemma SubmittedTwice(t: Tree, s: State, i: nat) returns (s': State)
    requires Stuffed(t, s, i) && t.kids[i] != [] && !exists k :: Tight(t, i, k)
    ensures On(t, s') && s'.nodes[i].pending == 2
  {
    var c := Child(t, i, 0);
    hide Reachable, Tight;
    s' := Spread(t, s, i);
    s' := Acknowledge(t, s', i, c);
  }

  lemma {:induction false} Overrun(t: Tree, s: State, i: nat, u: nat) returns (s': State)
    requires Stuffed(t, s, i) && u < |s.nodes| && Under(t, i, u)
    requires t.kids[u] != [] && !exists k :: Tight(t, u, k)
    ensures On(t, s') && exists j :: 0 <= j < |s'.nodes| && s'.nodes[j].pending > 1
    decreases u - i
  {
    UnderIsAfter(t, i, u);
    if i == u {
      s' := SubmittedTwice(t, s, i);
    } else {
      var p := NextOnPath(t, i, u);
      assert IsChild(t, i, t.rank[p], p);
      if exists k :: Tight(t, i, k) {
        s' := PushDown(t, s, i, p);
        UnderIsAfter(t, p, u);
        s' := Overrun(t, s', p, u);
      } else {
        s' := SubmittedTwice(t, s, i);
      }
    }
  }

  // ---- the start ----

  lemma {:induction false} ReadyFrom(t: Tree, s: State, k: nat) returns (s': State)
    requires On(t, s) && k <= |s.nodes| && forall i :: k <= i < |s.nodes| ==> FreshNode(s.nodes[i])
    ensures On(t, s') && |s'.nodes| == |s.nodes| && Env(s') == Env(s)
    ensures forall i :: 0 <= i < k ==> s'.nodes[i] == s.nodes[i]
    ensures forall i :: k <= i < |s.nodes| ==>
              Idle(s'.nodes[i]) && s'.nodes[i].taken == []
    decreases |s.nodes| - k
  {
    hide Reachable;
    s' := s;
    if k < |s.nodes| {
      s' := Go(t, s', EnvDropReceiver(k));
      s' := Go(t, s', SetReady(k));
      s' := ReadyFrom(t, s', k + 1);
    }
  }

  // Every receiver is set ready, and nothing has been sent.
  lemma Beginning(t: Tree) returns (s: State)
    requires WellFormed(t)
    ensures On(t, s) && Env(s) == ([], 1)
    ensures forall i :: 0 <= i < |s.nodes| ==> Idle(s.nodes[i]) && s.nodes[i].taken == []
  {
    var start := Node(Proc([], false, 0, false, false, 1, 1), 0, [], 0, [], 1);
    s := State(seq(|t.kids|, _ => start), 0, [], 1);
    assert IsRun(t, s, []) && Execute(t, s, []) == s;
    s := ReadyFrom(t, s, 0);
  }

  lemma Started(t: Tree, v: Value) returns (s: State)
    requires WellFormed(t)
    ensures Stuffed(t, s, 0)
  {
    s := Beginning(t);
    hide Reachable;
    s := Go(t, s, EnvSend(v));
    s := Go(t, s, EnvSend(v));
    s := Go(t, s, Run(0));
  }

  ghost predicate OneTokenAlways(t: Tree) {
    forall s, i :: Reachable(t, s) && 0 <= i < |s.nodes| ==> s.nodes[i].pending + |s.nodes[i].active| <= 1
  }

  /** A tree of processes keeps a single token at every process in every run exactly if every process with
      anything downstream feeds some process whose buffer size is one. */
  lemma SingleTokenNeedsThrottle(t: Tree, v: Value)
    requires WellFormed(t)
    ensures OneTokenAlways(t) <==> Throttled(t)
  {
    if Throttled(t) {
      forall s, i | Reachable(t, s) && 0 <= i < |s.nodes|
        ensures s.nodes[i].pending + |s.nodes[i].active| <= 1
      {
        SingleToken(t, s, i);
      }
    } else {
      var u :| 0 <= u < |t.kids| && t.kids[u] != [] && !exists k :: Tight(t, u, k);
      var s := Started(t, v);
      UnderRoot(t, u);
      s := Overrun(t, s, 0, u);
    }
  }
}
