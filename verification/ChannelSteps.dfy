/** Every step of the network keeps the global invariant: one lemma per kind of step. */
module ChannelSteps {

  import opened ChannelProcess
  import opened ChannelNetwork
  import opened ChannelInvariant

  ghost predicate Reached(t: Tree, s: State, l: Label) {
    WellFormed(t) && Inv(t, s) && |s.nodes| == |t.kids| && Enabled(t, s, l)
  }

  // ---- one node, or one link, at a time ----

  lemma NodeEnqueue(kids: nat, tight: nat, n: Node, v: Value)
    requires NodeOk(kids, tight, n) && !n.proc.final
    ensures NodeOk(kids, tight, After(n, Enqueue(n.proc, v)))
  {}

  lemma NodeClose(kids: nat, tight: nat, n: Node)
    requires NodeOk(kids, tight, n) && !n.proc.final
    ensures NodeOk(kids, tight, After(n, CloseQueue(n.proc)))
  {}

  lemma NodeRun(t: Tree, i: nat, n: Node)
    requires i < |t.kids| == |t.stage| == |t.buffer| && t.buffer[i] < SIZE_RANGE
    requires NodeOk(|t.kids[i]|, TightRank(t, i), n) && n.pending > 0
    ensures NodeOk(|t.kids[i]|, TightRank(t, i), StartRun(t, i, n))
    ensures StartRun(t, i, n).proc.suspend == n.proc.suspend == 0
    ensures !HoldsSelf(StartRun(t, i, n)) && !HoldsSelf(n)
    ensures i == 0 ==> !OwesClear(StartRun(t, i, n))
  {}

  lemma NodeResume(kids: nat, tight: nat, n: Node)
    requires NodeOk(kids, tight, n) && n.proc.suspend > Bit(HoldsSelf(n))
    ensures NodeOk(kids, tight, After(n, ClearToSend(n.proc)))
  {}

  lemma NodeResumeSelf(kids: nat, tight: nat, n: Node)
    requires NodeOk(kids, tight, n) && Active(n) && n.active[0].SelfDown? && n.proc.suspend > 0
    ensures NodeOk(kids, tight, After(Leave(n, 0), ClearToSend(n.proc)))
  {}

  // Nothing that the link to child number `rank` reads from its upper end has changed.
  predicate SameAbove(f: Value -> Value, u: Node, u': Node, rank: nat) {
    && u'.taken == u.taken
    && InFlight(f, u', rank) == InFlight(f, u, rank)
    && StillToSend(u', rank) == StillToSend(u, rank)
    && Attached(u', rank) == Attached(u, rank)
    && BeingReleased(u', rank) == BeingReleased(u, rank)
  }

  // Nothing that the link to the parent reads from its lower end has changed.
  predicate SameBelow(c: Node, c': Node) {
    && c'.taken == c.taken && OwesClear(c') == OwesClear(c)
    && c'.proc == c.proc.(running := c'.proc.running, suspend := c'.proc.suspend, receivers := c'.proc.receivers)
  }

  lemma SameLink(f: Value -> Value, u: Node, u': Node, c: Node, c': Node, rank: nat)
    requires Link(f, u, c, rank) && SameAbove(f, u, u', rank) && SameBelow(c, c')
    ensures Link(f, u', c', rank)
  {}

  // The part of the suspend count that is not the broadcaster's own.
  function Owed(n: Node): int {
    n.proc.suspend - Bit(HoldsSelf(n))
  }

  lemma MappedAppend(f: Value -> Value, vs: seq<Value>, v: Value)
    ensures Mapped(f, vs + [v]) == Mapped(f, vs) + [f(v)]
  {}

  // The lower end pops a message, or turns final.
  lemma LinkRunBelow(t: Tree, f: Value -> Value, u: Node, i: nat, c: Node, rank: nat)
    requires 0 < i < |t.kids| == |t.stage| == |t.buffer| && t.buffer[i] < SIZE_RANGE
    requires NodeOk(|t.kids[i]|, TightRank(t, i), c) && c.pending > 0
    requires Link(f, u, c, rank)
    ensures Link(f, u, StartRun(t, i, c), rank)
    ensures OwnDebt(StartRun(t, i, c)) == OwnDebt(c)
  {
    if c.proc.queue != [] {
      assert c.taken + c.proc.queue == (c.taken + [c.proc.queue[0]]) + c.proc.queue[1..];
    }
  }

  lemma LinkRunAbove(t: Tree, u: Node, i: nat, c: Node, rank: nat)
    requires i < |t.kids| == |t.stage| == |t.buffer| && t.buffer[i] < SIZE_RANGE
    requires NodeOk(|t.kids[i]|, TightRank(t, i), u) && u.pending > 0 && rank < |t.kids[i]|
    requires Link(t.stage[i], u, c, rank) && Debt(u, c, rank) == 0
    ensures Link(t.stage[i], StartRun(t, i, u), c, rank)
  {
    if u.proc.queue != [] {
      MappedAppend(t.stage[i], u.taken, u.proc.queue[0]);
    }
  }

  // The broadcaster takes one share of the suspend count for every child.
  lemma LinkSuspend(f: Value -> Value, u: Node, u': Node, c: Node, rank: nat)
    requires Link(f, u, c, rank) && Active(u) && u.active[0].Suspend? && !u.proc.final
    requires Debt(u, c, rank) == 0
    requires u'.active == [Send(u.active[0].w, 0)] && u'.taken == u.taken && !u'.proc.final
    ensures Link(f, u', c, rank) && Debt(u', c, rank) == 1
  {}

  // The message moves from the broadcaster's hand to the child's queue.
  lemma LinkSend(f: Value -> Value, u: Node, u': Node, c: Node, rank: nat)
    requires Link(f, u, c, rank) && Active(u) && u.active[0].Send? && !u.proc.final && u.active[0].next == rank
    requires u'.active == [Send(u.active[0].w, rank + 1)] && u'.taken == u.taken && !u'.proc.final
    ensures var c' := After(c, Enqueue(c.proc, u.active[0].w));
            Link(f, u', c', rank) && Debt(u', c', rank) == Debt(u, c, rank) == 1
    ensures !c.proc.final
  {}

  // The acknowledgement: the child no longer owes it.
  lemma LinkAcknowledge(f: Value -> Value, u: Node, u': Node, c: Node, c': Node, rank: nat)
    requires Link(f, u, c, rank) && OwesClear(c) && !u.proc.final
    requires u' == After(u, ClearToSend(u.proc))
    requires Active(c') && c'.active[0].Scan? && c' == c.(active := c'.active)
    ensures Link(f, u', c', rank) && Debt(u', c', rank) == Debt(u, c, rank) - 1
  {}

  // The sender of the child goes: its count reaches zero ...
  lemma LinkRelease(f: Value -> Value, u: Node, u': Node, c: Node, rank: nat)
    requires Link(f, u, c, rank) && Active(u) && u.active[0] == Clear(rank) && u.proc.final
    requires u'.active == [ClearDown(rank)] && u'.taken == u.taken && u'.proc.final
    ensures c.proc.senders == 1 && Link(f, u', c.(proc := c.proc.(senders := 0)), rank)
  {}

  // ... and its queue is marked closed.
  lemma LinkClose(f: Value -> Value, u: Node, u': Node, c: Node, rank: nat)
    requires Link(f, u, c, rank) && Active(u) && u.active[0] == ClearDown(rank) && u.proc.final
    requires u'.active == [Clear(rank + 1)] && u'.taken == u.taken && u'.proc.final
    ensures !c.proc.final && Link(f, u', After(c, CloseQueue(c.proc)), rank)
  {}

  // The debts below a node do not depend on anything but its `StillToSend` and its children.
  lemma SameDebts(t: Tree, s: State, s': State, u: nat)
    requires WellFormed(t) && |s.nodes| == |s'.nodes| == |t.kids| && u < |t.kids|
    requires forall c :: u < c < |s.nodes| && t.parent[c] == u ==>
               OwnDebt(s'.nodes[c]) == OwnDebt(s.nodes[c])
    requires forall k :: 0 <= k < |t.kids[u]| ==>
               StillToSend(s'.nodes[u], k) == StillToSend(s.nodes[u], k)
    ensures DebtSum(t, s', u, 0) == DebtSum(t, s, u, 0)
  {
    forall j | 0 <= j < |t.kids[u]|
      ensures Debt(s'.nodes[u], s'.nodes[t.kids[u][j]], j) == Debt(s.nodes[u], s.nodes[t.kids[u][j]], j)
    {
      var c := Child(t, u, j);
    }
    DebtSumAgrees(t, s, s', u, 0);
  }

  // ---- the steps ----

  lemma InitInv(t: Tree, s: State)
    requires WellFormed(t) && Throttled(t) && Init(t, s)
    ensures Inv(t, s)
  {
    assert FreshNode(s.nodes[0]);
    forall i | 0 <= i < |s.nodes| ensures Local(t, s, i) {
      assert FreshNode(s.nodes[i]);
    }
    forall u | 0 <= u < |s.nodes| ensures Account(t, s, u) {
      InitAccount(t, s, u);
    }
    forall c | 0 < c < |s.nodes| ensures Edge(t, s, c) {
      hide Link;
      assert FreshNode(s.nodes[c]) && FreshNode(s.nodes[t.parent[c]]);
      LinkFresh(t.stage[t.parent[c]], s.nodes[c], t.rank[c]);
    }
  }

  lemma LinkFresh(f: Value -> Value, n: Node, rank: nat)
    requires FreshNode(n)
    ensures Link(f, n, n, rank)
  {}

  lemma InitAccount(t: Tree, s: State, u: nat)
    requires WellFormed(t) && Init(t, s) && u < |t.kids|
    ensures Account(t, s, u)
  {
    assert FreshNode(s.nodes[u]);
    forall j | 0 <= j < |t.kids[u]| ensures Debt(s.nodes[u], s.nodes[t.kids[u][j]], j) == 0 {
      assert FreshNode(s.nodes[Child(t, u, j)]);
    }
    DebtSumConstant(t, s, u, 0, 0);
  }

  // ---- frames: which nodes a step touches ----

  /** Only node `i` changes, and none of its links notices. */
  lemma KeepAlone(t: Tree, s: State, s': State, i: nat)
    requires WellFormed(t) && Inv(t, s) && i < |s.nodes|
    requires |s'.nodes| == |s.nodes| && s'.nodes == s.nodes[i := s'.nodes[i]] && Root(s')
    requires NodeOk(|t.kids[i]|, TightRank(t, i), s'.nodes[i])
    requires Owed(s'.nodes[i]) == Owed(s.nodes[i])
    requires forall k :: 0 <= k < |t.kids[i]| ==> SameAbove(t.stage[i], s.nodes[i], s'.nodes[i], k)
    requires OwesClear(s'.nodes[i]) == OwesClear(s.nodes[i])
    requires i > 0 ==> SameBelow(s.nodes[i], s'.nodes[i])
    ensures Inv(t, s')
  {
    hide NodeOk, Link, InFlight, Attached, BeingReleased;
    assert Local(t, s, i) && Account(t, s, i);
    forall c | 0 < c < |s.nodes| && (c == i || t.parent[c] == i) ensures Edge(t, s', c) {
      assert Edge(t, s, c);
      var u := t.parent[c];
      assert u == i ==> SameAbove(t.stage[i], s.nodes[i], s'.nodes[i], t.rank[c]);
      SameLink(t.stage[u], s.nodes[u], s'.nodes[u], s.nodes[c], s'.nodes[c], t.rank[c]);
    }
    forall k | 0 <= k < |t.kids[i]| ensures StillToSend(s'.nodes[i], k) == StillToSend(s.nodes[i], k) {
      assert SameAbove(t.stage[i], s.nodes[i], s'.nodes[i], k);
    }
    SameDebts(t, s, s', i);
    Reassemble(t, s, s', {i});
  }

  /** A node `u` and one of its children `c` change together; their other links do not notice. */
  lemma KeepPair(t: Tree, s: State, s': State, u: nat, c: nat)
    requires WellFormed(t) && Inv(t, s) && 0 < c < |s.nodes| && u == t.parent[c]
    requires |s'.nodes| == |s.nodes| && s'.nodes == s.nodes[c := s'.nodes[c]][u := s'.nodes[u]] && Root(s')
    requires NodeOk(|t.kids[u]|, TightRank(t, u), s'.nodes[u]) && NodeOk(|t.kids[c]|, TightRank(t, c), s'.nodes[c])
    requires Owed(s'.nodes[u]) - Debt(s'.nodes[u], s'.nodes[c], t.rank[c])
          == Owed(s.nodes[u]) - Debt(s.nodes[u], s.nodes[c], t.rank[c])
    requires Owed(s'.nodes[c]) == Owed(s.nodes[c])
    requires SameBelow(s.nodes[u], s'.nodes[u])
    requires forall k :: 0 <= k < |t.kids[u]| && k != t.rank[c] ==>
               SameAbove(t.stage[u], s.nodes[u], s'.nodes[u], k)
    requires Link(t.stage[u], s'.nodes[u], s'.nodes[c], t.rank[c])
    requires forall k :: 0 <= k < |t.kids[c]| ==> SameAbove(t.stage[c], s.nodes[c], s'.nodes[c], k)
    ensures Inv(t, s')
  {
    hide NodeOk, Link, InFlight, Attached, BeingReleased, Root, Throttled;
    assert Local(t, s, u) && Account(t, s, u) && Local(t, s, c) && Account(t, s, c);
    PairEdges(t, s, s', u, c);
    LowerAccount(t, s, s', u, c);
    PairAccount(t, s, s', u, c);
    hide SameAbove, StillToSend, Debt;
    Reassemble(t, s, s', {u, c});
  }

  lemma PairEdges(t: Tree, s: State, s': State, u: nat, c: nat)
    requires WellFormed(t) && Inv(t, s) && 0 < c < |s.nodes| && u == t.parent[c]
    requires |s'.nodes| == |s.nodes| && s'.nodes == s.nodes[c := s'.nodes[c]][u := s'.nodes[u]]
    requires SameBelow(s.nodes[u], s'.nodes[u])
    requires forall k :: 0 <= k < |t.kids[u]| && k != t.rank[c] ==>
               SameAbove(t.stage[u], s.nodes[u], s'.nodes[u], k)
    requires Link(t.stage[u], s'.nodes[u], s'.nodes[c], t.rank[c])
    requires forall k :: 0 <= k < |t.kids[c]| ==> SameAbove(t.stage[c], s.nodes[c], s'.nodes[c], k)
    ensures forall d :: 0 < d < |s.nodes| && (d in {u, c} || t.parent[d] in {u, c}) ==> Edge(t, s', d)
  {
    hide NodeOk, Link, SameBelow, SameAbove, Root, Account, Local;
    forall d | 0 < d < |s.nodes| && (d in {u, c} || t.parent[d] in {u, c}) ensures Edge(t, s', d) {
      if d != c {
        assert Edge(t, s, d);
        var p := t.parent[d];
        SameNode(t.stage[p], s.nodes[p], t.rank[d]);
        SameNode(t.stage[p], s.nodes[d], t.rank[d]);
        assert p in {u, c} ==> SameAbove(t.stage[p], s.nodes[p], s'.nodes[p], t.rank[d]);
        SameLink(t.stage[p], s.nodes[p], s'.nodes[p], s.nodes[d], s'.nodes[d], t.rank[d]);
      }
    }
  }

  lemma SameNode(f: Value -> Value, n: Node, rank: nat)
    ensures SameAbove(f, n, n, rank) && SameBelow(n, n)
  {}

  lemma LowerAccount(t: Tree, s: State, s': State, u: nat, c: nat)
    requires WellFormed(t) && 0 < c < |s.nodes| == |t.kids| && u == t.parent[c] && Account(t, s, c)
    requires |s'.nodes| == |s.nodes| && s'.nodes == s.nodes[c := s'.nodes[c]][u := s'.nodes[u]]
    requires Owed(s'.nodes[c]) == Owed(s.nodes[c])
    requires forall k :: 0 <= k < |t.kids[c]| ==> SameAbove(t.stage[c], s.nodes[c], s'.nodes[c], k)
    ensures Account(t, s', c)
  {
    forall k | 0 <= k < |t.kids[c]| ensures StillToSend(s'.nodes[c], k) == StillToSend(s.nodes[c], k) {
      assert SameAbove(t.stage[c], s.nodes[c], s'.nodes[c], k);
    }
    SameDebts(t, s, s', c);
  }

  lemma PairAccount(t: Tree, s: State, s': State, u: nat, c: nat)
    requires WellFormed(t) && 0 < c < |s.nodes| == |t.kids| && u == t.parent[c] && Account(t, s, u)
    requires |s'.nodes| == |s.nodes| && s'.nodes == s.nodes[c := s'.nodes[c]][u := s'.nodes[u]]
    requires Owed(s'.nodes[u]) - Debt(s'.nodes[u], s'.nodes[c], t.rank[c])
          == Owed(s.nodes[u]) - Debt(s.nodes[u], s.nodes[c], t.rank[c])
    requires forall k :: 0 <= k < |t.kids[u]| && k != t.rank[c] ==>
               SameAbove(t.stage[u], s.nodes[u], s'.nodes[u], k)
    ensures Account(t, s', u)
  {
    forall x | 0 <= x < |t.kids[u]| && x != t.rank[c]
      ensures Debt(s'.nodes[u], s'.nodes[t.kids[u][x]], x) == Debt(s.nodes[u], s.nodes[t.kids[u][x]], x)
    {
      var d := Child(t, u, x);
      assert SameAbove(t.stage[u], s.nodes[u], s'.nodes[u], x);
    }
    DebtSumChanged(t, s, s', u, 0, t.rank[c]);
  }

  // ---- the steps ----

  lemma KeepRootStep(t: Tree, s: State, l: Label)
    requires Reached(t, s, l)
    requires l.EnvSend? || l.EnvAddSender? || l.EnvDropSender? || l.MarkClosed?
    ensures Inv(t, Apply(t, s, l))
  {
    hide Throttled, TightRank;
    assert Local(t, s, 0);
    KeepAlone(t, s, Apply(t, s, l), 0);
  }

  lemma KeepReceiverStep(t: Tree, s: State, l: Label, i: nat)
    requires Reached(t, s, l)
    requires l == EnvAddReceiver(i) || l == EnvDropReceiver(i) || l == SetReady(i)
    ensures Inv(t, Apply(t, s, l))
  {
    hide Throttled, TightRank;
    assert Local(t, s, i);
    KeepAlone(t, s, Apply(t, s, l), i);
  }

  lemma RunEdges(t: Tree, s: State, i: nat)
    requires Reached(t, s, Run(i))
    ensures var s' := Apply(t, s, Run(i));
            && (i > 0 ==> Edge(t, s', i) && OwnDebt(s'.nodes[i]) == OwnDebt(s.nodes[i]))
            && forall c :: 0 < c < |s.nodes| && t.parent[c] == i ==> Edge(t, s', c)
  {
    hide Throttled, TightRank;
    var n := s.nodes[i];
    assert Local(t, s, i);
    hide NodeOk, Link, StartRun;
    if i > 0 {
      assert Edge(t, s, i);
      var u := t.parent[i];
      LinkRunBelow(t, t.stage[u], s.nodes[u], i, n, t.rank[i]);
    }
    forall c | 0 < c < |s.nodes| && t.parent[c] == i ensures Edge(t, Apply(t, s, Run(i)), c) {
      assert Edge(t, s, c);
      NodeRun(t, i, n);
      NothingOwed(t, s, c);
      LinkRunAbove(t, n, i, s.nodes[c], t.rank[c]);
    }
  }

  lemma RunLocal(t: Tree, s: State, i: nat)
    requires Reached(t, s, Run(i))
    ensures Local(t, Apply(t, s, Run(i)), i) && Account(t, Apply(t, s, Run(i)), i)
  {
    hide Throttled, TightRank;
    assert Local(t, s, i) && Account(t, s, i);
    NodeRun(t, i, s.nodes[i]);
    hide NodeOk, Inv, Link, StartRun;
    SameDebts(t, s, Apply(t, s, Run(i)), i);
  }

  lemma RunRoot(t: Tree, s: State, i: nat)
    requires Reached(t, s, Run(i))
    ensures Root(Apply(t, s, Run(i)))
  {
    hide Throttled, TightRank, Link, Account, Edge;
    assert Local(t, s, i);
  }

  lemma KeepRun(t: Tree, s: State, i: nat)
    requires Reached(t, s, Run(i))
    ensures Inv(t, Apply(t, s, Run(i)))
  {
    hide Inv, Root, Local, Account, Edge, StartRun;
    RunLocal(t, s, i);
    RunEdges(t, s, i);
    RunRoot(t, s, i);
    Reassemble(t, s, Apply(t, s, Run(i)), {i});
  }

  ghost predicate At(t: Tree, s: State, i: nat) {
    WellFormed(t) && Inv(t, s) && i < |s.nodes| == |t.kids| && Active(s.nodes[i])
  }

  // A child that owes its parent something keeps the parent suspended, hence not final.
  lemma Creditor(t: Tree, s: State, c: nat)
    requires WellFormed(t) && Inv(t, s) && 0 < c < |s.nodes| && OwesClear(s.nodes[c])
    ensures var u := s.nodes[t.parent[c]];
            Owed(u) >= Debt(u, s.nodes[c], t.rank[c]) == 1 && !u.proc.final
  {
    var u := t.parent[c];
    assert Account(t, s, u) && Local(t, s, u) && Edge(t, s, c);
    DebtSumBounds(t, s, u, 0, t.rank[c]);
  }

  lemma KeepCtsCheck(t: Tree, s: State, i: nat)
    requires At(t, s, i) && s.nodes[i].active[0].CtsCheck?
    ensures Inv(t, AdvanceRun(t, s, i, 0))
  {
    hide Throttled, TightRank;
    assert Local(t, s, i);
    Creditor(t, s, i);
    KeepAlone(t, s, AdvanceRun(t, s, i, 0), i);
  }

  // What `KeepPair` asks of an acknowledgement.
  lemma CtsDownPair(t: Tree, s: State, i: nat)
    requires At(t, s, i) && s.nodes[i].active[0].CtsDown?
    ensures i > 0
    ensures var s', u := AdvanceRun(t, s, i, 0), t.parent[i];
            && NodeOk(|t.kids[u]|, TightRank(t, u), s'.nodes[u]) && NodeOk(|t.kids[i]|, TightRank(t, i), s'.nodes[i])
            && Link(t.stage[u], s'.nodes[u], s'.nodes[i], t.rank[i])
            && Debt(s'.nodes[u], s'.nodes[i], t.rank[i]) == Debt(s.nodes[u], s.nodes[i], t.rank[i]) - 1
            && Owed(s'.nodes[u]) == Owed(s.nodes[u]) - 1
  {
    hide Throttled, TightRank, Account;
    var u := t.parent[i];
    assert Local(t, s, i) && Local(t, s, u) && Edge(t, s, i);
    Creditor(t, s, i);
    NodeResume(|t.kids[u]|, TightRank(t, u), s.nodes[u]);
    LinkAcknowledge(t.stage[u], s.nodes[u], AdvanceRun(t, s, i, 0).nodes[u],
                    s.nodes[i], AdvanceRun(t, s, i, 0).nodes[i], t.rank[i]);
  }

  // What `KeepPair` asks besides of a step that only moves the lower end on, and of the upper end's token.
  lemma CtsDownFrame(t: Tree, s: State, i: nat)
    requires At(t, s, i) && s.nodes[i].active[0].CtsDown? && i > 0
    ensures var s', u := AdvanceRun(t, s, i, 0), t.parent[i];
            && s'.nodes == s.nodes[i := s'.nodes[i]][u := s'.nodes[u]] && Root(s')
            && Owed(s'.nodes[i]) == Owed(s.nodes[i]) && SameBelow(s.nodes[u], s'.nodes[u])
            && (forall k :: 0 <= k < |t.kids[u]| ==> SameAbove(t.stage[u], s.nodes[u], s'.nodes[u], k))
            && (forall k :: 0 <= k < |t.kids[i]| ==> SameAbove(t.stage[i], s.nodes[i], s'.nodes[i], k))
  {
    hide Throttled, TightRank, NodeOk, Link, Account;
  }

  lemma KeepCtsDown(t: Tree, s: State, i: nat)
    requires At(t, s, i) && s.nodes[i].active[0].CtsDown?
    ensures Inv(t, AdvanceRun(t, s, i, 0))
  {
    hide Inv, NodeOk, Link, Debt, Owed, Root, SameAbove, SameBelow, AdvanceRun;
    CtsDownPair(t, s, i);
    CtsDownFrame(t, s, i);
    KeepPair(t, s, AdvanceRun(t, s, i, 0), t.parent[i], i);
  }

  // Once the child with buffer size one has been seen, at most one slot is free.
  lemma ScanNode(t: Tree, s: State, i: nat)
    requires At(t, s, i) && s.nodes[i].active[0].Scan?
    ensures NodeOk(|t.kids[i]|, TightRank(t, i), AdvanceRun(t, s, i, 0).nodes[i])
    ensures AdvanceRun(t, s, i, 0).nodes[i].proc == s.nodes[i].proc
  {
    assert Local(t, s, i);
    var next := s.nodes[i].active[0].next;
    if next < |t.kids[i]| {
      NothingOwed(t, s, Child(t, i, next));
    }
    hide Link, Account;
  }

  lemma KeepScan(t: Tree, s: State, i: nat)
    requires At(t, s, i) && s.nodes[i].active[0].Scan?
    ensures Inv(t, AdvanceRun(t, s, i, 0))
  {
    assert Local(t, s, i);
    ScanNode(t, s, i);
    hide NodeOk, Throttled, TightRank, Local, Edge, Account;
    KeepAlone(t, s, AdvanceRun(t, s, i, 0), i);
  }

  lemma SuspendEdges(t: Tree, s: State, s': State, i: nat)
    requires At(t, s, i) && s.nodes[i].active[0].Suspend?
    requires |s'.nodes| == |s.nodes| && s' == Put(s, i, s'.nodes[i]) && SameBelow(s.nodes[i], s'.nodes[i])
    requires s'.nodes[i].active == [Send(s.nodes[i].active[0].w, 0)]
    ensures forall c :: 0 < c < |s.nodes| && t.parent[c] == i ==>
              Edge(t, s', c) && Debt(s'.nodes[i], s'.nodes[c], t.rank[c]) == 1
    ensures i > 0 ==> Edge(t, s', i)
  {
    hide Throttled, TightRank;
    assert Local(t, s, i);
    forall c | 0 < c < |s.nodes| && t.parent[c] == i
      ensures Edge(t, s', c) && Debt(s'.nodes[i], s'.nodes[c], t.rank[c]) == 1
    {
      assert Edge(t, s, c);
      NothingOwed(t, s, c);
      LinkSuspend(t.stage[i], s.nodes[i], s'.nodes[i], s.nodes[c], t.rank[c]);
    }
    if i > 0 {
      assert Edge(t, s, i);
      var u := t.parent[i];
      SameNode(t.stage[u], s.nodes[u], t.rank[i]);
      SameLink(t.stage[u], s.nodes[u], s.nodes[u], s.nodes[i], s'.nodes[i], t.rank[i]);
    }
  }

  lemma KeepSuspend(t: Tree, s: State, i: nat)
    requires At(t, s, i) && s.nodes[i].active[0].Suspend?
    ensures Inv(t, AdvanceRun(t, s, i, 0))
  {
    hide Throttled, TightRank;
    var s' := AdvanceRun(t, s, i, 0);
    assert Local(t, s, i);
    assert NodeOk(|t.kids[i]|, TightRank(t, i), s'.nodes[i]);
    hide NodeOk, Link;
    SuspendEdges(t, s, s', i);
    forall j | 0 <= j < |t.kids[i]| ensures Debt(s'.nodes[i], s'.nodes[t.kids[i][j]], j) == 1 {
      var c := Child(t, i, j);
    }
    DebtSumConstant(t, s', i, 0, 1);
    Reassemble(t, s, s', {i});
  }

  lemma KeepSendNext(t: Tree, s: State, i: nat, c: nat)
    requires At(t, s, i) && s.nodes[i].active[0].Send? && s.nodes[i].active[0].next < |t.kids[i]|
    requires c == t.kids[i][s.nodes[i].active[0].next]
    ensures Inv(t, AdvanceRun(t, s, i, 0))
  {
    hide Throttled, TightRank;
    var s' := AdvanceRun(t, s, i, 0);
    var pc := s.nodes[i].active[0];
    assert c == Child(t, i, pc.next);
    assert Local(t, s, i) && Edge(t, s, c) && Local(t, s, c);
    assert !s.nodes[i].proc.final;
    assert NodeOk(|t.kids[i]|, TightRank(t, i), s'.nodes[i]);
    LinkSend(t.stage[i], s.nodes[i], s'.nodes[i], s.nodes[c], pc.next);
    NodeEnqueue(|t.kids[c]|, TightRank(t, c), s.nodes[c], pc.w);
    hide NodeOk, Link, Debt, Inv, Account, Local, Edge;
    KeepPair(t, s, s', i, c);
  }

  lemma KeepSend(t: Tree, s: State, i: nat)
    requires At(t, s, i) && s.nodes[i].active[0].Send?
    ensures Inv(t, AdvanceRun(t, s, i, 0))
  {
    hide Throttled, TightRank;
    assert Local(t, s, i);
    var next := s.nodes[i].active[0].next;
    if next < |t.kids[i]| {
      KeepSendNext(t, s, i, Child(t, i, next));
    } else {
      assert Account(t, s, i);
      KeepAlone(t, s, AdvanceRun(t, s, i, 0), i);
    }
  }

  lemma KeepSelf(t: Tree, s: State, i: nat)
    requires At(t, s, i) && (s.nodes[i].active[0].SelfCheck? || s.nodes[i].active[0].SelfDown?)
    ensures Inv(t, AdvanceRun(t, s, i, 0))
  {
    hide Throttled, TightRank;
    assert Local(t, s, i) && Account(t, s, i);
    if s.nodes[i].active[0].SelfDown? {
      NodeResumeSelf(|t.kids[i]|, TightRank(t, i), s.nodes[i]);
    }
    KeepAlone(t, s, AdvanceRun(t, s, i, 0), i);
  }

  lemma KeepDone(t: Tree, s: State, i: nat)
    requires At(t, s, i) && s.nodes[i].active[0].Done?
    ensures Inv(t, AdvanceRun(t, s, i, 0))
  {
    hide Throttled, TightRank;
    assert Local(t, s, i);
    KeepAlone(t, s, AdvanceRun(t, s, i, 0), i);
  }

  lemma KeepClose(t: Tree, s: State, i: nat)
    requires At(t, s, i) && s.nodes[i].active[0].ClearDown? && s.nodes[i].active[0].next < |t.kids[i]|
    ensures Inv(t, AdvanceRun(t, s, i, 0))
  {
    hide Throttled, TightRank;
    var s' := AdvanceRun(t, s, i, 0);
    var next := s.nodes[i].active[0].next;
    var c := Child(t, i, next);
    assert Local(t, s, i) && Edge(t, s, c) && Local(t, s, c);
    assert NodeOk(|t.kids[i]|, TightRank(t, i), s'.nodes[i]);
    LinkClose(t.stage[i], s.nodes[i], s'.nodes[i], s.nodes[c], next);
    NodeClose(|t.kids[c]|, TightRank(t, c), s.nodes[c]);
    hide NodeOk, Link, Debt, Inv, Account, Local, Edge;
    KeepPair(t, s, s', i, c);
  }

  lemma KeepRelease(t: Tree, s: State, i: nat)
    requires At(t, s, i) && s.nodes[i].active[0].Clear? && s.nodes[i].active[0].next < |t.kids[i]|
    ensures Inv(t, AdvanceRun(t, s, i, 0))
  {
    hide Throttled, TightRank;
    var s' := AdvanceRun(t, s, i, 0);
    var next := s.nodes[i].active[0].next;
    var c := Child(t, i, next);
    assert Local(t, s, i) && Edge(t, s, c) && Local(t, s, c);
    assert NodeOk(|t.kids[i]|, TightRank(t, i), s'.nodes[i]);
    LinkRelease(t.stage[i], s.nodes[i], s'.nodes[i], s.nodes[c], next);
    assert NodeOk(|t.kids[c]|, TightRank(t, c), s'.nodes[c]);
    hide NodeOk, Link, Debt, Inv, Account, Local, Edge;
    KeepPair(t, s, s', i, c);
  }

  lemma KeepClear(t: Tree, s: State, i: nat)
    requires At(t, s, i) && ClearsDownstream(s.nodes[i])
    ensures Inv(t, AdvanceRun(t, s, i, 0))
  {
    hide Throttled, TightRank;
    assert Local(t, s, i);
    var pc := s.nodes[i].active[0];
    if pc.next == |t.kids[i]| {
      KeepAlone(t, s, AdvanceRun(t, s, i, 0), i);
    } else if pc.ClearDown? {
      KeepClose(t, s, i);
    } else {
      KeepRelease(t, s, i);
    }
  }

  /** Every step keeps the invariant. */
  lemma KeepStep(t: Tree, s: State, l: Label)
    requires Reached(t, s, l)
    ensures Inv(t, Apply(t, s, l))
  {
    match l
    case EnvAddReceiver(i) => KeepReceiverStep(t, s, l, i);
    case EnvDropReceiver(i) => KeepReceiverStep(t, s, l, i);
    case SetReady(i) => KeepReceiverStep(t, s, l, i);
    case Run(i) => KeepRun(t, s, i);
    case Advance(i, a) =>
      assert Local(t, s, i);
      match s.nodes[i].active[0] {
        case CtsCheck(_) => KeepCtsCheck(t, s, i);
        case CtsDown(_) => KeepCtsDown(t, s, i);
        case Scan(_, _, _) => KeepScan(t, s, i);
        case Suspend(_, _) => KeepSuspend(t, s, i);
        case Send(_, _) => KeepSend(t, s, i);
        case SelfCheck => KeepSelf(t, s, i);
        case SelfDown => KeepSelf(t, s, i);
        case Done => KeepDone(t, s, i);
        case _ => KeepClear(t, s, i);
      }
    case _ => KeepRootStep(t, s, l);
  }

  lemma {:induction false} KeepRunOfSteps(t: Tree, s: State, ls: seq<Label>)
    requires WellFormed(t) && Inv(t, s) && IsRun(t, s, ls)
    ensures Inv(t, Execute(t, s, ls))
    decreases |ls|
  {
    assert |s.nodes| == |t.kids|;
    hide Inv, Apply;
    if ls != [] {
      KeepStep(t, s, ls[0]);
      KeepRunOfSteps(t, Apply(t, s, ls[0]), ls[1..]);
    }
  }
}
