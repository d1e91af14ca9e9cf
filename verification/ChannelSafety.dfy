/** What every reachable state of a tree of channel processes satisfies. */
module ChannelSafety {

  import opened ChannelProcess
  import opened ChannelNetwork
  import opened ChannelInvariant
  import opened ChannelSteps

  /** `s` is reached from the freshly built tree by some run of any steps in any order. */
  ghost predicate Reachable(t: Tree, s: State) {
    WellFormed(t) && exists s0: State, ls :: Init(t, s0) && IsRun(t, s0, ls) && Execute(t, s0, ls) == s
  }

  lemma ReachableInv(t: Tree, s: State)
    requires Reachable(t, s) && Throttled(t)
    ensures Inv(t, s)
  {
    var s0: State, ls :| Init(t, s0) && IsRun(t, s0, ls) && Execute(t, s0, ls) == s;
    InitInv(t, s0);
    KeepRunOfSteps(t, s0, ls);
  }

  // ---- one token per process ----

  /** Runs submitted to the executor, steps under way, and "suspended, nothing submitted or under way". */
  function Tokens(n: Node): nat {
    n.pending + |n.active| + Bit(n.proc.suspend > 0 && n.pending == 0 && n.active == [])
  }

  /** A running process holds exactly one token; an idle one holds none, unless its last step is still
      destroying the downstream senders.  Two steps of one process never overlap. */
  lemma SingleToken(t: Tree, s: State, i: nat)
    requires Reachable(t, s) && Throttled(t) && i < |s.nodes|
    ensures s.nodes[i].proc.running ==> Tokens(s.nodes[i]) == 1
    ensures !s.nodes[i].proc.running ==> Tokens(s.nodes[i]) == Bit(ClearsDownstream(s.nodes[i]))
    ensures |s.nodes[i].active| <= 1
  {
    ReachableInv(t, s);
    assert Local(t, s, i);
  }

  // ---- back-pressure ----

  /** The children of `u` that have not acknowledged the current broadcast, counted. */
  ghost function Owing(t: Tree, s: State, u: nat): set<nat>
    requires WellFormed(t) && |s.nodes| == |t.kids| && u < |s.nodes|
  {
    set c | 0 < c < |s.nodes| && t.parent[c] == u && Debt(s.nodes[u], s.nodes[c], t.rank[c]) > 0
  }

  // The same set, restricted to the children from position `k` on.
  ghost function OwingFrom(t: Tree, s: State, u: nat, k: nat): set<nat>
    requires WellFormed(t) && |s.nodes| == |t.kids| && u < |s.nodes|
  {
    set c | c in Owing(t, s, u) && t.rank[c] >= k
  }

  lemma {:induction false} DebtSumCounts(t: Tree, s: State, u: nat, k: nat)
    requires WellFormed(t) && |s.nodes| == |t.kids| && u < |s.nodes| && k <= |t.kids[u]|
    requires forall c :: 0 < c < |s.nodes| && t.parent[c] == u ==> Debt(s.nodes[u], s.nodes[c], t.rank[c]) <= 1
    ensures DebtSum(t, s, u, k) == |OwingFrom(t, s, u, k)|
    decreases |t.kids[u]| - k
  {
    hide Debt;
    if k == |t.kids[u]| {
      assert OwingFrom(t, s, u, k) == {};
    } else {
      DebtSumCounts(t, s, u, k + 1);
      var c := Child(t, u, k);
      var rest := OwingFrom(t, s, u, k + 1);
      if Debt(s.nodes[u], s.nodes[c], k) > 0 {
        assert OwingFrom(t, s, u, k) == rest + {c};
      } else {
        assert OwingFrom(t, s, u, k) == rest;
      }
    }
  }

  /** The suspend count is the number of children that have not yet acknowledged, plus one while the
      broadcaster has not released itself; and a queue fed by a process never holds two messages. */
  lemma SuspendAccounting(t: Tree, s: State, i: nat)
    requires Reachable(t, s) && Throttled(t) && i < |s.nodes|
    ensures s.nodes[i].proc.suspend == |Owing(t, s, i)| + Bit(HoldsSelf(s.nodes[i]))
    ensures i > 0 ==> |s.nodes[i].proc.queue| <= 1
  {
    ReachableInv(t, s);
    assert Account(t, s, i);
    forall c | 0 < c < |s.nodes| && t.parent[c] == i ensures Debt(s.nodes[i], s.nodes[c], t.rank[c]) <= 1 {
      assert Edge(t, s, c);
    }
    DebtSumCounts(t, s, i, 0);
    assert OwingFrom(t, s, i, 0) == Owing(t, s, i);
    if i > 0 {
      assert Edge(t, s, i);
    }
  }

  /** `clear_to_send` never reaches its decrement at count zero, and never on a final process. */
  lemma ClearToSendIsOwed(t: Tree, s: State, i: nat)
    requires Reachable(t, s) && Throttled(t) && i < |s.nodes| && Active(s.nodes[i])
    ensures i > 0 && OwesClear(s.nodes[i]) ==>
              s.nodes[t.parent[i]].proc.suspend > 0 && !s.nodes[t.parent[i]].proc.final
    ensures s.nodes[i].active[0].SelfDown? ==> s.nodes[i].proc.suspend > 0 && !s.nodes[i].proc.final
  {
    ReachableInv(t, s);
    assert Local(t, s, i) && Account(t, s, i);
    if i > 0 && OwesClear(s.nodes[i]) {
      Creditor(t, s, i);
    }
  }

  /** In any tree, in any state: an acknowledgement that finds its process final leaves every process as it
      was, and goes on with what is next; one that does not is a decrement, never below zero, and asks for a
      run exactly if nothing more is due and something is left to do. */
  lemma FinalIsLeftAlone(t: Tree, s: State, i: nat, a: nat)
    requires WellFormed(t) && |s.nodes| == |t.kids| && i < |s.nodes| && a < |s.nodes[i].active|
    requires s.nodes[i].active[a].CtsCheck? || s.nodes[i].active[a].SelfCheck?
    ensures var u := if s.nodes[i].active[a].SelfCheck? then i else t.parent[i];
            var s' := AdvanceRun(t, s, i, a);
            && (forall x :: 0 <= x < |s.nodes| ==>
                  s'.nodes[x].proc == s.nodes[x].proc && s'.nodes[x].pending == s.nodes[x].pending)
            && (s.nodes[u].proc.final <==> !(a < |s'.nodes[i].active| == |s.nodes[i].active|
                                             && (s'.nodes[i].active[a].CtsDown? || s'.nodes[i].active[a].SelfDown?)))
  {}

  /** In any tree, in any state: a run takes the oldest message, and goes to tell the upstream, if there is
      one, exactly if the buffer has room again; with nothing to take, it turns the process final exactly if
      its queue is closed. */
  lemma TellsOnlyIfRoom(t: Tree, s: State, i: nat)
    requires WellFormed(t) && |s.nodes| == |t.kids| && i < |s.nodes| && Enabled(t, s, Run(i))
    requires |s.nodes[i].proc.queue| < SIZE_RANGE
    ensures var (n, n') := (s.nodes[i], Apply(t, s, Run(i)).nodes[i]);
            && |n'.active| == |n.active| + 1
            && var pc := n'.active[|n.active|];
            if n.proc.queue == [] then
              pc == Done && n'.taken == n.taken && n'.proc.final == n.proc.closeQueue && !n'.proc.closeQueue
            else
              && n'.taken == n.taken + [n.proc.queue[0]] && n'.proc.queue == n.proc.queue[1..]
              && n'.proc.final == n.proc.final && n'.proc.closeQueue == n.proc.closeQueue
              && (if i > 0 && (t.buffer[i] == 0 || |n.proc.queue| <= t.buffer[i]) then pc == CtsCheck(n.proc.queue[0])
                  else pc.Scan? && pc.w == t.stage[i](n.proc.queue[0]))
  {
    if s.nodes[i].proc.queue != [] {
      ToldIfRoom(s.nodes[i].proc, t.buffer[i]);
    }
  }

  /** In any tree, in any state: whatever step is taken, a process turns idle only with nothing left to do. */
  lemma StopsOnlyEmpty(t: Tree, s: State, l: Label, i: nat)
    requires WellFormed(t) && |s.nodes| == |t.kids| && Enabled(t, s, l) && i < |s.nodes|
    ensures var (p, p') := (s.nodes[i].proc, Apply(t, s, l).nodes[i].proc);
            p.running && !p'.running ==> p'.queue == [] && !p'.closeQueue
  {
    if l.Advance? {
      AdvanceStopsOnlyEmpty(t, s, l.i, l.a, i);
    }
  }

  lemma AdvanceStopsOnlyEmpty(t: Tree, s: State, j: nat, a: nat, i: nat)
    requires WellFormed(t) && |s.nodes| == |t.kids| && i < |s.nodes|
    requires j < |s.nodes| && a < |s.nodes[j].active|
    ensures var (p, p') := (s.nodes[i].proc, AdvanceRun(t, s, j, a).nodes[i].proc);
            p.running && !p'.running ==> p'.queue == [] && !p'.closeQueue
  {
    var pc := s.nodes[j].active[a];
    if pc.CtsDown? || pc.Send? || pc.Clear? || pc.ClearDown? {
      PairStopsOnlyEmpty(t, s, j, a, i);
    } else {
      assert AdvanceRun(t, s, j, a).nodes == s.nodes[j := AdvanceRun(t, s, j, a).nodes[j]];
    }
  }

  lemma PairStopsOnlyEmpty(t: Tree, s: State, j: nat, a: nat, i: nat)
    requires WellFormed(t) && |s.nodes| == |t.kids| && i < |s.nodes|
    requires j < |s.nodes| && a < |s.nodes[j].active|
    requires var pc := s.nodes[j].active[a]; pc.CtsDown? || pc.Send? || pc.Clear? || pc.ClearDown?
    ensures var (p, p') := (s.nodes[i].proc, AdvanceRun(t, s, j, a).nodes[i].proc);
            p.running && !p'.running ==> p'.queue == [] && !p'.closeQueue
  {}

  /** In any tree, in any state: destroying a sender takes one off its process's count, and goes on to close the
      process exactly if none is left. */
  lemma LastSenderCloses(t: Tree, s: State, i: nat, a: nat)
    requires WellFormed(t) && |s.nodes| == |t.kids| && i < |s.nodes| && a < |s.nodes[i].active|
    requires s.nodes[i].active[a].Clear? && s.nodes[i].active[a].next < |t.kids[i]|
    ensures var next := s.nodes[i].active[a].next;
            var c := Child(t, i, next);
            var s' := AdvanceRun(t, s, i, a);
            && (s.nodes[c].proc.senders > 0 ==> s'.nodes[c].proc.senders == s.nodes[c].proc.senders - 1)
            && s'.nodes[c].proc.closeQueue == s.nodes[c].proc.closeQueue
            && s'.nodes[i].active[a] == if s'.nodes[c].proc.senders == 0 then ClearDown(next) else Clear(next + 1)
  {}

  /** Two assertions of the source never fail: a final process does not ask for another run, and a sender
      count that is about to be decremented is not zero. */
  lemma AssertionsHold(t: Tree, s: State, i: nat)
    requires Reachable(t, s) && Throttled(t) && i < |s.nodes| && Active(s.nodes[i])
    ensures s.nodes[i].active[0].Done? ==>
              !(TaskDone(s.nodes[i].proc).1 && s.nodes[i].proc.final)
    ensures s.nodes[i].active[0].Clear? && s.nodes[i].active[0].next < |t.kids[i]| ==>
              s.nodes[Child(t, i, s.nodes[i].active[0].next)].proc.senders > 0
  {
    ReachableInv(t, s);
    assert Local(t, s, i);
    var pc := s.nodes[i].active[0];
    if pc.Clear? && pc.next < |t.kids[i]| {
      assert Edge(t, s, Child(t, i, pc.next));
    }
  }

  // ---- what flows through the pipeline ----

  /** What node `i` is to receive once everything sent has arrived: the stages above it, composed. */
  ghost function Expected(t: Tree, i: nat, sent: seq<Value>): seq<Value>
    requires WellFormed(t) && i < |t.kids|
    decreases i
  {
    if i == 0 then sent else Mapped(t.stage[t.parent[i]], Expected(t, t.parent[i], sent))
  }

  /** What is still on its way to node `i`, oldest first: queued at `i`, in its parent's hands, and
      further up. */
  ghost function Backlog(t: Tree, s: State, i: nat): seq<Value>
    requires WellFormed(t) && i < |s.nodes| == |t.kids|
    decreases i
  {
    if i == 0 then s.nodes[0].proc.queue
    else
      var u := t.parent[i];
      s.nodes[i].proc.queue + InFlight(t.stage[u], s.nodes[u], t.rank[i]) + Mapped(t.stage[u], Backlog(t, s, u))
  }

  lemma MappedConcat(f: Value -> Value, a: seq<Value>, b: seq<Value>)
    ensures Mapped(f, a + b) == Mapped(f, a) + Mapped(f, b)
  {}

  lemma EdgeConserves(t: Tree, s: State, c: nat)
    requires WellFormed(t) && Inv(t, s) && 0 < c < |s.nodes|
    ensures var u := t.parent[c];
            Mapped(t.stage[u], s.nodes[u].taken)
            == s.nodes[c].taken + s.nodes[c].proc.queue + InFlight(t.stage[u], s.nodes[u], t.rank[c])
  {
    assert Edge(t, s, c);
  }

  lemma {:induction false} InvConserves(t: Tree, s: State, i: nat)
    requires WellFormed(t) && Inv(t, s) && i < |s.nodes|
    ensures Expected(t, i, s.sent) == s.nodes[i].taken + Backlog(t, s, i)
    decreases i
  {
    if i > 0 {
      var u := t.parent[i];
      InvConserves(t, s, u);
      hide Inv, WellFormed, InFlight, Mapped;
      MappedConcat(t.stage[u], s.nodes[u].taken, Backlog(t, s, u));
      EdgeConserves(t, s, i);
    }
  }

  /** Consumed, queued, in flight and upstream values together are exactly the values sent, each once
      and in order; so what a stage has consumed is a prefix of the composed stages over what was sent. */
  lemma PipelineRefinement(t: Tree, s: State, i: nat)
    requires Reachable(t, s) && Throttled(t) && i < |s.nodes|
    ensures s.nodes[i].taken + Backlog(t, s, i) == Expected(t, i, s.sent)
    ensures s.nodes[i].taken <= Expected(t, i, s.sent)
  {
    ReachableInv(t, s);
    InvConserves(t, s, i);
  }

  // ---- closing ----

  lemma FinalParent(t: Tree, s: State, c: nat)
    requires WellFormed(t) && Inv(t, s) && 0 < c < |s.nodes| && s.nodes[c].proc.final
    ensures s.nodes[t.parent[c]].proc.final
    ensures InFlight(t.stage[t.parent[c]], s.nodes[t.parent[c]], t.rank[c]) == []
  {
    assert Edge(t, s, c) && Local(t, s, t.parent[c]);
  }

  lemma {:induction false} FinalBacklog(t: Tree, s: State, i: nat)
    requires WellFormed(t) && Inv(t, s) && i < |s.nodes| && s.nodes[i].proc.final
    ensures Backlog(t, s, i) == [] && s.users == 0
    decreases i
  {
    assert Local(t, s, i);
    if i > 0 {
      FinalParent(t, s, i);
      FinalBacklog(t, s, t.parent[i]);
    }
  }

  /** While a receiver of a process has not been set ready, the process has neither run nor been asked to. */
  lemma NotBeforeReady(t: Tree, s: State, i: nat)
    requires Reachable(t, s) && Throttled(t) && i < |s.nodes| && s.nodes[i].holders > 0
    ensures var n := s.nodes[i];
            !n.proc.running && n.pending == 0 && n.active == [] && n.taken == [] && n.readying == 0 && !n.proc.final
  {
    ReachableInv(t, s);
    assert Local(t, s, i);
  }

  /** A process becomes final only when all senders of the channel are gone, its parent is final, and it
      has processed and broadcast everything that was ever sent. */
  lemma CloseIsOrderly(t: Tree, s: State, i: nat)
    requires Reachable(t, s) && Throttled(t) && i < |s.nodes| && s.nodes[i].proc.final
    ensures s.nodes[i].proc.senders == 0 && s.users == 0
    ensures i > 0 ==> s.nodes[t.parent[i]].proc.final
    ensures s.nodes[i].taken == Expected(t, i, s.sent)
    ensures forall c :: 0 < c < |s.nodes| && t.parent[c] == i ==>
              InFlight(t.stage[i], s.nodes[i], t.rank[c]) == []
  {
    ReachableInv(t, s);
    assert Local(t, s, i);
    FinalBacklog(t, s, i);
    InvConserves(t, s, i);
    if i > 0 {
      FinalParent(t, s, i);
      assert Edge(t, s, i);
    }
  }

  /** Once final, a process never receives, pops or runs again. */
  lemma FinalForever(t: Tree, s: State, l: Label, i: nat)
    requires Reachable(t, s) && Throttled(t) && Enabled(t, s, l) && i < |s.nodes| && s.nodes[i].proc.final
    ensures l != Run(i)
    ensures var n' := Apply(t, s, l).nodes[i];
            n'.proc.final && n'.proc.queue == [] && n'.taken == s.nodes[i].taken && n'.pending == 0
    ensures Apply(t, s, l).sent == s.sent
  {
    ReachableInv(t, s);
    hide Inv, Apply;
    KeepStep(t, s, l);
    FinalStays(t, s, l, i);
    FinalNode(t, Apply(t, s, l), i);
    FinalNode(t, s, i);
  }

  lemma FinalNode(t: Tree, s: State, i: nat)
    requires WellFormed(t) && Inv(t, s) && i < |s.nodes| && s.nodes[i].proc.final
    ensures s.nodes[i].pending == 0 && s.nodes[i].proc.queue == []
  {
    assert Local(t, s, i);
  }

  lemma FinalStays(t: Tree, s: State, l: Label, i: nat)
    requires WellFormed(t) && Inv(t, s) && Enabled(t, s, l) && i < |s.nodes| && s.nodes[i].proc.final
    ensures Apply(t, s, l).nodes[i].proc.final && Apply(t, s, l).nodes[i].taken == s.nodes[i].taken
    ensures Apply(t, s, l).sent == s.sent
  {
    FinalNode(t, s, i);
    FinalBacklog(t, s, i);
    hide Inv;
    if l.Advance? {
      AdvancePopsNothing(t, s, l.i, l.a, i);
    }
  }

  // Only the start of a run pops messages or turns a process final.
  predicate PopsNothing(s: State, s': State, i: nat)
    requires i < |s.nodes| == |s'.nodes|
  {
    s'.nodes[i].proc.final == s.nodes[i].proc.final && s'.nodes[i].taken == s.nodes[i].taken && s'.sent == s.sent
  }

  lemma AdvancePopsNothing(t: Tree, s: State, j: nat, a: nat, i: nat)
    requires WellFormed(t) && |s.nodes| == |t.kids| && i < |s.nodes|
    requires j < |s.nodes| && a < |s.nodes[j].active|
    ensures PopsNothing(s, AdvanceRun(t, s, j, a), i)
  {
    var pc := s.nodes[j].active[a];
    if pc.Scan? || pc.Suspend? || pc.CtsCheck? || pc.Done? || pc.SelfCheck? || pc.SelfDown? {
      assert AdvanceRun(t, s, j, a).nodes == s.nodes[j := AdvanceRun(t, s, j, a).nodes[j]];
    } else {
      AdvancePairPopsNothing(t, s, j, a, i);
    }
  }

  lemma AdvancePairPopsNothing(t: Tree, s: State, j: nat, a: nat, i: nat)
    requires WellFormed(t) && |s.nodes| == |t.kids| && i < |s.nodes|
    requires j < |s.nodes| && a < |s.nodes[j].active|
    requires var pc := s.nodes[j].active[a]; pc.CtsDown? || pc.Send? || pc.Clear? || pc.ClearDown?
    ensures PopsNothing(s, AdvanceRun(t, s, j, a), i)
  {}
}
