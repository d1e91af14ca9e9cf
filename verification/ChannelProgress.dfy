/** Once sending stops, every schedule drains the tree and leaves nothing undelivered. */
module ChannelProgress {

  import opened ChannelProcess
  import opened ChannelNetwork
  import opened ChannelInvariant
  import opened ChannelSteps
  import opened ChannelSafety

  // ---- a quiet tree has delivered everything ----

  /** No thread and no executor has anything left to do. */
  ghost predicate Quiet(t: Tree, s: State)
    requires |s.nodes| == |t.kids| > 0
  {
    forall l: Label :: Internal(l) ==> !Enabled(t, s, l)
  }

  ghost predicate AllReady(s: State) {
    forall i :: 0 <= i < |s.nodes| ==> s.nodes[i].holders == 0
  }

  lemma QuietNode(t: Tree, s: State, i: nat)
    requires |s.nodes| == |t.kids| > 0 && Quiet(t, s) && i < |s.nodes|
    ensures s.nodes[i].pending == 0 && s.nodes[i].active == [] && s.nodes[i].readying == 0 && s.closing == 0
  {
    assert !Enabled(t, s, Run(i)) && !Enabled(t, s, Advance(i, 0));
    assert !Enabled(t, s, SetReady(i)) && !Enabled(t, s, MarkClosed);
  }

  // Towards the sinks: a node all of whose descendants are idle is idle.
  lemma {:induction false} QuietIsIdle(t: Tree, s: State, i: nat)
    requires WellFormed(t) && Inv(t, s) && Quiet(t, s) && AllReady(s) && i < |s.nodes|
    ensures !s.nodes[i].proc.running && s.nodes[i].proc.queue == [] && !s.nodes[i].proc.closeQueue
    decreases |s.nodes| - i
  {
    QuietNode(t, s, i);
    forall k | 0 <= k < |t.kids[i]| ensures Debt(s.nodes[i], s.nodes[t.kids[i][k]], k) == 0 {
      var c := Child(t, i, k);
      QuietIsIdle(t, s, c);
      QuietNode(t, s, c);
    }
    DebtSumConstant(t, s, i, 0, 0);
    assert Local(t, s, i) && Account(t, s, i);
  }

  lemma {:induction false} QuietBacklog(t: Tree, s: State, i: nat)
    requires WellFormed(t) && Inv(t, s) && Quiet(t, s) && AllReady(s) && i < |s.nodes|
    ensures Backlog(t, s, i) == []
    decreases i
  {
    QuietIsIdle(t, s, i);
    if i > 0 {
      QuietBacklog(t, s, t.parent[i]);
      QuietNode(t, s, t.parent[i]);
    }
  }

  lemma {:induction false} QuietIsClosed(t: Tree, s: State, i: nat)
    requires WellFormed(t) && Inv(t, s) && Quiet(t, s) && AllReady(s) && i < |s.nodes|
    requires s.users == 0
    ensures s.nodes[i].proc.final
    decreases i
  {
    QuietIsIdle(t, s, i);
    QuietNode(t, s, i);
    if i > 0 {
      var u := t.parent[i];
      QuietIsClosed(t, s, u);
      QuietNode(t, s, u);
      assert Edge(t, s, i);
    }
  }

  /** With every receiver set ready, a tree in which no step is enabled is idle, every stage has consumed
      all it is ever to consume, and the stages are final exactly if the channel was closed. */
  lemma QuietIsDelivered(t: Tree, s: State, i: nat)
    requires Reachable(t, s) && Throttled(t) && AllReady(s) && Quiet(t, s) && i < |s.nodes|
    ensures s.nodes[i].taken == Expected(t, i, s.sent)
    ensures !s.nodes[i].proc.running && s.nodes[i].proc.suspend == 0
    ensures s.nodes[i].proc.final <==> s.users == 0
  {
    ReachableInv(t, s);
    QuietIsIdle(t, s, i);
    QuietBacklog(t, s, i);
    InvConserves(t, s, i);
    assert Local(t, s, i);
    if s.users == 0 {
      QuietIsClosed(t, s, i);
    }
    if s.nodes[i].proc.final {
      FinalBacklog(t, s, i);
    }
  }

  // ---- the remaining work ----

  ghost function SendCost(t: Tree, i: nat, k: nat): nat
    requires WellFormed(t) && i < |t.kids|
    decreases |t.kids| - i, 0, |t.kids[i]| - k
  {
    if k >= |t.kids[i]| then 3
    else
      var c := Child(t, i, k);
      1 + MessageCost(t, c) + SendCost(t, i, k + 1)
  }

  ghost function ScanCost(t: Tree, i: nat, k: nat): nat
    requires WellFormed(t) && i < |t.kids|
    decreases |t.kids| - i, 1
  {
    (if k < |t.kids[i]| then |t.kids[i]| - k else 0) + 2 + SendCost(t, i, 0)
  }

  // What one queued message still costs at node `i` and below.
  ghost function MessageCost(t: Tree, i: nat): nat
    requires WellFormed(t) && i < |t.kids|
    decreases |t.kids| - i, 2
  {
    3 + ScanCost(t, i, 0)
  }

  ghost function ClearCost(t: Tree, i: nat, k: nat): nat
    requires WellFormed(t) && i < |t.kids|
    decreases |t.kids| - i, 0, |t.kids[i]| - k
  {
    if k >= |t.kids[i]| then 1
    else
      var c := Child(t, i, k);
      2 + CloseCost(t, c) + ClearCost(t, i, k + 1)
  }

  // What a closed queue still costs at node `i` and below.
  ghost function CloseCost(t: Tree, i: nat): nat
    requires WellFormed(t) && i < |t.kids|
    decreases |t.kids| - i, 1
  {
    2 + ClearCost(t, i, 0)
  }

  ghost function PcCost(t: Tree, i: nat, pc: Pc): nat
    requires WellFormed(t) && i < |t.kids|
  {
    match pc
    case CtsCheck(_) => 2 + ScanCost(t, i, 0)
    case CtsDown(_) => 1 + ScanCost(t, i, 0)
    case Scan(_, next, _) => ScanCost(t, i, next)
    case Suspend(_, _) => 1 + SendCost(t, i, 0)
    case Send(_, next) => SendCost(t, i, next)
    case SelfCheck => 2
    case SelfDown => 1
    case Done => 1 + ClearCost(t, i, 0)
    case Clear(next) => ClearCost(t, i, next)
    case ClearDown(next) => if next < |t.kids[i]| then ClearCost(t, i, next) - 1 else 1
  }

  ghost function Repeat(n: nat, cost: nat): nat {
    if n == 0 then 0 else cost + Repeat(n - 1, cost)
  }

  ghost function NodeCost(t: Tree, i: nat, n: Node): nat
    requires WellFormed(t) && i < |t.kids|
  {
    Repeat(|n.proc.queue|, MessageCost(t, i))
    + (if n.proc.closeQueue then CloseCost(t, i) else 0)
    + (if Active(n) then PcCost(t, i, n.active[0]) else 0)
    + n.readying
  }

  ghost function CostFrom(t: Tree, s: State, i: nat): nat
    requires WellFormed(t) && |s.nodes| == |t.kids|
    decreases |t.kids| - i
  {
    if i >= |t.kids| then 0 else NodeCost(t, i, s.nodes[i]) + CostFrom(t, s, i + 1)
  }

  /** A bound on the number of internal steps still to come. */
  ghost function Work(t: Tree, s: State): nat
    requires WellFormed(t) && |s.nodes| == |t.kids|
  {
    CostFrom(t, s, 0) + Repeat(s.closing, 1 + CloseCost(t, 0))
  }

  lemma {:induction false} CostFromSame(t: Tree, s: State, s': State, k: nat)
    requires WellFormed(t) && |s.nodes| == |s'.nodes| == |t.kids|
    requires forall i :: k <= i < |t.kids| ==> NodeCost(t, i, s'.nodes[i]) == NodeCost(t, i, s.nodes[i])
    ensures CostFrom(t, s', k) == CostFrom(t, s, k)
    decreases |t.kids| - k
  {
    if k < |t.kids| {
      CostFromSame(t, s, s', k + 1);
    }
  }

  lemma {:induction false} CostFromOne(t: Tree, s: State, s': State, k: nat, i: nat)
    requires WellFormed(t) && |s.nodes| == |s'.nodes| == |t.kids| && k <= i < |t.kids|
    requires forall j :: k <= j < |t.kids| && j != i ==> NodeCost(t, j, s'.nodes[j]) == NodeCost(t, j, s.nodes[j])
    ensures CostFrom(t, s', k) - NodeCost(t, i, s'.nodes[i]) == CostFrom(t, s, k) - NodeCost(t, i, s.nodes[i])
    decreases |t.kids| - k
  {
    if k == i {
      CostFromSame(t, s, s', k + 1);
    } else {
      CostFromOne(t, s, s', k + 1, i);
    }
  }

  lemma {:induction false} CostFromTwo(t: Tree, s: State, s': State, k: nat, i: nat, c: nat)
    requires WellFormed(t) && |s.nodes| == |s'.nodes| == |t.kids| && k <= i < c < |t.kids|
    requires forall j :: k <= j < |t.kids| && j != i && j != c ==>
               NodeCost(t, j, s'.nodes[j]) == NodeCost(t, j, s.nodes[j])
    ensures CostFrom(t, s', k) - NodeCost(t, i, s'.nodes[i]) - NodeCost(t, c, s'.nodes[c])
         == CostFrom(t, s, k) - NodeCost(t, i, s.nodes[i]) - NodeCost(t, c, s.nodes[c])
    decreases |t.kids| - k
  {
    if k == i {
      CostFromOne(t, s, s', k + 1, c);
    } else {
      CostFromTwo(t, s, s', k + 1, i, c);
    }
  }

  // ---- every internal step does some of it ----

  lemma RunCost(t: Tree, i: nat, n: Node)
    requires WellFormed(t) && i < |t.kids| && NodeOk(|t.kids[i]|, TightRank(t, i), n) && n.pending > 0
    ensures NodeCost(t, i, StartRun(t, i, n)) < NodeCost(t, i, n)
  {
    hide ScanCost, ClearCost;
  }

  // A step of a run that touches no other node: before the suspend count is set, or the last send ...
  lemma AloneCostBefore(t: Tree, s: State, i: nat)
    requires At(t, s, i)
    requires var pc := s.nodes[i].active[0];
             || (pc.CtsCheck? && i > 0 && !s.nodes[t.parent[i]].proc.final)
             || pc.Scan? || pc.Suspend?
             || (pc.Send? && pc.next >= |t.kids[i]|)
    ensures NodeCost(t, i, AdvanceRun(t, s, i, 0).nodes[i]) < NodeCost(t, i, s.nodes[i])
  {
    assert Local(t, s, i);
    hide Inv, NodeOk, MessageCost, ClearCost, CloseCost;
  }

  // ... and after it.
  lemma AloneCostAfter(t: Tree, s: State, i: nat)
    requires At(t, s, i)
    requires var pc := s.nodes[i].active[0];
             || pc.SelfCheck? || pc.SelfDown? || pc.Done?
             || ((pc.Clear? || pc.ClearDown?) && pc.next >= |t.kids[i]|)
    ensures NodeCost(t, i, AdvanceRun(t, s, i, 0).nodes[i]) < NodeCost(t, i, s.nodes[i])
  {
    assert Local(t, s, i);
    hide Inv, NodeOk, MessageCost, ScanCost, SendCost;
  }

  lemma AloneFrame(t: Tree, s: State, i: nat)
    requires At(t, s, i)
    requires var pc := s.nodes[i].active[0];
             !pc.CtsDown? && (pc.Send? || pc.Clear? || pc.ClearDown? ==> pc.next >= |t.kids[i]|)
    ensures forall j :: 0 <= j < |s.nodes| && j != i ==> AdvanceRun(t, s, i, 0).nodes[j] == s.nodes[j]
    ensures AdvanceRun(t, s, i, 0).closing == s.closing
  {
    hide Inv;
  }

  // A step that hands a message, or the end of the stream, to child `c`.
  lemma HandOverCost(t: Tree, s: State, i: nat, c: nat)
    requires At(t, s, i) && 0 < c < |s.nodes| && t.parent[c] == i
    requires var pc := s.nodes[i].active[0];
             (pc.Send? || pc.Clear? || pc.ClearDown?) && pc.next < |t.kids[i]| && c == t.kids[i][pc.next]
    ensures var s' := AdvanceRun(t, s, i, 0);
            && NodeCost(t, i, s'.nodes[i]) + NodeCost(t, c, s'.nodes[c])
               < NodeCost(t, i, s.nodes[i]) + NodeCost(t, c, s.nodes[c])
            && s'.closing == s.closing
            && forall j :: 0 <= j < |s.nodes| && j != i && j != c ==> s'.nodes[j] == s.nodes[j]
  {
    hide Inv, ScanCost, MessageCost, CloseCost;
  }

  // The acknowledgement changes nothing above but the suspend count and the token.
  lemma AcknowledgeCost(t: Tree, s: State, i: nat)
    requires At(t, s, i) && i > 0 && s.nodes[i].active[0].CtsDown?
    ensures var s' := AdvanceRun(t, s, i, 0);
            && NodeCost(t, i, s'.nodes[i]) < NodeCost(t, i, s.nodes[i])
            && s'.closing == s.closing
            && forall j :: 0 <= j < |s.nodes| && j != i ==> NodeCost(t, j, s'.nodes[j]) == NodeCost(t, j, s.nodes[j])
  {
    assert |s.nodes| == |t.kids|;
    var u := t.parent[i];
    assert AdvanceRun(t, s, i, 0).nodes[u] == After(s.nodes[u], ClearToSend(s.nodes[u].proc));
    hide Inv, MessageCost, ScanCost, ClearCost, CloseCost, SendCost;
  }

  lemma AdvanceCost(t: Tree, s: State, i: nat)
    requires At(t, s, i)
    ensures Work(t, AdvanceRun(t, s, i, 0)) < Work(t, s)
  {
    var s' := AdvanceRun(t, s, i, 0);
    var pc := s.nodes[i].active[0];
    assert Local(t, s, i);
    hide Inv, NodeCost;
    if pc.CtsDown? {
      AcknowledgeCost(t, s, i);
      CostFromOne(t, s, s', 0, i);
    } else if (pc.Send? || pc.Clear? || pc.ClearDown?) && pc.next < |t.kids[i]| {
      var c := Child(t, i, pc.next);
      HandOverCost(t, s, i, c);
      CostFromTwo(t, s, s', 0, i, c);
    } else {
      if pc.CtsCheck? {
        Creditor(t, s, i);
      }
      if pc.CtsCheck? || pc.Scan? || pc.Suspend? || pc.Send? {
        AloneCostBefore(t, s, i);
      } else {
        AloneCostAfter(t, s, i);
      }
      AloneFrame(t, s, i);
      CostFromOne(t, s, s', 0, i);
    }
  }

  /** Every internal step strictly decreases the remaining work. */
  lemma StepDoesWork(t: Tree, s: State, l: Label)
    requires WellFormed(t) && Inv(t, s) && Enabled(t, s, l) && Internal(l)
    ensures Work(t, Apply(t, s, l)) < Work(t, s)
  {
    var s' := Apply(t, s, l);
    match l
    case Run(i) =>
      assert Local(t, s, i);
      hide Inv, NodeCost;
      RunCost(t, i, s.nodes[i]);
      CostFromOne(t, s, s', 0, i);
    case Advance(i, a) =>
      assert Local(t, s, i);
      AdvanceCost(t, s, i);
    case SetReady(i) =>
      hide Inv;
      CostFromOne(t, s, s', 0, i);
    case MarkClosed =>
      hide Inv;
      CostFromOne(t, s, s', 0, 0);
  }

  // ---- the main results ----

  ghost predicate AllInternal(ls: seq<Label>) {
    forall k :: 0 <= k < |ls| ==> Internal(ls[k])
  }

  /** Draining terminates: a run of internal steps is never longer than the work in its first state. */
  lemma {:induction false} DrainTerminates(t: Tree, s: State, ls: seq<Label>)
    requires WellFormed(t) && Inv(t, s) && IsRun(t, s, ls) && AllInternal(ls)
    ensures |ls| + Work(t, Execute(t, s, ls)) <= Work(t, s)
    decreases |ls|
  {
    if ls != [] {
      hide Inv, Apply, Work;
      KeepStep(t, s, ls[0]);
      StepDoesWork(t, s, ls[0]);
      DrainTerminates(t, Apply(t, s, ls[0]), ls[1..]);
    }
  }

  lemma {:induction false} RunConcat(t: Tree, s: State, a: seq<Label>, b: seq<Label>)
    requires WellFormed(t) && |s.nodes| == |t.kids| && IsRun(t, s, a) && IsRun(t, Execute(t, s, a), b)
    ensures IsRun(t, s, a + b) && Execute(t, s, a + b) == Execute(t, Execute(t, s, a), b)
    decreases |a|
  {
    hide Apply;
    if a == [] {
      assert a + b == b;
    } else {
      assert (a + b)[1..] == a[1..] + b;
      RunConcat(t, Apply(t, s, a[0]), a[1..], b);
    }
  }

  lemma ReachableRun(t: Tree, s: State, ls: seq<Label>)
    requires Reachable(t, s) && |s.nodes| == |t.kids| && IsRun(t, s, ls)
    ensures Reachable(t, Execute(t, s, ls))
  {
    var s0: State, ls0 :| Init(t, s0) && IsRun(t, s0, ls0) && Execute(t, s0, ls0) == s;
    RunConcat(t, s0, ls0, ls);
    assert Execute(t, s0, ls0 + ls) == Execute(t, s, ls);
  }

  // What only the environment changes: what was sent, the handles that users hold, and the counts of them.
  predicate SameEnvironment(s: State, s': State) {
    && |s.nodes| == |s'.nodes| > 0 && s'.sent == s.sent
    && s'.users == s.users && s'.nodes[0].proc.senders == s.nodes[0].proc.senders
    && forall i :: 0 <= i < |s.nodes| ==>
         s'.nodes[i].holders == s.nodes[i].holders && s'.nodes[i].proc.receivers == s.nodes[i].proc.receivers
  }

  lemma AdvanceKeepsEnvironment(t: Tree, s: State, j: nat, a: nat)
    requires WellFormed(t) && |s.nodes| == |t.kids| && j < |s.nodes| && a < |s.nodes[j].active|
    ensures SameEnvironment(s, AdvanceRun(t, s, j, a))
  {
    var pc := s.nodes[j].active[a];
    if pc.CtsDown? || pc.Send? || pc.Clear? || pc.ClearDown? {
      HandOverKeepsEnvironment(t, s, j, a);
    } else {
      assert AdvanceRun(t, s, j, a).nodes == s.nodes[j := AdvanceRun(t, s, j, a).nodes[j]];
    }
  }

  lemma HandOverKeepsEnvironment(t: Tree, s: State, j: nat, a: nat)
    requires WellFormed(t) && |s.nodes| == |t.kids| && j < |s.nodes| && a < |s.nodes[j].active|
    requires var pc := s.nodes[j].active[a]; pc.CtsDown? || pc.Send? || pc.Clear? || pc.ClearDown?
    ensures SameEnvironment(s, AdvanceRun(t, s, j, a))
  {}

  lemma StepKeepsEnvironment(t: Tree, s: State, l: Label)
    requires WellFormed(t) && |s.nodes| == |t.kids| && Enabled(t, s, l) && Internal(l)
    ensures SameEnvironment(s, Apply(t, s, l))
  {
    if l.Advance? {
      AdvanceKeepsEnvironment(t, s, l.i, l.a);
    }
  }

  lemma {:induction false} InternalKeepsEnvironment(t: Tree, s: State, ls: seq<Label>)
    requires WellFormed(t) && |s.nodes| == |t.kids| && IsRun(t, s, ls) && AllInternal(ls)
    ensures SameEnvironment(s, Execute(t, s, ls))
    decreases |ls|
  {
    if ls != [] {
      StepKeepsEnvironment(t, s, ls[0]);
      hide Apply, Internal;
      InternalKeepsEnvironment(t, Apply(t, s, ls[0]), ls[1..]);
    }
  }

  predicate CountsOk(s: State) {
    && |s.nodes| > 0 && s.nodes[0].proc.senders == s.users
    && (s.users > 0 ==> s.closing == 0 && !s.nodes[0].proc.closeQueue && !s.nodes[0].proc.final)
    && forall i :: 0 <= i < |s.nodes| ==> s.nodes[i].proc.receivers == s.nodes[i].holders
  }

  // Only its own users, and the start of a run, close node 0.
  lemma AdvanceClosesNothing(t: Tree, s: State, j: nat, a: nat)
    requires WellFormed(t) && |s.nodes| == |t.kids| && j < |s.nodes| && a < |s.nodes[j].active|
    ensures SameClosing(s, AdvanceRun(t, s, j, a))
  {
    var pc := s.nodes[j].active[a];
    if pc.CtsDown? || pc.Send? || pc.Clear? || pc.ClearDown? {
      HandOverClosesNothing(t, s, j, a);
    } else {
      assert AdvanceRun(t, s, j, a).nodes == s.nodes[j := AdvanceRun(t, s, j, a).nodes[j]];
    }
  }

  predicate SameClosing(s: State, s': State) {
    && |s.nodes| == |s'.nodes| > 0 && s'.closing == s.closing
    && s'.nodes[0].proc.closeQueue == s.nodes[0].proc.closeQueue && s'.nodes[0].proc.final == s.nodes[0].proc.final
  }

  lemma HandOverClosesNothing(t: Tree, s: State, j: nat, a: nat)
    requires WellFormed(t) && |s.nodes| == |t.kids| && j < |s.nodes| && a < |s.nodes[j].active|
    requires var pc := s.nodes[j].active[a]; pc.CtsDown? || pc.Send? || pc.Clear? || pc.ClearDown?
    ensures SameClosing(s, AdvanceRun(t, s, j, a))
  {}

  lemma {:induction false} KeepCounts(t: Tree, s: State, ls: seq<Label>)
    requires WellFormed(t) && |s.nodes| == |t.kids| && IsRun(t, s, ls) && CountsOk(s)
    ensures CountsOk(Execute(t, s, ls))
    decreases |ls|
  {
    if ls != [] {
      if Internal(ls[0]) {
        StepKeepsEnvironment(t, s, ls[0]);
        if ls[0].Advance? {
          AdvanceClosesNothing(t, s, ls[0].i, ls[0].a);
        }
      }
      assert CountsOk(Apply(t, s, ls[0]));
      KeepCounts(t, Apply(t, s, ls[0]), ls[1..]);
    }
  }

  /** In every run of every tree, the sender count of the channel is the number of sender handles alive, and
      each receiver count is the number of receiver handles that have not been set ready.  While a sender
      handle is alive the channel is neither closing nor closed nor final. */
  lemma CountsAreHandles(t: Tree, s: State, i: nat)
    requires Reachable(t, s) && i < |s.nodes|
    ensures s.nodes[0].proc.senders == s.users && s.nodes[i].proc.receivers == s.nodes[i].holders
    ensures s.users > 0 ==> s.closing == 0 && !s.nodes[0].proc.closeQueue && !s.nodes[0].proc.final
  {
    var s0: State, ls :| Init(t, s0) && IsRun(t, s0, ls) && Execute(t, s0, ls) == s;
    assert forall k :: 0 <= k < |s0.nodes| ==> FreshNode(s0.nodes[k]);
    KeepCounts(t, s0, ls);
  }

  // The values that users have sent, in order.
  function SentBy(ls: seq<Label>): seq<Value> {
    if ls == [] then [] else (if ls[0].EnvSend? then [ls[0].v] else []) + SentBy(ls[1..])
  }

  function Times(ls: seq<Label>, l: Label): nat {
    if ls == [] then 0 else (if ls[0] == l then 1 else 0) + Times(ls[1..], l)
  }

  lemma StepRecordsUsers(t: Tree, s: State, l: Label, i: nat)
    requires WellFormed(t) && |s.nodes| == |t.kids| > 0 && Enabled(t, s, l) && i < |s.nodes|
    ensures var s' := Apply(t, s, l);
            && s'.users == s.users + (if l == EnvAddSender then 1 else 0) - (if l == EnvDropSender then 1 else 0)
            && s'.nodes[i].holders == s.nodes[i].holders + (if l == EnvAddReceiver(i) then 1 else 0)
                                                         - (if l == EnvDropReceiver(i) then 1 else 0)
            && s'.sent == s.sent + (if l.EnvSend? then [l.v] else [])
  {
    if Internal(l) {
      StepKeepsEnvironment(t, s, l);
    }
  }

  lemma Regroup(a: seq<Value>, b: seq<Value>, c: seq<Value>)
    ensures (a + b) + c == a + (b + c)
  {}

  /** The record of what was sent is what users have sent, in order. */
  lemma {:induction false} SentIsHistory(t: Tree, s: State, ls: seq<Label>)
    requires WellFormed(t) && |s.nodes| == |t.kids| > 0 && IsRun(t, s, ls)
    ensures Execute(t, s, ls).sent == s.sent + SentBy(ls)
    decreases |ls|
  {
    hide Apply, Enabled, WellFormed;
    if ls != [] {
      StepRecordsUsers(t, s, ls[0], 0);
      SentIsHistory(t, Apply(t, s, ls[0]), ls[1..]);
      Regroup(s.sent, if ls[0].EnvSend? then [ls[0].v] else [], SentBy(ls[1..]));
    } else {
      assert s.sent + [] == s.sent;
    }
  }

  /** The records of the handles are what users have done: handles copied less handles destroyed. */
  lemma {:induction false} RecordsAreHistory(t: Tree, s: State, ls: seq<Label>, i: nat)
    requires WellFormed(t) && |s.nodes| == |t.kids| > 0 && IsRun(t, s, ls) && i < |s.nodes|
    ensures var e := Execute(t, s, ls);
            && e.users + Times(ls, EnvDropSender) == s.users + Times(ls, EnvAddSender)
            && e.nodes[i].holders + Times(ls, EnvDropReceiver(i)) == s.nodes[i].holders + Times(ls, EnvAddReceiver(i))
    decreases |ls|
  {
    hide Apply, Enabled, WellFormed;
    if ls != [] {
      StepRecordsUsers(t, s, ls[0], i);
      RecordsAreHistory(t, Apply(t, s, ls[0]), ls[1..], i);
    }
  }

  /** So, from the start of any run, the counts that the processes keep are what users have done. */
  lemma CountsAreHistory(t: Tree, s0: State, ls: seq<Label>, i: nat)
    requires WellFormed(t) && Init(t, s0) && IsRun(t, s0, ls) && i < |s0.nodes|
    ensures var e := Execute(t, s0, ls);
            && e.nodes[0].proc.senders + Times(ls, EnvDropSender) == 1 + Times(ls, EnvAddSender)
            && e.nodes[i].proc.receivers + Times(ls, EnvDropReceiver(i)) == 1 + Times(ls, EnvAddReceiver(i))
            && e.sent == SentBy(ls)
  {
    assert FreshNode(s0.nodes[i]) && Execute(t, s0, []) == s0;
    RecordsAreHistory(t, s0, ls, i);
    SentIsHistory(t, s0, ls);
    CountsAreHandles(t, Execute(t, s0, ls), i);
  }

  /** Whatever the schedule, a run of internal steps that cannot go on has delivered, at every stage,
      exactly the composed stages over what was sent, and has closed every stage if the channel was
      closed. */
  lemma DrainDelivers(t: Tree, s: State, ls: seq<Label>, i: nat)
    requires Reachable(t, s) && Throttled(t) && AllReady(s) && |s.nodes| == |t.kids| && i < |s.nodes|
    requires IsRun(t, s, ls) && AllInternal(ls) && Quiet(t, Execute(t, s, ls))
    ensures Execute(t, s, ls).nodes[i].taken == Expected(t, i, s.sent)
    ensures Execute(t, s, ls).nodes[i].proc.final <==> s.users == 0
  {
    ReachableRun(t, s, ls);
    InternalKeepsEnvironment(t, s, ls);
    QuietIsDelivered(t, Execute(t, s, ls), i);
  }

  /** There is always such a run: from every reachable state internal steps lead to a quiet one. */
  lemma {:induction false} DrainExists(t: Tree, s: State) returns (ls: seq<Label>)
    requires WellFormed(t) && Inv(t, s)
    ensures IsRun(t, s, ls) && AllInternal(ls) && Quiet(t, Execute(t, s, ls))
    decreases Work(t, s)
  {
    if Quiet(t, s) {
      ls := [];
    } else {
      var l: Label :| Internal(l) && Enabled(t, s, l);
      KeepStep(t, s, l);
      StepDoesWork(t, s, l);
      hide Inv, Apply, Work, Quiet, Internal, Enabled;
      var rest := DrainExists(t, Apply(t, s, l));
      ls := [l] + rest;
      assert ls[1..] == rest;
    }
  }

  /** Progress: while some stage has not consumed everything it is to consume, some internal step is enabled. */
  lemma Progress(t: Tree, s: State, i: nat)
    requires Reachable(t, s) && Throttled(t) && AllReady(s) && |s.nodes| == |t.kids| && i < |s.nodes|
    requires s.nodes[i].taken != Expected(t, i, s.sent)
    ensures exists l: Label :: Internal(l) && Enabled(t, s, l)
  {
    if Quiet(t, s) {
      QuietIsDelivered(t, s, i);
    }
  }
}
