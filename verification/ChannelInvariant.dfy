/** The global invariant of a tree of channel processes, kept by every step of every schedule. */
module ChannelInvariant {

  import opened ChannelProcess
  import opened ChannelNetwork

  predicate Active(n: Node) { |n.active| == 1 }

  // The broadcaster still holds its own share of the suspend count.
  predicate HoldsSelf(n: Node) {
    Active(n) && (n.active[0].Send? || n.active[0].SelfCheck? || n.active[0].SelfDown?)
  }

  predicate ClearsDownstream(n: Node) {
    Active(n) && (n.active[0].Clear? || n.active[0].ClearDown?)
  }

  predicate Finishes(n: Node) {
    Active(n) && (n.active[0].Done? || n.active[0].Clear? || n.active[0].ClearDown?)
  }

  // The message was popped and the upstream has not yet been told.
  predicate OwesClear(n: Node) {
    Active(n) && (n.active[0].CtsCheck? || n.active[0].CtsDown?)
  }

  predicate StillToSend(u: Node, rank: nat) {
    Active(u) && u.active[0].Send? && u.active[0].next <= rank
  }

  predicate BeingReleased(u: Node, rank: nat) {
    Active(u) && u.active[0].ClearDown? && u.active[0].next == rank
  }

  // The sender that `u` holds for its child number `rank` is still counted.
  predicate Attached(u: Node, rank: nat) {
    || !u.proc.final
    || (Active(u) && match u.active[0]
          case Clear(next) => next <= rank
          case ClearDown(next) => next < rank
          case _ => true)
  }

  function Bit(b: bool): nat { if b then 1 else 0 }

  function OwnDebt(c: Node): nat {
    |c.proc.queue| + Bit(OwesClear(c))
  }

  /** How much of its parent's current broadcast a child has still to acknowledge. */
  function Debt(u: Node, c: Node, rank: nat): nat {
    Bit(StillToSend(u, rank)) + OwnDebt(c)
  }

  ghost function DebtSum(t: Tree, s: State, u: nat, k: nat): nat
    requires WellFormed(t) && |s.nodes| == |t.kids| && u < |t.kids|
    decreases |t.kids[u]| - k
  {
    if k >= |t.kids[u]| then 0
    else Debt(s.nodes[u], s.nodes[Child(t, u, k)], k) + DebtSum(t, s, u, k + 1)
  }

  function Mapped(f: Value -> Value, vs: seq<Value>): seq<Value> {
    seq(|vs|, i requires 0 <= i < |vs| => f(vs[i]))
  }

  // The message that `u` has popped but not yet enqueued at its child number `rank`, after its stage.
  function InFlight(f: Value -> Value, u: Node, rank: nat): seq<Value> {
    if !Active(u) then []
    else match u.active[0]
      case CtsCheck(v) => [f(v)]
      case CtsDown(v) => [f(v)]
      case Scan(w, _, _) => [w]
      case Suspend(w, _) => [w]
      case Send(w, next) => if next <= rank then [w] else []
      case _ => []
  }

  /** The position of some child whose buffer size is one. */
  ghost function TightRank(t: Tree, u: nat): (k: nat)
    requires u < |t.kids|
    ensures k < |t.kids[u]| ==> Tight(t, u, k)
    ensures (exists j :: Tight(t, u, j)) ==> k < |t.kids[u]|
  {
    if k: nat :| Tight(t, u, k) then k else |t.kids[u]|
  }

  predicate PcOk(kids: nat, tight: nat, n: Node) {
    Active(n) ==>
      match n.active[0]
      case Scan(_, next, free) => next <= kids && (next > tight ==> free <= 1)
      case Suspend(_, all) => all
      case Send(_, next) => next <= kids
      case Clear(next) => next <= kids
      case ClearDown(next) => next < kids
      case _ => true
  }

  /** The single token: a running process is exactly one of submitted, stepping, or suspended. */
  predicate TokenOk(n: Node) {
    && n.pending + |n.active| <= 1
    && (n.proc.running <==> n.pending == 1 || (Active(n) && !ClearsDownstream(n)) || n.proc.suspend > 0)
    && (n.proc.suspend > 0 ==> n.pending == 0 && (Active(n) ==> HoldsSelf(n)))
    && (n.pending == 1 ==> n.proc.queue != [] || n.proc.closeQueue)
  }

  predicate ReadyOk(n: Node) {
    && n.readying <= 1 && n.proc.receivers == n.holders && (n.holders > 0 ==> n.taken == [])
    && (n.proc.receivers > 0 ==> n.readying == 0 && !n.proc.running && !n.proc.final)
    && (!n.proc.running && n.proc.receivers == 0 && n.readying == 0 ==>
          n.proc.queue == [] && !n.proc.closeQueue)
  }

  predicate FinalOk(n: Node) {
    && (n.proc.final ==> n.proc.queue == [] && !n.proc.closeQueue && n.proc.suspend == 0 && n.pending == 0)
    && (n.proc.final ==> Active(n) ==> Finishes(n))
    && (Finishes(n) ==> n.proc.final)
  }

  predicate NodeOk(kids: nat, tight: nat, n: Node) {
    PcOk(kids, tight, n) && TokenOk(n) && ReadyOk(n) && FinalOk(n)
  }

  ghost predicate Local(t: Tree, s: State, i: nat)
    requires i < |s.nodes| == |t.kids|
  {
    && NodeOk(|t.kids[i]|, TightRank(t, i), s.nodes[i])
    && (i == 0 ==> !OwesClear(s.nodes[i]))
  }

  /** The suspend count is what the children still owe, plus the broadcaster's own share. */
  ghost predicate Account(t: Tree, s: State, u: nat)
    requires WellFormed(t) && u < |s.nodes| == |t.kids|
  {
    s.nodes[u].proc.suspend == DebtSum(t, s, u, 0) + Bit(HoldsSelf(s.nodes[u]))
  }

  // Exactly one of: some sender is alive, the last one is closing, the queue is marked closed, final.
  predicate PhaseOk(p: Proc, closing: nat) {
    Bit(p.senders > 0) + closing + Bit(p.closeQueue) + Bit(p.final) == 1
  }

  /** What holds between a node `c` and its parent `u`. */
  predicate Link(f: Value -> Value, u: Node, c: Node, rank: nat) {
    && Debt(u, c, rank) <= 1
    && c.proc.senders == Bit(Attached(u, rank))
    && PhaseOk(c.proc, Bit(BeingReleased(u, rank)))
    && Mapped(f, u.taken) == c.taken + c.proc.queue + InFlight(f, u, rank)
  }

  predicate Edge(t: Tree, s: State, c: nat)
    requires 0 < c < |s.nodes| == |t.kids| == |t.parent| == |t.rank| == |t.stage| && t.parent[c] < c
  {
    Link(t.stage[t.parent[c]], s.nodes[t.parent[c]], s.nodes[c], t.rank[c])
  }

  predicate Root(s: State)
    requires |s.nodes| > 0
  {
    && PhaseOk(s.nodes[0].proc, s.closing) && s.nodes[0].proc.senders == s.users
    && s.sent == s.nodes[0].taken + s.nodes[0].proc.queue
  }

  ghost predicate Inv(t: Tree, s: State)
    requires WellFormed(t)
  {
    && Throttled(t)
    && |s.nodes| == |t.kids|
    && Root(s)
    && (forall i :: 0 <= i < |s.nodes| ==> Local(t, s, i))
    && (forall u :: 0 <= u < |s.nodes| ==> Account(t, s, u))
    && (forall c :: 0 < c < |s.nodes| ==> Edge(t, s, c))
  }

  // ---- sums of debts ----

  lemma {:induction false} DebtSumAgrees(t: Tree, s: State, s': State, u: nat, k: nat)
    requires WellFormed(t) && |s.nodes| == |s'.nodes| == |t.kids| && u < |t.kids|
    requires forall j :: k <= j < |t.kids[u]| ==>
               Debt(s'.nodes[u], s'.nodes[t.kids[u][j]], j) == Debt(s.nodes[u], s.nodes[t.kids[u][j]], j)
    ensures DebtSum(t, s', u, k) == DebtSum(t, s, u, k)
    decreases |t.kids[u]| - k
  {
    if k < |t.kids[u]| {
      DebtSumAgrees(t, s, s', u, k + 1);
    }
  }

  // Only child number `j` changes what it owes.
  lemma {:induction false} DebtSumChanged(t: Tree, s: State, s': State, u: nat, k: nat, j: nat)
    requires WellFormed(t) && |s.nodes| == |s'.nodes| == |t.kids| && u < |t.kids| && k <= j < |t.kids[u]|
    requires forall x :: k <= x < |t.kids[u]| && x != j ==>
               Debt(s'.nodes[u], s'.nodes[t.kids[u][x]], x) == Debt(s.nodes[u], s.nodes[t.kids[u][x]], x)
    ensures DebtSum(t, s', u, k) - Debt(s'.nodes[u], s'.nodes[Child(t, u, j)], j)
         == DebtSum(t, s, u, k) - Debt(s.nodes[u], s.nodes[Child(t, u, j)], j)
    decreases |t.kids[u]| - k
  {
    if k == j {
      DebtSumAgrees(t, s, s', u, k + 1);
    } else {
      DebtSumChanged(t, s, s', u, k + 1, j);
    }
  }

  lemma {:induction false} DebtSumConstant(t: Tree, s: State, u: nat, k: nat, d: nat)
    requires WellFormed(t) && |s.nodes| == |t.kids| && u < |t.kids| && k <= |t.kids[u]| && d <= 1
    requires forall j :: k <= j < |t.kids[u]| ==> Debt(s.nodes[u], s.nodes[t.kids[u][j]], j) == d
    ensures DebtSum(t, s, u, k) == d * (|t.kids[u]| - k)
    decreases |t.kids[u]| - k
  {
    if k < |t.kids[u]| {
      DebtSumConstant(t, s, u, k + 1, d);
    }
  }

  lemma {:induction false} DebtSumBounds(t: Tree, s: State, u: nat, k: nat, j: nat)
    requires WellFormed(t) && |s.nodes| == |t.kids| && u < |t.kids| && k <= j < |t.kids[u]|
    ensures Debt(s.nodes[u], s.nodes[Child(t, u, j)], j) <= DebtSum(t, s, u, k)
    decreases |t.kids[u]| - k
  {
    if k < j {
      DebtSumBounds(t, s, u, k + 1, j);
    }
  }

  // A process that is not suspended is owed nothing by its children.
  lemma NothingOwed(t: Tree, s: State, c: nat)
    requires WellFormed(t) && Inv(t, s) && 0 < c < |s.nodes|
    requires s.nodes[t.parent[c]].proc.suspend == 0
    ensures Debt(s.nodes[t.parent[c]], s.nodes[c], t.rank[c]) == 0
  {
    var u := t.parent[c];
    assert Account(t, s, u);
    DebtSumBounds(t, s, u, 0, t.rank[c]);
  }

  // ---- reassembling the invariant after a step that changes a few nodes ----

  /** `s'` differs from `s` only on the nodes in `changed`, and everything about those has been re-proved. */
  lemma Reassemble(t: Tree, s: State, s': State, changed: set<nat>)
    requires WellFormed(t) && Inv(t, s) && |s'.nodes| == |s.nodes|
    requires forall i :: 0 <= i < |s.nodes| && i !in changed ==> s'.nodes[i] == s.nodes[i]
    requires Root(s')
    requires forall i :: 0 <= i < |s.nodes| && i in changed ==> Local(t, s', i) && Account(t, s', i)
    requires forall c :: 0 < c < |s.nodes| && (c in changed || t.parent[c] in changed) ==> Edge(t, s', c)
    requires forall c :: 0 < c < |s.nodes| && c in changed && t.parent[c] !in changed ==>
               OwnDebt(s'.nodes[c]) == OwnDebt(s.nodes[c])
    ensures Inv(t, s')
  {
    hide NodeOk, Link, Root;
    forall i | 0 <= i < |s.nodes| ensures Local(t, s', i) {
      assert Local(t, s, i);
    }
    forall c | 0 < c < |s.nodes| ensures Edge(t, s', c) {
      assert Edge(t, s, c);
    }
    forall u | 0 <= u < |s.nodes| ensures Account(t, s', u) {
      assert Account(t, s, u);
      if u !in changed {
        forall j | 0 <= j < |t.kids[u]|
          ensures Debt(s'.nodes[u], s'.nodes[t.kids[u][j]], j) == Debt(s.nodes[u], s.nodes[t.kids[u][j]], j)
        {
          var c := Child(t, u, j);
        }
        DebtSumAgrees(t, s, s', u, 0);
      }
    }
  }
}
