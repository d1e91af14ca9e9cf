/**
 A tree of channel processes as a state machine.

 Node 0 is the process made by `channel`; every other node has one upstream process, its parent,
 and any number of downstream processes.  A linear pipeline is the tree in which every node has at
 most one child.  The environment sends, copies, closes and sets ready at any time.  The executor
 keeps a count of submitted runs for each process and starts any of them at any later time; the
 model lets it start any number of runs of one process at once.
 */
module ChannelNetwork {

  import opened ChannelProcess

  // `rank[c]` is the position of `c` among the children of its parent; `buffer[i]` is the buffer size
  // of process `i`, one unless it was annotated otherwise.
  datatype Tree = Tree(
    kids: seq<seq<nat>>,
    parent: seq<nat>,
    rank: seq<nat>,
    buffer: seq<nat>,
    stage: seq<Value -> Value>)

  ghost predicate WellFormed(t: Tree) {
    && 0 < |t.kids| == |t.parent| == |t.rank| == |t.buffer| == |t.stage|
    && t.parent[0] == 0
    && (forall i :: 0 <= i < |t.buffer| ==> t.buffer[i] < SIZE_RANGE)
    && (forall u, k :: 0 <= u < |t.kids| && 0 <= k < |t.kids[u]| ==> IsChild(t, u, k, t.kids[u][k]))
    && (forall c :: 0 < c < |t.parent| ==>
          t.parent[c] < c && t.rank[c] < |t.kids[t.parent[c]]| && t.kids[t.parent[c]][t.rank[c]] == c)
  }

  /** Child number `k` of process `u` has the default buffer size. */
  predicate Tight(t: Tree, u: nat, k: nat)
    requires u < |t.kids|
  {
    k < |t.kids[u]| && t.kids[u][k] < |t.buffer| && t.buffer[t.kids[u][k]] == 1
  }

  /** Every process with anything downstream feeds some process whose buffer size is one: with the default
      sizes they all are. */
  ghost predicate Throttled(t: Tree) {
    forall u :: 0 <= u < |t.kids| && t.kids[u] != [] ==> exists k :: Tight(t, u, k)
  }

  predicate IsChild(t: Tree, u: nat, k: nat, c: nat) {
    0 < c < |t.parent| == |t.rank| && t.parent[c] == u && t.rank[c] == k
  }

  ghost function Child(t: Tree, u: nat, k: nat): (c: nat)
    requires WellFormed(t) && u < |t.kids| && k < |t.kids[u]|
    ensures u < c < |t.kids| && IsChild(t, u, k, c)
  {
    t.kids[u][k]
  }

  /** Where a run of the non-yielding `step` stands, between two critical sections. */
  datatype Pc =
    | CtsCheck(v: Value)                               // about to test whether the upstream is final
    | CtsDown(v: Value)                                // about to decrement the upstream's suspend count
    | Scan(w: Value, next: nat, free: nat)             // reading the free buffers downstream
    | Suspend(w: Value, all: bool)                     // about to set the own suspend count
    | Send(w: Value, next: nat)                        // enqueuing downstream
    | SelfCheck                                        // about to test whether this process is final
    | SelfDown                                         // about to decrement the own suspend count
    | Done                                             // about to run task_done
    | Clear(next: nat)                                 // destroying the downstream senders
    | ClearDown(next: nat)                             // the sender count of child `next` has reached zero

  // `readying` counts the threads that have taken the receiver count to zero and not yet entered the
  // critical section; `taken` records the messages popped so far; `holders` are the receiver handles that
  // users hold and have not set ready, apart from what the receiver count says.
  datatype Node = Node(
    proc: Proc,
    pending: nat,
    active: seq<Pc>,
    readying: nat,
    taken: seq<Value>,
    holders: nat)

  // `closing` counts the threads that have taken the sender count of node 0 to zero and not yet
  // marked the queue closed; `sent` records what was sent to node 0; `users` are the sender handles on
  // node 0 that are alive, apart from what its sender count says.
  datatype State = State(nodes: seq<Node>, closing: nat, sent: seq<Value>, users: nat)

  datatype Label =
    | EnvSend(v: Value)
    | EnvAddSender
    | EnvDropSender
    | EnvAddReceiver(i: nat)
    | EnvDropReceiver(i: nat)
    | MarkClosed
    | SetReady(i: nat)
    | Run(i: nat)
    | Advance(i: nat, a: nat)

  /** Every process as its constructor leaves it: one sender, one receiver, nothing queued. */
  ghost predicate Init(t: Tree, s: State) {
    && |s.nodes| == |t.kids| && s.closing == 0 && s.sent == [] && s.users == 1
    && forall i :: 0 <= i < |s.nodes| ==> FreshNode(s.nodes[i])
  }

  predicate FreshNode(n: Node) {
    Fresh(n.proc) && n.pending == 0 && n.active == [] && n.readying == 0 && n.taken == [] && n.holders == 1
  }

  predicate Enabled(t: Tree, s: State, l: Label)
    requires |s.nodes| == |t.kids| > 0
  {
    match l
    // Users send through, copy and destroy the handles they hold.
    case EnvSend(_) => s.users > 0
    case EnvAddSender => s.users > 0
    case EnvDropSender => s.users > 0
    case EnvAddReceiver(i) => i < |s.nodes| && s.nodes[i].holders > 0
    case EnvDropReceiver(i) => i < |s.nodes| && s.nodes[i].holders > 0
    case MarkClosed => s.closing > 0
    case SetReady(i) => i < |s.nodes| && s.nodes[i].readying > 0
    case Run(i) => i < |s.nodes| && s.nodes[i].pending > 0
    case Advance(i, a) => i < |s.nodes| && a < |s.nodes[i].active|
  }

  // A step that the environment does not choose to make: it is owed by a thread or by the executor.
  predicate Internal(l: Label) {
    l.MarkClosed? || l.SetReady? || l.Run? || l.Advance?
  }

  function Put(s: State, i: nat, n: Node): State
    requires i < |s.nodes|
  {
    s.(nodes := s.nodes[i := n])
  }

  function After(n: Node, r: (Proc, bool)): Node {
    n.(proc := r.0, pending := if r.1 then n.pending + 1 else n.pending)
  }

  function Goto(n: Node, a: nat, pc: Pc): Node
    requires a < |n.active|
  {
    n.(active := n.active[a := pc])
  }

  function Leave(n: Node, a: nat): Node
    requires a < |n.active|
  {
    n.(active := n.active[..a] + n.active[a + 1..])
  }

  function Broadcast(t: Tree, i: nat, v: Value): Pc
    requires i < |t.kids| == |t.stage|
  {
    Scan(t.stage[i](v), 0, SIZE_RANGE - 1)
  }

  function Min(a: nat, b: nat): nat { if a <= b then a else b }

  /** The effect of one step. */
  ghost function Apply(t: Tree, s: State, l: Label): State
    requires WellFormed(t) && |s.nodes| == |t.kids| && Enabled(t, s, l)
    ensures |Apply(t, s, l).nodes| == |s.nodes|
  {
    match l
    case EnvSend(v) =>
      Put(s, 0, After(s.nodes[0], Enqueue(s.nodes[0].proc, v))).(sent := s.sent + [v])
    case EnvAddSender =>
      var p := s.nodes[0].proc;
      Put(s, 0, s.nodes[0].(proc := p.(senders := p.senders + 1))).(users := s.users + 1)
    case EnvDropSender =>
      var p := s.nodes[0].proc;
      Put(s, 0, s.nodes[0].(proc := p.(senders := if p.senders > 0 then p.senders - 1 else 0)))
        .(users := s.users - 1, closing := if p.senders == 1 then s.closing + 1 else s.closing)
    case EnvAddReceiver(i) =>
      var p := s.nodes[i].proc;
      Put(s, i, s.nodes[i].(proc := p.(receivers := p.receivers + 1), holders := s.nodes[i].holders + 1))
    case EnvDropReceiver(i) =>
      var n := s.nodes[i];
      Put(s, i, n.(proc := n.proc.(receivers := if n.proc.receivers > 0 then n.proc.receivers - 1 else 0),
                   holders := n.holders - 1,
                   readying := if n.proc.receivers == 1 then n.readying + 1 else n.readying))
    case MarkClosed =>
      Put(s, 0, After(s.nodes[0], CloseQueue(s.nodes[0].proc))).(closing := s.closing - 1)
    case SetReady(i) =>
      var n := s.nodes[i];
      Put(s, i, After(n.(readying := n.readying - 1), ReceiversReady(n.proc)))
    case Run(i) =>
      Put(s, i, StartRun(t, i, s.nodes[i]))
    case Advance(i, a) =>
      AdvanceRun(t, s, i, a)
  }

  ghost function StartRun(t: Tree, i: nat, n: Node): Node
    requires i < |t.kids| == |t.stage| == |t.buffer| && t.buffer[i] < SIZE_RANGE && n.pending > 0
  {
    var popped := PopFromQueue(n.proc, t.buffer[i]);
    var m := n.(proc := popped.proc, pending := n.pending - 1);
    match popped.message
    case None => m.(active := n.active + [Done])
    case Some(v) =>
      var pc := if popped.clearUpstream && i > 0 then CtsCheck(v) else Broadcast(t, i, v);
      m.(active := n.active + [pc], taken := n.taken + [v])
  }

  ghost function AdvanceRun(t: Tree, s: State, i: nat, a: nat): (s': State)
    requires WellFormed(t) && |s.nodes| == |t.kids| && i < |s.nodes| && a < |s.nodes[i].active|
    ensures |s'.nodes| == |s.nodes|
  {
    var n := s.nodes[i];
    match n.active[a]
    case CtsCheck(v) =>
      var upFinal := s.nodes[t.parent[i]].proc.final;
      Put(s, i, Goto(n, a, if upFinal then Broadcast(t, i, v) else CtsDown(v)))
    case CtsDown(v) =>
      var u := t.parent[i];
      var s1 := Put(s, u, After(s.nodes[u], ClearToSend(s.nodes[u].proc)));
      Put(s1, i, Goto(n, a, Broadcast(t, i, v)))
    case Scan(w, next, free) =>
      if t.kids[i] == [] then Put(s, i, Goto(n, a, Suspend(w, true)))
      else if next >= |t.kids[i]| then Put(s, i, Goto(n, a, Suspend(w, free <= 1)))
      else
        var c := Child(t, i, next);
        var seen := FreeBuffer(s.nodes[c].proc, t.buffer[c]);
        Put(s, i, Goto(n, a, Scan(w, next + 1, Min(free, seen))))
    case Suspend(w, all) =>
      var m := n.(proc := n.proc.(suspend := if all then |t.kids[i]| + 1 else 1));
      Put(s, i, Goto(m, a, Send(w, 0)))
    case Send(w, next) =>
      if next >= |t.kids[i]| then Put(s, i, Goto(n, a, SelfCheck))
      else
        var c := Child(t, i, next);
        var s1 := Put(s, c, After(s.nodes[c], Enqueue(s.nodes[c].proc, w)));
        Put(s1, i, Goto(n, a, Send(w, next + 1)))
    case SelfCheck =>
      Put(s, i, if n.proc.final then Leave(n, a) else Goto(n, a, SelfDown))
    case SelfDown =>
      Put(s, i, After(Leave(n, a), ClearToSend(n.proc)))
    case Done =>
      var m := After(n, TaskDone(n.proc));
      Put(s, i, if n.proc.final then Goto(m, a, Clear(0)) else Leave(m, a))
    case Clear(next) =>
      if next >= |t.kids[i]| then Put(s, i, Leave(n, a))
      else
        var c := Child(t, i, next);
        var p := s.nodes[c].proc;
        var left := if p.senders > 0 then p.senders - 1 else 0;
        var s1 := Put(s, c, s.nodes[c].(proc := p.(senders := left)));
        Put(s1, i, Goto(n, a, if left == 0 then ClearDown(next) else Clear(next + 1)))
    case ClearDown(next) =>
      if next >= |t.kids[i]| then Put(s, i, Leave(n, a))
      else
        var c := Child(t, i, next);
        var s1 := Put(s, c, After(s.nodes[c], CloseQueue(s.nodes[c].proc)));
        Put(s1, i, Goto(n, a, Clear(next + 1)))
  }

  /** A run: every label is enabled where it is taken. */
  ghost predicate IsRun(t: Tree, s: State, ls: seq<Label>)
    requires WellFormed(t) && |s.nodes| == |t.kids|
    decreases |ls|
  {
    ls == [] || (Enabled(t, s, ls[0]) && IsRun(t, Apply(t, s, ls[0]), ls[1..]))
  }

  ghost function Execute(t: Tree, s: State, ls: seq<Label>): (s': State)
    requires WellFormed(t) && |s.nodes| == |t.kids| && IsRun(t, s, ls)
    ensures |s'.nodes| == |s.nodes|
    decreases |ls|
  {
    if ls == [] then s else Execute(t, Apply(t, s, ls[0]), ls[1..])
  }
}
