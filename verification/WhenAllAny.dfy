/**
 The range combinators `when_all` and `when_any`: n inputs complete in any order and on any threads,
 each thread going through one of the two triggers, one atomic access to the shared context at a time.
 */
module WhenAllAny {

  import opened Wrappers
  import opened FutureState

  datatype Mode = WhenAll | WhenAny

  // What the combined future is resolved with.
  datatype Combined =
    | All(results: seq<Option<Data>>)
    | First(result: Option<Data>, index: nat)
    | Failed(exception: Exception)

  datatype Context = Context(
    remaining: int,
    flag: bool,                       // _single_event_trigger
    holds: seq<bool>,                 // the futures of the input continuations
    results: seq<Option<Data>>,       // when_all
    result: Option<Data>,             // when_any
    index: nat,
    exception: Option<Exception>)

  function Count(x: Context): (Context, bool) {
    (x.(remaining := x.remaining - 1), x.remaining - 1 == 0)
  }

  function TestAndSet(x: Context): (Context, bool) {
    (x.(flag := true), x.flag)
  }

  function Cancel(x: Context): Context {
    x.(holds := seq(|x.holds|, _ => false))
  }

  function Collect(m: Mode, x: Context, i: nat, o: Outcome): Context {
    match o
    case Error(e) => x.(exception := Some(e))
    case Value(v) =>
      if m == WhenAny then x.(result := Some(v), index := i)
      else if i < |x.results| then x.(results := x.results[i := Some(v)])
      else x
  }

  // `execute`: a stored exception is rethrown, otherwise the function gets the results.
  function Run(m: Mode, x: Context): Combined {
    if x.exception.Some? then Failed(x.exception.value)
    else if m == WhenAll then All(x.results)
    else First(x.result, x.index)
  }

  /** The context, accessed in place.  The functions that specify the methods are the steps of `Apply`:
      `WhenAllFiresOnce`, `WhenAnyFiresOnce` and `QuietHasFired` say what they achieve together. */
  class CommonContext {
    const mode: Mode
    var remaining: int
    var singleEventTrigger: bool
    var holds: seq<bool>
    var results: seq<Option<Data>>
    var result: Option<Data>
    var index: nat
    var exception: Option<Exception>

    ghost function View(): Context
      reads this
    {
      Context(remaining, singleEventTrigger, holds, results, result, index, exception)
    }

    constructor (mode: Mode, n: nat)
      ensures this.mode == mode && FreshContext(View(), n)
    {
      this.mode := mode;
      remaining, singleEventTrigger := n, false;
      holds, results := seq(n, _ => true), seq(n, _ => None);
      result, index, exception := None, 0, None;
    }

    method CountDown() returns (zero: bool)
      modifies this
      ensures (View(), zero) == Count(old(View()))
    {
      remaining := remaining - 1;
      zero := remaining == 0;
    }

    method RaiseFlag() returns (before: bool)
      modifies this
      ensures (View(), before) == TestAndSet(old(View()))
    {
      before := singleEventTrigger;
      singleEventTrigger := true;
    }

    method ResetHolds()
      modifies this
      ensures View() == Cancel(old(View()))
    {
      var i := 0;
      while i < |holds|
        invariant 0 <= i <= |holds| == |old(holds)|
        invariant forall j :: 0 <= j < i ==> !holds[j]
        invariant View() == old(View()).(holds := holds)
      {
        holds := holds[i := false];
        i := i + 1;
      }
    }

    method ApplyOutcome(i: nat, o: Outcome)
      modifies this
      ensures View() == Collect(mode, old(View()), i, o)
      ensures if o.Error? then exception == Some(o.exception) else exception == old(exception)
      ensures o.Value? && mode == WhenAny ==> result == Some(o.data) && index == i
      ensures o.Value? && mode == WhenAll && i < |old(results)| ==> results == old(results)[i := Some(o.data)]
    {
      match o {
        case Error(e) => exception := Some(e);
        case Value(v) =>
          if mode == WhenAny {
            result, index := Some(v), i;
          } else if i < |results| {
            results := results[i := Some(v)];
          }
      }
    }
  }

  predicate FreshContext(x: Context, n: nat) {
    && x.remaining == n && !x.flag && |x.holds| == |x.results| == n && x.exception == None && x.result == None
    && (forall i :: 0 <= i < n ==> x.holds[i] && x.results[i] == None)
  }

  // ---- all interleavings ----

  datatype Pc =
    | Pending        // the input's continuation has not started
    | Storing        // about to store its result (all_trigger, success)
    | Counting       // about to decrement the counter
    | Flagging       // about to test and set the flag
    | Cancelling     // has won the flag; about to reset the holds
    | Applying       // about to store its value or exception before firing
    | Firing         // about to run the combined task
    | Over

  // `trigger` is the input that is to fire; `counted` are those that have decremented the counter; `lost`
  // are those whose promise broke while their continuation waited, and was destroyed unrun.
  datatype State = State(
    x: Context,
    pcs: seq<Pc>,
    fired: seq<Combined>,
    trigger: Option<nat>,
    counted: set<nat>,
    lost: set<nat>)

  datatype Label =
    | Start(i: nat)
    | Drop(i: nat)     // a cancelled continuation is destroyed, or finds the context gone
    | Break(i: nat)    // the promise of a waiting input breaks
    | Step(i: nat)

  datatype Inputs = Inputs(mode: Mode, outs: seq<Outcome>)

  // The inputs that go through all_trigger: the successes of when_all, the failures of when_any.
  predicate Counts(t: Inputs, i: nat)
    requires i < |t.outs|
  {
    (t.mode == WhenAll) == t.outs[i].Value?
  }

  ghost predicate Init(t: Inputs, s: State) {
    && |t.outs| > 0 && |s.pcs| == |t.outs| && FreshContext(s.x, |t.outs|)
    && s.fired == [] && s.trigger == None && s.counted == {} && s.lost == {}
    && forall i :: 0 <= i < |s.pcs| ==> s.pcs[i] == Pending
  }

  predicate Enabled(t: Inputs, s: State, l: Label) {
    match l
    case Start(i) => i < |s.pcs| && s.pcs[i] == Pending
    case Drop(i) => i < |s.pcs| == |s.x.holds| && s.pcs[i] == Pending && (!s.x.holds[i] || s.fired != [])
    // An input may also have been broken, or have passed the exception of a broken one on, before it was
    // attached or without waiting: then its continuation starts like any other.
    case Break(i) => i < |s.pcs| == |t.outs| && s.pcs[i] == Pending && t.outs[i] == Error(BrokenPromise)
    case Step(i) => i < |s.pcs| && s.pcs[i] != Pending && s.pcs[i] != Over
  }

  function Goto(s: State, i: nat, pc: Pc): State
    requires i < |s.pcs|
  {
    s.(pcs := s.pcs[i := pc])
  }

  function Apply(t: Inputs, s: State, l: Label): (s': State)
    requires |s.pcs| == |t.outs| && Enabled(t, s, l)
    ensures |s'.pcs| == |s.pcs|
  {
    match l
    case Start(i) =>
      Goto(s, i, if !Counts(t, i) then Flagging else if t.mode == WhenAll then Storing else Counting)
    case Drop(i) => Goto(s, i, Over)
    case Break(i) => Goto(s, i, Over).(lost := s.lost + {i})
    case Step(i) =>
      match s.pcs[i] {
        case Storing => Goto(s, i, Counting).(x := Collect(t.mode, s.x, i, t.outs[i]))
        case Counting =>
          var (x, zero) := Count(s.x);
          var s1 := s.(x := x, counted := s.counted + {i});
          if !zero then Goto(s1, i, Over)
          else Goto(s1, i, if t.mode == WhenAll then Firing else Applying).(trigger := Some(i))
        case Flagging =>
          var (x, before) := TestAndSet(s.x);
          if before then Goto(s, i, Over).(x := x) else Goto(s, i, Cancelling).(x := x, trigger := Some(i))
        case Cancelling => Goto(s, i, Applying).(x := Cancel(s.x))
        case Applying => Goto(s, i, Firing).(x := Collect(t.mode, s.x, i, t.outs[i]))
        case Firing => Goto(s, i, Over).(fired := s.fired + [Run(t.mode, s.x)])
        case _ => s
      }
  }

  ghost predicate IsRun(t: Inputs, s: State, ls: seq<Label>)
    requires |s.pcs| == |t.outs|
    decreases |ls|
  {
    ls == [] || (Enabled(t, s, ls[0]) && IsRun(t, Apply(t, s, ls[0]), ls[1..]))
  }

  ghost function Execute(t: Inputs, s: State, ls: seq<Label>): (s': State)
    requires |s.pcs| == |t.outs| && IsRun(t, s, ls)
    ensures |s'.pcs| == |s.pcs|
    decreases |ls|
  {
    if ls == [] then s else Execute(t, Apply(t, s, ls[0]), ls[1..])
  }

  ghost predicate Reachable(t: Inputs, s: State) {
    exists s0: State, ls :: Init(t, s0) && IsRun(t, s0, ls) && Execute(t, s0, ls) == s
  }

  // ---- the invariant ----

  predicate Late(pc: Pc) { pc.Cancelling? || pc.Applying? || pc.Firing? }

  /** What input `k` resolves the combined future with, if it is the one to fire. */
  ghost predicate Fires(t: Inputs, k: nat, r: Combined)
    requires k < |t.outs|
  {
    match t.outs[k]
    case Error(e) => r == Failed(e)
    case Value(v) =>
      if t.mode == WhenAny then r == First(Some(v), k)
      else r.All? && |r.results| == |t.outs|
           && forall i :: 0 <= i < |t.outs| ==> t.outs[i].Value? && r.results[i] == Some(t.outs[i].data)
  }

  predicate InputInv(t: Inputs, s: State, i: nat)
    requires i < |s.pcs| == |t.outs| == |s.x.holds| == |s.x.results|
  {
    && (match s.pcs[i]
        case Storing => Counts(t, i) && t.mode == WhenAll
        case Counting => Counts(t, i)
        case Flagging => !Counts(t, i)
        case Cancelling => !Counts(t, i)
        case Applying => t.mode == WhenAny || !Counts(t, i)
        case _ => true)
    && (i in s.counted ==> Counts(t, i) && (s.pcs[i] == Over || Late(s.pcs[i])))
    && (Late(s.pcs[i]) ==> s.trigger == Some(i))
    && (Counts(t, i) && (s.pcs[i] == Over || Late(s.pcs[i])) && s.trigger == None ==> i in s.counted || i in s.lost)
    && (Late(s.pcs[i]) && Counts(t, i) ==> i in s.counted)
    && (!Counts(t, i) && s.pcs[i] == Over && i !in s.lost ==> s.trigger != None)
    && (i in s.lost ==>
          s.pcs[i] == Over && t.outs[i] == Error(BrokenPromise) && i !in s.counted && s.trigger != Some(i))
    && (t.mode == WhenAll && t.outs[i].Value? && (i in s.counted || s.pcs[i] == Counting) ==>
          s.x.results[i] == Some(t.outs[i].data))
    && (s.trigger == None ==> s.x.holds[i])
  }

  ghost predicate TriggerInv(t: Inputs, s: State)
    requires |s.pcs| == |t.outs| == |s.x.results|
  {
    match s.trigger
    case None =>
      !s.x.flag && s.x.remaining > 0 && s.fired == [] && s.x.exception == None
    case Some(k) =>
      && k < |s.pcs| && s.x.flag == !Counts(t, k) && (s.x.remaining == 0) == Counts(t, k)
      && (if s.pcs[k] == Over then |s.fired| == 1 && Fires(t, k, s.fired[0]) else s.fired == [] && Late(s.pcs[k]))
      && (s.pcs[k].Cancelling? || s.pcs[k].Applying? ==> s.x.exception == None)
      && (s.pcs[k].Firing? ==> FiresNow(t, s, k))
  }

  // The winner has stored what it fires with; for the last success of when_all, every result is in place.
  ghost predicate FiresNow(t: Inputs, s: State, k: nat)
    requires k < |t.outs|
  {
    match t.outs[k]
    case Error(e) => s.x.exception == Some(e)
    case Value(v) => s.x.exception == None && (t.mode == WhenAny ==> s.x.result == Some(v) && s.x.index == k)
  }

  ghost predicate Inv(t: Inputs, s: State) {
    && |s.pcs| == |t.outs| == |s.x.holds| == |s.x.results| && |t.outs| > 0
    && (forall i :: 0 <= i < |s.pcs| ==> InputInv(t, s, i))
    && (forall i :: i in s.counted || i in s.lost ==> i < |s.pcs|)
    && s.x.remaining == |s.pcs| - |s.counted|
    && TriggerInv(t, s)
  }

  function Upto(n: nat): (r: set<nat>)
    ensures |r| == n && forall x: nat :: x in r <==> x < n
  {
    if n == 0 then {} else Upto(n - 1) + {n - 1}
  }

  lemma SubsetSize(a: set<nat>, b: set<nat>)
    requires a <= b
    ensures |a| <= |b| && (|a| == |b| ==> a == b)
  {
    assert b == a + (b - a);
  }

  // As long as one input has not counted, the counter is positive; at zero every input has counted.
  lemma CountedBound(t: Inputs, s: State, i: nat)
    requires Inv(t, s) && i < |s.pcs|
    ensures i !in s.counted ==> s.x.remaining > 0
  {
    SubsetSize(s.counted, Upto(|s.pcs|));
  }

  lemma InitInv(t: Inputs, s: State)
    requires Init(t, s)
    ensures Inv(t, s)
  {}

  lemma KeepStart(t: Inputs, s: State, i: nat)
    requires Inv(t, s) && Enabled(t, s, Start(i))
    ensures Inv(t, Apply(t, s, Start(i)))
  {
    forall j | 0 <= j < |s.pcs| ensures InputInv(t, Apply(t, s, Start(i)), j) {
      assert InputInv(t, s, j);
    }
  }

  lemma KeepDrop(t: Inputs, s: State, i: nat)
    requires Inv(t, s) && Enabled(t, s, Drop(i))
    ensures Inv(t, Apply(t, s, Drop(i)))
  {
    assert InputInv(t, s, i);
    forall j | 0 <= j < |s.pcs| ensures InputInv(t, Apply(t, s, Drop(i)), j) {
      assert InputInv(t, s, j);
    }
  }

  lemma KeepBreak(t: Inputs, s: State, i: nat)
    requires Inv(t, s) && Enabled(t, s, Break(i))
    ensures Inv(t, Apply(t, s, Break(i)))
  {
    assert InputInv(t, s, i);
    forall j | 0 <= j < |s.pcs| ensures InputInv(t, Apply(t, s, Break(i)), j) {
      assert InputInv(t, s, j);
    }
  }

  // The input that takes the counter to zero is the first one to be about to fire.
  lemma LastIsFirst(t: Inputs, s: State, i: nat)
    requires Inv(t, s) && i < |s.pcs| && s.pcs[i] == Counting && s.x.remaining == 1
    ensures s.trigger == None
  {
    assert InputInv(t, s, i);
    if s.trigger.Some? {
      var k := s.trigger.value;
      assert InputInv(t, s, k);
      CountedBound(t, s, i);
      SubsetSize(s.counted + {i}, Upto(|s.pcs|) - {k});
    }
  }

  lemma KeepCounting(t: Inputs, s: State, i: nat)
    requires Inv(t, s) && i < |s.pcs| && s.pcs[i] == Counting
    ensures Inv(t, Apply(t, s, Step(i)))
  {
    assert InputInv(t, s, i);
    var s' := Apply(t, s, Step(i));
    if s.x.remaining == 1 {
      LastIsFirst(t, s, i);
    }
    forall j | 0 <= j < |s.pcs| ensures InputInv(t, s', j) {
      assert InputInv(t, s, j);
    }
    CountedBound(t, s, i);
  }

  lemma KeepFiring(t: Inputs, s: State, i: nat)
    requires Inv(t, s) && i < |s.pcs| && s.pcs[i] == Firing
    ensures Inv(t, Apply(t, s, Step(i)))
  {
    assert InputInv(t, s, i);
    var s' := Apply(t, s, Step(i));
    if Counts(t, i) && t.mode == WhenAll {
      forall j | 0 <= j < |s.pcs| ensures t.outs[j].Value? && s.x.results[j] == Some(t.outs[j].data) {
        CountedBound(t, s, j);
        assert InputInv(t, s, j);
      }
    }
    assert Fires(t, i, Run(t.mode, s.x));
    forall j | 0 <= j < |s.pcs| ensures InputInv(t, s', j) {
      assert InputInv(t, s, j);
    }
  }

  lemma KeepOther(t: Inputs, s: State, i: nat)
    requires Inv(t, s) && Enabled(t, s, Step(i)) && s.pcs[i] != Counting && s.pcs[i] != Firing
    ensures Inv(t, Apply(t, s, Step(i)))
  {
    assert InputInv(t, s, i);
    if s.trigger.Some? {
      CountedBound(t, s, s.trigger.value);
    }
    var s' := Apply(t, s, Step(i));
    CountedBound(t, s, i);
    forall j | 0 <= j < |s.pcs| ensures InputInv(t, s', j) {
      assert InputInv(t, s, j);
    }
  }

  lemma KeepStep(t: Inputs, s: State, l: Label)
    requires Inv(t, s) && Enabled(t, s, l)
    ensures Inv(t, Apply(t, s, l))
  {
    hide Inv, Apply;
    match l
    case Start(i) => KeepStart(t, s, i);
    case Drop(i) => KeepDrop(t, s, i);
    case Break(i) => KeepBreak(t, s, i);
    case Step(i) =>
      if s.pcs[i] == Counting {
        KeepCounting(t, s, i);
      } else if s.pcs[i] == Firing {
        KeepFiring(t, s, i);
      } else {
        KeepOther(t, s, i);
      }
  }

  lemma {:induction false} KeepRun(t: Inputs, s: State, ls: seq<Label>)
    requires Inv(t, s) && IsRun(t, s, ls)
    ensures Inv(t, Execute(t, s, ls))
    decreases |ls|
  {
    if ls != [] {
      KeepStep(t, s, ls[0]);
      KeepRun(t, Apply(t, s, ls[0]), ls[1..]);
    }
  }

  lemma ReachableInv(t: Inputs, s: State)
    requires Reachable(t, s)
    ensures Inv(t, s)
  {
    var s0: State, ls :| Init(t, s0) && IsRun(t, s0, ls) && Execute(t, s0, ls) == s;
    InitInv(t, s0);
    KeepRun(t, s0, ls);
  }

  // ---- cancellation ----

  // The winner of the flag has got past resetting the holds.
  predicate Cancelled(s: State) {
    s.x.flag && s.trigger.Some? && s.trigger.value < |s.pcs| && s.pcs[s.trigger.value] != Cancelling
  }

  predicate HoldsOk(s: State) {
    forall i :: 0 <= i < |s.x.holds| ==> s.x.holds[i] == !Cancelled(s)
  }

  lemma KeepHolds(t: Inputs, s: State, l: Label)
    requires Inv(t, s) && HoldsOk(s) && Enabled(t, s, l)
    ensures HoldsOk(Apply(t, s, l))
  {
    assert InputInv(t, s, l.i);
    if s.trigger.Some? {
      assert InputInv(t, s, s.trigger.value);
    }
    if l.Step? && s.pcs[l.i] == Counting && s.x.remaining == 1 {
      LastIsFirst(t, s, l.i);
    }
  }

  lemma {:induction false} HoldsOkRun(t: Inputs, s: State, ls: seq<Label>)
    requires Inv(t, s) && HoldsOk(s) && IsRun(t, s, ls)
    ensures HoldsOk(Execute(t, s, ls))
    decreases |ls|
  {
    if ls != [] {
      KeepStep(t, s, ls[0]);
      KeepHolds(t, s, ls[0]);
      HoldsOkRun(t, Apply(t, s, ls[0]), ls[1..]);
    }
  }

  /** Winning the flag cancels the other inputs: before the winner stores its outcome, and from then on, no
      input is held, so that every one whose continuation has not started can be dropped.  While the flag is
      down every input is held. */
  lemma WinnerCancels(t: Inputs, s: State, i: nat)
    requires Reachable(t, s) && i < |s.pcs| == |s.x.holds|
    ensures !s.x.flag ==> s.x.holds[i]
    ensures s.x.flag ==> s.trigger.Some? && s.trigger.value < |s.pcs|
    ensures s.x.flag && !s.pcs[s.trigger.value].Cancelling? ==>
              !s.x.holds[i] && (s.pcs[i] == Pending ==> Enabled(t, s, Drop(i)))
    ensures s.x.flag && s.pcs[s.trigger.value].Cancelling? ==> s.x.holds[i]
  {
    ReachableInv(t, s);
    var s0: State, ls :| Init(t, s0) && IsRun(t, s0, ls) && Execute(t, s0, ls) == s;
    InitInv(t, s0);
    HoldsOkRun(t, s0, ls);
  }

  // ---- main results ----

  /** `when_all` fires at most once: with all results at their positions, and then every input has
      succeeded and been counted; or with the exception of the failure that won the flag. */
  lemma WhenAllFiresOnce(t: Inputs, s: State)
    requires Reachable(t, s) && t.mode == WhenAll
    ensures |s.fired| <= 1
    ensures s.fired != [] && s.fired[0].All? ==>
              |s.fired[0].results| == |t.outs| && s.counted == Upto(|t.outs|)
              && forall i :: 0 <= i < |t.outs| ==>
                   t.outs[i].Value? && s.fired[0].results[i] == Some(t.outs[i].data)
    ensures s.fired != [] && !s.fired[0].All? ==>
              s.trigger.Some? && s.trigger.value < |t.outs| && s.x.flag
              && t.outs[s.trigger.value].Error? && s.fired[0] == Failed(t.outs[s.trigger.value].exception)
  {
    ReachableInv(t, s);
    if s.fired != [] && s.fired[0].All? {
      forall i | 0 <= i < |t.outs| ensures i in s.counted {
        CountedBound(t, s, i);
      }
    }
  }

  /** `when_any` fires at most once: with the value and index of the success that won the flag; or with the
      exception of the failure that took the counter to zero, and then every input has failed. */
  lemma WhenAnyFiresOnce(t: Inputs, s: State)
    requires Reachable(t, s) && t.mode == WhenAny
    ensures |s.fired| <= 1
    ensures s.fired != [] && s.fired[0].First? ==>
              s.trigger == Some(s.fired[0].index) && s.fired[0].index < |t.outs| && s.x.flag
              && t.outs[s.fired[0].index].Value?
              && s.fired[0].result == Some(t.outs[s.fired[0].index].data)
    ensures s.fired != [] && !s.fired[0].First? ==>
              s.trigger.Some? && s.trigger.value < |t.outs| && s.counted == Upto(|t.outs|)
              && (forall i :: 0 <= i < |t.outs| ==> t.outs[i].Error?)
              && s.fired[0] == Failed(t.outs[s.trigger.value].exception)
  {
    ReachableInv(t, s);
    if s.fired != [] && !s.fired[0].First? {
      forall i | 0 <= i < |t.outs| ensures i in s.counted && t.outs[i].Error? {
        CountedBound(t, s, i);
        assert InputInv(t, s, i);
      }
    }
  }

  // Every continuation has run, been cancelled, or been lost.
  ghost predicate Quiet(t: Inputs, s: State) {
    Reachable(t, s) && forall i :: 0 <= i < |s.pcs| ==> s.pcs[i] == Over
  }

  /** When no continuation is left, `when_all` has fired if and only if some input failed without being
      lost, or all succeeded; `when_any`, if and only if some input succeeded, or all failed and none was
      lost.  It fires once, with a success exactly if all inputs, or any input, succeeded. */
  lemma QuietHasFired(t: Inputs, s: State)
    requires Quiet(t, s)
    ensures |s.fired| <= 1
    ensures t.mode == WhenAll ==>
              (s.fired != [] <==>
                (exists i :: 0 <= i < |t.outs| && t.outs[i].Error? && i !in s.lost)
                || forall i :: 0 <= i < |t.outs| ==> t.outs[i].Value?)
    ensures t.mode == WhenAny ==>
              (s.fired != [] <==>
                (exists i :: 0 <= i < |t.outs| && t.outs[i].Value?)
                || (s.lost == {} && forall i :: 0 <= i < |t.outs| ==> t.outs[i].Error?))
    ensures s.fired != [] && t.mode == WhenAll ==>
              (s.fired[0].All? <==> forall i :: 0 <= i < |t.outs| ==> t.outs[i].Value?)
    ensures s.fired != [] && t.mode == WhenAny ==>
              (s.fired[0].First? <==> exists i :: 0 <= i < |t.outs| && t.outs[i].Value?)
  {
    ReachableInv(t, s);
    LostAreBroken(t, s);
    if s.trigger == None {
      QuietUntriggered(t, s);
    } else if t.mode == WhenAll {
      assert InputInv(t, s, s.trigger.value);
      WhenAllFiresOnce(t, s);
    } else {
      WhenAnyFiresOnce(t, s);
      QuietAnyTriggered(t, s);
    }
  }

  lemma QuietUntriggered(t: Inputs, s: State)
    requires Inv(t, s) && s.trigger == None && forall i :: 0 <= i < |s.pcs| ==> s.pcs[i] == Over
    ensures s.fired == [] && s.lost != {}
    ensures forall i :: 0 <= i < |t.outs| ==> if Counts(t, i) then i in s.counted || i in s.lost else i in s.lost
  {
    forall i | 0 <= i < |t.outs|
      ensures if Counts(t, i) then i in s.counted || i in s.lost else i in s.lost
    {
      assert InputInv(t, s, i);
    }
    if s.lost == {} {
      SubsetSize(Upto(|t.outs|), s.counted);
    }
  }

  // A lost input has not been counted, so the failures of `when_any` have not taken the counter to zero.
  lemma QuietAnyTriggered(t: Inputs, s: State)
    requires Inv(t, s) && s.trigger.Some? && t.mode == WhenAny
    ensures s.lost == {} || exists i :: 0 <= i < |t.outs| && t.outs[i].Value?
  {
    if s.lost != {} {
      var i :| i in s.lost;
      assert InputInv(t, s, i);
      CountedBound(t, s, i);
    }
  }

  // ---- every schedule ends ----

  function Left(pc: Pc): nat {
    match pc
    case Pending => 6
    case Storing => 5
    case Counting => 4
    case Flagging => 4
    case Cancelling => 3
    case Applying => 2
    case Firing => 1
    case Over => 0
  }

  function Work(pcs: seq<Pc>): nat {
    if pcs == [] then 0 else Left(pcs[0]) + Work(pcs[1..])
  }

  lemma {:induction false} WorkUpdate(pcs: seq<Pc>, i: nat, pc: Pc)
    requires i < |pcs|
    ensures Work(pcs[i := pc]) == Work(pcs) - Left(pcs[i]) + Left(pc)
  {
    if i == 0 {
      assert pcs[i := pc][1..] == pcs[1..];
    } else {
      assert pcs[i := pc][1..] == pcs[1..][i - 1 := pc];
      WorkUpdate(pcs[1..], i - 1, pc);
    }
  }

  lemma StepAdvances(t: Inputs, s: State, l: Label)
    requires |s.pcs| == |t.outs| && Enabled(t, s, l)
    ensures var pcs := Apply(t, s, l).pcs;
            pcs == s.pcs[l.i := pcs[l.i]] && Left(pcs[l.i]) < Left(s.pcs[l.i])
  {
    hide Collect, Cancel, Run;
  }

  lemma StepDoesWork(t: Inputs, s: State, l: Label)
    requires Inv(t, s) && Enabled(t, s, l)
    ensures Work(Apply(t, s, l).pcs) < Work(s.pcs)
  {
    StepAdvances(t, s, l);
    WorkUpdate(s.pcs, l.i, Apply(t, s, l).pcs[l.i]);
  }

  /** No schedule is longer than six steps an input. */
  lemma {:induction false} SchedulesEnd(t: Inputs, s: State, ls: seq<Label>)
    requires Inv(t, s) && IsRun(t, s, ls)
    ensures |ls| + Work(Execute(t, s, ls).pcs) <= Work(s.pcs)
    decreases |ls|
  {
    if ls != [] {
      KeepStep(t, s, ls[0]);
      StepDoesWork(t, s, ls[0]);
      hide Inv, Apply;
      SchedulesEnd(t, Apply(t, s, ls[0]), ls[1..]);
    }
  }

  // ---- when it is certain to fire ----

  /** Losing broken promises cannot keep the combined future from being resolved. */
  predicate Firm(t: Inputs) {
    if t.mode == WhenAll then
      (exists i :: 0 <= i < |t.outs| && t.outs[i].Error? && t.outs[i] != Error(BrokenPromise))
      || (forall i :: 0 <= i < |t.outs| ==> t.outs[i].Value?)
    else
      (exists i :: 0 <= i < |t.outs| && t.outs[i].Value?)
      || (forall i :: 0 <= i < |t.outs| ==> t.outs[i] != Error(BrokenPromise))
  }

  lemma Go(t: Inputs, s: State, l: Label) returns (s': State)
    requires Reachable(t, s) && |s.pcs| == |t.outs| && Enabled(t, s, l)
    ensures s' == Apply(t, s, l) && Reachable(t, s') && |s'.pcs| == |t.outs|
  {
    s' := Apply(t, s, l);
    var s0: State, ls :| Init(t, s0) && IsRun(t, s0, ls) && Execute(t, s0, ls) == s;
    Snoc(t, s0, ls, l);
  }

  lemma {:induction false} Snoc(t: Inputs, s: State, ls: seq<Label>, l: Label)
    requires |s.pcs| == |t.outs| && IsRun(t, s, ls) && Enabled(t, Execute(t, s, ls), l)
    ensures IsRun(t, s, ls + [l]) && Execute(t, s, ls + [l]) == Apply(t, Execute(t, s, ls), l)
    decreases |ls|
  {
    hide Apply;
    if ls == [] {
      assert [l][1..] == [];
      assert ls + [l] == [l];
    } else {
      assert (ls + [l])[1..] == ls[1..] + [l];
      Snoc(t, Apply(t, s, ls[0]), ls[1..], l);
    }
  }

  // Every promise that can break while its input waits does.
  lemma {:induction false} BreakAll(t: Inputs, s: State, k: nat) returns (s': State)
    requires Reachable(t, s) && k <= |s.pcs| == |t.outs|
    requires forall i :: k <= i < |s.pcs| ==> s.pcs[i] == Pending
    ensures Reachable(t, s') && |s'.pcs| == |t.outs| && s.lost <= s'.lost
    ensures forall i :: k <= i < |t.outs| && t.outs[i] == Error(BrokenPromise) ==> i in s'.lost
    decreases |t.outs| - k
  {
    hide Reachable;
    s' := s;
    if k < |t.outs| {
      if t.outs[k] == Error(BrokenPromise) {
        s' := Go(t, s, Break(k));
      }
      s' := BreakAll(t, s', k + 1);
    }
  }

  // Whatever is left runs to its end.
  lemma {:induction false} RunOut(t: Inputs, s: State) returns (s': State)
    requires Reachable(t, s) && |s.pcs| == |t.outs|
    ensures Quiet(t, s') && s.lost == s'.lost
    decreases Work(s.pcs)
  {
    if forall i :: 0 <= i < |s.pcs| ==> s.pcs[i] == Over {
      s' := s;
    } else {
      var i :| 0 <= i < |s.pcs| && s.pcs[i] != Over;
      var l := if s.pcs[i] == Pending then Start(i) else Step(i);
      ReachableInv(t, s);
      StepDoesWork(t, s, l);
      s' := Go(t, s, l);
      assert s'.lost == s.lost;
      hide Inv, Reachable, Quiet, Apply;
      s' := RunOut(t, s');
    }
  }

  /** A combinator that is not certain to fire has a run in which nothing is left and it never does. */
  lemma Hangs(t: Inputs) returns (s: State)
    requires |t.outs| > 0 && !Firm(t)
    ensures Quiet(t, s) && s.fired == []
  {
    var n := |t.outs|;
    s := State(Context(n, false, seq(n, _ => true), seq(n, _ => None), None, 0, None),
               seq(n, _ => Pending), [], None, {}, {});
    assert Init(t, s) && IsRun(t, s, []) && Execute(t, s, []) == s;
    s := BreakAll(t, s, 0);
    s := RunOut(t, s);
    QuietHasFired(t, s);
  }

  /** The combined future is resolved in every run that ends exactly if: for `when_all`, some input fails
      otherwise than by a broken promise, or all succeed; for `when_any`, some input succeeds, or none fails
      by a broken promise. */
  lemma CertainToFire(t: Inputs)
    requires |t.outs| > 0
    ensures (forall s :: Quiet(t, s) ==> |s.fired| == 1) <==> Firm(t)
  {
    if Firm(t) {
      forall s | Quiet(t, s) ensures |s.fired| == 1 {
        QuietHasFired(t, s);
        LostAreBroken(t, s);
      }
    } else {
      var s := Hangs(t);
    }
  }

  lemma LostAreBroken(t: Inputs, s: State)
    requires Reachable(t, s)
    ensures forall i :: i in s.lost ==> i < |t.outs| && t.outs[i] == Error(BrokenPromise)
  {
    ReachableInv(t, s);
    forall i | i in s.lost ensures t.outs[i] == Error(BrokenPromise) {
      assert InputInv(t, s, i);
    }
  }
}
