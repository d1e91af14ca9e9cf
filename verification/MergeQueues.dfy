/**
 The queue strategies that merge several upstream processes into one.

 Each class keeps, besides the fields of the source, the ghost record of what was appended for each
 source and what was popped.  `Valid()` ties the two together; since every method keeps it, it holds
 after any interleaving of appends and pops.
 */
module MergeQueues {

  import opened Arithmetic
  import opened ChannelProcess

  const NO_SIZE: nat := SIZE_RANGE - 1

  // ---- zip ----

  function MinLength(a: seq<seq<Value>>): (m: nat)
    requires |a| > 0
    ensures forall i :: 0 <= i < |a| ==> m <= |a[i]|
    ensures exists i :: 0 <= i < |a| && m == |a[i]|
  {
    if |a| == 1 then |a[0]|
    else
      var m := MinLength(a[1..]);
      assert exists i :: 1 <= i < |a| && m == |a[i]| by {
        var j :| 0 <= j < |a[1..]| && m == |a[1..][j]|;
        assert a[j + 1] == a[1..][j];
      }
      assert forall i :: 1 <= i < |a| ==> a[i] == a[1..][i - 1];
      if |a[0]| <= m then |a[0]| else m
  }

  function Heads(a: seq<seq<Value>>): (h: seq<Value>)
    requires forall i :: 0 <= i < |a| ==> a[i] != []
    ensures |h| == |a| && forall i :: 0 <= i < |h| ==> h[i] == a[i][0]
  {
    seq(|a|, i requires 0 <= i < |a| => a[i][0])
  }

  function Tails(a: seq<seq<Value>>): (r: seq<seq<Value>>)
    requires forall i :: 0 <= i < |a| ==> a[i] != []
    ensures |r| == |a| && forall i :: 0 <= i < |r| ==> r[i] == a[i][1..]
  {
    seq(|a|, i requires 0 <= i < |a| => a[i][1..])
  }

  class ZipQueue {
    var queue: seq<seq<Value>>
    ghost var appended: seq<seq<Value>>
    ghost var taken: seq<seq<Value>>

    /** The k-th tuple popped is the k-th value of every source; what is queued is the rest. */
    ghost predicate Valid()
      reads this
    {
      && |queue| == |appended| > 0
      && (forall i :: 0 <= i < |queue| ==>
            |taken| <= |appended[i]| && queue[i] == appended[i][|taken|..])
      && (forall k :: 0 <= k < |taken| ==> |taken[k]| == |appended|)
      && (forall k, i :: 0 <= k < |taken| && 0 <= i < |appended| ==> taken[k][i] == appended[i][k])
    }

    constructor (size: nat)
      requires size > 0
      ensures Valid() && taken == [] && |appended| == size && forall i :: 0 <= i < size ==> appended[i] == []
    {
      queue := seq(size, _ => []);
      appended := seq(size, _ => []);
      taken := [];
    }

    method Append(i: nat, u: Value)
      requires Valid() && i < |queue|
      modifies this
      ensures Valid() && appended == old(appended[i := appended[i] + [u]]) && taken == old(taken)
    {
      queue := queue[i := queue[i] + [u]];
      appended := appended[i := appended[i] + [u]];
    }

    /** A drain stops after exactly as many tuples as the shortest source has values. */
    method Empty() returns (empty: bool)
      requires Valid()
      ensures empty <==> |taken| == MinLength(appended)
    {
      var i := 0;
      while i < |queue| && queue[i] != []
        invariant 0 <= i <= |queue|
        invariant forall j :: 0 <= j < i ==> queue[j] != []
      {
        i := i + 1;
      }
      empty := i != |queue|;
    }

    method Front() returns (message: seq<Value>)
      requires Valid() && |taken| < MinLength(appended)
      ensures |message| == |appended| && forall i :: 0 <= i < |message| ==> message[i] == appended[i][|taken|]
    {
      message := Heads(queue);
    }

    method PopFront()
      requires Valid() && |taken| < MinLength(appended)
      modifies this
      ensures Valid() && appended == old(appended) && |taken| == old(|taken|) + 1 && old(taken) <= taken
    {
      taken := taken + [Heads(queue)];
      queue := Tails(queue);
    }
  }

  // ---- round robin ----

  /** The number of pops after which source `i`, holding `len` values in all, holds the merge up. */
  function Stall(n: nat, len: nat, i: nat): nat { n * len + i }

  // In round `round`, before source `index` pops, no source has stalled before now; and only `index` can stall now.
  lemma StallsNoEarlier(n: nat, round: nat, index: nat, len: nat, i: nat)
    requires index < n && i < n && (if i < index then round + 1 else round) <= len
    ensures n * round + index <= Stall(n, len, i)
    ensures n * round + index == Stall(n, len, i) <==> i == index && len == round
  {
    if len > round {
      MonotoneProduct(n, round + 1, len);
      assert n * (round + 1) == n * round + n;
    }
  }

  function FirstStall(n: nat, a: seq<seq<Value>>, from: nat): (m: nat)
    requires from < |a|
    ensures forall i :: from <= i < |a| ==> m <= Stall(n, |a[i]|, i)
    ensures exists i :: from <= i < |a| && m == Stall(n, |a[i]|, i)
    decreases |a| - from
  {
    var here := Stall(n, |a[from]|, from);
    if from == |a| - 1 then here
    else
      var m := FirstStall(n, a, from + 1);
      if here <= m then here else m
  }

  // `v` is the k-th value popped: element k / N of source k % N.
  ghost predicate OnTurn(a: seq<seq<Value>>, k: nat, v: Value)
    requires |a| > 0
  {
    k / |a| < |a[k % |a|]| && v == a[k % |a|][k / |a|]
  }

  lemma OnTurnLater(a: seq<seq<Value>>, i: nat, u: Value, k: nat, v: Value)
    requires i < |a| && OnTurn(a, k, v)
    ensures OnTurn(a[i := a[i] + [u]], k, v)
  {}

  lemma DropAppend(s: seq<Value>, u: Value, k: nat)
    requires k <= |s|
    ensures (s + [u])[k..] == s[k..] + [u]
  {}

  class RoundRobinQueue {
    var index: nat
    var poppedIndex: nat
    var queue: seq<seq<Value>>
    ghost var appended: seq<seq<Value>>
    ghost var taken: seq<Value>
    ghost var round: nat

    // How many values of source `i` have been popped.
    ghost function PoppedFrom(i: nat): nat
      reads this
    {
      if i < index then round + 1 else round
    }

    /** The k-th value popped is element k / N of source k % N, and `index` is the source whose turn it is. */
    ghost predicate Valid()
      reads this
    {
      && |queue| == |appended| > 0
      && index < |queue| && |taken| == |queue| * round + index
      && poppedIndex == (if taken == [] then 0 else if index == 0 then |queue| - 1 else index - 1)
      && (forall i :: 0 <= i < |queue| ==>
            PoppedFrom(i) <= |appended[i]| && queue[i] == appended[i][PoppedFrom(i)..])
      && (forall k :: 0 <= k < |taken| ==> OnTurn(appended, k, taken[k]))
    }

    constructor (size: nat)
      requires size > 0
      ensures Valid() && taken == [] && |appended| == size && forall i :: 0 <= i < size ==> appended[i] == []
    {
      index, poppedIndex, round := 0, 0, 0;
      queue := seq(size, _ => []);
      appended := seq(size, _ => []);
      taken := [];
    }

    method Append(i: nat, u: Value)
      requires Valid() && i < |queue|
      modifies this
      ensures Valid() && appended == old(appended[i := appended[i] + [u]]) && taken == old(taken)
    {
      ghost var before := appended;
      queue := queue[i := queue[i] + [u]];
      appended := appended[i := appended[i] + [u]];
      hide OnTurn;
      forall j | 0 <= j < |queue|
        ensures PoppedFrom(j) <= |appended[j]| && queue[j] == appended[j][PoppedFrom(j)..]
      {
        assert queue[j] == if j == i then before[j][PoppedFrom(j)..] + [u] else before[j][PoppedFrom(j)..];
        DropAppend(before[j], u, PoppedFrom(j));
      }
      forall k | 0 <= k < |taken| ensures OnTurn(appended, k, taken[k]) {
        OnTurnLater(before, i, u, k, taken[k]);
      }
    }

    /** A drain stops after exactly the minimum over the sources i of N * length(i) + i pops. */
    method Empty() returns (empty: bool)
      requires Valid()
      ensures empty <==> |taken| == FirstStall(|appended|, appended, 0)
      ensures empty <==> queue[index] == []
    {
      empty := queue[index] == [];
      StallsLater();
    }

    lemma StallsLater()
      requires Valid()
      ensures queue[index] == [] <==> |taken| == FirstStall(|appended|, appended, 0)
    {
      var n := |appended|;
      forall i | 0 <= i < n
        ensures |taken| <= Stall(n, |appended[i]|, i)
        ensures |taken| == Stall(n, |appended[i]|, i) <==> i == index && queue[i] == []
      {
        StallsNoEarlier(n, round, index, |appended[i]|, i);
      }
      var m := FirstStall(n, appended, 0);
      assert m <= Stall(n, |appended[index]|, index);
    }

    method Front() returns (message: Value)
      requires Valid() && queue[index] != []
      ensures index == |taken| % |appended| && |taken| / |appended| < |appended[index]|
      ensures message == appended[index][|taken| / |appended|]
    {
      message := queue[index][0];
      QuotientRemainder(|queue|, round, index);
    }

    method PopFront()
      requires Valid() && queue[index] != []
      modifies this
      ensures Valid() && appended == old(appended) && |taken| == old(|taken|) + 1 && old(taken) <= taken
      ensures poppedIndex == old(index)
    {
      QuotientRemainder(|queue|, round, index);
      ghost var was := taken;
      assert OnTurn(appended, |was|, queue[index][0]);
      hide OnTurn;
      taken := taken + [queue[index][0]];
      queue := queue[index := queue[index][1..]];
      poppedIndex := index;
      index := index + 1;
      if index == |queue| {
        assert |queue| * (round + 1) == |queue| * round + |queue|;
        index := 0;
        round := round + 1;
      }
      assert taken[..|was|] == was;
    }

    /** Only the source that was popped last can look short enough to be told to send. */
    method Size() returns (sizes: seq<nat>)
      requires Valid()
      ensures |sizes| == |queue|
      ensures forall i :: 0 <= i < |sizes| ==> sizes[i] == if i == poppedIndex then |queue[i]| else NO_SIZE
    {
      sizes := [];
      var i := 0;
      while i < |queue|
        invariant 0 <= i <= |queue| && |sizes| == i
        invariant forall j :: 0 <= j < i ==> sizes[j] == if j == poppedIndex then |queue[j]| else NO_SIZE
      {
        sizes := sizes + [if i == poppedIndex then |queue[i]| else NO_SIZE];
        i := i + 1;
      }
    }
  }

  // ---- unordered ----

  /** The values that source `i` contributed to what was popped, in order. */
  function From(taken: seq<(nat, Value)>, i: nat): seq<Value> {
    if taken == [] then []
    else
      var last := |taken| - 1;
      From(taken[..last], i) + (if taken[last].0 == i then [taken[last].1] else [])
  }

  lemma FromSnoc(taken: seq<(nat, Value)>, x: (nat, Value), i: nat)
    ensures From(taken + [x], i) == From(taken, i) + (if x.0 == i then [x.1] else [])
  {
    assert (taken + [x])[..|taken|] == taken;
  }

  /** How often `x` occurs in all the sequences together, and among what was popped. */
  function Total(a: seq<seq<Value>>, x: Value): nat {
    if a == [] then 0 else multiset(a[0])[x] + Total(a[1..], x)
  }

  function Count(taken: seq<(nat, Value)>, x: Value): nat {
    if taken == [] then 0
    else Count(taken[..|taken| - 1], x) + (if taken[|taken| - 1].1 == x then 1 else 0)
  }

  lemma {:induction false} TotalUpdate(a: seq<seq<Value>>, i: nat, s: seq<Value>, x: Value)
    requires i < |a|
    ensures Total(a[i := s], x) + multiset(a[i])[x] == Total(a, x) + multiset(s)[x]
  {
    if i == 0 {
      assert a[i := s][1..] == a[1..];
    } else {
      assert a[i := s][1..] == a[1..][i - 1 := s];
      TotalUpdate(a[1..], i - 1, s, x);
    }
  }

  // Putting the value popped last back at the head of its queue.
  lemma PutBack(appended: seq<Value>, queue: seq<Value>, taken: seq<(nat, Value)>, i: nat)
    requires taken != [] && appended == From(taken, i) + queue
    ensures var (j, v) := taken[|taken| - 1];
            appended == From(taken[..|taken| - 1], i) + (if i == j then [v] + queue else queue)
  {
  }

  /** Keeping every source's order is enough to conserve the multiset of all values. */
  lemma {:induction false} UnorderedConserves(
      appended: seq<seq<Value>>, queue: seq<seq<Value>>, taken: seq<(nat, Value)>, x: Value)
    requires |appended| == |queue|
    requires forall k :: 0 <= k < |taken| ==> taken[k].0 < |queue|
    requires forall i :: 0 <= i < |queue| ==> appended[i] == From(taken, i) + queue[i]
    ensures Total(appended, x) == Count(taken, x) + Total(queue, x)
    decreases |taken|
  {
    if taken == [] {
      forall i | 0 <= i < |queue| ensures appended[i] == queue[i] {
        assert From(taken, i) == [];
      }
      assert appended == queue;
    } else {
      var last := |taken| - 1;
      var (j, v) := taken[last];
      var unpopped := queue[j := [v] + queue[j]];
      forall i | 0 <= i < |queue| ensures appended[i] == From(taken[..last], i) + unpopped[i] {
        PutBack(appended[i], queue[i], taken, i);
      }
      hide From;
      UnorderedConserves(appended, unpopped, taken[..last], x);
      TotalUpdate(queue, j, [v] + queue[j], x);
    }
  }

  class UnorderedQueue {
    var index: nat
    var poppedIndex: nat
    var queue: seq<seq<Value>>
    ghost var appended: seq<seq<Value>>
    ghost var taken: seq<(nat, Value)>

    /** Every source keeps its order: what was popped from it and what is queued make up what was appended. */
    ghost predicate Valid()
      reads this
    {
      && |queue| == |appended| > 0 && index < |queue|
      && (forall k :: 0 <= k < |taken| ==> taken[k].0 < |queue|)
      && (forall i :: 0 <= i < |queue| ==> appended[i] == From(taken, i) + queue[i])
    }

    // The lowest-numbered source with something queued.
    ghost predicate Lowest(i: nat)
      reads this
    {
      i < |queue| && queue[i] != [] && forall j :: 0 <= j < i ==> queue[j] == []
    }

    constructor (size: nat)
      requires size > 0
      ensures Valid() && taken == [] && |appended| == size && forall i :: 0 <= i < size ==> appended[i] == []
    {
      index, poppedIndex := 0, 0;
      queue := seq(size, _ => []);
      appended := seq(size, _ => []);
      taken := [];
    }

    method Append(i: nat, u: Value)
      requires Valid() && i < |queue|
      modifies this
      ensures Valid() && appended == old(appended[i := appended[i] + [u]]) && taken == old(taken)
    {
      queue := queue[i := queue[i] + [u]];
      appended := appended[i := appended[i] + [u]];
    }

    method Empty() returns (empty: bool)
      requires Valid()
      ensures empty <==> forall i :: 0 <= i < |appended| ==> From(taken, i) == appended[i]
      ensures empty ==> forall x :: Count(taken, x) == Total(appended, x)
    {
      var i := 0;
      while i < |queue| && queue[i] == []
        invariant 0 <= i <= |queue|
        invariant forall j :: 0 <= j < i ==> queue[j] == []
      {
        i := i + 1;
      }
      empty := i == |queue|;
      if empty {
        forall x ensures Count(taken, x) == Total(appended, x) {
          TotalOfNothing(queue, x);
          UnorderedConserves(appended, queue, taken, x);
        }
      } else {
        assert |appended[i]| == |From(taken, i)| + |queue[i]|;
      }
    }

    method Front() returns (message: Value)
      requires Valid() && exists i :: 0 <= i < |queue| && queue[i] != []
      modifies this`index
      ensures Valid() && Lowest(index) && message == queue[index][0]
    {
      var i := 0;
      while queue[i] == []
        invariant 0 <= i < |queue|
        invariant forall j :: 0 <= j < i ==> queue[j] == []
        invariant exists j :: i <= j < |queue| && queue[j] != []
        decreases |queue| - i
      {
        i := i + 1;
      }
      index := i;
      message := queue[index][0];
    }

    method PopFront()
      requires Valid() && Lowest(index)
      modifies this
      ensures Valid() && appended == old(appended) && poppedIndex == old(index)
      ensures taken == old(taken) + [(old(index), old(queue[index][0]))]
    {
      ghost var x := (index, queue[index][0]);
      forall i | 0 <= i < |queue| ensures From(taken + [x], i) == From(taken, i) + (if x.0 == i then [x.1] else []) {
        FromSnoc(taken, x, i);
      }
      taken := taken + [x];
      queue := queue[index := queue[index][1..]];
      poppedIndex := index;
    }
  }

  lemma {:induction false} TotalOfNothing(a: seq<seq<Value>>, x: Value)
    requires forall i :: 0 <= i < |a| ==> a[i] == []
    ensures Total(a, x) == 0
  {
    if a != [] {
      TotalOfNothing(a[1..], x);
    }
  }
}
