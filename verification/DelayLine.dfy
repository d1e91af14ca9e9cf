/** The frame buffer as a fixed-latency delay line whose frames are annotated in place. */
module DelayLine {

  import opened Arithmetic

  type Image(==, !new, 0)

  datatype Frame = Frame(frameIdx: int, image: Image, recogResult: int)

  datatype Buffer = Buffer(q: seq<Frame>, ptr: nat)

  predicate BufferOk(b: Buffer) { b.ptr < |b.q| }

  function Pushed(b: Buffer, f: Frame): Buffer
    requires BufferOk(b)
  {
    Buffer(b.q[b.ptr := f], (b.ptr + 1) % |b.q|)
  }

  /** The first slot that holds the frame, or -1. */
  function Search(q: seq<Frame>, g: int): (i: int)
    ensures -1 <= i < |q|
    ensures i >= 0 ==> q[i].frameIdx == g && forall j :: 0 <= j < i ==> q[j].frameIdx != g
    ensures i == -1 ==> forall j :: 0 <= j < |q| ==> q[j].frameIdx != g
  {
    SearchFrom(q, g, 0)
  }

  function SearchFrom(q: seq<Frame>, g: int, from: nat): (i: int)
    requires from <= |q|
    ensures i == -1 || from <= i < |q|
    ensures i >= 0 ==> q[i].frameIdx == g && forall j :: from <= j < i ==> q[j].frameIdx != g
    ensures i == -1 ==> forall j :: from <= j < |q| ==> q[j].frameIdx != g
    decreases |q| - from
  {
    if from == |q| then -1
    else if q[from].frameIdx == g then from
    else SearchFrom(q, g, from + 1)
  }

  function Accepted(b: Buffer, g: int): Buffer {
    var i := Search(b.q, g);
    if i == -1 then b else b.(q := b.q[i := b.q[i].(recogResult := 1)])
  }

  /** The buffer, read, searched and patched in place: `After` runs the functions that specify the methods. */
  class CyclicalBuffer {
    const q: array<Frame>
    var rdWrPtr: nat
    const size: nat

    ghost predicate Valid()
      reads this, q
    {
      size == q.Length && rdWrPtr < size
    }

    ghost function View(): Buffer
      reads this, q
    {
      Buffer(q[..], rdWrPtr)
    }

    constructor (latency: nat, blank: Frame)
      requires latency > 0
      ensures Valid() && fresh(q) && View() == Buffer(seq(latency, _ => blank), 0)
    {
      q := new Frame[latency](_ => blank);
      rdWrPtr, size := 0, latency;
    }

    method PushBack(frame: Frame) returns (oldest: Frame)
      requires Valid()
      modifies this, q
      ensures Valid() && View() == Pushed(old(View()), frame) && oldest == old(q[rdWrPtr])
    {
      oldest := q[rdWrPtr];
      q[rdWrPtr] := frame;
      rdWrPtr := (rdWrPtr + 1) % size;
    }

    method SearchByFrameIdx(frameIdx: int) returns (i: int)
      requires Valid()
      ensures i == Search(q[..], frameIdx)
    {
      i := 0;
      while i < size
        invariant 0 <= i <= size
        invariant forall j :: 0 <= j < i ==> q[j].frameIdx != frameIdx
      {
        if q[i].frameIdx == frameIdx {
          return;
        }
        i := i + 1;
      }
      i := -1;
    }

    /** The locked step of the result acceptor. */
    method Accept(frameIdx: int)
      requires Valid()
      modifies q
      ensures Valid() && View() == Accepted(old(View()), frameIdx)
    {
      var position := SearchByFrameIdx(frameIdx);
      if position != -1 {
        q[position] := q[position].(recogResult := 1);
      }
    }
  }

  // ---- every run of the grabber and the acceptor ----

  datatype Event = Grab(image: Image) | Result(g: nat)

  // Results are for frames that were grabbed, and those are numbered from one.
  predicate IsFeed(es: seq<Event>) {
    forall k :: 0 <= k < |es| && es[k].Result? ==> es[k].g >= 1
  }

  function Count(es: seq<Event>): nat {
    if es == [] then 0 else Count(es[..|es| - 1]) + (if es[|es| - 1].Grab? then 1 else 0)
  }

  /** The image of the g-th frame grabbed. */
  function ImageOf(es: seq<Event>, g: nat): Image
    requires 1 <= g <= Count(es)
  {
    var last := |es| - 1;
    if es[last].Grab? && Count(es) == g then es[last].image else ImageOf(es[..last], g)
  }

  /** With `k` frames grabbed, frame `g` is among the last `n`. */
  predicate Buffered(n: nat, k: nat, g: nat) { 1 <= g <= k < g + n }

  /** A result for frame `g` was accepted while the frame was still buffered. */
  predicate InTime(es: seq<Event>, n: nat, g: nat) {
    es != [] &&
    var last := |es| - 1;
    InTime(es[..last], n, g) || (es[last] == Result(g) && Buffered(n, Count(es[..last]), g))
  }

  /** The frame as it should be after the events. */
  function Annotated(es: seq<Event>, n: nat, g: nat): Frame
    requires 1 <= g <= Count(es)
  {
    Frame(g, ImageOf(es, g), if InTime(es, n, g) then 1 else 0)
  }

  // The buffer after the events, and what every push returned.
  datatype Line = Line(buffer: Buffer, out: seq<Frame>)

  function After(n: nat, blank: Frame, es: seq<Event>): (l: Line)
    requires n > 0
    ensures BufferOk(l.buffer) && |l.buffer.q| == n && |l.out| == Count(es)
  {
    if es == [] then Line(Buffer(seq(n, _ => blank), 0), [])
    else
      var l := After(n, blank, es[..|es| - 1]);
      match es[|es| - 1]
      case Grab(image) =>
        Line(Pushed(l.buffer, Frame(|l.out| + 1, image, 0)), l.out + [l.buffer.q[l.buffer.ptr]])
      case Result(g) => Line(Accepted(l.buffer, g), l.out)
  }

  // ---- the invariant ----

  /** The frame in slot `j` after `k = n * lap + ptr` pushes, or zero if none has got there. */
  function Occupant(n: nat, lap: nat, ptr: nat, j: nat): nat {
    if j < ptr then n * lap + j + 1
    else if lap > 0 then n * (lap - 1) + j + 1
    else 0
  }

  ghost predicate Holds(n: nat, blank: Frame, es: seq<Event>, lap: nat)
    requires n > 0
  {
    var l := After(n, blank, es);
    && Count(es) == n * lap + l.buffer.ptr
    && forall j :: 0 <= j < n ==>
         var g := Occupant(n, lap, l.buffer.ptr, j);
         && g <= Count(es)
         && l.buffer.q[j] == if g == 0 then blank else Annotated(es, n, g)
  }

  lemma OccupantIsBuffered(n: nat, lap: nat, ptr: nat, j: nat)
    requires ptr < n && j < n
    ensures var g := Occupant(n, lap, ptr, j);
            g > 0 ==> Buffered(n, n * lap + ptr, g) && (g - 1) % n == j
  {
    if j < ptr {
      QuotientRemainder(n, lap, j);
    } else if lap > 0 {
      QuotientRemainder(n, lap - 1, j);
      assert n * lap == n * (lap - 1) + n;
    }
  }

  // And every buffered frame occupies the slot that its number says.
  lemma BufferedIsOccupant(n: nat, lap: nat, ptr: nat, g: nat)
    requires ptr < n && Buffered(n, n * lap + ptr, g)
    ensures (g - 1) % n < n && Occupant(n, lap, ptr, (g - 1) % n) == g
  {
    if g > n * lap {
      QuotientRemainder(n, lap, g - 1 - n * lap);
    } else {
      assert n * lap == n * (lap - 1) + n by {
        assert lap > 0;
      }
      QuotientRemainder(n, lap - 1, g - 1 - n * (lap - 1));
    }
  }

  // A grab or a result annotates no frame that it does not concern.
  lemma AnnotatedKeeps(es: seq<Event>, e: Event, n: nat, g: nat)
    requires 1 <= g <= Count(es)
    requires e != Result(g) || !Buffered(n, Count(es), g)
    ensures Count(es + [e]) >= g && Annotated(es + [e], n, g) == Annotated(es, n, g)
  {
    assert (es + [e])[..|es|] == es;
  }

  lemma CountSnoc(es: seq<Event>, e: Event)
    ensures Count(es + [e]) == Count(es) + (if e.Grab? then 1 else 0)
  {
    assert (es + [e])[..|es|] == es;
  }

  // A frame that has just been grabbed has no result yet: results concern frames already buffered.
  lemma {:induction false} NotYet(es: seq<Event>, n: nat, g: nat)
    requires g > Count(es)
    ensures !InTime(es, n, g)
    decreases |es|
  {
    if es != [] {
      NotYet(es[..|es| - 1], n, g);
    }
  }

  // A push gives its slot to the next frame and leaves the other occupants alone.
  lemma OccupantAfterPush(n: nat, lap: nat, ptr: nat, j: nat)
    requires ptr < n && j < n
    ensures var (lap', ptr') := if ptr + 1 == n then (lap + 1, 0) else (lap, ptr + 1);
            && (ptr + 1) % n == ptr'
            && n * lap' + ptr' == n * lap + ptr + 1
            && Occupant(n, lap', ptr', j) == if j == ptr then n * lap + ptr + 1 else Occupant(n, lap, ptr, j)
  {
    assert n * (lap + 1) == n * lap + n;
  }

  lemma NewFrame(es: seq<Event>, image: Image, n: nat)
    ensures var es', k := es + [Grab(image)], Count(es) + 1;
            Count(es') == k && Annotated(es', n, k) == Frame(k, image, 0)
  {
    assert (es + [Grab(image)])[..|es|] == es;
    NotYet(es, n, Count(es) + 1);
  }

  lemma KeepGrab(n: nat, blank: Frame, es: seq<Event>, image: Image, lap: nat)
    requires n > 0 && Holds(n, blank, es, lap)
    ensures var l := After(n, blank, es);
            Holds(n, blank, es + [Grab(image)], if l.buffer.ptr + 1 == n then lap + 1 else lap)
  {
    hide Occupant, InTime;
    var e := Grab(image);
    var es' := es + [e];
    assert es'[..|es|] == es;
    var l, l' := After(n, blank, es), After(n, blank, es');
    var ptr, k := l.buffer.ptr, Count(es);
    var lap' := if ptr + 1 == n then lap + 1 else lap;
    OccupantAfterPush(n, lap, ptr, ptr);
    CountSnoc(es, e);
    assert Annotated(es', n, k + 1) == Frame(k + 1, image, 0) by {
      NewFrame(es, image, n);
    }
    hide Annotated, Count, After;
    forall j | 0 <= j < n
      ensures var g := Occupant(n, lap', l'.buffer.ptr, j);
              && g <= Count(es')
              && l'.buffer.q[j] == if g == 0 then blank else Annotated(es', n, g)
    {
      var g := Occupant(n, lap, ptr, j);
      OccupantAfterPush(n, lap, ptr, j);
      if j != ptr && g > 0 {
        AnnotatedKeeps(es, e, n, g);
      }
    }
  }

  lemma KeepResult(n: nat, blank: Frame, es: seq<Event>, g: nat, lap: nat)
    requires n > 0 && Holds(n, blank, es, lap) && g >= 1 && blank.frameIdx == 0
    ensures Holds(n, blank, es + [Result(g)], lap)
  {
    var e := Result(g);
    var es' := es + [e];
    assert es'[..|es|] == es;
    var l, l' := After(n, blank, es), After(n, blank, es');
    var ptr := l.buffer.ptr;
    CountSnoc(es, e);
    SearchFinds(n, blank, es, lap, g);
    forall j | 0 <= j < n
      ensures var x := Occupant(n, lap, ptr, j);
              && x <= Count(es')
              && l'.buffer.q[j] == if x == 0 then blank else Annotated(es', n, x)
    {
      var x := Occupant(n, lap, ptr, j);
      OccupantIsBuffered(n, lap, ptr, j);
      if x > 0 && x != g {
        AnnotatedKeeps(es, e, n, x);
      }
    }
  }

  lemma SearchFinds(n: nat, blank: Frame, es: seq<Event>, lap: nat, g: nat)
    requires n > 0 && Holds(n, blank, es, lap) && g >= 1 && blank.frameIdx == 0
    ensures var i := Search(After(n, blank, es).buffer.q, g);
            if Buffered(n, Count(es), g) then i == (g - 1) % n else i == -1
  {
    var l := After(n, blank, es);
    forall j | 0 <= j < n
      ensures l.buffer.q[j].frameIdx == Occupant(n, lap, l.buffer.ptr, j)
      ensures l.buffer.q[j].frameIdx == g ==> Buffered(n, Count(es), g) && (g - 1) % n == j
    {
      OccupantIsBuffered(n, lap, l.buffer.ptr, j);
    }
    if Buffered(n, Count(es), g) {
      BufferedIsOccupant(n, lap, l.buffer.ptr, g);
    }
  }

  lemma {:induction false} FeedHolds(n: nat, blank: Frame, es: seq<Event>) returns (lap: nat)
    requires n > 0 && blank.frameIdx == 0 && IsFeed(es)
    ensures Holds(n, blank, es, lap)
    decreases |es|
  {
    if es == [] {
      lap := 0;
    } else {
      var last := |es| - 1;
      var before := es[..last];
      assert es == before + [es[last]];
      lap := FeedHolds(n, blank, before);
      match es[last] {
        case Grab(image) =>
          KeepGrab(n, blank, before, image, lap);
          lap := if After(n, blank, before).buffer.ptr + 1 == n then lap + 1 else lap;
        case Result(g) => KeepResult(n, blank, before, g, lap);
      }
    }
  }

  // ---- main results ----

  /** After any run the search finds frame `g` exactly if it is among the last `n` pushed, in slot (g-1) % n. */
  lemma SearchIsExact(n: nat, blank: Frame, es: seq<Event>, g: nat)
    requires n > 0 && blank.frameIdx == 0 && IsFeed(es) && g >= 1
    ensures var i := Search(After(n, blank, es).buffer.q, g);
            if Buffered(n, Count(es), g) then i == (g - 1) % n else i == -1
  {
    var lap := FeedHolds(n, blank, es);
    SearchFinds(n, blank, es, lap, g);
  }

  /** Fixed latency: push number k returns frame k - n, with the result 1 exactly if one was accepted for it
      while it was buffered; the first n pushes return the blanks. */
  lemma DelaysByLatency(n: nat, blank: Frame, es: seq<Event>, image: Image)
    requires n > 0 && blank.frameIdx == 0 && IsFeed(es)
    ensures var k := Count(es) + 1;
            var out := After(n, blank, es + [Grab(image)]).out;
            && |out| == k
            && out[k - 1] == if k <= n then blank else Annotated(es, n, k - n)
  {
    assert (es + [Grab(image)])[..|es|] == es;
    var lap := FeedHolds(n, blank, es);
    var l := After(n, blank, es);
    CountSnoc(es, Grab(image));
    var g := Occupant(n, lap, l.buffer.ptr, l.buffer.ptr);
    if lap > 0 {
      assert n * lap == n * (lap - 1) + n;
      MonotoneProduct(n, 1, lap);
    }
  }

  /** Once a frame has left the buffer its annotation is settled: no later event changes it. */
  lemma {:induction false} AnnotationSettles(n: nat, es: seq<Event>, later: seq<Event>, g: nat)
    requires n > 0 && 1 <= g && g + n <= Count(es)
    ensures Count(es + later) >= Count(es) && Annotated(es + later, n, g) == Annotated(es, n, g)
    decreases |later|
  {
    if later == [] {
      assert es + later == es;
    } else {
      var last := |later| - 1;
      AnnotationSettles(n, es, later[..last], g);
      assert es + later == (es + later[..last]) + [later[last]];
      AnnotatedKeeps(es + later[..last], later[last], n, g);
      CountSnoc(es + later[..last], later[last]);
    }
  }
}
