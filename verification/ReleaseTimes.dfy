/** When a task is released: the arithmetic of the interrupt routine, and what interrupts do to an addition. */
module ReleaseTimes {

  import opened Arithmetic
  import opened Wrappers
  import opened Scheduler

  // ---- release arithmetic ----

  /** What `ticks` timer interrupts make of a task added with `delay` and `period`: its delay counter,
      and how often it has been released. */
  datatype Phase = Phase(delay: nat, releases: nat)

  function PhaseAfter(delay: nat, period: nat, ticks: nat): Phase {
    if ticks == 0 then Phase(delay, 0)
    else
      var p := PhaseAfter(delay, period, ticks - 1);
      if p.delay > 0 then Phase(p.delay - 1, p.releases)
      else Phase(if period > 0 then period else 0, p.releases + 1)
  }

  /** The closed form: nothing for the first `delay` interrupts, then one release every `period` + 1. */
  function Releases(delay: nat, period: nat, ticks: nat): nat {
    if ticks <= delay then 0 else 1 + (ticks - delay - 1) / (period + 1)
  }

  lemma DivModStep(k: nat, m: nat)
    requires m > 0
    ensures (k + 1) % m == (if k % m == m - 1 then 0 else k % m + 1)
    ensures (k + 1) / m == (if k % m == m - 1 then k / m + 1 else k / m)
  {
    var q, r := k / m, k % m;
    assert k + 1 == m * q + (r + 1);
    if r == m - 1 {
      assert k + 1 == m * (q + 1);
      QuotientRemainder(m, q + 1, 0);
    } else {
      QuotientRemainder(m, q, r + 1);
    }
  }

  /** The interrupt routine's counting is the closed form. */
  lemma {:induction false} ReleaseArithmetic(delay: nat, period: nat, ticks: nat)
    ensures PhaseAfter(delay, period, ticks).releases == Releases(delay, period, ticks)
    ensures PhaseAfter(delay, period, ticks).delay ==
            if ticks <= delay then delay - ticks else period - (ticks - delay - 1) % (period + 1)
  {
    if ticks > 0 {
      ReleaseArithmetic(delay, period, ticks - 1);
      if ticks > delay + 1 {
        DivModStep(ticks - delay - 2, period + 1);
      }
    }
  }

  // ---- interrupts within an addition ----

  function TicksOf(s: Slot, n: nat): Slot {
    if n == 0 then s else Tick(TicksOf(s, n - 1))
  }

  lemma {:induction false} TicksOfPhase(s: Slot, n: nat)
    requires s.task.Some? && s.runMe < BYTE
    ensures var p := PhaseAfter(s.delay, s.period, n);
            TicksOf(s, n) == s.(delay := p.delay, runMe := (s.runMe + p.releases) % BYTE)
  {
    if n > 0 {
      TicksOfPhase(s, n - 1);
    }
  }

  /** What the four assignments of an addition make of an empty slot, with `m1`, `m2` and `m3` interrupts
      between them. */
  function AddedUnder(f: nat, delay: nat, period: nat, m1: nat, m2: nat, m3: nat): Slot {
    var named := TicksOf(Slot(Some(f), 0, 0, 0), m1);
    var delayed := TicksOf(named.(delay := delay), m2);
    var timed := TicksOf(delayed.(period := period), m3);
    timed.(runMe := 0)
  }

  /** The slot is as if the task had been added at once, at some moment among the last `m` interrupts. */
  ghost predicate Timely(s: Slot, delay: nat, period: nat, m: nat) {
    exists k: nat :: k <= m && PhaseAfter(delay, period, k) == Phase(s.delay, s.runMe)
  }

  // What is left of the delay when the period is assigned.
  function Remaining(delay: nat, m2: nat): nat { if m2 < delay then delay - m2 else 0 }

  lemma AddedDelay(f: nat, delay: nat, period: nat, m1: nat, m2: nat, m3: nat)
    ensures var s, left := AddedUnder(f, delay, period, m1, m2, m3), Remaining(delay, m2);
            && s == Slot(Some(f), s.delay, period, 0)
            && s.delay == if m3 <= left then left - m3 else period - (m3 - left - 1) % (period + 1)
  {
    var named := TicksOf(Slot(Some(f), 0, 0, 0), m1);
    TicksOfPhase(Slot(Some(f), 0, 0, 0), m1);
    TicksOfPhase(named.(delay := delay), m2);
    var delayed := TicksOf(named.(delay := delay), m2);
    TicksOfPhase(delayed.(period := period), m3);
    ReleaseArithmetic(delay, 0, m2);
    ReleaseArithmetic(Remaining(delay, m2), period, m3);
  }

  // Where in its course a task is, whose counter stands at `left`: before its first release, or after it.
  lemma PhaseAt(delay: nat, period: nat, left: nat)
    ensures left <= delay ==> PhaseAfter(delay, period, delay - left) == Phase(left, 0)
    ensures left <= period ==> PhaseAfter(delay, period, delay + 1 + period - left) == Phase(left, 1)
  {
    if left <= delay {
      ReleaseArithmetic(delay, period, delay - left);
    }
    if left <= period {
      ReleaseArithmetic(delay, period, delay + 1 + period - left);
      QuotientRemainder(period + 1, 0, period - left);
    }
  }

  lemma RemainderIsLess(k: nat, m: nat)
    requires m > 0
    ensures k % m <= k
  {
    if k < m {
      QuotientRemainder(m, 0, k);
    }
  }

  /** An addition that interrupts cut is as if it had been made at once, at some moment within it, exactly if
      its delay counter ends no higher than the delay.  Otherwise there is still a moment within it that
      explains the counter, but by then one release, at least, is missing from the flag: how many the last
      assignment really erases is `SchedulerRuns.ErasedIsExact`. */
  lemma AddIsTimely(f: nat, delay: nat, period: nat, m1: nat, m2: nat, m3: nat)
    ensures var s, left := AddedUnder(f, delay, period, m1, m2, m3), Remaining(delay, m2);
            && (Timely(s, delay, period, m2 + m3) <==> s.delay <= delay)
            && (s.delay <= delay <==> m3 <= left || period - (m3 - left - 1) % (period + 1) <= delay)
            && (s.delay > delay ==>
                  exists k: nat :: k <= m2 + m3 && PhaseAfter(delay, period, k) == Phase(s.delay, 1))
  {
    var s, left := AddedUnder(f, delay, period, m1, m2, m3), Remaining(delay, m2);
    AddedDelay(f, delay, period, m1, m2, m3);
    PhaseAt(delay, period, s.delay);
    if m3 > left {
      RemainderIsLess(m3 - left - 1, period + 1);
    }
    if s.delay <= delay {
      assert delay - s.delay <= m2 + m3;
    } else {
      assert delay + 1 + period - s.delay <= m2 + m3;
      forall k: nat | PhaseAfter(delay, period, k).releases == 0
        ensures PhaseAfter(delay, period, k).delay <= delay
      {
        ReleaseArithmetic(delay, period, k);
      }
    }
  }

  /** With at most one interrupt between the last two assignments, no moment explains the slot exactly if there
      is one, it finds the delay run down, and the period is longer than the delay.  For a task added without
      a delay but with a period, any such interrupt does this. */
  lemma AddErases(f: nat, delay: nat, period: nat, m1: nat, m2: nat, m3: nat)
    requires m3 <= 1
    ensures var s := AddedUnder(f, delay, period, m1, m2, m3);
            && (Timely(s, delay, period, m2 + m3) <==> !(m3 == 1 && m2 >= delay && period > delay))
            && (delay == 0 ==> (Timely(s, delay, period, m2 + m3) <==> !(m3 == 1 && period > 0)))
  {
    AddIsTimely(f, delay, period, m1, m2, m3);
    QuotientRemainder(period + 1, 0, 0);
  }
}
