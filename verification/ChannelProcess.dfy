/**
 The state of one dataflow process of a channel and its critical sections.

 Every field that a process guards by its mutex is a field of `Proc`; every critical section of the
 source is one function on `Proc`, and `SharedProcess` is the object whose methods perform the same
 critical sections in place.  The boolean returned next to the new state says whether the caller
 submits a run to the executor after it has released the mutex.
 */
module ChannelProcess {

  import opened Wrappers

  // The messages that flow through the stages.  Error messages are not part of the model.
  type Value(==, !new)

  const SIZE_RANGE: nat := 0x1_0000_0000_0000_0000

  datatype Proc = Proc(
    queue: seq<Value>,
    running: bool,
    suspend: nat,
    closeQueue: bool,
    final: bool,
    senders: nat,
    receivers: nat)

  // As the constructor leaves it: one sender, one receiver.
  predicate Fresh(p: Proc) {
    && p.queue == [] && !p.running && p.suspend == 0 && !p.closeQueue && !p.final
    && p.senders == 1 && p.receivers == 1
  }

  function Enqueue(p: Proc, v: Value): (Proc, bool) {
    var doRun := p.receivers == 0 && !p.running;
    (p.(queue := p.queue + [v], running := p.running || doRun), doRun)
  }

  function CloseQueue(p: Proc): (Proc, bool) {
    var doRun := p.receivers == 0 && !p.running;
    (p.(closeQueue := true, running := p.running || doRun), doRun)
  }

  function ReceiversReady(p: Proc): (Proc, bool) {
    var doRun := (p.queue != [] || p.closeQueue) && !p.running;
    (p.(running := p.running || doRun), doRun)
  }

  function TaskDone(p: Proc): (Proc, bool) {
    var doRun := p.queue != [] || p.closeQueue;
    (p.(running := doRun), doRun)
  }

  function ClearToSend(p: Proc): (Proc, bool) {
    var left := if p.suspend > 0 then p.suspend - 1 else 0;
    if left > 0 then
      (p.(suspend := left), false)
    else if p.queue != [] || p.closeQueue then
      (p.(suspend := left), true)
    else
      (p.(suspend := left, running := false), false)
  }

  datatype Popped = Popped(proc: Proc, message: Option<Value>, clearUpstream: bool, close: bool)

  // `buffer - 1` is computed in an unsigned machine word, so a buffer size of zero means "unbounded".
  function PopFromQueue(p: Proc, buffer: nat): Popped
    requires buffer < SIZE_RANGE
  {
    if p.queue == [] then
      Popped(p.(closeQueue := false, final := p.closeQueue), None, false, p.closeQueue)
    else
      var rest := p.queue[1..];
      Popped(p.(queue := rest), Some(p.queue[0]), |rest| <= (buffer - 1) % SIZE_RANGE, false)
  }

  function FreeBuffer(p: Proc, buffer: nat): nat
    requires buffer < SIZE_RANGE
  {
    if buffer == 0 then SIZE_RANGE - 1 else (buffer - |p.queue|) % SIZE_RANGE
  }

  /** The upstream is told exactly if the pop leaves room for another message: always in an unbounded buffer.
      What is reported as free is that room, so long as the buffer is not overfull. */
  lemma ToldIfRoom(p: Proc, buffer: nat)
    requires buffer < SIZE_RANGE && 0 < |p.queue| < SIZE_RANGE
    ensures var popped := PopFromQueue(p, buffer);
            && popped.message == Some(p.queue[0]) && popped.proc.queue == p.queue[1..]
            && (popped.clearUpstream <==> buffer == 0 || |popped.proc.queue| < buffer)
            && (buffer > 0 && |popped.proc.queue| <= buffer ==>
                  FreeBuffer(popped.proc, buffer) == buffer - |popped.proc.queue|)
            && (buffer == 0 ==> FreeBuffer(popped.proc, buffer) == SIZE_RANGE - 1)
  {}

  /** One process, updated in place: the fields are those of the source, a method is one critical section.
      The functions that specify the methods are the steps of `ChannelNetwork.Apply`, and what they achieve
      together is `ChannelSteps.KeepStep` and the results of `ChannelSafety` and `ChannelProgress`. */
  class SharedProcess {
    var queue: seq<Value>
    var running: bool
    var suspend: nat
    var closeQueue: bool
    var final: bool
    var senderCount: nat
    var receiverCount: nat
    var bufferSize: nat

    ghost predicate Valid()
      reads this
    {
      bufferSize < SIZE_RANGE
    }

    ghost function View(): Proc
      reads this
    {
      Proc(queue, running, suspend, closeQueue, final, senderCount, receiverCount)
    }

    constructor ()
      ensures Valid() && Fresh(View()) && bufferSize == 1
    {
      queue := [];
      running, closeQueue, final := false, false, false;
      suspend, senderCount, receiverCount, bufferSize := 0, 1, 1, 1;
    }

    method AppendMessage(v: Value) returns (doRun: bool)
      requires Valid()
      modifies this
      ensures Valid() && bufferSize == old(bufferSize)
      ensures (View(), doRun) == Enqueue(old(View()), v)
    {
      queue := queue + [v];
      doRun := receiverCount == 0 && !running;
      running := running || doRun;
    }

    method MarkClosed() returns (doRun: bool)
      requires Valid()
      modifies this
      ensures Valid() && bufferSize == old(bufferSize)
      ensures (View(), doRun) == CloseQueue(old(View()))
    {
      closeQueue := true;
      doRun := receiverCount == 0 && !running;
      running := running || doRun;
    }

    method StartIfWaiting() returns (doRun: bool)
      requires Valid()
      modifies this
      ensures Valid() && bufferSize == old(bufferSize)
      ensures (View(), doRun) == ReceiversReady(old(View()))
    {
      doRun := (queue != [] || closeQueue) && !running;
      running := running || doRun;
    }

    method FinishTask() returns (doRun: bool, doFinal: bool)
      requires Valid()
      modifies this
      ensures Valid() && bufferSize == old(bufferSize)
      ensures (View(), doRun) == TaskDone(old(View())) && doFinal == old(final)
    {
      doRun := queue != [] || closeQueue;
      running := doRun;
      doFinal := final;
    }

    method Resume() returns (doRun: bool)
      requires Valid()
      modifies this
      ensures Valid() && bufferSize == old(bufferSize)
      ensures (View(), doRun) == ClearToSend(old(View()))
    {
      doRun := false;
      if suspend > 0 {
        suspend := suspend - 1;
      }
      if suspend == 0 {
        if queue != [] || closeQueue {
          doRun := true;
        } else {
          running := false;
        }
      }
    }

    method Pop() returns (message: Option<Value>, clearUpstream: bool, close: bool)
      requires Valid()
      modifies this
      ensures Valid() && bufferSize == old(bufferSize)
      ensures Popped(View(), message, clearUpstream, close) == PopFromQueue(old(View()), bufferSize)
    {
      message, clearUpstream, close := None, false, false;
      if queue == [] {
        close, closeQueue := closeQueue, close;
        final := close;
      } else {
        message := Some(queue[0]);
        queue := queue[1..];
        clearUpstream := |queue| <= (bufferSize - 1) % SIZE_RANGE;
      }
    }

    method Suspend(all: bool, receivers: nat)
      requires Valid()
      modifies this`suspend
      ensures Valid()
      ensures View() == old(View()).(suspend := if all then receivers + 1 else 1)
    {
      if all {
        suspend := receivers + 1;
      } else {
        suspend := 1;
      }
    }
  }
}
