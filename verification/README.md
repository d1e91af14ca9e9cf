# Verification of the concurrency and scheduling cores

A Dafny model of six stateful cores of the repository, with proofs over every run of each.
`dafny verify dfyconfig.toml` checks the whole project.

| core | modules |
|---|---|
| channel processes of stlab 1.5.0 | `ChannelProcess`, `ChannelNetwork`, `ChannelInvariant`, `ChannelSteps`, `ChannelSafety`, `ChannelProgress`, `ChannelBuffers`, `ChannelOrder`, `MergeQueues` |
| copyable futures of stlab 1.5.0 | `FutureState`, `FutureTree`, `FutureInvariant`, `FutureTheorems`, `WhenAllAny` |
| the serial queue of stlab 1.5.0 | `SerialQueue` |
| copy on write of stlab 1.5.0 | `CopyOnWrite` |
| the time-triggered task scheduler | `Scheduler`, `ReleaseTimes`, `SchedulerRuns`, `SchedulerPass`, `SchedulerLosses`, `SchedulerRounds` |
| the frame delay line | `DelayLine` |

`Wrappers` and `Arithmetic` hold an option type and two facts about quotients and products.

## How the cores are modelled

**Two layers.** Every critical section of the source is a function on the state that its lock protects.
A class (`SharedProcess`, `SharedState`, `PromiseGraph`, `CommonContext`, `SerialInstance`, `World`,
`RawScheduler`, `CyclicalBuffer` and the three merge queues) performs the same critical sections in place,
and every one of its methods is proved against its function. A state machine then interleaves the functions,
one atomic step for each, and the theorems hold in every state that any run of it reaches.

**Executors.** An executor runs each closure that is submitted to it once, at any later time, in any order
and on any thread. It is a count or a list of what was submitted. A submission is taken together with
the critical section before it, except in the serial queue, where the gap between the two is a state of its
own. No single-token or at-most-one property is built into the machines: a process may hold any number of
runs and steps until the invariant says otherwise.

**Channels.** The network is a tree: one upstream process for every node but the channel itself, any number
downstream; a linear pipeline is the special case. A step of a process is cut at each lock region: pop, the
final test and the decrement of `clear_to_send`, each read of a free buffer, the setting of the suspend
count, each downstream send, the release of the broadcaster itself, `task_done`, and each downstream
sender's destruction. The buffer size of each process is a field of the tree. The theorems need every process
with anything downstream to feed some process whose buffer size is one (`Throttled`; with the default sizes
they all are). `ChannelBuffers.SingleTokenNeedsThrottle` and `ChannelOrder.OrderNeedsThrottle` show that, in every
tree, this is exactly when the single token holds, and exactly when messages keep their order. The handles that users hold on the channel's sender
and on each receiver are counted apart from the counts that the processes keep. A stage without a result, which has no receivers to set ready, is a node whose one receiver
is dropped at the start.

**Futures.** Roots are packaged tasks whose handles are copied and dropped and which are run at any time;
continuations are attached at any time. The handles that users hold are counted apart from the promise count.
`Eval` is the reference meaning of a tree: direct evaluation from the root down.

**Scheduler.** The dispatcher is cut between a task and the decrement that follows it and before the test for a
one-shot task, and an addition is cut between its four assignments; an interrupt may come at any of these cuts.
A deletion is one step: its first assignment already takes the slot away from the interrupt routine. The
methods of `RawScheduler` are the uncut operations, and `SchedulerPass` shows that a pass of the uncut dispatcher is a run
of the cut machine.

**Findings.**

- If the buffer sizes of all processes fed by some process differ from one, back-pressure does not hold there:
  two messages are enough for a `clear_to_send` at count zero that submits a second run while one is pending.
  The third message can then overtake the second. One child with a buffer size of one is enough to prevent
  both, since the least free buffer decides.
- A continuation that waits for a future does not see its promise break, because the cascade destroys it unrun
  (`deps/libraries-1.5.0/stlab/concurrency/future.hpp:633`), but one attached afterwards does. The outcome of a future below
  the broken root is independent of the schedule if and only if, from every future on the way on, the remaining
  continuations map a broken promise to itself.
- For the same reason `when_all` and `when_any` can wait for ever: an input whose promise breaks while the combinator
  waits calls neither trigger. `when_all` is certain to be resolved if and only if some input fails otherwise or
  all succeed; `when_any`, if and only if some input succeeds or none fails by a broken promise.
- The interval of a periodic task is its period plus one tick, since a tick that releases the task does not
  also decrement the reloaded delay.
- An interrupt before the last assignment of `SCH_Add_Task` can raise the flag that this assignment clears
  (`c89_c99_scheduler/source/time_triggered_arch/scheduler_raw/sch51.c:133-134`). A task without a delay and with a period then loses its first release, and one
  more for every further interval that passes there.
- A task that frees its own slot and has it filled again makes the dispatcher decrement the flag of the new
  task. The account of the new task does not balance from then on, for as long as it is in its slot. Slot
  safety, and one run at most for one-shot tasks, survive even this.
- The identity shortcuts of `==` and `<` agree with comparing elements if and only if the elements' equality is
  reflexive and their order irreflexive.

## Model

| member | source | states |
|---|---|---|
| ChannelProcess.SharedProcess.constructor | deps/libraries-1.5.0/stlab/concurrency/channel.hpp:773-781 | A new process has one sender and one receiver, an empty queue, is idle, not suspended, not closed, and has buffer size one. |
| ChannelProcess.SharedProcess.AppendMessage | deps/libraries-1.5.0/stlab/concurrency/channel.hpp:613-625 | The message joins the tail of the queue; a run is asked for exactly if all receivers are ready and the process is idle, and then it counts as running. |
| ChannelProcess.SharedProcess.MarkClosed | deps/libraries-1.5.0/stlab/concurrency/channel.hpp:598-610 | The critical section that the last sender enters: the queue is marked closed, and an idle process with ready receivers starts. |
| ChannelProcess.SharedProcess.StartIfWaiting | deps/libraries-1.5.0/stlab/concurrency/channel.hpp:788-807 | The critical section that the last receiver to be ready enters: an idle process starts exactly if something is queued or the queue is closed. |
| ChannelProcess.SharedProcess.FinishTask | deps/libraries-1.5.0/stlab/concurrency/channel.hpp:811-819 | The process stays running exactly if something is left to do; the final flag is reported as it is. |
| ChannelProcess.SharedProcess.Resume | deps/libraries-1.5.0/stlab/concurrency/channel.hpp:843-856 | The suspend count goes down but not below zero; at zero the process asks for a run if something is left to do and otherwise turns idle. |
| ChannelProcess.SharedProcess.Pop | deps/libraries-1.5.0/stlab/concurrency/channel.hpp:859-876 | The oldest message is removed and the upstream is to be told if at most buffer size minus one (in an unsigned word) are left; an empty closed queue makes the process final and is no longer closed. |
| ChannelProcess.SharedProcess.Suspend | deps/libraries-1.5.0/stlab/concurrency/channel.hpp:1061-1071 | Only the suspend count changes: to one for each receiver plus one for the broadcaster, or to the broadcaster's share alone. |
| ChannelProcess.ToldIfRoom | deps/libraries-1.5.0/stlab/concurrency/channel.hpp:631-637 | The upstream is told exactly if the pop leaves room in the buffer, always if it is unbounded; and the free buffer reported is that room. |
| ChannelSteps.InitInv | deps/libraries-1.5.0/stlab/concurrency/channel.hpp:764-781 | A freshly built tree of processes, with any buffer sizes that throttle every broadcaster, satisfies the global invariant. |
| ChannelSteps.KeepRun | deps/libraries-1.5.0/stlab/concurrency/channel.hpp:1007-1038 | Starting a run keeps the invariant: token, debts to the parent, phase of the queue, and the values between the stages. |
| ChannelSteps.KeepCtsDown | deps/libraries-1.5.0/stlab/concurrency/channel.hpp:832-857 | An acknowledgement lowers the parent's suspend count and the child's debt together, and keeps the invariant. |
| ChannelSteps.KeepSuspend | deps/libraries-1.5.0/stlab/concurrency/channel.hpp:1048-1071 | A broadcaster takes one share for every child and one for itself when nothing is owed, and the invariant is kept. |
| ChannelSteps.KeepSend | deps/libraries-1.5.0/stlab/concurrency/channel.hpp:672-675 | Each downstream send moves one value from the broadcaster's hand to a queue that was empty and not final, and keeps the invariant. |
| ChannelSteps.KeepClear | deps/libraries-1.5.0/stlab/concurrency/channel.hpp:825-829 | Destroying a downstream sender closes that child in two steps that keep the invariant. |
| ChannelSteps.KeepStep | deps/libraries-1.5.0/stlab/concurrency/channel.hpp:598-1081 | Every step of every thread, of the executor and of the environment keeps the global invariant. |
| ChannelSteps.KeepRunOfSteps | deps/libraries-1.5.0/stlab/concurrency/channel.hpp:598-1081 | So does every run. |
| ChannelSafety.ReachableInv | deps/libraries-1.5.0/stlab/concurrency/channel.hpp:598-1081 | The invariant holds in every reachable state. |
| ChannelSafety.SingleToken | deps/libraries-1.5.0/stlab/concurrency/channel.hpp:1007-1081 | A running process has exactly one of a submitted run, a step under way, or a suspension with neither; an idle one has none, apart from a last step that is destroying downstream senders; two steps of one process never overlap. |
| ChannelSafety.SuspendAccounting | deps/libraries-1.5.0/stlab/concurrency/channel.hpp:832-876 | The suspend count is the number of children that have not acknowledged the broadcast, plus one while the broadcaster has not released itself; a queue fed by a process holds at most one message. |
| ChannelSafety.ClearToSendIsOwed | deps/libraries-1.5.0/stlab/concurrency/channel.hpp:832-848 | The decrement is never reached at count zero and never on a final process. |
| ChannelSafety.AssertionsHold | deps/libraries-1.5.0/stlab/concurrency/channel.hpp:820-822 | A final process never asks for another run when its task is done; and a sender count is positive when it is decremented. |
| ChannelSafety.TellsOnlyIfRoom | deps/libraries-1.5.0/stlab/concurrency/channel.hpp:1007-1038 | In any tree and state, a run takes the oldest message and goes to tell the upstream exactly if the buffer has room again; with nothing to take it turns the process final exactly if its queue is closed. |
| ChannelSafety.StopsOnlyEmpty | deps/libraries-1.5.0/stlab/concurrency/channel.hpp:811-857 | In any tree and state, whatever step is taken, a process turns idle only with an empty queue that is not closed. |
| ChannelSafety.FinalIsLeftAlone | deps/libraries-1.5.0/stlab/concurrency/channel.hpp:832-838 | In any tree and state, the test of an acknowledgement changes no process, and goes on to the decrement exactly if the process is not final. |
| ChannelSafety.LastSenderCloses | deps/libraries-1.5.0/stlab/concurrency/channel.hpp:598-600 | In any tree and state, destroying a sender takes one off the count and goes on to close the process exactly if none is left. |
| ChannelSafety.NotBeforeReady | deps/libraries-1.5.0/stlab/concurrency/channel.hpp:783-807 | While a receiver of a process has not been set ready, the process has neither run nor been asked to. |
| ChannelProgress.CountsAreHandles | deps/libraries-1.5.0/stlab/concurrency/channel.hpp:596-610 | In every run of every tree, the sender count of the channel is the number of sender handles alive and each receiver count the number of receivers not set ready; while a sender is alive the channel is neither closing nor closed nor final. |
| ChannelProgress.SentIsHistory | deps/libraries-1.5.0/stlab/concurrency/channel.hpp:613-629 | In every run, the record of what was sent is what users sent, in order. |
| ChannelProgress.RecordsAreHistory | deps/libraries-1.5.0/stlab/concurrency/channel.hpp:596-610 | In every run, the records of the handles are the handles copied less those destroyed. |
| ChannelProgress.CountsAreHistory | deps/libraries-1.5.0/stlab/concurrency/channel.hpp:596-610 | From the start of any run of any tree, the sender and receiver counts are one, plus the handles copied, less those destroyed or set ready. |
| ChannelSafety.InvConserves | deps/libraries-1.5.0/stlab/concurrency/channel.hpp:859-876 | What a stage has consumed, what is queued, in its parent's hands and further up make up the composed stages over what was sent. |
| ChannelSafety.PipelineRefinement | deps/libraries-1.5.0/stlab/concurrency/channel.hpp:1007-1081 | In every schedule, at every stage, no value is lost, duplicated or reordered, and what was consumed is a prefix of the composed functions mapped over the values sent. |
| ChannelSafety.CloseIsOrderly | deps/libraries-1.5.0/stlab/concurrency/channel.hpp:811-830 | A process is final only after every sender handle on the channel is gone, its parent is final, and it has processed and broadcast everything ever sent. |
| ChannelSafety.FinalForever | deps/libraries-1.5.0/stlab/concurrency/channel.hpp:859-876 | No step after that enqueues, pops or runs anything at a final process, or sends anything into the channel. |
| ChannelProgress.QuietIsDelivered | deps/libraries-1.5.0/stlab/concurrency/channel.hpp:811-857 | With all receivers ready and no step enabled, every stage is idle and unsuspended, has consumed all it is ever to consume, and is final if and only if every sender handle is gone. |
| ChannelProgress.StepDoesWork | deps/libraries-1.5.0/stlab/concurrency/channel.hpp:1048-1081 | Every internal step strictly lowers the remaining stage visits. |
| ChannelProgress.DrainTerminates | deps/libraries-1.5.0/stlab/concurrency/channel.hpp:1048-1081 | A run without environment steps is no longer than the work in its first state. |
| ChannelProgress.DrainDelivers | deps/libraries-1.5.0/stlab/concurrency/channel.hpp:811-857 | Whatever the schedule, such a run that cannot go on has delivered everything at every stage and closed every stage if the channel was closed. |
| ChannelProgress.DrainExists | deps/libraries-1.5.0/stlab/concurrency/channel.hpp:811-857 | And it always exists. |
| ChannelProgress.Progress | deps/libraries-1.5.0/stlab/concurrency/channel.hpp:832-857 | While some stage has not consumed everything, some internal step is enabled. |
| ChannelBuffers.PushDown | deps/libraries-1.5.0/stlab/concurrency/channel.hpp:1048-1081 | Where some child has buffer size one, two messages move on from a process to any child of it, which then holds one and has the other queued; everything beside the path has acknowledged and stalls. |
| ChannelBuffers.SubmittedTwice | deps/libraries-1.5.0/stlab/concurrency/channel.hpp:844-848 | Where none has, the process is submitted while its next run is pending. |
| ChannelBuffers.SingleTokenNeedsThrottle | deps/libraries-1.5.0/stlab/concurrency/channel.hpp:832-876 | In every tree of processes, every process keeps at most one run submitted or under way in all runs if and only if every process with anything downstream feeds some process whose buffer size is one. |
| ChannelOrder.Deliver | deps/libraries-1.5.0/stlab/concurrency/channel.hpp:1007-1081 | In a tree of any buffer sizes, a message that arrives at a process with nothing else to do below it can run its whole course: the process takes it and everything below comes to rest again. |
| ChannelOrder.Travel | deps/libraries-1.5.0/stlab/concurrency/channel.hpp:1007-1081 | A message sent while everything but one process is at rest reaches that process, which takes it, and the rest comes to rest again. |
| ChannelOrder.Overtaking | deps/libraries-1.5.0/stlab/concurrency/channel.hpp:832-857 | Below any process that is not throttled, some run lets the third message overtake the second. |
| ChannelOrder.OrderNeedsThrottle | deps/libraries-1.5.0/stlab/concurrency/channel.hpp:1048-1081 | In every tree, every stage consumes a prefix of the composed functions over the values sent, for all functions and in all runs, if and only if every process with anything downstream feeds some process whose buffer size is one. |
| MergeQueues.ZipQueue.constructor | deps/libraries-1.5.0/stlab/concurrency/channel.hpp:428-436 | A new zip has nothing appended or popped. |
| MergeQueues.ZipQueue.Append | deps/libraries-1.5.0/stlab/concurrency/channel.hpp:468-471 | Only the named source's history grows; every tuple popped so far stays the k-th value of every source. |
| MergeQueues.ZipQueue.Empty | deps/libraries-1.5.0/stlab/concurrency/channel.hpp:438-440 | Nothing more can be popped exactly when as many tuples were popped as the shortest source has values. |
| MergeQueues.ZipQueue.Front | deps/libraries-1.5.0/stlab/concurrency/channel.hpp:442-450 | The next tuple is the k-th value of every source, where k tuples were popped. |
| MergeQueues.ZipQueue.PopFront | deps/libraries-1.5.0/stlab/concurrency/channel.hpp:452-454 | One tuple is added to those popped, and it is the k-th value of every source. |
| MergeQueues.MinLength | deps/libraries-1.5.0/stlab/concurrency/channel.hpp:438-440 | The least length of the sources: a bound of all that is attained. |
| MergeQueues.StallsNoEarlier | deps/libraries-1.5.0/stlab/concurrency/channel.hpp:488-504 | No source holds the round robin up before it is popped next, and only the source whose turn it is can hold it up now. |
| MergeQueues.FirstStall | deps/libraries-1.5.0/stlab/concurrency/channel.hpp:488-491 | The least of N * length(i) + i over the sources. |
| MergeQueues.RoundRobinQueue.constructor | deps/libraries-1.5.0/stlab/concurrency/channel.hpp:484-486 | The first turn is that of source 0. |
| MergeQueues.RoundRobinQueue.Append | deps/libraries-1.5.0/stlab/concurrency/channel.hpp:524-527 | Only the named source's history grows; the turns so far stay as they were. |
| MergeQueues.RoundRobinQueue.StallsLater | deps/libraries-1.5.0/stlab/concurrency/channel.hpp:488-491 | The source whose turn it is has nothing queued if and only if exactly the least of N * length(i) + i values were popped. |
| MergeQueues.RoundRobinQueue.Empty | deps/libraries-1.5.0/stlab/concurrency/channel.hpp:488-491 | A drain stops after exactly that many pops. |
| MergeQueues.RoundRobinQueue.Front | deps/libraries-1.5.0/stlab/concurrency/channel.hpp:493-497 | With k values popped, the next is element k / N of source k % N, and the index is k % N. |
| MergeQueues.RoundRobinQueue.PopFront | deps/libraries-1.5.0/stlab/concurrency/channel.hpp:499-504 | One value is added to those popped, and every value popped was the one its turn required. |
| MergeQueues.RoundRobinQueue.Size | deps/libraries-1.5.0/stlab/concurrency/channel.hpp:506-517 | Only the source popped last reports its length; the others report the largest word. |
| MergeQueues.UnorderedConserves | deps/libraries-1.5.0/stlab/concurrency/channel.hpp:544-558 | If every source keeps its order, every value occurs as often among those popped and queued as it was appended. |
| MergeQueues.UnorderedQueue.constructor | deps/libraries-1.5.0/stlab/concurrency/channel.hpp:540-542 | A new merge has nothing appended or popped. |
| MergeQueues.UnorderedQueue.Append | deps/libraries-1.5.0/stlab/concurrency/channel.hpp:579-582 | Only the named source's history grows; every source keeps its order. |
| MergeQueues.UnorderedQueue.Empty | deps/libraries-1.5.0/stlab/concurrency/channel.hpp:544-546 | Nothing is left exactly when every source was popped completely and in order, and then the multisets popped and appended are equal. |
| MergeQueues.UnorderedQueue.Front | deps/libraries-1.5.0/stlab/concurrency/channel.hpp:548-553 | The head of the lowest-numbered source that is not empty. |
| MergeQueues.UnorderedQueue.PopFront | deps/libraries-1.5.0/stlab/concurrency/channel.hpp:555-558 | That head, and nothing else, moves to the values popped. |
| FutureState.SharedState.constructor | deps/libraries-1.5.0/stlab/concurrency/future.hpp:622-625 | A new future is not ready, has no continuation, a function and one promise. |
| FutureState.SharedState.Recover | deps/libraries-1.5.0/stlab/concurrency/future.hpp:299-305 | A continuation is stored if the future is not ready, and otherwise is to be submitted at once. |
| FutureState.SharedState.Proceed | deps/libraries-1.5.0/stlab/concurrency/future.hpp:1668-1677 | The future becomes ready and hands over all its continuations, keeping none. |
| FutureState.PromiseGraph.Remove | deps/libraries-1.5.0/stlab/concurrency/future.hpp:628-643 | Destroying a handle in place, with all the destructions that this sets off, has the effect of the cascade. |
| FutureState.CascadeIsExact | deps/libraries-1.5.0/stlab/concurrency/future.hpp:628-643 | When the last handle of an unrun task dies, its future and exactly those that wait for it, directly or through others, become ready with a broken promise; nothing else changes. |
| FutureState.EachIsExact | deps/libraries-1.5.0/stlab/concurrency/future.hpp:685-688 | Destroying a list of waiting continuations breaks exactly the union of their families. |
| FutureInvariant.InitInv | deps/libraries-1.5.0/stlab/concurrency/future.hpp:270-270 | A forest with nothing attached and nothing run satisfies the invariant. |
| FutureInvariant.KeepAttach | deps/libraries-1.5.0/stlab/concurrency/future.hpp:292-308 | Attaching keeps every continuation in exactly one place. |
| FutureInvariant.KeepRunTask | deps/libraries-1.5.0/stlab/concurrency/future.hpp:647-654 | Running a submitted task keeps the invariant, and what it computes is what direct evaluation gives. |
| FutureInvariant.KeepDispatch | deps/libraries-1.5.0/stlab/concurrency/future.hpp:1675-1676 | Submitting a continuation moves it from the resolving thread's hands to the executor and keeps the invariant. |
| FutureInvariant.KeepDrop | deps/libraries-1.5.0/stlab/concurrency/future.hpp:628-643 | Dropping a handle, last or not, keeps the invariant. |
| FutureInvariant.ParentReady | deps/libraries-1.5.0/stlab/concurrency/future.hpp:377-386 | The parent of a task that the executor takes is ready and holds its outcome; the task has not been run or broken. |
| FutureInvariant.EvalFrame | deps/libraries-1.5.0/stlab/concurrency/future.hpp:279-308 | The outcome of a resolved future does not depend on what breaks later. |
| FutureInvariant.BreakIsExact | deps/libraries-1.5.0/stlab/concurrency/future.hpp:628-643 | In any forest of any run, the death of a root's last handle breaks exactly its waiting family and changes neither the executor nor any running task. |
| FutureInvariant.KeepStep | deps/libraries-1.5.0/stlab/concurrency/future.hpp:279-308 | Every step of every thread keeps the invariant. |
| FutureInvariant.ReachableInv | deps/libraries-1.5.0/stlab/concurrency/future.hpp:279-308 | The invariant holds in every reachable state. |
| FutureTheorems.Confluent | deps/libraries-1.5.0/stlab/concurrency/future.hpp:279-308 | Whatever the schedule, a ready future holds the value or exception of direct sequential evaluation, and if no promise above it broke, that of the tree alone. |
| FutureTheorems.ContinuationLaw | deps/libraries-1.5.0/stlab/concurrency/future.hpp:279-308 | In every reachable state, a future resolved by being run holds what its task yields, said without the reference meaning: a root its own outcome; `recover` what its function makes of the parent's outcome, whatever that is; `then` what its function makes of the parent's value, or the parent's exception. |
| FutureTheorems.ExceptionPasses | deps/libraries-1.5.0/stlab/concurrency/future.hpp:279-285 | An exception reaches every future below it unchanged if only `then` lies between. |
| FutureTheorems.FirstRecoverSees | deps/libraries-1.5.0/stlab/concurrency/future.hpp:292-297 | The first `recover` below an exception is called with exactly that exception. |
| FutureTheorems.SchedulesAgree | deps/libraries-1.5.0/stlab/concurrency/future.hpp:279-308 | Two runs that break the same promises agree on every future that both have resolved. |
| FutureTheorems.DispatchedOnce | deps/libraries-1.5.0/stlab/concurrency/future.hpp:357-369 | A continuation is submitted at most once, never before its parent is ready, exactly once if it was resolved by being run, and never if its promise was broken. |
| FutureTheorems.WaitersInOrder | deps/libraries-1.5.0/stlab/concurrency/future.hpp:299-305 | In every run, while a future is not ready, the continuations that wait for it are exactly those attached to it, in the order of attaching. |
| FutureTheorems.DispatchedInOrder | deps/libraries-1.5.0/stlab/concurrency/future.hpp:1675-1676 | The thread that resolved a future submits them one after the other in that order. |
| FutureTheorems.GetReadyIsReady | deps/libraries-1.5.0/stlab/concurrency/future.hpp:376-386 | The assertion of `get_ready` never fails. |
| FutureTheorems.PromiseCountIsHandles | deps/libraries-1.5.0/stlab/concurrency/future.hpp:683-694 | The promise count is the number of live handles: those that users hold on a root, and for a continuation those waiting, moved out, submitted or being run. |
| FutureTheorems.HandlesAreHistory | deps/libraries-1.5.0/stlab/concurrency/future.hpp:685-694 | In every run, the handles on a root are those copied less those destroyed. |
| FutureTheorems.RunResolves | deps/libraries-1.5.0/stlab/concurrency/future.hpp:647-654 | Running a root that has not been run makes it ready, with its own outcome, and hands over exactly the continuations that waited for it. |
| FutureTheorems.BrokenPromiseCascades | deps/libraries-1.5.0/stlab/concurrency/future.hpp:628-643 | Every future attached below a root that dies unrun becomes ready with a broken promise and loses its continuations, at any depth; no other future changes. |
| FutureTheorems.StepDoesWork | deps/libraries-1.5.0/stlab/concurrency/future.hpp:647-654 | Every internal step strictly lowers the remaining work. |
| FutureTheorems.DrainTerminates | deps/libraries-1.5.0/stlab/concurrency/future.hpp:647-654 | A run without user steps is no longer than the work in its first state. |
| FutureTheorems.QuietIsResolved | deps/libraries-1.5.0/stlab/concurrency/future.hpp:299-305 | When no step is enabled, every future attached below a ready one is ready, however attaching and resolving were interleaved. |
| FutureTheorems.BreaksAt | deps/libraries-1.5.0/stlab/concurrency/future.hpp:632-637 | For every future on the way from a root down to another there is a run in which the root breaks when exactly the way down to it is attached, and the remaining continuations see the broken promise. |
| FutureTheorems.BrokenPromiseIsRacy | deps/libraries-1.5.0/stlab/concurrency/future.hpp:628-643 | In every forest, all runs that break a root give a future below it the same outcome if and only if, from every future on the way on, the remaining continuations map a broken promise to itself. |
| WhenAllAny.CommonContext.constructor | deps/libraries-1.5.0/stlab/concurrency/future.hpp:1486-1493 | A new context counts all inputs, with the flag down and no result or exception. |
| WhenAllAny.CommonContext.CountDown | deps/libraries-1.5.0/stlab/concurrency/future.hpp:1474-1479 | The counter goes down by one, and only the thread that takes it to zero is told so. |
| WhenAllAny.CommonContext.RaiseFlag | deps/libraries-1.5.0/stlab/concurrency/future.hpp:1453-1455 | The flag is up afterwards, and only the first caller found it down. |
| WhenAllAny.CommonContext.ResetHolds | deps/libraries-1.5.0/stlab/concurrency/future.hpp:1456-1457 | All inputs are released and nothing else changes. |
| WhenAllAny.CommonContext.ApplyOutcome | deps/libraries-1.5.0/stlab/concurrency/future.hpp:1344-1359 | A value is stored at its argument's position, or with its index; an exception is stored as the exception. |
| WhenAllAny.LastIsFirst | deps/libraries-1.5.0/stlab/concurrency/future.hpp:1470-1484 | The thread that takes the counter to zero finds that no other input is to fire. |
| WhenAllAny.WinnerCancels | deps/libraries-1.5.0/stlab/concurrency/future.hpp:1451-1462 | Before the winner of the flag stores its outcome, and ever after, no input is held, so that every one that has not started can be cancelled; while the flag is down, and until the winner has reset them, every input is held. |
| WhenAllAny.KeepStep | deps/libraries-1.5.0/stlab/concurrency/future.hpp:1451-1526 | Every access of every thread to the shared context, every cancellation, and every promise that breaks while its input waits keep the invariant. |
| WhenAllAny.WhenAllFiresOnce | deps/libraries-1.5.0/stlab/concurrency/future.hpp:1583-1600 | `when_all` fires at most once, with all results at their positions and only after all inputs have succeeded, or with the exception of the failure that won the flag. |
| WhenAllAny.WhenAnyFiresOnce | deps/libraries-1.5.0/stlab/concurrency/future.hpp:1608-1624 | `when_any` fires at most once, with the value and index of the success that won the flag, or, only after all inputs have failed, with the exception of the failure that took the counter to zero. |
| WhenAllAny.QuietHasFired | deps/libraries-1.5.0/stlab/concurrency/future.hpp:1451-1526 | When no continuation is left, `when_all` has fired if and only if some input failed that was not lost to a broken promise, or all succeeded; `when_any`, if and only if some input succeeded, or all failed and none was lost. It fired once, with a success exactly if all inputs, or any, succeeded. |
| WhenAllAny.Hangs | deps/libraries-1.5.0/stlab/concurrency/future.hpp:628-643 | Otherwise there is a run in which no continuation is left and it has not fired. |
| WhenAllAny.CertainToFire | deps/libraries-1.5.0/stlab/concurrency/future.hpp:1514-1526 | It fires in every run that ends if and only if, for `when_all`, some input fails otherwise than by a broken promise or all succeed; for `when_any`, some input succeeds or none fails by a broken promise. |
| WhenAllAny.SchedulesEnd | deps/libraries-1.5.0/stlab/concurrency/future.hpp:1451-1526 | Every schedule is finite. |
| SerialQueue.SerialInstance.constructor | deps/libraries-1.5.0/stlab/concurrency/serial_queue.hpp:134-135 | A new queue is idle and empty. |
| SerialQueue.SerialInstance.Append | deps/libraries-1.5.0/stlab/concurrency/serial_queue.hpp:117-132 | The task joins the tail, the queue counts as running, and the caller submits a drain exactly if it was not running before. |
| SerialQueue.SerialInstance.Pop | deps/libraries-1.5.0/stlab/concurrency/serial_queue.hpp:56-60 | The oldest task is taken and no other. |
| SerialQueue.SerialInstance.TakeAll | deps/libraries-1.5.0/stlab/concurrency/serial_queue.hpp:76-79 | All tasks are taken in order and none is left. |
| SerialQueue.SerialInstance.Empty | deps/libraries-1.5.0/stlab/concurrency/serial_queue.hpp:62-74 | The queue turns idle exactly if it is empty. |
| SerialQueue.SerialInstance.DrainSingle | deps/libraries-1.5.0/stlab/concurrency/serial_queue.hpp:88-96 | One drain whose task enqueues on its own queue runs the oldest task, leaves the others and then its children in order, and is followed by another exactly if anything is left. |
| SerialQueue.SerialInstance.DrainAll | deps/libraries-1.5.0/stlab/concurrency/serial_queue.hpp:76-86 | One drain whose tasks enqueue on their own queue runs the tasks that it found, in order, leaves their children in order, and is followed by another exactly if there are any. |
| SerialQueue.KeepStep | deps/libraries-1.5.0/stlab/concurrency/serial_queue.hpp:56-132 | Every step in either mode keeps the invariant. |
| SerialQueue.TokenInvariant | deps/libraries-1.5.0/stlab/concurrency/serial_queue.hpp:50-96 | `_running` holds exactly when one drain is about to be submitted, submitted, or at work; an idle queue is empty; at most one task executes; `single` never pops an empty deque. |
| SerialQueue.FifoOrder | deps/libraries-1.5.0/stlab/concurrency/serial_queue.hpp:62-132 | Executed, executing, taken and queued tasks are the enqueue history in order. |
| SerialQueue.RefinesFifo | deps/libraries-1.5.0/stlab/concurrency/serial_queue.hpp:76-96 | In either mode every step is a step of one FIFO executor or invisible to it. |
| SerialQueue.SingleTakesOne | deps/libraries-1.5.0/stlab/concurrency/serial_queue.hpp:88-96 | In mode `single` a drain takes the oldest task alone and leaves the others; no drain ever has more than one task in hand, and as many tasks are executed or in hand as drains have taken one. |
| SerialQueue.AllTakesEverything | deps/libraries-1.5.0/stlab/concurrency/serial_queue.hpp:76-86 | In mode `all` a drain takes the whole queue, in order, and leaves it empty; when it comes to its check, exactly what it and the drains before it have taken has been executed. |
| SerialQueue.StepDoesWork | deps/libraries-1.5.0/stlab/concurrency/serial_queue.hpp:76-96 | Every step other than an enqueue strictly lowers the remaining work. |
| SerialQueue.QuietIsDrained | deps/libraries-1.5.0/stlab/concurrency/serial_queue.hpp:76-96 | No wake-up is lost: when no step is enabled every enqueued task has been executed and the queue is idle. |
| SerialQueue.DrainTerminates | deps/libraries-1.5.0/stlab/concurrency/serial_queue.hpp:76-96 | Once nothing is enqueued, a run is no longer than the work in its first state. |
| SerialQueue.DrainExists | deps/libraries-1.5.0/stlab/concurrency/serial_queue.hpp:76-96 | From every state that satisfies the invariant some run without enqueues executes everything. |
| CopyOnWrite.World.constructor | deps/libraries-1.5.0/stlab/copy_on_write.hpp:51-53 | Only the static default exists, with a count of one. |
| CopyOnWrite.World.DefaultConstruct | deps/libraries-1.5.0/stlab/copy_on_write.hpp:51-57 | A new handle shares the static default, whose count goes up. |
| CopyOnWrite.World.ValueConstruct | deps/libraries-1.5.0/stlab/copy_on_write.hpp:59-64 | A new handle gets a new model with a count of one. |
| CopyOnWrite.World.CopyConstruct | deps/libraries-1.5.0/stlab/copy_on_write.hpp:66-71 | A new handle shares the model of another, whose count goes up. |
| CopyOnWrite.World.MoveConstruct | deps/libraries-1.5.0/stlab/copy_on_write.hpp:72-75 | A new handle takes over the model of another, which is left without one. |
| CopyOnWrite.World.Destruct | deps/libraries-1.5.0/stlab/copy_on_write.hpp:77-79 | The handle goes, and its model with it if the count reaches zero. |
| CopyOnWrite.World.SwapSelves | deps/libraries-1.5.0/stlab/copy_on_write.hpp:132-134 | Two handles exchange their models. |
| CopyOnWrite.World.MoveAssignment | deps/libraries-1.5.0/stlab/copy_on_write.hpp:85-89 | Assignment through a temporary and a swap, which keeps the counts exact, also for a handle assigned to itself. |
| CopyOnWrite.World.CopyAssignment | deps/libraries-1.5.0/stlab/copy_on_write.hpp:81-83 | Assignment through a copy, which keeps the counts exact, also for a handle assigned to itself. |
| CopyOnWrite.World.ValueAssignment | deps/libraries-1.5.0/stlab/copy_on_write.hpp:91-99 | A unique handle is overwritten in place and any other, moved-from or not, gets a new model. |
| CopyOnWrite.World.WriteThrough | deps/libraries-1.5.0/stlab/copy_on_write.hpp:101-105 | A handle that shares its model is detached before it is written. |
| CopyOnWrite.ShareKeeps | deps/libraries-1.5.0/stlab/copy_on_write.hpp:66-71 | Sharing keeps the counts exact and adds one variable with the shared value. |
| CopyOnWrite.TakeKeeps | deps/libraries-1.5.0/stlab/copy_on_write.hpp:72-75 | Moving keeps the counts exact and moves one value. |
| CopyOnWrite.ExchangeKeeps | deps/libraries-1.5.0/stlab/copy_on_write.hpp:132-134 | Swapping keeps the counts exact and exchanges two values, moved-from handles included. |
| CopyOnWrite.DestroyKeeps | deps/libraries-1.5.0/stlab/copy_on_write.hpp:77-79 | A model is freed exactly if its last handle goes and it is not the default; no other handle reads anything else. |
| CopyOnWrite.OverwriteKeeps | deps/libraries-1.5.0/stlab/copy_on_write.hpp:101-105 | Writing through a unique handle changes what that handle reads and nothing else. |
| CopyOnWrite.OperationIsPrivate | deps/libraries-1.5.0/stlab/copy_on_write.hpp:51-134 | Every operation keeps the counts exact and acts on what the handles read as if no model were shared. |
| CopyOnWrite.SharingIsExact | deps/libraries-1.5.0/stlab/copy_on_write.hpp:66-105 | Copying and moving hand over the model itself; a write or the assignment of a value keeps the model of a unique handle, and otherwise gives the handle a new one; every other handle keeps its model. |
| CopyOnWrite.ProgramIsPrivate | deps/libraries-1.5.0/stlab/copy_on_write.hpp:51-134 | So does every sequence of operations, from any state with exact counts. |
| CopyOnWrite.ValueSemantics | deps/libraries-1.5.0/stlab/copy_on_write.hpp:51-134 | After any program every handle not moved from reads what an independent variable would hold, in comparisons as well; each model's count is its handles, plus one for the default, and never zero; the default keeps its first value; no handle dangles. |
| CopyOnWrite.EqualityShortcut | deps/libraries-1.5.0/stlab/copy_on_write.hpp:184-186 | The identity shortcut of `==` agrees with comparing elements, for all handles, if and only if the elements' equality is reflexive. |
| CopyOnWrite.OrderShortcut | deps/libraries-1.5.0/stlab/copy_on_write.hpp:136-138 | The identity shortcut of `<` agrees with comparing elements, for all handles, if and only if the elements' order is irreflexive. |
| Scheduler.RawScheduler.constructor | c89_c99_scheduler/source/time_triggered_arch/scheduler_raw/sch51.c:177-185 | Every slot is clear, and the errors that clearing empty slots raises are forgotten. |
| Scheduler.RawScheduler.DeleteTask | c89_c99_scheduler/source/time_triggered_arch/scheduler_raw/sch51.c:38-63 | The slot is cleared in any case; deleting an empty slot sets the error code and returns an error. |
| Scheduler.RawScheduler.Update | c89_c99_scheduler/source/time_triggered_arch/scheduler_raw/sch51.c:73-96 | Every slot takes one tick: an occupied one counts its delay down, or raises its byte-wide flag and reloads its delay. |
| Scheduler.RawScheduler.AddTask | c89_c99_scheduler/source/time_triggered_arch/scheduler_raw/sch51.c:105-136 | The task goes to the first empty slot with its flag down, and that slot's number is returned; a full table is unchanged, sets the error code and returns its size. |
| Scheduler.RawScheduler.DispatchOne | c89_c99_scheduler/source/time_triggered_arch/scheduler_raw/sch51.c:150-160 | A due task is run with all its calls to the scheduler and all interrupts, its flag is lowered with wrap-around, and a slot without a period is then deleted. |
| Scheduler.RawScheduler.DispatchTasks | c89_c99_scheduler/source/time_triggered_arch/scheduler_raw/sch51.c:144-161 | The slots are dispatched in order, and the table is safe afterwards whatever the tasks did. |
| Scheduler.Gap | c89_c99_scheduler/source/time_triggered_arch/scheduler_raw/sch51.c:112-115 | The first empty slot, or the size of the table if every slot is occupied. |
| Scheduler.CallsKeepSafe | c89_c99_scheduler/source/time_triggered_arch/scheduler_raw/sch51.c:38-136 | Any sequence of interrupts, additions and deletions leaves every empty slot with zero delay, period and flag. |
| Scheduler.DispatchKeepsSafe | c89_c99_scheduler/source/time_triggered_arch/scheduler_raw/sch51.c:144-161 | So does a pass of the dispatcher, even if tasks add tasks, delete others or delete themselves. |
| Scheduler.ErrorIsLastFailure | c89_c99_scheduler/source/time_triggered_arch/scheduler_raw/sch51.c:44-57 | The error code tells the last failure: an addition to a table without an empty slot, which changes nothing else, or the deletion of an empty slot. |
| SchedulerPass.CallsAreRun | c89_c99_scheduler/source/time_triggered_arch/scheduler_raw/sch51.c:152-152 | The calls of a task and the interrupts between them, taken as whole operations, are a run of the cut machine that leaves the same table. |
| SchedulerPass.TurnIsRun | c89_c99_scheduler/source/time_triggered_arch/scheduler_raw/sch51.c:150-160 | A turn of the dispatcher is a run that begins a due task, does exactly what that task does, lowers its flag and tests for a one-shot task; the task's account gains one run unless it was replaced, and its flag is one lower than its own steps have left it; nothing happens to a slot that is not due. |
| SchedulerPass.PassIsRun | c89_c99_scheduler/source/time_triggered_arch/scheduler_raw/sch51.c:144-161 | A pass of the dispatcher leaves the table that the cut machine reaches by its turns in order. |
| SchedulerPass.PassBegins | c89_c99_scheduler/source/time_triggered_arch/scheduler_raw/sch51.c:148-152 | In a pass every slot that is due at its turn is begun exactly once, and no other. |
| ReleaseTimes.ReleaseArithmetic | c89_c99_scheduler/source/time_triggered_arch/scheduler_raw/sch51.c:80-94 | After n ticks a task added with delay D and period P was released 0 times if n <= D and otherwise 1 + (n-D-1)/(P+1) times, with its delay counter in closed form. |
| ReleaseTimes.AddIsTimely | c89_c99_scheduler/source/time_triggered_arch/scheduler_raw/sch51.c:131-134 | An addition cut by any interrupts leaves the slot as if it had been made at once at some moment within it, if and only if the delay counter ends no higher than the delay, which is given in terms of the interrupts; otherwise some moment within it still explains the counter, but a release since that moment is missing from the flag. |
| ReleaseTimes.AddErases | c89_c99_scheduler/source/time_triggered_arch/scheduler_raw/sch51.c:131-134 | With at most one interrupt between the last two assignments, no moment explains the slot if and only if there is one, the delay has run down, and the period is longer than the delay; without a delay, if and only if there is one and a period. |
| SchedulerRuns.KeepSafe | c89_c99_scheduler/source/time_triggered_arch/scheduler_raw/sch51.c:150-160 | Every step keeps empty slots clear, except that the flag of a task that deleted itself has wrapped to 255 until the dispatcher deletes the slot a second time. |
| SchedulerRuns.DispatchNeverCallsNull | c89_c99_scheduler/source/time_triggered_arch/scheduler_raw/sch51.c:150-152 | In every run the dispatcher starts only tasks that exist, and every empty slot that it is not about to delete is clear. |
| SchedulerRuns.KeepInv | c89_c99_scheduler/source/time_triggered_arch/scheduler_raw/sch51.c:73-161 | Every step, also within an addition, keeps the account of every slot. |
| SchedulerRuns.ReleasesAreConserved | c89_c99_scheduler/source/time_triggered_arch/scheduler_raw/sch51.c:73-161 | Under every interleaving, for every task in its slot: it was released as the closed form says; its releases are its runs, RunMe and what it lost, exactly as long as that backlog fits in a byte, and otherwise differ by the wraps of RunMe; it lost at most one release to an earlier task; runs and RunMe alone account for its releases if and only if it lost none to that or to its own addition. |
| SchedulerRuns.ErasedIsExact | c89_c99_scheduler/source/time_triggered_arch/scheduler_raw/sch51.c:131-134 | In every run, an addition erases as many releases as the closed form gives for the interrupts between its last two assignments and what was left of the delay: none if and only if those do not use it up. Before the period was set, every interrupt that did not run the delay down raised the flag. |
| SchedulerRuns.LastAssignmentClears | c89_c99_scheduler/source/time_triggered_arch/scheduler_raw/sch51.c:134-134 | The flag that the last assignment clears holds, as a byte, all releases since the addition began, and those since the period was set are booked as erased. |
| SchedulerRuns.AdditionIsExclusive | c89_c99_scheduler/source/time_triggered_arch/scheduler_raw/sch51.c:131-134 | During an addition nothing is enabled but interrupts and the next assignment. |
| SchedulerRuns.ImbalanceStays | c89_c99_scheduler/source/time_triggered_arch/scheduler_raw/sch51.c:73-161 | An account that does not balance never balances again in any run while the task is in its slot. |
| SchedulerRuns.OneShotRunsOnce | c89_c99_scheduler/source/time_triggered_arch/scheduler_raw/sch51.c:150-160 | In every run a task added without a period runs at most once, however late it is dispatched, also after it has left its slot. |
| SchedulerRuns.RefillIsExact | c89_c99_scheduler/source/time_triggered_arch/scheduler_raw/sch51.c:152-159 | The decrement keeps the balance of the slot's task if and only if it is still the task that was run; otherwise it strikes the new task once, a flag at zero wraps to 255, and a one-shot successor is deleted before it has run. |
| SchedulerLosses.AddCut | c89_c99_scheduler/source/time_triggered_arch/scheduler_raw/sch51.c:131-134 | For any numbers of interrupts between the assignments there is a run that has them (and by AdditionIsExclusive an addition has no others); the slot it leaves, and the releases erased, are as computed; if none is erased, some moment within the addition explains the slot. |
| SchedulerLosses.AddUncut | c89_c99_scheduler/source/time_triggered_arch/scheduler_raw/sch51.c:131-134 | Without interrupts the four assignments leave the slot of the addition as one step. |
| SchedulerLosses.FirstReleaseErased | c89_c99_scheduler/source/time_triggered_arch/scheduler_raw/sch51.c:133-134 | A run in which a task without a delay, and with any positive period, is released during its addition and is neither run nor due. |
| SchedulerLosses.RefillReached | c89_c99_scheduler/source/time_triggered_arch/scheduler_raw/sch51.c:152-153 | A run in which a task has freed and refilled its slot when its flag is about to be lowered. |
| SchedulerRuns.SlotIsIsolated | c89_c99_scheduler/source/time_triggered_arch/scheduler_raw/sch51.c:38-161 | In every run a slot is what it would be alone, given only the events that concern it. |
| SchedulerRounds.NoBacklog | c89_c99_scheduler/source/time_triggered_arch/scheduler_raw/sch51.c:144-161 | If a full pass follows every tick, and no task overruns or refills its own slot, no flag ever exceeds one and every pass leaves nothing due. |
| DelayLine.CyclicalBuffer.constructor | go_bench.go:125-129 | All slots hold the zero frame and the pointer is at the first. |
| DelayLine.CyclicalBuffer.PushBack | go_bench.go:46-51 | The frame replaces the one at the pointer, which is returned, and the pointer advances cyclically. |
| DelayLine.CyclicalBuffer.SearchByFrameIdx | go_bench.go:53-66 | The first slot that holds the frame's number is found, or -1 if none does. |
| DelayLine.CyclicalBuffer.Accept | go_bench.go:226-232 | The result is written into the first slot that holds the frame; if none does, nothing changes. |
| DelayLine.Search | go_bench.go:53-66 | The slot found holds the number and no earlier one does; -1 means that none does. |
| DelayLine.SearchIsExact | go_bench.go:53-66 | After any run of pushes and results, the search finds frame g >= 1 exactly if it is among the last `size` pushes, in slot (g-1) % size. |
| DelayLine.DelaysByLatency | go_bench.go:184-189 | Push k returns frame k - size with the image it was pushed with, and the result 1 exactly if one was accepted for it while it was buffered; the first `size` pushes return zero frames. |
| DelayLine.AnnotationSettles | go_bench.go:226-232 | Once a frame has left the buffer no later event changes its annotation. |

## Left out

Channels:

- Error messages, `yield`, `await`, timeouts, merge processes inside the network (the merge strategies are modelled on their own), and processes with more than one upstream.
- Attaching a receiver after the network has started, downstream processes that are destroyed while the upstream lives, and move-only results.
- `operator()` and the type erasure of senders and receivers; a sender handle is a count. Setting a receiver ready and later copying it is covered only as far as the count stays positive.
- ChannelSafety.SingleToken: like all safety and progress results on the network, stated for trees in which every broadcaster feeds some process of buffer size one; in every other tree neither the single token nor the order of messages holds: ChannelBuffers.SingleTokenNeedsThrottle and ChannelOrder.OrderNeedsThrottle prove both directions.
- MergeQueues.UnorderedQueue.PopFront: requires the index that `front` has just set, because the source calls the two together under the process's lock.
- The length reports of the zip and unordered strategies: the zip's is each queue's length and the unordered one's reads like that of round robin.

Futures:

- Futures of futures, move-only and `then_r` paths, coroutines, an explicit `set_exception` on a task, and dropping a future to cancel its task: all futures are kept alive.
- The cascade of broken promises is one step, as the lock of the root is held throughout; one task is not invoked by two threads at once.
- WhenAllAny.WhenAllFiresOnce: empty ranges, variadic forms, and inputs that complete while the holds are still being assigned are left out; that the context may be gone when a late input completes is the step `Drop`.

Serial queue:

- Tasks that throw, and executors that drop or repeat a closure.

Copy on write:

- CopyOnWrite.World.WriteThrough: the reference that `write` returns is used once, immediately; holding it over a copy is not modelled.
- Atomic counts are not interleaved: the operations are those of one thread. Addresses are chosen freely among those not in use.
- The comparisons other than `==` and `<` of two handles, which are defined from those.

Scheduler:

- Scheduler.RawScheduler.AddTask: the index is tested before the slot is read; the source reads one slot past a full table first, which does not affect its result. The function added is not null.
- An interrupt does not come inside a read-modify-write of one field, such as the decrement of the flag. Indices outside the table are not passed to `SCH_Delete_Task`. The timer set-up and the sleep after a pass are left out.
- Scheduler.RawScheduler.DispatchTasks: interrupts come between the calls that a task makes, not within one; SchedulerRuns models those as well.

Delay line:

- DelayLine.DelaysByLatency: contents and capture time of a frame are one `image`; results are accepted for frames numbered from one, as only grabbed frames are sent to recognition; channels and the work pool are left out.

Not modelled at all: the thread pool and timer of stlab (they wait on conditions without a predicate and on a clock),
the hand-written queues and actors (plain locked FIFOs), the operating-system, Qt, asio and C# executors, type
erasure and tuple metaprogramming.
