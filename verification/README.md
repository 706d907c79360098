# Verification of Sickle's event loop core

Sickle is an epoll-based event loop. Most of it wraps the operating system; two parts of it are algorithms in their own
right, and this project models and proves both, and what is built on them.

**The readiness queue** (`src/poll.rs`) is an intrusive, lock-free queue with many producers and one consumer, driven by
three marker nodes. Every node carries one packed word that all writers update by compare-exchange, a hand-kept reference
count, and three slots for its token.

- `ReadinessWord` has the packed word and the record of its fields, and proves that the two are the same thing.
- `MarkerQueue` has the pointers of the queue, and what each atomic access to them does to the FIFO they stand for.
- `Readiness` is the step machine: any number of threads that hold `Registration` and `SetReadiness` handles, and the one
  thread inside `Poll`; one step is one load, store, read-modify-write or compare-exchange. The gap between a producer's
  head swap and its link store is a state like any other. `ReadinessInvariant` states the inductive invariant,
  `ReadinessFrames`, `ReadinessThreads`, `ReadinessPoller` and `ReadinessSafety` prove it for every step and every run,
  and `ReadinessTheorems`, `ReadinessDelivery` and `ReadinessJobs` say what follows from it. `ReadinessBatch` follows the
  jobs of `enqueue_job` into the events of whole runs. `ReadinessCalls` says of each call that, once it has returned, it
  has taken effect with the arguments it was given, and `ReadinessTurns` says what the poller makes of a node, also over
  whole runs. `ReadinessLeak` is a run in which the destructor of the queue leaves a node behind.
- `PollPass` is the queue as one thread sees it while no producer interferes: a class whose methods are the source's, with
  their loops, proved against `Pass`, a function of the list and the nodes. `ReadinessAlone` proves that a pass of the
  machine, step by step, is a `Pass` too when no producer interferes, so that the two are models of the same thing.
- `PollLock` is the lock that `poll1` builds from an atomic word, a mutex and a condition variable, as a step machine.

**The timer** (`src/timer.rs`) is a hashed wheel: a slab of entries threaded into one doubly linked list per slot, with a
cursor that can stop inside a list, and a thread that wakes the event loop in time.

- `Ticks` has the rounding of durations to ticks, with its saturation; `Arithmetic` and `Bits` have the division and the
  bit masking it and the wheel need.
- `WheelModel` has the wheel as a value, with a sequence of keys per slot beside the links, and one lemma for each thing the
  code does to it; `Wheel` has the class, whose methods refine a map from token to tick and state.
- `TimerWakeup` is the wakeup thread, the owner of the timer and the tick they share, as a step machine.

A state machine's theorems are about every state that some run reaches (`Reachable`), or about every step from such a state.
Auxiliary fields record what the source leaves implicit: the order of the head swaps, who owns a node's queued bit, which
handles are being dropped. No step decides by them what to do; the rules of ownership that Rust enforces on handles (nobody
drops what another thread borrows) are conditions on when a call may start.

## What was found

Some properties one would expect are false of the code. Each is stated with the exact condition under which it holds.

- `ReadinessState::set` does not mask its argument: reading a field back gives what was written if and only if the value
  fits the field (`ReadinessWord.SetThenGet`); 16 written to the readiness field becomes interest
  (`ReadinessWord.UnmaskedSetSpills`).
- `ReadinessState::new` does not mask its arguments either: the word holds just its arguments if and only if both are at
  most 15, which is what the assertions of lines 65 and 66 ask (`ReadinessWord.NewKeepsItsArguments`). `Ready::all()` is
  0x6F, so a registration with it fails line 65, or without the assertion sets two option bits
  (`ReadinessWord.ReadyAllDoesNotFit`).
- Dropping the queue does not always give every reference back. The destructor stops at a marker with a null link, and
  leaves nodes behind if and only if a thread has swapped the head and not yet stored the link out of that marker
  (`ReadinessTheorems.DestructorAbandons`); this can happen (`ReadinessLeak.DestructorLeaks`).
- `set_timeout_at` moves a deadline to a later tick only if its tick is past, not if it is the current one. An entry is
  handed out at exactly its tick if it was inserted for a later tick than the current one, and exactly one lap late if it
  was inserted for the current one (`late` in the contracts of `Wheel.Timer.SetTimeoutAt` and `Wheel.Timer.PollTo`); this
  happens to a delay that rounds to tick 0 on a new timer (`Wheel.OneLapLate`).
- A call of `poll` that returns nothing moves the cursor past its target even if the clock stands still, so that repeated
  calls hand out entries ahead of the clock (`Wheel.AheadOfTheClock`). An entry inserted for a later tick than the current
  one comes out ahead of the target if and only if the cursor was already past the target at the call
  (`Wheel.Timer.PollTo`).
- These two combine. A late entry keeps its slot's cached tick in the past, so every drain that leaves it schedules a tick
  no later than the cursor's, and no later than the entry's unless the cursor is at an entry in a slot whose cached tick is
  current (`Wheel.LateIsScheduledPast`). Except there, each wakeup moves the cursor on by a tick and brings on the next
  while the clock stands still, and a lap can pass in this way: what is due in the late entry's slot comes out with it,
  ahead of the clock (`Wheel.RunsAhead`).
- Registering a timer schedules a tick no later than everything already set if and only if each entry the cursor has still
  to visit in its list is cached by some slot, and, where the cursor is at a cached tick, no late entry is behind it
  (`Wheel.CoversExactly`, `Wheel.Timer.Register`). Without late entries that is so whenever the last poll did not return
  an entry; after one that did, it can fail (`Wheel.MidWalkNotCovered`).
- Tick 0 is also the value that stops the wakeup thread. While the owner of the timer rests, the thread is on its way to
  return if and only if tick 0 was ever scheduled, for an entry or by `next_tick` (`TimerWakeup.StopsOnTickZero`), and
  entries set afterwards are never signalled (`TimerWakeup.TickZeroKillsThread`).
- `Empty` from `dequeue_node` does not mean that nothing was pushed, only that nothing can be reached through links that
  have been stored (`ReadinessTheorems.EmptyMeansUnreachable`).

## Model

| member | source | states |
|---|---|---|
| `ReadinessWord.NextTokenPos` | src/poll.rs:131-161 | The slot for the next token is in range, and neither the one read nor the one written last |
| `ReadinessWord.EffectiveIsCommon` | src/poll.rs:89-91 | Effective readiness is, bit by bit, what readiness and interest have in common |
| `ReadinessWord.WithReadinessMeans` | src/poll.rs:799-807 | What `set_readiness` installs is exactly the word with the readiness given, queued if that meets the interest, and every other field as before |
| `ReadinessWord.WithRegistrationMeans` | src/poll.rs:870-879 | What `update` installs is exactly the word with the interest, options and position given, empty ones included, queued if the interest meets the readiness, and every other field as before |
| `ReadinessWord.AfterPollMeans` | src/poll.rs:466-492 | What the poller installs: the interest is gone exactly if the node is edge-triggered, oneshot and signalled; the node stays queued exactly if it is level-triggered and signalled; the read position is the write position; every other field is as before |
| `ReadinessWord.FlaggedDroppedMeans` | src/poll.rs:206-210 | The dropped and queued flags are set, and every other field is as before |
| `ReadinessWord.EdgeQueuesAgain` | src/poll.rs:475-479 | After a poll of an edge-triggered word without oneshot, readiness that meets its interest queues it again |
| `ReadinessWord.UnpackOfPack` | src/poll.rs:15-26 | Every record survives packing into the word, and uses no bit above the dropped bit |
| `ReadinessWord.PackOfUnpack` | src/poll.rs:58-130 | Every word that uses no bit above the dropped bit survives unpacking |
| `ReadinessWord.WordCasIsRecordCas` | src/poll.rs:164-205 | Two packed records are equal words if and only if they are equal records, so a compare-exchange on the word is one on the record |
| `ReadinessWord.WordsStayPacked` | src/poll.rs:62-210 | The word of a new node is a packed record, and each of the code's updates takes a packed record to the packed updated record, so all words compared are packed records |
| `ReadinessWord.SetThenGet` | src/poll.rs:71-76 | For each field: what is read is what was set if and only if the value fits the mask, and then no other bit changed |
| `ReadinessWord.SetOfGet` | src/poll.rs:71-76 | Setting a field to what it holds changes nothing |
| `ReadinessWord.UnmaskedSetSpills` | src/poll.rs:74-76 | A value too wide for the readiness field lands in the interest field |
| `ReadinessWord.NewKeepsItsArguments` | src/poll.rs:62-70 | The word of a new node is the record with the given interest and options if both fit their masks, and otherwise one of them cannot be read back |
| `ReadinessWord.ReadyAllDoesNotFit` | src/event_imp.rs:21-25 | `Ready::all()` does not fit: interest keeps four of its bits, and the others become options |
| `ReadinessWord.SetReadinessField` | src/poll.rs:92-94 | Changes the readiness of the record, and nothing else |
| `ReadinessWord.SetInterestField` | src/poll.rs:95-97 | Changes the interest of the record, and nothing else |
| `ReadinessWord.SetPollOptField` | src/poll.rs:98-100 | Changes the options of the record, and nothing else |
| `ReadinessWord.SetWritePosField` | src/poll.rs:124-126 | Changes the write position of the record, and nothing else |
| `ReadinessWord.SetReadPosField` | src/poll.rs:127-130 | Changes the read position of the record, and nothing else |
| `ReadinessWord.SetQueuedFlag` | src/poll.rs:110-113 | Sets the queued flag of the record, and nothing else |
| `ReadinessWord.ClearQueuedFlag` | src/poll.rs:114-117 | Clears the queued flag of the record, and nothing else |
| `ReadinessWord.SetDroppedFlag` | src/poll.rs:206-210 | The bits set by `flag_as_dropped` are the record's dropped and queued flags, and nothing else |
| `ReadinessWord.WithReadinessOnBits` | src/poll.rs:799-807 | The word `set_readiness` tries to install is the record with the new readiness, queued if that leaves effective readiness |
| `ReadinessWord.WithRegistrationOnBits` | src/poll.rs:870-879 | The word `update` tries to install is the record with the new write position, interest and options, queued if effective |
| `ReadinessWord.AfterPollOnBits` | src/poll.rs:466-492 | The word the poller tries to install: dequeued and disarmed as trigger mode and readiness demand, read position moved up |
| `ReadinessWord.LoopsOnBits` | src/poll.rs:466-492 | The same three field-by-field statements of the packed words, read by the getters |
| `MarkerQueue.SwapHeadInv` | src/poll.rs:341-347 | A head swap keeps the invariant of the pointers, and appends its node to the FIFO |
| `MarkerQueue.StoreLinkInv` | src/poll.rs:348-350 | The store that completes a push keeps the invariant, whatever has been pushed since the head swap |
| `MarkerQueue.AdvanceInv` | src/poll.rs:389-407 | Moving the tail over a node takes the oldest element off the FIFO, over a marker nothing |
| `MarkerQueue.ReplaceMarkerInv` | src/poll.rs:362-369 | Exchanging the only marker for another leaves the FIFO empty |
| `MarkerQueue.ResetLinkInv` | src/poll.rs:328 | Clearing the link of a node outside the queue keeps the invariant |
| `ReadinessSafety.RunSafe` | src/poll.rs:213-557 | Every state of every run satisfies the invariant of the queue, the nodes, the threads, the poller and the wakeup |
| `ReadinessThreads.ThreadStepSafe` | src/poll.rs:786-920 | Every access a thread makes in `set_readiness`, `update`, a drop or a push keeps the invariant |
| `ReadinessPoller.StepPollerSafe` | src/poll.rs:354-557 | Every access the poller makes keeps the invariant |
| `ReadinessTheorems.QueueRefinesFifo` | src/poll.rs:326-410 | Every step of the machine is a step of a FIFO: a push by a head swap, a pop by `Data`, or nothing, `Inconsistent` and `Empty` included |
| `ReadinessTheorems.PoppedInPushOrder` | src/poll.rs:326-410 | What was pushed, in the order of the head swaps, is what was popped followed by what is in the list |
| `ReadinessTheorems.DataIsNoMarker` | src/poll.rs:378-410 | `dequeue_node` never hands out a marker |
| `ReadinessTheorems.DataIsPopped` | src/poll.rs:396-407 | The poller is handed a node exactly by the step that pops it, and it is that node |
| `ReadinessTheorems.EmptyMeansUnreachable` | src/poll.rs:382-388 | At a marker with a null link there is something behind it if and only if a producer still owes that very link |
| `ReadinessTheorems.NoUseAfterFree` | src/poll.rs:287-299 | No node that a thread, the list or the poller can reach is freed, the node before theirs whose link they have still to store included; the count is the handles plus the queue's outstanding reference |
| `ReadinessTheorems.QueueRefReleasedOnce` | src/poll.rs:287-299 | The queue's reference is given back at its three sites and nowhere else, at every visit, and never twice |
| `ReadinessTheorems.QueueRefGivenBack` | src/poll.rs:1050-1056 | After the registration is dropped and all threads are done with the node, its reference is back, or the node is still to be polled |
| `ReadinessTheorems.DrainedGivesBack` | src/poll.rs:469-472 | If moreover nothing is left in the queue, drained or closed, the reference is back, if there ever was one |
| `ReadinessTheorems.DestructorAbandons` | src/poll.rs:540-557 | The destructor leaves a node behind if and only if some thread is between its head swap and the store of the link out of the marker; that thread is named, and any such thread means a node left |
| `ReadinessLeak.DestructorLeaks` | src/poll.rs:540-557 | There is a run in which it does |
| `ReadinessTheorems.NoLostWakeup` | src/poll.rs:507-537 | While the poller is blocked and the head is not the sleep marker, the pipe holds a byte or a thread will write one; and there is a node to poll |
| `ReadinessTheorems.SleepsOnEmptyQueue` | src/poll.rs:507-537 | While the poller is blocked and the head is the sleep marker, the queue is empty |
| `ReadinessTheorems.QueuedBitIsOneSlot` | src/poll.rs:108-117 | Until the node's queue reference is given back, or it is dropped without ever having had a queue, its queued bit is set exactly while it is in the list, on its way there with a thread, or in the poller's hands, and it is in one such place, once |
| `ReadinessTheorems.PollerChangesNode` | src/poll.rs:461-503 | A step of the poller releases a node, acts on its word, delivers it, or only moves it between its places |
| `ReadinessDelivery.WordChanges` | src/poll.rs:795-885 | The word, write position and token of a node change only by the four compare-exchanges and the flagging of a drop, and to what these say |
| `ReadinessDelivery.TokenCommitted` | src/poll.rs:483-500 | The poller commits to the token of the last `update` before the state it acts on, at the load or compare-exchange that shows it that state |
| `ReadinessDelivery.TokenDelivered` | src/poll.rs:499-503 | The event in the batch carries that token, whatever `update` does meanwhile |
| `ReadinessDelivery.WriterAvoidsReader` | src/poll.rs:861-869 | The slot `update` fills is neither current, nor one the poller has still to read |
| `ReadinessDelivery.WritePositionUnderLock` | src/poll.rs:851-886 | Positions stay in range, and the write position moves only by the holder of the update lock |
| `ReadinessDelivery.LevelStaysQueued` | src/poll.rs:473-482 | A level-triggered node with effective readiness is queued until it is dropped |
| `ReadinessDelivery.NoLostReadiness` | src/poll.rs:795-815 | A compare-exchange that leaves effective readiness leaves the node queued, and stays so until a producer takes it back or the poller acts on that word and is bound to deliver it |
| `ReadinessDelivery.SignalReachesPoller` | src/poll.rs:634-667 | While the poller is blocked, a node signalled and not yet acted on means a byte in the pipe, a thread about to write one, or a thread about to push the node |
| `ReadinessDelivery.QueuedClearedByPoller` | src/poll.rs:473-492 | The queued bit is cleared only by the poller, acting on that very word; edge with oneshot clears the interest, which only `update` restores |
| `ReadinessDelivery.RequeuedOncePerPass` | src/poll.rs:449-505 | Whatever the producers do, a node put back in a pass is not handed out again in that pass, and the batch never outgrows its capacity |
| `ReadinessDelivery.AssertionsHold` | src/poll.rs:110-161 | The assertions of lines 111, 115, 140, 148, 156, 159, 208, 232, 336, 348, 367, 371, 425, 468, 523-527, 533, 553, 867, 872 and 883 hold whenever they are evaluated |
| `ReadinessCalls.SetMoves` | src/poll.rs:795-815 | One access of `set_readiness`: it gives up on a dropped node, tries again with the word found, or takes effect, and then is on its way to push if it has set the queued bit |
| `ReadinessCalls.SetTakesEffect` | src/poll.rs:795-818 | In every run a `set_readiness` that has returned has installed the readiness it was given, at one of its own steps, unless it found the node dropped |
| `ReadinessCalls.UpdateMoves` | src/poll.rs:820-893 | One access of `update`: each leads on to the next until the compare-exchange takes effect, and only a taken update lock ends the call early |
| `ReadinessCalls.UpdateTakesEffect` | src/poll.rs:820-893 | In every run an `update` that has returned has installed its interest, options and token, empty ones included, and bound the node, unless it found another `update` at work |
| `ReadinessCalls.RegistrationIsDropped` | src/poll.rs:1050-1056 | Dropping a `Registration` flags its node as dropped, whatever the word is, and gives back its handle and reference with its last step |
| `ReadinessCalls.SetReadinessIsDropped` | src/poll.rs:916-920 | Dropping a `SetReadiness` gives back its handle and reference |
| `ReadinessCalls.WakesExactlySleepers` | src/poll.rs:326-352 | A push goes on to wake the poller exactly if it has replaced the sleep marker |
| `ReadinessCalls.PipeIsCleaned` | src/poll.rs:634-667 | The pipe is filled exactly by a wakeup and emptied exactly by the cleanup, which comes before the pass of a poller that was notified |
| `ReadinessCalls.CreatedAsAsked` | src/poll.rs:955-1003 | A new node has the token, interest and options it was asked for, or none, nothing signalled, two handles, and a reference for each and for its queue |
| `ReadinessCalls.CloneIsLive` | src/poll.rs:904-913 | A clone is a live handle with a reference of its own |
| `ReadinessCalls.LiveHandleStays` | src/poll.rs:287-299 | A handle that nobody drops stays, and keeps its node from being freed |
| `ReadinessCalls.DestructorStops` | src/poll.rs:540-557 | The destructor's loop ends exactly at a marker with a null link, and goes on after `Inconsistent` |
| `ReadinessTurns.TurnDecides` | src/poll.rs:466-503 | By the word it has seen the poller looks again if it must, or reports exactly the common bits of readiness and interest, puts back exactly a level-triggered node that is signalled, and leaves the polled word |
| `ReadinessTurns.EventsAreTrue` | src/poll.rs:461-503 | In every run each event was signalled, bit for bit and undropped, by its node while the poller had it in hand |
| `ReadinessTurns.InterestStep` | src/poll.rs:473-492 | But for `update`, options stay and interest stays, except that a poll clears it exactly if the node is edge-triggered, oneshot and signalled |
| `ReadinessTurns.DeregisteredStaysQuiet` | src/poll.rs:1013-1022 | After an `update` that asks for nothing no `set_readiness` queues the node before the next `update` |
| `ReadinessTurns.EdgeStaysArmed` | src/poll.rs:475-479 | After a poll an edge-triggered node without oneshot is off the queue, and the next readiness that meets its interest queues it again |
| `ReadinessJobs.RunJobs` | src/net/event_loop.rs:300-324 | In every state of every run each job is being made by one thread, or waits with its job stored, or is gone from its node, which is then queued only once dropped; and the lists of jobs agree with the queue |
| `ReadinessJobs.JobsDeliveredInOrder` | src/net/event_loop.rs:300-324 | Jobs are delivered in the order of their head swaps; on a live poller those not delivered are in hand or in the list, so a drained queue has delivered all |
| `ReadinessJobs.JobStoredBeforeVisible` | src/poll.rs:887-891 | While a job is being enqueued its node is out of the poller's reach, and from the head swap on the node holds the job |
| `ReadinessJobs.ReturnedMeansPushed` | src/net/event_loop.rs:313-323 | A call of `enqueue_job` that has returned has pushed its job, and a thread makes one job at a time |
| `ReadinessJobs.JobStages` | src/poll.rs:499-503 | A job goes from made to waiting by its head swap, and to delivered by an event that carries it, its token and readability; no stage is skipped or repeated |
| `ReadinessJobs.ListsGrowByStages` | src/net/event_loop.rs:300-324 | Nothing else adds to the jobs pushed or delivered |
| `ReadinessJobs.JobsNotForgotten` | src/poll.rs:287-299 | On a live poller the node of a job under way is not freed |
| `ReadinessBatch.EventsOfJobs` | src/poll.rs:499-503 | A step adds at most one event to a batch, and for the node of a job only the step that hands the job over does, an event with that job, its token and readability |
| `ReadinessBatch.HandedForGood` | src/poll.rs:466-503 | After that step the node holds no job, stays so, makes no event again, and is found by the poller only as dropped |
| `ReadinessBatch.EachJobInOneEvent` | src/net/event_loop.rs:300-324 | In every run the events carry the jobs of `enqueue_job` in the order of their head swaps, no two of them the same |
| `ReadinessBatch.DrainedDeliversAll` | src/net/event_loop.rs:300-324 | When all calls have pushed and a live poller has drained the queue, the events carry each enqueued job exactly once |
| `PollPass.PassDeliversReady` | src/poll.rs:449-505 | A pass delivers the first ready nodes of the queue, each once and in order, and fewer than all only if the batch is full |
| `PollPass.PassPutsBackLevel` | src/poll.rs:475-498 | Exactly the level-triggered ready nodes it has visited go back into the queue, in their order |
| `PollPass.ReadinessQueue.constructor` | src/poll.rs:430-447 | A new queue is empty and open |
| `PollPass.ReadinessQueue.EnqueueNode` | src/poll.rs:326-352 | Appends the node, and asks for a wakeup exactly if the sleep marker was the head; on a closed queue it releases the node instead |
| `PollPass.ReadinessQueue.ClearSleepMarker` | src/poll.rs:354-376 | Turns the queue that is only the sleep marker into the one that is only the end marker, and leaves others alone |
| `PollPass.ReadinessQueue.DequeueNode` | src/poll.rs:378-410 | Hands out the oldest node, unless there is none or it is the one to stop at, and takes nothing else off |
| `PollPass.ReadinessQueue.Visit` | src/poll.rs:461-503 | One turn of the loop releases a dropped node, or updates it, puts it back if it stays queued, and makes its event |
| `PollPass.ReadinessQueue.Poll` | src/poll.rs:449-505 | The loop ends, and its effect on queue, nodes and batch is that of `Pass` on the nodes queued at the start |
| `PollPass.ReadinessQueue.PrepareForSleep` | src/poll.rs:507-537 | The poller may block if and only if the queue is empty, and then the sleep marker is in place |
| `PollPass.ReadinessQueue.Close` | src/poll.rs:540-557 | The destructor closes the queue and empties it |
| `PollPass.EachReleasedOnce` | src/poll.rs:540-557 | It gives back the reference of each node that was queued once, and touches no other |
| `ReadinessAlone.MachinePassIsPass` | src/poll.rs:449-505 | From every reachable state in which all links are stored, a pass of the machine with nobody interfering ends, and leaves the batch, the nodes and the list that `Pass` says |
| `ReadinessAlone.DequeueAlone` | src/poll.rs:378-410 | By itself the machine's `dequeue_node` hands out the oldest node, unless there is none or it is the one to stop at, end marker and sleep marker included |
| `ReadinessAlone.TurnAlone` | src/poll.rs:461-503 | By itself the machine's turn for a node does to it, the queue and the batch what the sequential turn does |
| `ReadinessAlone.PrepareAlone` | src/poll.rs:507-537 | By itself a poll of the machine that may block sleeps exactly if the queue is empty, which is then the sleep marker |
| `ReadinessAlone.PushAlone` | src/poll.rs:326-352 | By itself a push of the machine is the sequential push |
| `PollLock.StepKeepsInv` | src/poll.rs:672-744 | Every access of every thread inside `poll1` keeps the invariant of the lock |
| `PollLock.MutualExclusion` | src/poll.rs:738-742 | At most one thread is in `poll2`, and the lock bit is set while one is |
| `PollLock.LockBitMeansHeld` | src/poll.rs:684-699 | The lock bit is set only while some thread has the lock |
| `PollLock.WordCounts` | src/poll.rs:672-744 | The word is the lock bit plus twice the number of counted waiters, who are exactly the threads between counting and uncounting themselves |
| `PollLock.NoLostNotification` | src/poll.rs:719-742 | While the lock is free and a thread is blocked, a notification is in flight, or another counted waiter is awake and will look at the word |
| `PollLock.NoDeadlock` | src/poll.rs:672-744 | Unless a thread is in `poll2`, some thread inside `poll1` can move |
| `PollLock.GivesUpInTime` | src/poll.rs:700-705 | A call that gives up has its time up and has seen the lock taken, takes back its own count alone, and does not lose a notification that woke it |
| `PollLock.CallMoves` | src/poll.rs:672-744 | What one step does to a call: nothing but the end of the poll, or having given up, ends it |
| `PollLock.CallPollsOnceOrGivesUp` | src/poll.rs:672-744 | In every run a call that returns has been in `poll2` exactly once; or never, and then its time had run out and it had seen the lock taken |
| `PollLock.FreeLockIsTaken` | src/poll.rs:683-699 | While lock and mutex are free a thread on its way in is in `poll2` within six steps of its own, even if its time is up, exactly if it has not already seen the lock taken for the last time |
| `PollLock.ReturnedLeavesNothing` | src/poll.rs:700-744 | A call that has returned has no count, no lock and no mutex |
| `Ticks.MillisIsCeiling` | src/lib.rs:52-55 | `millis` is the number of milliseconds rounded up, and saturates |
| `Ticks.RoundsToNearest` | src/timer.rs:138-141 | A duration has the nearest tick, halves up, and beyond the range the last one |
| `Ticks.TickMonotone` | src/timer.rs:138-145 | A later duration never has an earlier tick, saturated or not, so a poll at or after a deadline targets at least the deadline's tick |
| `Ticks.WholeTicks` | src/timer.rs:138-141 | Away from saturation, adding whole ticks to a duration adds them to its tick |
| `Ticks.ParkReachesTick` | src/timer.rs:332-336 | A park that lasts its full time or longer ends at the tick it was for or later |
| `Ticks.NeverATickEarly` | src/timer.rs:138-145 | A clock that has reached a deadline's tick is less than one tick short of the deadline, despite two roundings |
| `Bits.NextPowerOfTwo` | src/timer.rs:151-152 | The least power of two that is at least the argument |
| `Bits.MaskIsRemainder` | src/timer.rs:311-313 | Masking with one less than a power of two takes the remainder |
| `WheelModel.InsertedOk` | src/timer.rs:185-197 | Inserting for the current tick or a later one keeps the wheel sound: lists, cursor, cached ticks and timing |
| `WheelModel.RemovedOk` | src/timer.rs:262-277 | Removing any entry, the cursor's included, keeps the wheel sound, and caches that were sound for whole slots stay so |
| `WheelModel.ResetOk` | src/timer.rs:237-240 | Forgetting the cached tick at the head of a slot keeps the wheel sound |
| `WheelModel.SteppedOverOk` | src/timer.rs:245-249 | Stepping over an entry of a later lap keeps the wheel sound |
| `WheelModel.AdvancedOk` | src/timer.rs:229-235 | Going on to the next tick keeps the wheel sound, and makes every cached tick sound for its whole slot |
| `WheelModel.DueExactly` | src/timer.rs:241-244 | An entry found due is due at exactly this tick, or was inserted too late for its own and is late by exactly one lap |
| `Wheel.Timer.constructor` | src/timer.rs:149-168 | An empty wheel at tick 0 whose number of slots is the least power of two that is large enough |
| `Wheel.Timer.SlotFor` | src/timer.rs:311-313 | The slot is the remainder of the tick by the number of slots |
| `Wheel.Timer.SetTimeoutAt` | src/timer.rs:176-183 | Adds the entry for its tick, or for the next tick if that is past; the entry is a late one exactly if its tick is the current one |
| `Wheel.Timer.Insert` | src/timer.rs:185-204 | Adds one entry under a fresh token and changes no other, and lowers the shared tick to the entry's |
| `Wheel.Timer.CancelTimeout` | src/timer.rs:206-216 | Takes out the entry at the token if its tick is the timeout's, and otherwise changes nothing at all |
| `Wheel.Timer.Unlink` | src/timer.rs:262-277 | Closes the list over the entry, and moves the cursor on if it was there |
| `Wheel.Timer.PollTo` | src/timer.rs:223-260 | Ends; hands out an entry at exactly its tick, or exactly a lap later if it was inserted for the tick the wheel was then at; after nothing, no entry the cursor has met is left, the cursor is past the target, and the next wakeup is scheduled; an entry not inserted late comes out ahead of the target exactly if the cursor was past it; and the cached ticks of the slots it came to are found anew |
| `Wheel.LapFindsAnew` | src/timer.rs:230-240 | Once a poll that returned nothing has moved the cursor by more than a lap, no cached tick is a leftover, whatever was cancelled before |
| `Wheel.ExactNextTick` | src/timer.rs:301-309 | Then the least cached tick is exactly the earliest tick set, or none |
| `Wheel.Timer.Rearm` | src/timer.rs:253-258 | Clears readiness and schedules the next tick, if the timer is registered |
| `Wheel.Timer.ScheduleReadiness` | src/timer.rs:279-299 | Lowers the shared tick to the given one, never raises it |
| `Wheel.Timer.Register` | src/timer.rs:360-384 | Succeeds once, and schedules a tick no later than every entry already set exactly if they are foreseen by cached ticks and cursor; if the last poll did not return an entry, no later than the cursor comes to any of them |
| `Wheel.CoversExactly` | src/timer.rs:301-309 | For every sound wheel, between any two polls: `next_tick` is no later than every entry if and only if what the cursor has still to visit is cached and no late entry is behind a cursor at a cached tick |
| `Wheel.Timer.NextTick` | src/timer.rs:301-309 | When cached ticks are sound for whole slots, it is no later than the cursor comes to any entry, late or not, and no later than the cursor if there is a late one |
| `Wheel.MinTick` | src/timer.rs:308 | The least cached tick |
| `Wheel.Drain` | src/net/event_loop.rs:128-132 | If every entry was inserted ahead of the cursor, the loop takes out exactly the entries due at the last target, each once and in the order of their ticks; that target is the clock's, or the last tick taken out, or the wheel's to begin with |
| `Wheel.AheadOfTheClock` | src/timer.rs:223-236 | Three polls at tick 0 hand out an entry set for tick 2 |
| `Wheel.OneLapLate` | src/timer.rs:176-183 | An entry with a delay of 0 on a new timer of four slots is missed at tick 0 and handed out at tick 4 |
| `Wheel.LateIsScheduledPast` | src/timer.rs:301-309 | A late entry keeps the least cached tick at or before its own, so a drain schedules a tick in the past, unless the cursor is at a cached tick |
| `Wheel.RunsAhead` | src/timer.rs:223-260 | With the clock at tick 1, five drains, each brought on by the tick the one before scheduled, hand out an entry set for tick 5 |
| `Wheel.MidWalkNotCovered` | src/timer.rs:301-309 | After a poll that returned one of two entries due, `next_tick` does not find the other |
| `TimerWakeup.StepKeepsInv` | src/timer.rs:322-355 | Every access of the thread and of the owner keeps the invariant of the shared tick |
| `TimerWakeup.WakeupNeverLost` | src/timer.rs:253-258 | Outside a drain every entry, one set before `register` or inserted late included, has a wakeup scheduled no later than the wheel hands it out, or the thread is firing, or readiness is set, also if a drain cleared it meanwhile |
| `TimerWakeup.NeverOversleeps` | src/timer.rs:279-299 | The thread is never parked past the shared tick without a permit or an owner about to give one |
| `TimerWakeup.DueEntryFires` | src/timer.rs:322-355 | While the owner rests and tick 0 was never scheduled, once an entry is due the thread sets readiness within six of its own steps |
| `TimerWakeup.NeverEarly` | src/timer.rs:332-352 | The thread consumes a wakeup only when its tick has come, and only one that was scheduled, or the last tick there is |
| `TimerWakeup.ReadyOnlyInTime` | src/timer.rs:332-352 | In every run readiness is set only by such a wakeup, with nothing in between |
| `TimerWakeup.ThreadStaysAlive` | src/timer.rs:329-331 | The thread returns only if the timer is dropped or tick 0 was scheduled |
| `TimerWakeup.StopsOnTickZero` | src/timer.rs:119-125 | While the owner rests, the thread is about to return if and only if tick 0 was ever scheduled |
| `TimerWakeup.DropStopsThread` | src/timer.rs:119-125 | Once the timer is dropped, the thread returns within six of its own steps, and every step keeps the value that stops it |
| `TimerWakeup.TickZeroIsForever` | src/timer.rs:280-299 | Once the shared tick is 0 no entry raises it, and no wakeup begins |
| `TimerWakeup.TickZeroKillsThread` | src/timer.rs:176-183 | There is a run in which an overdue entry is never signalled because an earlier one was set for tick 0 |
| `TimerWakeup.ScheduleAlone` | src/timer.rs:279-299 | The loop of `schedule_readiness`, step by step and alone, lowers the shared tick as `Wheel.Timer` does, and unparks the thread exactly if it did |
| `TimerWakeup.EndDrainAlone` | src/timer.rs:253-258 | So does the end of a drain, with readiness cleared |

## Left out

- Foreign calls: epoll, file descriptors, sockets and pipes. `select` is a step that may end at any time, with a pending
  byte, with other events or with an error; the awakener's pipe is a flag.
- Events of file descriptors, and the `Selector`'s map of them: a batch holds what the readiness queue pushes, and its
  length at the start of a pass is arbitrary.
- Weak memory: accesses interleave one at a time, in an order all threads agree on.
- Several polls: every node belongs to the one queue, so `update` never fails with another `Poll` instance.
- The bound `MAX_REFCOUNT` on the number of handles, and the abort beyond it.
- Readiness bits beyond the four of the word, which `Ready::all()` and `UnixReady` can set: the machine's words and
  calls have four. `ReadinessWord.SetThenGet` and `ReadinessWord.NewKeepsItsArguments` say what the others do.
- The assertions of src/poll.rs:826 and 849, which compare the sizes of two types and a pointer with itself.
- Job replacement: `update` on a node that the poller is working on writes the job without synchronisation. The theorems
  on jobs are about the single `update` of `enqueue_job`, whose job is a closure of its own (`ReadinessBatch.Allocates`).
- The rest of `EventLoop::io_process`: walking the batch and calling the jobs in it.
- What a delivered job does, and when its closure drops the two handles it owns; a delivered node's handles may be dropped
  at any time.
- ReadinessTheorems.QueueRefGivenBack: says where the reference can still be, not that the poller gets there; that needs a
  fair schedule and a poller that keeps polling.
- PollLock.NoLostNotification: says that somebody will act, not when; there is no fairness in the model, or in the lock.
- PollPass.ReadinessQueue.Poll: what producers do meanwhile is the machine's part (`ReadinessDelivery.RequeuedOncePerPass`).
- Wheel.Timer.PollTo: ticks near the end of the 64-bit range, where the cursor would overflow, are excluded.
- Wheel.Timer.SetTimeoutAt: a tick length of zero milliseconds, by which the source would divide, and a cursor at the end of
  the 64-bit range are excluded.
- Wheel.Timer.CancelTimeout: tells entries apart by token and tick, as the code does, so a stale timeout whose token was
  given again for the same tick cancels the new entry.
- Wheel.Timer.ScheduleReadiness: the shared tick changes only here in the class; its race with the thread is in `TimerWakeup`.
- Wheel.Drain: the callbacks run by the drain do not set or cancel timeouts; in `TimerWakeup` they may.
- The capacity of the slab, and which free key it hands out: any free key may come.
- TimerWakeup.WakeupNeverLost: the tick scheduled by `register` and at the end of a drain is no later than the wheel hands
  out any entry left. The wheel promises that for every drain (`Wheel.Timer.PollTo`), and for `register` if the last poll
  did not return an entry (`Wheel.Timer.Register`).
- TimerWakeup.DueEntryFires: ends with readiness set; from there to the event in the batch it is
  `ReadinessDelivery.NoLostReadiness`, of another machine.
- Time in the wakeup thread: the clock moves by any amount at any time, a park may end early, and ends by itself only once
  the clock has reached its tick, as `Ticks.ParkReachesTick` shows.
- Connections, acceptors, servers, the pool of event loops, builders, `Debug` and thread-local plumbing.
