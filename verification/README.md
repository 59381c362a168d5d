# Coordination protocols of a C++20 coroutine runtime, modelled in Dafny

The repository is an asyncio-like runtime for C++20 coroutines with an HTTP
layer on top. Its hard part is hand-written coordination: coroutines that wait,
are handed a value or a lock, and may be cancelled at any point in between. This
project models those protocols and the sequential algorithms beside them, and
proves what they promise over every run and every input.

How it is built:

- Every protocol is a value-level machine: a state, events, and a total `Step`
  in which an event that cannot happen changes nothing. A step is one
  uninterrupted run of a coroutine between suspension points, or one critical
  section or atomic access where threads interleave. Cancellation is an event
  like any other: the coroutine is scheduled, its `await_resume` is bypassed,
  and the awaiter's destructor or `on_waiter_destroyed` runs. `EveryRunKeeps`
  states the invariant over all runs; the lemmas after it say what follows.
- Beside each machine stands a class with the fields of the source. Its methods
  change them in place, with the source's loops, and their contracts equate the
  new state with the machine's function of the old one.
- The router, the stream reader, the token bucket and the command-line quoting
  are proved against declarative meanings: matching position by position, the
  simple split of a whole stream, whole periods passed, a parser for the
  published quoting rules.

| file | what it models |
|---|---|
| `Seqs.dfy` | facts about erasing from a deque |
| `ChannelCore.dfy`, `Channel.dfy`, `ChannelOrder.dfy`, `ChannelEnd.dfy`, `ChannelObject.dfy` | the loop-local channel: conservation, progress, order, end of stream |
| `SelectCore.dfy`, `Select.dfy`, `SelectRuns.dfy`, `SelectSteps.dfy`, `SelectLoss.dfy`, `SelectEnds.dfy`, `SelectValues.dfy`, `SelectReports.dfy`, `SelectObject.dfy` | `select` over several channels: one winner, nothing left behind, conservation |
| `LockCore.dfy`, `LockRuns.dfy`, `ConditionObject.dfy` | `Lock` and `Condition` |
| `Semaphore.dfy`, `QueueCore.dfy`, `QueueRuns.dfy`, `Pool.dfy` | permits, bounded queue, resource pool |
| `Wakeup.dfy`, `FrameCore.dfy`, `Frames.dfy`, `Timers.dfy` | the event loop: sleep handshake, frame tracker, timer heap |
| `Context.dfy`, `ContextRuns.dfy` | cancellation contexts, shields and their waits |
| `RoutePattern.dfy`, `RouteTrie.dfy`, `RouteBuild.dfy`, `RouteTable.dfy`, `RadixRouter.dfy` | the segment trie router |
| `RouteInclude.dfy`, `WebRouter.dfy` | `router::add` and the all-or-nothing `router::include` |
| `StreamCore.dfy`, `StreamReader.dfy` | the buffered stream reader |
| `RateLimit.dfy`, `CommandLine.dfy` | token bucket; Windows argument quoting |

## What is false of the code, and exactly when

- `Condition`: `on_cancel_requested` tests whether the waiter owns the lock,
  then whether it is queued for it, in two critical sections. Two things can
  come between: a notification from another thread has taken the waiter out
  and not yet handed it in, or another thread's `release()` gives it the lock
  after the first test. In both cases the waiter ends up in the lock's queue
  although it owns the lock or will be queued a second time. The second test
  keeps the invariant exactly when neither is so (`LockRuns.QueueTestExactly`),
  every other step always does (`LockRuns.OtherStepsKeep`), and a whole run is
  in order exactly when no such test in it is raced
  (`LockRuns.InOrderExactly`). `LockRuns.LockLost` and
  `LockRuns.LockLostByRelease` are runs of the two races that end with the lock
  lost for good.
- Channel: an end of stream is final in every continuation in which nothing is
  given back (`ChannelEnd.EndIsFinal`). A value appears behind it exactly when
  a receiver that was handed one is cancelled and there is room to put it back
  (`ChannelEnd.RevivedExactly`, `ChannelEnd.ValueAfterEnd`); the end may even be
  reported over such a value (`ChannelEnd.EndOverValue`).
  `ChannelEnd.EndHonestExactly` says which runs are free of both.
- `select`: a send branch is linked even if its channel is closed. While such a
  select is undecided, unlinking one of its sends may let another one into the
  buffer, so a reported timeout may have sent a value
  (`SelectEnds.LateSendLost`). `SelectEnds.LosesValueExactly` says when, for
  every select in every run. With a winner, with all sends on different
  channels, or with the select's own sends linked while their channels took
  sends, no losing value is lost (`SelectEnds.EndedSelect`). The rotation that
  the comments promise always starts at branch 0, as the index belongs to the
  single call; the model follows the code.
- `read_line`: the cursor is moved back by the content of a line and not by its
  CR LF. Where the bytes were cut between the two it then stands at 1
  (`StreamReader.Reader.ReadLine` says exactly when), and an LF that follows at
  once is overlooked. For every cursor, also one left by an overflow or an
  error, the next line is right exactly when no LF is buffered before it
  (`StreamReader.CursorExactly`, `StreamReader.StaleCursor`).
- `read_until`: a last piece exactly as long as the limit overflows unless the
  end of the stream is already known (`StreamCore.Until`).
- Cancellation contexts: the waking walk schedules the frame of a record it has
  taken without a check that the wait is still on. The frame of a wait that was
  resumed, has reported or is destroyed is scheduled late exactly when the walk
  had its record in hand, unsettled, as the wait ended
  (`ContextRuns.EndsWaitExactly`, `ContextRuns.LateWakeExactly`;
  `ContextRuns.WokenAfterEnd` and `ContextRuns.WokenAfterReport` are runs).
- `router::add`: a route refused by a tree that was made for its method in the
  same call leaves that tree behind, empty, which no lookup can tell from none
  (`WebRouter.WebRouter.Add`).

## Model

| member | source | states |
|---|---|---|
| Channel.EveryRunKeeps | include/coro/channel.hpp:116-240 | In every run of sends, receives, tries, closes, endpoint releases and cancellations: the buffer respects the capacity, nobody is parked who could proceed, every suspended awaiter is queued or scheduled and never both, and accepted values are the received, buffered, handed-over and dropped ones |
| Channel.ReturnKeeps | include/coro/channel.hpp:171-178 | A value taken back from a cancelled receiver is dropped exactly when there is neither a parked receiver nor room |
| ChannelOrder.EveryRunOrdered | include/coro/channel.hpp:129-210 | While nothing is given back, the values handed out, then the buffer, then the parked values are the sends in call order without the refused, closed-out and cancelled ones |
| ChannelEnd.EndedExactly | include/coro/channel.hpp:608-676 | In any reachable state a step keeps the end of stream honest (reported, or about to be, only when closed and drained) exactly when it does not bring a value back behind it |
| ChannelEnd.EndHonestExactly | include/coro/channel.hpp:608-676 | A run, with any values given back in it, is honest about the end all along exactly when none of its steps brings a value back behind a reported or pending end |
| ChannelEnd.NothingAfterEnd | include/coro/channel.hpp:608-618 | After a reported end a step that gives nothing back hands nothing out and leaves the end as it is |
| ChannelEnd.EndIsFinal | include/coro/channel.hpp:608-618 | After a reported end no continuation without a give-back hands a value out |
| ChannelEnd.RevivedExactly | include/coro/channel.hpp:665-676 | After a reported end a step makes a value available again exactly when a cancelled receiver gives one back and there is room |
| ChannelEnd.ValueAfterEnd | include/coro/channel.hpp:665-676 | A run in which a value does come back behind a reported end of stream |
| ChannelEnd.EndOverValue | include/coro/channel.hpp:651-676 | A run in which the end is reported while a value is in the buffer: it came back between a receiver being woken for the end and its resumption |
| ChannelObject.ChannelState.Deliver | include/coro/channel.hpp:129-150 | The first receiver whose gate is open gets the value and leaves the queue; refused nodes stay |
| ChannelObject.ChannelState.TakePendingSender | include/coro/channel.hpp:153-167 | Only the head sender may hand its value over, and only through its gate |
| ChannelObject.ChannelState.PromoteSenders | include/coro/channel.hpp:181-191 | Parked values move into the buffer in order until it is full or the head is refused |
| ChannelObject.ChannelState.ReturnValue | include/coro/channel.hpp:171-178 | A returned value goes to the next receiver, else to the front of the buffer, else nowhere |
| ChannelObject.ChannelState.CloseSendSide | include/coro/channel.hpp:195-210 | Closing wakes every parked sender, and every parked receiver if nothing is buffered |
| ChannelObject.ChannelState.DropSenderNode | include/coro/channel.hpp:220-229 | Unlinking a sender removes that node and lets the next ones in |
| ChannelObject.ChannelState.DropReceiverNode | include/coro/channel.hpp:232-240 | Unlinking a receiver removes that node only |
| ChannelObject.ChannelState.TrySend | include/coro/channel.hpp:286-298 | A try is refused when closed, handed over, buffered, or would wait |
| ChannelObject.ChannelState.Send | include/coro/channel.hpp:542-567 | The ready and the suspending half of a send, with the re-check after linking |
| ChannelObject.ChannelState.SendResume | include/coro/channel.hpp:569-575 | A resumed send succeeded exactly when its value was taken |
| ChannelObject.ChannelState.SendDestroyed | include/coro/channel.hpp:581-584 | A cancelled send unlinks its node |
| ChannelObject.ChannelState.Receive | include/coro/channel.hpp:608-649 | The ready and the suspending half of a receive |
| ChannelObject.ChannelState.ReceiveResume | include/coro/channel.hpp:651-660 | A resumed receive takes its value, or reports the end |
| ChannelObject.ChannelState.ReceiveDestroyed | include/coro/channel.hpp:665-676 | A cancelled receive unlinks itself or gives its value back |
| ChannelObject.ChannelState.TryReceive | include/coro/channel.hpp:403-417 | A buffered value first, then a parked sender's |
| ChannelObject.ChannelState.ReleaseSender | include/coro/channel.hpp:326-332 | The last sender to go closes the send side |
| ChannelObject.ChannelState.ReleaseReceiver | include/coro/channel.hpp:443-449 | The last receiver to go refuses senders and closes |
| ChannelObject.ChannelState.ProbeCanAccept | include/coro/channel.hpp:336-345 | A send could succeed now: not closed, and an open receiver or room; nothing is claimed |
| ChannelObject.ChannelState.ProbeHasMessage | include/coro/channel.hpp:458-465 | A receive could have a result now: a value, an open head sender, or the end |
| ChannelObject.ChannelState.TakeCommitted | include/coro/channel.hpp:469-484 | The committed receive takes a buffered value, a parked one, or the end, or fails |
| SelectEnds.EveryRunKeeps | include/coro/select.hpp:199-308 | In every run of any number of selects over several channels, with plain operations and cancellations between: nodes sit only where they were linked, a gated node has moved its value exactly when its branch won, and ended selects are in no queue |
| SelectEnds.AtMostOneMoves | include/coro/select.hpp:53-75 | At most one branch of a select ever gives or takes a value |
| SelectEnds.EndedSelect | include/coro/select.hpp:235-308 | An ended select has left every queue, and every send but the reported winner has its value back, if a winner is reported, or its sends are on different channels, or its own sends were linked while their channels took sends |
| SelectEnds.WinnerIsWoken | include/coro/select.hpp:70-74 | A waiting select with a winner has been scheduled |
| SelectEnds.DisarmEmpties | include/coro/select.hpp:168-177 | Disarming takes every node of the select out of its queue and changes no decision |
| SelectEnds.DisarmReturns | include/coro/select.hpp:168-177 | Disarming hands back exactly the values that no branch gave away |
| SelectEnds.LosesValueExactly | include/coro/select.hpp:235-308 | In any run, when an undecided waiting select ends by a timeout, a close or a cancellation, one of its sends misses its value exactly when, at the turn of one of its sends, the queue without that send starts with nodes all open and no two of one select, up to another send of this select, and there is room for all of them |
| SelectEnds.DisarmSendsExactly | include/coro/select.hpp:168-177 | The same for disarming from any branch on, whatever else is queued |
| SelectEnds.SendsAtLate | include/coro/select.hpp:159-177 | That happens only on a channel that refuses sends and did already when the lost send was linked, with two sends of the select on it |
| SelectLoss.PromoteSettles | include/coro/channel.hpp:181-191 | Promotion decides an undecided select exactly when it reaches one of its senders: all before it open, each of another select, and room for them |
| SelectLoss.DropSettles | include/coro/channel.hpp:220-229 | Unlinking a sender decides an undecided select exactly when promotion reaches another one of its senders in what is left |
| SelectValues.EveryRunConserves | include/coro/channel.hpp:116-240 | In every run of selects, plain operations and cancellations the values taken from waiting sends and those sent at once are exactly those buffered, handed to waiting receives, or received at once |
| SelectReports.WonReceives | include/coro/select.hpp:273-308 | In every run, a select that waited and reports a receive reports the one value ever handed to that branch |
| SelectEnds.LateSendLost | include/coro/select.hpp:153-177 | A run in which a select on a closed channel reports a timeout although its second value has been sent |
| SelectSteps.NoRollback | include/coro/select.hpp:133-156 | A successful probe makes claim and commit succeed, so giving the claim back is dead code; a failed probe changes nothing |
| SelectSteps.FastExactly | include/coro/select.hpp:246-256 | The fast path takes the first ready branch, with what its one commit got, and touches nothing when none is ready |
| SelectSteps.ArmKeeps | include/coro/select.hpp:159-165 | Arming all branches keeps the invariant and decides nothing |
| SelectCore.HeadTaken | include/coro/channel.hpp:153-167 | Taking the head sender's value settles its select and no other |
| SelectCore.ReceiverGiven | include/coro/channel.hpp:138-148 | Giving a receiver a value settles its select and no other |
| SelectCore.PromoteKeeps | include/coro/channel.hpp:181-191 | Promotion keeps every armed node consistent with its select |
| SelectObject.SelectLoop.Scan | include/coro/select.hpp:246-256 | The fast-path loop is the fast path of the machine |
| SelectObject.SelectLoop.Arm | include/coro/select.hpp:159-165 | The arming loop links one gated node per branch |
| SelectObject.SelectLoop.Disarm | include/coro/select.hpp:235-243 | The guard's loop unlinks every branch and returns the untaken values |
| SelectObject.SelectLoop.Begin | include/coro/select.hpp:246-271 | A select up to its suspension is the machine's start step |
| SelectObject.SelectLoop.Conclude | include/coro/select.hpp:273-308 | A resumed select reports the winner, the timeout, or a closed branch, and disarms |
| LockRuns.EveryRunKeeps | include/coro/sync.hpp:95-212 | Every run of acquire, release, wait, notify, cancel and destroy steps, interleaved at the mutexes, in which no cancelled wait is raced at its test for the lock's queue, keeps the lock, its queue and the scheduled coroutines consistent |
| LockRuns.InOrderExactly | include/coro/sync.hpp:719-742 | A run is consistent all along exactly when no such test in it is raced |
| LockRuns.QueueTestExactly | include/coro/sync.hpp:733-740 | A cancelled wait's test for the lock's queue keeps the invariant exactly when the waiter is neither the owner by then (another thread's release made it that since the test for the owner) nor in the hands of a notification |
| LockRuns.OtherStepsKeep | include/coro/sync.hpp:95-212 | Every other step keeps the invariant in every state |
| LockRuns.Exclusion | include/coro/sync.hpp:95-163 | At most one coroutine is inside, or still leaving for a wait, and it is the owner; unlocked means nobody queued; the owner is inside, scheduled, or about to be |
| LockRuns.WaitEndsOwning | include/coro/sync.hpp:708-742 | A wait ends, normally or by cancellation, only with the caller owning the lock |
| LockRuns.NobodyLost | include/coro/sync.hpp:696-742 | A suspended coroutine owns the lock, is queued, waits for a notification, or is being handed over by a notification or its own cancellation |
| LockRuns.CancelKeepsExactly | include/coro/sync.hpp:719-742 | A cancellation that runs from end to end keeps the invariant exactly when no notification has the wait in hand as it begins |
| LockRuns.LockLost | include/coro/sync.hpp:766-779 | A run in which a notification under way leaves the lock owned by a coroutine that has left it, with nothing on its way |
| LockRuns.LockLostByRelease | include/coro/sync.hpp:733-740 | A run with the same end and no notification under way: a release gives the waiter the lock between the two tests of its cancellation |
| LockRuns.StuckStays | include/coro/sync.hpp:766-779 | That state stays stuck, whatever anybody but the phantom owner does |
| LockCore.Lock.AcquireOrPark | include/coro/sync.hpp:105-124 | The lock is taken, taken again by its owner, or the caller queued |
| LockCore.Lock.UnlockLocked | include/coro/sync.hpp:306-316 | The oldest waiter becomes the owner, or the lock is free |
| LockCore.Lock.ReleaseOne | include/coro/sync.hpp:143-163 | A release lowers the recursion count or passes the lock on; without an owner it is a no-op |
| LockCore.Lock.ReleaseIfOwner | include/coro/sync.hpp:320-336 | A guard releases only what its own coroutine still owns |
| LockCore.Lock.HandOffTo | include/coro/sync.hpp:194-213 | A live waiter gets a free lock at once or joins the queue; a stale one is dropped |
| LockCore.Lock.OnWaiterDestroyed | include/coro/sync.hpp:171-179 | A destroyed waiter leaves the queue, and passes on a lock handed to it |
| LockCore.EraseDistinct | include/coro/sync.hpp:58-66 | Erasing a coroutine removes it everywhere and keeps the others in order |
| ConditionObject.ConditionState.Suspend | include/coro/sync.hpp:696-707 | A waiter queues itself before it gives the lock up |
| ConditionObject.ConditionState.CancelRequested | include/coro/sync.hpp:719-742 | A cancelled waiter leaves the condition and keeps, awaits, or is handed the lock |
| ConditionObject.ConditionState.WaiterDestroyed | include/coro/sync.hpp:743-751 | A destroyed waiter leaves both queues and passes a lock on |
| ConditionObject.ConditionState.Notify | include/coro/sync.hpp:766-779 | Up to n waiters are handed to the lock, oldest first, stale ones dropped |
| ConditionObject.NotifyIsTwoSteps | include/coro/sync.hpp:766-779 | An uninterrupted notification is the machine's two steps |
| ConditionObject.NotifyKeepsOrder | include/coro/sync.hpp:766-779 | Under a held lock the notified waiters join its queue in their order, each once, the others stay |
| Semaphore.EveryRunKeeps | include/coro/sync.hpp:376-476 | In every interleaving of cross-thread releases with cancellations split at their critical sections, permits free, granted, in transit and held add up to the initial count, and a free permit excludes a waiter |
| Semaphore.PermitsReturn | include/coro/sync.hpp:432-476 | At rest the free permits are the initial ones minus those held |
| Semaphore.SemaphoreObject.TryTake | include/coro/sync.hpp:388-395 | A free permit is taken without waiting, and only then |
| Semaphore.SemaphoreObject.Suspend | include/coro/sync.hpp:397-411 | A permit that came back meanwhile is taken, else the waiter is queued |
| Semaphore.SemaphoreObject.Release | include/coro/sync.hpp:432-452 | A release names the oldest waiter or adds to the count |
| Semaphore.SemaphoreObject.RemoveWaiter | include/coro/sync.hpp:460-477 | A dying waiter is unlinked, or reports that it was named |
| QueueRuns.EveryRunKeeps | include/coro/queue.hpp:53-209 | Before shutdown, in every run with cancellations: items plus reserved putters fit the maximum, reserved getters have their items, parked putters mean a full queue, parked getters mean every item is reserved, delivered and stored items are the pushed ones in order, a cancelled put pushes nothing, and join waiters exist only while work is unfinished |
| QueueRuns.NamedGetterServed | include/coro/queue.hpp:74-92 | A named getter that runs finds an item and takes the oldest |
| QueueCore.QueueObject.WakePutters | include/coro/queue.hpp:292-301 | Putters are named oldest first while there is an unreserved slot |
| QueueCore.QueueObject.WakeGetters | include/coro/queue.hpp:303-312 | Getters are named oldest first while there is an unreserved item |
| QueueCore.QueueObject.Get | include/coro/queue.hpp:59-71 | A get takes an item at once only past nobody, else it parks |
| QueueCore.QueueObject.GetResume | include/coro/queue.hpp:74-92 | A named getter takes the front item and frees a slot |
| QueueCore.QueueObject.GetDestroyed | include/coro/queue.hpp:95-98 | A cancelled getter passes its reservation on |
| QueueCore.QueueObject.Put | include/coro/queue.hpp:116-126 | A put is accepted at once when not full, else it parks |
| QueueCore.QueueObject.PutResume | include/coro/queue.hpp:128-141 | A named putter stores its item |
| QueueCore.QueueObject.PutDestroyed | include/coro/queue.hpp:143-146 | A cancelled putter frees its slot for the next one |
| QueueCore.QueueObject.TaskDone | include/coro/queue.hpp:198-212 | The last task done wakes every join waiter; one too many is an error |
| Pool.EveryRunKeeps | include/coro/pool.hpp:54-145 | In every run with barging acquires, failing factories and cancellations: resources in use and idle never exceed the maximum, and while open, if somebody is parked, the free slots are at most the waiters woken and not yet resumed |
| Pool.NoReleaseLost | include/coro/pool.hpp:69-103 | While somebody is parked and a slot is free, some waiter is on its way to it |
| Pool.PoolState.Wake | include/coro/pool.hpp:69-80 | The oldest parked waiter is scheduled |
| Pool.PoolState.Attempt | include/coro/pool.hpp:312-340 | One turn of an acquire: an invalid lease, an idle resource, a slot for the factory, or parking |
| Pool.PoolState.AwaiterDestroyed | include/coro/pool.hpp:92-100 | A cancelled waiter is unlinked and passes a wake-up it had on |
| Pool.PoolState.EndLease | include/coro/pool.hpp:225-241 | A returned resource is kept if open and under the idle limit; its slot wakes a waiter |
| Pool.PoolState.DropSlot | include/coro/pool.hpp:136-145 | A reservation or a discarded lease gives its slot back and wakes a waiter |
| Pool.PoolState.CloseAll | include/coro/pool.hpp:301-308 | Closing drops idle resources and wakes everybody |
| Wakeup.EveryRunKeeps | include/coro/event_loop.hpp:661-683 | The sleep and wake handshake of the loop thread with any number of producers, stoppers and dispatchers, one atomic access per step |
| Wakeup.NoLostWakeUp | include/coro/event_loop.hpp:839-872 | A loop that blocks while there is work or a stop request has its wake flag set, or somebody between its push and its wake |
| Wakeup.QuietLoopWakes | include/coro/event_source.hpp:104-118 | With every producer done, a blocked loop with work leaves the wait without a timeout |
| Wakeup.DispatchNotSkipped | include/coro/event_loop.hpp:791-804 | When the loop finds the function flag clear and its batch empty, no function is queued |
| Frames.EveryRunKeeps | include/coro/event_loop.hpp:213-320 | In every run a live frame is queued at most once, exactly when its scheduled flag is set; abandoned frames are destroyed once and never resumed; the active count is the number of live frames |
| Frames.OldEntryDropped | include/coro/event_loop.hpp:882-915 | An entry of an older generation never resumes the frame now at that address |
| Frames.AbandonedDestroyed | include/coro/event_loop.hpp:882-915 | The loop destroys exactly the abandoned frames it reaches, and resumes the others |
| Frames.QueuedFrameReached | include/coro/event_loop.hpp:307-320 | A live frame marked as scheduled has an entry that the loop will reach |
| Frames.NotificationExact | include/coro/event_loop.hpp:285-296 | A notification enqueues a frame only while that very frame is in that very wait |
| Frames.StaleForever | include/coro/event_loop.hpp:270-304 | Once a wait is over, no late notification for it ever has an effect |
| FrameCore.FrameTracker.AddFrame | include/coro/event_loop.hpp:228-232 | A new frame gets a fresh generation |
| FrameCore.FrameTracker.RemoveFrame | include/coro/event_loop.hpp:232 | A destroyed frame is forgotten and no other |
| FrameCore.FrameTracker.TryReserve | include/coro/event_loop.hpp:236-242 | A live frame is queued unless it is queued already |
| FrameCore.FrameTracker.TryReserveEntry | include/coro/event_loop.hpp:254-260 | A timer entry is queued only for the generation it was made for |
| FrameCore.FrameTracker.TryReserveIfCurrent | include/coro/event_loop.hpp:282-292 | A notification is queued only for the wait it was made for |
| FrameCore.FrameTracker.ReleaseEntry | include/coro/event_loop.hpp:263-269 | The flag is cleared before a resume, if the generation still matches |
| FrameCore.FrameTracker.Begin | include/coro/event_loop.hpp:271-279 | A wait gets an epoch of its own |
| FrameCore.FrameTracker.End | include/coro/event_loop.hpp:294-300 | Only the current wait is ended |
| FrameCore.FrameTracker.Abandon | include/coro/event_loop.hpp:308-314 | Only a queued frame is left to the loop to destroy |
| FrameCore.ReadyQueue.Push | include/coro/event_loop.hpp:104-124 | The ready queue is first in, first out |
| FrameCore.ReadyQueue.Pop | include/coro/event_loop.hpp:104-124 | The front entry leaves, and storage is reset once empty |
| FrameCore.ReadyQueue.Swap | include/coro/event_loop.hpp:116-119 | Two queues exchange their contents |
| Timers.TimerHeap.Drain | include/coro/event_loop.hpp:160-178 | Exactly the due live entries that are the first to settle their outcome are handed out, in deadline order; of the rest only dead ones are lost |
| Timers.TimerHeap.CompactIfStale | include/coro/event_loop.hpp:184-204 | Compaction removes only dead entries, and only on every 64th call on a heap of more than 128 |
| Timers.TimerHeap.DropDeadTop | include/coro/event_loop.hpp:162-163 | Dead entries on top go, due or not |
| Timers.OneWinner | include/coro/event_loop.hpp:169-174 | Of the due live entries that compete for a pending outcome exactly one is handed out |
| ContextRuns.EveryRunKeeps | include/coro/context.hpp:55-129 | The source's list, its shields, the walk that wakes, the waits and their timers stay consistent in every interleaving |
| ContextRuns.OneSide | include/coro/context.hpp:256-272 | A wait is scheduled through its outcome at most once, by the side that settled it |
| ContextRuns.OutcomeStays | include/coro/context.hpp:256-272 | A settled outcome and a reported result never change |
| ContextRuns.FirstReason | include/coro/context.hpp:160-176 | A wait that timed out first reports the timeout, whatever is cancelled later; a reported cancellation did happen |
| ContextRuns.NobodyLeft | include/coro/context.hpp:143-158 | Once the walk is over and no wait is between linking and its second look, the list is empty and every parked wait is scheduled |
| ContextRuns.RequestHeld | include/coro/context.hpp:73-102 | A cancellation requested under a shield takes effect when the last shield goes |
| ContextRuns.LateWakeExactly | include/coro/context.hpp:256-272 | The walk schedules the frame of a retired, reported or destroyed wait in some continuation exactly when it has taken its record and not found it settled |
| ContextRuns.EndsWaitExactly | include/coro/context.hpp:184-197 | So resuming a wait, or destroying its frame, leaves a late schedule behind exactly when the walk has its record in hand then; unlinking does not call it back |
| ContextRuns.WokenAfterEnd | include/coro/context.hpp:256-272 | A run in which the walk schedules a frame whose wait has been destroyed meanwhile |
| ContextRuns.WokenAfterReport | include/coro/context.hpp:160-176 | A run in which the walk schedules a live frame whose wait has reported its result already |
| ContextRuns.DropExactly | include/coro/context.hpp:120-128 | Unlinking by frame takes out exactly that wait's record |
| Context.CancellationState.ClaimCancelShielded | include/coro/context.hpp:73-83 | Under a shield a request is only noted; otherwise the first one wins |
| Context.CancellationState.ExitShield | include/coro/context.hpp:92-102 | The last shield out carries out a noted request |
| Context.CancellationState.TakeOne | include/coro/context.hpp:105-112 | One record leaves the list |
| Context.CancellationState.Drop | include/coro/context.hpp:120-128 | The first record of a frame leaves the list |
| RoutePattern.ParseTexts | router/radix_router.h:376-397 | Every well-formed pattern is read back from its text |
| RoutePattern.ParseExactly | router/radix_router.h:376-397 | What the syntax check accepts is exactly the text of a well-formed pattern, with or without a last slash |
| RoutePattern.FitsExactly | router/radix_router.h:417-457 | Matching segment by segment is matching position by position |
| RoutePattern.SplitConcat | router/radix_router.h:403-410 | Cutting at a slash cuts the list of pieces |
| RouteTrie.SearchExact | router/radix_router.h:417-457 | Below any node the search hits exactly when a registered remainder matches; the hit is the preferred one with exactly its captures |
| RouteTrie.StepDown | router/radix_router.h:255-271 | Every longer pattern passes through the child of its prefix |
| RouteBuild.LookupExact | router/radix_router.h:184-196 | A hit exists exactly when a registered pattern matches; it is the one preferred segment by segment as static, parameter, wildcard, with its value and its captures |
| RouteBuild.AgreesByRoutes | router/radix_router.h:332-374 | A pattern is refused for conflict exactly when it conflicts with a registered one |
| RouteBuild.GraftKeeps | router/radix_router.h:137-163 | Creating the nodes of a pattern keeps the trie and every value |
| RouteBuild.WalkRoutes | router/radix_router.h:206-228 | Walking by text finds a registered pattern and its value, or neither |
| RouteBuild.InsertSorted | router/radix_router.h:307-321 | Inserting a child at its place keeps the list sorted |
| RouteBuild.InsertIsUpdate | router/radix_router.h:307-321 | The sorted child list is a map: inserting changes one answer |
| RouteBuild.MarkRoutes | router/radix_router.h:164-176 | Registering changes the table at one pattern |
| RouteTable.TrimAdmissible | router/radix_router.h:127-130 | The text kept in the log reads as the same pattern |
| RouteTable.RegisterKeeps | router/radix_router.h:126-177 | A registration keeps patterns free of conflict and the log in step with them |
| RouteTable.BatchExactly | router/radix_router.h:126-177 | A batch goes through exactly when its texts are legal and conflict neither with the table nor with each other |
| RouteTable.BatchRoutes | router/radix_router.h:126-177 | A batch leaves its own values at its patterns and the old ones elsewhere |
| RadixRouter.ParamsView.EmplaceBack | router/radix_router.h:71-85 | A capture is appended, across the move from eight slots to a vector |
| RadixRouter.ParamsView.PopBack | router/radix_router.h:87-94 | The last capture is taken back |
| RadixRouter.ParamsView.Size | router/radix_router.h:104 | The number of captures, inline or spilled |
| RadixRouter.ParamsView.At | router/radix_router.h:109 | The capture at a place, inline or spilled |
| RadixRouter.ParamsView.Clear | router/radix_router.h:96-100 | No capture is left |
| RadixRouter.LowerBoundChild | router/radix_router.h:288-292 | Halving finds the place of a text among sorted children |
| RadixRouter.FindChild | router/radix_router.h:294-305 | Scanning and halving give the same child |
| RadixRouter.ValidateSyntax | router/radix_router.h:377-397 | The loop accepts exactly what the parser reads |
| RadixRouter.Router.Validate | router/radix_router.h:332-374 | Accepted exactly when the syntax is legal and no registered pattern conflicts |
| RadixRouter.Router.FindOrCreateChild | router/radix_router.h:308-321 | The child of that text, created at its place when missing |
| RadixRouter.Router.Build | router/radix_router.h:137-163 | The second pass creates exactly the missing nodes |
| RadixRouter.Router.Insert | router/radix_router.h:126-177 | A refused pattern changes nothing; an accepted one changes the table at that pattern only; the log grows by new patterns |
| RadixRouter.Router.FindExact | router/radix_router.h:199-229 | The value registered under that text, if any |
| RadixRouter.Router.Dfs | router/radix_router.h:417-457 | The search with captures pushed and popped leaves exactly the hit's captures, or none |
| RadixRouter.Router.Lookup | router/radix_router.h:184-196 | Lookup on any reachable router: complete, preferred, and with exactly the captures |
| RadixRouter.Router.Clear | router/radix_router.h:240-245 | An empty router |
| RouteInclude.PrefixedReads | Web/src/router.h:112-120 | Under a legal prefix a route reads as the prefix pattern followed by its own |
| RouteInclude.IncludeExactly | Web/src/router.h:128-147 | The routes of a child tree go through exactly when none, prefixed, conflicts with the parent's |
| RouteInclude.IncludeMerges | Web/src/router.h:136-149 | An accepted include adds every child route under the prefix with its middlewares wrapped, and changes no other route |
| WebRouter.SamePatternsSameAnswer | router/radix_router.h:332-374 | Whether a pattern is accepted depends on the set of registered patterns only |
| WebRouter.Replay | Web/src/router.h:129-135 | The log of a sound tree replays into a scratch router without a refusal |
| WebRouter.PlanFor | Web/src/router.h:136-146 | The scratch check of one method succeeds exactly when the registrations would |
| WebRouter.WebRouter.Add | Web/src/router.h:71-80 | A route is added exactly when the router is open, its text is clean and its tree accepts it; a refusal changes nothing, but one by a tree made for the method in this call leaves that tree behind, empty |
| WebRouter.WebRouter.Commit | Web/src/router.h:148-149 | Once the checks have passed no registration can fail |
| WebRouter.WebRouter.Include | Web/src/router.h:105-150 | All routes or none: it goes through exactly when the router is open, not its own child, the prefix legal and no route clashes |
| StreamCore.SplitRejoins | include/coro/stream.hpp:162-177 | Joined by the delimiter, the pieces are the stream, up to a delimiter at its very end |
| StreamCore.SplitClean | include/coro/stream.hpp:162-177 | No piece holds the delimiter |
| StreamCore.FindSkips | include/coro/stream.hpp:264-280 | Starting a search later gives the same answer exactly when nothing was skipped |
| StreamCore.LineExactly | include/coro/stream.hpp:180-203 | A line search that starts at any index gives the right line exactly when it passes over no LF |
| StreamReader.Reader.Refill | include/coro/stream.hpp:210-241 | One more read loses nothing; the buffer overflows exactly when it holds the limit and the end is not known |
| StreamReader.Reader.HandOut | include/coro/stream.hpp:243-262 | Bytes leave the front in order and the cursors follow |
| StreamReader.Reader.Scan | include/coro/stream.hpp:268-280 | The resumed scan finds the first delimiter in the buffer |
| StreamReader.Reader.ReadUntil | include/coro/stream.hpp:142-177 | For every way the source splits its bytes, the outcome is that of cutting the remaining stream at the first delimiter, with the exact overflow condition; bytes handed out, swallowed, buffered and unread stay the stream |
| StreamReader.Reader.ReadLine | include/coro/stream.hpp:180-203 | The outcome is that of a search from where the cursor stands; the call leaves the cursor at 1 exactly when the line ended in CR LF and the search had got to just before that LF, because the source stopped there or the cursor stood there |
| StreamReader.CursorExactly | include/coro/stream.hpp:180-203 | Wherever the cursor stands, the next line is right exactly when no LF is buffered before it |
| StreamReader.StaleCursor | include/coro/stream.hpp:180-203 | Two reads in which the second line should be empty and is not |
| StreamReader.Reader.ReadSome | include/coro/stream.hpp:107-122 | Between one and n bytes in order, or the end |
| StreamReader.Reader.ReadExactly | include/coro/stream.hpp:125-137 | Exactly n bytes, or how many came before the end or an error |
| StreamReader.Reader.ReadAll | include/coro/stream.hpp:142-177 | Reading piece after piece gives the simple split of the whole stream, if every piece with its delimiter fits the limit |
| RateLimit.ScaleTokens | include/coro/rate_limit.hpp:46-52 | A token count is refused exactly when its units do not fit 64 bits |
| RateLimit.RateState.SettleAndPeek | include/coro/rate_limit.hpp:72-104 | Whole periods passed since the last settlement are credited up to the capacity |
| RateLimit.RateState.TryConsume | include/coro/rate_limit.hpp:107-118 | Tokens are taken only if there are enough |
| RateLimit.RateState.WaitFor | include/coro/rate_limit.hpp:120-145 | The advised wait, and the settled bucket |
| RateLimit.SettleTwice | include/coro/rate_limit.hpp:72-104 | Settling on the way changes nothing |
| RateLimit.ReadyExactly | include/coro/rate_limit.hpp:120-145 | The bucket holds what is needed exactly from a known instant on |
| RateLimit.WaitIsEnough | include/coro/rate_limit.hpp:120-145 | The advised wait is long enough, and exact when both clock reads fall in one period |
| RateLimit.Budget | include/coro/rate_limit.hpp:107-118 | What is left plus what was granted never exceeds what was there plus the refills of the periods passed |
| RateLimit.GrantedByTime | include/coro/rate_limit.hpp:72-118 | From a full bucket, grants never exceed the capacity plus one refill per whole period |
| RateLimit.GrantedInWindow | include/coro/rate_limit.hpp:72-118 | The same over any window, whatever came before |
| RateLimit.SecondAttemptSucceeds | include/coro/rate_limit.hpp:149-164 | Alone on a bucket, the attempt after the advised sleep succeeds |
| CommandLine.QuoteArg | include/coro/process.hpp:74-96 | The loop produces the quoted form |
| CommandLine.JoinArgs | include/coro/process.hpp:279-284 | The quoted arguments joined by blanks |
| CommandLine.CommandLineReadsBack | include/coro/process.hpp:74-96 | Parsing the joined line by Microsoft's published rules returns the argument list, for all strings, empty ones and backslash runs before quotes included |
| CommandLine.QuotedReadsBack | include/coro/process.hpp:82-95 | A quoted argument is read back |
| CommandLine.PlainReadsBack | include/coro/process.hpp:76-81 | An argument that needs no quotes is read back |

## Left out

- LockRuns.EveryRunKeeps: for runs in which no cancelled wait is raced at its test for the lock's queue, because exactly those races break the invariant (`LockRuns.QueueTestExactly`); `release()` is called for a lock the caller owns, on any loop, and the lock is not held recursively across `Condition::wait`.
- LockRuns.Exclusion: in states that meet the invariant, so not after such a race; the same holds of WaitEndsOwning and NobodyLost.
- LockRuns.WaitEndsOwning: as for Exclusion.
- LockRuns.NobodyLost: as for Exclusion; in the machine `notify(n)` is a sequence of single notifications (`ConditionObject.NotifyIsTwoSteps`), and `notify_all` the one that ends with the queue.
- SelectEnds.EndedSelect: not for a cancelled select; one that has already won a receive does not return its value. What a select loses otherwise is in `SelectEnds.LosesValueExactly`.
- SelectEnds.EveryRunKeeps: branches are numbered among the channel branches, without the positions of timers and defaults.
- SelectValues.EveryRunConserves: a value handed to a receive that is cancelled before it reports counts as handed over; a value given back counts as sent again, and one given back without room as not sent. A value given back is a parameter of the event, not tied to an earlier handover.
- SelectObject.SelectLoop.Scan: the branches of a select share the loop's ledger of claims, so the calls into each channel are made on the channel's value and not on a `ChannelState` object; aliasing of endpoints is not captured.
- SelectObject.SelectLoop.Arm: links into channel values, as for Scan.
- SelectObject.SelectLoop.Disarm: unlinks from channel values, as for Scan.
- SelectObject.SelectLoop.Begin: acts on channel values, as for Scan.
- SelectObject.SelectLoop.Conclude: acts on channel values, as for Scan.
- ChannelOrder.EveryRunOrdered: for runs in which no receiver is cancelled after a value was handed to it.
- QueueRuns.EveryRunKeeps: before `shutdown`; what the upgrade from graceful to immediate shutdown does is not modelled.
- Pool.EveryRunKeeps: the empty credentials that `wake_one` skips do not arise, since an awaiter unlinks its own.
- Frames.EveryRunKeeps: the loop's check that a handle is not done before it is resumed is not modelled; an I/O completion is a schedule step.
- Timers.TimerHeap.Drain: entries of equal deadline leave in an order of the model's choosing, of which the contract says nothing; another thread's settlement of an outcome between two pops is modelled in `Context.dfy`, as a `Fire` step among the others.
- ContextRuns.EveryRunKeeps: the records of several loops are in one list, as in the source, but each wait's own steps are those of one thread; a wake-up without a cause is the `Wake` step.
- ContextRuns.LateWakeExactly: says that the walk schedules the frame; what the frame is suspended in by then, and what being resumed does to that, is not part of this model.
- RateLimit.WaitIsEnough: the product of periods and period length stays within 64 bits; the source rounds to a clamped value beyond, and uses `long double` there, which is not modelled.
- RadixRouter.Router.Lookup: the caller passes a container for the captures; without one the source uses a scratch container whose contents nobody sees.
- WebRouter.WebRouter.Include: the trees of a web router are the tables that `RadixRouter.Router` is proved to be, not router objects inside a map.
- StreamReader.Reader.ReadLine: correct only under the condition of `StreamReader.CursorExactly`; destination buffers are returned values, and a null destination is not modelled.
- StreamReader.Reader.ReadUntil: after a call that ended in an error or an overflow the next delimiter must be the same, or the cursor must be 0; concurrent reads are outside, as in the source.
- CommandLine.CommandLineReadsBack: the arguments after the program's name; the special rule for the first one, NUL characters and the conversion to UTF-16 are not modelled.
- Weak memory orders, allocation failure, throwing moves and real clocks: steps are sequentially consistent and time is a parameter.
- Native I/O back ends, sockets, files, pipes, DNS, signals, TLS, HTTP parsing and static files: system calls and third-party code.
- `gather`, `TaskGroup`, `Future`, `Event`, `Scheduler`: guarded countdowns and polls, which would only add easy members.
- Request dispatch of the web router (`route_core`, middleware chains, freezing beyond the flag): thin over lookup.
