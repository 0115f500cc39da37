# NGPT: a verified model of the thread library

NGPT is an M:N user-level POSIX threads library: many threads run on a few
native threads, and control leaves a thread only when it yields or waits. This
project models its scheduler and thread lifecycle, its synchronisation objects,
its linked data structures and its arithmetic and buffer loops in Dafny, and
proves what holds over every run, every input or every interleaving.
`dafny verify dfyconfig.toml` checks everything.

The form of the model follows the form of the code. Code that changes things in
place is a class or an array method whose `ensures` ties the new state to a
function of the old one; what the code promises is then proved about that
function. Protocols between threads are state machines whose steps go from one
point where control or a lock can change hands to the next, and their theorems
quantify over all finite runs.

| file | what it models |
|---|---|
| `Sched`, `SchedQueue`, `SchedOps`, `SchedRuns` | threads and queues in M:1 mode (one native thread): the operations and whole runs |
| `SchedJoins` | the record a joiner leaves with its target, and the runs in which it stays good |
| `SchedCycle`, `SchedHunt`, `SchedLost`, `SchedEnds` | the order of the scheduler's loop, and the runs in that order that lose such a record, or cannot |
| `SchedLoop` | the scheduler's two loops over queues that change under them |
| `RunQueue` | the scheduler's queues of `pqueue.h`: one list per priority, bitmap, total and back pointers |
| `WakeRace` | waking a waiting thread in M:N mode, as interleaved steps |
| `Mutex`, `RwLock`, `Cond` | private mutexes, the two-mutex read-write lock, condition variables |
| `PriorityList`, `PriorityRing` | the delta-encoded priority ring and the sorted list it stands for |
| `Ring`, `EventRing`, `MsgPort`, `Cleanup` | the plain ring, event rings, message ports, cleanup handlers |
| `Timers` | the event manager: events, cancellation requests, the choice of the next timer, late descriptors |
| `Numerals`, `IntText`, `Format`, `Printer` | the formatter: digits, integer text, the grammar of formats, the state machine that prints |
| `Iov`, `WriteLoop` | iovec advancing and the partial-write loops |
| `Clock`, `Load` | time conversion, the load average |
| `Basics`, `Arith` | shared definitions, arithmetic facts |

## Where the code differs from what one would expect

Each of these is proved, and where the expected property sometimes holds, so is
the exact condition; only for the joiner recorded by `pth_join` the condition
given is sufficient and not exact.

- `pth_ring_prepend` leaves a ring only when the ring was empty
  (`Ring.Ring.Prepend`).
- `pth_pqueue_Qinsert` with priority 0 agrees with `pth_pqueue_insert` exactly
  when the queue is empty or its tail has priority 0.
- `pth_wait` is documented (ngpt.pod:964) to return the number of occurred
  events; it returns the size of the ring, which is that number exactly when
  all have occurred (`EventRing.CountAfterWait`).
- `pth_msgport_destroy` ends exactly when no pending message names the dying
  port as its reply port (`MsgPort.DestroyEndsIff`).
- A message is itself the ring node. Putting it while it is on the port's own
  ring leaves links that are no ring any more (`Ring.Ring.Append`): put twice on
  an empty port it is delivered once, and one message stays pending for ever
  (`MsgPort.PutTwice`). Put on another port, the first port's ring describes
  nothing any more, or the second port's ring from that message on; the latter
  exactly when the message was the first one and both rings now have the same
  number of messages (`Ring.AppendWhileOn`).
- The thread that `pth_join` records for a later wake-up exists when it is read
  over every run in which no recorded joiner is woken while its target lives
  (`SchedJoins.FaithfulRunsKeepPartition`). After a round that wakes one such
  joiner early the loop can go on, without the process ending first, to the read
  of a joiner that this round has woken early and that is gone
  (`SchedLost.EarlyWakeCanLose`); a round that wakes none early cannot lead there
  by definition. There is such a run from the very start, with three threads
  (`SchedLost.SomeRunIsLost`). When the threads concerned are themselves being
  cancelled the early wake-up can be harmless
  (`SchedEnds.CanceledJoinersNeverLose`, with an instance in
  `SchedEnds.EarlyWakeNeedNotLose`; `SchedEnds.CanceledMainNeverLoses`).
- The test of `pth_join` for the caller being the only thread never fires: it
  comes after the target was found to be another thread
  (`SchedOps.JoinDeadlock`).
- A last reader's `pth_rwlock_release` fails with EPERM unless that reader owns
  the inner mutex, that is, was the first to come; when the first reader leaves
  before the others the lock stays read-locked for good unless that thread
  comes back (`RwLock.AbandonedForGood`, with the run in
  `RwLock.FirstReaderLeaves`).
- A second `pth_cond_notify` pending when the last waiter leaves stays behind
  and wakes whoever waits next (`Cond.LeftoverSignal`, `Cond.SignalLeftBehind`).
  A waiter woken by a signal sleeps again exactly when others have consumed all
  signals before it returns (`Cond.TaggedWaiterSleepsAgainIff`), which a waiter
  that leaves for its own reasons can bring about (`Cond.SignalTakenByLeaver`).
- A direct waker in M:N mode rechecks `waited_native` for being set, not for
  naming the queue it locked. On one native's wait queue every interleaving is
  safe; with two, a thread can be in the hands of two wakers.
- `fmtint` keeps 19 digits: the printed text reads back as the value exactly
  when the magnitude is below base^19, whatever the flags. In base 10 only `%u`
  gets there; 10^19 prints as 0 (`IntText.LargeUnsignedIsLost`). With the zero flag the field width is
  missed exactly when a precision exceeds the digits and the width exceeds sign
  and precision.
- `pth_time_to_timeval` can return exactly 1000000 microseconds, for
  frequencies that are not a whole number of ticks per microsecond.
- An interrupted wait in the write loops returns -1 even after bytes were taken
  (`WriteLoop.CutShortAfterBytes`).
- `pth_writev_iov_advance` keeps its copy in one static array. A second writer
  that makes its copy while the first waits leaves the first one's rest as it
  was exactly when the vectors agree where they overlap (`Iov.CopyBeside`);
  otherwise the first goes on with the second's bytes
  (`Iov.SecondWriterTakesOver`).

## Model

| member | source | states |
|---|---|---|
| Sched.OnePlace | pth_sched.c:287-320 | in a consistent state a thread is in exactly one of the five queues or is current if it exists, and in none otherwise |
| Sched.UpdateKeeps | pth_lib.c:651-664 | adding one thread, or giving one a new control block and queue, keeps queues, back pointers, states, `waited_native` and the thread count in agreement for all threads |
| Sched.FreeKeeps | pth_tcb.c:346-351 | freeing one thread keeps that agreement, with the count one lower |
| Sched.Wake | pth_sched.c:990-999 | a waker moves exactly one waiting thread to ready, clears `waited_native`, and keeps the partition |
| SchedOps.Spawn | pth_lib.c:651-664 | a new thread is counted once and is in the new or the suspended queue; nobody else changes |
| SchedOps.Leave | pth_lib.c:1069-1126 | ends the process, or leaves control to the scheduler with the value and state EXIT; the partition holds |
| SchedOps.LeaveEndsProcessIff | pth_lib.c:1076-1106 | the process ends exactly when the main thread returns without waiting or all other threads have ended |
| SchedOps.ActiveAreAlive | pth_p.h.in:184 | thread count minus length of the dead queue is the number of threads that have not ended |
| SchedOps.Yield | pth_lib.c:1201-1247 | yielding changes no control block, keeps the partition, and gives up control unless a thread yields to itself |
| SchedOps.YieldFavors | pth_lib.c:1217-1232 | a ready thread that is yielded to ends up first or second among the ready threads of its priority |
| SchedQueue.FavorIsNear | pth_lib.c:1225-1231 | a favoured thread is first or second of its priority, and all others keep their order |
| SchedOps.Suspend | pth_lib.c:1250-1316 | only a live thread in the queue its state names is suspended, keeping its state and losing `waited_native`; otherwise nothing changes |
| SchedOps.Resume | pth_lib.c:1320-1353 | succeeds exactly for suspended threads and returns them to the queue their state names |
| SchedOps.SuspendThenResume | pth_lib.c:1250-1353 | suspending then resuming restores every control block except that `waited_native` stays null |
| SchedOps.CancelNew | pth_cancel.c:117-151 | a cancelled new thread is freed, or kept dead with the cancelled value when it may be joined |
| SchedOps.Cancel | pth_cancel.c:67-153 | keeps the partition, refuses only missing, freed or suspended new threads, and changes nobody's control block but the target's; or ends the process with its caller |
| SchedOps.CancelEffect | pth_cancel.c:82-151 | case by case what cancelling a live thread does: the process ends exactly when the main or the last thread cancels itself at once; else the request is noted, the caller ends, or a new thread is freed or kept dead, and nobody else changes |
| SchedOps.JoinFinish | pth_lib.c:1183-1197 | succeeds only for a thread in the dead queue, hands out its value and frees it; a refusal frees nobody |
| SchedOps.JoinWait | pth_lib.c:1167-1177 | a blocking join changes exactly the caller's state and the target's joiner and count |
| SchedOps.Join | pth_lib.c:1134-1178 | keeps the partition, blocks exactly when it gives up control, and a refusal changes nothing |
| SchedOps.JoinDeadlock | pth_lib.c:1146-1166 | EDEADLK exactly for oneself |
| SchedOps.JoinInvalid | pth_lib.c:1146-1162 | EINVAL exactly for another existing thread that is not joinable |
| SchedOps.JoinSucceeds | pth_lib.c:1167-1197 | an accepted join of a living thread blocks and records the caller; of a dead one it succeeds exactly when at most one waits for it, and then hands out the value and frees it |
| SchedOps.Bury | pth_sched.c:537-586 | an ended thread is freed, or kept for joining with its waiting joiner woken; nobody else changes |
| SchedOps.Settle | pth_sched.c:537-657 | after a switch the thread is waiting, ready, kept or freed as its state says, the partition holds and nobody is current |
| SchedOps.PromotesNew | pth_sched.c:287-301 | exactly the new threads become ready |
| SchedOps.DispatchesBest | pth_sched.c:308-320 | the thread that gets control has the highest effective priority of all ready ones |
| SchedOps.EventsWake | pth_sched.c:985-999 | exactly the waiting threads with an occurred event become ready |
| SchedRuns.RunsKeepPartition | pth_sched.c:280-660 | after any attempted calls and scheduler steps from the start each live thread is in exactly one place that fits its state, the count is right and `waited_native` implies the wait queue, up to and including the state, if one comes, in which the recorded joiner to be read is gone |
| SchedRuns.JoinDeliversValue | pth_lib.c:1183-1197 | whatever runs in between, the last joiner of an ended thread gets the value it ended with |
| SchedRuns.ExitValueIsDelivered | pth_lib.c:1069-1197 | from an exit that does not end the process, whatever runs in between, the last joiner of a joinable thread gets the value it exited with, and the thread is freed |
| SchedJoins.JoinOkMakesJoinerLive | pth_sched.c:560-566 | good join records make the joiner read at exit an existing thread |
| SchedJoins.FaithfulRunsArePossible | pth_sched.c:560-581 | over every run in which no recorded joiner is woken while its target lives, every attempted step is defined and the records stay good |
| SchedJoins.FaithfulRunsKeepPartition | pth_sched.c:280-660 | the same from the start of the library, with the partition at every state and no state in which the recorded joiner is gone |
| SchedJoins.EventsJoinOkIff | pth_sched.c:990-999 | a round of the event manager keeps the join records good exactly when it wakes no recorded joiner of a thread still alive |
| SchedLost.EarlyWakeCanLose | pth_sched.c:560-566 | a round of the event manager that wakes a recorded joiner of a living thread can be continued, step by step as the loop goes and with no step that ends the process, to the state in which a thread has ended and its recorded joiner, one that this round woke while that thread lived, is gone |
| SchedLost.SomeRunIsLost | pth_lib.c:1173-1178 | from the start, for any joinable main thread without a cancellation request, the loop can take some run to that state after some round |
| SchedEnds.CanceledJoinersNeverLose | pth_sched.c:537-586 | when all threads are joinable and have ended, are suspended or are being cancelled where they wait, no round of events can be continued, in whatever order, to the read of a joiner that is gone |
| SchedEnds.EarlyWakeNeedNotLose | pth_sched.c:560-581 | two cancelled threads that join each other: the round wakes recorded joiners of living threads, and no continuation loses one |
| SchedEnds.CanceledMainNeverLoses | pth_lib.c:1076-1077 | a main thread being cancelled where it waits that is ready and has the highest priority ends the process before any continuation reaches such a read |
| SchedLoop.Scheduler.PromoteNew | pth_sched.c:287-301 | the loop over the new queue performs the promotion of all new threads |
| SchedLoop.Scheduler.ScanEvents | pth_sched.c:792-999 | the walk over the wait queue that takes threads out while walking performs the event step of the whole queue |
| SchedLoop.NextWalk | pth_sched.c:985-999 | taking the thread under the walk out, or passing it, leaves the rest of the walk as it was |
| RunQueue.PriorityQueue.AppendNode | pth_sched.c:655 | the structure stands for the one sorted list of `SchedQueue`, with bitmap, total and back pointers in agreement (pqueue.h:194-206); a node goes behind all of its priority, one already on a list is left alone |
| RunQueue.PriorityQueue.PrependSecondNode | pth_sched.c:293 | the same for the second place of its priority, or the first if there is none (pqueue.h:268-282) |
| RunQueue.PriorityQueue.DeleteNode | pth_sched.c:320 | takes exactly that node out, and the bit of its priority when it was the last (pqueue.h:302-320) |
| RunQueue.PriorityQueue.FavorNode | pth_lib.c:1225-1231 | the favoured list, nothing for the first two of a priority (pqueue.h:527-557) |
| RunQueue.PriorityQueue.FirstNode | pth_sched.c:311-312 | the highest set bit leads to the head of the whole list, null exactly when it is empty (pqueue.h:351-382) |
| RunQueue.PriorityQueue.NextNode | pth_sched.c:989 | the successor in the whole list, across empty priorities; null behind the last (pqueue.h:581-614) |
| WakeRace.StepKeeps | pth_sched.c:560-581 | every faithful step of every waker keeps queues, hands, locks and `waited_native` in agreement |
| WakeRace.OneQueueIsSafe | pth_sync.c:629-646 | for any interleaving on one native's wait queue each thread is in exactly one place, and each wait ends by exactly one publication |
| WakeRace.EveryWaitEndsOnce | pth_sync.c:1089-1106 | over every faithful run, waits begun equal waits ended by one waker plus the wait still going on |
| WakeRace.OneQueueIsFaithful | pth_sched.c:639-642 | when all threads wait on one native every second look agrees with the lock |
| WakeRace.UnfaithfulLookBreaks | pth_sync.c:629-646 | after a second look that finds the thread in another queue than the locked one, three named steps put the thread in the hands of that waker and a second one |
| WakeRace.TwoQueuesBreak | pth_sync.c:629-646 | with two wait queues some interleaving from the start puts a thread in two places |
| Mutex.Record | pth_sync.c:294-297 | recording ownership adds one record of that mutex and no other |
| Mutex.Forget | pth_sync.c:613-616 | forgetting removes the one record of that mutex and no other |
| Mutex.RunsKeepOwnership | pth_sync.c:282-311 | over every run LOCKED, owner and count agree, the count is 1 unless recursive, each locked mutex is recorded exactly once and nothing else is, and the wait count is the number of bounded waiters |
| Mutex.CountIsNetAcquires | pth_sync.c:595-617 | over every run a mutex's count is its owner's successful acquires minus releases, and everybody else's balance is zero |
| Mutex.Table.Lock | pth_sync.c:261-335 | state and return code of acquire up to its wait |
| Mutex.Table.Retry | pth_sync.c:322-391 | state and result of one turn of the wait loop, interrupted or not |
| Mutex.Table.Unlock | pth_sync.c:589-662 | state and return code of release, EPERM for anybody but the owner |
| RwLock.MutexIsItsOwner | pth_sync.c:282-317 | the mutex model answers and changes owners exactly as the lock model assumes |
| RwLock.Lock.Acquire | pth_sync.c:774-804 | fields and return code of acquire up to the next wait |
| RwLock.Lock.Release | pth_sync.c:806-834 | fields and return code of release |
| RwLock.RunsExclude | pth_sync.c:774-834 | over every run no writer holds beside a reader, the count is the holders plus at most one waiting reader, and the mode names the holder |
| RwLock.WriterEntersAlone | pth_sync.c:781-786 | a writer enters only when nobody holds the lock and is never displaced by another |
| RwLock.ReaderEntersBesideReaders | pth_sync.c:787-803 | a reader enters only when no writer holds |
| RwLock.FailureRestores | pth_sync.c:793-797 | a call turned down or interrupted leaves every field as it was, save a waiting reader's own count |
| RwLock.ReleaseSucceedsIff | pth_sync.c:817-831 | a reader's release never waits and succeeds exactly when others hold or the reader owns the inner mutex |
| RwLock.AbandonedForGood | pth_sync.c:821-826 | once the first reader has left before the others, no run without that thread frees the lock |
| RwLock.FirstReaderLeaves | pth_sync.c:787-831 | the run from a fresh lock: two readers, the first leaves, the second's release fails with EPERM |
| Cond.CondVar.Return | pth_sync.c:998-1030 | waits again exactly when its event was tagged but no signal is left; otherwise leaves and cleans as specified |
| Cond.CondVar.Signal | pth_sync.c:1062-1072 | notify sets the flags and counts the signal only when somebody waits |
| Cond.CondVar.Test | pth_sched.c:919-931 | the event manager tags the event and marks a single signal handled |
| Cond.RunsKeepFlags | pth_sync.c:922-1112 | over every run SIGNALED iff signals are pending, HANDLED implies SIGNALED, no BROADCAST and a woken waiter still there, and the waiter count is exact |
| Cond.PendingSignalIsServed | pth_sched.c:919-931 | a pending signal with waiters has a woken waiter or one the event manager will wake |
| Cond.BroadcastStays | pth_sync.c:1017-1027 | over every run without another notify a broadcast stays set until the last waiter is gone |
| Cond.BroadcastReleases | pth_sync.c:998-1027 | under a broadcast every waiter looked at wakes, every one resumed leaves, and the last ends the broadcast |
| Cond.SignalsConserved | pth_sync.c:1022-1112 | over every run signals sent equal signals pending plus signals consumed by leaving waiters |
| Cond.LeftoverSignal | pth_sync.c:1017-1027 | whoever waits after the last leaver is woken at once exactly when a second signal was pending |
| Cond.TaggedWaiterSleepsAgainIff | pth_sync.c:1007-1012 | over every run a waiter woken by a signal sleeps again exactly when as many signals were consumed as were pending and sent |
| Cond.SignalTakenByLeaver | pth_sync.c:1007-1027 | the run from an unused condition in which a waiter leaving for its own reasons takes the signal handed to another, which sleeps again |
| Cond.SignalLeftBehind | pth_sync.c:1017-1027 | the run in which a second signal outlives the last waiter and wakes the next one at once |
| PriorityList.InsertPosUnique | pth_pqueue.c:93-140 | one place only keeps the list sorted with equals in order of arrival |
| PriorityList.InsertKeepsSorted | pth_pqueue.c:93-140 | insertion keeps descending priority order |
| PriorityList.QuickInsertKeepsSorted | pth_pqueue.c:62-90 | so does the fast insertion |
| PriorityList.QuickInsertAgrees | pth_pqueue.c:62-90 | with priority 0 it equals the full insertion exactly when the queue is empty or its tail has priority 0 |
| PriorityList.FavoredIsInsert | pth_pqueue.c:221-241 | favouring is removal and insertion one above the best of the rest |
| PriorityList.RaiseCommutes | pth_pqueue.c:244-257 | ageing before or after an insertion gives the same queue |
| PriorityRing.PQueue.Insert | pth_pqueue.c:93-140 | keeps a well-formed ring of differences that decodes to the list with the thread inserted |
| PriorityRing.PQueue.QInsert | pth_pqueue.c:62-90 | the same for the fast insertion |
| PriorityRing.PQueue.DelMax | pth_pqueue.c:143-176 | removes and returns the first element, null for an empty queue |
| PriorityRing.PQueue.Delete | pth_pqueue.c:179-217 | removes one thread and leaves every other absolute priority unchanged |
| PriorityRing.PQueue.Favorite | pth_pqueue.c:226-241 | makes the thread the unique maximum, the rest unchanged |
| PriorityRing.PQueue.Increase | pth_pqueue.c:244-257 | one addition raises every absolute priority by one |
| PriorityRing.PQueue.Tail | pth_pqueue.c:272-279 | the last element |
| PriorityRing.PQueue.WalkNext | pth_pqueue.c:282-301 | the successor in list order, null behind the last |
| PriorityRing.PQueue.WalkPrev | pth_pqueue.c:282-301 | the predecessor, null before the first |
| PriorityRing.PQueue.Contains | pth_pqueue.c:304-319 | found exactly when in the list |
| Ring.Ring.Append | pth_ring.c:150-165 | adds a node at the end; appending a node of the ring again leaves links that represent no sequence at all |
| Ring.AppendWhileOn | pth_ring.c:150-165 | after appending a node of a first ring to a second one the first describes exactly the second read from that node, if that node was its first and the counts agree, and nothing otherwise |
| Ring.Ring.InsertAfter | pth_ring.c:90-98 | adds behind the given node |
| Ring.Ring.InsertBefore | pth_ring.c:101-109 | adds before the given node; before the first means at the end |
| Ring.Ring.Delete | pth_ring.c:113-125 | removes exactly the given node |
| Ring.Ring.Pop | pth_ring.c:175-183 | removes and returns the first |
| Ring.Ring.Dequeue | pth_ring.c:206-214 | removes and returns the last |
| Ring.Ring.Contains | pth_ring.c:217-230 | found exactly when in the ring |
| Ring.Ring.Prepend | pth_ring.c:130-145 | afterwards the ring is the new node alone, and well formed exactly when it was empty before |
| EventRing.Rotate | pth_event.c:389-419 | a ring may be read from any of its events |
| EventRing.Concat | pth_event.c:389-419 | disjoint rings become one well-formed ring: first event, each argument ring in full, rest of the first ring |
| EventRing.Isolate | pth_event.c:422-437 | takes one event out and closes the rest, returning its first |
| EventRing.WalkNext | pth_event.c:452-465 | stops at the nearest occurred event behind, or at the next event when not asked to look |
| EventRing.WalkPrev | pth_event.c:452-465 | the same backwards |
| EventRing.FreeAll | pth_event.c:468-491 | frees every event of the ring once, in order |
| EventRing.MarkPending | pth_event.c:506-512 | marks every event as not occurred and keeps the ring |
| EventRing.SelectEv | pth_high.c:364-380 | after ringing up and isolating, the caller's ring is restored link by link |
| EventRing.CountAfterWait | pth_event.c:530-541 | returns the ring size, equal to the number of occurred events exactly when all have occurred |
| MsgPort.Port.Put | pth_msg.c:124-130 | a message on no ring goes behind all pending ones; one already pending here leaves a queue that represents no sequence |
| MsgPort.Port.Get | pth_msg.c:133-141 | returns the oldest pending message, null exactly when none is; what was got stays a prefix of what was put |
| MsgPort.Port.Pending | pth_msg.c:116-121 | puts minus gets as long as no message was put while on the ring |
| MsgPort.PutTwice | pth_msg.c:116-141 | putting a message twice on an empty port delivers it once, then null, with one message still pending |
| MsgPort.Reply | pth_msg.c:144-149 | a message on no port's ring goes behind all others at its reply port; no other port changes |
| MsgPort.Registry.Create | pth_msg.c:47-68 | a new empty port is registered last |
| MsgPort.Registry.Find | pth_msg.c:93-113 | the oldest port of that name, null exactly when there is none |
| MsgPort.Registry.Destroy | pth_msg.c:71-90 | every pending message goes, in order, to its reply port, those without one are dropped, no other port changes, the port is unregistered |
| MsgPort.DrainTurn | pth_msg.c:80-81 | one turn of the drain on the rings themselves: the oldest message moves to its reply port, be it the drained port or another |
| MsgPort.DestroyEndsIff | pth_msg.c:71-90 | the turns empty the port after finitely many rounds exactly when no pending message names it as its reply port |
| Cleanup.Thread.Push | pth_clean.c:45-64 | adds one record in a free slot or a new block, changes no live record, and fails only without a handler or memory |
| Cleanup.Thread.Pop | pth_clean.c:66-83 | removes the last record, runs its handler once if asked, frees a block once and a slot never |
| Cleanup.Thread.RunScopes | pth_clean.c:45-83 | balanced pushes and pops inside a handler leave the stack as it was and run their handlers in bracket order |
| Cleanup.Thread.PopAll | pth_clean.c:85-99 | all handlers run exactly once, the last pushed first; afterwards no block is left allocated |
| Timers.Manager.Check | pth_sched.c:888-905 | one event: the due ones are marked, the earliest timer to come is remembered and alone carries the flag |
| Timers.Manager.ScanAll | pth_sched.c:792-999 | the same after the rings of all waiting threads; woken are exactly those with a newly due event or a cancellation request at an event that is no mutex, where the walk of that ring stops |
| Timers.Manager.Manage | pth_sched.c:770-1284 | polls exactly when asked or somebody was woken; otherwise sleeps up to the earliest deadline (unlimited if none), and a timeout marks exactly one such timer; else exactly the due events and the reported descriptors of threads still waiting are marked; all flags are clear on return; ready are exactly the cancelled threads and those with an occurred event |
| Timers.CollectReady | pth_sched.c:1150-1284 | the second pass marks exactly the reported descriptors of threads still waiting, and adds the cancelled threads and those with an occurred event |
| Numerals.DigitsRoundTrip | pth_string.c:428-433 | the digits of a number read back as the number |
| Numerals.DigitsLength | pth_string.c:428-435 | at most n digits exactly when below base^n |
| Numerals.BlockRoundTrip | pth_string.c:428-436 | the printed block is the number modulo base^19, equal to it exactly when it is below base^19, then without redundant leading zero |
| IntText.LengthWithoutZeroFlag | pth_string.c:438-447 | the length is max(min, sign + max(precision, digits)) |
| IntText.ZeroFlagReachesWidthIff | pth_string.c:444-447 | with the zero flag the width is reached exactly when the precision is within the digits or covers the width |
| IntText.TextReads | pth_string.c:396-478 | for all flags a reader of the printed text gets the magnitude modulo base^19, with its sign |
| IntText.TextRoundTrip | pth_string.c:396-478 | for all flags, widths and precisions the reader gets the value back exactly when its magnitude is below base^19 |
| IntText.LargeUnsignedIsLost | pth_string.c:428-436 | `%u` of 10^19 reads back as 0 |
| Format.SmallerBufferGetsPrefix | pth_string.c:119-353 | the result for a smaller limit is a prefix of the result for a larger one |
| Printer.Convert | pth_string.c:428-436 | the digit loop leaves the printed block, lowest digit first |
| Printer.PadLengths | pth_string.c:438-447 | the padding lengths computed step by step |
| Printer.Printer.Outch | pth_string.c:635-647 | the character is appended, and stored as long as the limit allows |
| Printer.Printer.EmitInt | pth_string.c:396-478 | prints the integer text |
| Printer.Printer.EmitStr | pth_string.c:357-393 | prints at most so many characters of the padded string |
| Printer.Printer.EmitConv | pth_string.c:225-332 | each conversion character prints its text |
| Printer.Printer.Step | pth_string.c:143-347 | every turn of the state machine keeps printed text plus remaining meaning unchanged, and reads on or lowers the state's rank |
| Printer.Printer.Dopr | pth_string.c:119-353 | the buffer ends up with the first maxlen-1 characters of what the format stands for, terminated at the returned length |
| Printer.Vsnprintf | pth_string.c:649-662 | the same from the entry point, with or without a buffer |
| Iov.AdvanceDropsBytes | pth_high.c:1060-1094 | advancing by k drops exactly the first k bytes |
| Iov.AdvanceComposes | pth_high.c:1060-1094 | advancing by a then b is advancing by a+b |
| Iov.Bytes | pth_high.c:1044-1057 | the number of bytes in the vector |
| Iov.Cursor.Advance | pth_high.c:1060-1094 | the cursor holds the advanced vector and the caller's vector is unchanged, with a copy in an array that other cursors may share |
| Iov.CopyBeside | pth_high.c:1063-1078 | a copy made while another writer is in the middle of its vector leaves that writer's rest as it was exactly when the vectors agree where they overlap |
| Iov.SecondWriterTakesOver | pth_high.c:1060-1094 | two writers each in the middle of a single buffer: the first goes on with the rest of the second's |
| WriteLoop.Retry | pth_high.c:731-771 | for every kernel the bytes taken are a prefix in order, the result is their number or -1, and bytes and reason to stop are those the kernel's answers determine |
| WriteLoop.Write | pth_high.c:688-780 | the whole call: a non-negative result is the number of bytes taken, -1 means none were or a wait was cut short |
| WriteLoop.CutShortAfterBytes | pth_high.c:731-771 | a kernel that takes a byte and then cuts the wait short makes the call return -1 after one byte |
| Clock.RoundTrip | pth_time.c:129-146 | normalised times survive conversion there and back in both builds |
| Clock.UsecBound | pth_time.c:129-146 | microseconds never exceed a million, and when they reach it |
| Clock.UnnormalisedIff | pth_time.c:137-141 | a million is reached by some time exactly when the frequency is no multiple of a million |
| Clock.TodTimeGrows | pth_time.c:166-188 | later normalised times of day from the baseline on have strictly larger counts |
| Load.Update | pth_sched.c:214-226 | runs floor((now - next)/gap) + 1 rounds, gives ready + (old - ready)(3/4)^k, and sets the next tick after now |
| Load.Between | pth_sched.c:214-226 | the new load lies between the old one and the ready count |

## Left out

- Several native threads in the scheduler model: bound natives, `should_suspend` on another native and signals between natives; M:N mode is covered only by the wake-up protocol.
- What happens in and after `exit`: a call that ends the process is the last of its run. Priorities changed after creation, and cleanup, key and mutex release at thread end.
- A `pth_join` that resumes after its target was freed reads a freed control block; the model treats that thread as being in no queue.
- Null queue arguments, and `pqueue.h` changing the priority of a queued node. `RunQueue` knows the nodes of one queue; that a node on another queue is refused as well is not modelled.
- Of the scheduler's statements only the two loops are repeated on mutable fields; the other operations are functions on values.
- The cleanup that a cancelled new thread would run, and cancellation points other than the return of `pth_wait` (pth_event.c:522-525).
- Wait lists of mutexes and condition variables with several natives: the direct wake through them is the protocol in `WakeRace`.
- Process-shared and robust mutexes, futexes, `pth_mutex_releaseall`, barriers and semaphores.
- The mutex that `pth_cond_await` releases and takes again, and bounded natives waiting on a condition; a notifier's own wait after a broadcast.
- Read-write locks under fine-grained M:N interleaving; callers that release what they do not hold.
- FUNC and signal events and pending signals in the event manager; which descriptors `select` reports is a parameter.
- Floating-point text: a parameter of the formatter. `%n` prints nothing and its store is not modelled; a format ending in `%w` is taken to read a terminator behind the end. Integers are unbounded, with the 16-bit casts and the 64-bit unsigned view written out; the limits 0 and -1 of `dopr` are not modelled.
- The `pth_writev_ev` retry loop and the emulated `readv` and `writev`.
- `pth_cleanup_popall` for a thread other than the current one, and handlers that leave the stack unbalanced.
- Time arithmetic in the model has no overflow.
- Machine contexts, fork, signals, the debugger interface, attributes and the argument checks of the POSIX layer.
- WakeRace.OneQueueIsSafe: taking a lock, taking a thread out and publishing it are single steps; the memory order of the processors is not modelled.
- SchedLost.EarlyWakeCanLose: asks that the target has no cancellation request, that the main thread is not being cancelled where it waits, and that a suspended target's woken joiner is not; without such conditions the claim is false (`SchedEnds.CanceledJoinersNeverLose`, `SchedEnds.CanceledMainNeverLoses`), but these are sufficient and not exact, since who ends first among cancelled threads depends on the order of the ready queue. The extra polls that a thread can ask for with `do_yield` (pth_sched.c:670) are not in the order of the loop; the run does without them.
