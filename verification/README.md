# Dafny models of State Threads and c-ares

This project models the two libraries under `3rdparty/` that the proxy is built on, and proves what
they promise.

**State Threads** is a cooperative scheduler. `TimeoutHeap` models the timeout heap at the level of
its pointers. `Scheduler` gives the scheduler as a state machine whose steps run between two context
switches: `SchedulerInvariant` and `SchedulerCalls` prove that every step keeps one invariant,
`SchedulerRuns` draws the conclusions for all runs (one place per thread, turns on the run queue, mutex
hand-off, how waits end), `SchedulerEffects` says call by call what happens to the caller, the other threads
and the queues, and `SchedulerWaits` follows condition waits and joins over whole runs, from the park to the
return. `SleepQueue` puts the pointer heap in the place of the state machine's map of due times,
and `SchedulerCode` has the steps as loops over fields. `PollIndex`, `Epoll` and `EpollDispatch` model the
epoll backend and `Select` the select backend, each as an index over the I/O queue. `IoVector` models
vectored writes.

**c-ares** is an asynchronous resolver. `AresList` models the intrusive circular lists at the level of their
pointers. `AresState`, `AresInvariant`, `AresProgress` and `AresEngine` model the query engine: sending,
retrying on other servers, timeouts, server errors and answers, with every query linked in four lists.
`TcpStream` models framing, reassembly and the send queue of a TCP connection. `DnsNames` and `DnsCodec`
model the DNS name codec and the building of queries, which `DnsMessage` reads back byte by byte; `Ipv6Text`
and `Ipv6Code` model the IPv6 text codec, with `Ipv6Limits` for the texts it mishandles and `Ipv6Prefixes`
for prefix lengths and known addresses, and `AddressOrder` and `AddressSort` destination address selection.
`Octets` and `Options` hold what several modules share.

How the models are made:

- A context switch is the end of one step and the beginning of the next. A step of the scheduler is a
  function on a record of the scheduler's variables, because a single call spans several steps; the loops
  inside a step are methods on fields, proved equal to these functions.
- The operating system decides freely within its interface: `epoll_ctl` may fail, `epoll_wait` and
  `select` report any plausible events, opening and writing to sockets may fail, `recv` and `write` take
  any number of bytes they were offered. A field `faults` counts the `epoll_ctl` calls that failed for a
  reason of the kernel's own, so that claims can be made for runs without such a failure.
- The bits of a heap index are modelled by division; descriptor sets are sets; C's `-1` for "none" is
  kept where it is computed with and is an `Option` elsewhere.
- Some fields record history only: why a wait ended, the callbacks made so far, how often a query was
  sent, which socket calls failed or were refused, what each call was offered, and which requests were handed
  over to which server. No branch depends on them; they let a contract say what must happen when nothing fails.
- Queries are named by a number, the count of `ares_send` calls at their creation, so that "exactly one
  callback" can be stated for every call.
- Seconds of time are assumed positive and `now` not before the last processed timeout, and the configured
  timeout positive and within an int, as the code itself presumes.

What the proofs found:

- The shift for `::` in `inet_net_pton_ipv6` has no check that the moved bytes fit before the end chosen from a
  prefix length, so for some texts it writes before its buffer. `Parse` has the result `Unspecified` for them.
  They are exactly the texts of groups with a gap, k groups after it and a prefix length n <= 128, at most
  eight groups in all, with k > max(2, (n + 15) / 16) (`UnspecifiedExactly`; a predicate computes this from the
  text). One is `::1:2:3/2` (`UnspecifiedHappens`). A text without a slash, or ending in an IPv4 address, is never
  among them.
- `inet_net_pton_ipv6` returns 0, not -1, exactly when eight groups are followed by a ninth with a colon that does
  not end the text (`ZeroExactly`), as in `1:2:3:4:5:6:7:8:9:a` (`ZeroHappens`).
- `get_label` and `get_precedence` disagree with the policy table of RFC 6724 for exactly one address,
  the unspecified one, because the system's test for IPv4-compatible addresses leaves it out
  (`RanksFollowPolicy`, `UnspecifiedAddressDisagrees`).
- `rfc6724_compare` is not transitive when IPv4 and IPv6 destinations are mixed: rule 9 applies between
  two IPv6 addresses only. `CycleExactly` says when, `MixedFamiliesCycle` gives three addresses, and with
  one family the order is total.
- `ares__sortaddrinfo` reads the first element of its array without a check that there is one; `Relink` and
  `SortAddrInfo` tell in their result whether there is, which fails exactly for the empty list.
- In `inet_ntop6` the clause of the IPv4 ending for a run of seven words can never apply, since the
  word at which that ending starts is then inside the run.
- A zero length word on a TCP connection cannot be got past: nothing is left to read, so the next `recv`
  returns 0 and the connection is given up (`Reader.StuckOnEmptyMessage`, `ReadZeroLength`).

## Model

| member | source | states |
|---|---|---|
| `TimeoutHeap.ShrAtMostHalf` | 3rdparty/st-1.9/sched.c:347-350 | shifting right halves at least, so the loops that count the bits of an index end |
| `TimeoutHeap.BitLength` | 3rdparty/st-1.9/sched.c:346-350 | the loop finds the length of the index in bits |
| `TimeoutHeap.RootIsEarliest` | 3rdparty/st-1.9/sched.c:480-484 | in a min-ordered complete tree the root is due no later than any node |
| `TimeoutHeap.SwapKeepsOrder` | 3rdparty/st-1.9/sched.c:424-441 | exchanging a node with its younger child leaves at most that child's place out of order |
| `TimeoutHeap.Vp.constructor` | 3rdparty/st-1.9/sched.c:134-180 | the empty tree is a heap of no threads |
| `TimeoutHeap.Vp.Walk` | 3rdparty/st-1.9/sched.c:346-367 | walking down the bits of the target index keeps the tree complete and ordered; the node carried ends at the slot of the target |
| `TimeoutHeap.Vp.HeapInsert` | 3rdparty/st-1.9/sched.c:339-372 | the pointers form a complete binary tree over positions 1..size in min-order on due again, every heap_index is the node's position, and the nodes are the old ones and the new one |
| `TimeoutHeap.Vp.FindSlot` | 3rdparty/st-1.9/sched.c:384-397 | the bits of sleepq_size lead to the slot that holds the last node |
| `TimeoutHeap.Vp.UnlinkLast` | 3rdparty/st-1.9/sched.c:397-399 | the last node is out of the tree and all others keep their places |
| `TimeoutHeap.Vp.SiftDown` | 3rdparty/st-1.9/sched.c:413-445 | a node put in place of a deleted one moves down until the order holds everywhere, with heap_index kept equal to the position |
| `TimeoutHeap.Vp.Refill` | 3rdparty/st-1.9/sched.c:400-446 | re-inserting the last node at the deleted node's index and sifting it down gives an ordered complete tree without the deleted node |
| `TimeoutHeap.Vp.HeapDelete` | 3rdparty/st-1.9/sched.c:378-448 | the heap is complete, indexed and ordered over exactly the old members minus the thread, whichever node it was |
| `TimeoutHeap.Vp.AddSleepQ` | 3rdparty/st-1.9/sched.c:451-457 | an absent thread becomes a member with due = last_clock + timeout and its on-sleep-queue flag set; flags hold exactly for members |
| `TimeoutHeap.Vp.DelSleepQ` | 3rdparty/st-1.9/sched.c:460-464 | a present thread leaves the heap and loses its flag; nothing else changes membership |
| `TimeoutHeap.Vp.WakeDue` | 3rdparty/st-1.9/sched.c:480-496 | the loop ends; it moves to the run queue exactly the sleepers with due <= now, in non-decreasing due order, and marks as timed out exactly those in COND_WAIT |
| `TimeoutHeap.Vp.CheckClock` | 3rdparty/st-1.9/sched.c:467-497 | the clock is now, and every sleeper left is due later than now |
| `TimeoutHeap.RousedAll` | 3rdparty/st-1.9/sched.c:480-496 | when the earliest sleeper is due later, the woken threads are all those that were due, in order |
| `SleepQueue.Start` | 3rdparty/st-1.9/sched.c:134-190 | the heap without threads holds the sleep queue of the initial state of the scheduler |
| `SleepQueue.ParkTimed` | 3rdparty/st-1.9/sync.c:191-198 | putting the caller into the heap is what the scheduler's move to sleep says of its map of due times |
| `SleepQueue.MakeRunnable` | 3rdparty/st-1.9/sync.c:232-237 | taking a thread out of the heap and putting it on the run queue is the scheduler's wake |
| `SleepQueue.CheckClockInHeap` | 3rdparty/st-1.9/sched.c:467-497 | the order in which the heap gives up its threads is a due order of the scheduler's sleepers, and the new state of heap, flags, states and run queue is that of the scheduler's clock check with that order |
| `Scheduler.FirstIs` | 3rdparty/st-1.9/sync.c:229-241 | the scan of a wait queue finds the earliest thread in the wanted state, or there is none |
| `Scheduler.WithoutIs` | 3rdparty/st-1.9/sched.c:115-117 | taking threads off a queue leaves the others, once each |
| `Scheduler.AmongIs` | 3rdparty/st-1.9/event.c:1281-1324 | the requests that fired are taken in queue order, each thread once |
| `Scheduler.ThoseSplit` | 3rdparty/st-1.9/sync.c:229-241 | a broadcast over a queue is a broadcast over its parts |
| `Scheduler.WakeSplit` | 3rdparty/st-1.9/sync.c:235-237 | waking threads one by one is waking them all |
| `SchedulerInvariant.InvGrounded` | 3rdparty/st-1.9/sched.c:111-128 | in every state of the invariant the objects that the calls refer to exist |
| `SchedulerInvariant.WakeKeepsGood` | 3rdparty/st-1.9/sync.c:231-240 | making waiting threads runnable keeps every thread in one place, with its flags and queues in agreement |
| `SchedulerInvariant.ScheduleAssertion` | 3rdparty/st-1.9/sched.c:120-121 | the thread taken from the run queue, or the idle thread, is RUNNABLE: the assertion holds |
| `SchedulerInvariant.ScheduleKeepsInv` | 3rdparty/st-1.9/sched.c:111-128 | the chosen thread becomes current and RUNNING and is on no queue |
| `SchedulerInvariant.InterruptKeepsGood` | 3rdparty/st-1.9/sched.c:500-517 | an interrupt keeps the invariant in every state the thread may be in |
| `SchedulerInvariant.SignalKeepsGood` | 3rdparty/st-1.9/sync.c:224-244 | a signal keeps the invariant |
| `SchedulerInvariant.BroadcastKeepsGood` | 3rdparty/st-1.9/sync.c:224-244 | a broadcast keeps the invariant |
| `SchedulerInvariant.ParkKeepsGood` | 3rdparty/st-1.9/sync.c:191-198 | a caller that waits is on no queue of runnable threads and is linked where it waits, with the sleep queue if it has a timeout |
| `SchedulerCalls.CondWaitKeepsInv` | 3rdparty/st-1.9/sync.c:180-198 | waiting on a condition variable keeps the invariant |
| `SchedulerCalls.SleepKeepsInv` | 3rdparty/st-1.9/sync.c:115-140 | sleeping keeps the invariant |
| `SchedulerCalls.PollKeepsInv` | 3rdparty/st-1.9/sched.c:60-90 | polling keeps the invariant: an I/O-queue entry belongs to a thread that is inside st_poll |
| `SchedulerCalls.UnownedHasNoWaiter` | 3rdparty/st-1.9/sync.c:300-304 | an unowned mutex has no thread in LOCK_WAIT on its queue |
| `SchedulerCalls.LockKeepsInv` | 3rdparty/st-1.9/sync.c:290-315 | locking keeps the invariant, whether the mutex is free, owned by the caller or owned by another |
| `SchedulerCalls.TryLockKeepsInv` | 3rdparty/st-1.9/sync.c:357-368 | trying a lock keeps the invariant |
| `SchedulerCalls.UnlockKeepsInv` | 3rdparty/st-1.9/sync.c:329-354 | unlocking keeps the invariant, with and without a waiter |
| `SchedulerCalls.CreateKeepsInv` | 3rdparty/st-1.9/sched.c:520-610 | a new thread is runnable and in one place |
| `SchedulerCalls.ExitKeepsInv` | 3rdparty/st-1.9/sched.c:239-268 | an exiting thread becomes a zombie or is gone, and a joiner is woken |
| `SchedulerCalls.JoinKeepsInv` | 3rdparty/st-1.9/sched.c:275-312 | joining keeps the invariant, on the error returns, when waiting and when the target is a zombie |
| `SchedulerCalls.ResumeKeepsInv` | 3rdparty/st-1.9/sync.c:200-214 | returning from any wait takes the thread off the queue it waited on and keeps the invariant |
| `SchedulerCalls.IdleSeesOnlyIoWait` | 3rdparty/st-1.9/event.c:1281-1324 | dispatch starts with an empty run queue, so every I/O-queue entry then belongs to a thread in IO_WAIT |
| `SchedulerCalls.DispatchKeepsGood` | 3rdparty/st-1.9/event.c:1281-1324 | making the threads whose requests fired runnable keeps every thread in one place, with its flags and queues in agreement |
| `SchedulerCalls.CheckClockKeepsGood` | 3rdparty/st-1.9/sched.c:467-497 | waking the due sleepers keeps the invariant |
| `SchedulerCalls.IdleKeepsInv` | 3rdparty/st-1.9/sched.c:216-236 | a round of the idle thread keeps the invariant; IdleEffect says what the round does |
| `SchedulerRuns.InitialInv` | 3rdparty/st-1.9/sched.c:134-190 | the state after st_init satisfies the invariant |
| `SchedulerRuns.StepKeepsInv` | 3rdparty/st-1.9/sched.c:60-517 | every step between two context switches keeps the invariant |
| `SchedulerRuns.RunKeepsInv` | 3rdparty/st-1.9/sched.c:60-517 | the invariant holds after every run, of any length and interleaving |
| `SchedulerRuns.OnePlaceInEveryRun` | 3rdparty/st-1.9/sched.c:60-128 | at every switch point of every run each thread is current, or once on the run queue, or once on the zombie queue, or waiting on neither; the sleep-queue flag is set exactly for sleepers |
| `SchedulerRuns.LockReturnsToOwner` | 3rdparty/st-1.9/sync.c:290-326 | in every reachable state a lock call, or its return after waiting, gives 0 only to the owner of the mutex |
| `SchedulerRuns.OwnerIsNotTurnedAway` | 3rdparty/st-1.9/sync.c:319-323 | an interrupt after the hand-off does not make st_mutex_lock fail |
| `SchedulerRuns.UnlockHandsOff` | 3rdparty/st-1.9/sync.c:339-353 | unlock gives the mutex to the earliest queued thread still in LOCK_WAIT and makes it runnable; if there is none it is free |
| `SchedulerRuns.SignalWakesEarliest` | 3rdparty/st-1.9/sync.c:224-244 | a signal wakes exactly the earliest waiter still in COND_WAIT, and nobody if there is none |
| `SchedulerRuns.StepInTurn` | 3rdparty/st-1.9/sched.c:111-128 | no step lets a runnable thread overtake another: threads join the run queue at its end, and the processor goes to its head or, when it is empty, to the idle thread |
| `SchedulerRuns.WaitsItsTurn` | 3rdparty/st-1.9/sched.c:111-128 | in every run a runnable thread moves up by one place with each switch: with i threads before it, it is at the head of the run queue after i switches |
| `SchedulerRuns.GetsItsTurn` | 3rdparty/st-1.9/sched.c:111-128 | in every run, with i threads before it, a runnable thread becomes the current one with switch i + 1 |
| `SchedulerRuns.BroadcastWakesAll` | 3rdparty/st-1.9/sync.c:224-256 | a broadcast wakes exactly the waiters still in COND_WAIT, in queue order, each once |
| `SchedulerRuns.LeavesCondWait` | 3rdparty/st-1.9/sched.c:486-517 | a thread leaves COND_WAIT by one of signal, clock or interrupt, and its flags say which |
| `SchedulerRuns.EndIsFinal` | 3rdparty/st-1.9/sync.c:203-212 | once a wait has ended, what ended it cannot change before the waiter runs; only a later interrupt is added |
| `SchedulerRuns.CondWaitReturns` | 3rdparty/st-1.9/sync.c:200-214 | st_cond_timedwait reports a timeout exactly when the clock ended the wait and no interrupt came, and an interrupt whenever one is pending |
| `SchedulerWaits.StepKeepsDues` | 3rdparty/st-1.9/sched.c:451-497 | no step moves the due time of another thread that stays asleep |
| `SchedulerWaits.CondWaitRun` | 3rdparty/st-1.9/sync.c:180-214 | over every run, from the wait on a condition variable to the waiter's next turn: it was signalled, or its time had come, or it was interrupted, and the call returns success, ETIME or EINTR accordingly, off the queue it waited on |
| `SchedulerWaits.RunEndsWait` | 3rdparty/st-1.9/sync.c:200-214 | when a waiter has its turn again, one step of the run ended the wait, by a signal of its condition variable, by the clock at or after its due time, or by an interrupt, and that cause is still on record |
| `SchedulerWaits.OthersLast` | 3rdparty/st-1.9/sched.c:275-312 | no step of another thread takes a thread away, changes the call it is inside of or its termination condition, or ends its being a zombie, except the join that collects it |
| `SchedulerWaits.StepKeepsAwaited` | 3rdparty/st-1.9/sched.c:239-312 | a thread stays there to be joined through every step that does not join it, and once a zombie it stays one |
| `SchedulerWaits.RunEndsJoin` | 3rdparty/st-1.9/sched.c:289-303 | over every run, a joiner that has its turn again was interrupted or finds the thread it waits for a zombie, if nobody else signals or joins that thread |
| `SchedulerWaits.JoinRun` | 3rdparty/st-1.9/sched.c:275-312 | st_thread_join over every run, from the wait to the collected zombie: the joiner comes back with EINTR exactly when interrupted, and otherwise the thread is on the zombie queue and the next round of the call collects it and succeeds |
| `SchedulerEffects.IdleEffect` | 3rdparty/st-1.9/sched.c:216-236 | in a round of the idle thread every thread whose request fired is off the I/O and sleep queues, RUNNABLE or RUNNING, woken by I/O, and these are in queue order behind the old run queue; then every sleeper that was due, in due order; requests that did not fire stay in order, and no other thread changes |
| `SchedulerEffects.WaitEffect` | 3rdparty/st-1.9/sync.c:180-198 | a wait is refused with EINTR, clearing the flag, exactly for an interrupted caller; otherwise the caller is in COND_WAIT at the end of the condition's queue, asleep until the clock plus the timeout if there is one, and the turn passes |
| `SchedulerEffects.SleepEffect` | 3rdparty/st-1.9/sync.c:115-140 | the same for sleeping, with and without a time to wake |
| `SchedulerEffects.PollEffect` | 3rdparty/st-1.9/sched.c:60-90 | a poll fails at once for an interrupted caller or refused entries; otherwise the caller is in IO_WAIT at the end of the I/O queue |
| `SchedulerEffects.LockEffect` | 3rdparty/st-1.9/sync.c:290-315 | a free mutex is the caller's and the call succeeds; an owner gets EDEADLK, an interrupted caller EINTR, and any other waits at the end of the mutex's queue |
| `SchedulerEffects.TryLockEffect` | 3rdparty/st-1.9/sync.c:357-368 | a free mutex is the caller's and the call succeeds; an owned one gives EBUSY and nothing changes |
| `SchedulerEffects.UnlockResult` | 3rdparty/st-1.9/sync.c:329-337 | success exactly for the owner; EPERM and no change for anybody else |
| `SchedulerEffects.InterruptEffect` | 3rdparty/st-1.9/sched.c:500-517 | a thread is marked interrupted unless it is a zombie; if it was waiting it is RUNNABLE at the end of the run queue and off the sleep queue |
| `SchedulerEffects.SignalEffect` | 3rdparty/st-1.9/sync.c:224-244 | the first waiter still in COND_WAIT, if any, is RUNNABLE at the end of the run queue, and nothing else changes |
| `SchedulerEffects.CreateEffect` | 3rdparty/st-1.9/sched.c:520-610 | the new thread is RUNNABLE at the end of the run queue, joinable exactly if asked for, and nothing else changes |
| `SchedulerEffects.ExitEffect` | 3rdparty/st-1.9/sched.c:239-268 | a joinable thread becomes a zombie on the zombie queue and its first joiner is signalled; any other is gone; the turn passes |
| `SchedulerEffects.JoinEffect` | 3rdparty/st-1.9/sched.c:275-312 | EINVAL for a thread that is not joinable, EDEADLK for oneself or with another joiner; a zombie is taken off the zombie queue and made runnable for its clean-up; otherwise the caller waits for its condition |
| `SchedulerEffects.ResumeEffect` | 3rdparty/st-1.9/sync.c:200-214 | a wait, sleep or poll that is resumed gives EINTR exactly if interrupted, and then the flag is cleared |
| `SchedulerCode.Processor.constructor` | 3rdparty/st-1.9/sched.c:134-190 | the fields hold the initial state of the state machine, which satisfies the invariant |
| `SchedulerCode.Processor.MakeRunnable` | 3rdparty/st-1.9/sync.c:232-237 | the fields change as in a wake of one thread |
| `SchedulerCode.Processor.VpSchedule` | 3rdparty/st-1.9/sched.c:111-128 | the fields change as in the scheduling step |
| `SchedulerCode.Processor.ThreadInterrupt` | 3rdparty/st-1.9/sched.c:500-517 | the fields change as in the interrupt step |
| `SchedulerCode.Processor.CondSignal` | 3rdparty/st-1.9/sync.c:224-244 | the loop over the wait queue does what Signal and Broadcast say |
| `SchedulerCode.Processor.MutexUnlock` | 3rdparty/st-1.9/sync.c:329-354 | the loop over the wait queue does what the unlock step says; UnlockHandsOff and UnlockResult say what that is |
| `SchedulerCode.Processor.MutexLock` | 3rdparty/st-1.9/sync.c:290-313 | the fields change as in the lock step; LockEffect says what that is |
| `SchedulerCode.Processor.DispatchReady` | 3rdparty/st-1.9/event.c:1281-1324 | every request in the ready set leaves the I/O queue and the others stay in order; its thread is RUNNABLE, woken by I/O, off the sleep queue and in queue order at the end of the run queue; no other thread changes; and this is the dispatch step |
| `PollIndex.TallyHas` | 3rdparty/st-1.9/event.c:1144-1149 | an entry is counted for its descriptor |
| `PollIndex.TallyFrom` | 3rdparty/st-1.9/event.c:1144-1149 | a descriptor with a count has an entry |
| `PollIndex.TallyMiddle` | 3rdparty/st-1.9/event.c:1310-1314 | the counts of a queue are those of one request and of the others |
| `PollIndex.WantedExact` | 3rdparty/st-1.9/event.c:1144-1149 | the counts of a descriptor are non-zero in a direction exactly if some queued request has an entry that asks for it |
| `Epoll.RemovedTwice` | 3rdparty/st-1.9/event.c:1129-1167 | removing entries in two goes is removing them all, for counts and kernel |
| `Epoll.CountedSynced` | 3rdparty/st-1.9/event.c:1190-1213 | telling the kernel about the one descriptor that changed is enough |
| `Epoll.UnrolledSynced` | 3rdparty/st-1.9/event.c:1215-1222 | after a failed epoll_ctl the unrolling, first entry to last and with descriptors repeated, leaves the kernel watching for what is asked for |
| `Epoll.Backend.constructor` | 3rdparty/st-1.9/event.c:1033-1089 | at first nothing is counted, watched or marked |
| `Epoll.Backend.AddOne` | 3rdparty/st-1.9/event.c:1189-1213 | one entry is counted; a synced backend stays synced unless epoll_ctl fails, and then kernel and event count are as before |
| `Epoll.Backend.DelOne` | 3rdparty/st-1.9/event.c:1135-1166 | one entry is taken out; a descriptor that has not fired is kept in step with the kernel |
| `Epoll.Backend.PollsetDel` | 3rdparty/st-1.9/event.c:1129-1167 | exactly the entries' events are subtracted, and the kernel is told as far as it can be |
| `Epoll.Backend.FdDataExpand` | 3rdparty/st-1.9/event.c:1091-1111 | the table grows past the descriptor and new places count nothing |
| `Epoll.Backend.CheckEntries` | 3rdparty/st-1.9/event.c:1174-1186 | accepted exactly when every entry is acceptable, and then every descriptor has a place |
| `Epoll.Backend.PollsetAdd` | 3rdparty/st-1.9/event.c:1169-1225 | success counts every entry, failure restores every count; starting in step with the kernel, success ends so, and so does a failure whose unrolling meets no further fault; without faults it fails only for unacceptable entries |
| `EpollDispatch.EntriesPartition` | 3rdparty/st-1.9/event.c:1281-1324 | every entry is kept or leaves, and none is counted twice |
| `EpollDispatch.Submit` | 3rdparty/st-1.9/sched.c:73-82 | the request is queued and counted, or nothing is |
| `EpollDispatch.Withdraw` | 3rdparty/st-1.9/sched.c:88-92 | taking a request off the queue takes it out of the counts and of the kernel's interest |
| `EpollDispatch.MarkFired` | 3rdparty/st-1.9/event.c:1271-1279 | reported events are recorded, and an error or hang-up counts as everything asked for |
| `EpollDispatch.NotifyAll` | 3rdparty/st-1.9/event.c:1281-1324 | exactly the requests with something to report leave the queue, in order, with their revents as recorded; NoticeTells ties these to the kernel's report |
| `EpollDispatch.NoticeTells` | 3rdparty/st-1.9/event.c:1281-1309 | each entry is told reading, writing or exception exactly as far as it asks for them and its descriptor was reported so, or with an error or hang-up, which are passed on as reported; a request is notified exactly if some event concerns one of its entries |
| `EpollDispatch.DeliveredFrom` | 3rdparty/st-1.9/event.c:1281-1324 | the requests that some event concerns leave with such revents, in queue order, and the others stay in order |
| `EpollDispatch.InterestExact` | 3rdparty/st-1.9/event.c:1190-1213 | when index and kernel agree, the kernel watches each descriptor for exactly what the queued requests ask for, direction by direction |
| `EpollDispatch.Settle` | 3rdparty/st-1.9/event.c:1326-1338 | descriptors that fired are unmarked and the kernel is told what is still asked for |
| `EpollDispatch.DispatchSyncs` | 3rdparty/st-1.9/event.c:1268-1339 | descriptors that did not fire were kept right on the way, and those that fired are put right at the end |
| `EpollDispatch.DispatchValid` | 3rdparty/st-1.9/event.c:1268-1339 | after dispatch the counts are those of the remaining queue, no descriptor is marked, and without faults the kernel agrees |
| `EpollDispatch.Dispatch` | 3rdparty/st-1.9/event.c:1227-1340 | from a valid state and a plausible report to a valid state, with the exact remaining queue; the notices tell every request that an event concerns, bit by bit, what the kernel reported |
| `EpollDispatch.ReportReachesRequest` | 3rdparty/st-1.9/event.c:1281-1309 | when index and kernel agree, every reported descriptor has an entry of a queued request that the event concerns, and that request is notified |
| `Select.Backend.constructor` | 3rdparty/st-1.9/event.c:160-170 | nothing is counted or set, and maxfd is -1 |
| `Select.Backend.PollsetAdd` | 3rdparty/st-1.9/event.c:172-204 | all entries are counted, their set bits are on and maxfd covers them, or one is unusable and nothing changes |
| `Select.Backend.PollsetDel` | 3rdparty/st-1.9/event.c:206-225 | the entries are taken out of the counts, and a set bit goes off exactly when its count reaches zero |
| `Select.Backend.Submit` | 3rdparty/st-1.9/sched.c:73-82 | the index stays that of the I/O queue; refused exactly for unusable entries |
| `Select.Backend.Withdraw` | 3rdparty/st-1.9/sched.c:88-92 | the index stays that of the I/O queue, and maxfd still covers it |
| `Select.Backend.Inspect` | 3rdparty/st-1.9/event.c:341-362 | the revents of a request, whether there is any, and a bound on its descriptors |
| `Select.Backend.Sweep` | 3rdparty/st-1.9/event.c:227-294 | the requests that the report concerns leave with their bits, in order; through the recomputation of maxfd, counts, sets and maxfd fit the remaining queue; the same loop serves bad descriptors |
| `Select.Backend.Dispatch` | 3rdparty/st-1.9/event.c:296-407 | each entry is told reading, writing and exception exactly where it asks for them and select left the bit set, or that it is bad; exactly the requests with something to report leave, in order, and the index fits what is left, for every outcome of select |
| `Select.AllDelivered` | 3rdparty/st-1.9/event.c:341-362 | what is computed request by request is what the sets say bit by bit |
| `Select.SetsExact` | 3rdparty/st-1.9/event.c:187-202 | a descriptor is in a set exactly if some queued request has an entry that asks for it |
| `IoVector.Vectors.Consume` | 3rdparty/st-1.9/io.c:652-663 | after accepting n bytes the vectors describe exactly the bytes after the first n |
| `IoVector.WritevResid` | 3rdparty/st-1.9/io.c:636-672 | it fails exactly if a write or a wait was refused; otherwise, unless the run is cut off, it returns 0 with every byte sent; each write is offered exactly what is left, and bytes sent and bytes left make up the original |
| `IoVector.StWrite` | 3rdparty/st-1.9/io.c:551-557 | it fails exactly if a write or a wait was refused; otherwise it returns the byte count with exactly those bytes sent |
| `IoVector.FindUnwritten` | 3rdparty/st-1.9/io.c:597-599 | the loop finds the vector and position of the first byte not written |
| `IoVector.Rebuild` | 3rdparty/st-1.9/io.c:612-621 | the rebuilt vectors are the rest of the original ones |
| `IoVector.StaysRoomy` | 3rdparty/st-1.9/io.c:601-610 | the space chosen at the first partial write is large enough for every later one |
| `IoVector.Writev` | 3rdparty/st-1.9/io.c:560-633 | it fails exactly if a write or a wait was refused; otherwise it returns the total with every byte sent once and in order; each write is offered exactly what is left |
| `AresList.InitListHead` | 3rdparty/c-ares/ares_llist.c:27-31 | the head alone is a ring |
| `AresList.InitListNode` | 3rdparty/c-ares/ares_llist.c:34-38 | the node is in no ring and carries its data |
| `AresList.IsListEmpty` | 3rdparty/c-ares/ares_llist.c:41-43 | true exactly when the ring is the head alone |
| `AresList.InsertInList` | 3rdparty/c-ares/ares_llist.c:46-52 | the ring has the new node before the old one and is otherwise the same, forwards and backwards |
| `AresList.RemoveFromList` | 3rdparty/c-ares/ares_llist.c:55-62 | the ring is the old one without the node, and a node in no ring may be removed |
| `AresList.SwapLists` | 3rdparty/c-ares/ares_process.c:687-709 | the two heads have exchanged the rest of their rings, also when one or both are empty |
| `AresState.TimeAddExact` | 3rdparty/c-ares/ares_process.c:109-118 | timeadd adds exactly that many milliseconds, and a positive addition gives an instant that has not passed |
| `AresState.TimedOutIsOrder` | 3rdparty/c-ares/ares_process.c:94-106 | ares__timedout compares the two instants |
| `AresState.BackoffFits` | 3rdparty/c-ares/ares_process.c:880-899 | the doubled timeout stays positive and within an int |
| `AresState.BackoffIs` | 3rdparty/c-ares/ares_process.c:880-899 | the wait is the configured timeout doubled once per completed round over the servers, and not doubled at all where that would not fit an int |
| `AresState.NextServerOf` | 3rdparty/c-ares/ares_process.c:775 | stepping to the next server, modulo their number, goes from the server of one attempt to that of the following one |
| `AresInvariant.ArmSettles` | 3rdparty/c-ares/ares_process.c:901-917 | a sent query is linked in the bucket of its new timeout and in the list of its server, and nowhere else; all others are untouched |
| `AresInvariant.EndSettles` | 3rdparty/c-ares/ares_process.c:1357-1443 | an ended query is in none of the four lists, no queued send request points to it any more, and its callback has been made; all others are untouched |
| `AresInvariant.EndBreaks` | 3rdparty/c-ares/ares_process.c:1366-1424 | a connection is marked broken exactly if a failed query's request was still queued on it, and all sockets are closed when no query is left, unless they are to stay open |
| `AresInvariant.GoneDisowned` | 3rdparty/c-ares/ares_process.c:1366-1410 | no send request on any queue refers to a query that has ended |
| `AresInvariant.LinkedOnce` | 3rdparty/c-ares/ares_send.c:119-131 | between calls every active query is linked once in all_queries, once in the bucket of its qid, once in the bucket of its timeout second and once in its server's list, and in no other bucket or list |
| `AresInvariant.NothingElseLinked` | 3rdparty/c-ares/ares_process.c:1427-1433 | what is not active is in no list |
| `AresInvariant.CalledBackOnce` | 3rdparty/c-ares/ares_process.c:1412-1414 | every call of ares_send is active or has had its callback exactly once; ares__send_query was called for it at most max(1, nservers * tries) + 2 times; and a callback with a timeout or refused connection comes only when all nservers * tries attempts are counted |
| `AresProgress.ProgressStep` | 3rdparty/c-ares/ares_process.c:555-562 | advancing one expired query advances it once and leaves the others as they were |
| `AresProgress.PendingMoved` | 3rdparty/c-ares/ares_process.c:552-563 | moving the query at the saved position, even to the end of the same bucket, loses none of those still to be visited, and fewer are expired than before |
| `AresProgress.PendingStart` | 3rdparty/c-ares/ares_process.c:550-551 | the queries due in a second are in that second's bucket |
| `AresProgress.EvictStep` | 3rdparty/c-ares/ares_process.c:730-738 | each query of the stolen list leaves it and the failed server, sent again or ended |
| `AresProgress.ServerEmptied` | 3rdparty/c-ares/ares_process.c:746-760 | with another server to go to, a failed server is left without queries |
| `AresProgress.BucketSearch` | 3rdparty/c-ares/ares_process.c:595-606 | searching the bucket of an id finds the same query as searching all of them |
| `AresProgress.FirstMatchIs` | 3rdparty/c-ares/ares_process.c:597-606 | the search gives the first match, or there is none |
| `AresProgress.CreateKeeps` | 3rdparty/c-ares/ares_send.c:72-131 | a new query is registered and is the only one not yet linked by timeout and server |
| `AresEngine.Channel.constructor` | 3rdparty/c-ares/ares_init.c:2599-2620 | a channel without queries satisfies the invariant; its servers are shut and their connections are numbered from 1 to the number of servers |
| `AresEngine.NewQueryUnsent` | 3rdparty/c-ares/ares_send.c:104-111 | a new query counts as not sent over any connection, the servers' first ones included |
| `AresEngine.Channel.EndQuery` | 3rdparty/c-ares/ares_process.c:1357-1425 | the query is freed and called back once, with its timeouts; nothing queued refers to it; connections break and close as they should |
| `AresEngine.Channel.SkipServer` | 3rdparty/c-ares/ares_process.c:746-761 | the server is noted for the query if there are others |
| `AresEngine.Channel.NextServer` | 3rdparty/c-ares/ares_process.c:763-803 | without a socket failure the query is sent to the server of the first attempt below nservers * tries whose server is not broken, not skipped and, over TCP, on a connection not used before, and it ends exactly if there is none; with failures it still ends up on such a server or has used all attempts; the one request that counts is handed to the server it then waits for, and all other queries are untouched |
| `AresEngine.Channel.TryNext` | 3rdparty/c-ares/ares_process.c:771-797 | one round of the loop: the next server in turn is used exactly if it may be, or the attempt is counted as passed |
| `AresEngine.Channel.WriteTcp` | 3rdparty/c-ares/ares_process.c:812-855 | on success the connection is open, the request is at the end of its queue and its connection noted, a new one if it had to be opened; it fails exactly if a socket call fails |
| `AresEngine.Channel.WriteUdp` | 3rdparty/c-ares/ares_process.c:857-874 | on success the socket is open and the request handed over; it fails exactly if a socket call fails; nothing about the query changes |
| `AresEngine.Channel.ArmQuery` | 3rdparty/c-ares/ares_process.c:876-918 | the query waits for the time of BackoffIs |
| `AresEngine.Channel.Write` | 3rdparty/c-ares/ares_process.c:811-874 | only the server the query is on is affected, and on success the socket of the right kind is open |
| `AresEngine.Channel.SendQuery` | 3rdparty/c-ares/ares_process.c:805-918 | without a socket failure the query is sent to the server it is on, in the same attempt; under any failures it ends, with the query armed until after now and handed to the server it waits for, or ended with all attempts used; within the send budget |
| `AresEngine.Channel.SweepBucket` | 3rdparty/c-ares/ares_process.c:551-563 | no query due in that second or before is left expired |
| `AresEngine.Channel.ProcessTimeouts` | 3rdparty/c-ares/ares_process.c:538-566 | exactly the queries that a scan of all would find expired are advanced, each once, with one more timeout and status ARES_ETIMEOUT; those left active were handed to the server they now wait for, and no active query has a timeout at or before now |
| `AresEngine.Channel.HandleError` | 3rdparty/c-ares/ares_process.c:711-744 | both assertions hold; every query of the server was sent again, and handed to the server it now waits for, or ended; no other query is touched, and with several servers none is left on this one and its connections stay closed; no connection is newly broken unless a query was ended, and no other one is mended while queries are left |
| `AresEngine.Channel.WriteData` | 3rdparty/c-ares/ares_process.c:226-324 | a server with nothing queued, no connection or a broken one is left alone; otherwise the queue is offered to the system once, and exactly the requests it takes leave the front, nothing happens, or the error is handled, as the system answers |
| `AresEngine.Channel.ProcessBrokenConnections` | 3rdparty/c-ares/ares_process.c:672-684 | every query that was on a broken server was sent again, and handed to the server it now waits for, or ended; a query left active is otherwise as it was; afterwards no server is broken unless a query was ended in the call |
| `AresEngine.Channel.Send` | 3rdparty/c-ares/ares_send.c:35-136 | a query is active and waiting, or was called back with the right status; without a socket failure it was sent to the server chosen before in rotation; no other query is touched |
| `AresEngine.Channel.Launch` | 3rdparty/c-ares/ares_send.c:72-136 | the new query is active and waiting in the form its length calls for, or was called back; without a socket failure its first attempt is on the last server chosen; the next one is chosen in rotation if asked for |
| `AresEngine.Channel.FindQuery` | 3rdparty/c-ares/ares_process.c:595-606 | the bucket lookup finds what a scan of all queries finds first |
| `AresEngine.Channel.FallBack` | 3rdparty/c-ares/ares_process.c:616-636 | EDNS is switched off and the query is sent again without it, to the same server unless a socket call fails, or has failed |
| `AresEngine.Channel.Upgrade` | 3rdparty/c-ares/ares_process.c:642-651 | the query is sent again over TCP, to the same server unless a socket call fails, or has failed |
| `AresEngine.Channel.Refused` | 3rdparty/c-ares/ares_process.c:660-667 | a query on the refusing server moves to the first server open to it, unless a socket call fails, or has failed; one on another server only notes it |
| `AresEngine.Channel.Accept` | 3rdparty/c-ares/ares_process.c:668 | the query ends with success and leaves all lists |
| `AresEngine.Channel.ProcessAnswer` | 3rdparty/c-ares/ares_process.c:569-670 | no match or a short packet changes nothing; otherwise only the matched query is concerned, in the way the answer calls for, and it succeeds exactly for an acceptable answer |
| `TcpStream.FramesOfStream` | 3rdparty/c-ares/ares_send.c:84-90 | reading a stream of length-prefixed non-empty messages gives back the messages |
| `TcpStream.LengthFirst` | 3rdparty/c-ares/ares_send.c:84-90 | the length comes first, most significant byte first, and the first message read from a stream is as long as its first two bytes say |
| `TcpStream.FramesExtend` | 3rdparty/c-ares/ares_process.c:397-455 | what arrives later only adds to what was read |
| `TcpStream.Reader.Receive` | 3rdparty/c-ares/ares_process.c:397-455 | however recv cuts the stream, the messages handed on are those of a direct parse of all bytes received |
| `TcpStream.Reader.StuckOnEmptyMessage` | 3rdparty/c-ares/ares_process.c:428-441 | nothing is left to ask recv for exactly when a length of zero was read |
| `TcpStream.ReadZeroLength` | 3rdparty/c-ares/ares_process.c:397-441 | after the two bytes of a zero length the reader wants nothing more |
| `TcpStream.SendQueue.Enqueue` | 3rdparty/c-ares/ares_process.c:842-852 | the bytes are appended and qhead and qtail delimit the queue |
| `TcpStream.SendQueue.Advance` | 3rdparty/c-ares/ares_process.c:297-324 | exactly the first n queued bytes are dropped, and qhead and qtail delimit what is left |
| `DnsNames.TextRoundTrip` | 3rdparty/c-ares/ares_create_query.c:138-172 | reading a name's escaped text gives its labels, with and without a final period |
| `DnsNames.TextExample` | 3rdparty/c-ares/ares_expand_name.c:113-125 | periods and backslashes of a label are escaped: a name written out |
| `DnsNames.WalkExact` | 3rdparty/c-ares/ares_expand_name.c:143-198 | a name is accepted exactly when it is well formed and follows at most min(alen, 50) pointers, and then its labels are read |
| `DnsNames.CompressedName` | 3rdparty/c-ares/ares_expand_name.c:154-172 | a name that ends in a pointer of two bytes, its offset below the two top bits, is the labels before it and the name at that offset |
| `DnsNames.WireRoundTrip` | 3rdparty/c-ares/ares_expand_name.c:101-129 | a name written out in full is read back wherever it stands in a message |
| `DnsNames.EncLenInside` | 3rdparty/c-ares/ares_expand_name.c:108-129 | the encoded length of an accepted name stays in the message |
| `DnsNames.LabelsNonEmpty` | 3rdparty/c-ares/ares_create_query.c:140-143 | an accepted text has no empty label |
| `DnsCodec.NameLength` | 3rdparty/c-ares/ares_expand_name.c:143-198 | it ends for every message, reads only inside it, and returns the length of the text, or -1 exactly for names that cannot be read |
| `DnsCodec.WriteText` | 3rdparty/c-ares/ares_expand_name.c:101-136 | the unchecked pass follows the same path, reads only inside the message and fills the buffer exactly |
| `DnsCodec.ExpandName` | 3rdparty/c-ares/ares_expand_name.c:65-138 | the buffer holds the text and a zero, enclen is the encoded length and stays in the message; refused exactly when the name cannot be read |
| `DnsCodec.WriteName` | 3rdparty/c-ares/ares_create_query.c:138-172 | the labels are written in wire form within the space of the name plus one; refused exactly for an empty or long label |
| `DnsCodec.CreateQuery` | 3rdparty/c-ares/ares_create_query.c:87-199 | read back byte by byte with the offsets of the standard, the message is a query with this identifier, one question with this name, type and class, an EDNS record of this size exactly if asked for, and nothing after it; it is within the allocated size for every name; names are refused exactly when they are onion names, malformed or longer than 255 bytes |
| `DnsCodec.MessageAsks` | 3rdparty/c-ares/ares_create_query.c:115-189 | header, name, question and EDNS record are what a receiver reads at their offsets |
| `DnsCodec.OnionEnds` | 3rdparty/c-ares/ares_create_query.c:101-103 | names under onion are told by their end, in either case, with or without a final period |
| `DnsCodec.EncodeThenExpand` | 3rdparty/c-ares/ares_create_query.c:137-175 | for every list of non-empty zero-free labels that fits, the escaped text is encoded and read back at offset 12, with enclen the encoded length |
| `DnsCodec.ExpandIsCanonical` | 3rdparty/c-ares/ares_expand_name.c:65-138 | any accepted spelling is read back as the escaped text of its labels, which encodes to the same message |
| `Ipv6Text.V4RoundTrip` | 3rdparty/c-ares/inet_net_pton.c:226-267 | getv4 undoes inet_ntop4 |
| `Ipv6Text.ScanFits` | 3rdparty/c-ares/inet_net_pton.c:297-344 | the scan never writes past the 16 bytes, and the gap is inside what was written |
| `Ipv6Text.ShiftOpens` | 3rdparty/c-ares/inet_net_pton.c:355-371 | the overlapping shift moves the bytes after the gap to the end and leaves zeros |
| `Ipv6Text.RoundTrip` | 3rdparty/c-ares/inet_net_pton.c:270-387 | wherever a run of zeros is written as ::, and in the embedded IPv4 forms, parsing gives the words back |
| `Ipv6Text.AddressRoundTrip` | 3rdparty/c-ares/inet_ntop.c:107-196 | for every 16-byte address, parsing what is printed gives 128 bits and the same 16 bytes |
| `Ipv6Text.FormFits` | 3rdparty/c-ares/inet_ntop.c:117 | every printed address and its zero fit in the temporary buffer |
| `Ipv6Text.NoPrefixLength` | 3rdparty/c-ares/inet_net_pton.c:345-371 | without a prefix length only whole addresses are accepted, and the shift stays in the buffer; UnspecifiedExactly has the texts for which it does not |
| `Ipv6Limits.BitsExactly` | 3rdparty/c-ares/inet_net_pton.c:194-222 | a prefix length is accepted exactly when it is a number up to 128 as it is printed |
| `Ipv6Limits.UnspecifiedExactly` | 3rdparty/c-ares/inet_net_pton.c:345-371 | the shift for :: would leave the buffer exactly for groups, a gap, more than max(2, (n + 15) / 16) groups and a prefix length n, at most eight groups in all; whether a text is of this form can be computed from the text |
| `Ipv6Limits.UnspecifiedHappens` | 3rdparty/c-ares/inet_net_pton.c:360-371 | a text of this form |
| `Ipv6Limits.ZeroExactly` | 3rdparty/c-ares/inet_net_pton.c:313-326 | 0 is returned exactly when eight groups have been read and a ninth has a colon after it that does not end the text, with nothing malformed before; this too can be computed from the text |
| `Ipv6Limits.ZeroHappens` | 3rdparty/c-ares/inet_net_pton.c:319-320 | a text for which 0 is returned |
| `Ipv6Prefixes.PrefixedGroups` | 3rdparty/c-ares/inet_net_pton.c:269-387 | n groups and a prefix length are accepted exactly if there are max(2, (length + 15) / 16) of them; the bytes are the first (length + 7) / 8 of the groups, and the call fails if they do not fit |
| `Ipv6Prefixes.CaseDoesNotMatter` | 3rdparty/c-ares/inet_net_pton.c:271-312 | texts that differ in the case of letters only are parsed alike |
| `Ipv6Prefixes.DocumentationAddress` | 3rdparty/c-ares/inet_net_pton.c:269-387 | 2001:DB8::AB:1 written out in bytes |
| `Ipv6Prefixes.MappedForm` | 3rdparty/c-ares/inet_ntop.c:159-184 | ::ffff:192.0.2.1 is printed so |
| `Ipv6Code.WordsFromBytes` | 3rdparty/c-ares/inet_ntop.c:128-130 | the words are the pairs of bytes |
| `Ipv6Code.LongestRun` | 3rdparty/c-ares/inet_ntop.c:131-154 | the run is the leftmost longest one of at least two zero words, or there is none |
| `Ipv6Code.PrintWords` | 3rdparty/c-ares/inet_ntop.c:159-184 | the text is the form with that run as :: and the IPv4 ending where it applies, inside the buffer |
| `Ipv6Code.Ntop4` | 3rdparty/c-ares/inet_ntop.c:87-100 | the dotted form, or nothing if it does not fit |
| `Ipv6Code.Ntop6` | 3rdparty/c-ares/inet_ntop.c:107-196 | dst gets the form of the leftmost longest run and a zero exactly when they fit in size bytes, and is untouched otherwise |
| `Ipv6Code.ReadBits` | 3rdparty/c-ares/inet_net_pton.c:194-222 | a number up to 128 without leading zeros, up to the end of the text |
| `Ipv6Code.ReadV4` | 3rdparty/c-ares/inet_net_pton.c:225-267 | the octets are written where they belong and nothing else changes; accepted exactly for the accepted forms |
| `Ipv6Code.ScanText` | 3rdparty/c-ares/inet_net_pton.c:297-338 | the loop leaves in tmp exactly what the text spells, with zeros after it |
| `Ipv6Code.MoveUp` | 3rdparty/c-ares/inet_net_pton.c:355-371 | the shift in place is the byte-by-byte move when the bytes fit before the chosen end, and it stops at the first write outside the buffer exactly when they do not |
| `Ipv6Code.Pton6` | 3rdparty/c-ares/inet_net_pton.c:269-387 | the result is that of Parse for every text, and dst gets exactly the address bytes or stays as it was; Unspecified stands for the source leaving its buffer and is the result exactly for the texts of UnspecifiedExactly, and Zero exactly for those of ZeroExactly |
| `AddressOrder.RanksFollowPolicy` | 3rdparty/c-ares/ares__sortaddrinfo.c:145-250 | label and precedence are those of the longest matching prefix in the policy table of section 2.1 of RFC 6724, for every IPv6 address except exactly the unspecified one |
| `AddressOrder.EveryAddressHasPolicy` | 3rdparty/c-ares/ares__sortaddrinfo.c:145-250 | the policy table has an entry for every IPv6 address |
| `AddressOrder.UnspecifiedAddressDisagrees` | 3rdparty/c-ares/ares__sortaddrinfo.c:145-250 | for the unspecified address the table has label 3 and precedence 1, the code label 1 and precedence 40 |
| `AddressOrder.ScopeFollowsPrefixes` | 3rdparty/c-ares/ares__sortaddrinfo.c:89-116 | the scope of an IPv6 address by the multicast, loopback, link-local and site-local prefixes |
| `AddressOrder.ScopeOfV4` | 3rdparty/c-ares/ares__sortaddrinfo.c:117-135 | 127.0.0.0/8 and 169.254.0.0/16 are link-local, all other IPv4 addresses global |
| `AddressOrder.CommonPrefixLen` | 3rdparty/c-ares/ares__sortaddrinfo.c:256-280 | the number of leading bits that are equal |
| `AddressOrder.BeforeIs` | 3rdparty/c-ares/ares__sortaddrinfo.c:286-374 | the comparison is lexicographic on rules 1, 2, 5, 6 and 8, then rule 9 between two it concerns, then the original order |
| `AddressOrder.BeforeTotal` | 3rdparty/c-ares/ares__sortaddrinfo.c:286-374 | two elements from different places are ordered, one way only, and the result is antisymmetric |
| `AddressOrder.BeforeIrreflexive` | 3rdparty/c-ares/ares__sortaddrinfo.c:286-374 | no element comes before itself |
| `AddressOrder.CycleExactly` | 3rdparty/c-ares/ares__sortaddrinfo.c:351-373 | three elements form a cycle exactly when an address of another family stands in the list between two IPv6 ones that rule 9 puts the other way round |
| `AddressOrder.BeforeTransitive` | 3rdparty/c-ares/ares__sortaddrinfo.c:286-374 | with one destination family the comparison is transitive, hence a strict total order |
| `AddressOrder.MixedFamiliesCycle` | 3rdparty/c-ares/ares__sortaddrinfo.c:351-373 | with families mixed there is a cycle of three addresses |
| `AddressOrder.ExampleScopes` | 3rdparty/c-ares/ares__sortaddrinfo.c:303-316 | an address whose source has its scope comes first, whichever the family, as in the examples of section 10.2 of RFC 6724 |
| `AddressOrder.ExampleSmaller` | 3rdparty/c-ares/ares__sortaddrinfo.c:345-349 | a link-local destination comes before a global one |
| `AddressOrder.ExamplePrefix` | 3rdparty/c-ares/ares__sortaddrinfo.c:351-368 | the destination that shares more bits with its source comes first |
| `AddressSort.Collect` | 3rdparty/c-ares/ares__sortaddrinfo.c:450-480 | the array has the list's nodes in order with their places and addresses |
| `AddressSort.Relink` | 3rdparty/c-ares/ares__sortaddrinfo.c:486-491 | the list is exactly the nodes in the order of the array, a permutation of the old list; the first element is there exactly when the list is not empty |
| `AddressSort.SortAddrInfo` | 3rdparty/c-ares/ares__sortaddrinfo.c:443-495 | the list keeps its nodes; if a source address could not be looked up it is unchanged, and otherwise, with one destination family, the relinked list is in the order of the comparison |
| `AddressSort.QsortOrders` | 3rdparty/c-ares/ares__sortaddrinfo.c:481-484 | sorting with the comparison orders elements of one family from different places |
| `AddressSort.SortedUnique` | 3rdparty/c-ares/ares__sortaddrinfo.c:481-484 | the sorted array does not depend on how it was sorted |
| `AddressSort.NeighboursSuffice` | 3rdparty/c-ares/ares__sortaddrinfo.c:481-484 | elements of one list that are in order pairwise next to each other are in order throughout |

## Left out

- The kqueue and poll backends, and the branches that re-initialise a backend after `fork`.
- Stacks, real context switching, `st_active_count`, the cached `time()` and the thread-specific data of State Threads.
- Failure of memory allocation, everywhere.
- Use of a thread after its final exit, and joining a thread twice: taken as preconditions of the steps.
- `st_cond_destroy` and `st_mutex_destroy`, which only check that nobody waits.
- The bodies of `st_cond_timedwait`, `st_usleep`, `st_poll`, `st_thread_exit` and `st_thread_join` around their switch point are value functions of module `Scheduler` only; update in place is modelled for the calls of `SchedulerCode`.
- `st_readv_resid`, `st_read_fully` and the plain `st_read` and `st_readv`: the same loop as for writing, with the end of file added.
- SchedulerRuns.LeavesCondWait: says which step ends a wait, not how long a wait lasts; there is no fairness in the model.
- IoVector.Writev: a run is cut off after any chosen number of system calls, since the code may wait for ever.
- Re-entrant callbacks, `ares_cancel`, `ares_destroy` and changes of the server list: the run invariants of the query engine are for runs without them.
- The bytes of queries, in particular the rewriting and reallocation in the EDNS fallback, and the copies that `end_query` makes of requests still queued: the engine knows only which query a queued request belongs to.
- `same_questions` is a parameter of the answer lookup, and query identifiers are not assumed unique.
- AresEngine.Channel.ProcessBrokenConnections: does not say which servers are broken after a call in which a query ended, because ending a query can break another connection.
- The scans of the send queues and servers in `end_query` and `ares__close_sockets` are value functions; the four lists of the engine are sequences, and the pointers are those of `AresList`.
- `inet_net_pton_ipv4`, the `errno` values, and the sizes of C's integers where they cannot be exceeded.
- `find_src_addr`: the source addresses are what this call returns. An insertion sort stands in for `qsort`; `SortedUnique` shows that any sort gives the same with one destination family, and with mixed families the order of the list is left open.
- SleepQueue.ParkTimed: the moves that do not use the sleep queue are not repeated on the thread objects.
- Configuration, hosts files, platform code, command-line tools and the proxy itself.
