# fjx-fiber: a verified model

fjx-fiber runs many stackful fibers on a few worker threads. Fibers suspend, move between
workers, and wait on mutexes, semaphores, channels and a timer. Nearly every record in a queue
lives on the stack of the suspended fiber that it describes, so what keeps the library correct
is the order of saving a context, publishing a record, popping it, reading it and resuming its
fiber. This project models that order, and the data structures under it, and proves what it is
there for.

Each protocol is a state machine: a `State`, a function `Step` that performs one shared access
or one region under a lock, an invariant `Inv` that every step keeps, and theorems about the
state after any number of threads or fibers took any steps in any order. Next to what every step
keeps stands what it is for: that each operation has its effect, and that each call ends after so
many steps of its own thread, whatever the others do between. Beside most machines stands a
class whose methods update the fields in place: `Advance` makes exactly that step and keeps the
invariant, and `Execute` runs it, so what is proved of all runs holds of the fields. The intrusive
list, the tree, the timer built on both and the loops of `enqueue_fiber_list` are heap objects
throughout.

| file | what it models |
|---|---|
| `Scheduler.dfy` | the queue, the idle threads, slots and semaphores of the workers, switches with deferred calls |
| `Journeys.dfy` | where the fibers of that machine go: what they ask for, how they get there, in which order |
| `Runtime.dfy` | that state updated in place |
| `Records.dfy` | the words under that state: links in records and threads, pairs on stacks, local pointers |
| `BatchEnqueue.dfy` | `enqueue_fiber_list` and its siblings as loops over linked lists, under interference |
| `McshLock.dfy`, `QSpinLock.dfy` | the queue locks, one shared access per step |
| `RwLock.dfy`, `ThreadSemaphore.dfy` | what is built from a mutex and a condition variable |
| `Channel.dfy`, `Mutex.dfy`, `Semaphore.dfy` | what fibers wait on |
| `ChannelCalls.dfy` | what becomes of each call on a channel, and of whoever is parked on it |
| `Sieve.dfy` | the prime sieve demo as a client of channels |
| `Circles.dfy`, `ListLinks.dfy` | what a circular list is, and the list operations on a map of links |
| `IntrusiveTree.dfy`, `IntrusiveList.dfy` | nodes with tree links and list links, rotations, splay, splices |
| `Timespec.dfy`, `Timer.dfy`, `TimerThread.dfy` | deadlines, the timer's two indexes, its thread |
| `StackPool.dfy`, `Amd64.dfy` | stack blocks by address, and the words of a context switch |

All threads see one sequentially consistent memory. Time is an input: the clock may show
anything at any reading. Allocation is an input too: a new stack block overlaps no other and
ends at a multiple of 16.

What the proofs found out about the code:

- `fiber_mutex_destroy` lets every waiter return from its lock as if it owned the mutex, so
  exclusion survives a destroy exactly when nobody waited (`Mutex.DestroyAndExclusion`, with a run
  in which it does not, `Mutex.DestroyCanBreakExclusion`).
- `fiber_sleep` never wakes early, for negative durations too, but it wakes as soon as the time
  has passed, whatever the clock shows at the call, only if the duration's nanoseconds are not
  negative (`TimerThread.OnTimeForEveryStart`): C's division leaves a negative remainder, which
  `timespec_comp` then compares as it is.
- The frame of the first deferred call pushed on a new fiber's stack covers exactly the link in
  the record that `fiber_spawn_impl` put below the fiber's first frame, and not the saved stack
  pointer (`Amd64.SpawnRecord`). By then nobody reads that link: from the moment a record is
  popped its link may hold anything at any time, in every run (`Records.LinksAreTheLists`,
  `Records.PointersAreRight`).
- A channel is still read after its lock is released, for the size of an item, so it must not
  be destroyed while a call copies; the machine has that as a condition of use
  (`Channel.FreedIsUnused`).

## Model

| member | source | states |
|---|---|---|
| `Scheduler.StepInv` | src/scheduler.c:52-227 | Every step of every worker, fiber and of the timer thread keeps the invariant: lists without repetition whose members know where they are, agents whose hands, slots and pending calls match the fibers' places, ready fibers and idle threads never together |
| `Scheduler.ReachableInv` | src/work-thread.c:15-30 | The invariant holds after every run from the start, for any number of workers, wait objects and fibers |
| `Scheduler.ExactlyOnePlace` | src/scheduler.c:52-227 | A fiber is found in exactly one place: running on one worker, queued, on one wait or timer list, in one agent's hands or private batch, in one thread's slot, inside one pending callback, or disposed; none is lost, duplicated or run by two workers |
| `Scheduler.SaveBeforePublish` | src/fiber.c:10-52 | Any record that another agent can reach already holds its own saved context; on a wait list the only exception is the fiber that still holds the lock of that list |
| `Scheduler.SwitchLoadsSavedContext` | src/fiber.c:10-12 | Whatever a worker is about to load is the saved context of a suspended fiber other than the current one, or that worker's own loop |
| `Scheduler.WorkConservation` | src/scheduler.c:152-218 | The fiber queue and the idle-thread list are never both non-empty |
| `Scheduler.EveryWorkerSeatedOnce` | src/work-thread.c:16-25 | A parked worker is idle, in exactly one agent's hands, or signalled; it is signalled at most once before it wakes, and its slot then holds a fiber |
| `Scheduler.NoUseAfterResume` | src/scheduler.c:161-233 | Once a fiber's stack pointer is in a slot or in the record of a fiber about to switch to it, or the fiber runs, or its block is reclaimed, the stack pointer in its own record may be anything: the step of every other agent is the same |
| `Journeys.GoesWhereItAsked` | src/fiber.c:26-56 | With a history of what each fiber asked for last: in every run a fiber has asked to exit exactly when it is leaving for good, in the callback that disposes of it, disposed of, or its block is reclaimed, so it is never queued, held, batched or in a slot again; who is in the timer asked to sleep, who waits for something asked for that; who asked to yield and is not on the way is queued or runs |
| `Journeys.OrdersAreObeyed` | src/fiber.c:26-52 | In every run: sleep and exit leave, to be published by their own callback; yield leaves, and the oldest ready fiber is taken, if there is one; a waker takes the oldest waiter into its hands and goes on, or hands its worker over to it; close and destroy take all waiters in order; who has to wait is on the list with its lock held; and a spawn reuses the block that was disposed of first, if there is one |
| `Journeys.OnlyTheCarrierMoves` | src/scheduler.c:152-227 | In every run, each step of the one agent that carries a fiber on the way brings it nearer or makes it settle, and no step of another agent changes where it is; likewise for the release of the lock of a wait object by the fiber that waits on it |
| `Journeys.EverybodyArrives` | src/scheduler.c:152-227 | From every reachable state, whatever the others do, a fiber is on the way for fewer steps of its carriers than it has left |
| `Journeys.LeftIsPositive` | src/scheduler.c:152-227 | That is at most 8, unless the fiber is in a batch |
| `Journeys.CallbacksPublish` | src/fiber.c:26-52 | In every run a callback releases the lock it is for, or finds its fiber saved and publishes it: on the way to the queue, in the timer, or at the end of the disposed list |
| `Journeys.LoopsServe` | src/work-thread.c:15-30 | A worker in its loop takes the oldest ready fiber, or parks at the end of the idle list; the timer thread takes the first nodes as a batch, in order |
| `Journeys.SpawnMakesOne` | src/fiber.c:77-89 | A spawn makes one fiber, with a context to load, which is on the way in the hands of the fiber that spawns it |
| `Journeys.StepInOrder` | src/scheduler.c:52-233 | Every step serves the queue, the idle and disposed lists and every wait list first in, first out: one or a batch goes to the end, the head is taken into hands, or all are taken in order; only spare threads of a batch go back in front |
| `Journeys.ThreadsAreServed` | src/scheduler.c:141-224 | In every run whoever takes an idle thread brings it, by each of its steps, nearer to a fiber in its slot and one signal, or back to the idle list; a signalled thread awakes by its own step; nobody else touches it |
| `Journeys.WhatIsBegunEnds` | src/scheduler.c:152-227 | In every run each step of an agent outside ordinary code brings it nearer to that, unless a batch finds all ready fibers or all idle threads to go on with; a parked agent goes on exactly when it is signalled |
| `Records.LinksAreTheLists` | src/scheduler.c:52-233 | In every run, every word that is not in use being overwritten at any time with anything, the links in memory make of the queue, the idle list, the disposed list and every wait list the circle of exactly the fibers or threads on it, in order |
| `Records.PointersAreRight` | src/scheduler.c:59-227 | What a thread has read through links is what it should have: the record popped, the idle thread popped, and, in a batch, the next fiber and the next thread, read before the signal |
| `Records.PairsAreRight` | src/scheduler.c:169-233 | A deferred call finds its pair as it was written, and so does the second read, through which the disposed list or the timer is unlocked; until that unlock the fiber is on the list and the lock is held |
| `Records.OnlyLocksDelay` | src/scheduler.c:229-233 | Reading through those words never sends a step astray: while neither lock is held every step is the machine's own, and an unlock always succeeds |
| `Records.NothingIsReadAfterResume` | src/scheduler.c:161-233 | From then on the whole record, link and stack pointer, and the pair on the fiber's stack may hold anything: the step of every other agent is the same, with those words left as they are |
| `Records.PoppedThreadsLinkIsFree` | src/scheduler.c:141-200 | A thread's link, once it is popped, is neither read nor written by others until it is on a list again |
| `Records.LStepAgree` | src/scheduler.c:52-233 | Every step, with its pointer operations, keeps links, local pointers, pairs and locks in agreement with the machine |
| `Runtime.Sched.Advance` | src/scheduler.c:52-233 | Whatever a thread does next, over the fields in place, is the machine's step and keeps the invariant; what the code of a fiber asks for, it gets: exit, sleep and yield leave with their own callbacks, a waker takes the oldest waiter, who waits is on the list |
| `Runtime.Sched.Execute` | src/work-thread.c:15-30 | Any threads in any interleaving, run in place from the start, leave the fields of a reachable state, for which all of the above holds |
| `Runtime.BatchStepIsRegion` | src/scheduler.c:180-218 | Every step of a batch in the step machine leaves the shared lists alone or is one of the regions of the loops, with the same final lists |
| `BatchEnqueue.Dispatcher.EnqueueFiberList` | src/scheduler.c:174-227 | Under any interference between its locked regions, over linked lists: fibers received and re-taken, in order, are those handed to threads followed by those queued; threads stolen, in order, are those handed a fiber and signalled followed by those put back; the shared lists are circles at the last release with what was given back in its place; every region is one of the four allowed changes |
| `BatchEnqueue.Dispatcher.ServeThreads` | src/scheduler.c:190-224 | The inner loop ends, on the number of stolen unused threads, and gives threads back only in front of the idle ones and only when the queue is empty |
| `BatchEnqueue.Dispatcher.MatchPairs` | src/scheduler.c:191-203 | Although everything handed over is overwritten from its signal on, the innermost loop walks to the right nodes, writes slots and signals pairwise until one list ends, and leaves the rest of both lists linked |
| `BatchEnqueue.Dispatcher.Relink` | src/scheduler.c:204-223 | Linking the place where the walk stopped to the sentinel makes the rest a circle again |
| `BatchEnqueue.EachThreadKeepsItsFiber` | src/scheduler.c:198-199 | When no thread is served twice, each thread's slot ends with its own fiber |
| `BatchEnqueue.RegionConserves` | src/scheduler.c:181-218 | Each allowed region keeps ready fibers and idle threads apart; giving threads back does so because of the re-check |
| `BatchEnqueue.Dispatcher.EnqueueFiber` | src/scheduler.c:152-167 | The first idle thread gets the fiber in its slot and then one signal, or the fiber goes to the end of the queue |
| `BatchEnqueue.Dispatcher.GetAvailableFiber` | src/scheduler.c:52-66 | The head of the queue leaves it, or nothing changes and the caller is told so |
| `McshLock.MutualExclusionInOrder` | src/mcsh-lock.c:9-47 | At most one thread is between passing its await and the store in unlock, and it is the oldest tail exchange that is not released |
| `McshLock.OneWaiterOnLockMsg` | src/mcsh-lock.c:17-19 | At most one thread waits on the lock's own message word |
| `McshLock.PointersAreLive` | src/mcsh-lock.c:20-46 | Nobody stores through a null pointer, and a pointer to another thread's node is held only while its owner is inside lock |
| `McshLock.DeadNodesAreNotTouched` | src/mcsh-lock.c:10-46 | Whatever a node outside lock holds, every other thread's step is the same, also when the address serves its owner again |
| `McshLock.SomeoneProgresses` | src/mcsh-lock.c:9-47 | While somebody is queued, the oldest thread or the one behind it can go on |
| `McshLock.StepsBringNearer` | src/mcsh-lock.c:9-47 | A thread outside begins with its next step, and from then on every step that does anything brings it nearer to the return from unlock |
| `McshLock.EverybodyGetsOut` | src/mcsh-lock.c:9-47 | From every reachable state there is a continuation, of at most the steps that are left, after which every thread has got the lock and returned it |
| `McshLock.Memory.Advance` | src/mcsh-lock.c:9-47 | One access of the code, in place, is one step of the machine |
| `McshLock.StepInv` | src/mcsh-lock.c:9-47 | Every access keeps the order of exchanges, the chain of nodes, the tail and the message word consistent |
| `QSpinLock.McsExclusionInOrder` | src/mcs-lock.c:16-47 | At most one thread holds the MCS lock, in the order of the exchanges |
| `QSpinLock.SpinExclusion` | src/qspinlock.c:16-31 | At most one thread is between its store to `locked` and the store that clears it, `locked` is set exactly then, and a thread about to set it finds it clear, although test and set are two accesses |
| `QSpinLock.PointersAreLive` | src/mcs-lock.c:16-47 | A pointer to another thread's node is held only while its owner is in the MCS lock |
| `QSpinLock.DeadNodesAreNotTouched` | src/mcs-lock.c:16-47 | No node is read or written by another thread after its owner has left the MCS unlock |
| `QSpinLock.SomeoneProgresses` | src/qspinlock.c:16-31 | While somebody is queued, some thread's step changes the state |
| `QSpinLock.StepsBringNearer` | src/qspinlock.c:16-31 | A thread outside begins with its next step, and from then on every step that does anything brings it nearer to the return from unlock |
| `QSpinLock.EverybodyGetsOut` | src/qspinlock.c:16-31 | From every reachable state there is a continuation, of at most the steps that are left, after which every thread has got the lock and returned it |
| `QSpinLock.Memory.Advance` | src/qspinlock.c:16-31 | One access of either lock's code, in place, is one step of the machine |
| `RwLock.Exclusion` | src/std-thread.c:40-74 | Never a writer together with a reader or another writer |
| `RwLock.CountersAreExact` | src/std-thread.c:40-74 | The counters count the readers inside and the writers waiting, and the flag says that a writer is inside |
| `RwLock.WritersGoFirst` | src/std-thread.c:40-47 | No thread begins to read while a writer waits or writes |
| `RwLock.SleepersHaveAHolder` | src/std-thread.c:40-74 | If somebody sleeps and nobody has been awoken, somebody holds the lock: no wakeup is lost |
| `RwLock.SleepersHaveAReason` | src/std-thread.c:40-67 | Whoever is asleep and was not awoken has a true wait guard |
| `RwLock.UnlockAwakensAll` | src/std-thread.c:49-74 | The last reader and every writer awake all who sleep |
| `RwLock.EveryTurnActs` | src/std-thread.c:40-74 | In every run: who asks or waits to read is in after its turn exactly if nobody waits to write or writes, who asks or waits to write exactly if nobody reads or writes, and is asleep if not; who is in comes out; nobody else moves |
| `RwLock.FreeLockIsTaken` | src/std-thread.c:40-74 | When nobody holds the lock and somebody waits, there is a waiting thread, awoken already, whose next turn brings it in |
| `RwLock.Lock.Read` | src/std-thread.c:40-47 | One pass through the loop: the thread is in exactly if no thread waits to write or writes, and otherwise asleep |
| `RwLock.Lock.Write` | src/std-thread.c:58-67 | One pass through the loop: the thread is in exactly if nobody reads or writes, and otherwise asleep and counted |
| `RwLock.Lock.DoneReading` | src/std-thread.c:49-56 | A reader leaves, nobody else moves, and when it was the last nobody is asleep any more |
| `RwLock.Lock.DoneWriting` | src/std-thread.c:69-74 | The writer leaves a free lock, and nobody is asleep any more |
| `RwLock.Lock.Execute` | src/std-thread.c:40-74 | Any turns in place are a run of the machine, and keep its invariant |
| `ThreadSemaphore.UnitsHaveTakers` | src/std-thread.c:87-101 | While somebody sleeps there are at least as many awoken threads as units to take, whoever barges in and whoever wakes spuriously |
| `ThreadSemaphore.UnitsAreConserved` | src/std-thread.c:81-101 | Initial units and signals less grants are the count, modulo 2^32, and exactly so short of 2^32 |
| `ThreadSemaphore.NobodyPassesWithoutAUnit` | src/std-thread.c:87-94 | In every run the calls to wait that have begun are the units granted and the threads still waiting: nobody comes out without a unit |
| `ThreadSemaphore.WaitBegins` | src/std-thread.c:87-94 | A call that begins is over at once, with a unit, exactly if there is one, and is asleep otherwise |
| `ThreadSemaphore.SignalAwakens` | src/std-thread.c:96-101 | In every run a signal is one more unit on 32 bits, and awakes one more sleeper exactly if anybody is asleep |
| `ThreadSemaphore.UnitsAreTaken` | src/std-thread.c:87-101 | While there is a unit and anybody waits, there is an awoken thread whose next turn takes a unit and comes out |
| `ThreadSemaphore.Semaphore.Wait` | src/std-thread.c:87-94 | One pass through the loop: with a unit the thread is outside, one unit less and granted, without one it is asleep; nobody else moves |
| `ThreadSemaphore.Semaphore.Post` | src/std-thread.c:96-101 | One more signal, nobody granted or moved, and one more sleeper awoken exactly if anybody is asleep |
| `ThreadSemaphore.Semaphore.Execute` | src/std-thread.c:81-101 | Any turns in place are a run of the machine, and keep its invariant |
| `Channel.StepInv` | src/channel.c:39-208 | Every access of send, receive, close and destroy keeps the correspondence of lists, items, partners and histories |
| `Channel.ReceiveGetsItsSend` | src/channel.c:92-130 | The k-th accepted receive that returns success returns the value of the k-th accepted send, in lock order |
| `Channel.SendReachesItsReceive` | src/channel.c:39-81 | For the k-th accepted send that returns success there is a step of the run that put its value in the buffer of the fiber whose receive was the k-th accepted |
| `Channel.CopyFillsTheBuffer` | src/channel.c:54-119 | The step that makes exchange k complete leaves the value of the k-th send in the buffer of the k-th receiver |
| `Channel.ParkedInOrder` | src/channel.c:50-127 | Parked readers and writers never coexist, and each list is the accepted calls without a partner, oldest first |
| `Channel.NobodyIsLost` | src/channel.c:51-127 | A parked fiber is at its place in its list; one taken off is held by a call that is about to resume it |
| `Channel.ClosedIsFinal` | src/channel.c:141-166 | A closed channel stays closed, has no parked reader and accepts no send |
| `Channel.DrainsBeforeClosed` | src/channel.c:100-129 | After a close a receive pairs with the oldest parked writer, and finds the channel closed only when every accepted send has its receive |
| `Channel.DestroyTakesAll` | src/channel.c:182-207 | In spite of its `else if`, destroy leaves nobody parked: it holds everybody who was |
| `Channel.ReturnsAStatus` | src/channel.c:10-17 | No call returns the initial item state |
| `Channel.TouchesOnlyTheSuspended` | src/channel.c:54-63 | No step writes the item of a running fiber; an item's state is set once, before its fiber goes on; a receiver that goes on with success has the value already |
| `Channel.NobodyReadsTheRunning` | src/channel.c:54-63 | While a fiber is neither parked nor held, whatever its item holds, the step of every other fiber is the same: nobody reads it after the resume either |
| `Channel.FreedIsUnused` | src/channel.c:182-198 | Once a channel is destroyed no call is before its lock or copying through it |
| `Channel.Rendezvous.SendValue` | src/channel.c:48-80 | In place: a closed channel refuses; otherwise the k-th accepted send meets the k-th accepted receive if that has come, and waits for it if not |
| `Channel.Rendezvous.ReceiveValue` | src/channel.c:100-129 | In place: the k-th accepted receive meets the k-th accepted send if that has come, even after a close, and waits for it only on an open channel |
| `Channel.Rendezvous.CloseChannel` | src/channel.c:147-160 | In place: every parked reader is held by the closer, to come back with "closed", every other fiber is as it was, and every accepted send stays; a close that finds the channel closed changes nothing |
| `Channel.Rendezvous.DestroyChannel` | src/channel.c:182-198 | In place: everybody who was parked is held by the destroyer, to come back with "destroyed", in order, every other fiber is as it was, and every accepted call that is left has its partner |
| `Channel.Rendezvous.Execute` | src/channel.c:39-208 | Any calls of any fibers in any interleaving in place are a run of the machine, for which the theorems here and in `ChannelCalls` hold, and keep its invariant |
| `ChannelCalls.StatusMeansWhatHappened` | src/channel.c:39-208 | In every run a call comes back with "closed" only on a closed channel and with "destroyed" only on a destroyed one, and no item is marked so before |
| `ChannelCalls.SendIsAccepted` | src/channel.c:39-81 | A send on an open channel is, after its fiber's next two turns and whatever others do between, the last accepted send, with its value, meeting the oldest waiting receive or parked; it is refused exactly if the channel is closed at the first look or at the second |
| `ChannelCalls.ReceiveIsAccepted` | src/channel.c:92-130 | A receive meets the oldest accepted send without a receive, or waits if the channel is open, or is refused |
| `ChannelCalls.CloseCloses` | src/channel.c:141-166 | After the second turn of a fiber that closes the channel is closed, whatever others do between |
| `ChannelCalls.DestroyFrees` | src/channel.c:175-208 | A destroy of a channel that no call uses frees it at once |
| `ChannelCalls.HeldComesBack` | src/channel.c:54-166 | In every run, whoever is held by a call returns the status promised by it (success, closed or destroyed) by the time the holder has taken the turns that it has left, whatever others do between |
| `ChannelCalls.ExchangeCompletes` | src/channel.c:54-119 | After the three turns of the fiber that took the other's item both have returned success |
| `ChannelCalls.CloseReachesParked` | src/channel.c:147-166 | Every reader parked when a close takes the lock comes back with "closed" by the time the closer has taken two turns for each and two more; parked writers stay parked |
| `ChannelCalls.DestroyReachesParked` | src/channel.c:182-207 | Everybody parked when a destroy runs comes back with "destroyed" in the same way |
| `ChannelCalls.CallEnds` | src/channel.c:54-207 | A fiber that has left the lock with others to serve is between calls after exactly the turns of its own that are left |
| `Mutex.OneOwnerInOrder` | src/mutex.c:25-65 | Until the destroy at most one fiber owns the mutex, the calls are granted in the order in which they came, and the list is those still to be granted |
| `Mutex.UnlockHandsOver` | src/mutex.c:52-65 | An unlock makes the longest waiting fiber the owner, or frees the mutex when nobody waits |
| `Mutex.NobodyIsLost` | src/mutex.c:25-65 | Who waits is in the list; who was popped is about to be enqueued by the fiber that popped it, which `Mutex.HandoverCompletes` shows it does |
| `Mutex.LockJoins` | src/mutex.c:25-43 | In every run a call to lock owns the mutex at once exactly if nobody does, and is otherwise parked behind all who wait |
| `Mutex.HandoverCompletes` | src/mutex.c:56-63 | In every run, after the next turn of a fiber that has popped a waiter, whatever others do before, it is outside the call and the waiter holds the mutex and runs |
| `Mutex.DestroyCompletes` | src/mutex.c:74-91 | After the destroyer's next turn, whatever others do before, its call is over and everybody who was parked holds and runs |
| `Mutex.SomeoneProgresses` | src/mutex.c:25-91 | Whoever is in a call and cannot go on, there is a fiber with somebody to enqueue, or, while somebody waits, one that holds the mutex and runs, and its next turn changes the state |
| `Mutex.ServedInTurn` | src/mutex.c:25-65 | Who waits behind i others is the one that holds the mutex when i + 1 more calls have been granted, whoever comes in between |
| `Mutex.DestroyAndExclusion` | src/mutex.c:74-91 | In every run, once the destroyer has enqueued the waiters, nobody is parked, the owners are the fiber granted last and everybody who waited, and at most one fiber owns the mutex exactly when nobody waited |
| `Mutex.DestroyCanBreakExclusion` | src/mutex.c:74-91 | A run of three fibers after which two own the mutex |
| `Mutex.FiberMutex.Lock` | src/mutex.c:25-43 | In place: the caller owns the mutex at once, exactly if nobody does, and otherwise goes to the end of the list |
| `Mutex.FiberMutex.Unlock` | src/mutex.c:52-65 | In place: the one fiber to enqueue, if anybody waits, is the only owner from then on |
| `Mutex.FiberMutex.Close` | src/mutex.c:74-91 | In place: the fibers to enqueue are exactly those that are parked, in the order of the list |
| `Mutex.FiberMutex.Execute` | src/mutex.c:25-91 | Any turns in place are a run of the machine, and keep its invariant |
| `Semaphore.UnitsAreConserved` | src/semaphore.c:32-70 | Initial units and signals are the count, the grants and the signals dropped; the count never leaves the range of an unsigned int |
| `Semaphore.DroppedOnlyAtTheBound` | src/semaphore.c:32-45 | A signal is dropped exactly when nobody waits and the count is at the bound or above |
| `Semaphore.WaitersInOrder` | src/semaphore.c:54-70 | Fibers wait only when the count is zero, and are granted in the order in which they came |
| `Semaphore.NobodyIsLost` | src/semaphore.c:32-70 | Who waits is in the list; who was popped is about to be enqueued |
| `Semaphore.WaitJoins` | src/semaphore.c:54-70 | In every run a call to wait has a unit at once exactly if there is one, and is otherwise parked behind all who wait |
| `Semaphore.SignalReaches` | src/semaphore.c:32-45 | In every run a signal that finds waiters grants the oldest, which has returned after the signaller's next turn, whatever others do before |
| `Semaphore.HandoverCompletes` | src/semaphore.c:36-44 | In every run, after the next turn of a fiber that has popped a waiter, both have returned |
| `Semaphore.DestroyCompletes` | src/semaphore.c:79-96 | After the destroyer's next turn, whatever others do before, its call is over and everybody who was parked has returned |
| `Semaphore.SomeoneProgresses` | src/semaphore.c:32-96 | For whoever is in a call and need not wait for a signal there is a fiber with somebody to enqueue, whose next turn changes the state |
| `Semaphore.DestroyWakesAll` | src/semaphore.c:79-96 | In every run, once the destroyer has enqueued the waiters, nobody is parked, and those that return without a unit are exactly the waits that were never granted |
| `Semaphore.FiberSemaphore.WaitUnit` | src/semaphore.c:54-70 | In place: a unit is granted at once exactly if there is one, and otherwise the fiber goes to the end of the list |
| `Semaphore.FiberSemaphore.SignalUnit` | src/semaphore.c:32-45 | In place: the fiber to enqueue is the oldest wait not granted; the signal is dropped only with nobody waiting and the count at the bound |
| `Semaphore.FiberSemaphore.DestroyUnits` | src/semaphore.c:79-96 | In place: the fibers to enqueue are exactly those that are parked, which are the waits not granted, in order |
| `Semaphore.FiberSemaphore.Execute` | src/semaphore.c:32-96 | Any turns in place are a run of the machine, and keep its invariant |
| `Sieve.PrintsThePrimes` | demo/prime-seive.c:16-57 | Whatever the interleaving, the i-th printed value is the prime with exactly i primes below it |
| `Sieve.CounterStaysSmall` | demo/prime-seive.c:16-22 | Whatever the interleaving, the generator is stopped before its counter passes 1260, and no value sent is beyond that, so no int wraps |
| `Sieve.ChannelRefines` | src/channel.c:39-138 | Over every run, a step of a rendezvous channel that nobody closes leaves what the sieve sees of it, sends one value, takes the next, or does both |
| `Sieve.ReturnsWhenTaken` | src/channel.c:39-138 | A send returns when its value has been taken, and a receive with the value it took, as the sieve relies on |
| `Sieve.Stream` | demo/prime-seive.c:24-33 | What is sent on the j-th channel is the beginning of the numbers that none of the first j printed values divides |
| `Sieve.NextPrime` | demo/prime-seive.c:29-31 | The least number from 2 on that none of the first primes divides is the next prime |
| `Sieve.SomeoneProgresses` | demo/prime-seive.c:16-57 | Until all are printed some process can take a step |
| `Sieve.Program.Execute` | demo/prime-seive.c:16-57 | Any interleaving in place prints the primes in order |
| `Sieve.Program.FilterNext` | demo/prime-seive.c:24-33 | In place: what the filter has passed on is what it has received without the multiples of its prime |
| `Sieve.Program.ReadNext` | demo/prime-seive.c:45-57 | In place: what one turn prints is the next prime |
| `Timespec.BeforeIsStrictTotalOrder` | src/timer.c:10-19 | `timespec_comp` is a strict total order on all times |
| `Timespec.BeforeComparesTotals` | src/timer.c:10-19 | On normal times it compares total nanoseconds |
| `Timespec.SleepUntilIsExact` | src/timer.c:214-223 | The carry of `fiber_sleep` preserves total nanoseconds for all inputs, and the deadline is normal exactly when the added nanoseconds are not negative or are whole seconds |
| `Timespec.Deadline` | src/timer.c:214-220 | The updates of `cur`, one by one, compute that deadline |
| `IntrusiveTree.SplayTop` | src/timer.c:39-78 | A splay brings the node to the root and keeps the set of nodes and the in-order sequence (fjx_splay_top is not part of this repository) |
| `IntrusiveTree.RotateUp` | src/scheduler.c:117-118 | A rotation keeps the links a tree, the set of nodes and the in-order sequence |
| `IntrusiveTree.LinkLeaf` | src/timer.c:32-70 | A fresh node hung in an empty child slot |
| `IntrusiveList.AddAfter` | src/timer.c:30-75 | A node put right after another keeps the circle, at that place |
| `IntrusiveList.AddBefore` | src/timer.c:47-73 | A node put right before another keeps the circle, at that place |
| `IntrusiveList.ReplaceInit` | src/timer.c:162-163 | The whole list moves to another sentinel, the first is left empty |
| `IntrusiveList.SplitBefore` | src/timer.c:183-188 | The three-pointer splice leaves two circles: the nodes before the cut and the rest |
| `IntrusiveList.LinkRest` | src/scheduler.c:204-223 | A list whose first nodes may hold anything is a circle again when the sentinel is linked to the next node |
| `IntrusiveList.AddListTail` | src/scheduler.c:182-183 | A whole list goes to the end of another |
| `IntrusiveList.AddList` | src/scheduler.c:211-212 | A whole list goes to the front of another |
| `IntrusiveList.PopHead` | src/scheduler.c:61-62 | The first node leaves the circle |
| `Timer.Timers.InsertNode` | src/timer.c:28-82 | List order, in-order sequence and cached ends agree again, with the node behind all of its deadline or earlier; the answer is true exactly when the earliest deadline changed |
| `Timer.InsertSorted` | src/timer.c:28-82 | That place keeps the sequence sorted, first in first out among equals |
| `Timer.FirstHole` | src/timer.c:39-45 | The minimum has no left child, so the shortcut links into an empty slot |
| `Timer.LastHole` | src/timer.c:46-52 | The maximum has no right child |
| `Timer.Descend` | src/timer.c:54-79 | The walk down the tree ends at the hole of that place, next to its predecessor or successor, and finds the first later node if there is one |
| `Timer.DueSplits` | src/timer.c:160-193 | What is due is exactly a prefix of the sorted sequence |
| `Timer.Timers.Expire` | src/timer.c:149-193 | The awakened list is exactly the due nodes in order; list, tree and cached ends agree on exactly the rest |
| `Timer.ExpireSome` | src/timer.c:167-193 | The partial branch: the first node to keep exists, and splice, splay and left cut leave list and tree of the rest |
| `TimerThread.WaitsForTheEarliest` | src/timer.c:98-158 | While the timer thread waits with no signal pending, its deadline is that of the first node, the earliest there is, or it waits without bound with an empty timer; a bounded wait has something to wait for |
| `TimerThread.NobodyIsLost` | src/timer.c:28-193 | For every deadline, the nodes added are those woken followed by those still there, in the order of arrival |
| `TimerThread.NobodyWakesEarlyOrIsPassedOver` | src/timer.c:143-193 | Nobody is woken before its deadline, and who is due is not left behind |
| `TimerThread.DueMeansWoken` | src/timer.c:138-193 | Once the earliest node is due, the next turn wakes it, or the second from the unbounded wait |
| `TimerThread.TurnSettles` | src/timer.c:133-158 | In every run a turn that wakes nobody leaves the thread waiting: without bound over an empty timer, and otherwise until the first node's deadline, with no signal pending, except that the unbounded wait goes back to the loop's top; a turn that wakes anybody goes back there too, and the first node was due |
| `TimerThread.AddSignals` | src/timer.c:98-108 | In every run a waiting timer thread is signalled exactly when the node added is the new first one, which it is exactly when its deadline is before all others |
| `TimerThread.SleepersSleepLongEnough` | src/timer.c:110-223 | In every run a fiber that slept was woken, if at all, when its duration had passed, whatever the inputs |
| `TimerThread.SleepIsNotTooLong` | src/timer.c:214-223 | It may go on as soon as the duration is over exactly when the deadline came out normal |
| `TimerThread.OnTimeForEveryStart` | src/timer.c:214-223 | It does so whatever the clock shows at the call exactly when the duration's nanoseconds are not negative |
| `TimerThread.Service.Add` | src/timer.c:98-108 | Insertion and signal over the heap structures are the step of the protocol |
| `TimerThread.Service.Take` | src/timer.c:133-196 | A turn of the timer thread over the heap structures is the step of the protocol, and its list holds exactly the nodes taken |
| `StackPool.Query` | src/scheduler.c:68-98 | The block that an address is in, or null exactly when it is in none |
| `StackPool.Pool.InsertMemory` | src/scheduler.c:100-120 | The new block goes between those below and those above it, whatever rotations rebalancing makes |
| `StackPool.Rebalance` | src/scheduler.c:117-118 | Any rotations on the way up keep the blocks and their order |
| `StackPool.Pool.GetAvailable` | src/scheduler.c:122-139 | The new block, or the block that the first saved stack pointer is in |
| `StackPool.Pool.Recycle` | src/scheduler.c:229-233 | The saved stack pointer goes to the end of the list |
| `StackPool.OneOwner` | src/scheduler.c:68-139 | No block is ever owned by two live fibers |
| `StackPool.LookupFindsAFreeBlock` | src/scheduler.c:122-139 | The lookup after a pop never yields null, and the block it finds has no live owner and is the only one that the pointer is in |
| `StackPool.ExitLeadsBack` | src/fiber.c:44-52 | An exiting fiber's stack pointer leads back to its own block, whatever is added and reused meanwhile |
| `StackPool.EveryBlockIsHeld` | src/scheduler.c:122-139 | Every block is held by a live fiber, an entry of the list or a lookup in progress: none is lost |
| `StackPool.ExitGivesBack` | src/scheduler.c:229-233 | In every run an exit takes the fiber from its block, whose holder is then the new last entry of the list; nobody else's block changes hands |
| `StackPool.SpawnCreates` | src/scheduler.c:122-139 | With nothing on the list a spawn gives its new fiber the new block |
| `StackPool.SpawnReuses` | src/scheduler.c:122-139 | With something on the list a spawn creates no block: after its lookup, whatever others do between, its new fiber has the block that the oldest entry's stack pointer is in, which no live fiber had |
| `Amd64.Cpu.Switch` | src/gas-amd64-sysv.s:4-34 | Any number of deferred calls run once each, then the registers and the stack pointer are those saved, and the current context is saved for a later switch |
| `Amd64.Cpu.Land` | src/gas-amd64-sysv.s:25-34 | The deferred calls run in the order of their frames, with their arguments, and control goes to what lies under them |
| `Amd64.Cpu.SaveAndLoad` | src/gas-amd64-sysv.s:4-25 | The nine words of a saved context and the exchange of stack pointers |
| `Amd64.Cpu.Restore` | src/gas-amd64-sysv.s:13-20 | The pops at the resume address give back the saved registers and return |
| `Amd64.Cpu.AddDeferred` | src/fiber.c:14-24 | One more frame in front of those there are, nothing else changed |
| `Amd64.Cpu.DeferAll` | src/fiber.c:14-24 | Calls deferred one after another will run in reverse order |
| `Amd64.Cpu.SpawnStackTop` | src/fiber.c:62-75 | The five words of a new fiber's first frame |
| `Amd64.Cpu.Start` | src/gas-amd64-sysv.s:21-46 | The first switch to a new fiber runs the deferred calls, then the entrance with its data, then the exit with the scheduler, and the context that was left stays saved |
| `Amd64.SwitchAsCalled` | src/gas-amd64-sysv.s:4-34 | A switch entered as section 3.2.2 of the System V AMD64 ABI asks, to an aligned context, saves an aligned context, enters every deferred call so, and returns to an aligned caller |
| `Amd64.StartAsCalled` | src/gas-amd64-sysv.s:21-46 | So does the first switch to a new fiber, whose entrance and exit are entered so too |
| `Amd64.DeferredCallsAligned` | src/gas-amd64-sysv.s:27-33 | Every deferred call is entered as section 3.2.2 of the System V AMD64 ABI asks |
| `Amd64.StackTopOfBlock` | src/fiber-memory.c:43-55 | The stack of a new block ends at a multiple of 16 above its start, with the descriptor inside the mapping |
| `Amd64.SpawnRecord` | src/fiber.c:77-89 | The record of a spawned fiber is aligned, below its first frame and in its block; the first deferred frame covers exactly its link, and the second its saved pointer |
| `Amd64.DeferOverRecord` | src/fiber.c:14-24 | The first deferral keeps the saved pointer in that record and overwrites both words of its link |

## Left out

- Weak memory: the orderings given to atomic accesses, and `volatile`; all threads see one sequentially consistent memory.
- Foreign calls: thread creation, yielding, `mmap`, `timespec_get`, the abort macros; POSIX threads behind `src/pthread.c`.
- The list, AVL and splay code of fjx-utils is not part of this repository: lists are modelled as circular doubly linked lists, the splay as bottom-up zig-zig and zig-zag rotations, AVL rebalancing as any rotations on the way up; balance and amortised cost are not modelled.
- Calls that race with a destroy of the object they use, and uses after it: the machines let nobody begin them, and a channel is destroyed only while no call uses it.
- Unlocking a mutex that the caller does not own: the machine lets only the owner unlock.
- Stack overflow inside a block, thread-local variables cached across a switch, floating-point control state; the i386 and Windows switches.
- Liveness beyond "somebody can go on", "a call ends after so many turns of its own thread" and "a due node is woken by the next turns": no fairness of schedulers or of condition variables is assumed, so nothing is said about when those turns come.
- `Scheduler.StepInv`: it does not model the values of data, deadlines and stack addresses: where a timer node goes and how many nodes are due are chosen freely in it, and are settled in the timer's own modules.
- `Scheduler.ReachableInv`: the machine is on values, with lists as sequences; `Runtime` updates the same state in place, and `Records` has the links under it as a map from nodes to words, not as heap objects.
- `Records.LinksAreTheLists`: one link stands for both nodes of a channel item, the one on the channel's list and the one in the fiber's record; that a close moves its items from one to the other is modelled as one splice.
- `Records.NothingIsReadAfterResume`: the one read of a reclaimed record's stack pointer, by the thread that popped it, counts as part of the pop; in `StackPool` the lookup that follows is a step of its own.
- `Sieve.PrintsThePrimes`: it does not compose the processes with the machine of `Channel`; what they use of a channel is shown of that machine in `Sieve.ChannelRefines` and `Sieve.ReturnsWhenTaken`.
- `RwLock.CountersAreExact`: the counters are unbounded integers; they count threads.
- `Amd64.Cpu.CallC`: a C function changes only words of its own stack below its frame; its effects on other data are those of the modules above.
- The other demos, the tests, the build files and printed output.
