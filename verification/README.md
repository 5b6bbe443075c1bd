# Verified models of the FreeRTOS add-ons and the LED strip

This project models the concurrent protocols and the intrusive data structures of the FreeRTOS add-ons, and the
resumable encoder of the LED strip, and proves what they are for. `dafny verify dfyconfig.toml` checks all of it.
Nothing here runs the original programs.

| file | what it models |
|---|---|
| `PreferWriterLock.dfy`, `PreferReaderLock.dfy` | the two reader/writer locks of `read_write_lock.c` and `cread_write_lock.cpp`; `ReadWriteLockSpec.dfy` is the abstract lock both refine |
| `ConditionVariables.dfy` | `ConditionVariable` and `Thread::Wait`, under any clients |
| `BoundedBuffer.dfy` | the bounded-buffer monitor of the condition-variable demos, whose every step is one of the model above |
| `WorkQueue.dfy` | the C work queue |
| `CppWorkQueue.dfy` | the C++ work queue and its destructor |
| `Tasklet.dfy` | tasklets, the timer daemon and CheckForSafeDelete |
| `DoublyLinkedList.dfy`, `SinglyLinkedList.dfy` | `dlist.c` with `queue_simple.c`, and `slist.c` with `stack_simple.c`, on heap nodes |
| `MemoryPool.dfy`, `CppMemoryPool.dfy` | `mem_pool.c` on one array of bytes, with the free list inside the free blocks; and `cmem_pool.cpp`, with the list beside them |
| `ZeroCopyQueue.dfy` | `zero_copy_queue.c` on top of the pool |
| `LedStrip.dfy` | the pixel buffer and the encoder of `led_strip` |
| `FreeRtos.dfy`, `Counting.dfy`, `Interleavings.dfy`, `Sequences.dfy`, `Bytes.dfy` | mutexes and binary semaphores; counting threads; taking a history apart by thread; reversal; bytes |

**Concurrency.** A protocol is a state machine: each thread has a program counter that names the statement it is
about to execute, `Enabled` says whether it can, and `Next` is the state after it has. A schedule is the sequence of
the threads that move, so a statement about every legal schedule is a statement about every interleaving, of any
number of threads. A take waits for its token; a give is one step; a counter is updated and tested in one step,
which loses nothing, since the counter changes only under its mutex (`GivesMatchTakes`). The history fields
(`enqueued`, `ran`, `arrived`, ...) record what happened and influence nothing. Beside each state machine a class
holds the same state in fields; its methods are the functions of the source, one statement a call, updating in
place, and `Execute` runs any schedule.

**Programs.** Each thread runs a program, a sequence of calls. What the protocols do is tied to those programs: the
sections visited, the items queued, the commands scheduled and the answers given are, over every run, those of the
calls that the threads have made, each thread's in the order of its program (`SectionsAsAsked`,
`CallsQueueTheirItems`, `CallsAreAnswered`, `CallWakes`).

**Kernel objects.** A binary semaphore is full or empty. A mutex is free or owned by one thread. A FreeRTOS queue is
a bounded FIFO. The semaphore inside a `Thread` is a binary semaphore that starts empty, and a timeout that is left
out means waiting forever.

**Lists.** The abstract sequence of a list is a ghost argument, and each method turns the ring or chain of one
sequence into that of another; `RingIsUnique` and `ChainIsUnique` say that the links leave no choice of the
sequence.

**Memory.** An address is an index into one array of bytes, a pointer is four bytes, least significant first, and
address 0 is NULL.

**Where code and documentation differ.** For each the exact condition is proved, on what a caller chooses.

- AddExtraMemoryToPoolStatic is documented to add the caller's region to the pool. Its loop
  (`components/freertos-addons/freertos-addons/c/Source/mem_pool.c:297-308`) never reduces the remaining size, so it
  ends if and only if the region is smaller than a block; otherwise it pushes the blocks that fit and goes on behind
  the region (`MemoryPool.Pool.AddExtraMemoryToPoolStatic`, `MemoryPool.AddStaticEndsIff`, and
  `MemoryPool.OneBlockTooMany` for one such call).
- The header of the pool promises items on address boundaries. CreateMemoryPool carves from `Buffer`, which lies 20
  bytes behind the address that malloc returned, and does not align it
  (`components/freertos-addons/freertos-addons/c/Source/mem_pool.c:80`,
  `components/freertos-addons/freertos-addons/c/Source/mem_pool.c:181`). An item is aligned if and only if malloc's
  address plus 20 is (`MemoryPool.AllocateFromNewPool`); with a malloc that suits the alignment, if and only if the
  alignment divides 20 (`MemoryPool.SuitableMallocIff`); with a malloc on eight-byte boundaries, if and only if no
  more than a pointer's four bytes were asked for (`MemoryPool.PromiseKeptIff`). Every alignment from eight bytes up
  fails there: `MemoryPool.MisalignedItem` is one such call.
- Work queued while, or after, the C work queue is destroyed can be lost: `WorkQueue.LateItemIsLost` is such a run.
  No run loses anything if and only if no client queues an item after its own call of DestroyWorkQueue, and no
  client has an item to queue when another one calls it at all: `WorkQueue.NothingLostIff`.

## Model

| member | source | states |
|---|---|---|
| `PreferWriterLock.InvariantKept` | components/freertos-addons/freertos-addons/c/Source/read_write_lock.c:344-353 | Every statement of any thread keeps the token accounting: `ReadCount` and `WriteCount` are the exact numbers of counted threads, each mutex belongs to the one thread in its section, and the tokens of `ResourceLock` and `BlockReadersLock` are each in exactly one place (the semaphore, the reader group, the writer group or one thread) |
| `PreferWriterLock.InvariantAlways` | components/freertos-addons/freertos-addons/c++/Source/cread_write_lock.cpp:174-229 | The same over every interleaving of any number of readers and writers; the C++ class has the same statements |
| `PreferWriterLock.Safety` | components/freertos-addons/freertos-addons/c/Source/read_write_lock.c:398-427 | In every such state the holders are readers only, or one writer and nobody else |
| `PreferWriterLock.ExclusiveAlways` | components/freertos-addons/freertos-addons/c/Source/read_write_lock.c:201-270 | From creation on, over every interleaving: readers only, or one writer and nobody else, and both counters are exact |
| `PreferWriterLock.SectionsAsAsked` | components/freertos-addons/freertos-addons/c/Source/read_write_lock.c:324-455 | Over every interleaving, the sections a thread has been through, the one it is in and those still to run are its program: a call of WriterLock is a Write section, and of ReaderLock a Read section |
| `PreferWriterLock.OnlyReadsShare` | components/freertos-addons/freertos-addons/c/Source/read_write_lock.c:412-423 | Told by the programs' own sections: two threads are in sections at once only if both sections are Read |
| `PreferWriterLock.ReadsShare` | components/freertos-addons/freertos-addons/c/Source/read_write_lock.c:344-353 | For every n there is a run in which n Read sections are inside together |
| `PreferWriterLock.AllSectionsVisited` | components/freertos-addons/freertos-addons/c/Source/read_write_lock.c:324-455 | A run that cannot be continued has executed the code of every section of every program, in order |
| `PreferWriterLock.Refines` | components/freertos-addons/freertos-addons/c/Source/read_write_lock.c:324-459 | Each statement is a step of the abstract reader/writer lock: it does nothing to the sets of holders, or adds or removes its own thread where the abstract lock allows it |
| `PreferWriterLock.EventGuard` | components/freertos-addons/freertos-addons/c/Source/read_write_lock.c:410-423 | A thread becomes a reader only with no writer inside, and a writer only with nobody inside, although taker and giver of a token may be different threads |
| `PreferWriterLock.GivesMatchTakes` | components/freertos-addons/freertos-addons/c/Source/read_write_lock.c:380-391 | No semaphore is given while full, mutexes are given by their owners, the counters change under their mutex and never go below zero |
| `PreferWriterLock.ReaderNeverStalls` | components/freertos-addons/freertos-addons/c/Source/read_write_lock.c:344-353 | A reader that holds `BlockReadersLock` and `ReadLock` and reaches the take of `ResourceLock` finds it full |
| `PreferWriterLock.NeverStuck` | components/freertos-addons/freertos-addons/c/Source/read_write_lock.c:324-355 | In every reachable state in which some thread has not finished its program, some thread can move: no deadlock |
| `PreferWriterLock.RunsEnd` | components/freertos-addons/freertos-addons/c/Source/read_write_lock.c:362-391 | Every run of finite programs of matched sections ends: at most twelve steps a section, whatever the schedule |
| `PreferWriterLock.Completion` | components/freertos-addons/freertos-addons/c/Source/read_write_lock.c:430-455 | A run that cannot be continued has finished every program and left the lock as created: counts zero, semaphores full |
| `PreferWriterLock.NoReaderEnters` | components/freertos-addons/freertos-addons/c/Source/read_write_lock.c:412-421 | While the writers have `BlockReadersLock` no step adds a reader |
| `PreferWriterLock.StillBlocked` | components/freertos-addons/freertos-addons/c/Source/read_write_lock.c:446-453 | Only the give of the last writer (with `WriteCount` zero) ends that |
| `PreferWriterLock.WritersPreferred` | components/freertos-addons/freertos-addons/c/Source/read_write_lock.c:398-455 | Over whole runs: from the first writer's take of `BlockReadersLock` until it is given back for the writers, no reader is in the entry section and the set of readers only shrinks |
| `PreferWriterLock.Lock.Step` | components/freertos-addons/freertos-addons/c/Source/read_write_lock.c:324-459 | The statements as updates in place of the lock's fields: the new state is the state function's, and the invariant is kept |
| `PreferWriterLock.Lock.Execute` | components/freertos-addons/freertos-addons/c/Source/read_write_lock.c:324-459 | Runs any interleaving, with the state of the run as result |
| `PreferReaderLock.InvariantKept` | components/freertos-addons/freertos-addons/c/Source/read_write_lock.c:333-340 | Every statement keeps the accounting of `ReadCount`, `ReadLock` and the one token of `ResourceLock` |
| `PreferReaderLock.InvariantAlways` | components/freertos-addons/freertos-addons/c++/Source/cread_write_lock.cpp:92-128 | The same over every interleaving |
| `PreferReaderLock.Safety` | components/freertos-addons/freertos-addons/c/Source/read_write_lock.c:405-409 | Readers only, or one writer and nobody else |
| `PreferReaderLock.ExclusiveAlways` | components/freertos-addons/freertos-addons/c/Source/read_write_lock.c:135-180 | From creation on, over every interleaving: readers only, or one writer and nobody else, and the counter is exact |
| `PreferReaderLock.SectionsAsAsked` | components/freertos-addons/freertos-addons/c/Source/read_write_lock.c:324-441 | Over every interleaving, the sections a thread has been through, the one it is in and those still to run are its program: a call of WriterLock is a Write section, and of ReaderLock a Read section |
| `PreferReaderLock.OnlyReadsShare` | components/freertos-addons/freertos-addons/c/Source/read_write_lock.c:405-409 | Told by the programs' own sections: two threads are in sections at once only if both sections are Read |
| `PreferReaderLock.ReadsShare` | components/freertos-addons/freertos-addons/c/Source/read_write_lock.c:333-340 | For every n there is a run in which n Read sections are inside together |
| `PreferReaderLock.AllSectionsVisited` | components/freertos-addons/freertos-addons/c/Source/read_write_lock.c:324-441 | A run that cannot be continued has executed the code of every section of every program, in order |
| `PreferReaderLock.Refines` | components/freertos-addons/freertos-addons/c/Source/read_write_lock.c:331-341 | Each statement is a step of the abstract reader/writer lock |
| `PreferReaderLock.GivesMatchTakes` | components/freertos-addons/freertos-addons/c/Source/read_write_lock.c:369-379 | No semaphore is given while full, the mutex is given by its owner, the counter never goes below zero |
| `PreferReaderLock.NeverStuck` | components/freertos-addons/freertos-addons/c/Source/read_write_lock.c:369-379 | No deadlock |
| `PreferReaderLock.RunsEnd` | components/freertos-addons/freertos-addons/c/Source/read_write_lock.c:324-341 | Every run of finite programs ends: at most ten steps a section |
| `PreferReaderLock.Completion` | components/freertos-addons/freertos-addons/c/Source/read_write_lock.c:436-441 | A run that cannot be continued has finished every program and left the lock as created |
| `PreferReaderLock.WriterStarves` | components/freertos-addons/freertos-addons/c++/Source/include/read_write_lock.hpp:180-184 | What the header warns of: for every n there is a run from creation in which a writer waits for 16n steps, while two readers take turns and come in after it |
| `PreferReaderLock.Lock.Execute` | components/freertos-addons/freertos-addons/c/Source/read_write_lock.c:324-441 | Runs any interleaving on the fields in place |
| `ConditionVariables.InvariantKept` | components/freertos-addons/freertos-addons/c++/Source/ccondition_variable.cpp:61-119 | Every statement of Wait, Signal and Broadcast, by any threads on any condition variables, keeps: lists without duplicates in order of arrival, semaphores full only between pop and take, a popped thread has its token or is about to get it, Wait holds its mutex until it gives it |
| `ConditionVariables.InvariantAlways` | components/freertos-addons/freertos-addons/c++/Source/cthread.cpp:255-278 | The same over every interleaving of any clients |
| `ConditionVariables.GiveIsNotLost` | components/freertos-addons/freertos-addons/c++/Source/ccondition_variable.cpp:83-88 | `Thread::Signal` always finds the semaphore empty and its thread in Wait past its push and not past its take, even before it gave its mutex |
| `ConditionVariables.InOneList` | components/freertos-addons/freertos-addons/c++/Source/ccondition_variable.cpp:61-74 | A thread is in at most one wait list, once |
| `ConditionVariables.SleepsUntilPopped` | components/freertos-addons/freertos-addons/c++/Source/cthread.cpp:259-270 | A waiting thread's semaphore is empty if and only if the thread is still listed or somebody who popped it is about to give it |
| `ConditionVariables.WokenInOrder` | components/freertos-addons/freertos-addons/c++/Source/ccondition_variable.cpp:80-98 | In every run from the start, threads are woken in the order in which they arrived: Signal wakes the one that waited longest |
| `ConditionVariables.CallWakes` | components/freertos-addons/freertos-addons/c++/Source/ccondition_variable.cpp:80-119 | A whole call, whatever others do meanwhile: when a Broadcast returns, exactly those who were in the list when it took the internal lock have been woken, each once and in order; when a Signal returns, exactly the one that had waited longest, if any |
| `ConditionVariables.WaitReturnsWoken` | components/freertos-addons/freertos-addons/c++/Source/cthread.cpp:255-278 | A whole call: when Wait returns, its thread holds the mutex again, and was woken after it arrived in this call |
| `ConditionVariables.BroadcastAlone` | components/freertos-addons/freertos-addons/c++/Source/ccondition_variable.cpp:101-119 | A Broadcast called with the internal lock free runs to its end in 2n + 4 steps when nobody else moves |
| `ConditionVariables.SweepGoesOn` | components/freertos-addons/freertos-addons/c++/Source/ccondition_variable.cpp:108-113 | A Broadcast is never blocked between Lock and Unlock, only its own steps change its list, and each brings it nearer to its end |
| `ConditionVariables.BroadcastWakesAll` | components/freertos-addons/freertos-addons/c++/Source/ccondition_variable.cpp:101-119 | Whatever other threads do, a Broadcast that found n threads has woken exactly those, each once and in order, after 2n + 1 own steps |
| `ConditionVariables.Threads.Execute` | components/freertos-addons/freertos-addons/c++/Source/cthread.cpp:255-278 | Runs any interleaving on the fields in place |
| `ConditionVariables.ConditionVariable.Signal` | components/freertos-addons/freertos-addons/c++/Source/ccondition_variable.cpp:80-98 | One uncontended call: pops the first waiter, if any, and fills its semaphore and no other |
| `ConditionVariables.ConditionVariable.Broadcast` | components/freertos-addons/freertos-addons/c++/Source/ccondition_variable.cpp:101-119 | One uncontended call: the loop ends, the list is empty, and exactly its threads got their semaphores filled |
| `BoundedBuffer.InvariantKept` | components/freertos-addons/freertos-addons/Linux/Demo/Linux_g++_condition_variables_multiple_producers_consumers2/main.cpp:145-217 | Every statement of any producer or consumer keeps the monitor's invariant, with its two counting parts: if consumers wait, there are at most as many items as consumers awake or about to be woken, and the same for producers and free places |
| `BoundedBuffer.CoveredKept` | components/freertos-addons/freertos-addons/Linux/Demo/Linux_g++_condition_variables_multiple_producers_consumers2/main.cpp:153-164 | That counting part by itself, for either role |
| `BoundedBuffer.InvariantAlways` | components/freertos-addons/freertos-addons/Linux/Demo/Linux_g++_condition_variables_multiple_producers_consumers2/main.cpp:145-217 | Over every interleaving, and the roles and the size stay |
| `BoundedBuffer.AssertsNeverFail` | components/freertos-addons/freertos-addons/Linux/Demo/Linux_g++_condition_variables_multiple_producers_consumers2/main.cpp:77-91 | From the start, over every interleaving, the asserts in Add and Remove hold whenever they are reached |
| `BoundedBuffer.CvLockFree` | components/freertos-addons/freertos-addons/c++/Source/ccondition_variable.cpp:61-98 | In the demo the internal locks of the condition variables are never contended |
| `BoundedBuffer.GiveIsNotLost` | components/freertos-addons/freertos-addons/c++/Source/ccondition_variable.cpp:80-98 | In the demo no wake-up is lost |
| `BoundedBuffer.QueueFits` | components/freertos-addons/freertos-addons/Linux/Demo/Linux_g++_condition_variables_multiple_producers_consumers2/main.cpp:71-75 | The queue holds at most as many items as the size it was made with, and the threads keep their roles |
| `BoundedBuffer.NeverDeadlocks` | components/freertos-addons/freertos-addons/Linux/Demo/Linux_g++_condition_variables_multiple_producers_consumers2/main.cpp:149-216 | With a producer, a consumer and a size of at least one, some thread can move |
| `BoundedBuffer.DemoNeverDeadlocks` | components/freertos-addons/freertos-addons/Linux/Demo/Linux_g++_condition_variables_multiple_producers_consumers2/main.cpp:274-308 | The demo's claim, from its start over every interleaving of any numbers of threads; and what was removed is a prefix of what was added |
| `BoundedBuffer.ItemsMove` | components/freertos-addons/freertos-addons/Linux/Demo/Linux_g++_condition_variables_multiple_producers_consumers2/main.cpp:149-216 | No livelock: a run of any length moves items, `|schedule| <= 6 * threads + 15 * (added + removed)`, over every interleaving |
| `BoundedBuffer.IsClientStep` | components/freertos-addons/freertos-addons/Linux/Demo/Linux_g++_condition_variables_multiple_producers_consumers2/main.cpp:145-217 | Each statement of the monitor is a step of the condition-variable model, or one that it does not see, so what holds there of lists and semaphores holds here |
| `BoundedBuffer.FifoKept` | components/freertos-addons/freertos-addons/Linux/Demo/Linux_g++_condition_variables_multiple_producers_consumers2/main.cpp:77-91 | push_front and back/pop_back keep: what was added is what was removed followed by the queue |
| `BoundedBuffer.ItemsArriveInOrder` | components/freertos-addons/freertos-addons/Linux/Demo/Linux_g++_condition_variables2/main.cpp:195-218 | With one producer and one consumer that count from the same number, `DataVerified == x` holds whenever it is reached |
| `BoundedBuffer.Monitor.Execute` | components/freertos-addons/freertos-addons/Linux/Demo/Linux_g++_condition_variables_multiple_producers_consumers2/main.cpp:123-217 | Runs any interleaving on the fields in place |
| `WorkQueue.InvariantKept` | components/freertos-addons/freertos-addons/c/Source/workqueue.c:123-231 | Every statement of the worker and of any clients keeps: each queued item is freed, in the worker's hand or in the queue, in order; the worker ends only when told to and after running what was queued before; a worker about to wait is going to be woken if there is work |
| `WorkQueue.InvariantAlways` | components/freertos-addons/freertos-addons/c/Source/workqueue.c:104-231 | The same over every interleaving |
| `WorkQueue.NoLostWakeup` | components/freertos-addons/freertos-addons/c/Source/workqueue.c:128-138 | Over every interleaving, when `Lock` is free, the worker waits for `Event` and there is work or an exit request, `Event` is full, however many gives merged into one token |
| `WorkQueue.CallsQueueTheirItems` | components/freertos-addons/freertos-addons/c/Source/workqueue.c:347-385 | Over every interleaving, what has been queued are the items of the calls that are past their Enqueue, each once, and each client's in the order of its program |
| `WorkQueue.RunsInOrder` | components/freertos-addons/freertos-addons/c/Source/workqueue.c:138-170 | Items run, and are freed, at most once and in the order in which they were queued |
| `WorkQueue.DrainsBeforeExit` | components/freertos-addons/freertos-addons/c/Source/workqueue.c:172-194 | In every run in which some client sets `ExitThread`: when the worker has left its loop, it has run everything that had been queued by that step, in that order |
| `WorkQueue.Quiescence` | components/freertos-addons/freertos-addons/c/Source/workqueue.c:196-231 | When nothing can move: either all calls have returned and everything queued has run and been freed once, or the queue was destroyed, everything queued before `ExitThread` was set has run, and what was freed is what was queued before the worker's last unlock |
| `WorkQueue.AllWorkIsDone` | components/freertos-addons/freertos-addons/c/Source/workqueue.c:347-385 | Without a call of DestroyWorkQueue, every run that cannot be continued has returned from all calls, and what has run and been freed is every item of every program |
| `WorkQueue.RunsEnd` | components/freertos-addons/freertos-addons/c/Source/workqueue.c:123-170 | Every run ends: at most 16 steps a call, and 4; the worker does not spin |
| `WorkQueue.NothingLostIff` | components/freertos-addons/freertos-addons/c/Source/workqueue.c:315-385 | On the clients' programs: every run that cannot be continued has run, and freed, exactly the items of the programs, each once and each client's in order, if and only if no client queues an item after its own DestroyWorkQueue and no two different clients do the one and the other |
| `WorkQueue.LateItemIsLost` | components/freertos-addons/freertos-addons/c/Source/workqueue.c:228-231 | A run in which an item queued after the worker's last unlock neither runs nor is freed |
| `WorkQueue.Queue.Step` | components/freertos-addons/freertos-addons/c/Source/workqueue.c:123-231 | The statements as updates in place |
| `WorkQueue.Queue.Execute` | components/freertos-addons/freertos-addons/c/Source/workqueue.c:315-385 | Runs any interleaving on the fields in place |
| `CppWorkQueue.InvariantKept` | components/freertos-addons/freertos-addons/c++/Source/cworkqueue.cpp:172-212 | Every statement of the worker, of clients and of the destructor keeps: the queue holds in order what was queued and not taken, the worker stopped at the first NULL, each item that ran was freed if it asked for it, and `ThreadComplete` is given once |
| `CppWorkQueue.RunsInOrder` | components/freertos-addons/freertos-addons/c++/Source/cworkqueue.cpp:174-206 | Work runs once and in order; nothing queued behind a NULL runs |
| `CppWorkQueue.CallsQueueTheirItems` | components/freertos-addons/freertos-addons/c++/Source/cworkqueue.cpp:121-145 | Over every interleaving, what has been queued are the items, as passed, and the NULLs of the calls past their Enqueue, each once and each client's in order; the queue keeps to its capacity; and once a destructor has returned the queue is deleted |
| `CppWorkQueue.AllWorkRuns` | components/freertos-addons/freertos-addons/c++/Source/cworkqueue.cpp:142-145 | Without a destructor, every run that cannot be continued has returned from all calls, and what has run is every item of every program, each once and each client's in order |
| `CppWorkQueue.DestructorWaits` | components/freertos-addons/freertos-addons/c++/Source/cworkqueue.cpp:107-136 | When the destructor's Take has returned, and ever after: everything queued before the NULL has run once, in order, exactly the items with FreeAfterRun were deleted, once each, and the worker is gone, so deleting the queue is safe; for any capacity and interleaving |
| `CppWorkQueue.WorkerLeaves` | components/freertos-addons/freertos-addons/c++/Source/cworkqueue.cpp:187-192 | Once a NULL is queued the worker can always move until it is gone, each of its steps brings it nearer, and clients cannot put it off |
| `CppWorkQueue.Quiescence` | components/freertos-addons/freertos-addons/c++/Source/cworkqueue.cpp:142-145 | When nothing can move, all calls have returned and everything queued has run, or the queue was destroyed and exactly what was queued before the NULL has run |
| `CppWorkQueue.RunsEnd` | components/freertos-addons/freertos-addons/c++/Source/cworkqueue.cpp:107-145 | Every run ends: at most seven steps a call |
| `CppWorkQueue.WorkQueue.Execute` | components/freertos-addons/freertos-addons/c++/Source/cworkqueue.cpp:172-212 | Runs any interleaving on the fields in place |
| `Tasklet.InvariantKept` | components/freertos-addons/freertos-addons/c++/Source/ctasklet.cpp:77-130 | Every statement of any threads, interrupts and the timer daemon keeps: the token is in `DtorLock`, with one thread, with one pending or executing run, or deleted; and as many runs were pended as calls succeeded |
| `Tasklet.EachSuccessRunsOnce` | components/freertos-addons/freertos-addons/c++/Source/ctasklet.cpp:77-94 | Over every interleaving, at most one run is pending or executing; runs keep the order of the calls; there is one run done, executing or pending for each call that returned true |
| `Tasklet.CallsAreAnswered` | components/freertos-addons/freertos-addons/c++/Source/ctasklet.cpp:77-130 | Over every interleaving, what is scheduled are the parameters of exactly the calls answered with true, each thread's in the order of its program; each call of Schedule has one answer; no CheckForSafeDelete returns before it has deleted `DtorLock` |
| `Tasklet.CallWithToken` | components/freertos-addons/freertos-addons/c++/Source/ctasklet.cpp:82-115 | With the token in `DtorLock`, a call is answered with whether the command queue accepts; if not, the token is back |
| `Tasklet.CallWithoutToken` | components/freertos-addons/freertos-addons/c++/Source/ctasklet.cpp:104-108 | Without it, ScheduleFromISR answers false at once, and the others wait |
| `Tasklet.HolderIsAlone` | components/freertos-addons/freertos-addons/c++/Source/ctasklet.cpp:85-116 | Whoever has taken the token is alone with it: what it gives back after a refused pend it gives to an empty semaphore |
| `Tasklet.NoRunAfterSafeDelete` | components/freertos-addons/freertos-addons/c++/Source/ctasklet.cpp:70-74 | Once CheckForSafeDelete has the token, in every later state nothing is pending, nothing executes, and nothing more is scheduled or run |
| `Tasklet.NoRunAfterReturn` | components/freertos-addons/freertos-addons/c++/Source/ctasklet.cpp:70-86 | Once a thread has returned from a CheckForSafeDelete of its program, in every later state nothing is pending, nothing executes, and nothing more is scheduled or run |
| `Tasklet.Quiescence` | components/freertos-addons/freertos-addons/c++/Source/ctasklet.cpp:97-130 | When nothing can move every scheduled run has happened, and all calls have returned unless the tasklet was deleted under its callers |
| `Tasklet.RunsEnd` | components/freertos-addons/freertos-addons/c++/Source/ctasklet.cpp:77-130 | Every run ends: at most seven steps a call |
| `Tasklet.TaskletSystem.Execute` | components/freertos-addons/freertos-addons/c++/Source/ctasklet.cpp:77-130 | Runs any interleaving on the fields in place |
| `DoublyLinkedList.InsertNodeAfter` | components/freertos-addons/freertos-addons/c/Source/dlist.c:47-61 | Turns the ring of a sequence into the ring of the sequence with the node at that place; a null node or marker changes nothing, the node's own links included |
| `DoublyLinkedList.InsertNodeBefore` | components/freertos-addons/freertos-addons/c/Source/dlist.c:64-68 | The same before the marker |
| `DoublyLinkedList.AddNodeToHead` | components/freertos-addons/freertos-addons/c/Source/dlist.c:71-75 | Puts the node first |
| `DoublyLinkedList.AddNodeToTail` | components/freertos-addons/freertos-addons/c/Source/dlist.c:78-82 | Puts the node last |
| `DoublyLinkedList.RemoveNode` | components/freertos-addons/freertos-addons/c/Source/dlist.c:85-92 | Leaves the ring of the sequence without that element |
| `DoublyLinkedList.RemoveNodeFromHead` | components/freertos-addons/freertos-addons/c/Source/dlist.c:95-112 | Returns and removes the first node; null if the ring is empty |
| `DoublyLinkedList.RemoveNodeFromTail` | components/freertos-addons/freertos-addons/c/Source/dlist.c:115-132 | Returns and removes the last node; null if the ring is empty |
| `DoublyLinkedList.WaysRound` | components/freertos-addons/freertos-addons/c/Source/dlist.c:47-61 | `Next` and `Prev` are inverse to each other at every node of a ring |
| `DoublyLinkedList.RingIsUnique` | components/freertos-addons/freertos-addons/c/Source/dlist.c:47-132 | The links determine the sequence: a ring has one reading only |
| `SimpleQueue.Queue.Enqueue` | components/freertos-addons/freertos-addons/c/Source/queue_simple.c:57-67 | Appends to the FIFO; a null node changes nothing |
| `SimpleQueue.Queue.Dequeue` | components/freertos-addons/freertos-addons/c/Source/queue_simple.c:70-84 | Takes the oldest node, or null; `Count` always equals the length of the ring |
| `SinglyLinkedList.AddNodeToTail` | components/freertos-addons/freertos-addons/c/Source/slist.c:47-68 | Ends on every list and appends the node |
| `SinglyLinkedList.InsertNodeAfter` | components/freertos-addons/freertos-addons/c/Source/slist.c:71-87 | Inserts right after the marker |
| `SinglyLinkedList.InsertNodeBefore` | components/freertos-addons/freertos-addons/c/Source/slist.c:90-127 | Ends, inserts before the marker, and leaves the list as it is if the marker is not in it |
| `SinglyLinkedList.RemoveNode` | components/freertos-addons/freertos-addons/c/Source/slist.c:130-162 | Ends, removes the node, and leaves the list as it is if the node is not in it |
| `SinglyLinkedList.RemoveNodeFromHead` | components/freertos-addons/freertos-addons/c/Source/slist.c:165-181 | Returns and removes the first node, or null |
| `SinglyLinkedList.RemoveNodeFromTail` | components/freertos-addons/freertos-addons/c/Source/slist.c:184-210 | Ends, returns and removes the last node, or null |
| `SinglyLinkedList.ChainIsUnique` | components/freertos-addons/freertos-addons/c/Source/slist.c:47-210 | The links determine the sequence |
| `SimpleStack.Stack.PushOnStack` | components/freertos-addons/freertos-addons/c/Source/stack_simple.c:54-65 | Pushes; a null node changes nothing |
| `SimpleStack.Stack.PopOffStack` | components/freertos-addons/freertos-addons/c/Source/stack_simple.c:68-85 | Pops the last node pushed, or null; `Count` always equals the length of the list |
| `MemoryPool.CalculateAndVerifyAlignment` | components/freertos-addons/freertos-addons/c/Source/mem_pool.c:85-112 | Accepts exactly the powers of two below 2^31 among max(pointer size, request) |
| `MemoryPool.CalculateItemSize` | components/freertos-addons/freertos-addons/c/Source/mem_pool.c:115-140 | The least number of alignment units that hold a positive request, and one for the link |
| `MemoryPool.CalculateItemSizeCpp` | components/freertos-addons/freertos-addons/c++/Source/cmem_pool.cpp:81-96 | The same without the unit for the link |
| `MemoryPool.CItemHasOneUnitMore` | components/freertos-addons/freertos-addons/c/Source/mem_pool.c:122-137 | A C block is one alignment unit bigger than a C++ block, for every request |
| `MemoryPool.Pool.MemoryPoolAllocate` | components/freertos-addons/freertos-addons/c/Source/mem_pool.c:314-338 | Pops the head of the free list out of the bytes of the first free block; null exactly when no block is free; no byte that a client holds changes |
| `MemoryPool.Pool.MemoryPoolFree` | components/freertos-addons/freertos-addons/c/Source/mem_pool.c:341-360 | Writes the link into the block's own first bytes and makes it the head; the bytes of every other held item stay |
| `MemoryPool.Pool.ClientWrite` | components/freertos-addons/freertos-addons/c/Source/mem_pool.c:335-337 | A client's write inside its item changes that byte and no other held byte, and leaves the free list intact |
| `MemoryPool.Execute` | components/freertos-addons/freertos-addons/c/Source/mem_pool.c:314-360 | For every sequence of allocate, free and in-bounds client writes on one byte memory: the free list and the blocks held are as specified, and every byte a client wrote reads back until it overwrites it or frees the item |
| `MemoryPool.WriteReadsBack` | components/freertos-addons/freertos-addons/c/Source/mem_pool.c:335-337 | A byte written to a held item is still there after any operations that neither free the item nor write that byte |
| `MemoryPool.Pool.AddItems` | components/freertos-addons/freertos-addons/c/Source/mem_pool.c:183-190 | Carves `ItemCount` blocks of new memory |
| `MemoryPool.Pool.AddRegion` | components/freertos-addons/freertos-addons/c/Source/mem_pool.c:270-278 | The carving loop over the caller's memory ends and yields as many disjoint blocks as fit |
| `MemoryPool.FitsIsQuotient` | components/freertos-addons/freertos-addons/c/Source/mem_pool.c:272-278 | As many as fit is the quotient of the two sizes |
| `MemoryPool.CarvedLies` | components/freertos-addons/freertos-addons/c/Source/mem_pool.c:270-278 | The blocks carved lie inside the region, one after the other |
| `MemoryPool.CarvedAligned` | components/freertos-addons/freertos-addons/c/Source/mem_pool.c:186-189 | Each starts a multiple of the alignment after the start of the region |
| `MemoryPool.AlignedIff` | components/freertos-addons/freertos-addons/c/Source/mem_pool.c:270-278 | An item is aligned to an address boundary if and only if the start of its region is; for the pools over the caller's memory that is the pointer the caller gives |
| `MemoryPool.AllocateFromNewPool` | components/freertos-addons/freertos-addons/c/Source/mem_pool.c:166-181 | After any use of a pool that CreateMemoryPool made, what MemoryPoolAllocate returns is aligned if and only if malloc's address plus the 20 bytes before `Buffer` is |
| `MemoryPool.SuitableMallocIff` | components/freertos-addons/freertos-addons/c/Source/mem_pool.c:55-82 | With malloc's address aligned as asked, that is so if and only if the alignment divides 20 |
| `MemoryPool.PromiseKeptIff` | components/freertos-addons/freertos-addons/c/Source/mem_pool.c:85-112 | With malloc on eight-byte boundaries, for every accepted alignment: items are aligned as asked if and only if at most four bytes were asked for |
| `MemoryPool.MisalignedItem` | components/freertos-addons/freertos-addons/c/Source/mem_pool.c:181-190 | An input that fails: one item of eight bytes on an eight-byte boundary, malloc at 4096, is returned at 4124 |
| `MemoryPool.Pool.AddExtraMemoryToPoolStatic` | components/freertos-addons/freertos-addons/c/Source/mem_pool.c:294-308 | Its pushes up to the one that leaves the region: a region smaller than a block ends it at once; otherwise it has pushed the blocks that fit, goes on, and the next block is not inside the region |
| `MemoryPool.CreateMemoryPoolStatic` | components/freertos-addons/freertos-addons/c/Source/mem_pool.c:233-281 | Null exactly for a bad alignment, and otherwise a pool of quotient-many free blocks over the region |
| `MemoryPool.CreateMemoryPool` | components/freertos-addons/freertos-addons/c/Source/mem_pool.c:143-193 | Null exactly for a bad alignment, and otherwise a pool of `ItemCount` free blocks that start 20 bytes behind malloc's address; memory is needed only then |
| `MemoryPool.AddStaticEndsIff` | components/freertos-addons/freertos-addons/c/Source/mem_pool.c:294-308 | The loop of AddExtraMemoryToPoolStatic ends if and only if the region is smaller than a block; otherwise it leaves the region |
| `CppMemoryPool.Pool.Allocate` | components/freertos-addons/freertos-addons/c++/Source/cmem_pool.cpp:152-163 | Takes the front of the free list; null exactly when it is empty; what it returns nobody holds |
| `CppMemoryPool.Pool.Free` | components/freertos-addons/freertos-addons/c++/Source/cmem_pool.cpp:166-170 | Puts the block at the end of the free list |
| `CppMemoryPool.Pool.AddItems` | components/freertos-addons/freertos-addons/c++/Source/cmem_pool.cpp:173-192 | Adds `itemCount` blocks of new memory, in order |
| `CppMemoryPool.Pool.AddRegion` | components/freertos-addons/freertos-addons/c++/Source/cmem_pool.cpp:195-207 | The loop ends and adds as many blocks as fit |
| `CppMemoryPool.CutLies` | components/freertos-addons/freertos-addons/c++/Source/cmem_pool.cpp:139-146 | The blocks cut lie inside the region, one after the other |
| `CppMemoryPool.CreateStatic` | components/freertos-addons/freertos-addons/c++/Source/cmem_pool.cpp:128-149 | The exception exactly for a bad alignment, and otherwise a pool of quotient-many blocks |
| `CppMemoryPool.Execute` | components/freertos-addons/freertos-addons/c++/Source/cmem_pool.cpp:152-170 | For every sequence of calls blocks leave the list in the order in which they came, and no block is with two clients or free and held |
| `ZeroCopyQueue.Queue.ZcqAllocateItem` | components/freertos-addons/freertos-addons/c/Source/zero_copy_queue.c:88-100 | Moves a block from the pool to the caller's hands, out of nobody's hands and not out of the queue; contents of held items stay |
| `ZeroCopyQueue.Queue.ZcqFreeItem` | components/freertos-addons/freertos-addons/c/Source/zero_copy_queue.c:103-113 | Moves it back |
| `ZeroCopyQueue.Queue.ZcqEnqueueItem` | components/freertos-addons/freertos-addons/c/Source/zero_copy_queue.c:116-130 | A held item always fits: conservation of the `ItemCount` blocks makes the call succeed |
| `ZeroCopyQueue.Queue.ZcqDequeueItem` | components/freertos-addons/freertos-addons/c/Source/zero_copy_queue.c:133-147 | Moves the oldest item from the queue to the caller's hands; null exactly when the queue is empty |
| `ZeroCopyQueue.Queue.Fifo` | components/freertos-addons/freertos-addons/c/Source/zero_copy_queue.c:116-147 | What was received is a prefix of what was sent, and the queue is the rest |
| `ZeroCopyQueue.ZcqCreateQueue` | components/freertos-addons/freertos-addons/c/Source/zero_copy_queue.c:58-85 | A queue and a pool with room for the same number of items, of the size and alignment asked for; null for a length that xQueueCreate refuses and for a bad alignment |
| `ZeroCopyQueue.Execute` | components/freertos-addons/freertos-addons/c/Source/zero_copy_queue.c:88-147 | For every sequence of calls: each block is where the calls put it and in exactly one of pool, hands and queue, the three counts add up to `ItemCount`, no enqueue fails, and items come out in the order in which they went in |
| `ZeroCopyQueue.Sent` | components/freertos-addons/freertos-addons/c/Source/zero_copy_queue.c:116-130 | Sending keeps each block in exactly one place |
| `ZeroCopyQueue.Received` | components/freertos-addons/freertos-addons/c/Source/zero_copy_queue.c:133-147 | Receiving keeps each block in exactly one place |
| `LedStrip.CallContinues` | components/led_strip/src/led_strip_rmt_encoder.c:20-54 | However a call is cut short it writes the next piece of the stream, reports COMPLETE exactly with the last piece and is then in state 0, and otherwise has used all the room and reports MEM_FULL; never MEM_FULL with room left |
| `LedStrip.CallAdvances` | components/led_strip/src/led_strip_rmt_encoder.c:20-54 | So the pieces written so far add up to the stream as far as the session has come |
| `LedStrip.DecodeStream` | components/led_strip/src/led_strip_rmt_encoder.c:82-99 | Decoding eight symbols a byte, most significant first, gives back every byte of the buffer |
| `LedStrip.PixelAt` | components/led_strip/src/led_strip_rmt_dev.c:32-36 | Pixel i is the bytes 3i, 3i + 1 and 3i + 2 in the order green, red, blue |
| `LedStrip.Strip.SetPixel` | components/led_strip/src/led_strip_rmt_dev.c:28-38 | Changes the colour of that pixel and of no other; an index off the strip is refused |
| `LedStrip.Strip.EncodeCall` | components/led_strip/src/led_strip_rmt_encoder.c:20-54 | The two cases with their fall-through, on the encoder's state in place |
| `LedStrip.Strip.Refresh` | components/led_strip/src/led_strip_rmt_dev.c:40-50 | For every sequence of interruptions the symbols written are a prefix of the stream, and once COMPLETE is reported all of it, from which the strip reads the colours last set; with enough room COMPLETE is reported |
| `LedStrip.Strip.Clear` | components/led_strip/src/led_strip_rmt_dev.c:52-58 | Every pixel becomes black, and black is what the strip reads once COMPLETE is reported, as it is with enough room |
| `LedStrip.Strip.constructor` | components/led_strip/src/led_strip_rmt_dev.c:70-99 | A new strip is black |

## Left out

- Creation that fails, the cleanup after it, and the deletion of locks, queues and pools in use; `malloc` succeeds,
  and where a pool or queue is created it is given the memory that `malloc` would return.
- Timed waits on condition variables and semaphores, real time, priorities and priority inheritance, and fairness: a
  schedule is any sequence of enabled threads, so the theorems about progress say that some thread can move and that
  finite programs end, not that a given thread moves.
- The width of integers: counters, sizes, `index * 3` and the numbers the demos count are unbounded.
- A negative `ItemCount`: the pools treat it as none.
- The kernel's own code: semaphores, mutexes, queues and the timer daemon's command queue behave as said above.
- MemoryPool.Pool.AddItems: stands for the loops of CreateMemoryPool and AddExtraMemoryToPool without the lock that
  the second takes around each push; the other calls of both pools, too, take effect one at a time.
- The struct fields in front of `Buffer`: `MemoryPool.CreateMemoryPool` keeps their 20 bytes free and holds them in
  the fields of a class.
- The block count of a C++ pool built with `itemCount`: its loop is `CppMemoryPool.Pool.AddItems`, and that
  constructor is not written out.
- ZeroCopyQueue.Queue.ZcqEnqueueItem: takes only an item that the caller holds, as the header says; a call on an
  empty queue, or on an empty pool, returns after its timeout has run out.
- The contents of a C++ pool's blocks: its list is outside them, so there is nothing to corrupt.
- DoublyLinkedList.InsertNodeAfter: the node must not be in the ring already, which the code does not check either.
- LedStrip.Strip.Refresh: the durations inside a symbol, the RMT channel and the two encoders of its driver are not
  modelled; the encoders keep the contract `Promised`, which says that they write the next symbols until done or out
  of room and report which.
- Output to `cerr` and the monitor thread of the demos, and their run counters.
- A work item that deletes itself or throws, and the effect of the work itself.
- CppWorkQueue.DestructorWaits: says nothing about work queued behind the NULL except that it stays in the queue and
  does not run; the deletion of the worker thread is left out.
- Tasklet.NoRunAfterSafeDelete: the commands of others in the timer daemon's queue are left out; that the queue may
  refuse a command is not.
- Reset and deletion of the LED strip encoder beyond its state, and the refresh of a strip after a transmission that
  failed.
- The logger, the Bluetooth and command-line components, `main`, mutex, semaphore, queue, event-group and timer
  wrappers, tick hooks, and thread creation and deletion: no deep state, or outside the shown code.
