# A verified model of efio

efio is a C/C++ library of lock-free queues, locks, a thread pool and an asynchronous,
page-buffered file layer. This project models its concurrent protocols, its file writer and
reader, and three sequential components, and proves what they promise. `dafny verify
dfyconfig.toml` checks everything.

**Concurrent protocols.** A component is a state (shared words, a heap of allocated nodes, a
program counter with locals for each thread) and a step relation with one step per atomic
operation, under sequential consistency, for any number of threads. Addresses may be reused
after they are freed. `Safe` says that every node a step touches is allocated; an inductive
invariant shows that every enabled step is safe, and the results hold in every reachable state
(module `Runs` has the induction principle, `Counting` counts threads at a program point). History
fields record what happened and are never read to decide a step. Beside safety, the queues and locks are
shown to get on without any scheduling assumption: every own step of a thread that does not wait
brings it closer to the end of its operation (where an algorithm retries, steps of others can set it
back), every wait has another thread that does not wait (no deadlock), and when all threads are out
only what the structure holds is still allocated. The thread pool has its own results of this kind.

- `TicketLane`, `TicketQueue`: the ticketed multi-lane queue `ev_pqueue`.
- `MarkedQueue`: the marked-head list that `ev_paqueue` uses for each lane and `ev_queue` uses alone.
- `BufferList`: the one-producer, one-consumer chunk list `memory_buffer_list`.
- `MarkedStack`, `McsLock`, `RwLock`, `ThreadPool`.

**Files.** `FlatFile` is the specification: a flat byte sequence. `PageFile` is the page layer of
the writer (a class with the fields of `EF_FILE`), `WriteProtocol` the whole path from `ef_write`
through accumulator, request queue, writer thread and worker to the disk (`WriteProgress` proves that
it ends), with the page layer replaced by the relations `Appended` and `Synced` that `PageFile` is proved to satisfy.
`PageReader` is the asynchronous reader. Pages have any size P > 0 and system calls succeed.

**Sequential components.** `ChunkedStream` and `LimitedReader` refine chunk lists to flat bytes;
`Base64` is the codec. `Bytes` holds the octet type and the arithmetic they share.

## Results that need a condition, or differ from the comments

- `ev_queue` aborts when its last head exchange fails and its comment calls that impossible
  (evds/ev_queue.c:312-319). It is possible: `MarkedQueue.LastCasCanFail` gives a run, and
  `MarkedQueue.LastCasFailsExactlyWhenPublished` says exactly when. `ev_paqueue` carries on, and
  that is the behaviour proved correct.
- `base64_decode(base64_encode(x))` fails for line-broken output whose number of groups is a
  multiple of 19 when padding is needed: `Base64.RoundTrip` proves that this is the only failure.
- In the decoder, the padding character is read a second time (core_utils/base64.c:231), so the
  check for a second padding character always succeeds. `Base64.PaddingAccepted` says exactly which
  texts with padding are accepted and `Base64.ImproperPaddingAccepted` exactly which of them have
  other padding than RFC 4648 asks for: with two octets missing, any character passes for the
  second padding (`Base64.SecondCharacterUnseen`; `Base64.SecondPaddingUnseen` is an instance).
  On the other hand nothing may follow proper padding, although the comment at
  core_utils/base64.c:254-257 means to allow white space (`Base64.NothingMayFollowPadding`), so a
  line break after the encoder's output is harmless exactly when there is no padding
  (`Base64.BlanksAfterEncoded`).
- With two octets missing and a single padding character at the end, the decoder reads one character
  past its input: exactly then, by `Base64.Decode` and `Base64.ReadsPastEnd`.
  `Base64.ReadsPastEndHappens` gives an input; `Base64.EncodedStaysInside` says that no output of the
  encoder is one.
- The close path can see its writes complete while events are left in the writer's queue, which the
  writer would then handle on the freed write action (evio/ef_file.c:1154-1157). By
  `WriteProtocol.EventsLeftAtClose` every such event belongs to a request counted after the close path
  read the total, or to one whose batch was reported done before its event was posted. Both occur
  (`WriteProtocol.CloseCanLeaveAPeriodicEvent`, `WriteProtocol.CloseCanLeaveItsEvent`), and by
  `WriteProtocol.OwnEventCanStay` the close path's own event can be left exactly when its batch had
  been reported done at the moment of posting.
- `ef_sync` is documented to push the data to the disk synchronously (evio/ef_file.c:1842-1846), but it
  only queues a request: `WriteProtocol.SyncCanReturnEarly` is a run, and `WriteProtocol.SyncReturns`
  says exactly when the disk holds the bytes as it returns.
- A length limit below 0 means no limit in `ev_buffered_stream`, because the count it is compared
  with is unsigned.
- `ef_file_fsync` has a branch for a full page (evio/ef_file.c:900-904); it is never taken, and
  neither are the aborts marked `assert false` in `PageFile` and `PageReader`.

## Model

| member | source | states |
|---|---|---|
| `TicketQueue.DequeueReturnsItsTicket` | evds/ev_pqueue.c:149-250 | in every interleaving the dequeue with ticket d returns the item of the enqueue with ticket d: N lanes form one FIFO |
| `TicketQueue.ReturnsAreFifo` | evds/ev_pqueue.c:149-250 | every value ever returned under ticket d was the item of enqueue d |
| `TicketQueue.NoFreedNodeTouched` | evds/ev_pqueue.c:172-206 | no step of any thread touches a freed node, and no ticket enters a lane twice |
| `TicketQueue.DequeuesNeverOvertake` | evds/ev_pqueue.c:117-141 | deq_counter plus dequeues past the test never exceeds enq_counter, despite over-decrements of lb_count |
| `TicketQueue.DequeueTicketHasEnqueue` | evds/ev_pqueue.c:160-169 | a dequeue about to take a ticket has a begun enqueue with that ticket |
| `TicketQueue.EmptyMeansEveryEnqueueClaimed` | evds/ev_pqueue.c:129-160 | when NULL is returned, at that instant every begun enqueue had been claimed by a dequeue |
| `TicketQueue.StepKeepsInv` | evds/ev_pqueue.c:117-250 | every step keeps the counter equations, the lane invariants and the ticket bookkeeping |
| `TicketQueue.ItemIsNeverLost` | evds/ev_pqueue.c:212-249 | every enqueue ticket e is still on its way, or its item is in an allocated node of lane e mod N at its place, or the dequeue with that ticket removed it |
| `TicketQueue.LaneServesItsTickets` | evds/ev_pqueue.c:71-76 | in every reachable state the tickets of lane i, and its next ones on both sides, are congruent to i modulo N |
| `TicketQueue.NextEnqueueEnters` | evds/ev_pqueue.c:212-229 | an enqueue with its node built passes the guard if and only if its ticket is the lane's next and nobody is inside |
| `TicketQueue.NextDequeueEnters` | evds/ev_pqueue.c:164-173 | a dequeue passes the guard of lane d mod N if and only if its ticket is that lane's next and nobody is inside |
| `TicketQueue.ArgumentIsKept` | evds/ev_pqueue.c:208-226 | the caller's argument stays with its thread from the call to the ticket, and becomes the item of that ticket for good |
| `TicketQueue.FrontAdvances` | evds/ev_pqueue.c:117-165 | a thread in front of its lane that does not wait comes closer to the end of its operation with each step |
| `TicketQueue.LaneAdvances` | evds/ev_pqueue.c:172-249 | so does a thread in a lane |
| `TicketQueue.SomeoneAdvances` | evds/ev_pqueue.c:79-249 | no deadlock: while a thread is inside an operation, some thread does not wait |
| `TicketQueue.QuietMeansSettled` | evds/ev_pqueue.c:149-250 | with nobody inside, both counters show the number of items, every dequeue ticket has returned its item, and only the items waiting are allocated |
| `TicketQueue.EnqueueAlone` | evds/ev_pqueue.c:208-250 | from every quiet reachable state an enqueue running alone ends with its argument behind all the items waiting |
| `TicketQueue.DequeueAlone` | evds/ev_pqueue.c:149-206 | a dequeue running alone ends and returns the oldest item waiting, or NULL if and only if there is none |
| `TicketQueue.EnqueueThenDequeue` | evds/ev_pqueue.c:149-250 | for every number of lanes, enqueue v on a new queue and then dequeue returns v |
| `TicketLane.StepKeepsInv` | evds/ev_pqueue.c:172-249 | every step in a lane keeps list, links, guards and the facts each thread relies on |
| `TicketLane.StepKeepsTickets` | evds/ev_pqueue.c:172-249 | every step keeps the tickets of a lane in order, loses no dequeue and leaks no node |
| `TicketLane.WaitsForSomeone` | evds/ev_pqueue.c:79-115 | a waiting thread waits for another thread of its lane or for the enqueue with the lane's next ticket |
| `TicketLane.EnabledIsSafe` | evds/ev_pqueue.c:175-206 | under the invariant every enabled step touches allocated nodes only |
| `TicketQueue.OneInGuard` | evds/ev_pqueue.c:79-115 | in every interleaving each guard admits one thread at a time, from its entry to the releasing store |
| `TicketLane.OneInGuard` | evds/ev_pqueue.c:79-115 | the same of one lane under the invariant |
| `MarkedQueue.StepRefinesFifo` | evds/ev_paqueue.c:135-246 | tail exchanges append the producer's argument, successful marks remove the first item, nothing else changes the queue, NULL only when empty |
| `MarkedQueue.ReturnsWhatItClaimed` | evds/ev_paqueue.c:152-220 | claim number k returns item number k in tail-exchange order, once, and that item is the argument of the enqueue that made the exchange |
| `MarkedQueue.HistoryGrows` | evds/ev_paqueue.c:149-246 | along every run insertions, claims and returns only grow, so item numbers keep their meaning |
| `MarkedQueue.NoFreedNodeTouched` | evds/ev_paqueue.c:165-246 | no step touches a freed node |
| `MarkedQueue.TailStaysSetWhileMarked` | evds/ev_paqueue.c:166-172 | after a mark the tail stays non-null until the marker zeroes it, and the head keeps the mark |
| `MarkedQueue.LastCasFailsExactlyWhenPublished` | evds/ev_paqueue.c:196-213 | the last head exchange fails if and only if the marker emptied the list and a producer has published the next node |
| `MarkedQueue.LastCasCanFail` | evds/ev_queue.c:309-319 | a concrete run reaches the failing exchange, hence the abort |
| `MarkedQueue.StepKeepsInv` | evds/ev_queue.c:255-400 | every step keeps the list invariant, whichever way the last exchange goes |
| `MarkedQueue.StepsAdvance` | evds/ev_paqueue.c:135-246 | a thread that does not wait comes closer to the end of its operation with each step |
| `MarkedQueue.SomeoneAdvances` | evds/ev_paqueue.c:135-246 | no deadlock: while a thread is inside an operation, some thread does not wait |
| `MarkedQueue.QuietMeansFreed` | evds/ev_paqueue.c:215-246 | with nobody inside, every allocated node is in the list |
| `MarkedQueue.EnqueueThenDequeue` | evds/ev_paqueue.c:135-246 | enqueue v on an empty queue and then dequeue returns v and leaves nothing allocated |
| `McsLock.MutualExclusion` | evsync/ev_mcs_lock.c:13-85 | at most one thread holds the lock |
| `McsLock.OwnersFollowTailExchanges` | evsync/ev_mcs_lock.c:22-40 | the lock is handed out in tail-exchange order |
| `McsLock.SuccessorIsNeverLost` | evsync/ev_mcs_lock.c:56-80 | when the tail exchange fails there is a successor, linked or about to be, and it is the one unlocked |
| `McsLock.WaitersAreLockedOut` | evsync/ev_mcs_lock.c:23-40 | a waiter's node is locked exactly while it is not next in line |
| `McsLock.NoFreedNodeTouched` | evsync/ev_mcs_lock.c:46-85 | no node is touched after its owner freed it |
| `McsLock.FreeLockIsTaken` | evsync/ev_mcs_lock.c:13-24 | an exchange on a free lock makes its thread the owner |
| `McsLock.NextInLineAcquires` | evsync/ev_mcs_lock.c:30-39 | the waiter next in line owns the lock after its next load |
| `McsLock.GrantHandsOver` | evsync/ev_mcs_lock.c:56-80 | the grant makes exactly the successor next in line, and its next load acquires |
| `McsLock.StepsAdvance` | evsync/ev_mcs_lock.c:13-85 | outside its two waits a thread comes closer to the end with each step |
| `McsLock.SomeoneAdvances` | evsync/ev_mcs_lock.c:13-85 | no deadlock: while a thread is inside acquire or relinquish, some thread does not wait |
| `McsLock.QuietMeansEmpty` | evsync/ev_mcs_lock.c:42-85 | with nobody inside, the lock is free and nothing is allocated |
| `McsLock.AcquireAlone` | evsync/ev_mcs_lock.c:13-40 | from every quiet reachable state a thread running alone gets the lock |
| `McsLock.RelinquishAlone` | evsync/ev_mcs_lock.c:42-85 | its release running alone leaves the lock free and its node freed |
| `MarkedStack.StepRefinesLifo` | evds/ev_stack.c:31-74 | a push exchange adds its argument on top, a second pop exchange removes exactly the top even with another popper's mark, NULL only when empty |
| `MarkedStack.PopReturnsWhatItRemoved` | evds/ev_stack.c:64-73 | pop number k returns the item its exchange removed, and has not returned before |
| `MarkedStack.PopsAreOnce` | evds/ev_stack.c:50-74 | over the whole past no node was removed twice and every value returned is the one that pop removed |
| `MarkedStack.HistoryGrows` | evds/ev_stack.c:31-74 | along every run pops and returns only grow |
| `MarkedStack.MarksStayInTheHead` | evds/ev_stack.c:36-69 | no node, private, stacked or popped, has a mark in its next pointer; a marked head has a popper between its two exchanges |
| `MarkedStack.ArgumentIsKept` | evds/ev_stack.c:31-45 | the caller's argument stays with its thread until its exchange succeeds |
| `MarkedStack.StepsAdvance` | evds/ev_stack.c:31-74 | a thread that does not wait comes closer to the end of its operation with each step |
| `MarkedStack.SomeoneAdvances` | evds/ev_stack.c:50-69 | no deadlock: a pop waits only for the popper that marked the head, which does not wait |
| `MarkedStack.PushThenPop` | evds/ev_stack.c:31-74 | push v on an empty stack and then pop returns v |
| `RwLock.WritersExclude` | evsync/ev_rwlock.c:20-55 | no reader holds alongside a writer, and at most one writer holds |
| `RwLock.ReadWordCountsReaders` | evsync/ev_rwlock.c:20-37 | rd_lock equals holding plus tentative readers |
| `RwLock.UnlockAssertionsHold` | evsync/ev_rwlock.c:57-72 | neither unlock assertion fires for a holder |
| `RwLock.MovesAdvance` | evsync/ev_rwlock.c:20-72 | outside its waits a thread comes closer with each move to holding the lock, or to having released it |
| `RwLock.SomeoneAdvances` | evsync/ev_rwlock.c:20-55 | no deadlock: if a thread waits, another is between its waits or holds the lock |
| `RwLock.ReaderCycle` | evsync/ev_rwlock.c:20-62 | without a writer a reader holds the lock after its moves, and its unlock takes back what it did |
| `RwLock.WriterCycle` | evsync/ev_rwlock.c:39-72 | on a free lock a writer holds it after its moves, and its unlock frees it |
| `RwLock.QuietMeansFree` | evsync/ev_rwlock.c:20-72 | with nobody inside, both words are 0 |
| `BufferList.StepRefinesSequence` | evds/memory_buffer_list.cpp:118-196 | with one producer and one consumer, add and pop are append of the argument and remove-first of one chunk sequence, NULL only when it is empty |
| `BufferList.PoppedNodeAndPublishedNode` | evds/memory_buffer_list.cpp:118-140 | the popped node carries the removed chunk; the tail re-read when publishing is the new node |
| `BufferList.WalkStaysInTheList` | evds/memory_buffer_list.cpp:73-109 | nodes reached by get_head and get_next are the list's nodes, in place |
| `BufferList.WaitsOnlyForThePublisher` | evds/memory_buffer_list.cpp:78-100 | the consumer waits for a head only while the producer is about to store it |
| `BufferList.NoFreedNodeTouched` | evds/memory_buffer_list.cpp:73-196 | no step touches a deleted node |
| `BufferList.WalkGoesOn` | evds/memory_buffer_list.cpp:106-109 | get_next goes on to the next node; NULL exactly at the last node or before one not linked yet |
| `BufferList.ProducerAdvances` | evds/memory_buffer_list.cpp:118-140 | the producer never waits: each step brings it closer to the end of add_node |
| `BufferList.ConsumerAdvances` | evds/memory_buffer_list.cpp:73-196 | a consumer that does not wait comes closer to the end of its call with each step |
| `BufferList.WaitEndsWithProducer` | evds/memory_buffer_list.cpp:78-196 | the consumer waits only while the producer is on its way to the store that ends the wait |
| `BufferList.QuietMeansListed` | evds/memory_buffer_list.cpp:118-196 | with nobody inside, every allocated node is in the list |
| `BufferList.AddThenPop` | evds/memory_buffer_list.cpp:118-196 | a chunk added to an empty list is popped again, and deleting its node leaves nothing |
| `ThreadPool.TaskInQueueIsNeverForgotten` | evthrpool/thread_pool.c:96-154 | before shutdown a non-empty queue has an awake worker or an enqueuer yet to signal |
| `ThreadPool.AwakeWorkerComesToTheQueue` | evthrpool/thread_pool.c:96-154 | while the queue is not empty each move of an awake worker takes the first task or brings it closer to taking it: one is taken after at most five moves |
| `ThreadPool.HeldTaskIsRun` | evthrpool/thread_pool.c:156-217 | a worker with a task runs it, or leaves its loop if it is a stop task |
| `ThreadPool.AwakeWorkerRunsNextTask` | evthrpool/thread_pool.c:96-217 | from every reachable state with a task in front, an awake worker that the mutex does not keep out takes and runs that task by its own moves |
| `ThreadPool.SleeperRunsEnqueuedTask` | evthrpool/thread_pool.c:96-258 | a task enqueued while a worker sleeps is run by that worker after the signal, with nobody else moving |
| `ThreadPool.StepRefinesQueue` | evthrpool/thread_pool.c:395-432 | tasks form one FIFO queue: enqueue appends, destroy appends one stop task for each worker, a dequeue takes the first |
| `ThreadPool.HolderReleases` | evthrpool/thread_pool.c:107-135 | a worker that holds the mutex can always move and releases it after at most three moves |
| `ThreadPool.ClientAdvances` | evthrpool/thread_pool.c:245-258 | an enqueuer that the mutex does not keep out leaves after at most three steps, and its signal wakes a sleeper if there is one |
| `ThreadPool.TaskRunsAtMostOnce` | evthrpool/thread_pool.c:156-217 | a task is held by one worker and has not run before |
| `ThreadPool.HistoryGrows` | evthrpool/thread_pool.c:96-217 | along every run tasks, takers and the set of tasks run only grow, so a task that has run is never held again |
| `ThreadPool.ShutdownRunsEveryEarlierTask` | evthrpool/thread_pool.c:408-438 | when all workers have been joined, every task enqueued before destroy has run |
| `ThreadPool.ShutdownReachesEveryWorker` | evthrpool/thread_pool.c:224-243 | after the broadcast no worker sleeps or is about to |
| `ThreadPool.BossAdvances` | evthrpool/thread_pool.c:408-432 | destroy stops only for the mutex and the joins, queues its stop tasks and wakes every sleeper |
| `ThreadPool.WorkersEndAfterBroadcast` | evthrpool/thread_pool.c:96-217 | after the broadcast every move of a worker brings it closer to the end of its loop |
| `PageFile.File.OneSingleWrite` | evio/ef_file.c:1255-1366 | append: the file grows by the data, at most one write past the buffer, every pwrite so far at the end of the disk file; otherwise the data overwrites at the offset and the size is the maximum |
| `PageFile.File.WriteTurn` | evio/ef_file.c:1286-1363 | one turn of the loop; the direct branch is entered only at the start of the data |
| `PageFile.File.WriteDirect` | evio/ef_file.c:1294-1326 | the direct branch appends the start of the data and either ends the write or clears the unaligned flag |
| `PageFile.File.CopyToPage` | evio/ef_file.c:1327-1343 | copying into the page is writing into the flat file |
| `PageFile.File.FinishPage` | evio/ef_file.c:1344-1358 | a full page reaches the disk and the buffer mirrors the next page |
| `PageFile.File.Position` | evio/ef_file.c:1263-1281 | append mode goes to the end of the file; the abort for a misplaced dirty page is unreachable |
| `PageFile.File.SyncBufToFile` | evio/ef_file.c:1229-1253 | writing the page and truncating gives the flat file; in append mode the write is at the end of the disk file |
| `PageFile.File.SyncBufFromFile` | evio/ef_file.c:1191-1225 | the page buffer mirrors the disk where the file is readable |
| `PageFile.File.Fsync` | evio/ef_file.c:893-915 | the disk becomes the flat file, which does not change |
| `PageFile.File.WriteBatch` | evio/ef_file.c:917-933 | a batch writes all its bytes in order; after a final fsync the disk is the flat file |
| `PageFile.File.constructor` | evio/ef_file.c:154-194 | opening establishes the invariant in all three modes |
| `FlatFile.OverwriteTwice` | evio/ef_file.c:1286-1363 | consecutive writes are one write of the concatenation |
| `FlatFile.OverwriteBytes` | evio/ef_file.c:1327-1343 | inside the range the data, outside it the old file |
| `WriteProtocol.ClosedFileIsComplete` | evio/ef_file.c:288-303 | when the close path sees its writes complete, the disk is the original content followed by every accepted byte |
| `WriteProtocol.ClosedUntouched` | evio/ef_file.c:288-303 | closing a file never written leaves it unchanged |
| `WriteProtocol.EventsLeftAtClose` | evio/ef_file.c:288-303 | every event left in the writer's queue when the close path sees its writes complete belongs to a request counted after it read the total or to one whose batch was reported done before its event was posted |
| `WriteProtocol.OwnEventCanStay` | evio/ef_file.c:1019-1041 | once the close path has posted its event, some continuation closes with that event still queued if and only if the batch with its fsync had been reported done at the moment of posting |
| `WriteProtocol.CloseCanLeaveItsEvent` | evio/ef_file.c:1019-1035 | a concrete run closes with the close path's own event left over |
| `WriteProtocol.CloseCanLeaveAPeriodicEvent` | evio/ef_file.c:1062-1072 | a concrete run closes with an event of the periodic thread left over |
| `WriteProtocol.SyncReturns` | evio/ef_file.c:1847-1899 | when ef_sync returns, the disk holds the accepted bytes if and only if no request with bytes is left to carry out and no dirty bytes are kept |
| `WriteProtocol.SyncCanReturnEarly` | evio/ef_file.c:1847-1899 | a concrete run returns from ef_sync with nothing on the disk |
| `WriteProtocol.BytesAreConserved` | evio/ef_file.c:1376-1490 | in every reachable state file, queued requests, request in hand, accumulator and caller's rest are the accepted bytes in order |
| `WriteProtocol.LogIsBatchThenQueue` | evio/ef_file.c:1112-1179 | requests not completed are the batch followed by the queue; total counts the queued ones and at most one on its way |
| `WriteProtocol.OneBatchInFlight` | evio/ef_file.c:1112-1179 | at most one batch in flight; completed <= batched <= total; total = completed implies queue and batch empty |
| `WriteProtocol.RequestIsNeverStranded` | evio/ef_file.c:1154-1179 | a queued request has an event, a batch in flight, a gathering writer or a producer about to post |
| `WriteProtocol.UnlockNeverAborts` | evio/ef_file.c:1467-1478 | releasing write suspension finds the value that was stored |
| `WriteProtocol.StepKeepsInv` | evio/ef_file.c:986-1189 | every step of every thread keeps the invariant |
| `WriteProtocol.FillKeepsPending` | evio/ef_file.c:1440-1465 | accumulating neither loses nor reorders bytes |
| `WriteProgress.HolderAdvances` | evio/ef_file.c:1376-1490 | a holder of ws never waits: each operation brings it closer to releasing ws, and the release goes through |
| `WriteProgress.WaitsOnlyForHolder` | evio/ef_file.c:1376-1490 | a producer gets ws if and only if the other one does not hold it |
| `WriteProgress.BackStepsEnd` | evio/ef_file.c:986-1189 | every step of the writer thread and of a worker uses up some of a bounded amount of work |
| `WriteProgress.WorkGoesOn` | evio/ef_file.c:986-1189 | while work is left one of them can go on, unless a producer is just about to post |
| `WriteProgress.WorkIsDone` | evio/ef_file.c:917-1189 | they alone carry out every queued request: all are counted as completed and the file has all their bytes in order |
| `WriteProgress.CloseEnds` | evio/ef_file.c:288-303 | once the close path reads the counters and the periodic thread is out, the close can end, with every accepted byte on the disk |
| `PageReader.Reader.Read` | evio/ef_file.c:758-891 | a successful read returns the next bytes of the file; 0 exactly at its end; the aborts are unreachable |
| `PageReader.Reader.FireRead` | evio/ef_file.c:482-507 | a read is fired only at a page start with no action pending |
| `PageReader.Reader.BackgroundStep` | evio/ef_file.c:372-410 | background steps at any time keep the reader consistent and do not move it |
| `PageReader.Reader.RunSchedule` | evio/ef_file.c:758-891 | any polling pattern and background timing yields the file's bytes in order |
| `PageReader.Reader.ReadToEnd` | evio/ef_file.c:758-891 | polling until end of file terminates and yields the whole rest of the file |
| `ChunkedStream.Stream.Push` | evds/chunked_memory_stream.cpp:13-22 | appends the bytes; empty pushes add no chunk |
| `ChunkedStream.Stream.Copy` | evds/chunked_memory_stream.cpp:39-100 | returns the clipped slice and changes nothing |
| `ChunkedStream.Stream.Read` | evds/chunked_memory_stream.cpp:120-163 | returns and removes the first bytes |
| `ChunkedStream.Stream.Erase` | evds/chunked_memory_stream.cpp:168-203 | removes the first bytes and counts them |
| `ChunkedStream.Stream.Transfer` | evds/chunked_memory_stream.cpp:250-261 | moves all bytes of another stream to the end of this one |
| `ChunkedStream.Stream.ShiftHead` | evds/memory_buffer_list.cpp:41-55 | the position assertion holds and every chunk keeps a positive length |
| `ChunkedStream.ReadIsCopyThenErase` | evds/chunked_memory_stream.cpp:120-203 | read(n) equals copy(0, n) followed by erase(n) |
| `LimitedReader.Reader.LowRead` | evds/ev_buffered_stream.cpp:133-166 | slices are the next bytes of the stream, none exactly at the limit, and then all delivered bytes are gone |
| `LimitedReader.Reader.ReadAll` | evds/ev_buffered_stream.cpp:133-166 | the slices concatenate to the first min(limit, total) bytes, or to all for a limit that is not positive, for any buffer size and chunking |
| `LimitedReader.Reader.Destroy` | evds/ev_buffered_stream.cpp:48-62 | the draining destructor terminates and consumes exactly up to the limit |
| `LimitedReader.ReadInParts` | evds/ev_buffered_stream.cpp:133-166 | successive readers take consecutive parts |
| `LimitedReader.PartsPartition` | evds/ev_buffered_stream.cpp:133-166 | those parts and the remainder are the stream |
| `Base64.Encode` | core_utils/base64.c:57-98 | produces the specified text in exactly the length computed beforehand: character p is the padding, a line break, or the next six bits of the octets in the alphabet of RFC 4648 |
| `Base64.Decode` | core_utils/base64.c:135-289 | computes the specified result for every input, including all failures, and reads past the input exactly when two octets are missing and the first padding character is last |
| `Base64.ReadsPastEndHappens` | core_utils/base64.c:244-249 | an input on which the decoder reads past the end |
| `Base64.PaddingAccepted` | core_utils/base64.c:229-275 | exactly which texts with padding are accepted |
| `Base64.ImproperPaddingAccepted` | core_utils/base64.c:229-275 | exactly which accepted texts have other padding than the standard asks for |
| `Base64.SecondCharacterUnseen` | core_utils/base64.c:236-249 | with two octets missing and one padding character, appending any character changes nothing |
| `Base64.NothingMayFollowPadding` | core_utils/base64.c:251-263 | proper padding followed by anything, white space included, is refused |
| `Base64.BlanksAfterEncoded` | core_utils/base64.c:57-289 | white space after the encoder's output is accepted if and only if there is no padding |
| `Base64.SecondPaddingUnseen` | core_utils/base64.c:229-258 | an input whose second padding character is something else and is accepted |
| `Base64.EncodedStaysInside` | core_utils/base64.c:57-289 | on the encoder's output the decoder never reads past the end |
| `Base64.RoundTripFailsAt56` | core_utils/base64.c:84-95 | with line breaks the round trip fails for 56 octets |
| `Base64.RoundTrip` | core_utils/base64.c:57-289 | decode(encode(x)) = x if and only if the padding does not overwrite a final line break; otherwise decoding fails |
| `Base64.UrlRoundTrip` | core_utils/base64.c:100-309 | the URL variants satisfy the same, and their text has no '+' or '/' |
| `Base64.UrlEncode` | core_utils/base64.c:100-113 | encodes and replaces the two characters |
| `Base64.UrlDecode` | core_utils/base64.c:291-309 | restores the two characters and decodes |
| `Base64.AlphabetRoundTrip` | core_utils/base64.c:8-36 | the two tables are inverse; no sextet encodes to a space or to padding |
| `Base64.EncodeSextetIsAlphabet` | core_utils/base64.c:8-16 | the encoding table is the literal alphabet of section 4 of RFC 4648 |
| `Base64.DecodeCharIsPosition` | core_utils/base64.c:19-36 | the decoding table gives each character its position in that alphabet, and 255 to all others |
| `Base64.SpacesAre` | core_utils/base64.c:116 | white space is exactly tab, line feed, carriage return and blank |
| `Base64.EncodedByIndex` | core_utils/base64.c:73-96 | the encoder's text, character by character |
| `Base64.DecodedByIndex` | core_utils/base64.c:135-289 | the decoder's result, octet by octet, from the characters that are not white space |
| `Base64.ToUrlIsAlphabet` | core_utils/base64.c:100-113 | the URL text is in the alphabet of section 5 of RFC 4648, padding and line breaks as they are |
| `Base64.FromUrlIsPosition` | core_utils/base64.c:291-309 | the URL decoder gives each character its position in the URL alphabet, or in the standard one, which it also accepts |
| `Base64.FillsOutput` | core_utils/base64.c:63-90 | the encoding loop never exceeds and finally fills the computed length |

## Left out

- Weak memory orderings and fences; fair scheduling, and with it a bound on how long a waiting thread is passed over.
- C integer overflow of tickets, counters and sizes.
- Diagnostic fields of `ev_queue` (inflight, magic, id, counters) and the quarantine ring.
- The choice of lane in `ev_paqueue`: one lane is modelled, the counters only pick it.
- The queues used inside the thread pool and the file layer are atomic FIFOs there, and the writer thread's own sleep is not modelled.
- Freeing of stack nodes, which the source never does, and concurrent calls of destroy functions.
- The semaphore build of the thread pool and its per-thread statistics.
- Read-ahead, whose trigger is commented out, and files opened O_WRONLY without O_APPEND.
- Reads and writes mixed on one handle: `ef_read` on a file with a write action can mark that action complete.
- The lifetime of a write action after it completes, with the locks that guard its replacement; only the events left for it are described.
- System-call failures, O_DIRECT and fcntl flags, callbacks, errno values, sleeps and null arguments.
- Ownership of the chunk memory when a stream is transferred; concurrency of chunked streams beyond `BufferList`.
- The output side of `ev_buffered_stream` and its character reads.
- `ev_piqueue`, `ev_mpiqueue`, `ev_spiqueue`, `ev_spin_lock`, compression, hexadecimal, trigraph and floating-point helpers, raw memory helpers, `cutest` and `try`.
