# A verified model of the file-sharing daemon

The daemon shares files between peers: clients and other daemons connect over
sockets, a pool of threads serves them, files are identified by MD5 digests and
arrive block by block, and users type command lines. This project models the
parts of it that carry state or an algorithm and proves what they are for.

## What is modelled

* **Streaming MD5** (`Md5Words`, `Md5Transform`, `Md5Context`). The context is a
  class with the arrays of the original, updated in place. It is proved against
  the one-shot definition of RFC 1321, sections 3.1 to 3.5, for every message
  and every way of cutting it into chunks; the unrolled rounds are proved
  against the table-driven definition. `Md5Vectors` proves two digests of
  section A.5 by value, from the steps that `Md5Empty` and `Md5Abc` work out
  with the rules of `Md5Rows`. `FileKey` is the key of a file: its digest in
  hexadecimal.
* **The thread pool**, twice. `PoolProtocol` is a step system: any number of
  workers, callers of `pool_queue`, `pool_flush_by_arg` and `pool_kill`, and one
  caller of `pool_destroy`, interleaved at every lock, unlock, wait, wake-up
  (spurious ones included) and cancellation point. Workers follow
  branches/pooled_not_broken/daemon/thread_pool.c:43-108, callers lines 166-244,
  destruction lines 247-282. `PoolSlots` and `PoolJobs` prove what each step
  keeps, `PoolCancel` who has been cancelled, `PoolRuns` what holds over all
  runs, `PoolEvents` how the events of a run decide what becomes of each job,
  `PoolWait` what the wait of `pool_destroy` achieves, and `PoolKill` and
  `PoolReturn` that `pool_kill` and `pool_destroy` come to an end. `JobQueue` is the linked job queue on the heap,
  with the pointer-to-pointer loop of the flush; `PoolQueue` drives it along any
  run of the step system whose flushes keep its tail, and `PoolOnce` shows that
  they do if each argument is queued once.
* **The life of a request** (`RequestProtocol`, `RequestLife`, `RequestRuns`,
  `RequestBounds`, `RequestLimits`, `RequestHistory`, `RequestCleanup`): the
  thread of each client reads, limits, lists and queues requests and finally
  cleans up, while the workers of the slow and the fast
  pool run them. Every access under `req_lock` is a step of its own. The
  threads follow branches/pooled_not_broken/daemon/client_handler.c:52-135 and
  166-184, and branches/pooled_not_broken/daemon/client_request.c:88-109.
  `RequestList` is the doubly linked list of requests on the heap.
* **Admission of clients** (`Admission`): the accept loop, `nb_clients` with its
  lock and its non-atomic increments, and the workers that release the slots
  (branches/pooled_not_broken/daemon/main.c:266, 349-380, 447-453 and
  branches/pooled_not_broken/daemon/client_handler.c:145-191).
* **The hole map** (`HoleMap` on values, `HoleList` on the heap): the missing
  byte ranges of a file, against the plain set of missing bytes.
* **The file cache** (`FileCache`): the search tree from key to file and
  seeders, updated in place, against a plain map and against the history of calls.
* **Command lines** (`Tokens`, `CmdParser`, `CmdMeaning`, `CmdSplit`): the
  tokenizer, the option parser with its error exits and the ownership of every
  token, and the splitter at single spaces.

In the step systems a run is any sequence of enabled events from the initial
state, and a reachable state is one that some run leads to (`Runs`). `status`,
`freeCount`, `started` and `stage` are history: no step depends on them except
to name the job or request it is about.

## Where the code departs from its intent

* `hole_map_fill_gap` drops the result of its recursive call
  (branches/block_by_block/daemon/hole_map.c:42). `FillGap` models the intent,
  `FillGapAsWritten` the code, with the exact condition under which they differ.
  The value-level results are about the intent.
* `pool_flush_by_arg` can leave the tail on a freed node
  (branches/pooled_not_broken/daemon/thread_pool.c:201-210). `FlushByArg` is the
  code, with the exact condition; it never arises with one job per argument.
* `MD5Update` computes `i + 63` at 32 bits (trunk/util/md5/md5_algorithm.c:132).
  When the bytes pending in the buffer and the input together reach 2^32 the test
  holds at every value the variable can take and the call never returns;
  otherwise it ends (`LoopStops`). `Update` therefore asks for the latter.
* `UINT4` is declared as an unsigned long and documented as four bytes
  (trunk/util/md5/md5_global.h:22-23); it is modelled as four bytes.
* `client_remove` does not repair `prev` behind a middle node
  (branches/pooled_not_broken/daemon/client.c:78); `ClientRemove` is the code
  with the exact condition.
* `max_requests_per_client` is compared, for equality, with the number of started
  requests (branches/pooled_not_broken/daemon/client_handler.c:63). It bounds the
  started requests of a client in every run exactly if it is zero or no less than
  the workers of the two pools, and the requests listed exactly if it is zero.
* The clean-up of a client can free a request that a worker has popped and not
  yet marked (lines 174-180 of the same file), exactly when the flush no longer
  finds it in the queue; some run does so unless nothing is ever admitted or
  there are no workers. A worker left with a freed request takes no further step
  in the model: what the program does then is undefined.
* `cmd_parse_free` does not recognise the result for an empty command
  (trunk/daemon/util/cmd_parser.c:117-120).
* `file_cache_new` cuts off an address longer than its buffer without a
  terminator (branches/pooled/daemon/file_cache.c:42).
* The map of an empty file is the range from 0 to -1
  (branches/block_by_block/daemon/file_cache.c:53), which no block completes.

## Model

| member | source | states |
|---|---|---|
| `Md5Context.Context.constructor` | trunk/util/md5/md5_algorithm.c:97-105 | a new context has been fed nothing and satisfies the invariant: the state is the fold of the compression over the whole blocks fed, the buffer holds the rest, the count is the length in bits |
| `Md5Context.Context.Init` | trunk/util/md5/md5_algorithm.c:97-105 | re-establishes that invariant for the empty message, whatever was in the context |
| `Md5Context.Context.AddCount` | trunk/util/md5/md5_algorithm.c:117-121 | the two count words become those of the longer message, carry included, for every length below 2^32 |
| `Md5Context.CountAdds` | trunk/util/md5/md5_algorithm.c:117-121 | comparing the low word with the addend detects the carry exactly, so the words are again the bit length modulo 2^64 |
| `Md5Context.CountIndex` | trunk/util/md5/md5_algorithm.c:115 | bits 3 to 8 of the low word are the message length modulo 64, also after the word has wrapped |
| `Md5Context.Context.Update` | trunk/util/md5/md5_algorithm.c:111-144 | any chunk extends what has been fed by exactly its bytes and keeps the invariant, as long as the 32-bit loop test does not wrap |
| `Md5Context.Context.CompleteBlocks` | trunk/util/md5/md5_algorithm.c:127-136 | the buffered bytes and the input are compressed block by block in order, leaving less than a block |
| `Md5Context.Context.TransformBlocks` | trunk/util/md5/md5_algorithm.c:132-133 | the loop over whole blocks with its wrapping 32-bit test stops exactly where less than one block is left |
| `Md5Context.GuardOverruns` | trunk/util/md5/md5_algorithm.c:132 | after the last whole block the test is still true, sending the loop past the input, if and only if the pending bytes and the input together reach 2^32 |
| `Md5Context.GuardNeverEnds` | trunk/util/md5/md5_algorithm.c:132 | past that bound the test holds at every value that the loop variable can take |
| `Md5Context.LoopStops` | trunk/util/md5/md5_algorithm.c:132-133 | the loop, with its 32-bit variable, comes to an end if and only if the pending bytes and the input together stay below 2^32 |
| `Md5Context.LoopNeverStops` | trunk/util/md5/md5_algorithm.c:132-133 | with one pending byte and an input of 2^32 - 1 bytes it goes on for ever |
| `Md5Context.Context.Pad` | trunk/util/md5/md5_algorithm.c:153-163 | the padding and the length extend what has been fed to the padded message of RFC 1321 |
| `Md5Context.Context.Final` | trunk/util/md5/md5_algorithm.c:149-170 | the digest is that of RFC 1321 of everything fed, in any cutting, and the context is zeroed |
| `Md5Context.DigestOfChunks` | trunk/util/md5/md5.c:158-181 | for every way of cutting a message into chunks the result is the one-shot digest of the bytes joined |
| `Md5Context.PaddingLength` | trunk/util/md5/md5_algorithm.c:158-159 | between 1 and 64 bytes bring the length to 56 modulo 64 (RFC 1321 section 3.1) |
| `Md5Context.PaddingIsShortest` | trunk/util/md5/md5_algorithm.c:158-159 | no shorter padding of at least one byte does |
| `Md5Context.Padded` | trunk/util/md5/md5_algorithm.c:153-163 | the padded message always ends on a block boundary |
| `Md5Context.LengthWordsValue` | trunk/util/md5/md5_algorithm.c:117-121 | the two words are the bit length modulo 2^64 (RFC 1321 section 3.2) |
| `Md5Rows.Row` | trunk/util/md5/md5_algorithm.c:180-249 | the registers after four more steps are those whose sums, carries and rotations add up as written out |
| `Md5Vectors.ShortWords` | trunk/util/md5/md5_algorithm.c:153-163 | the padded block of a message of up to three bytes, word for word |
| `Md5Vectors.OneBlock` | trunk/util/md5/md5_algorithm.c:149-170 | the digest of such a message is what the registers after the 64 steps and the final additions decode |
| `Md5Vectors.DigestOfEmpty` | trunk/util/md5/md5_algorithm.c:149-170 | the digest of the empty message by value, the first vector of section A.5 of RFC 1321 |
| `Md5Vectors.DigestOfAbc` | trunk/util/md5/md5_algorithm.c:149-170 | the digest of the message abc by value, the third vector of section A.5 of RFC 1321 |
| `FileKey.GetMd5` | trunk/daemon/daemon_requests/daemon_request_list.c:21-37 | the key of a file, read in any pieces, is its digest in 32 hexadecimal digits and a NUL |
| `FileKey.HexAt` | trunk/daemon/daemon_requests/daemon_request_list.c:33-35 | the digits at 2i and 2i + 1 are those of byte i, high half first, and give it back |
| `FileKey.HexInjective` | trunk/daemon/daemon_requests/daemon_request_list.c:33-35 | different digests have different keys |
| `FileKey.KeysAreAccepted` | branches/pooled/daemon/file_cache.c:25-36 | the file cache accepts the key of every file, if and only if the name has at most 256 characters |
| `FileKey.KeyOfEmptyFile` | trunk/daemon/daemon_requests/daemon_request_list.c:21-37 | the key of the empty file, digit by digit |
| `Md5Context.FoldOne` | trunk/util/md5/md5_algorithm.c:127-133 | compressing one more block is the fold over the message extended by it |
| `Md5Context.Copy` | trunk/util/md5/md5_algorithm.c:289-294 | the given stretch is copied and the rest of the target kept |
| `Md5Context.Clear` | trunk/util/md5/md5_algorithm.c:298-303 | every byte is zeroed |
| `Md5Transform.Rounds` | trunk/util/md5/md5_algorithm.c:180-249 | the 64 unrolled statements compute the table-driven 64 steps of RFC 1321 section 3.4 |
| `Md5Transform.WordIndices` | trunk/util/md5/md5_algorithm.c:180-249 | the closed formula for the word read by each step gives the indices spelled out in the unrolled code |
| `Md5Transform.FourSteps` | trunk/util/md5/md5_algorithm.c:74-93 | rotating the registers and renaming them come to the same after every four steps |
| `Md5Transform.FourMacros` | trunk/util/md5/md5_algorithm.c:180-249 | four macro calls of a round, with its shifts and constants, are four steps of the table-driven form |
| `Md5Transform.Transform` | trunk/util/md5/md5_algorithm.c:174-259 | the state is replaced by its compression with the 64 bytes of the block |
| `Md5Transform.StepCancels` | trunk/util/md5/md5_algorithm.c:74-93 | each step is undone by an explicit inverse step, on either side |
| `Md5Transform.StepsInvertible` | trunk/util/md5/md5_algorithm.c:180-249 | for any block the step map before the final additions is a bijection of the 128-bit states |
| `Md5Words.RotationsCancel` | trunk/util/md5/md5_algorithm.c:69 | a left rotation by n is undone by one by 32 - n |
| `Md5Words.BitsF` | trunk/util/md5/md5_algorithm.c:62 | the result has the bits of y where x is set and those of z where it is not |
| `Md5Words.BitsG` | trunk/util/md5/md5_algorithm.c:63 | the bits of x where z is set and those of y where it is not |
| `Md5Words.BitsH` | trunk/util/md5/md5_algorithm.c:64 | x where y and z agree, its complement where they differ |
| `Md5Words.BitsI` | trunk/util/md5/md5_algorithm.c:65 | y where z is set and x is not, its complement elsewhere |
| `Md5Words.Encode` | trunk/util/md5/md5_algorithm.c:264-273 | writes the bytes of the words, low-order byte first, and nothing beyond them |
| `Md5Words.Decode` | trunk/util/md5/md5_algorithm.c:278-284 | reads the words back, and writes nothing beyond them |
| `Md5Words.DecodeUndoesEncode` | trunk/util/md5/md5_algorithm.c:264-284 | decoding the encoding of any words gives the words |
| `Md5Words.EncodeUndoesDecode` | trunk/util/md5/md5_algorithm.c:264-284 | encoding the decoding of any bytes, four at a time, gives the bytes |
| `PoolSlots.SlotKept` | branches/pooled_not_broken/daemon/thread_pool.c:43-108 | every step of every thread keeps: a worker is inside a critical section exactly if it owns the mutex, a killed slot is refilled only after its worker is dead, no sleeper misses a wake-up, a joined worker is dead |
| `PoolSlots.AliveKept` | branches/pooled_not_broken/daemon/thread_pool.c:43-54 | every step keeps nb_alive_threads equal to the number of workers between their increment and their decrement |
| `PoolSlots.DestroyerWakeKept` | branches/pooled_not_broken/daemon/thread_pool.c:247-264 | every step keeps: a destroyer asleep and not signalled has workers to wait for, or the last one is about to signal it |
| `PoolCancel.CancelKept` | branches/pooled_not_broken/daemon/thread_pool.c:235-257 | every step keeps: a worker is cancelled if and only if a pool_kill in progress or the loop of pool_destroy has got to it |
| `PoolJobs.JobsKept` | branches/pooled_not_broken/daemon/thread_pool.c:81-104 | every step keeps the order of the jobs and the agreement of queue, workers and the state of each job |
| `PoolRuns.InvStep` | branches/pooled_not_broken/daemon/thread_pool.c:67-108 | the conjunction of these is inductive over all interleavings |
| `PoolRuns.CleanupHoldsMutex` | branches/pooled_not_broken/daemon/thread_pool.c:43-54 | every entry to worker_cleanup, by the destroy break, a cancellation in the wait or one in the job, holds the mutex alone |
| `PoolRuns.CleanupRuns` | branches/pooled_not_broken/daemon/thread_pool.c:43-54 | the handler then runs to its end, lowers the count by one and leaves the mutex free |
| `PoolRuns.AliveBounds` | branches/pooled_not_broken/daemon/thread_pool.c:73-74 | nb_alive_threads is the number of counted workers and stays between 0 and nb_threads in every reachable state |
| `PoolRuns.RespawnReplacesDead` | branches/pooled_not_broken/daemon/thread_pool.c:225-244 | pool_kill refills a slot only when its worker has terminated, and the count does not change |
| `PoolRuns.NoLostWakeUp` | branches/pooled_not_broken/daemon/thread_pool.c:83-88 | with the mutex free, a worker asleep and not signalled implies an empty queue and no destruction, and a destroyer asleep and not signalled implies workers alive |
| `PoolRuns.FreeWorkerMoves` | branches/pooled_not_broken/daemon/thread_pool.c:67-108 | with the mutex free, every worker that is not asleep without a signal can take its next step |
| `PoolRuns.OwnerMoves` | branches/pooled_not_broken/daemon/thread_pool.c:67-108 | whoever owns the mutex can always take its next step: no critical section blocks |
| `PoolRuns.DestroyNeverStuck` | branches/pooled_not_broken/daemon/thread_pool.c:247-282 | from the moment destroy is set until pool_destroy returns somebody can always move without any further signal and without any job ending by itself |
| `PoolRuns.CancelledExactly` | branches/pooled_not_broken/daemon/thread_pool.c:255-257 | in every reachable state a worker is cancelled if and only if a pool_kill in progress or the loop of pool_destroy has got to it; past the loop all are |
| `PoolRuns.CancelReachesJob` | branches/pooled_not_broken/daemon/thread_pool.c:255-257 | so each worker in a job that they have got to can be cancelled there |
| `PoolKill.KillReturns` | branches/pooled_not_broken/daemon/thread_pool.c:224-244 | from every reachable state in which a pool_kill is in progress and the mutex is free at most thirteen steps, of it and of the worker that it has cancelled and none of them a job ending by itself, replace that worker by a new one |
| `PoolKill.CancelledLeaves` | branches/pooled_not_broken/daemon/thread_pool.c:42-65 | a worker cancelled in a job or in its sleep is on its way out in every continuation until its slot is refilled: it takes no other job |
| `PoolWait.WaitEndsJobs` | branches/pooled_not_broken/daemon/thread_pool.c:259-270 | from the end of the wait on no worker has or gets a job: each is yet to find out that it has to leave, or on its way out |
| `PoolWait.LastWorkerSignals` | branches/pooled_not_broken/daemon/thread_pool.c:46-53 | a worker that leaves signals the destroyer if and only if no worker is counted any more |
| `PoolReturn.DestructionIsBounded` | branches/pooled_not_broken/daemon/thread_pool.c:247-282 | from the moment destroy is set the steps of any run, spurious wake-ups aside, are at most 23 for each worker, 6, one for each queued job and two for each spurious wake-up of the destroyer |
| `PoolReturn.DestroyReturns` | branches/pooled_not_broken/daemon/thread_pool.c:247-282 | so a run without spurious wake-ups has a bounded number of steps left, and when nobody can move any more but by a job ending by itself pool_destroy has returned |
| `PoolRuns.StartsInOrder` | branches/pooled_not_broken/daemon/thread_pool.c:89-93 | jobs start in the order in which they were queued, and those pending come after all those started |
| `PoolRuns.EveryJobAccountedFor` | branches/pooled_not_broken/daemon/thread_pool.c:81-104 | every job ever queued is in exactly one of pending, running, finished, cancelled, flushed, discarded, and its node is freed at most once and, once out of all hands, exactly once |
| `PoolRuns.FinalForGood` | branches/pooled_not_broken/daemon/thread_pool.c:81-104 | a job that is finished, cancelled, flushed or discarded stays so for the rest of the run |
| `PoolEvents.EndsStep` | branches/pooled_not_broken/daemon/thread_pool.c:81-104 | a step makes a job finished, cancelled, flushed or discarded if and only if it is the step of its worker, of a flush for its argument, or of the last loop of pool_destroy at it |
| `PoolEvents.StatusIsHistory` | branches/pooled_not_broken/daemon/thread_pool.c:81-104 | so in every run a job has one of these statuses if and only if an event of the run ended it so |
| `PoolEvents.JobsAreQueued` | branches/pooled_not_broken/daemon/thread_pool.c:166-188 | the jobs of a run and their arguments are those of the calls of pool_queue, in the order of the mutex |
| `PoolRuns.DestroyStopsStarts` | branches/pooled_not_broken/daemon/thread_pool.c:86-88 | after destroy is set no worker takes another job, in any continuation |
| `PoolRuns.DestroyLeavesNobody` | branches/pooled_not_broken/daemon/thread_pool.c:266-270 | when pool_destroy returns every worker has terminated, none is counted and the mutex is free |
| `PoolRuns.DestroySettlesEveryJob` | branches/pooled_not_broken/daemon/thread_pool.c:272-278 | when pool_destroy returns the queue is empty and every job is settled with its node freed exactly once |
| `PoolRuns.WaitCanMissAWorker` | branches/pooled_not_broken/daemon/thread_pool.c:259-264 | the wait alone would not do: it can end while a worker has not counted itself yet |
| `JobQueue.Queue.Push` | branches/pooled_not_broken/daemon/thread_pool.c:166-188 | appends one node to the abstract queue, also when the tail is stale because the queue was empty |
| `JobQueue.Queue.Pop` | branches/pooled_not_broken/daemon/thread_pool.c:89-93 | takes the first node off and keeps the rest |
| `JobQueue.Queue.Unlink` | branches/pooled_not_broken/daemon/thread_pool.c:202-207 | redirecting one link removes exactly that node and keeps the chain |
| `JobQueue.Queue.Examine` | branches/pooled_not_broken/daemon/thread_pool.c:199-220 | one turn of the loop: the node is removed and freed or passed over, and the tail follows |
| `JobQueue.Queue.FlushByArg` | branches/pooled_not_broken/daemon/thread_pool.c:191-222 | exactly the jobs for arg leave the queue and are freed, the others keep their order; the tail is right afterwards if and only if the flush does not lose it |
| `JobQueue.TailAtEnd` | branches/pooled_not_broken/daemon/thread_pool.c:208-216 | the tail left by the loop is the last job kept if and only if not both of the last two jobs matched while others remain |
| `JobQueue.OneJobPerArgument` | branches/pooled_not_broken/daemon/thread_pool.c:191-222 | with at most one job for each argument, as the daemon queues them, the tail is never lost |
| `JobQueue.LosesTailExample` | branches/pooled_not_broken/daemon/thread_pool.c:201-210 | a queue of one kept and two matching jobs loses it |
| `JobQueue.Queue.FreeFirst` | branches/pooled_not_broken/daemon/thread_pool.c:275-278 | one turn of that loop frees the first node and keeps the rest |
| `JobQueue.Queue.FreeAll` | branches/pooled_not_broken/daemon/thread_pool.c:272-278 | frees every remaining node once, in order |
| `PoolQueue.TracksPop` | branches/pooled_not_broken/daemon/thread_pool.c:89-93 | a worker that pops takes the node of the job number that it takes in the step system, and the list stays that of the pending jobs |
| `PoolQueue.FlushStands` | branches/pooled_not_broken/daemon/thread_pool.c:191-222 | a flush keeps the nodes of exactly the jobs that the step keeps in the queue and frees those of exactly the jobs that it marks as flushed, in order |
| `PoolQueue.TracksFlush` | branches/pooled_not_broken/daemon/thread_pool.c:191-222 | so the nodes freed so far stay exactly those of the jobs flushed or discarded |
| `PoolQueue.OneJobKeepsTail` | branches/pooled_not_broken/daemon/thread_pool.c:208-216 | with at most one pending job for the argument a flush keeps the tail |
| `PoolQueue.Drive` | branches/pooled_not_broken/daemon/thread_pool.c:166-222 | each step of the pool, done by the code on the linked list, leaves it in step with the queue of job numbers |
| `PoolOnce.QueuedOnceIsSafe` | branches/pooled_not_broken/daemon/client_handler.c:134 | if the arguments given to pool_queue are pairwise different, as the daemon gives them, no flush of the run loses the tail |
| `PoolOnce.FollowQueuedOnce` | branches/pooled_not_broken/daemon/client_handler.c:134 | so the linked list follows every such run |
| `PoolQueue.Follow` | branches/pooled_not_broken/daemon/thread_pool.c:166-282 | over any run whose flushes keep the tail the linked list ends up holding the nodes of the pending jobs in order, with the right tail, and the nodes freed are those of the jobs flushed or discarded |
| `RequestList.Add` | branches/pooled_not_broken/daemon/client_request.c:46-56 | prepends and keeps a list in which prev mirrors next and the head has no prev |
| `RequestList.Remove` | branches/pooled_not_broken/daemon/client_request.c:58-78 | removes exactly the given member, keeps the order of the others and both directions |
| `RequestList.Count` | branches/pooled_not_broken/daemon/client_request.c:80-86 | the length of the list |
| `RequestList.RunOps` | branches/pooled_not_broken/daemon/client_request.c:46-86 | after any sequence of additions and removals the list is well formed, holds the remaining requests newest first, and the count is its length |
| `RequestList.ClientRemove` | branches/pooled_not_broken/daemon/client.c:58-80 | as written, the forward list is right and the backward links are right if and only if the removed node was the first or the last |
| `RequestList.MiddleClientLeaves` | branches/pooled_not_broken/daemon/client.c:78 | three clients of which the middle one leaves: the last one still names it |
| `RequestRuns.InvStep` | branches/pooled_not_broken/daemon/client_request.c:88-109 | every step keeps who holds each request, which requests are on which list and who has each req_lock |
| `RequestLife.StartedIsRunning` | branches/pooled_not_broken/daemon/client_handler.c:170-182 | while the cleaning thread holds req_lock, an assigned request on the list is in its handler on worker tid |
| `RequestRuns.KillHitsItsWorker` | branches/pooled_not_broken/daemon/client_handler.c:172-175 | in every reachable state pool_kill is thus called with the worker that executes exactly that request, in the pool the request names, and no other worker has the request |
| `RequestRuns.OnlyTheHeadIsCancelled` | branches/pooled_not_broken/daemon/client_handler.c:174-175 | a worker that has been cancelled and is not dead yet is in the handler of the request its killer waits for |
| `RequestRuns.CountStep` | branches/pooled_not_broken/daemon/client_request.c:93-104 | every step keeps nb_requests in step with the assigned requests on the list |
| `RequestRuns.CounterCountsStarted` | branches/pooled_not_broken/daemon/client_request.c:93-104 | before the clean-up, whenever req_lock is free, nb_requests is the number of assigned requests on the list |
| `RequestRuns.LimitIsOnStarted` | branches/pooled_not_broken/daemon/client_handler.c:62-69 | a message is let through if and only if the number of assigned requests differs from max_requests_per_client; else the client reads on |
| `RequestBounds.PoolsKeepTheirSize` | branches/pooled_not_broken/daemon/thread_pool.c:224-244 | in every reachable state, for each of the two pools: the threads alive and the killed ones not yet replaced are as many as the pool was given |
| `RequestBounds.StartedWithinPools` | branches/pooled_not_broken/daemon/client_handler.c:62-69 | in every reachable state, the clean-up included, at most as many requests of one client have started as the two pools have workers |
| `RequestBounds.ZeroAdmitsNothing` | branches/pooled_not_broken/daemon/client_handler.c:62-69 | with a maximum of zero no request is ever listed |
| `RequestLimits.QueuesPastMax` | branches/pooled_not_broken/daemon/client_handler.c:126-134 | any number of requests can be queued, for any other maximum and any pools |
| `RequestLimits.RunsPastMax` | branches/pooled_not_broken/daemon/client_handler.c:63 | any number up to the number of workers of both pools can run at once |
| `RequestLimits.StartedWithinMaxExactly` | branches/pooled_not_broken/daemon/client_handler.c:62-69 | the started requests of every client stay within max_requests_per_client in every run if and only if it is zero or at least the number of workers of the two pools |
| `RequestLimits.ListedWithinMaxExactly` | branches/pooled_not_broken/daemon/client_handler.c:62-69 | the requests on the list stay within it in every run if and only if it is zero |
| `RequestRuns.FreedOnce` | branches/pooled_not_broken/daemon/client_request.c:105 | a request that is freed, by its worker or by the clean-up, had not been freed before |
| `RequestRuns.FreedForGood` | branches/pooled_not_broken/daemon/client_request.c:105 | once freed a request stays so for the rest of the run and no later event frees it again |
| `RequestRuns.EndingIsListed` | branches/pooled_not_broken/daemon/client_request.c:101-102 | a worker that removes its request finds it on the list, as the search loop needs |
| `RequestRuns.FreesNothingInUse` | branches/pooled_not_broken/daemon/client_handler.c:174-180 | a request freed by its worker, or after its worker was killed, is in no worker's hands |
| `RequestRuns.FlushMissesPopped` | branches/pooled_not_broken/daemon/client_handler.c:176-180 | a request freed by the clean-up without having been assigned is still in a worker's hands if and only if it was no longer in the pool's queue |
| `RequestLimits.PoppedIsFreed` | branches/pooled_not_broken/daemon/client_handler.c:174-180 | that happens: one worker of either pool and one leaving client suffice |
| `RequestLimits.NeverUsesFreedExactly` | branches/pooled_not_broken/daemon/client_handler.c:174-180 | no run leaves a worker with a freed request if and only if the maximum is zero or there are no workers |
| `RequestRuns.OnlyPoppedDangles` | branches/pooled_not_broken/daemon/client_request.c:93-105 | a worker refers to a freed request or a freed client only if it popped the request and has not locked yet, or has nothing left to do but to free it |
| `RequestRuns.GoneLeavesNothing` | branches/pooled_not_broken/daemon/client_handler.c:170-184 | once a client is freed each of its requests has been freed or is about to be by its worker |
| `RequestCleanup.CleanNextEnabled` | branches/pooled_not_broken/daemon/client_handler.c:170-182 | during the clean-up its next step, or the death of the worker that it has cancelled, is always possible |
| `RequestCleanup.CleanUpIsBounded` | branches/pooled_not_broken/daemon/client_handler.c:170-182 | in any run, whatever the others do, the clean-up takes at most three steps for each request on the list, and one |
| `RequestCleanup.CleanUpReturns` | branches/pooled_not_broken/daemon/client_handler.c:170-182 | from every reachable state of a clean-up its own steps and the deaths of the workers that it cancels lead to its end: it never waits for a handler to return |
| `RequestHistory.RequestsAreAsked` | branches/pooled_not_broken/daemon/client_handler.c:120-134 | the requests of a run are those listed, in order, each for ever of the client and for the pool it was made for |
| `RequestHistory.ListsNewestFirst` | branches/pooled_not_broken/daemon/client_request.c:46-56 | in every reachable state each list holds requests of its own client only, newest first |
| `RequestLife.DropIsWithout` | branches/pooled_not_broken/daemon/client_request.c:58-78 | on values, removal is the removal of one position, as in the list surgery |
| `Admission.InvStep` | branches/pooled_not_broken/daemon/main.c:357-379 | every step, with the increment and decrement split into load and store, keeps the count equal to the slots outstanding and the lock exclusive |
| `Admission.CountIsOutstanding` | branches/pooled_not_broken/daemon/main.c:357-379 | nb_clients.count is the number of slots reserved and not released, failed inet_ntop and NULL clients included, between 0 and max_clients |
| `Admission.RefusesExactlyWhenFull` | branches/pooled_not_broken/daemon/main.c:358-367 | a connection is refused if and only if max_clients slots are outstanding |
| `Admission.TestedOnce` | branches/pooled_not_broken/daemon/main.c:349-367 | in every run each connection accepted is tested once: a refused one is not tried again |
| `Admission.PendingHasWorker` | branches/pooled_not_broken/daemon/main.c:266 | whenever an admitted client waits in the queue some worker is idle, not yet started or past its release |
| `Admission.PendingIsTaken` | branches/pooled_not_broken/daemon/main.c:266 | that worker can get to the client in at most two steps of its own, waiting for nobody |
| `Admission.FirstComeFirstServed` | branches/pooled_not_broken/daemon/main.c:379 | a worker that takes a client after k others gets the k-th of those queued |
| `Admission.NoSlotLeaks` | branches/pooled_not_broken/daemon/client_handler.c:186-189 | the count is zero if and only if nobody is being admitted, queued or served |
| `Admission.LockExcludes` | branches/pooled_not_broken/daemon/main.c:449-453 | the load and store of one thread are never interleaved with those of another |
| `HoleList.FillHere` | branches/block_by_block/daemon/hole_map.c:45-81 | the branches on the first hole: shrink, split, free or refuse, in place, equal to the specification on values |
| `HoleList.FillGap` | branches/block_by_block/daemon/hole_map.c:28-82 | the whole walk with the result of the recursive call stored, as intended, equals the specification and frees exactly what it unlinks |
| `HoleList.FillAll` | branches/block_by_block/daemon/hole_map.c:28-82 | from the map of a new file, any sequence of blocks takes the list through the maps on values |
| `HoleList.PartitionLeavesNull` | branches/block_by_block/daemon/hole_map.c:28-82 | so any partition of a file, in any arrival order, leaves NULL |
| `HoleList.FillGapAsWritten` | branches/block_by_block/daemon/hole_map.c:28-82 | as written, the call equals the specification unless a hole after the first is to be freed; then the freed node stays linked, if and only if |
| `HoleList.FreesLaterMeaning` | branches/block_by_block/daemon/hole_map.c:41-44 | that is so if and only if some hole after the first is filled exactly |
| `HoleList.FreesLaterExample` | branches/block_by_block/daemon/hole_map.c:41-54 | bytes 5 to 9 and then 10 to 14 of a file of 15 bytes do it |
| `HoleList.Free` | branches/block_by_block/daemon/hole_map.c:85-93 | frees every node once, the last one first |
| `HoleMap.FillMeaning` | branches/block_by_block/daemon/hole_map.c:28-82 | for s at most e the map changes if and only if all bytes s to e are missing; then exactly they leave the missing set; sorted, non-empty and separated holes stay so |
| `HoleMap.MissingBlockInsideOne` | branches/block_by_block/daemon/hole_map.c:28-82 | a wholly missing block lies inside one hole |
| `HoleMap.FillLength` | branches/block_by_block/daemon/hole_map.c:45-73 | an accepted block lowers the missing length by its own |
| `HoleMap.CountMissing` | branches/block_by_block/daemon/hole_map.c:12-21 | the lengths of the holes add up to the number of missing bytes |
| `HoleMap.AcceptedDisjoint` | branches/block_by_block/daemon/hole_map.c:28-82 | over any run the accepted blocks are pairwise disjoint |
| `HoleMap.RunConserves` | branches/block_by_block/daemon/hole_map.c:28-82 | over any run the missing bytes are those no accepted block covers, and lengths add up |
| `HoleMap.FileRun` | branches/block_by_block/daemon/file_cache.c:53 | from the map of a file of at least one byte: accepted blocks are disjoint and inside the file, accepted plus missing is the size, and the map is NULL if and only if every byte is covered |
| `HoleMap.PartitionCompletes` | branches/block_by_block/daemon/file_cache.c:53 | any partition of the file in any arrival order ends in NULL |
| `HoleMap.EmptyFileNeverCompletes` | branches/block_by_block/daemon/file_cache.c:53 | the map of an empty file is never completed |
| `FileCache.New` | branches/pooled/daemon/file_cache.c:16-57 | an entry is made if and only if the name has at most 256 and the key exactly 32 characters; an address that is too long is cut off |
| `FileCache.StoredIsBuffer` | branches/pooled/daemon/file_cache.c:42 | what is stored of an address is what strncpy leaves in the buffer, which is terminated if and only if the address has at most 16 characters |
| `FileCache.AcceptedFit` | branches/pooled/daemon/file_cache.c:25-37 | the names and keys accepted always fit their buffers, terminator included |
| `FileCache.Node.AddSeeder` | branches/pooled/daemon/file_cache.c:122-146 | a registered seeder changes nothing, a new one is put first |
| `FileCache.Add` | branches/pooled/daemon/file_cache.c:84-149 | the tree stays a search tree and its contents change as a plain map does, for every call that stays inside the buffers |
| `FileCache.AddToMap` | branches/pooled/daemon/file_cache.c:84-149 | only the entry for the added key can change |
| `FileCache.GetByKey` | branches/pooled/daemon/file_cache.c:205-218 | the lookup agrees with the plain map, presence and value |
| `FileCache.AddAll` | branches/pooled/daemon/file_cache.c:84-149 | any history that stays inside the buffers yields a search tree for the map of the calls as stored |
| `FileCache.FittingIsDefined` | branches/pooled/daemon/file_cache.c:84-149 | a history does so, and nothing is cut off, if every address fits |
| `FileCache.LongAddressUndefined` | branches/pooled/daemon/file_cache.c:126 | it does not if an entry begins with an address that is too long and its key is added again |
| `FileCache.RunMeaning` | branches/pooled/daemon/file_cache.c:84-149 | a key is present if and only if some acceptable add was made for it; name and size come from the first one; the seeders are the distinct ones from then on, latest first |
| `FileCache.NoEarlier` | branches/pooled/daemon/file_cache.c:25-36 | a key is absent only if every add for it was refused for its name or key |
| `FileCache.StrcmpZero` | branches/pooled/daemon/file_cache.c:105-122 | the comparison is zero if and only if the strings are equal |
| `FileCache.StrcmpLess` | branches/pooled/daemon/file_cache.c:105-122 | it is negative if and only if the first string comes before the second in the order of a dictionary |
| `FileCache.StrcmpAntisymmetric` | branches/pooled/daemon/file_cache.c:105-122 | and changes sign when they are swapped |
| `Tokens.GetToken` | trunk/daemon/util/cmd_parser.c:28-57 | returns the next token and moves past it, or NULL if and only if none is left |
| `Tokens.RunsAreMaximal` | trunk/daemon/util/cmd_parser.c:28-57 | from any token boundary the calls find a run if and only if it is a maximal run of characters other than space, newline and NUL |
| `Tokens.RunsAscend` | trunk/daemon/util/cmd_parser.c:28-57 | from left to right |
| `Tokens.TokensAreMaximalRuns` | trunk/daemon/util/cmd_parser.c:174 | so repeated calls give exactly the texts of the maximal runs of the line, in order |
| `Tokens.TokenizeUndoesWeave` | trunk/daemon/util/cmd_parser.c:28-57 | joining words with non-empty runs of spaces and newlines and tokenizing again gives the words |
| `CmdParser.CmdParse` | trunk/daemon/util/cmd_parser.c:139-335 | succeeds or fails as the left-to-right specification does, with its arguments and options, and on every exit each token allocated is owned once by the result or freed once |
| `CmdParser.Parser.Turn` | trunk/daemon/util/cmd_parser.c:174-310 | one turn of the loop keeps the ledger of tokens and the outcome still to come |
| `CmdParser.Parser.NextToken` | trunk/daemon/util/cmd_parser.c:174 | a token read is the next of the line, and the loop ends when none is left |
| `CmdParser.Parser.TakeOption` | trunk/daemon/util/cmd_parser.c:200-235 | an option frees its token and an earlier value, and takes the next token if it needs one |
| `CmdParser.Parser.TakeValue` | trunk/daemon/util/cmd_parser.c:224-232 | the value read replaces none, or the error is found |
| `CmdParser.Parser.AddArgument` | trunk/daemon/util/cmd_parser.c:76-85 | an argument goes to the front of the list and keeps the ledger |
| `CmdParser.Search` | trunk/daemon/util/cmd_parser.c:196-240 | the loops over the template find the first option of that name, or none |
| `CmdParser.MarkOption` | trunk/daemon/util/cmd_parser.c:207-220 | the token and an earlier value are freed and the option is present |
| `CmdParser.ReadArgument` | trunk/daemon/util/cmd_parser.c:224-232 | the next token becomes the value, or there is none |
| `CmdParser.BuildArgv` | trunk/daemon/util/cmd_parser.c:317-322 | argv holds the arguments in the order of the line |
| `CmdParser.CleanUp` | trunk/daemon/util/cmd_parser.c:329-334 | the error exit frees option values, arguments and the token left over, each once |
| `CmdParser.FreeArgList` | trunk/daemon/util/cmd_parser.c:103-111 | frees every text of the list once |
| `CmdParser.EarlyReturnMissesEmpty` | trunk/daemon/util/cmd_parser.c:117-120 | the early return covers NULL and every failed result but that of an empty command |
| `CmdParser.CmdParseFree` | trunk/daemon/util/cmd_parser.c:114-135 | nothing is freed on the early return; else every token that the parse owns, finished or not, is freed once |
| `CmdMeaning.KindMeaning` | trunk/daemon/util/cmd_parser.c:176-310 | a token is an argument if and only if it is empty, one or two dashes, or does not begin with a dash; it is option i if and only if it is its long name after two dashes or its short name after one and no earlier option has that name; else it is unknown |
| `CmdMeaning.ParseSucceeds` | trunk/daemon/util/cmd_parser.c:174-315 | by the texts of the tokens alone: the parse succeeds if and only if no token in option position names no option or lacks its value and some token is an argument; which error is reported otherwise |
| `CmdMeaning.ParseDelivers` | trunk/daemon/util/cmd_parser.c:174-322 | argv is the unconsumed plain tokens in order; an option is present if and only if used; its value follows its last use |
| `CmdMeaning.ParseErrors` | trunk/daemon/util/cmd_parser.c:174-315 | from any point of the line: an unknown option anywhere decides first, since an option lacks its value only at the end |
| `CmdMeaning.ParseArguments` | trunk/daemon/util/cmd_parser.c:304-322 | the arguments collected are the plain tokens of the rest, in order |
| `CmdMeaning.ParseOptions` | trunk/daemon/util/cmd_parser.c:200-294 | each value is the token after the last use of its option |
| `CmdMeaning.FreeableExactly` | trunk/daemon/util/cmd_parser.c:114-120 | the result for a line may be given to cmd_parse_free if and only if some token in option position is plain, unknown or lacks its value |
| `CmdMeaning.BlankLineNotFreeable` | trunk/daemon/util/cmd_parser.c:311-315 | that for a blank line may not |
| `CmdSplit.CmdToArgcArgv` | trunk/daemon/util/cmd.c:110-146 | argv is the only sequence of space-free pieces whose join is the string, and argc is the number of spaces plus one |
| `CmdSplit.JoinInjective` | trunk/daemon/util/cmd.c:110-146 | joining space-free pieces loses nothing |
| `CmdSplit.SpacesOfJoin` | trunk/daemon/util/cmd.c:13-16 | a join of n space-free pieces has n - 1 spaces |

## Left out

- Md5Context.Context.Update: asks that the bytes pending and the input together stay below 2^32, the exact condition under which the loop ends (`Md5Context.LoopStops`); beyond it the code reads past its input for ever, so there is no result to state.
- HoleList.FillGap: models the intended assignment of the recursive result; the code as written is `HoleList.FillGapAsWritten`.
- RequestList.ClientRemove: proves both directions of the list only for the first and the last node, because the code repairs no other.
- FileCache.Add: asks, when the key is present, that the new address and the stored ones fit their buffers, which the code does not check; else it overruns a buffer (branches/pooled/daemon/file_cache.c:140) or compares without a terminator (line 126), and there is no result to state.
- FileCache.AddAll: asks the same of every call of the history.
- CmdParser.CmdParseFree: excludes the marker of an empty command, which the code dereferences (trunk/daemon/util/cmd_parser.c:117-122).
- MD5: words are integers modulo 2^32, shifts are products and quotients, and `MD5Transform` and `MD5Update` are split into the helper methods named in the table; clearing the local block is not modelled; the sine origin of the constants is taken as given.
- Allocation failure: every allocation succeeds, also of queue nodes (callers ignore a failed `pool_queue`, which would leak an admission slot).
- Calls of the pool during or after `pool_destroy`, and two calls of `pool_kill` on one slot at a time: not supported by the code; the steps require their absence.
- Job bodies and handlers: opaque steps that finish, take `req_lock` for a while, or are cancelled; cancellation points are the waits and the bodies, as with deferred cancellation, and a cancelled body is taken to reach one.
- Liveness under unfair scheduling, apart from `PoolReturn.DestroyReturns`: no fairness is assumed, and spurious wake-ups may go on for ever.
- The order of the two pools' queues in the life of requests: any queued request of the pool may be taken, which includes the order proved for the pool.
- Thread ids are never reused in the life of requests.
- The list of all clients under `clients_lock` beside its removal, and the counter of daemons, whose bound `client_request_connect` does not test.
- Semaphore initialisation and destruction, and the seeders' lock of the file cache, which is used by one thread at a time in the model.
- The seeders of a file and the argument list of the parser are sequences and values, so their relinking is not captured; token addresses are allocation numbers.
- Strings hold no NUL, and characters compare as unsigned values.
- Sockets, select, fork, signals, daemonizing, directory scans, logging, the terminal prompt, configuration, downloads and the handlers of single commands: input and output without an invariant of their own.
- `MDPartOfFile`, the block-by-block transfer loops and the fork-based prototypes: unfinished, with no settled intent.
- `cmd_get_next_option` and its global cursor: only the splitter of that file is modelled.
