# Verified models of the labs' locks, lists, queues, schedulers and broadcast

This project models the synchronisation and scheduling code of the three labs in Dafny and proves what that code
is for. Each concurrent component is a transition system over the statements of its threads: any number of
threads, each with its own program counter, take steps in any order, and a run is a sequence of such steps. Each
has an invariant that every step keeps (`StepInv`), hence every state of every run (`RunInv`), and theorems about
runs. Beside the list, the locks, the queues, the pool and the schedulers stands a class that carries out the same
statements on mutable memory and is proved to do exactly the steps of the model, so the theorems about runs speak
about it too. For the broadcast there are classes for its parts in memory: the list, the log, the leader's loop and
one upload.

| module | what it models |
|---|---|
| `SwapList`, `SwapListProperties`, `SwapListPasses`, `SwapListMachine` | the list of `lab2/src/3`, traversed hand over hand while neighbours are swapped in three separate pointer writes; all three lock builds |
| `CounterClient` | the futex mutex and the spinlock of `lab2/src/4` with their counting client |
| `QueueProtocol`, `QueueCalls`, `QueueMemory` | the queues of `lab2/src/2`: mutex and spinlock (one model, since both hold a lock around the whole body), condition variables, semaphores; the linked queue and the reading and writing client |
| `UserThreads`, `UserThreadRuns`, `UserThreadOutcomes`, `UserThreadWorkload`, `UserThreadMemory` | the two cooperative schedulers of `lab1/src/7` on any tasks, and the workload of `main.c` with any number of tasks and yields |
| `ThreadPool`, `ThreadPoolRuns`, `ThreadPoolMemory` | the worker pool of `lab3/src/threadpool` |
| `Broadcast`, `BroadcastStream`, `BroadcastHealthy`, `BroadcastProgress`, `BroadcastLimit`, `BroadcastRound`, `BroadcastHangs`, `BroadcastWakeups` | the chunk broadcast of `lab3/src/chunk/subscription.c` in the `PARALLEL` build |
| `SubscriberList`, `ChunkLog`, `Connection`, `CacheRuns` | its subscriber list, its chunk log, sending down a connection, and the cache file |
| `HashTable`, `HashTableMemory` | the string hash and the chained table of `lab3/src/common` |
| `Counting`, `Options` | sums and counts over the threads of a protocol; an optional value |

Steps are single reads and writes of shared memory, or single lock, condition variable, semaphore or futex calls;
statements that touch only what a held lock protects may be joined into one. `pthread_cond_wait` and `FUTEX_WAIT`
may return without a wakeup. A lock call is one step, taken when the lock is free: a failed round of a spinning lock
changes nothing, except in `CounterClient`, which models the locks themselves. A signal or a futex wake goes to any
one sleeper. Waiting lists have no order. A send of the broadcast takes at least one byte or fails: one that takes none
is tried again and changes nothing (`Connection` has it).

The broadcast takes from the pool what `ThreadPool` proves of it: every task pushed is taken once, by one worker, in
some order.

Some state is auxiliary: it records history and no step depends on it. In the list these are the logical order,
the marks of nodes in flight, the position of each thread and the nodes it has visited. A swap takes effect in the
logical order at its first pointer write (`routine.c:65`): from then on `cur` stands right behind `next` in that
order although no pointer says so yet. In the queues it is the sequences of values put in and taken out, in the
pool the numbers of the started tasks, in the schedulers the log of resumed tasks, in the broadcast the bytes each
connection has taken.

Where the code departs from what it seems to intend, the model follows the code:

- The list scheduler abandons a task that yields when nobody else is READY (`uthreadpool.c:66-70`).
  `ListCompletes` computes from the tasks what is left undone, and so which runs complete them all.
- The ring scheduler never looks at the node just before the active one (`uthreadpool2.c:65-74`), and with two
  tasks it looks only at the active one. `RingLeaves` and `RingCompletes` do the same for it.
- Both leave the thread that was active at the end of a run RUNNING or TERMINATED, so that it is never resumed or
  reused after `reset_scheduler`; `LeavesBehind` and `AddKeepsStranded` prove that.
- The counter of the broadcast's barrier is a `char` (`include/subscription.h`). `BarrierExact` proves that the
  barrier holds while rounds begin with up to 127 subscribers and for no larger number. Up to 256 the overflow never
  puts the leader to sleep; from 257 on it can, for ever (`GoesOnExactly`).
- `__send_chunks` locks the manager's mutex again while holding it when it meets a subscriber who is up to date.
  Up to 127 subscribers this happens exactly if the data was refused and somebody had already been sent everything
  (`HangsIff`). From 128 on it can happen after an accepted append too, because the round before may have ended
  early (`HangsAfterAppend`, `HangExact`).
- `init_scheduler` and `init_threadpool` leave `head_uthread` and `id_sequence` unset; the models start them at
  NULL and 0.
- The semaphore queue's `assert`s read `count` without the lock. `BoundedFifo` covers them in every interleaving.

## Model

| member | source | states |
|---|---|---|
| `SwapList.Exclusion` | lab2/src/3/lock/lock.c:3-31 | two threads hold one node together only in the rwlock build and only if both are comparers |
| `SwapList.InvSafe` | lab2/src/3/routine/routine.c:42-125 | no statement any thread can come to dereferences NULL or touches a node outside the list |
| `SwapList.StepInv` | lab2/src/3/routine/routine.c:42-125 | every step of every thread, each of the three pointer writes of a swap included, keeps the invariant that ties pointers, locks and locals to the logical order |
| `SwapList.RunInv` | lab2/src/3/routine/routine.c:42-125 | in every run the invariant holds, `first` is fixed and the logical order is a permutation of the initial list |
| `SwapList.DetachInv` | lab2/src/3/routine/routine.c:65 | the first pointer write keeps the invariant although it exchanges two nodes of the order under other threads' traversals |
| `SwapListProperties.ChainIntact` | lab2/src/3/routine/routine.c:57-71 | in every state the chain from `first` is finite and meets no node twice, and every initial node is on it or cut off by exactly one swap in progress |
| `SwapListProperties.ChainPermutes` | lab2/src/3/routine/routine.c:57-71 | with no swap in progress the chain is a permutation of the initial list |
| `SwapListProperties.CompletePass` | lab2/src/3/routine/routine.c:92-125 | a complete compare pass has visited every node exactly once and made one comparison fewer than there are nodes, whatever was swapped meanwhile |
| `SwapListPasses.PassCounts` | lab2/src/3/routine/routine.c:102-118 | such a pass has counted exactly the places of its visit from which the length rises for asc, falls for desc, stays for eq |
| `SwapListPasses.SwapsAlone` | lab2/src/3/routine/routine.c:42-77 | for every list and all answers of `__needs_swap` a swapper that is alone has a run through one pass which makes of the chain what `SwapPass` says: at each node a yes exchanges the two nodes after it, or ends the pass if there is only one, and either way it moves on one place |
| `SwapListPasses.ComparesAlone` | lab2/src/3/routine/routine.c:92-125 | a comparer that is alone has a run through one pass that visits the chain in its order, counts its places that compare, and leaves it as it is |
| `SwapListProperties.OthersKeepPlace` | lab2/src/3/routine/routine.c:49-71 | no step of another thread moves the node a thread has as `prev` from its logical position or changes the set of nodes up to that position |
| `SwapListProperties.OwnStepAdvances` | lab2/src/3/routine/routine.c:49-72 | each own step brings a thread nearer the end of its pass, and an iteration moves it on by exactly one position |
| `SwapListProperties.PassEnds` | lab2/src/3/routine/routine.c:49-72 | a pass over n nodes is over after at most 16n + 20 steps of its own thread, under any interference |
| `SwapListProperties.WaitsEarlier` | lab2/src/3/routine/routine.c:46-64 | a thread that is waited for waits, if at all, for a node strictly later in the current logical order, so waiting has no cycle |
| `SwapListProperties.FindEnabled` | lab2/src/3/routine/routine.c:46-64 | from any unfinished thread the chain of waiting leads to a thread that can step |
| `SwapListProperties.NeverStuck` | lab2/src/3/routine/routine.c:42-125 | no run reaches a deadlock |
| `SwapListProperties.StopEnds` | lab2/src/3/main.c:57-62 | after `stop` the m threads take at most m(16n + 20) steps in all, so with `NeverStuck` the joins return under every schedule |
| `SwapListMachine.BuildChain` | lab2/src/3/main.c:24-34 | `main` builds the nodes into one chain in order, all unlocked |
| `SwapListMachine.List.constructor` | lab2/src/3/main.c:20-55 | the list and threads as `main` sets them up are an initial state of the protocol |
| `SwapListMachine.List.Act` | lab2/src/3/routine/routine.c:42-125 | a thread's next statement, carried out on the nodes in place, is exactly its step of the protocol |
| `SwapListMachine.List.LinkPrevToNext` | lab2/src/3/routine/routine.c:65 | `prev->next = next` in place is the protocol's first write |
| `SwapListMachine.List.LinkCurPastNext` | lab2/src/3/routine/routine.c:67 | `cur->next = next->next` in place is the second |
| `SwapListMachine.List.LinkNextToCur` | lab2/src/3/routine/routine.c:69-71 | `next->next = cur` in place is the third |
| `SwapListMachine.RdLock` | lab2/src/3/lock/lock.c:3-11 | the thread joins the holders; in the rwlock build further readers are admitted and writers are not, in the others the thread is the only holder and nobody is admitted |
| `SwapListMachine.WrLock` | lab2/src/3/lock/lock.c:13-21 | the thread is the only holder and nobody is admitted |
| `SwapListMachine.Unlk` | lab2/src/3/lock/lock.c:23-31 | exactly this thread leaves the holders, and after the last holder everybody is admitted |
| `SwapListMachine.Destroy` | lab2/src/3/list/list.c:17-25 | every node of the chain is freed once, in order |
| `CounterClient.StepInv` | lab2/src/4/mutex/mutex.c:45-64 | every statement and futex call keeps the locking invariant, spurious wakeups and EAGAIN included |
| `CounterClient.MutualExclusion` | lab2/src/4/mutex/mutex.c:45-64 | at most one thread is between lock and unlock, under either lock, and the branch that prints "not access" is never taken |
| `CounterClient.FinalCount` | lab2/src/4/test.c:27-47 | when all N threads have finished K increments each the counter is N * K, though `counter++` is a load and a store |
| `CounterClient.NoLostWakeup` | lab2/src/4/mutex/mutex.c:22-64 | while a thread sleeps the lock is held, a wake is due, or an awake thread is on its way to the compare-and-exchange; the unfinished threads never all sleep |
| `CounterClient.SleepsIfTaken` | lab2/src/4/mutex/mutex.c:22-29 | FUTEX_WAIT puts a thread to sleep exactly if the lock is taken |
| `CounterClient.SomeoneSleeps` | lab2/src/4/mutex/mutex.c:45-51 | there is a run of two threads in which one sleeps |
| `CounterClient.AlwaysFinishable` | lab2/src/4/test.c:49-86 | every run, whatever happened in it, extends to one in which all threads finish with counter N * K |
| `CounterClient.Program.Act` | lab2/src/4/spinlock/spinlock.c:10-22 | the next statement on the real lock word, tid and counter is the step of the protocol |
| `QueueProtocol.StepInv` | lab2/src/2/queue_condvar/queue.c:65-129 | every step of every kind of queue keeps the counting invariant |
| `QueueProtocol.BoundedFifo` | lab2/src/2/queue_semaphore/queue.c:77-135 | in every interleaving the values taken, followed by those linked in, are the values added, in order; at most max_count are in; no assert fails; no dequeue finds the list empty |
| `QueueProtocol.RefusedOnlyWhenFull` | lab2/src/2/queue_mutex/queue.c:63-121 | "return 0" happens only in the mutex and spinlock queues, when the queue is full or empty at that moment; it is unreachable in the others |
| `QueueProtocol.TokensBalance` | lab2/src/2/queue_semaphore/queue.c:77-135 | the two semaphores plus the slots and items in threads' hands make max_count, and list length is `full` plus the consumers yet to dequeue plus the producers yet to post |
| `QueueProtocol.RestMeansFullOrEmpty` | lab2/src/2/queue_condvar/queue.c:65-129 | when nobody can go on without a wakeup, a reader waits only at an empty queue and a writer only at a full one |
| `QueueProtocol.NeverAllAsleep` | lab2/src/2/queue_condvar/queue.c:65-129 | with max_count at least 1 readers and writers never wait for each other, and whenever a thread is not at rest one can step |
| `QueueProtocol.ReadsInOrder` | lab2/src/2/queue_threads.c:49-92 | one writer and one reader: the values read are 0, 1, 2 and so on under all four queues, and ERROR is never printed |
| `QueueCalls.AddsAlone` | lab2/src/2/queue_condvar/queue.c:65-100 | undisturbed, queue_add on a queue with room returns with the value at the end of the list, under all four queues |
| `QueueCalls.GetsAlone` | lab2/src/2/queue_semaphore/queue.c:112-135 | undisturbed, queue_get on a queue with items takes the first value out and hands it to the reader |
| `QueueCalls.WaitsAlone` | lab2/src/2/queue_mutex/queue.c:63-121 | a call that finds the queue full or empty returns 0, sleeps or waits, as the kind of queue has it, and changes nothing |
| `QueueMemory.Queue.Add` | lab2/src/2/queue_spinlock/queue.c:81-114 | the linked queue gains the value at its end, or is full and unchanged; `last` may be stale when the list is empty; the statistics keep add_count - get_count = count |
| `QueueMemory.Queue.Get` | lab2/src/2/queue_spinlock/queue.c:116-139 | the linked queue loses its first value and returns it, or is empty and unchanged |
| `QueueMemory.Machine.Act` | lab2/src/2/queue_condvar/queue.c:65-129 | a thread's next statement on the linked queue, locks and semaphores is its step of the protocol |
| `UserThreads.Search` | lab1/src/7/uthreadpool2.c:62-68 | the distance of the nearest task with the wanted status, or the limit if none is nearer |
| `UserThreads.TurnKeeps` | lab1/src/7/uthreadpool2.c:62-88 | the active thread is the one RUNNING in the run, no task loses or repeats a stretch, each turn uses up one, and a switch never goes to the active thread itself |
| `UserThreadRuns.TurnEnds` | lab1/src/7/uthreadpool2.c:65-74 | a yield ends the run if and only if nobody the search looks at is READY: in the ring, nobody at the distances 1 to size - 2 |
| `UserThreadRuns.LastTurn` | lab1/src/7/uthreadpool2.c:65-74 | a yield that ends the run finds every task it can see done |
| `UserThreadOutcomes.ListCompletes` | lab1/src/7/uthreadpool.c:60-106 | for any tasks: a fold over the yields left gives the thread that is active at the end of a run of the list scheduler and what it lacks, all others being complete; so all complete if and only if the fold leaves one stretch |
| `UserThreadOutcomes.RingLeaves` | lab1/src/7/uthreadpool2.c:62-112 | for any tasks: the ring scheduler stops in the first round that does not fit, or when nobody needs another, at the first thread that sees nobody who waits; what each task lacks follows |
| `UserThreadOutcomes.EndsOnce` | lab1/src/7/uthreadpool2.c:62-112 | that determines the round and the active thread |
| `UserThreadRuns.RingFair` | lab1/src/7/uthreadpool2.c:62-88 | a READY thread at any ring distance d is resumed within d switches; only if it is just before the active one may the run end first, and then at once |
| `UserThreadRuns.RunCounts` | lab1/src/7/main.c:16-24 | a run runs as many stretches as it resumes threads, so `cnt` is the length of the log |
| `UserThreadRuns.LeavesBehind` | lab1/src/7/uthreadpool.c:66-70 | a run leaves exactly one more thread RUNNING or TERMINATED, its last active one, and does not touch those left so before, in second runs too |
| `UserThreadRuns.AddKeepsStranded` | lab1/src/7/uthreadpool.c:30-48 | adding a task never reuses such a thread |
| `UserThreadRuns.AddGives` | lab1/src/7/uthreadpool.c:30-58 | add_to_scheduler gives the task, with all its yields to go, to the first IDLE thread, or else to a new one at the head; the other threads stay |
| `UserThreadRuns.ResetRuns` | lab1/src/7/uthreadpool.c:86-110 | after a run nothing runs until reset_scheduler, and then some thread does if one is READY |
| `UserThreadOutcomes.SecondRunServes` | lab1/src/7/uthreadpool.c:86-110 | a task added to the list scheduler after a run is served by the next one, alone: it runs one stretch |
| `UserThreadRuns.SecondListRun` | lab1/src/7/uthreadpool.c:86-110 | after reset_scheduler with nothing added, a second run of the list scheduler does nothing |
| `UserThreadWorkload.RingRounds` | lab1/src/7/uthreadpool2.c:90-112 | n >= 3 tasks that yield k times each run in exactly k + 1 full rounds in ring order |
| `UserThreadOutcomes.RingCompletes` | lab1/src/7/uthreadpool2.c:62-112 | for any tasks: the ring scheduler completes them all if and only if no round is left to the two ends of the ring alone and the last thread of each round is at least two places after the first of the next |
| `UserThreadWorkload.RingUniform` | lab1/src/7/uthreadpool2.c:62-112 | with k yields each, n tasks all complete if and only if n is at least 3, or n is 1 and k is 0 |
| `UserThreadWorkload.ListPairs` | lab1/src/7/main.c:16-38 | with k yields each, tasks alternate in pairs on the list scheduler; the stretches run, which is the count printed, are n(k + 1) for even n and (n - 1)(k + 1) + 1 for odd n (2n and 2n - 1 for one yield), and all complete if and only if n is even or k is 0 |
| `UserThreadWorkload.AddedWorkload` | lab1/src/7/main.c:30-34 | adding the tasks one by one gives the workload the theorems start from, under both schedulers |
| `UserThreadMemory.Scheduler.Find` | lab1/src/7/uthreadpool.c:61-64 | the searching loops over the linked nodes find what `Search` describes |
| `UserThreadMemory.Scheduler.AddToScheduler` | lab1/src/7/uthreadpool2.c:30-60 | an IDLE node is reused, or a new one is linked in as head, before the old head in the list and after it in the ring |
| `UserThreadMemory.Scheduler.CreateInList` | lab1/src/7/uthreadpool.c:174-183 | the new node is linked before the old head, and next and prev stay consistent |
| `UserThreadMemory.Scheduler.CreateInRing` | lab1/src/7/uthreadpool2.c:182-195 | the new node is linked into the ring behind the old head, and next and prev stay consistent |
| `UserThreadMemory.Scheduler.YieldNow` | lab1/src/7/uthreadpool2.c:62-88 | the loop and switch on the nodes do what `Yield` says |
| `UserThreadMemory.Scheduler.RunScheduler` | lab1/src/7/uthreadpool.c:86-106 | a whole run on the nodes, the first or a later one, ends as `RunAll` says |
| `ThreadPool.StepInv` | lab3/src/threadpool/threadpool.c:10-37 | every step of workers, pushers and the closer keeps the invariant |
| `ThreadPool.StartedOnce` | lab3/src/threadpool/threadpool.c:25-27 | every pushed task is queued or was taken, exactly once; `queue_size` is the length of the chain; its end is the newest queued |
| `ThreadPoolRuns.RunOnce` | lab3/src/threadpool/threadpool.c:10-37 | in every run each task pushed, and no other, is queued, or in the hands of one worker, or has been run, exactly once in all |
| `ThreadPoolRuns.TakesNewest` | lab3/src/threadpool/threadpool.c:25-27 | the task a worker takes is the last pushed of those queued |
| `ThreadPoolRuns.AllTasksRun` | lab3/src/threadpool/threadpool.c:10-37 | with a worker and nobody to stop the pool, every run can go on to where all threads rest and every task pushed has been run once |
| `ThreadPoolRuns.PushIsRun` | lab3/src/threadpool/threadpool.c:69-86 | a call of threadpool_push_task pushes one task, and the run can go on to where it has been run |
| `ThreadPoolRuns.CloseEnds` | lab3/src/threadpool/threadpool.c:88-96 | once destroy_threadpool is called, every run can go on to where the pool is stopped and all workers have ended |
| `ThreadPool.NoTaskStranded` | lab3/src/threadpool/threadpool.c:16-18 | when nobody can go on without a wakeup, workers sleep only if no task is queued and the pool is not stopped; otherwise some thread can step |
| `ThreadPool.QueuedTaskMoves` | lab3/src/threadpool/threadpool.c:10-37 | while the pool is not stopped, has a worker and has a task queued, some thread that is not at rest can step |
| `ThreadPool.WorkersLeave` | lab3/src/threadpool/threadpool.c:88-96 | in every run a worker takes at most seven more steps once `stop` is raised, whatever the others do |
| `ThreadPoolMemory.Pool.PushTask` | lab3/src/threadpool/threadpool.c:72-82 | the new task goes on top of the `prev` chain with the next number |
| `ThreadPoolMemory.Pool.TakeTask` | lab3/src/threadpool/threadpool.c:25-27 | the task on top of the chain leaves it |
| `ThreadPoolMemory.Pool.Act` | lab3/src/threadpool/threadpool.c:10-37 | a thread's next statement on the chain is its step of the protocol |
| `Broadcast.StepInv` | lab3/src/chunk/subscription.c:126-232 | every step of the leader, the upload workers and new subscribers keeps the invariant, if no round begins with more than 127 subscribers |
| `BroadcastStream.StepStream` | lab3/src/chunk/subscription.c:126-232 | every step keeps the invariant of the streams and locks, with any number of subscribers |
| `BroadcastStream.StreamInOrder` | lab3/src/chunk/subscription.c:192-216 | at every moment of every run, with any number of subscribers, an unbroken connection has taken exactly the chunks counted in `chunk_loaded`, in order, and part of the next only while a worker sends it; so too when rounds overlap and chunks are appended under a running upload |
| `BroadcastStream.OneSender` | lab3/src/chunk/subscription.c:198-199 | two uploads to one subscriber never hold its lock together, with any number of subscribers |
| `Broadcast.BarrierDelivers` | lab3/src/chunk/subscription.c:126-149 | when `add_chunk` is about to return, every subscriber of the round whose sends succeeded has taken the whole stream and no task is left |
| `BroadcastHealthy.FailsOnly` | lab3/src/chunk/subscription.c:210-213 | a subscriber counts as failed only through a send to it that breaks |
| `BroadcastHealthy.SendAdds` | lab3/src/common/common.c:23-34 | a send that does not break adds the next bytes, at least one, and the upload goes on |
| `BroadcastHealthy.NobodyFails` | lab3/src/chunk/subscription.c:192-216 | in a run without a broken send nobody counts as failed |
| `BroadcastHealthy.ServesListed` | lab3/src/chunk/subscription.c:126-188 | when `add_chunk` is about to return, everybody on the list when `__send_chunks` began has the whole stream, but for broken connections; without a broken send simply everybody |
| `Broadcast.FlagCounts` | lab3/src/chunk/subscription.c:151-188 | `flag` is the number of unfinished tasks of the round, and no subscriber is served by two workers |
| `Broadcast.HangsExactly` | lab3/src/chunk/subscription.c:156-163 | while rounds begin with at most 127 subscribers: after an append no subscriber is up to date when the round begins; a round that hangs had a refused append and an up-to-date subscriber, one that gets past the loop had none |
| `BroadcastWakeups.NeverStopped` | lab3/src/chunk/subscription.c:140-149 | while rounds begin with at most 256 subscribers, with a worker in the pool a call that does not hang can always go on; the leader never sleeps with nobody to wake it |
| `BroadcastWakeups.SleepsForEver` | lab3/src/chunk/subscription.c:142-144 | with 257 subscribers there is a run after which no task is left, `flag` is 127 and the leader sleeps for ever |
| `BroadcastWakeups.GoesOnExactly` | lab3/src/chunk/subscription.c:140-149 | calls that do not hang can always go on with up to n subscribers if and only if n <= 256 |
| `BroadcastProgress.RoundBounded` | lab3/src/chunk/subscription.c:142-232 | from the leader's loop to its return, with any number of subscribers, the leader and the workers take no more steps than a measure over the bytes and tasks left and three for each spurious wakeup, whoever subscribes meanwhile; the workers' steps are bounded whatever the spurious wakeups |
| `BroadcastLimit.ReturnsEarly` | lab3/src/chunk/subscription.c:153 | for every n from 128 on there is a run in which `add_chunk` returns before its last subscriber has got a byte |
| `BroadcastLimit.BarrierExact` | lab3/src/chunk/subscription.c:142-144 | the barrier is safe with up to n subscribers if and only if n <= 127 |
| `BroadcastRound.LoopedExactly` | lab3/src/chunk/subscription.c:155-187 | the leader's loop hangs if and only if it meets an up-to-date subscriber, and otherwise makes one task for each and changes nothing else |
| `BroadcastHangs.HangsIff` | lab3/src/chunk/subscription.c:126-163 | while rounds begin with at most 127 subscribers a round hangs if and only if the data was refused and some subscriber had been sent everything |
| `BroadcastHangs.HangsAfterRefusal` | lab3/src/chunk/subscription.c:156-163 | for every n from 1 on there is a run with n subscribers in which a call hangs after a refused append |
| `BroadcastHangs.HangsAfterAppend` | lab3/src/chunk/subscription.c:151-163 | for every n from 128 on there is a run in which a call hangs though its data was appended |
| `BroadcastHangs.HangExact` | lab3/src/chunk/subscription.c:151-163 | no run with up to n subscribers hangs after an accepted append if and only if n <= 127 |
| `BroadcastRound.Manager.SendChunks` | lab3/src/chunk/subscription.c:151-188 | on the linked list: the tasks are the subscribers in order, cut short at the first up-to-date one |
| `SubscriberList.List.Subscribe` | lab3/src/chunk/subscription.c:90-114 | a new subscriber with nothing loaded is linked in at the end |
| `SubscriberList.List.Unsubscribe` | lab3/src/chunk/subscription.c:16-53 | exactly this subscriber leaves the doubly linked list |
| `SubscriberList.List.FinishPending` | lab3/src/chunk/subscription.c:116-123 | the list is emptied |
| `ChunkLog.Container.AddChunk` | lab3/src/chunk/chunk.c:18-47 | the log gains a copy of the data at its end, unless there is none or size is 0 |
| `ChunkLog.Container.GetChunk` | lab3/src/chunk/chunk.c:62-72 | from either end the walk reaches the chunk whose place is the index, or NULL beyond the last |
| `ChunkLog.SendChunks` | lab3/src/chunk/subscription.c:201-216 | the connection gets the missing chunks in order, all of them exactly if it takes one after the other, or breaks within one; `chunk_loaded` counts the whole ones |
| `ChunkLog.SaveCache` | lab3/src/chunk/cache.c:39-55 | the file is the concatenation of the chunks |
| `ChunkLog.PiecesKeep` | lab3/src/chunk/cache.c:25-30 | reading a file in buffers of 4048 bytes loses nothing; no piece is empty, all but the last are full |
| `ChunkLog.ShareCache` | lab3/src/chunk/cache.c:25-30 | the appends alone: the log gains the pieces of the file, so its stream gains exactly the file |
| `CacheRuns.SharedInOrder` | lab3/src/chunk/cache.c:28-30 | a broadcast run for each piece in order: no call hangs, each return leaves the unbroken subscribers of its round with a prefix of the file, and the last with the file |
| `CacheRuns.SharedByAll` | lab3/src/chunk/cache.c:28-30 | without a broken send that holds of every subscriber of the round |
| `CacheRuns.SharesToTheEnd` | lab3/src/chunk/cache.c:28-30 | each such run with a worker, and with pieces or the last round still to go, extends without a broken send to one in which the round of the last piece is over |
| `CacheRuns.CachedLikeLive` | lab3/src/chunk/cache.c:13-55 | a subscriber served to the end by a run that shares the saved stream has the same bytes as one served live |
| `Connection.SendDataToFd` | lab3/src/common/common.c:23-34 | 0 means all bytes arrived in order whatever the partial sends, of no bytes too; -1 means a proper prefix did; 0 is returned exactly if the connection takes them all |
| `Connection.AcceptsExactly` | lab3/src/common/common.c:23-34 | the bytes go through if and only if the sends before the first broken one add up to them |
| `Connection.LeftExactly` | lab3/src/common/common.c:23-34 | and they use up as many sends as are needed, no more |
| `Connection.SoundAcceptsAll` | lab3/src/common/common.c:23-34 | a connection that takes something at every send takes all pieces if it lasts long enough |
| `Connection.OneSendEach` | lab3/src/chunk/subscription.c:209-213 | it is not enough that the sends make up all the bytes, since no send spans two chunks |
| `HashTable.HashN` | lab3/src/common/common.c:12-21 | the wrapping hash is the unbounded one modulo 2^32 of the first maxSize characters only |
| `HashTable.ExactSum` | lab3/src/common/common.c:12-21 | the unbounded hash is 5381 * 33^n + str[0] * 33^(n-1) + ... + str[n-1] |
| `HashTable.SameChars` | lab3/src/common/hashmap.c:35 | keys are the same to the table exactly if they agree at the first 512 places, the end included |
| `HashTable.Bucket` | lab3/src/common/hashmap.c:19 | the bucket is the unbounded polynomial modulo 128 |
| `HashTable.RemovePops` | lab3/src/common/hashmap.c:43-60 | deleting pops the key's stack and no other |
| `HashTable.Refines` | lab3/src/common/hashmap.c:18-60 | after any operations the table agrees with a plain map from keys to stacks, keys being the same when their first 512 characters are, and `get` finds the top |
| `HashTable.UndoTable` | lab3/src/common/hashmap.c:18-60 | deleting as often as was inserted brings every key's earlier stack in the table back, and what `get` finds |
| `HashTableMemory.HashMap.Insert` | lab3/src/common/hashmap.c:18-29 | the new node in front of its chain is `Insert` on the table |
| `HashTableMemory.HashMap.Get` | lab3/src/common/hashmap.c:31-41 | the walk along the chain finds what `Get` says |
| `HashTableMemory.HashMap.Delete` | lab3/src/common/hashmap.c:43-60 | unlinking the key's first node is `Delete` on the table |

## Left out

- Broadcast.StepInv: supposes that no round begins with more than 127 subscribers, because from 128 on the char counter makes the barrier fail (`BroadcastLimit.BarrierExact`).
- Broadcast.BarrierDelivers: supposes the same, for that reason, and says nothing of a connection whose send has failed once; the code goes on sending to it in later rounds.
- Broadcast.FlagCounts: supposes the same; a char holds no larger count.
- Broadcast.HangsExactly: supposes the same; `BroadcastHangs.HangExact` shows that its first clause fails beyond.
- BroadcastHangs.HangsIff: supposes the same, for that reason.
- BroadcastWakeups.NeverStopped: supposes that no round begins with more than 256 subscribers, which `BroadcastWakeups.GoesOnExactly` shows necessary, and that the call does not hang.
- CacheRuns.SharedInOrder: supposes that no round begins with more than 127 subscribers, like the theorems it rests on.
- ChunkLog.ShareCache: leaves out the rounds between the appends, which `CacheRuns.SharedInOrder` covers.
- BroadcastRound.Manager.SendChunks: the broadcast as a whole is modelled on values; in memory there are its list, its log, the leader's loop and one upload, each between its locks, but not the interleaving of uploads with each other.
- ThreadPool.NoTaskStranded: tasks always return; a task that blocks for ever is not modelled.
- UserThreads.Search: the test of `cnt` and of the status stand in the other order in `usched_yield` of the ring; the result is the same because the node at distance size - 1 is refused either way.
- QueueProtocol.TokensBalance: `add_attempts` and `get_attempts` of the semaphore queue are not in the protocol, since several threads increment them without a lock.
- `unsubscribe` while a round is going on, and the destroy functions while anything is: a task or walker may then use freed memory; teardown is taken to happen after the joins.
- `swap_count` and `swap_iter`, which three threads increment under different locks or none.
- `print_routine` and `qmonitor`, which only print.
- `__needs_swap` and the picking of a sleeper are free choices, not random numbers.
- Malloc, mmap and context failures; overflow of counters other than `flag`, the hash and its index.
- The queue of `lab2/src/1`, whose own comments mark its races.
- Real stacks and context switches: a task is a number of yields still to come.
- Reading past 512 characters of an unterminated key: keys are C strings with an end.
- `fread` and `fwrite` errors: the cache file is read and written in full.
- `logis` in `add_chunk` reads the first subscriber's descriptor and so needs one; logging is not modelled.
- Sockets, libcurl, the HTTP parser, sessions, the server loop and the other build of lab3, which send or serve but keep no invariant to prove.
- `lab1/src/1` to `lab1/src/6`, which show system calls.
