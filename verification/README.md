# Chimaera runtime, verified model

Chimaera is a distributed task runtime: tasks are resolved to containers, sent to the
nodes that own them, run there by workers as coroutines, and completed back. This
project models six connected parts of it in Dafny and proves what they keep over whole
runs. `dafny verify dfyconfig.toml` checks everything.

| part | files |
|---|---|
| Remote task protocol between n nodes: submit, replicate, execute or delegate, complete, resume | `RemoteQueue.dfy` (steps), `RemoteRuns.dfy` (invariant), `RemoteTheorems.dfy` (runs), `RemoteProgress.dfy` (termination), `RemoteServer.dfy` (the server's loops) |
| Workers and lanes of one node: push, poll, run, signal, park, retry, flush queue | `Scheduling.dfy` (steps), `SchedulerRuns.dfy` (invariant), `SchedulerTheorems.dfy` (runs), `SchedulerPlaces.dfy` (where tasks go), `SchedulerChildren.dfy` (what counters count), `RoutingTheorems.dfy` (with the domain map), `Workers.dfy` (the objects and loops) |
| The signed block counter of a waiting coroutine, alone and in the runs of a node; the end of a flush | `BlockCounter.dfy`, `SchedulerWaits.dfy`, `Flush.dfy` |
| Domain map, query resolution, placement of containers, divided broadcasts | `Domains.dfy`, `Resolution.dfy`, `Placement.dfy`, `SplitBroadcast.dfy`, `Rpc.dfy` (the object) |
| Slab block allocator | `Slabs.dfy`, `SlabTiling.dfy`, `SlabReuse.dfy`, `BlockAllocator.dfy` (the object) |
| Coroutine mutex and read-write lock | `WaitGroups.dfy`, `CoMutex.dfy`, `CoRwLock.dfy` |
| Transfer archive | `Archive.dfy`, `ArchiveBatches.dfy`, `ArchiveTheorems.dfy`, `ArchiveObjects.dfy` |
| Shared by several parts | `Common.dfy` |

Each part has the same build. The source's operations are functions on a value that
holds the program's state; classes carry the same state in fields and their methods,
with the source's loops, are proved equal to those functions; and the theorems quantify
over every run of every interleaving of the operations. Fields called history record what
happened, so that a theorem can speak about it; no operation reads them, with one
exception: the place of a replica in the remote protocol, which stands for the container
the source finds it in.

## Conventions

- Integers are unbounded except where a width matters: 32-bit ids, hashes and ranges of
  domain queries, and the 32-bit buffer count of coin selection, wrap as in the source.
- An RPC is a message that arrives exactly once, in any order with others. What a
  coroutine does in a turn, what resolution answers to a worker, and which containers
  exist are arbitrary inputs of each step.
- Steps are as small as the source's atomic actions in `BlockCounter.dfy`, `Flush.dfy`
  and `RemoteQueue.dfy` (one queue entry, one counter, one flag). In the scheduler one
  turn of a task is one step; how a signal from another thread races with a task that is
  about to wait is the subject of `BlockCounter.dfy`, and `SchedulerWaits.dfy` shows that
  the waits of every run are waits of that machine. EndTask, one round of the loop of
  RpcTaskComplete, a locked section, and an update of the domain map are one step each.
- The counter theorems are about a task whose outstanding signals all belong to the wait:
  one counter serves child, lock and remote waits in the source.
- The scheduler's theorems allow the same task to be given to a node more than once and
  count it as often. Tasks given once are in exactly one place. How a task was routed and
  how its turns stopped is read off the steps of the run, not off the state.
- Nodes that build the same pool are represented by one domain map each, satisfying
  `PoolBuilt`; `DefaultOpsBuildPool` shows that the default updates establish it. `s` in
  `SplitRefinesFull` is the part of the map on which nodes agree. The word of a selection
  that a query does not use is taken as zero.
- Errors of the source (a look-up in a missing or empty domain, which raise the same
  exception with different words, reading past the id list, endless
  recursion through a cyclic map, end of the stream, missing entry) are results.
- A serialize function is given by its shape: what it asks for next as a function of what
  it has handled so far. Both sides use the same shape.

## Where the code is narrower than its intent

- Hashing selects a container modulo the length of the affinity list, not modulo the
  number of containers (`HashMeetsDesignIff`, with `ShortListMisses` and `LongListLoses`).
- Broadcasts and GetLocalContainers count the affinity list too, so containers beyond its
  length are never reached by a broadcast (`PoolBroadcastReachesEachContainerOnceIff`,
  `ShortListBroadcastMisses`) and are on no node's list (`LocalListsCoverIff`), though
  the LocalContainers domain may have them (`LocalIndexAgreesIff`).
- Looking up a missing domain enters it in the map, under a read lock; no answer changes
  (`EmptyEntriesAreInvisible`).
- Contract leaves an entry inconsistent unless it has nothing to drop
  (`ContractBreaksUnlessIdle`).
- The 32-bit count of reserved buffers overflows for very large requests
  (`CoinSelectCovers`, `BufferCountOverflows`).
- A failed heap extension still advances `heap_off_`, so nothing is carved after it
  (`FailedExtensionIsFinal`); the tiled prefix of `RunsTileADevicePrefix` is what was
  carved before.
- The check for a write lock taken during a read compares with a root that is null then
  (`WriteDuringReadIsNeverReported`), so a reader that asks to write waits for itself
  (`UpgraderWaitsForEver`).
- A wait on fewer children than have signalled is never resumed (`MissedWaitStaysParked`).
- Copies of one task share their buffers, so two entries of one returning message can be
  bound to the same buffer; the later one prevails (`ReturnBytesComeBackIff`,
  `SharedBufferLosesBytes`, `LaterPrevails`).

## Model

| member | source | states |
|---|---|---|
| `RemoteTheorems.SubmitResumesOnceAfterLast` | tasks/remote_queue/src/remote_queue_runtime.cc:120-167 | In every reachable state of the n-node protocol submit task i is the i-th submission, with its node, targets and flags; its counter is the number of its replicas that have not completed (those not yet queued included); it has made replicas for the nodes its task resolved to, in order; and it has been resumed exactly once if and only if all of them exist, were each handled once by their node, and have completed |
| `RemoteTheorems.ReplicaRunsOnceOnItsNode` | tasks/remote_queue/src/remote_queue_runtime.cc:199-301 | No replica is handled twice or on a node other than the one it resolved to, a completed one was handled there once, and every replica is in exactly one place: one queue, batch or message, once, or at its node, or completed |
| `RemoteTheorems.PendingNeverUndercounts` | tasks/remote_queue/src/remote_queue_runtime.cc:222-253 | `pending_` of a node is exactly the number of replicas, made for the tasks that were submitted there as no flush tasks, that were serialised and have not completed; so it is never negative, and what the flush monitor adds up (the submit queue and `pending_`) is at least the number of all such replicas that have not completed |
| `RemoteTheorems.SubmitsAreStarts` | tasks/remote_queue/src/remote_queue_runtime.cc:95-153 | In every run there is one submit task per submission, in order, with the node, targets, flush flag and delegating copy it was submitted with |
| `RemoteTheorems.DelegatedWorkEndsFirst` | tasks/remote_queue/src/remote_queue_runtime.cc:363-401 | When a submit task has been resumed, every submit task that a copy of its task delegated to, at any depth, has been resumed before, with all its replicas handled and completed |
| `RemoteTheorems.RunsNeverHalt` | tasks/remote_queue/src/remote_queue_runtime.cc:199-242 | In every reachable state with a submit task that has not been resumed, some step other than a new submission is possible |
| `RemoteProgress.WorkComesToAnEnd` | tasks/remote_queue/src/remote_queue_runtime.cc:199-242 | From any reachable state on, a run without new submissions has a bounded number of steps, and one that cannot go on has resumed and closed every submit task, with every replica handled and completed and nothing pending on any node |
| `RemoteProgress.StepCounts` | tasks/remote_queue/src/remote_queue_runtime.cc:95-441 | Every step other than a new submission lowers a measure: the steps that replicas, replicas to be made and open submit tasks have before them |
| `RemoteProgress.QuietIsDone` | tasks/remote_queue/src/remote_queue_runtime.cc:169-194 | Where no step but a new submission is possible, all work is done |
| `RemoteTheorems.NeverStuck` | tasks/remote_queue/src/remote_queue_runtime.cc:403-441 | In any state that satisfies the invariant, an unresumed submit task leads, through the copies that wait for other submit tasks, to a possible step |
| `RemoteRuns.StepInv` | tasks/remote_queue/src/remote_queue_runtime.cc:95-441 | Every step of every node keeps the whole invariant: queue contents, routes, delegations, counters and pending counts |
| `RemoteRuns.StepLists` | tasks/remote_queue/src/remote_queue_runtime.cc:199-301 | Every queue, batch and message holds exactly the replicas whose place it is, once each, after every step |
| `RemoteRuns.StepReps` | tasks/remote_queue/src/remote_queue_runtime.cc:363-380 | A replica is always on the way from its home to its resolved node and back, the return node it carries is its home, and its node has handled it exactly if it is past that point |
| `RemoteRuns.StepSubmits` | tasks/remote_queue/src/remote_queue_runtime.cc:119-153 | The counter of a submit task stays the number of replicas to be made plus those not completed, and it has been resumed exactly if the counter is zero |
| `RemoteRuns.StepPendings` | tasks/remote_queue/src/remote_queue_runtime.cc:204-224 | Only popping a non-flush task from the submit queue raises `pending_` and only its completion lowers it, so it stays the count of outstanding tasks |
| `RemoteRuns.StepDests` | tasks/remote_queue/src/remote_queue_runtime.cc:133-149 | The nodes of the replicas made so far, followed by the targets still to do, are the resolved targets in order |
| `RemoteRuns.StepParents` | tasks/remote_queue/src/remote_queue_runtime.cc:169-194 | A copy that delegates waits until its submit task is closed, and no copy delegates twice |
| `RemoteServers.DrainIsRun` | tasks/remote_queue/src/remote_queue_runtime.cc:203-289 | Popping the submit or complete queue until it is empty is a run of the protocol that leaves, for every node, exactly the batch, and in `pending_` exactly the sum, that the loop of ClientSubmit or ServerComplete computes |
| `RemoteServers.CompleteIsRun` | tasks/remote_queue/src/remote_queue_runtime.cc:429-441 | Completing a message task by task is a run of the protocol that leaves the counters, the requeued submit tasks and the pending count that the loop of RpcTaskComplete computes |
| `RemoteServers.BatchesPartition` | tasks/remote_queue/src/remote_queue_runtime.cc:204-224 | An entry is in the batch of its own node as often as it was queued, and in no other |
| `RemoteServers.Server.ClientSubmit` | tasks/remote_queue/src/remote_queue_runtime.cc:199-231 | The submit queue is drained into one batch per node that an entry goes to, each holding the entries for that node in order, and `pending_` grows by the number of non-flush tasks |
| `RemoteServers.Server.ServerComplete` | tasks/remote_queue/src/remote_queue_runtime.cc:270-302 | The complete queue is drained into one batch per return node, in order |
| `RemoteServers.Server.RpcTaskComplete` | tasks/remote_queue/src/remote_queue_runtime.cc:429-441 | Every task of a batch signals its submit task and leaves `pending_`; a submit task is requeued once if its counter reached zero on the way, and not otherwise |
| `SchedulerTheorems.RunsSettleAndConserve` | src/work_orchestrator/worker.cc:388-453 | After every interleaving of the steps of all workers from an empty node: a lane that nobody polls has a counter equal to its number of tasks and is in its own list exactly once if it has any and in no other list; the tasks in lanes, queues, parked or ended are exactly those given to the node, each as often as given; and no worker is stuck |
| `SchedulerTheorems.PollRunsLaneInOrder` | src/work_orchestrator/worker.cc:416-441 | Between the beginning and the end of one poll of a lane its worker runs exactly the tasks that were in the lane at the beginning, once each and in order, whatever is pushed meanwhile by whom |
| `SchedulerTheorems.NextOk` | src/work_orchestrator/worker.cc:330-453 | Every step of a worker keeps the lane invariant, and adds to the places tasks are in exactly the tasks it brings into the node |
| `SchedulerTheorems.WantedIsDefined` | src/work_orchestrator/worker.cc:404-425 | A listed lane exists and a lane with tasks to run has one: what a worker is about to pop is there |
| `SchedulerTheorems.PollMoves` | src/work_orchestrator/worker.cc:421-437 | No step of any worker but a turn of the poll itself changes what the poll has still to run, and a turn runs the next task of the lane as it was at the beginning |
| `SchedulerRuns.LanePushOk` | src/module_registry/module_queue.cc:38-59 | A counted push keeps every counter exact and lists the lane exactly when it had no task, also while its worker polls it |
| `SchedulerRuns.PushTaskOk` | src/work_orchestrator/worker.cc:46-173 | Whatever the flags and the resolution say, a pushed task ends in exactly one more place and the lane invariant is kept; which place it is, is in `SchedulerPlaces.TasksAreWhereTheyWereSent` |
| `SchedulerRuns.RunTaskOk` | src/work_orchestrator/worker.cc:456-496 | A task taken from its lane goes back, or is in exactly one more place, and what its coroutine created is each in one place |
| `SchedulerRuns.SignalOk` | src/work_orchestrator/work_orchestrator.cc:249-266 | A signal moves a task from the parked ones to a lane or fail queue when it brings the counter to zero and moves nothing otherwise; no task appears or vanishes |
| `SchedulerRuns.EndTaskOk` | src/work_orchestrator/worker.cc:599-632 | Ending a task signals its parent and puts the task in exactly one place: complete queue or ended |
| `SchedulerRuns.ViewBegin` | src/work_orchestrator/worker.cc:404-416 | A lane taken from the list belongs to the worker, has tasks, and was listed once; the invariant holds with the lane unlisted and polled |
| `SchedulerRuns.ViewEnd` | src/work_orchestrator/worker.cc:438-449 | Deducting the tasks that left makes the counter exact again, and the lane rejoins its list exactly if tasks are left |
| `SchedulerRuns.TurnOk` | src/module_registry/module_queue.cc:37-62 | A task that goes back uncounted, or one more to deduct later, leaves the counter exact |
| `SchedulerRuns.RetryFailedOk` | src/work_orchestrator/worker.cc:364-384 | Routing the first task of a fail queue again loses no task and duplicates none |
| `SchedulerRuns.ReapFlushOk` | src/work_orchestrator/worker.cc:377-382 | Reaping a flush task loses no task and duplicates none |
| `SchedulerPlaces.TasksAreWhereTheyWereSent` | src/work_orchestrator/worker.cc:46-173 | In every run of a node's workers, for a task given to it once: it is with the remote queue exactly if, when last routed, it was not complete, had no route, was marked remote or did not resolve to this node alone, and was not a long-running task useless to a flush; in the flush queue exactly if it was an unmarked flush task that resolves here; in the complete queue or ended exactly if it came complete or its last turn returned and it does not run on, and in which of the two depends on who waits for it; in its worker's fail queue if its container is not there; else, having a route or resolving here, in the lane it was given, in the fail queue of that lane's owner when another worker pushed or signalled it or when it asked for another route, or parked in a wait; and its flags are those it was routed with but for that route |
| `SchedulerPlaces.RouteSelf` | src/work_orchestrator/worker.cc:46-173 | A task that is nowhere and is routed is then in the one place that its flags and the answers for it call for |
| `SchedulerPlaces.StopSelf` | src/work_orchestrator/worker.cc:456-496 | A turn that yields, or returns from a task that runs on, leaves the task to its lane; one that waits parks it; one that asks for another route puts it in its worker's fail queue without a route; one that returns ends it |
| `SchedulerPlaces.SignalWaiting` | src/work_orchestrator/work_orchestrator.cc:249-266 | The signal that ends a wait takes the task from the parked ones to the lane of its route, or to the fail queue of that lane's owner when another thread signals |
| `SchedulerPlaces.RoutedGoes` | src/work_orchestrator/worker.cc:66-173 | Routing appends the task to exactly the queue it goes to and leaves the others alone |
| `RoutingTheorems.TasksRunWhereTheyResolve` | src/work_orchestrator/worker.cc:66-76 | In every run, a task given once, unmarked and without a route, is in a lane, parked or in the flush queue only if it resolves to this node; unless complete or long-running, it is with the remote queue exactly if it does not |
| `RoutingTheorems.HashedTasksRunOnTheirOwner` | include/chimaera/network/rpc.h:151-204 | In every run on any node whose workers ask its domain map: a hashed task is in a lane only on the node that owns the container its hash selects, and is with the remote queue exactly on every other node |
| `RoutingTheorems.ResolvedTasksAreNotSentOn` | tasks/remote_queue/src/remote_queue_runtime.cc:364-401 | A task that arrives with a resolved query is never sent on |
| `SchedulerChildren.CountersCountChildren` | src/work_orchestrator/worker.cc:599-632 | In every run in which no task is given to the node twice, a task's block counter is the number of children it has waited for, less its children that have ended, less the signals that coroutines and other threads sent it; and while that is positive it is parked |
| `SchedulerChildren.EndTally` | src/work_orchestrator/worker.cc:603-620 | Ending a task lowers its parent's counter by one and no other |
| `SchedulerWaits.ParentIsRequeuedOnce` | src/work_orchestrator/worker.cc:456-496 | In every run of a node, for a task given to it once: its block counter is the children it waited for less the signals it got, it is parked exactly while its wait has not been requeued, and once it waits for n children it is back in a lane or queue, requeued once, exactly when no more than n signals came before the wait and n have come in all |
| `SchedulerWaits.NextFine` | src/work_orchestrator/work_orchestrator.cc:249-266 | Every step of every worker, and every signal from outside, moves a task's wait as the counter machine does |
| `Workers.Orchestrator.Push` | src/module_registry/module_queue.cc:38-59 | The object's new state is the lane push of the model |
| `Workers.Orchestrator.SignalUnblock` | src/work_orchestrator/work_orchestrator.cc:249-266 | The object's new state is the signal of the model |
| `Workers.Orchestrator.End` | src/work_orchestrator/worker.cc:599-632 | The object's new state is the ending of the model |
| `Workers.Orchestrator.PushTo` | src/work_orchestrator/worker.cc:46-173 | The four cases of push, as the model has them: the task is appended to the one queue that its flags and the answers for it call for (`SchedulerPlaces.Goes`), and the other queues are as they were |
| `Workers.Orchestrator.Run` | src/work_orchestrator/worker.cc:456-496 | The object's new state and answer are those of running one task in the model |
| `Workers.Orchestrator.PollLane` | src/work_orchestrator/worker.cc:404-449 | The loop over a lane is a run of the step machine (one beginning, one turn per task, one end), and it runs the tasks the lane held, in order, and no others |
| `Workers.Orchestrator.PollLanes` | src/work_orchestrator/worker.cc:388-453 | A sweep is a run of the step machine whose polls are of the lanes that were listed when it began, once each and in order |
| `Workers.Orchestrator.PollFail` | src/work_orchestrator/worker.cc:364-384 | The loop is a run of the step machine and routes again every task that was in the fail queue, once each and in order |
| `Workers.Orchestrator.PollFlush` | src/work_orchestrator/worker.cc:246-252 | The loop is a run of the step machine, reaps every task that was in the flush queue, once each and in order, and leaves the queue empty |
| `BlockCounters.RequeuedOnceIff` | include/chimaera/module_registry/task.h:526-546 | For every interleaving of atomic steps of a wait on n children with any number of signals: a task that has stopped was requeued exactly once if and only if at most n signals came before the add and n have come in all, never twice; by staying in its lane when all n were early, otherwise by a signal |
| `BlockCounters.AllChildrenRequeueOnce` | include/chimaera/module_registry/task.h:754-769 | When exactly the n children signal, the waiting task that has stopped was requeued exactly once, in every interleaving |
| `BlockCounters.NeverTooEarly` | src/work_orchestrator/work_orchestrator.cc:249-266 | A task is never requeued before n signals have come |
| `BlockCounters.WokenByNth` | src/work_orchestrator/work_orchestrator.cc:258-260 | The only signal that requeues is the n-th, the one that brings the counter to zero |
| `BlockCounters.ResumesClean` | src/work_orchestrator/worker.cc:484-489 | A task requeued after no more than n signals has a zero counter and no flag set, like before its first wait |
| `BlockCounters.MissedWaitStaysParked` | include/chimaera/module_registry/task.h:526-530 | A wait that covers fewer children than have already signalled is never requeued, whatever follows |
| `BlockCounters.TaskState.Wait` | include/chimaera/module_registry/task.h:526-546 | The object's bits after SetBlocked and Yield are those of the two atomic steps of the machine; a wait on no child changes nothing |
| `BlockCounters.TaskState.SignalUnblock` | src/work_orchestrator/work_orchestrator.cc:249-266 | The counter goes down by one, and the task is requeued exactly if it reaches zero |
| `BlockCounters.TaskState.SortStopped` | src/work_orchestrator/worker.cc:484-495 | A blocked task leaves its lane, a yielded one or a repeating one stays, any other ends, and the flags are cleared accordingly |
| `Flushing.QuietWindow` | src/work_orchestrator/worker.cc:221-284 | In every run, when worker 0 decides that flushing is over, there is an interval from the end of the previous collection to the beginning of this one in which no worker's counter moved, so nobody ended a task, and every worker was told to flush and has passed EndFlush since it was marked |
| `Flushing.FlushEndsEverywhere` | src/work_orchestrator/worker.cc:242-249 | When worker 0 has taken the flags down and goes back to its loop, both flags of every worker are down |
| `Flushing.FlushingStep` | src/work_orchestrator/worker.cc:221-231 | Every worker is told to flush from its marking until worker 0 has decided |
| `Flushing.FlagsStep` | src/work_orchestrator/worker.cc:226-241 | A worker's flag is down only after it passed EndFlush since it was marked; past the barrier all flags are down |
| `Flushing.CountsStep` | src/work_orchestrator/worker.cc:274-284 | As long as a collection has found nothing, no counter it has compared moved between the previous collection and the beginning of this one |
| `Flushing.FlushFlags.AnyFlushing` | src/work_orchestrator/worker.cc:265-272 | True exactly if some worker's flag is up |
| `Flushing.FlushFlags.AnyFlushWorkDone` | src/work_orchestrator/worker.cc:275-284 | Every counter is collected, and the answer is whether one differed from its collected value |
| `Flushing.FlushFlags.MarkAll` | src/work_orchestrator/worker.cc:226-229 | Both flags of every worker are set, or taken down |
| `Flushing.FlushFlags.Conclude` | src/work_orchestrator/worker.cc:242-260 | Another round if a counter moved, with all flags and the flush queue as they were; otherwise all flags down, the flush queue reaped in order, the round counter back to zero, and the runtime finalized if it was shutting down |
| `SplitBroadcast.SplitRefinesFull` | include/chimaera/network/rpc.h:209-251 | For every range and every group size, from any node: the sub-queries that a divided query hands out, resolved once more where they are sent, give the same targets in the same order, or the same error, as the full resolution; a third resolution changes nothing, so two levels suffice |
| `SplitBroadcast.LeaderRefinesFull` | include/chimaera/network/rpc.h:266-272 | A query for the leader goes to the node of the member that hash 1 selects, without the leader flag; resolved there and where its parts are sent it gives what a full resolution at the leader gives, and the other targets are final |
| `SplitBroadcast.LeaderIs` | include/chimaera/network/rpc.h:266-272 | The leader is the first target of the member that hash 1 selects, or of sub-domain 1 for a query by id; an empty group has none |
| `SplitBroadcast.DividedQueriesGoToAHost` | include/chimaera/network/rpc.h:234-250 | A range or group larger than a neighbourhood is divided into as many parts as it takes: part k is a range of the same group with the query's iteration flags, begins k neighbourhoods on, has at most a neighbourhood of members, and goes to a host, this one or with two neighbourhoods of hosts the last of the last full one |
| `SplitBroadcast.ForwardNodeIsHost` | include/chimaera/network/rpc.h:241-246 | The node a sub-query is sent to is between 1 and the number of hosts |
| `SplitBroadcast.BroadcastVisitsEachOnce` | include/chimaera/network/rpc.h:209-233 | A full broadcast visits the members of the group's id list, each once and in list order |
| `SplitBroadcast.PoolBroadcast` | include/chimaera/network/rpc.h:209-251 | A range or broadcast over the containers of a default pool, begun on any node and divided or not, ends in exactly the containers that its members hash to, in order, each on its owner |
| `SplitBroadcast.PoolBroadcastReachesEachContainerOnceIff` | include/chimaera/network/rpc.h:209-282 | A broadcast to a default pool reaches each container exactly once, the k-th target being container k+1 on its owner, exactly when the pool has no more containers than affinity nodes; a container is reached exactly if its number is within the length of the list |
| `SplitBroadcast.ShortListBroadcastMisses` | include/chimaera/network/rpc.h:302-323 | Two containers on one affinity node: the broadcast reaches the first only |
| `SplitBroadcast.SmallRangeResolves` | include/chimaera/network/rpc.h:225-233 | A range of at most a neighbourhood is resolved member by member where it arrives |
| `Placement.HashRoutingIsLocationIndependent` | include/chimaera/network/rpc.h:151-204 | From any node, marked remote or not, a task sent by hash runs in container 1 + h mod the length of the affinity list, on the node that owns it, after at most one hop; it resolves to nothing exactly when that container was not made |
| `Placement.HashMeetsDesignIff` | include/chimaera/network/rpc.h:302-323 | Hashing meets the design (container 1 + h mod the number of containers) for every hash exactly when the affinity list is as long as the number of containers |
| `Placement.ShortListMisses` | include/chimaera/network/rpc.h:302-323 | A list shorter than the number of containers: the hash equal to its length starts over too early |
| `Placement.LongListLoses` | include/chimaera/network/rpc.h:184-187 | A list longer than the number of containers: the hash equal to their number selects a container that was never made, and the task resolves to nothing |
| `Placement.LocalContainersPartition` | include/chimaera/network/rpc.h:367-379 | Over all nodes, GetLocalContainers partitions the containers numbered within both the length of the affinity list and their number: each is listed on exactly the node chosen by its number minus one modulo the list length, no node lists one twice, and nothing else is listed |
| `Placement.GetLocalIs` | include/chimaera/network/rpc.h:367-379 | GetLocalContainers lists, in increasing order, the containers whose round-robin owner is this node, as far as both the length of the affinity list and the number of containers go |
| `Placement.LocalListsCoverIff` | include/chimaera/network/rpc.h:367-379 | The lists cover all containers exactly when there are no more of them than affinity nodes; a container beyond the length of the list is on no node's list |
| `Placement.LocalIndexAgreesIff` | include/chimaera/network/rpc.h:308-331 | The LocalContainers domain resolves to the containers of GetLocalContainers, in the same order, each on this node, for every hash, exactly when no container numbered beyond the affinity list lives here |
| `Placement.LocalHashResolves` | include/chimaera/network/rpc.h:180-204 | Every local hash resolves to all containers of this node in increasing order |
| `Placement.HashResolves` | include/chimaera/network/rpc.h:151-204 | A hash resolves to the container it selects, on its owner, or to nothing when that container was not made |
| `Placement.IdResolves` | include/chimaera/network/rpc.h:151-204 | A query for a container by number resolves to it, on its owner, if it was made, and to nothing otherwise |
| `Placement.HashResolvesHereIff` | src/work_orchestrator/worker.cc:66-74 | A worker finds a hashed task local exactly if the container was made and this node owns it, and what the hash resolves to is local where it arrives |
| `Placement.DefaultOpsBuildPool` | include/chimaera/network/rpc.h:285-334 | Applying the default updates to a map without the pool builds it: the major groups, one owner per container, and the local index of this node |
| `Placement.PoolStaysBuilt` | include/chimaera/network/rpc.h:184-184 | A pool stays built when resolving enters empty domains |
| `Resolution.EmptyEntriesAreInvisible` | include/chimaera/network/rpc.h:180-282 | Entering a missing domain as an empty one, as every look-up by subscript does, changes no answer to any query |
| `Domains.ExpandFromOk` | include/chimaera/network/rpc.h:56-65 | Expanding keeps size, set and list in step, keeps the old ids where they were, and adds exactly the ids of the range |
| `Domains.ExpandOnlyRunsOk` | include/chimaera/network/rpc.h:117-136 | Every run of expansions keeps every entry of the map sound |
| `Domains.ContractBreaksUnlessIdle` | include/chimaera/network/rpc.h:67-80 | Contracting a sound entry leaves it sound exactly when every id is of the range's group and outside the range, that is when there is nothing to drop |
| `Domains.ContractedContents` | include/chimaera/network/rpc.h:67-80 | Contracting keeps in the list exactly the ids of the range's group outside the range, takes exactly the ids of the group inside it out of the set, and leaves the size |
| `Domains.KeptInOrder` | include/chimaera/network/rpc.h:67-80 | What a contraction keeps stays in order |
| `Domains.ExpandEntry` | include/chimaera/network/rpc.h:56-65 | The loop computes the expansion of the model |
| `Domains.ContractEntry` | include/chimaera/network/rpc.h:67-80 | The loop computes the contraction of the model: kept ids in order, erased ids out of the set, size untouched |
| `Rpc.RpcContext.UpdateDomains` | include/chimaera/network/rpc.h:117-136 | The map after the loop is the fold of the updates, and stays sound if all of them expand |
| `Rpc.RpcContext.Touch` | include/chimaera/network/rpc.h:184-184 | A missing domain is entered, empty; every look-up stays the same |
| `Rpc.RpcContext.ResolveMinorDomain` | include/chimaera/network/rpc.h:180-204 | The recursive loop appends the model's minor resolution to the result, or fails as it does, and adds to the map at most empty entries |
| `Rpc.RpcContext.ResolveMajorDomain` | include/chimaera/network/rpc.h:209-251 | The loops compute the model's major resolution, divided or full, and add to the map at most empty entries |
| `Rpc.RpcContext.ResolveDomainQuery` | include/chimaera/network/rpc.h:256-282 | All four kinds of query, as the model has them |
| `Rpc.RpcContext.CreateDefaultDomains` | include/chimaera/network/rpc.h:285-334 | The updates made, applied to any map without the pool, place container i on the (i - 1) mod n-th of the n nodes that the affinity resolves to, in the order it resolves to them, or of all hosts if it resolves to nothing; no other container is made; and the local index lists the containers placed here |
| `Rpc.DefaultDomainsPlaceInTurn` | include/chimaera/network/rpc.h:285-334 | The same of the updates as a function, for every affinity, number of hosts and of containers that can be represented |
| `Rpc.AffinityNodes` | include/chimaera/network/rpc.h:291-299 | The nodes of the targets, in order, or the hosts 1, 2, ... when there is no target |
| `Rpc.RpcContext.GetLocalContainers` | include/chimaera/network/rpc.h:367-379 | The loop computes the local containers of the model |
| `SlabTiling.RunsTileADevicePrefix` | include/chimaera/io/block_allocator.h:139-163 | In every state of every run of allocations and of frees of live blocks: no block is known twice, different blocks do not overlap, live and listed blocks together cover exactly a prefix of the device no longer than its capacity, every free list holds its own slab size, and `free_size_` is the capacity less the live bytes and not negative |
| `SlabTiling.AllocateFromInv` | include/chimaera/io/block_allocator.h:139-151 | An allocation keeps the invariant and hands out only blocks that nobody holds, each once |
| `SlabTiling.FreeInv` | include/chimaera/io/block_allocator.h:153-163 | Returning a live block keeps the invariant |
| `SlabTiling.LiveIsSlab` | include/chimaera/io/block_allocator.h:153-163 | A live block has the size of the class it is returned to |
| `SlabReuse.ServedIff` | include/chimaera/io/block_allocator.h:139-151 | A request is served in full exactly when what lane 0 lacks of the selected blocks is nothing or fits between `heap_off_` and the end of the device, and `heap_off_` then advances by just that |
| `SlabReuse.FailedExtensionIsFinal` | include/chimaera/io/block_allocator.h:222-241 | In every run, the first request that is not served in full is the last to extend the heap: its failed extension leaves `heap_off_` past the device, and no later request carves a block, however small |
| `SlabReuse.ReturnedRequestIsServedAgainIff` | include/chimaera/io/block_allocator.h:139-163 | A request that was served in full and whose blocks were returned, in any order and to any lanes: `free_size_` and what is live are restored, and it is served again without moving `heap_off_` exactly when lane 0 lists every selected block, as it does when all were returned to it |
| `SlabReuse.SatisfiedIff` | include/chimaera/io/block_allocator.h:139-151 | The bytes found reach the request exactly if every selected block was found |
| `SlabReuse.ShapeMinimal` | include/chimaera/io/block_allocator.h:183-206 | No selected block can be left out: fewer of any class fall short of the request |
| `Slabs.CoinSelectCovers` | include/chimaera/io/block_allocator.h:183-206 | Coin selection covers the request, wastes less than 1 MB - 64 KB, and `buffer_count` is at least the number of blocks exactly when the count fits 32 bits |
| `Slabs.BufferCountOverflows` | include/chimaera/io/block_allocator.h:183-206 | Just over 2^31 megabytes: `buffer_count` is 1 for 2^31 + 1 blocks |
| `Slabs.CoinSelectShape` | include/chimaera/io/block_allocator.h:183-206 | The selection is whole megabytes and one slab for the rest, and `buffer_count` is its number of blocks, with the megabytes counted twice when the rest needs one too, modulo 2^32 |
| `BlockAllocators.FindNearestSlab` | include/chimaera/io/block_allocator.h:167-180 | The smallest slab that holds the size, or the largest slab |
| `BlockAllocators.SelectCoins` | include/chimaera/io/block_allocator.h:183-206 | The loop computes the selection of the model |
| `BlockAllocators.BlockAllocator.constructor` | include/chimaera/io/block_allocator.h:128-137 | An empty device of the given capacity |
| `BlockAllocators.BlockAllocator.ListAllocate` | include/chimaera/io/block_allocator.h:222-241 | A listed block of the class, else one from the heap, whose offset advances even when it is full |
| `BlockAllocators.BlockAllocator.AllocateSlabs` | include/chimaera/io/block_allocator.h:209-220 | The loop takes blocks of one class until it has them or finds none, and accounts for each |
| `BlockAllocators.BlockAllocator.Allocate` | include/chimaera/io/block_allocator.h:139-151 | The blocks and the new state are the model's, the total is their bytes, the invariant is kept, nothing in use is handed out, and the total reaches the request exactly if every selected block was found |
| `BlockAllocators.BlockAllocator.Free` | include/chimaera/io/block_allocator.h:153-163 | The block joins the first list it fits, and the invariant is kept for a live block |
| `CoMutexes.RunsAreSafe` | src/work_orchestrator/comutex.cc:13-68 | In every state of every run: the holders share one root and number `rep_`, the order queue has no duplicates and is exactly the keys of the blocked map, an unlocked mutex has no waiter, and every acquisition asked for was granted exactly once or still waits |
| `CoMutexes.HandoverServesInOrder` | src/work_orchestrator/comutex.cc:47-68 | A root at position k of the queue gets the lock at exactly the (k+1)-th hand-over and not before: then all its waiters hold it, nobody else does, and none of them waits |
| `CoMutexes.PositionMovesUp` | src/work_orchestrator/comutex.cc:57-58 | A waiting root moves up one place at each hand-over and at nothing else |
| `CoMutexes.GrantsIff` | src/work_orchestrator/comutex.cc:13-45 | Asking is granted exactly if every holder is of the caller's root: the caller then holds once more; otherwise nothing changes for an attempt, and a lock call waits |
| `CoMutexes.ClaimsAreEvents` | src/work_orchestrator/comutex.cc:13-68 | In every run, what a task holds and waits for is what it asked for and was not refused, less what it released |
| `CoMutexes.WaitersInOrder` | src/work_orchestrator/comutex.cc:34-44 | In every run, the waiting roots, and the waiters of each root, are in the order in which they asked |
| `CoMutexes.StepInv` | src/work_orchestrator/comutex.cc:13-68 | Every operation keeps the invariant |
| `CoMutexes.CoMutex.constructor` | src/work_orchestrator/comutex.cc:6-11 | An unlocked mutex |
| `CoMutexes.CoMutex.TryLock` | src/work_orchestrator/comutex.cc:13-23 | Succeeds exactly if no task of another root holds the mutex; the caller then holds it once more, for its root, and on failure nothing changes |
| `CoMutexes.CoMutex.Lock` | src/work_orchestrator/comutex.cc:25-45 | The new state is the model's; the caller must park exactly if it is among the waiters |
| `CoMutexes.CoMutex.Unlock` | src/work_orchestrator/comutex.cc:47-68 | The new state is the model's; the tasks signalled are the whole group of the first root, in order, exactly at a hand-over |
| `CoRwLocks.RunsAreSafe` | src/work_orchestrator/corwlock.cc:15-113 | In every state of every run: readers and writers never hold together, writing holders share one root, `rep_` is the number of holders, a free lock has no waiter of either kind, and every acquisition asked for was granted exactly once or still waits |
| `CoRwLocks.WritersServedInOrder` | src/work_orchestrator/corwlock.cc:51-62 | A writing root at position k is served at exactly the (k+1)-th hand-over to writers and not before, by whichever kind of unlock: then all its waiters hold the lock and nobody else does |
| `CoRwLocks.OutcomesIff` | src/work_orchestrator/corwlock.cc:15-86 | A read is granted exactly if nobody writes, reported if the caller's own root writes, and waits otherwise; a write is granted exactly if nobody reads and no other root writes, and waits otherwise |
| `CoRwLocks.GrantsIff` | src/work_orchestrator/corwlock.cc:15-86 | What is granted adds the caller to the holders of its kind; what waits adds it to the waiters; a failed attempt changes nothing |
| `CoRwLocks.ClaimsAreEvents` | src/work_orchestrator/corwlock.cc:15-113 | In every run, what a task holds and waits for, of either kind, is what it asked for and was not refused, less what it released |
| `CoRwLocks.WaitersInOrder` | src/work_orchestrator/corwlock.cc:34-86 | In every run, waiting readers, waiting writing roots, and the writers of each root are in the order in which they asked |
| `CoRwLocks.UpgraderWaitsForEver` | src/work_orchestrator/corwlock.cc:64-86 | A reader that asks to write and then, being parked, does nothing more keeps its read hold and waits in every later state, and no writer ever holds the lock again |
| `CoRwLocks.WriteDuringReadIsNeverReported` | src/work_orchestrator/corwlock.cc:74-86 | The report of a write lock taken during a read never fires in any run: a reader that asks to write is parked |
| `CoRwLocks.StepInv` | src/work_orchestrator/corwlock.cc:15-113 | Every operation keeps the invariant |
| `CoRwLocks.CoRwLock.constructor` | src/work_orchestrator/corwlock.cc:7-13 | An unlocked lock |
| `CoRwLocks.CoRwLock.TryReadLock` | src/work_orchestrator/corwlock.cc:15-23 | Succeeds exactly if nobody writes; the caller then holds the lock for reading once more, and on failure nothing changes |
| `CoRwLocks.CoRwLock.ReadLock` | src/work_orchestrator/corwlock.cc:25-41 | Acquired, parked or reported, as the model says, with the model's new state |
| `CoRwLocks.CoRwLock.WriteLock` | src/work_orchestrator/corwlock.cc:64-86 | Acquired, parked or reported, as the model says, with the model's new state |
| `CoRwLocks.CoRwLock.ReadUnlock` | src/work_orchestrator/corwlock.cc:43-62 | The last reader hands over to the first writing root, if any; the tasks signalled are its group |
| `CoRwLocks.CoRwLock.WriteUnlock` | src/work_orchestrator/corwlock.cc:88-113 | The last writer hands over to the first writing root, else to all readers; the tasks signalled are those |
| `ArchiveTheorems.StartRoundTrip` | include/chimaera/network/serialize_defn.h:224-250 | Any batch of tasks written one after the other on the start path and read in segment order arrives as it was: the task made of what is read has the header and the domain query of the task and its address to return to; fields are restored, each non-empty buffer is in the new buffer of its own entry and has the sender's bytes, the stream is used up and the cursor is at the number of entries |
| `ArchiveTheorems.ReplyFindsItsTask` | tasks/remote_queue/src/remote_queue_runtime.cc:364-382 | What comes back for each copy of a batch names the address of the task that the copy was made of |
| `ArchiveTheorems.ReturnRoundTrip` | include/chimaera/network/serialize_defn.h:292-305 | Any batch on the return path: fields restored, each non-empty buffer still the receiving task's own with its entry pointed at it, and the copy's bytes in it unless a later entry of the message is bound to the same buffer; stream used up, cursor at the number of entries |
| `ArchiveTheorems.ReturnBytesComeBackIff` | include/chimaera/network/serialize_defn.h:292-305 | With copies in buffers of their own, every byte that is sent back arrives whatever the memories hold, exactly if no two of the buffers sent back are bound to one buffer of the waiting tasks |
| `ArchiveTheorems.SharedBufferLosesBytes` | include/chimaera/network/serialize_defn.h:298-303 | Two copies of one byte whose tasks wait with the same buffer: the second byte prevails and the first is lost |
| `ArchiveBatches.LaterPrevails` | include/chimaera/network/serialize_defn.h:298-303 | When the last entry bound to a buffer is a later and no smaller one, an entry arrives exactly if the later one carries the same bytes |
| `ArchiveBatches.AllIntactIff` | include/chimaera/network/rpc_thallium.h:230-245 | Everything that is sent arrives, whatever the memories hold, exactly if no two entries that are sent are bound to one buffer |
| `ArchiveTheorems.BatchRoundTrip` | include/chimaera/network/serialize_defn.h:332-356 | Reading a batch in segment order succeeds, with every item arrived, for any mixture of starting and returning tasks |
| `ArchiveTheorems.BytesArrive` | include/chimaera/network/serialize_defn.h:182-189 | The bytes of a buffer that is sent arrive in the buffer that its entry is bound to |
| `ArchiveTheorems.PlacesDiffer` | include/chimaera/network/serialize_defn.h:182-189 | No two buffers of a batch share an entry |
| `ArchiveBatches.LoadAllInverts` | include/chimaera/network/serialize_defn.h:332-356 | Reading a batch consumes exactly the tokens and entries written for it |
| `ArchiveBatches.ItemArrives` | include/chimaera/network/serialize_defn.h:292-305 | Whatever was read before it, an item has its value, or the buffer that its own entry is bound to in the end |
| `ArchiveBatches.PayloadArrives` | include/chimaera/network/rpc_thallium.h:134-151 | Gathering the exposed buffers and laying the range over the receiver's buffers of the same sizes gives each the bytes of its own entry |
| `Archives.LoadInverts` | include/chimaera/network/serialize_defn.h:292-305 | Reading undoes writing for one task of any shape, also when its serialize function branches on what it has read |
| `ArchiveObjects.OutputArchive.WriteBulk` | include/chimaera/network/serialize_defn.h:182-189 | The size goes to the stream, and an entry is added exactly if it is not zero |
| `ArchiveObjects.OutputArchive.Start` | include/chimaera/network/serialize_defn.h:224-235 | Header, segment and items, as the model writes them; `StartBatch` joins it to the round trip |
| `ArchiveObjects.OutputArchive.End` | include/chimaera/network/serialize_defn.h:236-244 | Segment with the return address and items, without a header; `EndBatch` joins it to the round trip |
| `ArchiveObjects.OutputArchive.StartBatch` | tasks/remote_queue/src/remote_queue_runtime.cc:204-224 | The archive after the tasks of a batch are written in turn is the one that `StartRoundTrip` is about |
| `ArchiveObjects.OutputArchive.EndBatch` | tasks/remote_queue/src/remote_queue_runtime.cc:275-294 | The archive after the results of a batch are written in turn is the one that `ReturnRoundTrip` is about |
| `ArchiveObjects.InputArchive.ReadBulk` | include/chimaera/network/serialize_defn.h:293-305 | Zero sizes take no entry; otherwise the cursor moves past one entry, which gives the buffer or is pointed at the task's own; the two ways to run out are reported |
| `ArchiveObjects.InputArchive.ReadTask` | include/chimaera/network/serialize_defn.h:332-356 | The loop reads what the model reads, or fails as it does |
| `ArchiveObjects.InputArchive.ReadBatch` | tasks/remote_queue/src/remote_queue_runtime.cc:340-348 | The loop over the segments reads what the model reads of a batch, or fails as it does: the read of the two round trips |

## Left out

- Thallium, margo, RDMA and host lookup: foreign I/O, replaced by messages that arrive once and a byte copy between buffers.
- Coroutine stacks and context switches: a turn is what happens between two switches.
- The byte encoding of cereal: the stream is a sequence of values.
- Ring buffers, shared memory and allocators of the support library: queues are unbounded sequences, so a push never fails.
- Two threads inside one Allocate or Free: the allocator's operations are atomic steps here, and overflow of the 64-bit heap offset by repeated failed extensions is not modelled.
- 64-bit overflow of flush counters, block counters and lane counters.
- Fatal reports on null pointers (no route lane, no parent, no static container) end the program and have no successor state.
- Periods of periodic tasks and the decision to skip a long-running task while flushing: a turn without actions.
- Deleting a finished fire-and-forget task and marking any other complete are both "ended".
- Long-running tasks in the remote protocol: they are submitted again for ever; the protocol is about tasks that complete. A task that resolves to nothing is routed again and starts no submit task.
- Aggregation of replicas and the contents of tasks in the remote protocol; contents are in the archive.
- SplitBroadcast.SplitRefinesFull: leaves out queries for the leader, whose resolution takes one more level; they are in `LeaderRefinesFull`.
- The barrier's busy waiting in EndFlush is a loop of the step machine, not of a method.
- Upgrading modules and plugging lanes, monitoring, device I/O, configuration and generated dispatch code: no protocol, or easy facts only.
- SplitBroadcast.PoolBroadcast: is about queries that name a group, because a query with a hash or an id as well selects by that.
