# The hermes_run task runtime, modelled in Dafny

hermes_run is the task runtime under Hermes: clients put tasks into lanes of shared-memory queues, workers
poll the lanes and run the tasks, and a task whose domain names other nodes is serialised and run there.
This project models its four coupled state machines and proves what every run of them keeps.

| file | part of the runtime |
|---|---|
| `types.dfy` | ids, scheduling domains, task flags |
| `worker_model.dfy`, `worker.dfy` | the poll loop and the group table: step functions, and the `Worker` object proved against them |
| `worker_invariant.dfy`, `worker_steps.dfy`, `worker_runs.dfy` | one inductive invariant over lanes, flags, group table and history; its consequences for every run |
| `worker_touch.dfy`, `worker_stack.dfy`, `worker_progress.dfy` | what one iteration leaves alone; coroutine stacks; that every open slot can be ended |
| `worker_unordered.dfy`, `worker_fate.dfy` | by the fields a task came with: who uses the group table, who leaves the node, who is deleted and who published |
| `worker_order.dfy`, `worker_overtake.dfy`, `worker_distinct.dfy` | start order of ordered tasks: exactly which iterations and runs break it, a run that does, a sufficient condition |
| `worker_arrivals.dfy`, `worker_serve.dfy`, `worker_arrivals_exact.dfy` | the exact condition on what arrives in the lanes, before anything runs |
| `remote_model.dfy`, `remote_proofs.dfy`, `remote_theorems.dfy`, `remote_history.dfy`, `remote_progress.dfy` | Disperse, Push, RpcExec, the wait and RpcComplete over N nodes; results and flags traced back to the steps of a run; exactly when a push can go on |
| `archive.dfy`, `wire.dfy` | the binary archives, and what of a task arrives at the other node |
| `naming.dfy`, `naming_proofs.dfy` | the task registry and state creation with node 1 as id authority |
| `scheduler.dfy`, `scheduler_proofs.dfy`, `balance.dfy`, `lane_ownership.dfy`, `lane_future.dfy` | queues, round-robin lane assignment, the way from PollQueues to `work_queue_`, hashing to lanes |
| `throttle.dfy` | the 4096-call polling throttle |
| `proc_queue.dfy` | the process queue's push task and its subtask |
| `policy.dfy` | replacing the queue and process schedulers |

## How it is modelled

Objects whose methods update fields are classes (`Worker`, `TaskRegistry`, `RoundRobinScheduler`, `Poller`,
`MultiQueue`, `OutputArchive`, `InputArchive`, `PushTask`, `AdminServer`); every method's new state is a
function of the old one, and the theorems are about runs of those functions. Protocols between threads and
nodes are total step functions; a run is any sequence of steps, so a theorem over all sequences covers every
interleaving. `fault` marks what must never happen: a freed task reached, a second free, a stack freed that
was never made, the "depth is already 0" branch. Histories (`log`, `born`, `runs`, `made`, `handed`) are
written by the steps and never read by them.

A pass examines at most 1024 slots; theorems that do not need this bound hold for passes of any length, the others
say `Bounded`.

What module code does inside `Run` is a parameter (`Effect`); what other threads do between two iterations of
a worker is a parameter (`EnvStep`). Clocks, the network and memory allocation are steps or left out.

### Assumptions

- A lane is a FIFO with `peek`, `emplace` and `pop`; `poll_queues_` drops nothing; a fatal log message ends the run.
- The task state a task names is present; `REMOTE_DEBUG` is off; every update of a task's flags is one atomic step.
- An ordered local task is marked module-complete only by its own run (inline, coroutine, or its own thread).
- A task is emplaced once, without progress flags, and fewer than 2^32 tasks are live at once.
- Hosts are numbered 1 to N, and a node domain names one of them. Requests for ids go to node 1 only.

### Where the code differs from what its names and comments promise

- The group key is only the lane id: the serialiser empties the buffer that `GetGroup` filled
  (`include/hermes_run/network/local_serialize.h:18-20`). All ordered tasks of equal lane ids on one worker
  are one group, whatever their queue. `Archive.GroupKeyIsLaneId` states it and the worker model uses it.
- `SetUnordered` only reads its bit (`include/hermes_run/task_registry/task.h:300-302`); a dispersed task is kept
  out of the group table by its domain instead. `UnsetLongRunning` clears the unordered bit as well, line 39.
- `CreateTaskState` rewrites its method while admitted, so it is released through the default `return -1` of the
  admin `GetGroup`. That path is still ordered with the same key, so the depth count balances.
- Start order is not emplacement order when roots are shared: `WorkerOvertake.SharedRootOvertakes` gives the
  run. `WorkerOrder.RunKeepsOrderExactly` gives the exact condition on the branch taken, and
  `WorkerArrivalsExact.ArrivalsKeepOrderExactly` the exact condition on the arrivals.
- The lane loads drift apart once the 32-bit counter wraps, unless W-1 divides 2^32:
  `LaneFuture.LoadsBalancedExactly`.
- Merging and growing the work queue copy entries, and a copy leaves `count_` undefined
  (`include/hermes_run/work_orchestrator/worker.h:45-89`). `Throttle.PollsWhenCopied` says which calls poll whatever
  was left there; any 4096 calls without a copy among them poll once.
- Two ordered tasks can wait for each other's remote subtasks, each keeping the other's copy out of its group, and a
  slot 1024 or more places behind an unfinished head is not examined. So no claim is made that a dispersed task
  completes: `RemoteProgress.PushBlockedExactly` stops at the copy, and `WorkerProgress.EverySlotCanEnd` is about
  one worker.
- A transfer the receiver is not to read arrives as the content of a new buffer: `Wire.RebuiltExactly`. A reply
  whose output holds a transfer sends that transfer in place of the parameters (`Wire.ReplyWithTransferLosesBlob`);
  `Wire.ReplyExactly` says which outputs survive.
- A node-set domain is remote but resolves to no node, so its task completes without running:
  `RemoteTheorems.SetDomainNeverRuns`.

## Model

| member | source | states |
|---|---|---|
| `WorkerRuns.GroupTableExact` | include/hermes_run/work_orchestrator/worker.h:267-345 | in every reachable state a key is in the table iff an ordered local task with that lane id is admitted and not ended; the depth is the number of such tasks, they share the stored root, and no fatal branch was taken |
| `WorkerUnordered.TableIgnores` | include/hermes_run/work_orchestrator/worker.h:271-279 | a task flagged unordered, whose module answers 128, with admin method 3 to 10, or that leaves the node, is let in whatever the table holds, and its check and release leave the table alone |
| `WorkerUnordered.TableDecides` | include/hermes_run/work_orchestrator/worker.h:292-344 | any other task seen for the first time is let in iff its lane id is idle or held under a root of the same node and counter, whatever the hash; the depth goes up by one there and nothing else changes; its release undoes the check |
| `WorkerUnordered.NeverHeldUp` | src/worker.cc:71-127 | every examination that finds the run of such an unordered or leaving task enabled lets it in, and changes no group |
| `WorkerUnordered.UnorderedIsInNoGroup` | include/hermes_run/work_orchestrator/worker.h:274-279 | in every run such a task is never recorded as admitted and counted in no group |
| `WorkerUnordered.ActiveByFields` | include/hermes_run/work_orchestrator/worker.h:267-345 | the active tasks of a group are exactly the others of its lane id that were let in and have not ended |
| `WorkerUnordered.DomainDecides` | include/hermes_run/hermes_run_types.h:94-101 | in every run, by domain bits: a task that must leave is dispersed once by the time it ends and never started, admitted or given a stack here; any other is never dispersed |
| `WorkerUnordered.RewrittenTaskReleases` | tasks_required/hermes_run_admin/include/hermes_run_admin/hermes_run_admin_lib_exec.h:346-377 | creating a state turns method 2 into 0 and the group answer 0 into -1, and its release still does the same to the table |
| `WorkerFate.EndedIsDeletedOrPublished` | include/hermes_run/work_orchestrator/worker.h:348-355 | in every run a fire-and-forget task is deleted by the worker as it ends; any other is published complete and stays until its owner deletes it; one that has not ended is allocated and unpublished |
| `WorkerFate.PublishedStays` | include/hermes_run/work_orchestrator/worker.h:348-355 | a task that is not fire-and-forget is allocated for as long as its owner does not delete it, and complete iff it was ended |
| `WorkerArrivalsExact.ArrivalsKeepOrderExactly` | include/hermes_run/work_orchestrator/worker.h:267-345 | every schedule of given arrivals starts each lane's ordered tasks in emplacement order iff no lane has ordered i < j of different roots and an ordered task of their group with j's root, ahead of i or in another lane, within reach of one pass of 1024 |
| `WorkerArrivalsExact.RiskyArrivalsCanBreakOrder` | src/worker.cc:43-129 | for arrivals at risk, a run with passes of at most 1024 iterations in which a task starts past a waiting one |
| `WorkerArrivals.RiskFreeArrivalsStartInOrder` | src/worker.cc:43-129 | arrivals without a risk start in order in every bounded run, however interleaved |
| `WorkerOrder.IterationKeepsOrderExactly` | include/hermes_run/work_orchestrator/worker.h:292-307 | in any orderly pass, the next iteration keeps the order iff its slot is not an open ordered local task, not entered, whose group is held under its own root while an ordered slot ahead still waits |
| `WorkerOrder.RunKeepsOrderExactly` | include/hermes_run/work_orchestrator/worker.h:292-307 | over whole runs: the ordered tasks of every lane started in emplacement order iff no iteration met that guard |
| `WorkerOrder.AdmissionExactly` | include/hermes_run/work_orchestrator/worker.h:267-308 | in every reachable state a waiting ordered task is let in by its next examination iff every active task of its group has its root, so an idle group is never locked |
| `WorkerOrder.LetInByRoot` | include/hermes_run/work_orchestrator/worker.h:299-307 | with somebody waiting ahead in the pass the group is held, and a task is let in iff it has the stored root |
| `WorkerOrder.StaysBroken` | src/worker.cc:43-129 | an order once broken stays broken however the run goes on |
| `WorkerDistinct.OrderedTasksStartInOrder` | src/worker.cc:43-129 | if arrivals never share a root with an unfinished ordered task of their group, ordered local tasks of each lane are admitted in emplacement order over any number of passes |
| `WorkerDistinct.NobodyOvertakes` | src/worker.cc:71-127 | under distinct roots the breaking branch is never taken |
| `WorkerOrder.KeptOutByPassedHolder` | include/hermes_run/work_orchestrator/worker.h:292-307 | a task kept out is kept out by a holder which this pass has already gone by or which sits in another lane |
| `WorkerOvertake.SharedRootOvertakes` | include/hermes_run/work_orchestrator/worker.h:299-304 | a concrete run in which a same-root re-entry overtakes a waiting task |
| `WorkerRuns.EndedOnceThenUntouched` | include/hermes_run/work_orchestrator/worker.h:348-364 | a task is ended at most once, its entry is complete iff it was ended, no access of any kind follows its end, and every open entry points to live memory |
| `WorkerRuns.PassExaminesInOrder` | src/worker.cc:48-127 | iteration i of a pass examines exactly slot head+i, popped + off = i; only a completed prefix is popped, the rest keeps its order; a positive offset means an unfinished head; a short pass saw the end of the lane |
| `WorkerRuns.PassGrows` | include/hermes_run/work_orchestrator/worker.h:358-364 | from any offset, a pass only appends, closes and pops closed slots, on this lane and all others |
| `WorkerRuns.PassVisits` | src/worker.cc:48-58 | from any offset, the slots visited are consecutive |
| `WorkerStack.StackOncePerLocalCoroutine` | src/worker.cc:84-119 | a local coroutine's stack is made once, right at its first admission, and freed once, later, right before it ends, and exists exactly in between; a dispersed task or one that is no coroutine never has one |
| `WorkerProgress.EverySlotCanEnd` | src/worker.cc:43-129 | from every reachable state, with modules that finish when run, some passes of at most 1024 iterations, nothing new arriving, end every task in a lane |
| `WorkerProgress.RunReach` | src/worker.cc:48-52 | with bounded passes, a task let in and not ended is always within 1024 places of the head of its lane |
| `WorkerRuns.ReachableInv` | src/worker.cc:43-129 | the invariant linking lanes, flags, group table and history holds after any sequence of passes with any interference |
| `WorkerSteps.IterateInv` | src/worker.cc:50-127 | one iteration keeps that invariant |
| `WorkerSteps.AdmitInv` | src/worker.cc:73-110 | stamping, admitting and dispatching a task keeps it, for inline, coroutine, preemptive and remote tasks |
| `WorkerSteps.EndInv` | src/worker.cc:113-124 | completing an entry keeps it: group released, stack freed, entry popped or left closed, task deleted or published |
| `WorkerRuns.EnvStepInv` | src/worker.cc:43-129 | arrivals, threads finishing and owners deleting complete tasks keep it |
| `WorkerInvariant.GroupsAfterAdmission` | include/hermes_run/work_orchestrator/worker.h:267-308 | admitting an ordered task counts it under its lane id and changes no other group |
| `WorkerInvariant.GroupsAfterRelease` | include/hermes_run/work_orchestrator/worker.h:311-345 | releasing a holder never reaches the fatal branch and leaves the table exact for the remaining holders |
| `WorkerObject.Worker.CheckTaskGroup` | include/hermes_run/work_orchestrator/worker.h:267-308 | the verdict and the new group table |
| `WorkerObject.Worker.RemoveTaskGroup` | include/hermes_run/work_orchestrator/worker.h:311-345 | the new group table, or the fatal branch |
| `WorkerObject.Worker.PopTask` | include/hermes_run/work_orchestrator/worker.h:358-364 | pops at offset 0, otherwise moves the offset past the entry |
| `WorkerObject.Worker.EndTask` | src/worker.cc:117-124 | the whole state after a completion, the group released before the entry goes |
| `WorkerObject.Worker.Dispatch` | src/worker.cc:84-110 | the new task record and the making of a stack, for the four ways to run a task |
| `WorkerObject.Worker.TryRun` | src/worker.cc:72-110 | the whole state after the admission and dispatch part of an iteration |
| `WorkerObject.Worker.PollSlot` | src/worker.cc:50-127 | the whole state after one iteration |
| `WorkerObject.Worker.PollGrouped` | src/worker.cc:43-129 | at most 1024 iterations compute the pass the theorems are about |
| `Archive.GroupKeyIsLaneId` | include/hermes_run/network/local_serialize.h:18-40 | two keys are equal iff the lane ids are, whatever `GetGroup` wrote |
| `RemoteTheorems.ExactlyOncePerNode` | src/worker.cc:84-89 | a task that must leave is dispersed at most once, each replica is let in at most once and only at its own target; once module-complete, every resolved node ran it exactly once, the origin included when global |
| `RemoteHistory.WhereATaskRuns` | include/hermes_run/hermes_run_types.h:94-101 | from domain bits, id, host count and node numbers alone: a global task runs once on each of nodes 1 to numHosts, a node task once on that node, a bare node set nowhere, all else once at home; exactly so when module-complete, never more before; dispersed iff the bits say so |
| `RemoteHistory.SlotHoldsProducedValue` | tasks_required/remote_queue/src/remote_queue.cc:53-103 | slot r of a finished replicated task holds the value of the very run step that completed replica r |
| `RemoteHistory.HomeResult` | src/worker.cc:90-110 | a task that ran at home holds the value of the run step that completed it |
| `RemoteHistory.CopyCarriesSubmittedFlags` | tasks_required/remote_queue/src/remote_queue.cc:243-255 | every copy is a coroutine, or preemptive, iff its original was submitted so, and never fire-and-forget; the original keeps that flag |
| `RemoteHistory.OriginalIsDeletedOrPublished` | include/hermes_run/work_orchestrator/worker.h:348-355 | an original is deleted as it ends if fire-and-forget, else published; never both, never twice |
| `RemoteTheorems.CompleteMeansAllOutputsLoaded` | tasks_required/remote_queue/src/remote_queue.cc:53-103 | the original is module-complete only after every replica's output was loaded; there is one slot per target and slot r holds what the r-th resolved node produced |
| `RemoteTheorems.CopyLifetime` | tasks_required/remote_queue/src/remote_queue.cc:243-287 | a copy is never sent on, never deleted by its worker, allocated exactly until its outputs are serialised, deleted at most once; the coroutine flag is with the copy and off the settled origin |
| `RemoteTheorems.CopyEntersItsWorkerFresh` | tasks_required/remote_queue/src/remote_queue.cc:246-255 | a rebuilt copy is to its worker a local task seen for the first time, whatever flags the original carried, and keeps the coroutine and preemptive flags |
| `RemoteProgress.PushBlockedExactly` | tasks_required/remote_queue/src/remote_queue.cc:78-287 | in every reachable state the push of a dispersed task has an enabled step of its own iff it has not finished and is not waiting for a copy its destination has not completed |
| `RemoteProgress.PushRunsUntilItsCopy` | tasks_required/remote_queue/src/remote_queue.cc:147-287 | from every reachable state the push, by its own steps alone, comes to its end or to waiting for one copy |
| `RemoteTheorems.LocalTaskRunsOnceAtHome` | include/hermes_run/hermes_run_types.h:94-101 | a task that need not leave is let in once, at home, and never dispersed |
| `RemoteTheorems.SetDomainNeverRuns` | include/hermes_run/api/hermes_run_runtime.h:170-183 | a node-set domain runs nowhere |
| `RemoteTheorems.TargetsDistinct` | include/hermes_run/api/hermes_run_runtime.h:170-183 | no node is targeted twice |
| `RemoteModel.ResolveDomainId` | include/hermes_run/api/hermes_run_runtime.h:170-183 | one node domain per host in host order for a global domain, the domain itself for a node domain, nothing otherwise; the node numbers the protocol resolves to |
| `RemoteModel.Hosts` | include/hermes_run/api/hermes_run_runtime.h:172-176 | host i has node id i+1 |
| `RemoteProofs.ReachableInv` | tasks_required/remote_queue/src/remote_queue.cc:67-287 | the invariant linking originals, pushes, copies and run counts holds after any steps |
| `RemoteProofs.DisperseInv` | tasks_required/remote_queue/include/remote_queue/remote_queue.h:64-80 | serialising, resizing the slots and making the push keeps it |
| `RemoteProofs.SettleInv` | src/worker.cc:87-89 | disabling the run after the push may already be under way keeps it |
| `RemoteProofs.RpcExecInv` | tasks_required/remote_queue/src/remote_queue.cc:223-267 | rebuilding and emplacing the copy keeps it |
| `RemoteProofs.RpcCompleteInv` | tasks_required/remote_queue/src/remote_queue.cc:269-287 | saving the outputs and deleting the copy keeps it |
| `RemoteProofs.LoadReplyInv` | tasks_required/remote_queue/src/remote_queue.cc:53-64 | loading replica r's reply into slot r keeps it |
| `RemoteProofs.PushEndInv` | tasks_required/remote_queue/src/remote_queue.cc:67-75 | completing the original after the last replica keeps it |
| `RemoteProofs.CopiesStayHome` | tasks_required/remote_queue/src/remote_queue.cc:246-246 | a copy's domain names its own node, so it is not remote there |
| `Archive.ArchiveRoundTrip` | include/hermes_run/network/serialize.h:134-256 | for any mixed field sequence, reading the packed archive with the same kinds returns the values and the transfers in order, stamped by the writer, uses up the stream, and consumes every transfer but the last |
| `Archive.ReadWritten` | include/hermes_run/network/serialize.h:227-256 | the same wherever the transfers and the bytes lie |
| `Archive.ReadIsWritten` | include/hermes_run/network/serialize.h:134-256 | the converse: from any bytes, what a sequence of reads yields writes back exactly the bytes and transfers it consumed |
| `Archive.PlainRead` | include/hermes_run/network/serialize.h:244-250 | a plain field is read back from the front of any stream and consumes no transfer |
| `Archive.PlainLayout` | include/hermes_run/network/serialize.h:154-154 | numbers take 4 or 8 bytes, lowest first; a string its length in 8 bytes and then itself; a transfer nothing |
| `Archive.OutputArchive.Serialize` | include/hermes_run/network/serialize.h:134-164 | appends the fields' transfers, stamped, and their plain bytes |
| `Archive.OutputArchive.Get` | include/hermes_run/network/serialize.h:167-180 | the transfers in order and the blob last |
| `Archive.InputArchive.Deserialize` | include/hermes_run/network/serialize.h:227-256 | reads field by field, advancing the transfer index and the stream |
| `Wire.TaskArrives` | tasks_required/remote_queue/src/remote_queue.cc:147-229 | a task without transfers arrives equal; with one, its plain fields arrive equal and its bytes are the sender's iff the receiver is to read them; with more it is refused |
| `Wire.RebuiltExactly` | tasks_required/remote_queue/src/remote_queue.cc:78-220 | a task is always rebuilt with equal content iff it has no transfer, or one that is empty or receiver-read |
| `Wire.ReplyRoundTrip` | tasks_required/remote_queue/src/remote_queue.cc:269-287 | outputs without transfers come back equal, the empty output included |
| `Wire.ReplyExactly` | tasks_required/remote_queue/src/remote_queue.cc:53-64 | outputs come back with equal content iff they hold no transfer, or one whose data begins with the encoded plain outputs |
| `Wire.ReplyWithTransferLosesBlob` | tasks_required/remote_queue/src/remote_queue.cc:282-286 | an output transfer is sent in place of the parameters |
| `Wire.LoadReplies` | tasks_required/remote_queue/src/remote_queue.cc:80-102 | from the bytes of the replies, slot r of the result array gets the value of the r-th target |
| `NamingProofs.NodesAgreeOnNames` | tasks_required/hermes_run_admin/src/hermes_run_admin.cc:31-89 | for a name requested only with null ids: all nodes bind it to node 1's id, every finished request returns that non-null id, each node instantiates it at most once and only under it and then binds the name to it, and no other such name shares it |
| `NamingProofs.CreatedIsFound` | include/hermes_run/task_registry/task_registry.h:232-240 | a state created under a new id for an unbound name is what every lookup by that name finds from then on; other names and ids are not affected |
| `NamingProofs.BindingKept` | include/hermes_run/task_registry/task_registry.h:235-236 | creating under a bound name leaves its binding and what a lookup finds |
| `NamingProofs.NotCreated` | include/hermes_run/task_registry/task_registry.h:198-230 | a null id, an unknown library, an existing id or a failing constructor creates and binds nothing |
| `NamingProofs.CreatedStateIsFoundByName` | tasks_required/hermes_run_admin/src/hermes_run_admin.cc:56-88 | over runs, after a creation for a name requested only with null ids a lookup by name alone finds it under node 1's id iff no instance of another name sits on that id |
| `NamingProofs.ExistingStateIsReturned` | tasks_required/hermes_run_admin/src/hermes_run_admin.cc:40-46 | a request whose name its node already finds ends at once with that instance's id and creates nothing |
| `NamingProofs.GivenIdIsUsed` | tasks_required/hermes_run_admin/src/hermes_run_admin.cc:48-88 | a request with an id of its own creates its state under that id without asking node 1 |
| `NamingProofs.RequestFinishes` | tasks_required/hermes_run_admin/src/hermes_run_admin.cc:37-89 | over runs, a request for a name asked for with null ids finishes in at most three steps of its own with node 1's id, and then has its instance if library and constructor work |
| `NamingProofs.StepInv` | tasks_required/hermes_run_admin/src/hermes_run_admin.cc:37-89 | every step of every request, with the yield in between, keeps the agreement invariant |
| `NamingProofs.GetOrCreateOk` | include/hermes_run/task_registry/task_registry.h:243-251 | the authority binds a new name to an id no other such name has, and keeps every binding |
| `Naming.TaskRegistry.GetOrCreateTaskStateId` | include/hermes_run/task_registry/task_registry.h:243-251 | the new registry and the id |
| `Naming.TaskRegistry.CreateTaskStateId` | include/hermes_run/task_registry/task_registry.h:177-181 | ids are counted per node |
| `Naming.TaskRegistry.GetTaskState` | include/hermes_run/task_registry/task_registry.h:263-278 | lookup by name, by id only when the name is unbound |
| `Naming.TaskRegistry.CreateTaskState` | include/hermes_run/task_registry/task_registry.h:194-240 | the new registry; an existing binding of the name or the id is not overwritten; true iff the id is not null, the library is known, and the id exists or its constructor succeeds |
| `LaneOwnership.EveryLaneHasOneWorker` | tasks_required/worch_queue_round_robin/src/worch_queue_round_robin.cc:25-52 | over all creations, scheduler runs and merges: a lane is scheduled iff it is with a worker, with exactly one, at one place; low-priority lanes are with worker 0 and no others |
| `LaneOwnership.ScheduleLeavesNothing` | tasks_required/worch_queue_round_robin/src/worch_queue_round_robin.cc:27-50 | after a scheduler run every lane of every queue is scheduled |
| `LaneOwnership.LoadsBalanced` | tasks_required/worch_queue_round_robin/src/worch_queue_round_robin.cc:41-49 | the lanes of worker j+1 number exactly the rotation's load, so workers 1..W-1 differ by at most one lane up to 2^32 assignments, or always if W-1 divides 2^32 |
| `LaneFuture.SameHashSameWorker` | include/hermes_run/queue_manager/queues/hshm_queue.h:229-238 | equal queue, priority and hash at any two moments of any run give one lane, in range at both; its worker at the first is its only worker at both, and there is one once it is scheduled |
| `LaneFuture.GroupsAsDescribed` | include/hermes_run/queue_manager/queues/hshm_queue.h:104-125 | the groups of a queue are forever what its description said: index as priority, its lanes, its long-running flag |
| `LaneFuture.WorkerZeroExactly` | include/hermes_run/queue_manager/queues/hshm_queue.h:72-76 | a lane held later by a worker is held by worker 0 iff its group was described as long-running or is the first |
| `LaneFuture.AdminLanesWithWorkerZero` | include/hermes_run/work_orchestrator/work_orchestrator.h:54-61 | after the start-up step for the admin queue all lanes of its first group are with worker 0 and nobody else |
| `LaneFuture.HashesShareLane` | include/hermes_run/queue_manager/queues/hshm_queue.h:234-234 | lane k is chosen by hash k, and two hashes share a lane iff they differ by a multiple of the lane count |
| `LaneFuture.RunStays` | tasks_required/worch_queue_round_robin/src/worch_queue_round_robin.cc:25-52 | over any continuation no hand-out is taken back, no group changes its number of lanes, none loses a scheduled lane |
| `LaneFuture.LoadsBalancedExactly` | tasks_required/worch_queue_round_robin/src/worch_queue_round_robin.cc:41-49 | the lanes workers 1..W-1 hold differ by at most one in every run of up to t lanes assigned in rotation iff t is at most 2^32 or W-1 divides 2^32 |
| `LaneOwnership.StepInv` | include/hermes_run/work_orchestrator/work_orchestrator.h:54-61 | queue creation, the admin lanes at start-up, a scheduler run and a merge each keep the assignment exact and lose or duplicate no entry |
| `LaneOwnership.MultiQueue.Emplace` | include/hermes_run/queue_manager/queues/hshm_queue.h:229-238 | appends to the in-range lane the hash selects and to no other |
| `LaneOwnership.DeliverConserves` | include/hermes_run/work_orchestrator/worker.h:183-185 | what a worker holds stays exactly what it was given |
| `Balance.BalancedExactly` | tasks_required/worch_queue_round_robin/src/worch_queue_round_robin.cc:43-46 | loads stay within one of each other up to assignment t iff t is at most 2^32 or the number of rotating workers divides 2^32 |
| `Balance.LoadClosedForm` | tasks_required/worch_queue_round_robin/src/worch_queue_round_robin.cc:43-46 | the load of a place is an even division with remainder until the wrap is visible |
| `Balance.UnevenAfterWrap` | tasks_required/worch_queue_round_robin/src/worch_queue_round_robin.cc:43-46 | just past the wrap the first place is two ahead of the last |
| `Scheduler.RoundRobinScheduler.Schedule` | tasks_required/worch_queue_round_robin/src/worch_queue_round_robin.cc:25-52 | the whole new state of queues, counter and hand-outs |
| `Scheduler.RoundRobinScheduler.ScheduleLanes` | tasks_required/worch_queue_round_robin/src/worch_queue_round_robin.cc:33-50 | the same for one group: low priority to worker 0, others in rotation |
| `Scheduler.Poller.MergePollQueues` | include/hermes_run/work_orchestrator/worker.h:238-246 | the work queue grows by exactly the batches in order and none is left |
| `Scheduler.MakeGroups` | include/hermes_run/queue_manager/queues/hshm_queue.h:104-125 | the constructor's loop gives every group its index as priority and no scheduled lane |
| `SchedulerProofs.CreateQueueInv` | include/hermes_run/queue_manager/queue_manager_runtime.h:60-72 | creating a queue keeps every assignment made so far exact |
| `SchedulerProofs.ScheduleQueuesInv` | tasks_required/worch_queue_round_robin/src/worch_queue_round_robin.cc:25-52 | a scheduler run keeps the assignment exact and leaves every group fully scheduled |
| `Throttle.OncePerWindow` | src/worker.cc:32-40 | from any counter value and across wrap-around, a lane that is not low-latency is polled in exactly one of any 4096 consecutive calls |
| `Throttle.PollsWhen` | src/worker.cc:33-38 | call k polls iff count + k + 1 is a multiple of 4096, despite the 32-bit counter |
| `Throttle.Run` | src/worker.cc:32-40 | a low-latency entry is polled and untouched; any other has its counter one up, wrapped at 32 bits, and is polled iff that is a multiple of 4096; in order |
| `Throttle.PollsWhenCopied` | include/hermes_run/work_orchestrator/worker.h:45-89 | whatever copies of the entry were made, a call polls iff the value the last copy left plus the calls since is a multiple of 4096 |
| `Throttle.OncePerUncopiedWindow` | src/worker.cc:32-40 | in any window of 4096 calls with no copy in it the lane is polled exactly once, whatever copies came before |
| `ProcQueue.PushLifetime` | tasks_required/proc_queue/include/proc_queue/proc_queue_tasks.h:111-117 | however often it is polled: the subtask is emplaced at most once, the push completes only after it, both are deleted together at most once and only when no worker can reach either |
| `ProcQueue.PollsExactly` | tasks_required/proc_queue/src/proc_queue.cc:23-47 | in every run: emplaced exactly once from the first poll on, with fire-and-forget cleared; a poll ends the push iff it finds the subtask complete; deleted then if fire-and-forget, else published |
| `ProcQueue.StepInv` | tasks_required/proc_queue/src/proc_queue.cc:23-47 | each poll of the push or the subtask, and the owner's delete, keep the invariant behind it |
| `ProcQueue.PushTask.Push` | tasks_required/proc_queue/src/proc_queue.cc:23-47 | the new phase, flags and emplacement count, with the fall-through |
| `Policy.AtMostOneScheduler` | tasks_required/hermes_run_admin/src/hermes_run_admin.cc:109-137 | under any interleaving, of each kind at most one scheduler task is live; every finished change installed exactly one, no two the same, none from elsewhere, after its predecessor completed; none completes untold, all are long-running |
| `Policy.ChangeNeedsTwoPolls` | tasks_required/hermes_run_admin/src/hermes_run_admin.cc:109-122 | a waiting change gets its scheduler installed by its next poll once the live scheduler was polled once |
| `Policy.ChangeWaitsOnlyForPredecessor` | tasks_required/hermes_run_admin/src/hermes_run_admin.cc:124-137 | a polled change is finished, or has told the live scheduler to stop and changed nothing else |
| `Policy.AdminServer.SetPolicy` | tasks_required/hermes_run_admin/src/hermes_run_admin.cc:109-122 | the new scheduler slot; done iff there was no predecessor or it was complete |

## Left out

- Thallium and Margo calls, bulk registration, sockets and host lookup: a call is a request step and a reply step.
- hermes_shm containers and allocators, Argobots and fcontext: taken as FIFO, map, thread and yield/resume.
- The remote queue's handlers and `Disperse` are atomic steps on values, since they run in different threads on
  different nodes: update in place inside one handler is not captured, except for the reply loop (`Wire.LoadReplies`).
- The admin `CreateTaskState` handler is a sequence of steps on values around its yield; only the registry is an object.
- Bulk data sent back to the origin after a read call: only the reply's parameter bytes are modelled.
- Named node sets beyond their empty resolution; state destruction while tasks are queued; fatal-error continuations.
- `_RelinquishQueues`, queue tickets, `DestroyQueue`, `Resize` and plug flags: stubs or without a caller.
- `REMOTE_DEBUG`; non-atomic races on flag words; wrap-around of the 64-bit id counter; more than 2^32 live tasks.
- Two queue ids with equal counters from different nodes share a slot of the queue map; the model numbers slots.
- The join of a preemptive task's thread at the end of an entry, including for a dispersed preemptive task that
  never spawned one; which `Del` case the rewritten method of a created state selects.
- YAML configuration, library loading, CPU affinity, logging, generated dispatch switches other than the admin
  `GetGroup`: plumbing that would only add easy members.
- Throttle.OncePerWindow: speaks of calls between which the entry is not copied, because a copy leaves its counter
  undefined; `Throttle.PollsWhenCopied` covers histories with copies.
- WorkerDistinct.OrderedTasksStartInOrder: assumes distinct roots among unfinished ordered tasks of a group, because
  without that it is false; `WorkerArrivalsExact.ArrivalsKeepOrderExactly` has the exact condition.
- RemoteProgress.PushRunsUntilItsCopy: does not promise that the copy is completed, because its node's group table
  and the 1024-slot window may keep it out; the nodes' group tables and lanes are not part of the remote steps.
- WorkerArrivalsExact.ArrivalsKeepOrderExactly: lets the lanes' arrivals interleave in any way; for one fixed
  interleaving the condition is `WorkerOrder.RunKeepsOrderExactly`.
