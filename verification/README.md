# Gunyah core: models and proofs

A Dafny 4.11 model of the concurrent core of the Gunyah hypervisor and of two
kernels of its code generators, with proofs of what they promise. `dafny verify
dfyconfig.toml` checks the whole project.

Each concurrent component is a transition system over the atomic accesses or
critical sections of its code. A state is a value, a step is one access, a run is
any interleaving of enabled steps. An assertion or panic of the code is the outcome
`Panic` of a step, and the theorems quantify over all runs. Beside it stands the
imperative code: a class with the fields of the source, whose methods are proved
against the same step functions, and against what each call changes, field by field.
Memory is sequentially consistent throughout.

| component | files | main results |
|---|---|---|
| Read-copy-update | `RcuProtocol`, `RcuSafety`, `RcuGrace`, `RcuClasses`, `RcuOvertaking`, `RcuStaleTargets`, `RcuHandlers`, `SerialNumbers` | grace periods with their exact condition, generation bounds, exact counters, every update once and in its class |
| Scheduler | `SchedulerState`, `SchedulerInvariant`, `SchedulerRuns`, `SchedulerEffects`, `SchedulerPolicy`, `SchedulerTime`, `SchedulerHandlers`, `RunQueues` | one place per queued thread, one CPU per thread, no failing assertion, refinement of a simple policy by linked lists and bitmap words, round robin, deadlines that stand, killed until exit |
| Timer queues | `TimerProtocol`, `TimerSafety`, `TimerRuns`, `TimerScan`, `TimerPaths`, `TimerHandlers` | no timer lost in migration, when migration panics, deadlines cover, expiry exact |
| Capability space | `CapCodec`, `CapSlots`, `CapLimit`, `CapSlotsHandlers`, `CapDerivation`, `CapDerivationSafety`, `CapDerivationRuns`, `CapDerivationHandlers` | ID round trip, exact slot counts, no index or slot leaked, when the limit holds, derivation and revocation |
| Lists and bitmaps | `IntrusiveList`, `ListReader`, `Bitmap` | pointers refine sequences, lock-free readers, exact scans |
| Inter-processor interrupts | `IpiProtocol`, `IpiHandlers` | no lost wake-up, no reason lost or handled twice |
| CPU power | `PowerProtocol`, `PowerHandlers` | never all CPUs off, votes balanced and retried |
| Event lock summary | `LockSummary` | summary sound and exact |
| Bit fields | `BitFields`, `BitFieldMaps`, `BitFieldOrder` | ranges partition, compaction preserves meaning, when bit order is kept |

`Outcomes`, `Arithmetic`, `Sums` and `Lists` hold shared definitions.

Where a property does not hold of the code in full, the code is modelled as it is,
an example shows the failure, and the exact condition is proved:

- Grace periods (`RcuGrace.GracePeriod`, converse `RcuOvertaking.OvertakenUpdateRunsEarly`,
  example `OvertakingHappens`): no exchange that starts a period overlooks a CPU whose
  open section an update in a waiting batch has to wait for.
- Wrapping comparisons (`RcuSafety.TargetComparisonIff`, `MaxComparisonIff`, examples
  `RcuStaleTargets.StaleTargetMisleads`, `StaleRequestMisleads`): the generation is
  less than 2^31 past the CPU's last target.
- Hand-over of timers (`TimerScan.PanicsIff`, example `OutrunScanPanics`): it panics if
  and only if each other CPU was unusable when its turn came, which can happen
  although some CPU is usable at all times.
- Empty queue of an offline CPU (`TimerRuns.OfflineQueueIsEmptyIff`, example
  `ReservedTimeoutStrandsTimer`): no timer is armed with `TIMER_INVALID_TIMEOUT`.
- Decoding only issued IDs (`CapCodec.EncodeDecodeIff`, example `AliasExample`): the
  base-free ID is a multiple of the multiplier.
- `cap_count <= max_caps` (`CapLimit.LimitStepIff`, converse `GrowersPassLimit`, example
  `LimitCanBePassed`): no check passes when counted slots and allocations already
  growing the cspace have used the limit up. Once passed it stops nobody
  (`PassedLimitStopsNobody`).
- Completeness of the lock summary (`LockSummary.LegalIff`, example
  `OverlookedExample`): no requirement after a net release, no exclusion after a net
  acquire.
- Bit order of declared ranges (`BitFieldOrder.OrderIff`, example `CrossingExample`): the
  range crosses no unit boundary.

Inputs from outside the code are parameters: random draws, the current time, the
answers of the platform, memory exhaustion, spurious failures of weak exchanges,
what update callbacks enqueue, and the steps of other CPUs.

## Model

| member | source | states |
|---|---|---|
| RcuGrace.GracePeriod | hyp/core/rcu_bitmap/src/rcu_bitmap.c:312-586 | in every run in which no starting period overlooks a section that an update already waiting has to wait for, an update runs only after every read section that was open on any CPU when it was enqueued has closed |
| RcuOvertaking.OvertakenUpdateRunsEarly | hyp/core/rcu_bitmap/src/rcu_bitmap.c:312-586 | the converse: from every reachable state in which the exchange that starts a period overlooks such a section, some continuation runs an update while a section it has to wait for is still open |
| RcuOvertaking.OvertakingHappens | hyp/core/rcu_bitmap/src/rcu_bitmap.c:354-361 | such an exchange is reachable, when a CPU activates and opens a section between the load of the active set and the exchange, and so is an update that runs too early |
| RcuOvertaking.NextGeneration | hyp/core/rcu_bitmap/src/rcu_bitmap.c:320-361 | in every reachable state with an unmet target, a period that does not wait for some CPU can end, and the next one start, while that CPU does nothing and another one exists |
| RcuGrace.CalmIsOrderly | hyp/core/rcu_bitmap/src/rcu_bitmap.c:176-203 | an activation alone does no harm: while sections open only on CPUs that the period about to start waits for, no exchange overlooks anything |
| RcuGrace.GuardedStep | hyp/core/rcu_bitmap/src/rcu_bitmap.c:312-412 | every step that overlooks no awaited section keeps the relation between open sections, pending acknowledgements and batch ages that makes grace periods safe |
| RcuGrace.ClosedStaysClosed | hyp/core/rcu_bitmap/src/rcu_bitmap.c:31-43 | a section that has closed is never open again later in the run |
| RcuSafety.GenerationBounds | hyp/core/rcu_bitmap/src/rcu_bitmap.c:320-457 | with the loops split at each atomic access, generation <= max_target <= generation + 2, and neither ever decreases |
| RcuSafety.TargetComparisonIff | hyp/core/rcu_bitmap/src/rcu_bitmap.c:436-498 | in every reachable state util_is_before orders the generation and a CPU's target rightly if and only if the target is ahead, or the generation has gone on from it by less than 2^31 modulo 2^32 |
| RcuSafety.MaxComparisonIff | hyp/core/rcu_bitmap/src/rcu_bitmap.c:447-457 | the new target and the loaded max_target are ordered rightly if and only if max_target is not ahead, or ahead by at most 2^31 modulo 2^32 |
| RcuSafety.ComparisonIsExact | hyp/core/rcu_bitmap/src/rcu_bitmap.c:436-457 | all comparisons of a request and of the notification after it are right while less than 2^31 - 2 generations have passed since the target was chosen |
| RcuStaleTargets.StaleTargetMisleads | hyp/core/rcu_bitmap/src/rcu_bitmap.c:469-498 | for every age there is a reachable state in which a CPU with updates finds its target reached that many generations ago; the comparison then says it is still to come, so that the batches are held back, if and only if the age modulo 2^32 is at least 2^31 |
| RcuStaleTargets.StaleRequestMisleads | hyp/core/rcu_bitmap/src/rcu_bitmap.c:447-457 | a reachable state in which the request loop takes a target far behind max_target for one beyond it |
| RcuStaleTargets.Drive | hyp/core/rcu_bitmap/src/rcu_bitmap.c:312-466 | while nobody is active one CPU alone can take the generation on by any number, and no other CPU moves |
| RcuSafety.BoundedStep | hyp/core/rcu_bitmap/src/rcu_bitmap.c:414-466 | each single access keeps the bounds, whatever values the interrupted loops still hold |
| RcuSafety.CountersAreExact | hyp/core/rcu_bitmap/src/rcu_bitmap.c:469-586 | outside callbacks a CPU's update_count is the total length of its three batches, waiter_count is the number of CPUs with a nonzero count, and ready_updates says whether the ready batch has entries |
| RcuSafety.AccountingStep | hyp/core/rcu_bitmap/src/rcu_bitmap.c:74-117 | enqueueing, notifying and each callback conserve updates: queued ones and executed ones together are always exactly the enqueued ones |
| RcuSafety.UpdateEndIsEnabled | hyp/core/rcu_bitmap/src/rcu_bitmap.c:574-581 | the subtractions from update_count and waiter_count at the end of an update pass cannot underflow |
| RcuSafety.ExactlyOnce | hyp/core/rcu_bitmap/src/rcu_bitmap.c:543-586 | only enqueued updates run, none runs twice, and none is missing once all counts are zero, even when callbacks enqueue more |
| RcuClasses.RunsInItsClass | hyp/core/rcu_bitmap/src/rcu_bitmap.c:74-117 | in every run each update is executed by the handler of the class it was enqueued with, and until then waits in a list of that class, through all batch shifts |
| RcuClasses.LeadsClasses | hyp/core/rcu_bitmap/src/rcu_bitmap.c:500-572 | whatever a handler does by protocol steps leaves every pending update in the list of its class |
| RcuSafety.WaitersIsCardinality | hyp/core/rcu_bitmap/src/rcu_bitmap.c:82-86 | the counting form of the waiter count is the size of the set of CPUs with updates |
| RcuSafety.LeadsInvariant | hyp/core/rcu_bitmap/src/rcu_bitmap.c:312-586 | whatever a handler does by protocol steps keeps the accounting and the generation bounds |
| RcuHandlers.Rcu.Quiesce | hyp/core/rcu_bitmap/src/rcu_bitmap.c:312-361 | the compare-exchange loop ends with the seen period acknowledged, or, if the CPU was the last, with the next generation started; without interference the resulting period is given exactly |
| RcuHandlers.Rcu.QuiescePass | hyp/core/rcu_bitmap/src/rcu_bitmap.c:322-361 | one pass proposes a period from what was seen and installs it if and only if the period found by its exchange is still the one it started from |
| RcuHandlers.Rcu.ProposePeriod | hyp/core/rcu_bitmap/src/rcu_bitmap.c:323-358 | removing the own bit and, when none is left and a target is unmet, taking the active set for the next generation |
| RcuHandlers.Rcu.Enqueue | hyp/core/rcu_bitmap/src/rcu_bitmap.c:74-117 | the new entry is the first of the list of its own class in the next batch and carries that class, waits for every open section and is pending exactly once; no other update is moved, and update_count and waiter_count stay exact |
| RcuHandlers.Rcu.ActivateCpu | hyp/core/rcu_bitmap/src/rcu_bitmap.c:176-203 | the CPU is marked active and in the active set afterwards, nothing else of it or of others changes, the current period does not begin to wait for it, and on a CPU that is active already nothing changes |
| RcuHandlers.Rcu.DeactivateCpu | hyp/core/rcu_bitmap/src/rcu_bitmap.c:229-260 | whatever others do meanwhile the CPU is out of the active set afterwards and has acknowledged a period, or started the next as the last to do so |
| RcuHandlers.Rcu.RequestGracePeriod | hyp/core/rcu_bitmap/src/rcu_bitmap.c:415-466 | sets the CPU's target two generations ahead and returns with max_target or the generation at least there, under any interference and spurious failures |
| RcuHandlers.Rcu.RaiseMaxTarget | hyp/core/rcu_bitmap/src/rcu_bitmap.c:447-457 | the weak compare-exchange loop ends with max_target not below the target |
| RcuHandlers.Rcu.TryRaiseMax | hyp/core/rcu_bitmap/src/rcu_bitmap.c:450-457 | one exchange attempt settles, or reports the current max_target for the next one |
| RcuHandlers.ShiftBatches | hyp/core/rcu_bitmap/src/rcu_bitmap.c:500-523 | waiting becomes ready and next becomes waiting for every class, with exact flags for what is not empty |
| RcuHandlers.Rcu.AdvanceBatches | hyp/core/rcu_bitmap/src/rcu_bitmap.c:490-523 | of a CPU whose target generation has been reached, waiting updates are ready and next ones wait, nothing else of any CPU changes, and it reports exactly whether updates wait now |
| RcuHandlers.Rcu.AdvanceAndRequest | hyp/core/rcu_bitmap/src/rcu_bitmap.c:500-535 | waiting is ready, next is waiting, next is empty, and the target is two past the generation read exactly if updates wait now, else as before |
| RcuHandlers.Rcu.FinishUpdate | hyp/core/rcu_bitmap/src/rcu_bitmap.c:575-582 | takes exactly the callbacks that ran off the CPU's count, and the CPU off the waiters exactly if that was all |
| RcuHandlers.Rcu.RunClasses | hyp/core/rcu_bitmap/src/rcu_bitmap.c:553-572 | runs all ready lists class by class, each in order, while callbacks may enqueue |
| RcuHandlers.Rcu.RunReady | hyp/core/rcu_bitmap/src/rcu_bitmap.c:543-586 | executes exactly the ready batch in class order and clears the ready flag, with counts exact again |
| RcuHandlers.Rcu.NotifyCpu | hyp/core/rcu_bitmap/src/rcu_bitmap.c:469-540 | runs what is ready, then moves waiting to ready if and only if the CPU has updates and its target is reached by the generation it reads; and asks two generations ahead exactly if updates wait now; does nothing on a CPU without updates |
| SerialNumbers.AgreesIff | hyp/core/util/src/misc.c:18-23 | util_is_before on wrapped 32-bit counters agrees with true order if and only if the difference is within [-2^31, 2^31) |
| SerialNumbers.AheadIff | hyp/core/util/src/misc.c:18-23 | for counters any distance apart with the first behind, the answer is right if and only if the distance is from 1 to 2^31 modulo 2^32 |
| SerialNumbers.Antisymmetric | hyp/core/util/src/misc.c:18-23 | within 2^31 exactly one of two different counters is before the other |
| SerialNumbers.Transitive | hyp/core/util/src/misc.c:18-23 | the comparison is transitive across wrap-around while all distances stay within 2^31 |
| SchedulerRuns.AssertionsNeverFail | hyp/core/scheduler_fprr/src/scheduler_fprr.c:789-1390 | in no run does any operation, taken at any point, fail one of the code's assertions on queue and thread flags |
| SchedulerRuns.StepKeepsInv | hyp/core/scheduler_fprr/src/scheduler_fprr.c:789-1390 | every operation keeps the invariant over flags, block bits, bitmap, run queues, active threads and switching CPUs |
| SchedulerRuns.ExactlyOnePlace | hyp/core/scheduler_fprr/src/scheduler_fprr.c:153-213 | a queued thread is in exactly one place, on its affinity CPU and at the level of its priority; an unqueued thread is in none |
| SchedulerRuns.FlagsAgree | hyp/core/scheduler_fprr/src/scheduler_fprr.c:216-228 | queued means runnable with an affinity and no pending requeue; need_requeue implies running and not queued; exited implies not queued; a priority bit is set if and only if its list is not empty |
| SchedulerRuns.OneCpuPerThread | hyp/core/scheduler_fprr/src/scheduler_fprr.c:941-1018 | no thread is ever on two CPUs, not even while one of them is switching, under concurrent affinity changes and denied switches |
| SchedulerRuns.NextTargetKeepsInv | hyp/core/scheduler_fprr/src/scheduler_fprr.c:518-562 | selecting a target keeps every queue and flag consistent |
| SchedulerRuns.PreKeepsInv | hyp/core/scheduler_fprr/src/scheduler_fprr.c:941-978 | the switch-in check, which may deny the switch, keeps the invariant |
| SchedulerRuns.PostKeepsInv | hyp/core/scheduler_fprr/src/scheduler_fprr.c:987-1018 | switching out requeues or releases the previous thread and keeps the invariant |
| SchedulerInvariant.BlockKeepsInv | hyp/core/scheduler_fprr/src/scheduler_fprr.c:1021-1041 | blocking removes the thread from the scheduler when it stops being runnable |
| SchedulerInvariant.UnblockKeepsInv | hyp/core/scheduler_fprr/src/scheduler_fprr.c:1052-1089 | unblocking queues the thread, or marks it for a requeue while it still runs |
| SchedulerInvariant.SyncKeepsInv | hyp/core/scheduler_fprr/src/scheduler_fprr.c:465-490 | completing an affinity change unblocks the thread on its new CPU |
| SchedulerInvariant.SetAffinityKeepsInv | hyp/core/scheduler_fprr/src/scheduler_fprr.c:1165-1216 | an affinity change takes the thread off its old CPU before it can be queued on the new one |
| SchedulerInvariant.UpdateParamsKeepsInv | hyp/core/scheduler_fprr/src/scheduler_fprr.c:1219-1252 | a change of priority or timeslice moves a queued thread to its new level |
| SchedulerInvariant.KillKeepsInv | hyp/core/scheduler_fprr/src/scheduler_fprr.c:1314-1362 | killing a thread keeps the invariant over its flags, place and level; what it does to the thread is SchedulerEffects.KillEffect |
| SchedulerInvariant.ExitKeepsInv | hyp/core/scheduler_fprr/src/scheduler_fprr.c:1365-1390 | an exit meets its assertions and keeps the invariant |
| SchedulerRuns.PendingChangeIsFixed | hyp/core/scheduler_fprr/src/scheduler_fprr.c:465-490 | in every run a thread with a pending affinity change keeps the announced affinity and stays blocked, unqueued and off every CPU until the change is finished |
| SchedulerRuns.KilledUntilExit | hyp/core/scheduler_fprr/src/scheduler_fprr.c:1314-1390 | in every run a thread that was killed stays killed until it exits by itself, and is queued if and only if it has an affinity, no requeue is due, and no block is set that it cannot be killed through |
| SchedulerRuns.RunsAtHome | hyp/core/scheduler_fprr/src/scheduler_fprr.c:941-1018 | in every run a thread that is running does so on the CPU of its affinity, except after a change of its affinity, which then blocks it and keeps it out of the queues |
| SchedulerRuns.RunKeeps | hyp/core/scheduler_fprr/src/scheduler_fprr.c:789-1390 | no step of any run clears a thread's exit mark, none but its own exit its kill mark, and none but a change of its affinity or the end of one its affinity and pending mark |
| SchedulerEffects.BlockEffect | hyp/core/scheduler_fprr/src/scheduler_fprr.c:1021-1041 | field by field: one block bit is set, and a queued thread leaves its place exactly if it now heeds a block; no other thread moves or changes |
| SchedulerEffects.UnblockEffect | hyp/core/scheduler_fprr/src/scheduler_fprr.c:1052-1089 | field by field: one block bit is cleared, and the thread joins the end of its level, or is marked for a requeue while it runs, exactly if that was its last heeded block |
| SchedulerEffects.SyncEffect | hyp/core/scheduler_fprr/src/scheduler_fprr.c:465-490 | field by field: the pending mark and the block of the change are cleared, and a thread that heeds no block any more joins the queues of its affinity, or is marked while it runs |
| SchedulerEffects.AffinityEffect | hyp/core/scheduler_fprr/src/scheduler_fprr.c:1165-1216 | field by field: unless the change is turned down the thread has its new affinity, a queued one has left the old CPU and joins the new one, and it stays blocked exactly if it runs or has to wait for a grace period |
| SchedulerEffects.ParamsEffect | hyp/core/scheduler_fprr/src/scheduler_fprr.c:1219-1252 | field by field: exactly priority and base timeslice are set as asked, and a queued thread moves to the end of its new level, or is marked for that while it runs; other threads keep their order |
| SchedulerEffects.KillEffect | hyp/core/scheduler_fprr/src/scheduler_fprr.c:1314-1362 | field by field: unless it has exited the thread is marked killed, and joins its level, or is marked for that while it runs, exactly if it stops heeding blocks by that; no other thread moves or changes |
| SchedulerEffects.ExitEffect | hyp/core/scheduler_fprr/src/scheduler_fprr.c:1365-1390 | field by field: the thread is marked exited and no longer killed and is in no place; no other thread moves or changes |
| SchedulerEffects.PreEffect | hyp/core/scheduler_fprr/src/scheduler_fprr.c:941-978 | field by field: the target runs here exactly if it runs nowhere else, its affinity is this CPU and it heeds no block or is the idle thread; a denied switch changes no thread |
| SchedulerEffects.PostEffect | hyp/core/scheduler_fprr/src/scheduler_fprr.c:987-1018 | field by field: the previous thread runs nowhere and has no mark left, a change of its affinity is over or pending, and if it gets queued it is at the end of its level; no other thread moves or changes |
| SchedulerRuns.ExitedForGood | hyp/core/scheduler_fprr/src/scheduler_fprr.c:1365-1390 | in every run an exited thread stays exited, is never queued again and never active |
| SchedulerPolicy.NextTargetRefinesLines | hyp/core/scheduler_fprr/src/scheduler_fprr.c:518-562 | selection refines one line per priority with the active thread first: only an expired thread moves, to the end of its line, and the target is the first of the best line |
| SchedulerPolicy.LinesHoldAll | hyp/core/scheduler_fprr/src/scheduler_fprr.c:153-213 | the reference lines hold every thread queued on the CPU, each in the line of its priority, and nobody else |
| SchedulerTime.SelectionCharges | hyp/core/scheduler_fprr/src/scheduler_fprr.c:132-150 | selection changes no thread but the active one, and of that only its timeslice: until the deadline it is left with the rest, from the deadline on with its full base timeslice; the clock restarts now |
| SchedulerTime.DeadlineStands | hyp/core/scheduler_fprr/src/scheduler_fprr.c:132-150 | over whole runs, through selections, switches and changes to other threads, a thread that stays active and does not yield keeps the deadline it started with, however often it is looked at in time; a selection leaves it the rest before that deadline and a full slice from then on |
| SchedulerTime.StepKeepsDeadline | hyp/core/scheduler_fprr/src/scheduler_fprr.c:518-562 | any step that leaves the thread active, is no yield of it and no selection at or past its deadline keeps the deadline |
| SchedulerPolicy.TargetIsBest | hyp/core/scheduler_fprr/src/scheduler_fprr.c:518-562 | the target has maximal priority among all threads queued on the CPU |
| SchedulerPolicy.DisplacedOnlyWhenDue | hyp/core/scheduler_fprr/src/scheduler_fprr.c:536-546 | an active thread is displaced only by a higher priority, or by an equal one once its timeslice is used up |
| SchedulerPolicy.RoundRobin | hyp/core/scheduler_fprr/src/scheduler_fprr.c:132-213 | with expiries at every selection and no arrivals, n threads of the best level become active in turn, each once in n selections, and the line is then as it was |
| SchedulerHandlers.Scheduler.AddThread | hyp/core/scheduler_fprr/src/scheduler_fprr.c:790-849 | a runnable thread that is in no queue joins the end of its level on its affinity CPU with a full timeslice, and no other thread moves; every assertion of the function holds and the new state is the specified one |
| SchedulerHandlers.Scheduler.RemoveThread | hyp/core/scheduler_fprr/src/scheduler_fprr.c:852-892 | a queued thread is in no place afterwards and no other thread has moved; every assertion of the function holds and the new state is the specified one |
| SchedulerHandlers.Scheduler.MakeRunnable | hyp/core/scheduler_fprr/src/scheduler_fprr.c:1063-1075 | a thread that became runnable joins its level, or is marked for a requeue while it runs, and every flag, queue and bit agrees again; every assertion of the function holds and the new state is the specified one |
| SchedulerHandlers.Scheduler.Block | hyp/core/scheduler_fprr/src/scheduler_fprr.c:1021-1041 | sets exactly the block bit, takes the thread out of its place if it was queued, and moves no other thread; every assertion of the function holds and the new state is the specified one |
| SchedulerHandlers.Scheduler.Unblock | hyp/core/scheduler_fprr/src/scheduler_fprr.c:1052-1089 | clears exactly the block bit and queues the thread, or marks it while it runs, if that was its last heeded block; every assertion of the function holds and the new state is the specified one |
| SchedulerHandlers.Scheduler.StartAffinityEvents | hyp/core/scheduler_fprr/src/scheduler_fprr.c:917-938 | afterwards the change is pending for a grace period or the thread is unblocked, exactly one of the two, with the invariant restored; every assertion of the function holds and the new state is the specified one |
| SchedulerHandlers.Scheduler.FinishAffinityChange | hyp/core/scheduler_fprr/src/scheduler_fprr.c:465-490 | the pending mark and the block of the change are cleared, and the thread joins the queues of its affinity if it heeds no block any more; every assertion of the function holds and the new state is the specified one |
| SchedulerHandlers.Scheduler.SetAffinity | hyp/core/scheduler_fprr/src/scheduler_fprr.c:1165-1216 | tells a denied, a refused and an early change apart, each with its exact condition and without effect; else the thread has its new affinity, has left the queues of the old CPU, and stays blocked exactly if it runs or has to wait for a grace period; every assertion of the function holds and the new state is the specified one |
| SchedulerHandlers.Scheduler.UpdateSchedParams | hyp/core/scheduler_fprr/src/scheduler_fprr.c:1219-1252 | sets exactly priority and base timeslice and moves a queued thread to the end of its new level, or marks it for that while it runs; every assertion of the function holds and the new state is the specified one |
| SchedulerHandlers.Scheduler.HandleKilled | hyp/core/scheduler_fprr/src/scheduler_fprr.c:1314-1362 | marks a thread that has not exited killed, and it is then queued if and only if it has an affinity, no requeue is due and no block is set that it cannot be killed through; no other thread changes; every assertion of the function holds and the new state is the specified one |
| SchedulerHandlers.Scheduler.HandleExited | hyp/core/scheduler_fprr/src/scheduler_fprr.c:1365-1390 | marks the thread exited and no longer killed, and it is in no queue; no other thread changes; every assertion of the function holds and the new state is the specified one |
| SchedulerHandlers.Scheduler.ContextSwitchPre | hyp/core/scheduler_fprr/src/scheduler_fprr.c:941-978 | takes the CPU for the next thread if and only if that thread runs nowhere, its affinity is this CPU and it heeds no block or is the idle thread; a denied switch changes no thread; every assertion of the function holds and the new state is the specified one |
| SchedulerHandlers.Scheduler.ContextSwitchPost | hyp/core/scheduler_fprr/src/scheduler_fprr.c:987-1018 | the previous thread runs nowhere and has no mark left, a change of its affinity is over or pending, and its flags and place agree with that; every assertion of the function holds and the new state is the specified one |
| RunQueues.RunQueue.constructor | hyp/core/scheduler_fprr/src/scheduler_fprr.c:246-256 | all levels are empty rings and no bit is set |
| RunQueues.RunQueue.AddToRunqueue | hyp/core/scheduler_fprr/src/scheduler_fprr.c:153-174 | on linked nodes and bitmap words: the thread is at the chosen end of its level, all other levels are as before, and a bit is set exactly for the levels that are not empty |
| RunQueues.RunQueue.RemoveFromRunqueue | hyp/core/scheduler_fprr/src/scheduler_fprr.c:177-193 | on linked nodes and bitmap words: the thread leaves its level, the order of the others is kept, and a bit is set exactly for the levels that are not empty |
| RunQueues.RunQueue.PopRunqueueHead | hyp/core/scheduler_fprr/src/scheduler_fprr.c:196-213 | a level whose bit is set has a first thread, which the container of the head node yields and which leaves the level |
| RunQueues.RunQueue.FirstLevel | hyp/core/scheduler_fprr/src/scheduler_fprr.c:534-535 | the word scan finds the highest priority that has a thread waiting, and none if and only if nobody waits |
| RunQueues.RunQueue.SwitchActive | hyp/core/scheduler_fprr/src/scheduler_fprr.c:543-559 | the first thread of the level becomes active from now on and the displaced one goes to the tail of its level if its timeslice has run out, else to the head; every other place is as before |
| RunQueues.RunQueue.UpdateTimeslice | hyp/core/scheduler_fprr/src/scheduler_fprr.c:132-150 | expired if and only if the clock has reached the time the thread was scheduled plus its timeslice; then it has a full base timeslice, else the rest, and no other thread changes |
| RunQueues.RunQueue.GetNextTarget | hyp/core/scheduler_fprr/src/scheduler_fprr.c:518-562 | over pointers and words exactly the selection whose policy SchedulerPolicy proves; the active thread is charged up to now and the clock restarts, and the result is the active thread or, without one, the idle one |
| TimerRuns.OnlyScansPanic | hyp/core/timer/src/timer_queue.c:133-489 | no interleaving enqueues a queued timer, unlinks a timer through a queue it is not in, pops an empty queue, or enqueues on an offline queue; a step panics if and only if it is a try of a migration scan that gives up |
| TimerScan.PanicsIff | hyp/core/timer/src/timer_queue.c:453-482 | the next try of a scan panics if and only if every other CPU was unusable at the moment this scan tried it |
| TimerScan.SteadyCpuPreventsPanic | hyp/core/timer/src/timer_queue.c:448-482 | the panic is ruled out if one other CPU stays usable for the whole scan |
| TimerPaths.UpIsNotRefused | hyp/core/timer/src/timer_queue.c:448-482 | on paths of own steps, steps given for others and lock holders finishing, a usable CPU that nobody takes offline never turns a timer down |
| TimerScan.OutrunScanPanics | hyp/core/timer/src/timer_queue.c:453-482 | a run in which a scan panics although in every state some other CPU is functional and online |
| TimerScan.ScanOn | hyp/core/timer/src/timer_queue.c:466-478 | the cyclic search skips the own CPU and comes back to its start only after it has met every other CPU |
| TimerScan.ScanHistory | hyp/core/timer/src/timer_queue.c:453-478 | at any point of a scan the CPUs it has tried in vain are exactly those between its start and its current target |
| TimerRuns.StepKeepsInv | hyp/core/timer/src/timer_queue.c:133-489 | every critical section of enqueue, dequeue, update, expiry and migration keeps the invariant over lists, pointers, locks and deadlines |
| TimerRuns.NoTimerLostOrDuplicated | hyp/core/timer/src/timer_queue.c:165-196 | through any interleaving of offline migration with remote dequeue and update, a timer is listed at most once over all CPUs, exactly in the queue it names, except the one timer a CPU is handing over |
| TimerRuns.StaysArmed | hyp/core/timer/src/timer_queue.c:133-489 | in every run an armed timer stays armed with its timeout until a dequeue or an update of it or its own expiry; migration never drops or re-times it |
| TimerRuns.CacheIsMinimum | hyp/core/timer/src/timer_queue.c:120-237 | the cached timeout of a queue is the minimum over its timers |
| TimerRuns.DeadlineCoversAll | hyp/core/timer/src/timer_queue.c:120-130 | on a running CPU with no synchronisation pending and no expiry in progress, the hardware deadline is no later than any timer naming its queue |
| TimerRuns.ExpiryIsExact | hyp/core/timer/src/timer_queue.c:304-324 | expiry fires a due timer that is the earliest of its queue, and ends only when no timer of the queue is due |
| TimerRuns.OfflineQueueIsEmptyIff | hyp/core/timer/src/timer_queue.c:439-489 | an offline CPU's queue is empty if and only if no timer armed with the reserved timeout names it |
| TimerRuns.OfflineQueueIsEmpty | hyp/core/timer/src/timer_queue.c:422-489 | while nobody arms a timer with the reserved timeout, an offline CPU's queue is empty and stays so until it is online again |
| TimerRuns.ReservedTimeoutStrandsTimer | hyp/core/timer/src/timer_queue.c:439-439 | a timer armed with the reserved timeout is left behind when its CPU goes offline |
| TimerRuns.DequeueEffect | hyp/core/timer/src/timer_queue.c:165-196 | unlinking keeps order, distinctness and the cached timeout, also when it is redundant because the timer expired or is being migrated |
| TimerRuns.EnqueueEffect | hyp/core/timer/src/timer_queue.c:133-162 | ordered insertion keeps the queue sorted and moves cache and deadline exactly when the head changes |
| TimerRuns.UpdateEffect | hyp/core/timer/src/timer_queue.c:199-237 | re-timing a listed timer keeps the queue sorted and the deadline covering |
| TimerRuns.MoveEffect | hyp/core/timer/src/timer_queue.c:378-419 | a migrated timer enters the target's queue in order, and a new head asks the target to synchronise |
| TimerHandlers.TimerQueues.UpdateTimeout | hyp/core/timer/src/timer_queue.c:120-130 | programs the hardware to the cached timeout, or cancels it |
| TimerHandlers.TimerQueues.EnqueueLocked | hyp/core/timer/src/timer_queue.c:133-162 | the timer is behind all that are not later and before all later ones, the others keep their order, and the hardware is programmed exactly if it is the first; the least timeout is cached and nothing else has changed |
| TimerHandlers.TimerQueues.DequeueLocked | hyp/core/timer/src/timer_queue.c:165-196 | the others keep their order and the least timeout left is cached; a timer that is not listed changes nothing; reports true exactly when the first timer went or none is left |
| TimerHandlers.TimerQueues.UpdateLocked | hyp/core/timer/src/timer_queue.c:199-237 | the timer is put back in order at its new timeout, the others keep theirs, and the hardware follows exactly if the timer was or is the first; with the old timeout nothing changes |
| TimerHandlers.TimerQueues.DequeueAndProgram | hyp/core/timer/src/timer_queue.c:262-269 | unlinks the timer and reprograms the hardware exactly if the queue is the CPU's own and its first timer went or none is left |
| TimerHandlers.TimerQueues.Enqueue | hyp/core/timer/src/timer_queue.c:240-253 | arms the timer on the calling CPU, in order and behind its equals |
| TimerHandlers.TimerQueues.Dequeue | hyp/core/timer/src/timer_queue.c:256-273 | whatever other CPUs do between its sections, the timer is afterwards armed nowhere and in no list; if they do nothing, all other timers are untouched |
| TimerHandlers.TimerQueues.Update | hyp/core/timer/src/timer_queue.c:276-301 | whatever other CPUs do between its sections, the timer is afterwards armed on the calling CPU with the new timeout; if they do nothing, all other timers are untouched |
| TimerHandlers.TimerQueues.DequeueExpired | hyp/core/timer/src/timer_queue.c:304-324 | fires exactly the due prefix of the queue in order, leaves only later timers and reprograms the hardware |
| TimerHandlers.TimerQueues.TryMove | hyp/core/timer/src/timer_queue.c:378-419 | succeeds if and only if the target is online, and then the timer in transit is in order in the target's queue, which is asked to synchronise exactly if it is the first there, unless it was dequeued or moved meanwhile |
| TimerHandlers.TimerQueues.TryTarget | hyp/core/timer/src/timer_queue.c:456-476 | one try, in a state reached by own steps, steps given for others and lock holders finishing: moved if and only if the target is usable, given up if and only if the scan is back at its start |
| TimerHandlers.TimerQueues.FindTarget | hyp/core/timer/src/timer_queue.c:453-479 | under any interference the scan ends with the timer taken, or after every other CPU was unusable when its turn came; it never fails if one other CPU is usable and no step given takes it offline |
| TimerHandlers.TimerQueues.HandleOffline | hyp/core/timer/src/timer_queue.c:422-489 | under any interference it ends with no timer of the CPU left but those with the reserved timeout, or fails after every other CPU was unusable when its turn came, never if one other CPU stays up; without interference each timer goes to a usable CPU with its timeout unchanged, or none was usable |
| CapCodec.DecodeEncode | hyp/core/cspace_twolevel/src/cspace_twolevel.c:124-146 | decode(encode(v)) = v for every 16-bit value, nonzero 16-bit multiplier and allowed base |
| CapCodec.NoOverflow | hyp/core/cspace_twolevel/src/cspace_twolevel.c:133-137 | the decode product of any accepted ID stays within 64 bits |
| CapCodec.EncodeIsInjective | hyp/core/cspace_twolevel/src/cspace_twolevel.c:125-130 | different values have different IDs |
| CapCodec.ReservedSpaceUnused | hyp/core/cspace_twolevel/src/cspace_twolevel.c:88-97 | IDs are 64-bit and never in 0xffffffff.xxxxxxxx |
| CapCodec.EncodeDecodeIff | hyp/core/cspace_twolevel/src/cspace_twolevel.c:133-146 | an accepted ID is the one handed out for its value if and only if its base-free form is a multiple of the multiplier |
| CapCodec.ImageOfEncode | hyp/core/cspace_twolevel/src/cspace_twolevel.c:125-130 | the IDs in use are exactly the base-free multiples of the multiplier with a 16-bit factor |
| CapCodec.AliasExample | hyp/core/cspace_twolevel/src/cspace_twolevel.c:133-146 | with multiplier 2 an ID that was never handed out decodes to value 0 |
| CapCodec.InverseRecovers | hyp/core/cspace_twolevel/src/cspace_twolevel.c:108-110 | multiplying by the rounded-up inverse recovers the factor of every multiple below 2^32 |
| CapCodec.PickMultiplier | hyp/core/cspace_twolevel/src/cspace_twolevel.c:103-109 | the search ends within four rounds with the lowest nonzero 16-bit digit of the draw, or 0x5555 |
| CapCodec.InitIdEncoder | hyp/core/cspace_twolevel/src/cspace_twolevel.c:80-122 | establishes a valid encoder if and only if an allowed base is drawn before the entropy runs out; the first allowed draw is the base and the next one gives the multiplier |
| CapCodec.IndicesRoundTrip | hyp/core/cspace_twolevel/src/cspace_twolevel.c:149-180 | a slot's ID leads back to its two indices |
| CapSlots.PanicsAreUnreachable | hyp/core/cspace_twolevel/src/cspace_twolevel.c:252-443 | with all split points interleaved and the slot bitmap read word by word, a reserved allocator always finds a clear slot, counts never underflow and indices never lead to a missing table |
| CapSlots.CountsAreExact | hyp/core/cspace_twolevel/src/cspace_twolevel.c:347-443 | an attached table's cap_count is its marked slots plus reserved unmarked ones plus cleared undecremented ones, it is attached if and only if that is not zero, and the cspace count is the sum over tables |
| CapSlots.AvailableIffNotFull | hyp/core/cspace_twolevel/src/cspace_twolevel.c:362-387 | the available bit is set if and only if the index has an attached table that is not full |
| CapSlots.NoIndexLeaks | hyp/core/cspace_twolevel/src/cspace_twolevel.c:252-443 | in every run a table index is taken if and only if a table is attached there or an agent that has claimed it is about to attach one |
| CapSlots.ReservedHasRoom | hyp/core/cspace_twolevel/src/cspace_twolevel.c:391-399 | whatever the others mark and clear meanwhile, an allocator that is reading the bitmap has a clear bit at or after the word it has come to |
| CapSlots.StepKeepsInv | hyp/core/cspace_twolevel/src/cspace_twolevel.c:252-443 | each split step of allocation, table growth and release keeps counts, bits and claimed indices consistent |
| CapLimit.LimitStepIff | hyp/core/cspace_twolevel/src/cspace_twolevel.c:356-383 | a step leaves the limit, counting the allocations that are growing the cspace, if and only if it is a check that passes although those will use the limit up |
| CapLimit.LimitHolds | hyp/core/cspace_twolevel/src/cspace_twolevel.c:356-383 | cap_count <= max_caps throughout every run without such a check |
| CapLimit.GrowersPassLimit | hyp/core/cspace_twolevel/src/cspace_twolevel.c:356-383 | the other half: once counted slots and growing allocations exceed the limit and table indices are left for them, finishing those allocations takes cap_count past max_caps |
| CapLimit.PassedLimitStopsNobody | hyp/core/cspace_twolevel/src/cspace_twolevel.c:353-387 | the limit is tested by equality: once it is passed, a single agent can raise cap_count by any number, or until no table has room and no index is left |
| CapLimit.LimitCanBePassed | hyp/core/cspace_twolevel/src/cspace_twolevel.c:356-383 | two allocations in an empty cspace for one capability reach cap_count 2, as both check before either attaches |
| CapSlotsHandlers.CapSpace.CheckAndReserve | hyp/core/cspace_twolevel/src/cspace_twolevel.c:353-387 | fails exactly at the limit without effect; else adds one to the counts of the lowest available table and of the cspace, making the table unavailable exactly if that fills it, or asks for a new table exactly if none is available |
| CapSlotsHandlers.CapSpace.AllocateTable | hyp/core/cspace_twolevel/src/cspace_twolevel.c:252-293 | makes an empty table for the lowest index not taken and gives the index back when memory runs out; full exactly when every index is taken |
| CapSlotsHandlers.CapSpace.AttachAndReserve | hyp/core/cspace_twolevel/src/cspace_twolevel.c:371-387 | the new table is attached at its index with a count of one and is available unless that fills it |
| CapSlotsHandlers.CapSpace.MarkSlot | hyp/core/cspace_twolevel/src/cspace_twolevel.c:391-399 | sets the lowest clear bit of the reserved table, found word by word |
| CapSlotsHandlers.CapSpace.AllocateSlot | hyp/core/cspace_twolevel/src/cspace_twolevel.c:347-407 | hands out a slot that was not in use, or an error that leaves the cspace as it was: full if and only if at the limit or without room and index, no memory only when memory is missing |
| CapSlotsHandlers.CapSpace.FreeSlot | hyp/core/cspace_twolevel/src/cspace_twolevel.c:411-443 | clears the slot and lowers both counts by one; a table that becomes empty is detached with its index free, any other is available; no other index changes |
| CapDerivationRuns.PanicsAreUnreachable | hyp/core/cspace_twolevel/src/cspace_twolevel.c:592-857 | in no interleaving of create, copy, delete and revoke is a list corrupted, a master not at the head when revoking, or a reference dropped twice |
| CapDerivationRuns.ListsAreExact | hyp/core/cspace_twolevel/src/cspace_twolevel.c:592-775 | an object's list holds exactly its valid capabilities, each once, and a cspace's revoked list exactly its revoked ones |
| CapDerivationRuns.MasterLeads | hyp/core/cspace_twolevel/src/cspace_twolevel.c:815-818 | the master, while it exists, is at the head of the list, is unique, and no valid capability has a right it lacks |
| CapDerivationRuns.RightsStayWithinMaster | hyp/core/cspace_twolevel/src/cspace_twolevel.c:673-694 | rights never exceed what the object's master was created with, even after the master is gone |
| CapDerivationRuns.CopyNarrows | hyp/core/cspace_twolevel/src/cspace_twolevel.c:642-714 | a copy has the parent's rights cut by the mask, at least one, is no master, and is linked right behind a parent that is valid then |
| CapDerivationRuns.RevocationMoves | hyp/core/cspace_twolevel/src/cspace_twolevel.c:822-850 | each round takes the capability right behind the master out of the object's list to the head of its own cspace's revoked list; it leads to no object any more, keeps type, rights and kind, and nothing else changes |
| CapDerivationRuns.OnlyMasterSurvives | hyp/core/cspace_twolevel/src/cspace_twolevel.c:778-857 | when a revocation ends the master is the only valid capability to the object |
| CapDerivationRuns.ReferenceDroppedOnce | hyp/core/cspace_twolevel/src/cspace_twolevel.c:736-769 | the creation reference is dropped, or about to be, exactly once and exactly when the last valid capability has gone |
| CapDerivationRuns.NoSlotLeaks | hyp/core/cspace_twolevel/src/cspace_twolevel.c:642-775 | in every run a slot is held if and only if it has a valid or revoked capability, or an agent is about to fill it with a copy or to free it |
| CapDerivationRuns.NoResurrection | hyp/core/cspace_twolevel/src/cspace_twolevel.c:642-775 | an object without capabilities never gets one again |
| CapDerivationSafety.StepKeepsInv | hyp/core/cspace_twolevel/src/cspace_twolevel.c:592-857 | every step, with data loaded before the lock and re-checked under it, keeps lists, slots, private slots and locks consistent |
| CapDerivationHandlers.CapSystem.Lookup | hyp/core/cspace_twolevel/src/cspace_twolevel.c:446-490 | takes a reference if and only if the capability is valid, of the type, has the rights and leads to an active object when asked to; the object's list then holds it, its creation reference is still there; each error has its exact condition, in the order of the source |
| CapDerivationHandlers.CapSystem.Copy | hyp/core/cspace_twolevel/src/cspace_twolevel.c:642-714 | puts a copy with the object and type of the parent, its rights cut by the mask and no master right behind the parent, if and only if the parent is valid and the mask leaves a right; each error has its exact condition and changes nothing |
| CapDerivationHandlers.CapSystem.LinkCopy | hyp/core/cspace_twolevel/src/cspace_twolevel.c:684-702 | under the cap-list lock the copy gets object and type of the parent, the masked rights and no master mark, and is put right behind the parent; nothing else changes |
| CapDerivationHandlers.CapSystem.Delete | hyp/core/cspace_twolevel/src/cspace_twolevel.c:717-775 | frees the slot of a valid or revoked capability, takes it out of the one list it is in, where the others keep their order, and drops the creation reference exactly with the last valid one |
| CapDerivationHandlers.CapSystem.Unlink | hyp/core/cspace_twolevel/src/cspace_twolevel.c:732-762 | clears the data and unlinks from the list the capability is in |
| CapDerivationHandlers.CapSystem.Revoke | hyp/core/cspace_twolevel/src/cspace_twolevel.c:778-857 | revokes every capability but the master, in place and into its own cspace's list in front, if and only if called on a valid master; revoked ones lead nowhere and keep type and rights, each error has its exact condition |
| CapDerivationHandlers.CapSystem.RevokeChildren | hyp/core/cspace_twolevel/src/cspace_twolevel.c:822-850 | the loop over the object's list with its lock held |
| IntrusiveList.List.constructor | hyp/core/util/src/list.c:13-21 | an empty ring |
| IntrusiveList.List.IsEmpty | hyp/core/util/src/list.c:24-29 | tells whether the sequence is empty |
| IntrusiveList.List.GetHead | hyp/core/util/src/list.c:32-39 | the first node, or none |
| IntrusiveList.List.Link | hyp/core/util/src/list.c:118-127 | the four stores put a node between two neighbours of the ring |
| IntrusiveList.List.InsertAtHead | hyp/core/util/src/list.c:42-62 | prepends to the sequence |
| IntrusiveList.List.InsertAtTail | hyp/core/util/src/list.c:65-91 | appends to the sequence |
| IntrusiveList.List.InsertInOrder | hyp/core/util/src/list.c:94-136 | inserts before the first node it precedes, and reports a new head exactly then |
| IntrusiveList.List.InsertAfterNode | hyp/core/util/src/list.c:139-160 | inserts right behind the given node |
| IntrusiveList.List.Unlink | hyp/core/util/src/list.c:174-188 | the neighbours point past the node, which keeps its next pointer |
| IntrusiveList.List.DeleteNode | hyp/core/util/src/list.c:163-192 | removes exactly that node, is a no-op on an unlinked one, keeps next and clears prev, and reports whether the head changed and is not gone |
| IntrusiveList.List.Walk | hyp/interfaces/util/include/list.h:59-62 | following next visits the sequence in order, once each |
| IntrusiveList.PlaceKeepsOrder | hyp/core/util/src/list.c:94-128 | ordered insertion keeps the order and puts a node behind all of its equals |
| IntrusiveList.InsertRemove | hyp/core/util/src/list.c:42-192 | deleting what was inserted restores the sequence and the other way round |
| ListReader.VisitsEveryPresentNodeOnce | hyp/core/util/src/list.c:163-192 | a lock-free reader that has reached the head has visited exactly once every node that stayed linked throughout, and nothing twice |
| ListReader.ReaderReachesHead | hyp/core/util/src/list.c:163-192 | from whatever node it stands on, deleted or not, a reader that goes on reaches the head, and what it has and will have visited holds every node linked throughout, no node twice |
| ListReader.PresentIsLinkedThroughout | hyp/interfaces/util/include/list.h:64-79 | the nodes a traversal answers for are exactly those linked in every state since it started |
| ListReader.TrailMeets | hyp/core/util/src/list.c:177-189 | following next pointers from a deleted node meets every linked node that was behind it |
| ListReader.TrailIncreases | hyp/core/util/src/list.c:65-79 | following next pointers never meets a node twice |
| ListReader.StepKeepsInv | hyp/core/util/src/list.c:65-91 | preparing, publishing, deleting and reading each keep the readers' way to the nodes ahead of them |
| Bitmap.FindFirstSet | hyp/core/util/src/bitmap.c:77-90 | the lowest set bit below the limit, and none if and only if there is none |
| Bitmap.IsEmpty | hyp/core/util/src/bitmap.c:109-131 | true if and only if no bit below the limit is set, with the last word masked |
| Bitmap.ForEachSet | hyp/interfaces/util/include/bitmap.h:97-115 | the loop meets exactly the set bits below the limit, each once, lowest first |
| Bitmap.Ctz | hyp/interfaces/util/include/bitmap.h:107-107 | the lowest set bit of a word |
| Bitmap.ClearedBits | hyp/interfaces/util/include/bitmap.h:108-108 | masking the scan register clears exactly the bits up to the one just met |
| Bitmap.AssignBits | hyp/core/util/src/bitmap.c:29-47 | setting or clearing a bit in its word changes that bit of the bitmap and no other |
| IpiProtocol.SkippedInterruptStillWakes | hyp/core/ipi/src/ipi.c:107-137 | no lost wake-up: when a sender skips the hardware interrupt the target is in the idle wait with its exit condition true, and stays so through preempting interrupts until it has collected its bits |
| IpiProtocol.NoReasonIsLost | hyp/core/ipi/src/ipi.c:107-343 | after it was posted a reason is pending, collected, or has been handled since, in every later state |
| IpiProtocol.HandledOnce | hyp/core/ipi/src/ipi.c:107-343 | in every run each post that sets a bit is handled at most once: the posts that set the bit are exactly those pending, collected or handled |
| IpiProtocol.ReasonStays | hyp/core/ipi/src/ipi.c:107-175 | a reason leaves the word only by a clearing step of its own CPU |
| IpiProtocol.WakeStays | hyp/core/ipi/src/ipi.c:288-372 | only collecting the bits ends the exit condition of a waiting CPU |
| IpiProtocol.UrgentPostIsNoticed | hyp/core/ipi/src/ipi.c:107-137 | from an urgent post until the target takes its bits, the target is in the idle wait with its exit condition true or has a hardware interrupt raised, in every run |
| IpiProtocol.DrainAssertionHolds | hyp/core/ipi/src/ipi.c:237-257 | the relaxed drain never meets the waiting flag, so its reason is always in range |
| IpiProtocol.StepKeepsInv | hyp/core/ipi/src/ipi.c:287-372 | the waiting flag is set only inside the idle wait, up to the first handler of an interrupt |
| IpiProtocol.DescendingIsExact | hyp/core/ipi/src/ipi.c:179-196 | the drain order lists each reason exactly once, highest first |
| IpiHandlers.Ipi.PostAndCheck | hyp/core/ipi/src/ipi.c:107-125 | sets exactly that bit and no flag; an interrupt is needed if and only if the target does not wait in idle, and otherwise the target is bound to wake |
| IpiHandlers.Ipi.One | hyp/core/ipi/src/ipi.c:128-137 | sets exactly that bit and raises the hardware line exactly if the target does not wait in idle, so that it is interrupted or bound to wake |
| IpiHandlers.Ipi.OthersRelaxed | hyp/core/ipi/src/ipi.c:67-83 | posts to every other CPU and to none else |
| IpiHandlers.Ipi.ClearRelaxed | hyp/core/ipi/src/ipi.c:156-166 | clears the own bit and tells whether it was set |
| IpiHandlers.Ipi.HandlePending | hyp/core/ipi/src/ipi.c:179-196 | handles every collected reason once, highest first, and drops bits that are no reasons |
| IpiHandlers.Ipi.HandleRelaxed | hyp/core/ipi/src/ipi.c:237-257 | drains the word highest first; the range assertion holds in every round |
| IpiHandlers.Ipi.HandlePlatformIpi | hyp/core/ipi/src/ipi.c:218-228 | takes all bits at once and handles each reason once, highest first; the interrupt is no longer raised |
| IpiHandlers.Ipi.HandlePreemptInterrupt | hyp/core/ipi/src/ipi.c:361-372 | clears the waiting flag and no reason, after which the idle wait is bound to end |
| IpiHandlers.Ipi.BeginWait | hyp/core/ipi/src/ipi.c:298-302 | sets the waiting flag and touches no reason; the wait is already bound to end if and only if a reason is pending |
| IpiHandlers.Ipi.FinishWait | hyp/core/ipi/src/ipi.c:323-335 | takes all bits at once, handles each reason once and tells whether the wait was preempted |
| PowerProtocol.NeverAllOff | hyp/core/power/src/power.c:137-165 | the online counter is the number of CPUs in cold boot or online that have not decremented it, and with the CPUs held in the wait loop it is never zero |
| PowerProtocol.LastCpuStays | hyp/core/power/src/power.c:388-404 | a CPU leaves the wait loop only while another one is counted |
| PowerProtocol.SomeoneRuns | hyp/core/power/src/power.c:364-383 | in every run in which no idle event is granted some CPU is up or booting cold at all times |
| PowerProtocol.LeavesOthersRunning | hyp/core/power/src/power.c:366-404 | in such a run a CPU enters the wait loop only while another one is running |
| PowerProtocol.VotesBalance | hyp/core/power/src/power.c:306-443 | in every run the vote count of a CPU is its first value plus the votes that were not turned down less those taken back, and the retry actions still to run are the timer expiries less the actions run |
| PowerProtocol.VotedCpuIsRetried | hyp/core/power/src/power.c:241-327 | a CPU with votes that is off has its retry timer queued or the action pending |
| PowerProtocol.AssertionsHold | hyp/core/power/src/power.c:146-175 | a step panics if and only if it is a power-on retry that the platform turns down for good; the assertions of warm init and of the idle handler always hold |
| PowerProtocol.StepKeepsInv | hyp/core/power/src/power.c:137-443 | every step keeps counter, running set, votes and retries consistent with where each CPU is |
| PowerHandlers.Power.constructor | hyp/core/power/src/power.c:91-134 | the loop leaves all CPUs off but the booting one, which has a vote and is counted |
| PowerHandlers.Power.TryOn | hyp/core/power/src/power.c:241-303 | starts the CPU and clears its retries, arms the retry, or leaves the CPU as it was, with the error and the answer of the platform deciding which; nothing else changes |
| PowerHandlers.Power.VoteCpuOn | hyp/core/power/src/power.c:306-327 | adds one vote, or fails with none added exactly when the first vote cannot start the CPU; further votes start nothing |
| PowerHandlers.Power.VoteCpuOff | hyp/core/power/src/power.c:330-349 | takes a vote; with the last one the retry timer is off and its count zero, and the power state of the CPU, the counter and all other CPUs are left alone |
| PowerHandlers.Power.HandleTimer | hyp/core/power/src/power.c:422-443 | counts and makes one retry of a CPU that still has votes and none of another one; fails if and only if the retry is turned down for good |
| PowerHandlers.Power.HandleWarmInit | hyp/core/power/src/power.c:137-179 | brings the CPU online, counting it unless it cold booted, with both assertions met |
| PowerHandlers.Power.BeginLeave | hyp/core/power/src/power.c:366-390 | refuses, without effect, if and only if no other CPU is running and the system may not idle; else the CPU is out of the running set and of the counter and waits |
| PowerHandlers.Power.FinishLeave | hyp/core/power/src/power.c:392-405 | marks the CPU offline and nothing else, while another one stays counted |
| LockSummary.LegalRunsAreSummarised | tools/events/ir.py:87-125 | from every start from which the handlers run legally no error is raised, the start meets requires and excludes, and the final held set is the start minus releases plus acquires |
| LockSummary.LegalIff | tools/events/ir.py:87-125 | kinds are consistent and the run is legal if and only if no error is raised, the start is accepted, and no lock was required after its net release or excluded after its net acquire |
| LockSummary.OverlookedExample | tools/events/ir.py:118-123 | a requirement after a net release is accepted although from no start the handlers run legally |
| LockSummary.SummaryIsFixedPoint | tools/events/ir.py:293-306 | the annotations written for an event are read back without an error, from nothing and in whatever order each dictionary is listed, and give the event's own summary if and only if no acquired lock is required and no released one excluded |
| LockSummary.KindsAgree | tools/events/ir.py:75-85 | a fold without error has met consistent lock kinds only |
| LockSummary.Collector.ApplyAnnotation | tools/events/ir.py:87-125 | edits the dictionaries as specified, failing exactly on a kind mismatch, a second acquire or a second release |
| LockSummary.Collector.ApplyAll | tools/events/ir.py:291-292 | applies the annotations of one handler in order |
| LockSummary.Collect | tools/events/ir.py:285-292 | the nested loops compute the fold over all handlers, errors included |
| LockSummary.Finalise | tools/events/ir.py:285-306 | whoever calls the event with locks from which its handlers run legally gets no error and holds afterwards what the summary says |
| BitFields.RangeCollector.InsertRange | tools/typed/ir.py:3209-3242 | takes a span if and only if all of its bits are free, and keeps free and used ranges a partition of [0, length) |
| BitFields.RangeCollector.AllocRange | tools/typed/ir.py:3244-3268 | takes the lowest free span of the width, and fails if and only if there is none |
| BitFields.RangeCollector.constructor | tools/typed/ir.py:3199-3207 | all bits below the length are free |
| BitFields.HolderExists | tools/typed/ir.py:3222-3223 | a span is free if and only if a single free range holds it, because free ranges are kept apart |
| BitFields.Placed | tools/typed/ir.py:3229-3238 | moving a span from a free range to the used ones keeps the partition and the separation |
| BitFieldMaps.SplitIsExact | tools/typed/ir.py:1293-1302 | splitting at unit boundaries covers exactly the declared bits, each once, in pieces within one unit |
| BitFieldMaps.SplitRange | tools/typed/ir.py:1295-1302 | the splitting loop |
| BitFieldMaps.Compact | tools/typed/ir.py:1207-1225 | compaction moves no logical bit, keeps every map within a unit, meets its assertion and leaves nothing to merge |
| BitFieldMaps.MergeKeeps | tools/typed/ir.py:1214-1221 | merging two maps that continue each other changes neither the logical to physical function nor the bits covered |
| BitFieldMaps.PhysicalIsInjective | tools/typed/ir.py:1304-1314 | when no physical bit is mapped twice, no two logical bits share one |
| BitFieldMaps.PlaceRanges | tools/typed/ir.py:1282-1316 | explicit placement succeeds if and only if the declared ranges are disjoint and free, takes exactly their bits, and puts each logical bit where the pieces, strung together from the last one on, have it; no bit twice |
| BitFieldOrder.OrderIff | tools/typed/ir.py:1282-1316 | a declared range keeps its bit order if and only if it crosses no unit boundary |
| BitFieldOrder.DeclaredIff | tools/typed/ir.py:1282-1316 | all logical bits are where the unsplit ranges have them if and only if no range crosses a unit boundary |
| BitFieldOrder.CrossingExample | tools/typed/ir.py:1293-1314 | four bits from bit 6 on in units of 8: logical bits 0 and 1 are put at 8 and 9, then 2 and 3 at 6 and 7 |
| BitFieldMaps.InsertPieces | tools/typed/ir.py:1304-1314 | the reversed insertion loop with its growing map |
| BitFieldMaps.PlaceAuto | tools/typed/ir.py:1655-1685 | automatic placement takes the lowest free span and maps every logical bit at the same distance |
| BitFieldMaps.AutoMaps | tools/typed/ir.py:1673-1685 | the split maps of an automatic member preserve order and stay within units |

## Left out

- Memory ordering, fences, cache and event instructions: steps are sequentially consistent.
- RcuGrace.GracePeriod: stated for runs in which no starting period overlooks an awaited section, because the guarantee fails in the others, as RcuOvertaking.OvertakenUpdateRunsEarly shows.
- RcuHandlers.Rcu.RequestGracePeriod: the relaxed interrupts a CPU requests from itself, to be notified of a target already met or to quiesce when the period waits for nobody, are not modelled, because they bear on progress only.
- RcuHandlers.Rcu.NotifyCpu: the relaxed interrupt that asks for the ready batch to be run is not modelled, because running it is a step that may come at any time.
- RcuHandlers.Rcu.Quiesce: ends at the successful exchange; the interrupts it then sends to CPUs that wait for the new period, and `rcu_expedite`, are not modelled, nor is progress.
- SchedulerHandlers.Scheduler.AddThread: the class works on the sequences of each run queue; RunQueues refines one CPU's queues to linked nodes and words.
- SchedulerHandlers.Scheduler.FinishAffinityChange: its two sections are one step, because nothing it announces can change between them, as SchedulerRuns.PendingChangeIsFixed shows.
- Scheduler steps are whole sections under a thread's scheduler lock; directed yields, virtual CPU hooks and reschedule interrupts are not modelled.
- Timer suspend and resume, and the low-power timer: platform dependent.
- TimerHandlers.TimerQueues.FindTarget: a failed scan is reported by its result; the panic is the outcome of the step in TimerProtocol, and TimerScan.PanicsIff says when it comes.
- TimerHandlers.TimerQueues.DequeueExpired: actions of fired timers do not touch timers here; TimerRuns.ExpiryIsExact covers actions that do.
- CapSlots.PanicsAreUnreachable: the bitmap of table indices is read in one step, the slot bitmap word by word; a claim that was overtaken is retried either way.
- CapLimit.GrowersPassLimit: needs a free table index for each growing allocation that has none yet, because one that finds no index fails and is not counted.
- CapSlotsHandlers.CapSpace.AllocateSlot: one allocation at a time; interleavings are the runs of CapSlots.
- Tables released through RCU, cspace destruction, and object reference counts other than the creation reference.
- CapDerivationHandlers.CapSystem.Lookup: nobody deletes the capability between the check of its data and the reference; object states and other references are given.
- CapDerivationHandlers.CapSystem.Copy: the slot is given; its allocation is the subject of CapSlots.
- CapDerivationHandlers.CapSystem.Delete: no revocation is in progress; interleavings are the runs of CapDerivationRuns.
- CapDerivationHandlers.CapSystem.Revoke: no other revocation is in progress; interleavings are the runs of CapDerivationRuns.
- CapSlotsHandlers.CapSpace.FreeSlot: one release at a time; interleavings are the runs of CapSlots.
- IpiHandlers.Ipi.HandleRelaxed: nobody posts during the drain, so that it ends; IpiProtocol interleaves posts with each access.
- IntrusiveList.List.DeleteNode: the node is in this list or in none; unlinking through another list's head is excluded by the callers, as TimerRuns.OnlyScansPanic shows for timers.
- Lock-free readers of lists that are also inserted into other than at the tail.
- Inserting and extracting bit ranges, find-first-clear, and the atomic variants of bitmaps.
- IpiProtocol.SkippedInterruptStillWakes: the fast-wakeup configuration; that a CPU whose exit condition is true resumes is left to the event instruction.
- CPU and system suspend, hypervisor handover, and the configuration without CPU power-off.
- PowerProtocol.NeverAllOff: CPUs in the wait loop may wait for ever if no vote ever brings another CPU up.
- Sorting of subscribers by priority and the other checks of event finalisation.
- BitFields.RangeCollector.InsertRange: the mode in which the length grows with automatic members is not modelled.
- BitFieldMaps.PlaceRanges: members that are ignored take no bits and are not placed here.
- Partition allocator, interrupts, virtual devices, page tables, memory database, tracing, hypercall wrappers, templates and build scripts.
