# Verified models of the operating-systems course work

A Dafny model of the hard parts of this repository, with proofs for all inputs,
all runs and all interleavings.

| file | models |
|---|---|
| `Affinity.dfy`, `AffinityRequests.dfy` | changing CPU affinity against migrate-disable: any number of callers, one shared pending instance, its stopper and its completion |
| `Wakeup.dfy`, `WakeupOutcomes.dfy`, `WakeupProgress.dfy` | `__schedule`, `try_to_wake_up`, the wakelist and queued-task migration, with the blocked-task counters |
| `Uclamp.dfy`, `UclampStale.dfy` | bucketed utilization clamps of the run queues |
| `TreeWalk.dfy`, `Quota.dfy`, `QuotaRatio.dfy`, `ClampTree.dfy` | the group-tree walk, CFS quota feasibility, propagation of effective clamps |
| `WakeQ.dfy` | the intrusive wake queue with reference counts |
| `SchedInfo.dfy`, `TaskTime.dfy` | run, wait and `cpu_burst` time accounting |
| `Paging.dfy`, `Opt.dfy`, `Clock.dfy`, `Lru.dfy`, `LruAnomalies.dfy`, `Replacement.dfy` | page replacement: OPT, FIFO, LRU, Second-Chance |
| `Life.dfy` | Game of Life, sequential and threaded |
| `Intersection.dfy` | the four-thread intersection simulator |

Concurrent parts are state machines: a region under locks is one event, `Enabled`
says when it may happen, `Apply` what it does, and theorems speak of every sequence
of possible events from an initial state. Code that works in place on arrays or
fields is written as methods on arrays or classes, proved against a function of the
old contents; the laws are lemmas about those functions. Clocks, random numbers,
CPU picks and scheduling-class decisions are parameters of events or methods.

`dafny verify dfyconfig.toml` checks the project.

## Results that are not what one might expect

- LRU keeps its stack in recency order only under a condition on the references
  before the frames fill; `Lru.StackInOrderIff` gives it exactly.
- Where LRU's stack is upset it can count a fault and load nothing, or evict the page
  just used. It can then report fewer faults than OPT (`LruAnomalies.LruCanBeatOpt`,
  `Replacement.BeatsOpt`), and one more frame can cost a fault
  (`LruAnomalies.MoreFramesCanHurt`). `Lru.LruScheduleIff` says exactly when its table is
  a schedule at all, `Lru.InclusionIff` exactly when a larger frame set holds the pages
  of the smaller one.
- An affinity change can complete although the task runs outside its new mask: the
  chase branch of the stopper tests `cpus_ptr`. `Affinity.ReturnsUnmet` is such a run,
  and in `Affinity.WarnCanFire` `WARN_ON_ONCE(!pending)` fires. That branch is the only
  way: `Affinity.HomeKeptIff` step by step, `Affinity.NeverAstray` over whole runs.
- Clocks that disagree can charge a task more time than has passed
  (`SchedInfo.AgeCanBeExceeded`); `SchedInfo.WithinAge` and
  `SchedInfo.LateEnqueueOverruns` give the exact condition.
- A task preempted after it has set a sleeping state, but before it sleeps, is not
  charged for its wait (`TaskTime.UnstampedWaitIsLost`); `TaskTime.RunCharges` is the
  exact law for all other runs.
- `uclamp_update_active` can leave a queue flagged idle with a task active;
  `Uclamp.UpdateKeepsValuesIff` says exactly when, `Uclamp.BoundCanBeLost` that it
  happens and what follows, `UclampStale.StepCappedIff` which enqueue then loses the bound.
- `nr_iowait` is not the plain count of dequeued tasks in I/O wait while a migrating
  wakeup is under way (`Wakeup.PlainCountCanBeWrong`); `Wakeup.PlainIowaitCount` says
  exactly when it is.
- The reference string is declared as an `int` array but passed and laid out as
  characters; the model takes the digits at even character positions.

## Model

| member | source | states |
|---|---|---|
| `Affinity.SetAffinityKeepsInv` | 과제/OS과제/과제4/core.c:2326-2393 | a call of `__set_cpus_allowed_ptr` with any mask, on any state of the target and of the other callers, keeps the protocol invariant, refusals included |
| `Affinity.AffineMoveKeepsInv` | 과제/OS과제/과제4/core.c:2186-2315 | `affine_move_task` re-establishes that an installed instance without stop work belongs to a pinned, migration-disabled task, for setters and for `SCA_MIGRATE_ENABLE` |
| `Affinity.EnableBeginKeepsInv` | 과제/OS과제/과제4/core.c:1758-1783 | the outermost `migrate_enable` keeps the invariant while it takes over an instance left to it |
| `Affinity.RunStopKeepsInv` | 과제/OS과제/과제4/core.c:1904-2005 | every path of `migration_cpu_stop` (in place, already moved, chase, migration-disabled) keeps the invariant |
| `Affinity.OnlyStop` | 과제/OS과제/과제4/core.c:1938-2002 | a stop work found anywhere is the only one, and its instance is the installed one with `stop_pending` set |
| `Affinity.StepKeepsInv` | 과제/OS과제/과제4/core.c:1741-1783 | every event of every interleaving keeps the invariant |
| `Affinity.NoStrandedWaiter` | 과제/OS과제/과제4/core.c:2206-2299 | in every run, who waits for an uncompleted instance has exactly one stopper outstanding for it, or one completion about to be signalled, or the instance is installed on a pinned task inside a migrate-disable region |
| `Affinity.PendingLifetime` | 과제/OS과제/과제4/core.c:2206-2312 | in every run `stop_pending` holds exactly while one stop work is outstanding, an instance is uninstalled before it is completed and completed at most once, and `refs` is the number of callers not past their wait |
| `Affinity.NoUseAfterReturn` | 과제/OS과제/과제4/core.c:2297-2312 | no event touches an instance whose installer has returned, and the final `WARN_ON_ONCE` cannot fire |
| `Affinity.UntouchedIsUnchanged` | 과제/OS과제/과제4/core.c:2297-2312 | an event leaves every instance it does not touch as it was |
| `Affinity.UntouchedIsIrrelevant` | 과제/OS과제/과제4/core.c:2297-2312 | overwriting an instance an event does not touch changes neither whether the event may happen nor what it does to the rest |
| `Affinity.EveryWaiterCanBeReleased` | 과제/OS과제/과제4/core.c:1904-2005 | from every reachable state some continuation completes the instance a caller waits for |
| `Affinity.HomeKeptIff` | 과제/OS과제/과제4/core.c:1904-2005 | with no affinity change pending the task is inside its mask, or asleep outside migrate-disable: every event keeps that if and only if it is not the chase branch of the stopper finding the task pinned outside its mask |
| `Affinity.NeverAstray` | 과제/OS과제/과제4/core.c:2241-2259 | in every run from an allowed CPU without that branch, a task that is not blocked and has no affinity change pending is inside its mask, and `WARN_ON_ONCE(!pending)` never fires |
| `Affinity.ReleaseMeetsRequestIff` | 과제/OS과제/과제4/core.c:1973-1983 | in every state, an event that uninstalls the pending instance leaves the task inside its mask, or asleep outside migrate-disable, if and only if it is not that branch |
| `Affinity.WarnArisesIff` | 과제/OS과제/과제4/core.c:2241-2259 | the state in which the next outermost `migrate_enable` finds no pending instance arises from such a state if and only if by that branch |
| `Affinity.WarnCanFire` | 과제/OS과제/과제4/core.c:2256-2259 | a run from an initial state after which `migrate_enable` hits `WARN_ON_ONCE(!pending)` |
| `Affinity.ReturnsUnmet` | 과제/OS과제/과제4/core.c:1973-1983 | a run after which an affinity call has returned while the task runs outside its mask, migration enabled and nothing outstanding |
| `AffinityRequests.RefusedIsIgnored` | 과제/OS과제/과제4/core.c:2357-2377 | a call with a forbidden or empty mask, or by a migration-disabled task that would lock itself out, changes nothing of the task, the pending instance or its stop work |
| `AffinityRequests.AcceptedTakesEffect` | 과제/OS과제/과제4/core.c:2362-2388 | any other call stores the new mask; it returns at once if the mask is the same or the task is on a CPU of it, and otherwise waits for the instance already installed, or its own |
| `AffinityRequests.RequestMovesQueued` | 과제/OS과제/과제4/core.c:2276-2289 | such a call moves the task if and only if it is queued, outside migrate-disable and outside the new mask, and then where it is told |
| `AffinityRequests.MaskIsLastAccepted` | 과제/OS과제/과제4/core.c:2362-2388 | in every run the mask is that of the last call that was not refused |
| `AffinityRequests.DepthIsNesting` | 과제/OS과제/과제4/core.c:1741-1783 | in every run `migration_disabled` is the number of regions entered and not left |
| `AffinityRequests.RegionStaysPut` | 과제/OS과제/과제4/core.c:1741-1783 | in every run the task stays on its CPU while migration is disabled, whatever setters, stoppers and wakeups do |
| `AffinityRequests.StopperMoves` | 과제/OS과제/과제4/core.c:1934-1962 | a stopper that finds the task on its own CPU outside the mask, queued and not migration-disabled, moves it and completes the installed instance |
| `AffinityRequests.EveryCallCanReturn` | 과제/OS과제/과제4/core.c:2297-2312 | from every reachable state every call, whether it waits for completion or for the references to its instance, can return |
| `Wakeup.StepKeepsInv` | 과제/OS과제/과제4/core.c:5009-5076 | every step of `__schedule`, wakeups and queued migration keeps the placement invariant |
| `Wakeup.SinglePlacement` | 과제/OS과제/과제4/core.c:1840-1857 | in every run a task is on at most one run queue or wakelist, at most once, is current on at most one CPU, and has `on_cpu` set only on `task_cpu(p)` |
| `Wakeup.PendingWakeupsClean` | 과제/OS과제/과제4/core.c:3057-3065 | in every run neither `WARN_ON_ONCE` of `sched_ttwu_pending` fires |
| `Wakeup.StepKeepsWake` | 과제/OS과제/과제4/core.c:2993-3034 | a task that found CONDITION false, means to sleep and is owed a wakeup always has a waker under way that will still look at it |
| `Wakeup.NoLostWakeup` | 과제/OS과제/과제4/core.c:3345-3466 | for every run with a wakeup that sets CONDITION and calls `try_to_wake_up`: once that one call has finished, the task is not dequeued and asleep until it consumes CONDITION, whatever other wakers do or leave undone |
| `Wakeup.SleeperHasWaker` | 과제/OS과제/과제4/core.c:2993-3034 | in every run a task dequeued and asleep although its CONDITION is set has a waker under way |
| `Wakeup.StepKeepsCount` | 과제/OS과제/과제4/core.c:5014-5038 | every step keeps both blocked-task counters right |
| `Wakeup.BlockedCounters` | 과제/OS과제/과제4/core.c:2976-2989 | in every run each CPU's `nr_iowait` counts its dequeued tasks in I/O wait not yet settled by a migrating wakeup, and `nr_uninterruptible` summed over CPUs counts the blocked tasks contributing to load |
| `WakeupOutcomes.ContributorsByState` | 과제/OS과제/과제4/core.c:5014-5020 | in every run only uninterruptible sleepers contribute to load, and all of them do if nobody was frozen when going to sleep |
| `WakeupOutcomes.UninterruptibleCount` | 과제/OS과제/과제4/core.c:2976-2978 | in every run in which nobody was frozen, `nr_uninterruptible` summed over the CPUs is the number of tasks asleep uninterruptibly or being woken from that |
| `WakeupOutcomes.TotalStep` | 과제/OS과제/과제4/core.c:5014-5021 | each step raises that sum by one exactly if it dequeues an unfrozen uninterruptible sleeper, and lowers it by one exactly if it enqueues a contributor |
| `Wakeup.PlainIowaitCount` | 과제/OS과제/과제4/core.c:3450-3459 | the count without that exception is right if and only if no migrating wakeup of a task in I/O wait is under way to the CPU |
| `Wakeup.PlainCountCanBeWrong` | 과제/OS과제/과제4/core.c:3450-3459 | a run from an initial state after which the plain count differs from `nr_iowait` |
| `WakeupOutcomes.DequeuedIff` | 과제/OS과제/과제4/core.c:5009-5043 | the task being descheduled leaves its run queue exactly if it is not preempted, not runnable, and not interruptible with a signal pending; with the signal it is made runnable |
| `WakeupOutcomes.SwitchTakesPlace` | 과제/OS과제/과제4/core.c:5045-5078 | after pick and switch the chosen task is current with `on_cpu` set, the previous one is off its CPU, and the run-queue lock is free |
| `WakeupOutcomes.OnlyNamedStatesWake` | 과제/OS과제/과제4/core.c:3345-3348 | in every continuation in which no call names its state, a sleeping task sleeps on |
| `WakeupOutcomes.WakeupEnqueues` | 과제/OS과제/과제4/core.c:3444-3466 | a marked task that is off its CPU ends runnable on the run queue of the CPU selected |
| `WakeupOutcomes.WakelistEnqueues` | 과제/OS과제/과제4/core.c:3037-3084 | the same through the wakelist of that CPU and its interrupt |
| `WakeupOutcomes.MoveArrives` | 과제/OS과제/과제4/core.c:1840-1857 | `move_queued_task` leaves the task on the run queue it is moved to and on no other, in the state it had |
| `WakeupOutcomes.LoopTests` | 과제/OS과제/과제4/core.c:3345-3364 | `set_current_state` and the test of CONDITION end the loop with the task runnable exactly if CONDITION is true |
| `WakeupProgress.EveryCallCanFinish` | 과제/OS과제/과제4/core.c:3311-3470 | from every reachable state every wakeup and every migration can finish, whoever holds the locks it needs |
| `Uclamp.BucketIdMonotone` | 과제/OS과제/과제4/core.c:929-932 | a larger clamp never falls into a lower bucket |
| `Uclamp.DeltaIsClosest` | 과제/OS과제/과제4/core.c:924-927 | a bucket is as wide as the closest whole number to an n-th of the scale |
| `Uclamp.BucketRange` | 과제/OS과제/과제4/core.c:929-932 | bucket b holds the values from b widths up to the next, the last bucket all the rest |
| `Uclamp.UclampRq.constructor` | 과제/OS과제/과제4/core.c:1529-1541 | the boot state: empty buckets and the neutral value |
| `Uclamp.UclampRq.IncId` | 과제/OS과제/과제4/core.c:1123-1150 | the in-place update is `Inc`, idle reset, bucket count and bucket maximum included |
| `Uclamp.UclampRq.DecId` | 과제/OS과제/과제4/core.c:1161-1225 | the in-place update and the idle flag are `Dec` |
| `Uclamp.UclampRq.MaxValue` | 과제/OS과제/과제4/core.c:976-995 | the downward scan finds the highest bucket in use, or the idle value |
| `Uclamp.IncBounded` | 과제/OS과제/과제4/core.c:1123-1150 | adding a task keeps every bucket maximum in its own bucket, above each clamp of the bucket and below the queue value |
| `Uclamp.DecBounded` | 과제/OS과제/과제4/core.c:1161-1225 | the same after removing a task, although the code recomputes only when the bucket maximum reached the queue value; the idle flag is raised only for an empty queue |
| `Uclamp.DecExact` | 과제/OS과제/과제4/core.c:1196-1224 | removing a task leaves the `UCLAMP_MIN` value that of the topmost bucket in use |
| `Uclamp.LastLeaves` | 과제/OS과제/과제4/core.c:949-963 | when the last task leaves and its clamp was the value, the maximum keeps it and the queue is flagged idle, while the minimum falls to 0 |
| `Uclamp.ActiveSince` | 과제/OS과제/과제4/core.c:1227-1269 | a task's clamps are active exactly from an enqueue with clamps in use and supported by its class to its dequeue |
| `Uclamp.StepKeepsCount` | 과제/OS과제/과제4/core.c:1271-1299 | every event, `uclamp_update_active` included, keeps each bucket's count |
| `Uclamp.BucketAccounting` | 과제/OS과제/과제4/core.c:1123-1299 | in every run each bucket's `tasks` is the number of active tasks whose clamp falls into it |
| `Uclamp.ClampAggregation` | 과제/OS과제/과제4/core.c:1227-1269 | over every run whose updates are harmless, the queue value bounds every active clamp; for `UCLAMP_MIN` it is the topmost bucket's value, in the same bucket as the true maximum, and 0 if none is active |
| `Uclamp.NoUpdatesHarmless` | 과제/OS과제/과제4/core.c:1227-1269 | runs of enqueues, dequeues, forks and late enabling are among those runs |
| `Uclamp.UpdateKeepsValuesIff` | 과제/OS과제/과제4/core.c:1271-1299 | `uclamp_update_active` keeps the values right if and only if the task is not the only active one with its clamp the queue's value |
| `Uclamp.StaleFlagLosesBound` | 과제/OS과제/과제4/core.c:966-974 | where it is, the stale `UCLAMP_FLAG_IDLE` lets the next enqueue lower the queue value below the clamp of an active task |
| `Uclamp.BoundCanBeLost` | 과제/OS과제/과제4/core.c:1271-1299 | from every boot state, four steps (enable, enqueue, update, enqueue) lead to a queue value below the clamp of an active task |
| `UclampStale.StepCappedIff` | 과제/OS과제/과제4/core.c:1123-1299 | over all events, harmful updates included, the bound of a queue's two values on its active clamps is kept if and only if the event is not an enqueue on a queue flagged idle with a clamp below that of the active task |
| `UclampStale.LossyLosesBound` | 과제/OS과제/과제4/core.c:966-974 | such an enqueue loses the bound at once, on the minimum or the maximum side |
| `UclampStale.BoundHolds` | 과제/OS과제/과제4/core.c:1227-1299 | over every run without such an enqueue both values of a queue bound all of its active clamps |
| `TreeWalk.WalkFrom` | 과제/OS과제/과제4/core.c:801-830 | the goto-driven walk ends and, for any visitors and data, has the result and effect of recursive pre/post-order up to the first non-zero result |
| `Quota.PassesIffFeasibleBelow` | 과제/OS과제/과제4/core.c:8783-8814 | the recursive parent-by-parent test is equivalent to comparing each limited group with its nearest limited ancestor |
| `Quota.SchedulableIffFeasible` | 과제/OS과제/과제4/core.c:8816-8835 | the walk succeeds if and only if the tree is feasible, whatever `hierarchical_quota` held before |
| `Quota.SchedulableStores` | 과제/OS과제/과제4/core.c:8783-8814 | a successful walk leaves in each group's `hierarchical_quota` its own ratio or that of its nearest limited ancestor, and no limit in the root, whatever was there before |
| `Quota.CfsBandwidth.Set` | 과제/OS과제/과제4/core.c:8597-8649 | the method with range checks, iterative walk and update is `Attempt` |
| `Quota.AcceptedIffFeasible` | 과제/OS과제/과제4/core.c:8597-8649 | a request is accepted if and only if it is in range and the tree with it is feasible; a refused one changes no quota |
| `Quota.AlwaysFeasible` | 과제/OS과제/과제4/core.c:8632-8647 | feasibility survives every sequence of accepted and refused requests |
| `QuotaRatio.RatioIsQuotient` | 과제/OS과제/과제4/core.c:3803-3812 | the ratio compared is quota divided by period in units of 2^-20, rounded down, and none exactly for an unlimited quota |
| `QuotaRatio.AffordableIsAccepted` | 과제/OS과제/과제4/core.c:8783-8814 | a request in range with which every limited group uses at most the share of its nearest limited ancestor is accepted |
| `QuotaRatio.AcceptedWithinOneUnit` | 과제/OS과제/과제4/core.c:8783-8814 | after an accepted request no limited group exceeds that share by a unit of the ratio |
| `ClampTree.EffectiveIsGreatest` | 과제/OS과제/과제4/core.c:8410-8422 | effective clamps are the largest pair within the request and the parent's effective clamps whose MIN does not exceed its MAX |
| `ClampTree.UpdateEff` | 과제/OS과제/과제4/core.c:8397-8440 | the iterative pre-order pass that skips the subtree of an unchanged group is the recursive pass |
| `ClampTree.UpdateSettles` | 과제/OS과제/과제4/core.c:8407-8432 | the skipping pass settles a subtree that was settled against its old clamps and touches nothing outside it |
| `ClampTree.IncrementalIsFull` | 과제/OS과제/과제4/core.c:8397-8440 | after one group's request changes, anywhere in the tree, the pass from that group leaves every group of the whole tree with its recursively defined effective clamps |
| `ClampTree.HistoryIrrelevant` | 과제/OS과제/과제4/core.c:8397-8440 | after any sequence of requests the incremental clamps are those of any full computation from the final requests |
| `ClampTree.SettledMonotone` | 과제/OS과제/과제4/core.c:8410-8422 | effective clamps shrink down the tree and MIN never exceeds MAX |
| `WakeQ.StepKeepsInv` | 과제/OS과제/과제4/core.c:505-590 | every step of concurrent adds and walks keeps chains well formed, tasks apart and references balanced; clearing a node, waking its task and dropping the reference are separate steps |
| `WakeQ.WakesEachOnceInOrder` | 과제/OS과제/과제4/core.c:570-590 | in every run a task is on at most one queue, once; a queue wakes in insertion order, and a finished `wake_up_q` has woken exactly what was added, re-adds during the walk included |
| `WakeQ.ReferencesBalance` | 과제/OS과제/과제4/core.c:541-590 | in every run a task's count is that of its other holders, plus one while a queue owns one, plus one per context that has unlinked it or failed to add it and not yet dropped its reference |
| `WakeQ.WokenIsAlive` | 과제/OS과제/과제4/core.c:577-587 | in every run a task between the clearing of its node and `put_task_struct` has a reference left |
| `WakeQ.ReAddDuringWalk` | 과제/OS과제/과제4/core.c:576-580 | a task unlinked and not yet woken can be added again by another context, and then has two references |
| `WakeQ.DueIsWoken` | 과제/OS과제/과제4/core.c:570-590 | in every continuation, a head that ends its walk has woken whatever was on its list, being linked or unlinked but not yet woken |
| `WakeQ.FailedAddIsServed` | 과제/OS과제/과제4/core.c:507-518 | in every run, a task that cannot be added is on some head's list or being linked there, and in every continuation that head wakes it before it is done |
| `WakeQ.FreeTaskIsTaken` | 과제/OS과제/과제4/core.c:518-526 | a task on no queue is taken by the head that adds it, by `wake_q_add` and by `wake_q_add_safe` |
| `WakeQ.NoAddIsLost` | 과제/OS과제/과제4/core.c:541-590 | in every run, whatever happens after such an add, that head wakes the task before it is done |
| `WakeQ.WalkCanFinish` | 과제/OS과제/과제4/core.c:570-590 | from every state that keeps the invariant every `wake_up_q` can run to its end |
| `SchedInfo.RunQueue.SchedInfoQueued` | 과제/OS과제/과제4/stats.h:215-221 | the in-place update is `Queued` |
| `SchedInfo.RunQueue.SchedInfoDequeued` | 과제/OS과제/과제4/stats.h:177-189 | the in-place update of task and queue is `Dequeued` |
| `SchedInfo.RunQueue.SchedInfoArrive` | 과제/OS과제/과제4/stats.h:196-208 | the in-place update of task and queue is `Arrive` |
| `SchedInfo.RunQueue.SchedInfoDepart` | 과제/OS과제/과제4/stats.h:231-240 | the in-place update of task and queue, `cpu_burst` included, is `Depart` |
| `SchedInfo.RunQueue.SchedInfoSwitch` | 과제/OS과제/과제4/stats.h:247-260 | a switch is the departure of prev and then the arrival of next, each skipped for the idle task |
| `SchedInfo.StepConserves` | 과제/OS과제/과제4/stats.h:8-32 | every event keeps task sums equal to queue sums |
| `SchedInfo.TimeConservation` | 과제/OS과제/과제4/stats.h:231-260 | in every multi-CPU run the sum of `cpu_burst` is the sum of `rq_cpu_time`, the sums of `run_delay` agree, and busy time, idle time and current slice of a CPU add up to its clock advance |
| `SchedInfo.NoUnderflow` | 과제/OS과제/과제4/stats.h:177-240 | in every run no timestamp difference taken is negative |
| `SchedInfo.WithinAge` | 과제/OS과제/과제4/stats.h:177-240 | on any number of CPUs, over every run in which no task is enqueued on a CPU whose clock is behind its accounted time, `cpu_burst` + `run_delay` never exceeds the latest clock minus the time of fork |
| `SchedInfo.WithinAgeOnOneClock` | 과제/OS과제/과제4/core.c:3719-3720 | so on any number of CPUs sharing one clock |
| `SchedInfo.WithinAgeOnOneCpu` | 과제/OS과제/과제4/core.c:301-321 | and on a single CPU without condition |
| `SchedInfo.LateEnqueueOverruns` | 과제/OS과제/과제4/stats.h:215-221 | the condition is exact: after an enqueue behind the accounted time, three more events exceed the age |
| `SchedInfo.AgeCanBeExceeded` | 과제/OS과제/과제4/stats.h:177-240 | a run of two CPUs with disagreeing clocks that exceeds the age |
| `TaskTime.RunCharges` | 과제/OS과제/과제4/stats.h:177-260 | over every run from started clocks in which a departing task is TASK_RUNNING exactly if still queued, `cpu_burst` + `run_delay` with the slice or wait under way grow by exactly the clock advances of its CPU while it is queued or current there |
| `TaskTime.ForkedTaskIsCharged` | 과제/OS과제/과제4/stats.h:177-260 | so from its fork on a task is charged for that time, no more and no less |
| `TaskTime.PreemptedWaits` | 과제/OS과제/과제4/stats.h:231-240 | a preempted task is charged the advance of its CPU's clock until it is picked again |
| `TaskTime.UnstampedWaitIsLost` | 과제/OS과제/과제4/stats.h:238-239 | a task that departs still queued in another state is not charged for its wait |
| `TaskTime.ArrivalsAreCounted` | 과제/OS과제/과제4/stats.h:196-208 | `pcount` of task and queue counts the switches to them |
| `Paging.Find` | 과제/OS과제/과제5/20172688_최재성_과제5_소스코드.c:124-128 | true exactly if the page is in a frame |
| `Paging.FarthestIsOptimal` | 과제/OS과제/과제5/20172688_최재성_과제5_소스코드.c:64-122 | replacing the page with the farthest next use never faults more than any demand schedule with as many frames, early evictions allowed |
| `Opt.Distances` | 과제/OS과제/과제5/20172688_최재성_과제5_소스코드.c:69-77 | the table starts with each position's distance to the next reference of its page |
| `Opt.Age` | 과제/OS과제/과제5/20172688_최재성_과제5_소스코드.c:92-100 | the two ageing passes keep the table's meaning for step i |
| `Opt.AgedEntries` | 과제/OS과제/과제5/20172688_최재성_과제5_소스코드.c:92-100 | positive aged entries are exactly the last references of the other resident pages and hold the distance to their next use |
| `Opt.VictimIsFarthest` | 과제/OS과제/과제5/20172688_최재성_과제5_소스코드.c:50-54 | the largest entry belongs to a resident page whose next use is farthest |
| `Opt.Replace` | 과제/OS과제/과제5/20172688_최재성_과제5_소스코드.c:49-61 | the first largest entry's page is overwritten and its entry retired |
| `Opt.VectorUpdate` | 과제/OS과제/과제5/20172688_최재성_과제5_소스코드.c:46-62 | the frames change as farthest-next-use prescribes and the table stays right for the next step |
| `Opt.Opt` | 과제/OS과제/과제5/20172688_최재성_과제5_소스코드.c:64-122 | the printed table is a farthest-next-use schedule, the F marks and the count are its faults, and no schedule has fewer |
| `Clock.FifoServe` | 과제/OS과제/과제5/20172688_최재성_과제5_소스코드.c:130-133 | one reference, in place, is `FifoStep` |
| `Clock.RunFifo` | 과제/OS과제/과제5/20172688_최재성_과제5_소스코드.c:135-172 | rows, marks and count of the loop are those of the specified run |
| `Clock.FifoHoldsNewest` | 과제/OS과제/과제5/20172688_최재성_과제5_소스코드.c:130-133 | the frames hold the newest page_frame loads, load f in slot f modulo page_frame |
| `Clock.FifoSchedule` | 과제/OS과제/과제5/20172688_최재성_과제5_소스코드.c:135-172 | FIFO is a valid schedule and its count is its faults |
| `Clock.Sweep` | 과제/OS과제/과제5/20172688_최재성_과제5_소스코드.c:267-274 | the sweep stops at a clear bit within page_frame + 1 probes |
| `Clock.PageBitChange` | 과제/OS과제/과제5/20172688_최재성_과제5_소스코드.c:279-285 | exactly the bit of the frame holding the page is set |
| `Clock.QueuePageBitChange` | 과제/OS과제/과제5/20172688_최재성_과제5_소스코드.c:261-277 | loading into a free frame, or sweeping and replacing, in place |
| `Clock.RunSecondChance` | 과제/OS과제/과제5/20172688_최재성_과제5_소스코드.c:287-327 | rows, marks and count of the loop are those of the specified run |
| `Clock.RingRunOk` | 과제/OS과제/과제5/20172688_최재성_과제5_소스코드.c:287-327 | in every run the resident pages stay distinct and fill the frames in order |
| `Clock.RingRefinesList` | 과제/OS과제/과제5/20172688_최재성_과제5_소스코드.c:261-325 | in every run the array with the growing hand, read from the hand, evolves as: rotate while the head's bit is set, clearing it, then replace the head |
| `Clock.NoHitsNoDifference` | 과제/OS과제/과제5/20172688_최재성_과제5_소스코드.c:261-325 | without hits its frames are FIFO's |
| `Clock.SecondChanceSchedule` | 과제/OS과제/과제5/20172688_최재성_과제5_소스코드.c:287-327 | Second-Chance is a valid schedule and its count is its faults |
| `Lru.ChangePage` | 과제/OS과제/과제5/20172688_최재성_과제5_소스코드.c:174-188 | the in-place update of frames and stack is `PageChange` |
| `Lru.UpdateStack` | 과제/OS과제/과제5/20172688_최재성_과제5_소스코드.c:190-216 | the in-place update is `StackUpdate`, the branch before the frames fill included |
| `Lru.RunLru` | 과제/OS과제/과제5/20172688_최재성_과제5_소스코드.c:218-259 | rows, marks and count of the loop are those of the specified run |
| `Lru.StackInOrderIff` | 과제/OS과제/과제5/20172688_최재성_과제5_소스코드.c:190-216 | the stack lists the resident pages in recency order throughout a run if and only if no reference before the frames fill hits a resident page other than the least recently used one |
| `Lru.OrderIsLost` | 과제/OS과제/과제5/20172688_최재성_과제5_소스코드.c:191-195 | references 0 1 1 with three frames lose the order |
| `Lru.DistinctStart` | 과제/OS과제/과제5/20172688_최재성_과제5_소스코드.c:190-216 | distinct first page_frame references meet that condition |
| `Lru.VictimIsLeastRecent` | 과제/OS과제/과제5/20172688_최재성_과제5_소스코드.c:179-183 | in an ordered run the victim is the least recently used page, and only its frame changes |
| `Lru.InclusionIff` | 과제/OS과제/과제5/20172688_최재성_과제5_소스코드.c:174-216 | in every run, residents with k frames are residents with k + 1 throughout if and only if no reference misses the larger, full set and there evicts a page the smaller one keeps, or is lost while the smaller one loads it |
| `Lru.IncludedFaults` | 과제/OS과제/과제5/20172688_최재성_과제5_소스코드.c:218-259 | while inclusion lasts, the extra frame adds no fault |
| `Lru.Inclusion` | 과제/OS과제/과제5/20172688_최재성_과제5_소스코드.c:218-259 | after a harmless fill phase, in particular when the first references differ, residents with k frames are residents with k + 1, so one more frame never adds faults |
| `Lru.LruScheduleIff` | 과제/OS과제/과제5/20172688_최재성_과제5_소스코드.c:174-188 | the printed table is a demand schedule if and only if at every fault with full frames the stack's last entry is resident, so that the page is loaded; the count is the table's faults in any case |
| `Lru.LruSchedule` | 과제/OS과제/과제5/20172688_최재성_과제5_소스코드.c:218-259 | in particular in every run whose fill phase is harmless |
| `LruAnomalies.LruCanBeatOpt` | 과제/OS과제/과제5/20172688_최재성_과제5_소스코드.c:179-183 | references 4 2 2 0 3 3 1 4 3 0 with three frames: LRU reports 5 faults, every demand schedule has at least 6 |
| `LruAnomalies.MoreFramesCanHurt` | 과제/OS과제/과제5/20172688_최재성_과제5_소스코드.c:190-195 | references 0 1 1 2 1 3 1: LRU reports 4 faults with two frames and 5 with three |
| `Replacement.Simulate` | 과제/OS과제/과제5/20172688_최재성_과제5_소스코드.c:24-44 | OPT's count is the least of any demand schedule, so at most FIFO's and Second-Chance's, and at most LRU's where LRU loads every page it counts |
| `Replacement.BeatsOpt` | 과제/OS과제/과제5/20172688_최재성_과제5_소스코드.c:24-44 | the program reports 5 faults for LRU and at least 6 for OPT on one reference string |
| `Life.LivingCellCount` | 과제/리눅스시스템프로그래밍과제/리시프설계.c:350-417 | the nine cases of corners, edges and inner cells give the sum over the bounded neighbourhood |
| `Life.NextGenerationRow` | 과제/리눅스시스템프로그래밍과제/리시프설계.c:332-348 | row i becomes the next generation's row and no other cell changes |
| `Life.NextLivesIff` | 과제/리눅스시스템프로그래밍과제/리시프설계.c:335-346 | a cell is alive next exactly with four living neighbours, or with three to six if it lives |
| `Life.RowBuffer` | 과제/리눅스시스템프로그래밍과제/리시프설계.c:319-325 | the buffer is the encoded row |
| `Life.WriteGeneration` | 과제/리눅스시스템프로그래밍과제/리시프설계.c:92-118 | one sequential generation writes the encoded next generation |
| `Life.RunSequential` | 과제/리눅스시스템프로그래밍과제/리시프설계.c:80-118 | G generations write the encoded G-fold step |
| `Life.RoundTrip` | 과제/리눅스시스템프로그래밍과제/리시프설계.c:104-116 | reading back a written generation gives its cells |
| `Life.FileLayout` | 과제/리눅스시스템프로그래밍과제/리시프설계.c:104-111 | cell j of row i is in the file at twice its index, followed by a blank, or by a newline at the end of the row |
| `Life.RowsPartitioned` | 과제/리눅스시스템프로그래밍과제/리시프설계.c:259-260 | the ceil-division chunks with the cut-off at m give every row to exactly one thread and turn |
| `Life.HandleIsCeiling` | 과제/리눅스시스템프로그래밍과제/리시프설계.c:259-260 | the chunk length is the least that covers m rows |
| `Life.ThreadedGeneration` | 과제/리눅스시스템프로그래밍과제/리시프설계.c:311-330 | for any thread count, any interleaving of single cell computations, row encodings and writes on the shared matrix and file, and any former contents of that matrix, the joined threads leave the sequential file |
| `Life.RowsApart` | 과제/리눅스시스템프로그래밍과제/리시프설계.c:314-318 | two threads in their loops are at different rows, so their shares of the matrix are disjoint |
| `Life.OrdersAreBounded` | 과제/리눅스시스템프로그래밍과제/리시프설계.c:314-327 | no interleaving is longer than the threads' remaining steps |
| `Life.CompletionExists` | 과제/리눅스시스템프로그래밍과제/리시프설계.c:291-296 | every generation has an interleaving that takes all threads to their end |
| `Life.ThreadedIsIterate` | 과제/리눅스시스템프로그래밍과제/리시프설계.c:262-299 | for any interleaving of each generation the k-th threaded file encodes the k-fold step |
| `Life.ThreadedRunExists` | 과제/리눅스시스템프로그래밍과제/리시프설계.c:262-299 | threaded runs of any number of generations exist |
| `Life.CompareModes` | 과제/리눅스시스템프로그래밍과제/리시프설계.c:80-118 | sequential and threaded mode end with the same file |
| `Intersection.WaitingSet.Push` | 과제/OS과제/과제6/20172688_최재성_과제6_소스코드.c:105-110 | the car is appended |
| `Intersection.WaitingSet.GetItem` | 과제/OS과제/과제6/20172688_최재성_과제6_소스코드.c:112-122 | the picked car is returned and taken out in place, order kept; an empty set is left alone |
| `Intersection.WaitingSet.Find` | 과제/OS과제/과제6/20172688_최재성_과제6_소스코드.c:128-133 | true exactly if such a car waits |
| `Intersection.WaitingSet.RemoveItem` | 과제/OS과제/과제6/20172688_최재성_과제6_소스코드.c:135-144 | the first such car is taken out in place, order kept |
| `Intersection.Crossing.Round` | 과제/OS과제/과제6/20172688_최재성_과제6_소스코드.c:156-191 | one round of a thread on the shared variables is `Turn`, and no store leaves the array |
| `Intersection.TurnKeepsInv` | 과제/OS과제/과제6/20172688_최재성_과제6_소스코드.c:156-191 | every turn, for every random choice, keeps the conservation invariant and passes one car; it stops exactly at the last |
| `Intersection.OppositePairs` | 과제/OS과제/과제6/20172688_최재성_과제6_소스코드.c:172-174 | start points face each other in two pairs, 1 and 3, 2 and 4 |
| `Intersection.TokenIsHandedOver` | 과제/OS과제/과제6/20172688_최재성_과제6_소스코드.c:172-192 | the car opposite goes next after one tick whenever it waits, and otherwise after two a waiting car of the random choice |
| `Intersection.HolderPasses` | 과제/OS과제/과제6/20172688_최재성_과제6_소스코드.c:166-167 | each turn passes the holder's car and no other |
| `Intersection.JunkUnused` | 과제/OS과제/과제6/20172688_최재성_과제6_소스코드.c:112-122 | `getItem`'s uninitialised result never influences a turn |
| `Intersection.WaitingBound` | 과제/OS과제/과제6/20172688_최재성_과제6_소스코드.c:162-191 | the waiting set holds at most (input+1)/2 cars, between turns and inside them |
| `Intersection.CarsConserved` | 과제/OS과제/과제6/20172688_최재성_과제6_소스코드.c:146-196 | in every run, per start point, arrived = passed + waiting + the one in progress |
| `Intersection.RunsToCompletion` | 과제/OS과제/과제6/20172688_최재성_과제6_소스코드.c:146-196 | for every random choice the machine stops after exactly `input` turns with each Pk its count in `start_list`, nobody waiting, and tick between input+2 and 2*input+1 |
| `Intersection.Simulate` | 과제/OS과제/과제6/20172688_최재성_과제6_소스코드.c:22-25 | with the 15-slot array and at most 30 cars the whole program ends with those counts and that tick |

## Left out

- Weak memory ordering, interrupt masking, RCU, lockdep and tracing: regions under locks are atomic steps under sequential consistency.
- CPU hotplug and a failing `stop_one_cpu_nowait`: all CPUs are online and active.
- Scheduling classes: adding to, removing from and picking from a run queue are abstract.
- `push_cpu_stop` and the MDF_PUSH flag of `affine_move_task`; the stopper itself, for `dest_cpu` given by other callers than affinity changes.
- Affinity.NeverAstray: the stopper's flush of pending wakeups and its taking of the locks are one step, so a wakeup arriving between the two is not modelled; a task woken while it is still being switched away from may stay on a CPU outside `cpus_ptr` as long as an affinity change is pending.
- Affinity.EveryWaiterCanBeReleased: as in the other theorems on what can finish or return, a continuation exists; that the scheduler takes it (fairness) is not modelled, and a target that waits for its own affinity change may take further steps in the model.
- Affinity.NoStrandedWaiter: work left for after the unlock may be delayed arbitrarily and independently of its caller, which admits more interleavings than the code.
- Wakeup.BlockedCounters: `nr_iowait` excludes tasks a migrating wakeup has already settled, because the code decrements before the task is enqueued.
- Wakeup: signals and the freezer enter as parameters of a deschedule; exiting tasks, remote-wakeup heuristics and wakeup statistics are not modelled.
- Uclamp.ClampAggregation: for `UCLAMP_MAX` an upper bound only, because the boot value is the full scale with the idle flag clear.
- Uclamp: effective clamps (`uclamp_eff_get`, `uclamp_tg_restrict`) are parameters of the events; the number of buckets is any number from 1 to the scale.
- ClampTree: `uclamp_update_active_tasks` after a changed group is covered only as single updates in `Uclamp`.
- Quota: the cgroup2 branch; refilling, timers and throttling after an accepted change; `MAX_BW` and `BW_SHIFT` are taken as 2^44 - 1 and 20, their headers not being part of this model.
- SchedInfo: 64-bit wrap-around of times.
- Paging: the 62-character buffer and the parsing of the input file; the reference string has any length, and page_frame is at least 1; printing is reduced to the table rows, marks and counts.
- Life: process mode, argument and file parsing, G = 0; m and n are at least 2, since the neighbour cases read row 1 and column 1 without asking.
- Intersection: lost or spurious condition-variable signals, printing, and the argument `start_list[indx]` evaluated at indx == input; at least one car.
- Policy and priority system calls, nice, permission checks and the rest of core.c: branch-by-branch validation.
- top.c, ps.c, lscpu.c, myls.c, the small system-call programs and examples: input, output and layout code with standard sorts, which would only add easy members.
