# A verified model of the WRR scheduler patch

The repository patches the Linux 3.4 scheduler with a weighted round-robin class (`SCHED_WRR`) and carries
the real-time class and the scheduler core that the new class plugs into. This project models the parts of
that code whose correctness does not show from any single function, and proves what they keep over every run.

| file | what it covers |
|---|---|
| `RtQueue.dfy`, `RtQueueProofs.dfy`, `RtRuns.dfy`, `RtOrder.dfy`, `RtStable.dfy`, `RtCpuImpl.dfy` | the hierarchical real-time run queue: priority lists with their bitmap, group entities, taking stacks down and rebuilding them, throttled groups, the descent to the next task, and when it changes |
| `WrrQueue.dfy`, `WrrRuns.dfy`, `WrrList.dfy` | the WRR class: exact shares, freedom from starvation, and the intrusive circular list |
| `RtBorrow.dfy` | lending and reclaiming real-time runtime between CPUs |
| `RtThrottle.dfy`, `RtJoint.dfy` | charging, throttling and replenishing real-time runtime, and the same together with the run queue |
| `TgTree.dfy`, `Admission.dfy` | the walk over the task-group tree and the bandwidth admission built on it |
| `Arith.dfy`, `LoadAvg.dfy`, `CpuLoad.dfy` | fixed-point load averages and the per-CPU load samples, with error bounds |
| `LoadFold.dfy` | distributed accounting of active tasks |
| `Completion.dfy` | completions and the wait-queue walk |
| `Dispatch.dfy`, `DispatchWrr.dfy`, `DispatchImpl.dfy` | scheduling class and queue of a task across policy changes; picking the next task |
| `RqLocks.dfy` | the order in which run-queue locks are taken |
| `Kernel.dfy`, `Lists.dfy` | shared constants; duplicate-free lists and removal from them |

`dafny verify dfyconfig.toml` checks everything.

How to read it. A data structure or protocol is a value with functions for its operations and a `Step` datatype
for its runs; `IsRun(states, steps)` says that `states` is an execution, and the theorems about runs hold for
every such pair, of any length and for any number of tasks, CPUs or groups. Code that works by updating fields,
arrays or lists in place also appears as a class or method, whose `ensures` ties the new state to those functions.
Integers are unbounded unless a width is written out (`done` of a completion wraps at 2^32; the 32-bit limits of
the load average are a theorem). Real numbers occur only in error bounds; `Arith.Mul` is their product under a name.

Where the code and its documentation differ, the code is followed: report/report.md:91 says that setting a
scheduling parameter changes a WRR task's weight, but a request for the policy a task already has returns early
(patch/kernel/sched/core.c:4394-4400) and changes nothing (`Dispatch.WrrAgainIsNoop`).

Properties that do not hold of the code as written are stated with the exact condition under which they do:
`RtStable.StablePickIff` (with the run `PickMoves`), `RtRuns.EnableKeepsIff` (with `EnableBreaks`),
`RtBorrow.EnableConservesIff` and `ReclaimIff` (with `DoubleEnableLeaks` and `DoubleEnableCrashes`),
`LoadAvg.BulkFitsIff` (with `LongIdleDecays`), `Completion.SuccessesPlusDone` (with `WrappedRunLosesAll`),
`RtThrottle.UnlimitedIsUnbounded`, `RqLocks.TryingSafeIff`.

## Main results

- Real-time run queue: `RtRuns.RunsKeepInv`, `RtRuns.PickIsBest`, `RtOrder.EnqueueExact`, `DequeueExact` and `UnthrottleExact`, `RtStable.TasksDecide`, `RtStable.StablePickIff`, refined by the class `RtCpuImpl.RtCpu`.
- Real-time bandwidth: `RtBorrow.RunsConserve`, `RtBorrow.DisableOk`, `RtThrottle.FrugalNeverThrottled`, `RtJoint.ThrottlingBound`, `Admission.AcceptedIff`, `Admission.RunsAdmitted`, `Admission.UnrelatedShares`, `TgTree.WalkTgTreeFrom`.
- WRR class: `WrrRuns.RunExactShares`, `WrrRuns.RunShareBound`, `WrrRuns.NoStarvation`, refined by the class `WrrList.WrrRq` and by the whole run queue (`DispatchWrr.RunRefines`).
- Load: `LoadAvg.FixedPowerError`, `LoadAvg.BulkError`, `LoadFold.RunsConserve`, `LoadFold.NextWindowSettles`, `LoadFold.OpenWindowWaits`, `CpuLoad.DecayBound` and `DecayTight`, `CpuLoad.Converges`.
- Completions: `Completion.SuccessesPlusDone`, `Completion.ArriveMeaning`, `Completion.NoLostWakeup`, `Completion.ConsumesIffPositive`.
- Dispatch and locks: `Dispatch.RunsKeepOk`, `Dispatch.PickMeaning`, `Dispatch.SetPrioKeeps`, `RqLocks.NoWaitCycle`, `RqLocks.DeadlockFree`, `RqLocks.FinishedCalls`.

The other rows below are the members these rest on.

## Model

| member | source | states |
|---|---|---|
| `RtQueueProofs.DetachOk` | patch/kernel/sched/rt.c:1099-1111 | taking one entity out keeps bitmap, lists, best priority and counters of every run queue consistent, provided the entity of the enclosing group is itself not queued (the reason for top-down removal) |
| `RtQueueProofs.AttachOk` | patch/kernel/sched/rt.c:1071-1097 | the same for putting one entity in; an empty or effectively throttled group is refused |
| `RtQueueProofs.TakeDownOk` | patch/kernel/sched/rt.c:1117-1130 | after the stack is taken down none of its entities is queued, every other entity is where it was, and all run queues are consistent |
| `RtQueueProofs.BuildUpOk` | patch/kernel/sched/rt.c:1132-1137 | the bottom-up loop queues the entity and exactly those enclosing groups that have something to run and are not throttled |
| `RtQueueProofs.ReattachOk` | patch/kernel/sched/rt.c:1139-1149 | the same for the loop that puts back the groups that still have something to run |
| `RtQueueProofs.EnqueueKeeps` | patch/kernel/sched/rt.c:1132-1137 | enqueueing restores the whole invariant, even if the entity's own group was out of step with its parent, and moves no other task |
| `RtQueueProofs.DequeueKeeps` | patch/kernel/sched/rt.c:1139-1149 | dequeueing likewise: a task leaves, a group stays iff it may still run |
| `RtQueueProofs.SetThrottledOk` | patch/kernel/sched/rt.c:447-450 | a throttle flag is no part of the consistency of the lists; it only decides whether the group is linked into its parent |
| `RtRuns.RequeueKeeps` | patch/kernel/sched/rt.c:1186-1209 | requeueing keeps the invariant and the set of queued entities |
| `RtRuns.ThrottleKeeps` | patch/kernel/sched/rt.c:863-888 | throttling a group keeps the invariant and every task's membership |
| `RtRuns.UnthrottleKeeps` | patch/kernel/sched/rt.c:799-823 | unthrottling likewise (where the group then stands: `RtOrder.UnthrottleExact`) |
| `RtRuns.RqEnqueueKeeps` | patch/kernel/sched/rt.c:419-434 | linking a group that may run re-establishes the invariant if it was the only group out of step (where it then stands: `RtOrder.RqEnqueueExact`) |
| `RtRuns.EnableKeepsIff` | patch/kernel/sched/rt.c:702-724 | clearing the flags of all run queues of a CPU without queueing anything keeps the invariant iff no group with something to run was effectively throttled |
| `RtRuns.EnableBreaks` | patch/kernel/sched/rt.c:702-724 | a run of four steps to a state in which enabling breaks the invariant |
| `RtRuns.StepKeeps` | patch/kernel/sched/rt.c:1046-1149 | every operation (enqueue, dequeue, requeue, change while off the queue, throttle, unthrottle, link, new group) keeps the invariant |
| `RtRuns.RunsKeepInv` | patch/kernel/sched/rt.c:968-1149 | in every reachable state: bit set iff list non-empty, `highest_prio` is the first non-empty index (100 if none), counts match the members, and a group is queued in its parent at its best priority iff it is non-empty and not effectively throttled |
| `RtRuns.RunningIsTotalLength` | patch/kernel/sched/rt.c:1046-1069 | `rt_nr_running` is the total length of the hundred lists |
| `RtRuns.PickHeadOk` | patch/kernel/sched/rt.c:1328-1343 | in a non-empty run queue the first set bit is a valid index with a non-empty list, so the `BUG_ON` cannot fire, and a group found there is non-empty and not throttled |
| `RtRuns.PickIsBest` | patch/kernel/sched/rt.c:1345-1369 | the descent returns a task iff some queued task has no effectively throttled enclosing group; the returned task has none, has the minimum prio among those tasks, and is first in its list |
| `RtOrder.TakeDownExact` | patch/kernel/sched/rt.c:1117-1130 | every entity of the stack is out of all lists of its run queue, those lists are otherwise unchanged, and run queues without an entity of the stack are untouched |
| `RtOrder.EnqueueExact` | patch/kernel/sched/rt.c:1071-1137 | the contents of every list afterwards, group entities included: each entity of the stack that is queued stands at the tail (or head) of the list of its present priority, all else in its old order |
| `RtOrder.DequeueExact` | patch/kernel/sched/rt.c:1099-1149 | the same for dequeueing; the groups around the entity that stay queued go to the tails of their lists |
| `RtOrder.RequeueExact` | patch/kernel/sched/rt.c:1186-1214 | the same for requeueing, which changes neither membership nor any best priority |
| `RtOrder.RqEnqueueExact` | patch/kernel/sched/rt.c:419-434 | every list after linking a group: a non-empty group that is out stands at the tail of its parent's list and the groups around it at the tails of theirs, all else in its old order; otherwise nothing changes |
| `RtOrder.ThrottleExact` | patch/kernel/sched/rt.c:863-888 | every list after throttling: the flag alone changes if the group is not queued or holds boosted tasks; else it leaves its list and the groups around it that stay queued go to the tails of theirs |
| `RtOrder.UnthrottleExact` | patch/kernel/sched/rt.c:799-823 | every list after unthrottling: a non-empty group that was held back, and the groups around it, go to the tails of their lists; otherwise the flag alone changes |
| `RtOrder.UnthrottledIsLast` | patch/kernel/sched/rt.c:799-823 | so a group let run again waits behind all its equals |
| `RtOrder.OthersInOrder` | patch/kernel/sched/rt.c:1071-1149 | after any of the three, a list of the stack's run queues without the stack's own entity is what it was |
| `RtStable.TasksDecide` | patch/kernel/sched/rt.c:968-1149 | two reachable states with the same queued tasks and flags have the same best priorities, throttled groups and queued groups: only the order within lists can differ |
| `RtStable.EnqueueDequeueRoundTrip` | patch/kernel/sched/rt.c:1117-1149 | queueing a task and taking it off again restores all lists, memberships and best priorities, except that the groups around it end up at the tails of their lists |
| `RtStable.DescentIff` | patch/kernel/sched/rt.c:1345-1369 | the descent from a run queue ends at the same task as before iff no group that it shares with the queued task had company in its list |
| `RtStable.StablePickIff` | patch/kernel/sched/rt.c:1132-1137 | queueing an unboosted task no better than the picked one leaves the pick alone iff every group enclosing both stood alone in the list it is picked from |
| `RtStable.BetterIsPicked` | patch/kernel/sched/rt.c:1345-1369 | a better task, queued where nothing around it is throttled, is picked itself |
| `RtStable.PickMoves` | patch/kernel/sched/rt.c:1132-1137 | a run of six steps after which queueing a worse task moves the pick to another task |
| `RtCpuImpl.RtCpu.constructor` | patch/kernel/sched/rt.c:60-140 | the initial run queue satisfies the invariant |
| `RtCpuImpl.RtCpu.DequeueRtEntityRaw` | patch/kernel/sched/rt.c:1099-1111 | list, bitmap, count and best-priority updates in place compute the specified state |
| `RtCpuImpl.RtCpu.EnqueueRtEntityRaw` | patch/kernel/sched/rt.c:1071-1097 | the same for insertion |
| `RtCpuImpl.RtCpu.ThreadStack` | patch/kernel/sched/rt.c:1121-1124 | after the upward pass every entity of the stack points back to the one below it and the result is the outermost |
| `RtCpuImpl.RtCpu.DequeueRtStack` | patch/kernel/sched/rt.c:1117-1130 | following the back pointers dequeues the stack from the outermost group inwards, as the recursive specification does |
| `RtCpuImpl.RtCpu.EnqueueRtEntity` | patch/kernel/sched/rt.c:1132-1137 | computes the specified state and ends in the invariant |
| `RtCpuImpl.RtCpu.DequeueRtEntity` | patch/kernel/sched/rt.c:1139-1149 | computes the specified state and ends in the invariant |
| `RtCpuImpl.RtCpu.RequeueRtEntity` | patch/kernel/sched/rt.c:1186-1198 | moving the entity within the one list that holds it computes the specified state and keeps every run queue consistent |
| `RtCpuImpl.RtCpu.RequeueTask` | patch/kernel/sched/rt.c:1200-1209 | computes the specified state and keeps the invariant |
| `RtCpuImpl.RtCpu.ThrottleRq` | patch/kernel/sched/rt.c:863-888 | sets the flag, unlinks the group if that takes effect, leaves every list as stated there, and keeps the invariant |
| `RtCpuImpl.RtCpu.UnthrottleRq` | patch/kernel/sched/rt.c:799-823 | clears the flag, links a group held back at the tail of its list, leaves every list as stated there, and keeps the invariant |
| `RtCpuImpl.RtCpu.EnableRuntime` | patch/kernel/sched/rt.c:702-724 | the loop over the run queues computes that state, with the same exact condition |
| `RtCpuImpl.RtCpu.PickNextTask` | patch/kernel/sched/rt.c:1345-1369 | the loop ends at a task without meeting an empty array; the task is eligible and of minimum prio, and there is none iff no task is eligible |
| `WrrQueue.HeadTurn` | patch/kernel/sched/wrr.c:212-245 | the head runs for exactly what is left of its slice, then stands at the tail with a full one |
| `WrrQueue.Turns` | patch/kernel/sched/wrr.c:197-246 | the tasks of any prefix have their turns in order, each for exactly its slice |
| `WrrQueue.ExactShares` | patch/kernel/sched/wrr.c:197-246 | from full slices, any whole number k of rounds of W·U ticks gives each task exactly k·weight·U ticks and restores order and slices |
| `WrrQueue.ShareBound` | patch/kernel/sched/wrr.c:197-246 | after any n ticks a task's service is within weight·U of n·weight/W |
| `WrrRuns.StepKeepsOk` | patch/kernel/sched/wrr.c:142-246 | ticks, picks, arrivals, departures and yields keep the list duplicate-free with slices in 1..weight·U, and the running task at its head unless a reschedule is pending |
| `WrrRuns.RunsKeepOk` | patch/kernel/sched/wrr.c:142-335 | so in every reachable state |
| `WrrRuns.QuietRun` | patch/kernel/sched/wrr.c:154-246 | in a run without arrivals, departures and yields only the number of WRR ticks matters, not the throttle outcomes nor who runs in between |
| `WrrRuns.RunExactShares` | patch/kernel/sched/wrr.c:197-246 | every such run from full slices: when the class has had k·W·U ticks each task has had exactly k·weight·U and the list is as it started |
| `WrrRuns.RunShareBound` | patch/kernel/sched/wrr.c:197-246 | and at every moment of the run the service is within one full slice of the weighted share |
| `WrrRuns.StepAhead` | patch/kernel/sched/wrr.c:142-246 | the ticks owed to the tasks ahead of a waiting task never grow, and each WRR tick takes one off |
| `WrrRuns.AheadPushedBack` | patch/kernel/sched/wrr.c:328-335 | a head enqueue adds a full slice to that measure, which is why it is excluded |
| `WrrRuns.WaitingBound` | patch/kernel/sched/wrr.c:142-335 | while a task has not reached the head, ticks delivered plus the measure never exceed its initial value |
| `WrrRuns.NoStarvation` | patch/kernel/sched/wrr.c:142-335 | a queued task reaches the head by the time the class has had as many ticks as the sum of the remaining slices ahead of it |
| `WrrList.PrevNextTest` | patch/kernel/sched/wrr.c:236-238 | for a linked task `run_list.prev != run_list.next` iff the list has more than one element |
| `WrrList.ListInsert` | patch/kernel/sched/wrr.c:328-335 | linking a node between two neighbours inserts it at that place of the sequence, the ring intact |
| `WrrList.ListUnlink` | patch/kernel/sched/wrr.c:309-310 | unlinking removes exactly that position, the ring intact |
| `WrrList.ListMove` | patch/kernel/sched/wrr.c:328-335 | moving to head or tail keeps the ring and the order of the others |
| `WrrList.AddToEnd` | patch/kernel/sched/wrr.c:328-335 | a node that is on no list joins at the head or tail |
| `WrrList.ListMoveIn` | patch/kernel/sched/wrr.c:328-335 | list_move of a node on no list: unlinking its own empty node first changes nothing, then it joins at an end |
| `WrrList.WrrEntity.UpdateWeight` | patch/kernel/sched/wrr.c:378-399 | a task without a weight of its own has 1 in the background and 10 otherwise; a custom weight stays |
| `WrrList.WrrRq.constructor` | patch/kernel/sched/wrr.c:253-262 | an empty ring with zero counters |
| `WrrList.WrrRq.EnqueueEntity` | patch/kernel/sched/wrr.c:282-308 | for a task on no list, the pointer operations put it at the asked end of a duplicate-free sequence, with its updated weight and a full slice; `wrr_nr_running` and `total_weight` stay the length and weight sum |
| `WrrList.WrrRq.DequeueEntity` | patch/kernel/sched/wrr.c:309-326 | the same for removal; the task's own node is left empty |
| `WrrList.WrrRq.RequeueEntity` | patch/kernel/sched/wrr.c:328-335 | the task stands at the asked end, the others in their old order |
| `WrrList.WrrRq.TaskTick` | patch/kernel/sched/wrr.c:197-246 | the tick on pointers refines the tick on the sequence: the slice loses one or is refilled, and the task goes to the tail with a reschedule iff the slice ran out and there is another task or the class is throttled |
| `WrrList.WrrRq.PickNext` | patch/kernel/sched/wrr.c:154-180 | the first task, or none iff the list is empty or the class is throttled |
| `RtBorrow.BorrowOk` | patch/kernel/sched/rt.c:560-610 | borrowing conserves the sum of runtimes, leaves every lender at least the time it has used, and takes a borrower at or below the period no further than the period |
| `RtBorrow.BorrowGains` | patch/kernel/sched/rt.c:571-606 | a borrower within the period ends with its runtime plus the n-th part of what every other enabled queue has to spare, capped at the period |
| `RtBorrow.LenderGives` | patch/kernel/sched/rt.c:571-606 | and what each lender gives: the n-th part of its spare time, or what the lenders before it leave of the room up to the period; queues that are disabled or have nothing to spare give nothing |
| `RtBorrow.ReclaimOk` | patch/kernel/sched/rt.c:646-674 | whenever the other enabled queues can pay, or can take a surplus, the greedy loop ends with nothing wanted and moves exactly what was wanted |
| `RtBorrow.ReclaimIff` | patch/kernel/sched/rt.c:646-681 | it ends with nothing wanted iff what is missing is held by the other enabled queues, or, for a surplus, there is another enabled queue |
| `RtBorrow.ReclaimPays` | patch/kernel/sched/rt.c:646-674 | which queue pays: each enabled queue in turn all it has as far as it is still wanted; a surplus goes whole to the first |
| `RtBorrow.DisableOk` | patch/kernel/sched/rt.c:615-691 | under conservation the reclaim always ends with `want == 0`, and disabling conserves bandwidth among the queues left |
| `RtBorrow.EnableConservesIff` | patch/kernel/sched/rt.c:702-724 | enabling conserves bandwidth iff the queue was disabled or holds exactly its budget |
| `RtBorrow.DoubleEnableLeaks` | patch/kernel/sched/rt.c:735-755 | a concrete loan that a second enabling forgets |
| `RtBorrow.DoubleEnableCrashes` | patch/kernel/sched/rt.c:676-681 | after that loan and second enabling, disabling one queue and then the other reaches BUG_ON with -5 wanted |
| `RtBorrow.StepKeeps` | patch/kernel/sched/rt.c:560-724 | every step keeps conservation |
| `RtBorrow.RunsConserve` | patch/kernel/sched/rt.c:560-724 | over every run of borrowing, running, disabling and enabling disabled queues, the enabled queues hold together (number enabled) × budget |
| `RtBorrow.DoBalanceRuntime` | patch/kernel/sched/rt.c:560-610 | the loop over the span computes the specified loans, and reports none only if nothing changed |
| `RtBorrow.DisableRuntime` | patch/kernel/sched/rt.c:615-691 | the loops compute the specified state, `BUG_ON(want)` cannot fire, and conservation holds |
| `RtThrottle.ChargeKeeps` | patch/kernel/sched/rt.c:844-891 | a charge keeps an unthrottled queue at or below its runtime and a throttled one within the allowed overshoot |
| `RtThrottle.ChargeIs` | patch/kernel/sched/rt.c:844-891 | for every queue, throttled or not: the account grows by the time used, and an unthrottled limited queue is throttled iff that takes it over its runtime (with a runtime of 0 its account is cleared instead) |
| `RtThrottle.ReplenishKeeps` | patch/kernel/sched/rt.c:791-806 | the period timer keeps the bound and credits at most one runtime per elapsed period |
| `RtThrottle.ReplenishIs` | patch/kernel/sched/rt.c:791-806 | for every queue, throttled or not: the account becomes max(0, time − overrun·runtime), what was taken off is credited, and throttling ends iff less than one runtime is left |
| `RtThrottle.ChargePathAt` | patch/kernel/sched/rt.c:925-935 | every enclosing queue is charged exactly once and no other queue changes |
| `RtThrottle.ChargeSignals` | patch/kernel/sched/rt.c:925-935 | the running task is told to reschedule iff one of its limited queues is left throttled |
| `RtThrottle.RunsBounded` | patch/kernel/sched/rt.c:779-936 | in every reachable state the account equals what was charged minus what was credited, and is within its bound |
| `RtThrottle.ThrottlingBound` | patch/kernel/sched/rt.c:779-936 | with 0 < R < period, charges of at most d and one charge between throttling and switch-out: `rt_time` never exceeds R + 2d, a throttled queue has used up R, and between any two moments N periods apart at most (N + 1)·R + 2d is charged |
| `RtThrottle.FrugalNeverThrottled` | patch/kernel/sched/rt.c:779-936 | a queue with a real limit that is charged at most its runtime from each expiry of its timer to the next is never throttled, and each of those periods starts with an empty account |
| `RtThrottle.UnlimitedIsUnbounded` | patch/kernel/sched/rt.c:844-891 | otherwise (finite R of 0 or at least the period) any amount can be charged within one period |
| `RtThrottle.ChargeQueue` | patch/kernel/sched/rt.c:844-891 | one charge, branch by branch, computes the specified account and its effect stated there |
| `RtThrottle.TimerQueue` | patch/kernel/sched/rt.c:791-823 | one queue, branch by branch: the account and flags become what is stated there; a throttled queue with a debt is handed to sched_rt_rq_enqueue iff the debt is below (overrun + 1) runtimes, any other iff it has tasks, no debt and is not throttled |
| `RtThrottle.UpdateCurrRt` | patch/kernel/sched/rt.c:897-936 | the loop over the enclosing queues computes the specified charges and reschedules exactly when one is throttled |
| `RtThrottle.PeriodTimer` | patch/kernel/sched/rt.c:779-829 | every queue is replenished, throttled or not; exactly the queues that may run again are handed to sched_rt_rq_enqueue, and the timer stops iff all are empty with clean accounts, or no limit is in force and none is throttled |
| `RtJoint.PickIsClear` | patch/kernel/sched/rt.c:1345-1369 | with run queue and accounts together, a pick never enters a throttled queue, nested groups included |
| `RtJoint.StepAgrees` | patch/kernel/sched/rt.c:779-936 | in every step (queueing, picking, charging, period timer) the run queue and the accounts go on agreeing on who is throttled, and the accounts take a step of their own model |
| `RtJoint.ThrottlingBound` | patch/kernel/sched/rt.c:779-936 | the throttling bound for every group of every tree, with the charged task being the one the run queue picked |
| `TgTree.WalkTgTreeFrom` | patch/kernel/sched/core.c:658-687 | the goto loop ends on every finite tree and makes the calls, in order and with the result, of the recursive walk and of the tour cut at its first non-zero result, for visitors whose answers may depend on all that went before |
| `TgTree.WalkIsCut` | patch/kernel/sched/core.c:651-687 | the recursive walk makes the calls of a fixed tour of the tree up to the first that does not return zero |
| `TgTree.TourVisits` | patch/kernel/sched/core.c:651-687 | that tour visits every group from the start down exactly once on the way down and once on the way up, and no other |
| `TgTree.TourContains` | patch/kernel/sched/core.c:651-687 | and the tour of any group below is one piece of it, so parents enclose their children |
| `TgTree.WalkChecksAll` | patch/kernel/sched/core.c:658-687 | with a check that looks at the group only, the walk returns 0 iff every group below the start passes |
| `TgTree.WalkReturns` | patch/kernel/sched/core.c:658-687 | and what it returns otherwise is what some group returned |
| `Admission.RatioExact` | patch/kernel/sched/core.c:7633-7642 | the 64-bit shift and 32-bit result give the exact quotient for every runtime up to the period and below 2^44 ns |
| `Admission.UnlimitedIsWhole` | patch/kernel/sched/core.c:7633-7642 | an unlimited runtime has the ratio of a runtime equal to the period |
| `Admission.CheckMeaning` | patch/kernel/sched/core.c:7667-7722 | one call of the check answers 0 iff under the proposal the group is well-formed, fits the global ratio, and its children's ratios sum, in 32 bits, to at most its own |
| `Admission.NoWrap` | patch/kernel/sched/core.c:7702-7719 | when all groups pass, no children's sum has wrapped, because the changed group has passed the global check itself |
| `Admission.AcceptedIff` | patch/kernel/sched/core.c:7724-7738 | in an admitted state the walk, with its wrapping sums, accepts a proposal iff every live group would be well-formed, fit the global ratio and have children whose exact sum fits its own |
| `Admission.SetBandwidthKeeps` | patch/kernel/sched/core.c:7740-7768 | accepted or not, admission is kept; an accepted value is stored, a refused change leaves everything as it was |
| `Admission.SetGlobalKeeps` | patch/kernel/sched/core.c:7816-7909 | the global setting is accepted iff well-formed and every live group would pass under it, is then stored, and otherwise rolled back with -EINVAL or -EBUSY; admission is kept either way |
| `Admission.CreateKeeps` | patch/kernel/sched/core.c:7530-7560 | a new group with no runtime is live and the first child of the parent asked for; nothing else changes and admission is kept |
| `Admission.DestroyKeeps` | patch/kernel/sched/core.c:7570-7586 | exactly the group and what lies below it leave the tree, its siblings stay in order, and admission is kept |
| `Admission.StepKeeps` | patch/kernel/sched/core.c:7530-7840 | every operation keeps admission |
| `Admission.RunsAdmitted` | patch/kernel/sched/core.c:7633-7768 | after any sequence of operations every group's children sum to at most its own ratio, and every group to at most the global one |
| `Admission.UnrelatedBound` | patch/kernel/sched/core.c:7667-7722 | hence any set of groups none of which encloses another sums to at most the root's ratio and so the global one |
| `Admission.ShareAbove` | patch/kernel/sched/core.c:7633-7639 | the code's ratio never exceeds the exact share runtime/period |
| `Admission.ShareBelow` | patch/kernel/sched/core.c:7633-7639 | and is less than one unit of 2^-20 below it for runtimes under 2^44 ns |
| `Admission.UnrelatedShares` | patch/kernel/sched/core.c:7667-7722 | in every reachable state the exact shares of any unrelated groups sum to at most the global share plus their number times 2^-20 |
| `Admission.TaskGroups.constructor` | patch/kernel/sched/core.c:7223-7224 | the initial tree, its root with the global setting, is admitted |
| `Admission.TaskGroups.SetRtBandwidth` | patch/kernel/sched/core.c:7740-7768 | through the actual walk: returns 0 iff every live group would pass, stores the value exactly then, and keeps admission |
| `LoadAvg.FixedPowerError` | patch/kernel/sched/core.c:2476-2496 | for x ≤ 2^f, f ≥ 1: the result is at most 2^f and within n/2 units in the last place of 2^f·(x/2^f)^n |
| `LoadAvg.FixedPower` | patch/kernel/sched/core.c:2476-2496 | the loop over the bits of n computes that power |
| `LoadAvg.CalcLoadBetween` | patch/kernel/sched/core.c:2334-2341 | one step never leaves the interval between the old average and the active count |
| `LoadAvg.CalcLoadError` | patch/kernel/sched/core.c:2334-2341 | and is within half a unit of the exact weighted mean |
| `LoadAvg.CalcLoadTimesError` | patch/kernel/sched/core.c:2334-2341 | n steps stay within n/2 of the exact exponential |
| `LoadAvg.CalcLoadN` | patch/kernel/sched/core.c:2521-2527 | the bulk result lies between the old average and the active count |
| `LoadAvg.BulkError` | patch/kernel/sched/core.c:2521-2527 | bulk catch-up differs from n single steps by at most \|load − active\|·n/4096 + (n + 1)/2 |
| `LoadAvg.CalcLoadFits` | patch/kernel/sched/core.c:2334-2341 | with at most 1023 active tasks no 32-bit intermediate overflows and the result stays in that range |
| `LoadAvg.BulkFitsIff` | patch/kernel/sched/core.c:2521-2527 | 1023 is exact: once the power has decayed to 0, the sum formed in bulk catch-up fits 32 bits iff at most 1023 tasks are active, whatever the load |
| `LoadAvg.LongIdleDecays` | patch/kernel/sched/core.c:2476-2496 | for the one-minute average the power is 0 after 128 missed windows |
| `LoadAvg.PowerFits` | patch/kernel/sched/core.c:2476-2496 | the products of the power loop fit 32 bits whatever the exponent |
| `LoadAvg.MissedByDivision` | patch/kernel/sched/core.c:2538-2558 | the division counts exactly the windows that were missed one by one |
| `LoadAvg.CaughtUp` | patch/kernel/sched/core.c:2538-2558 | after the catch-up the next window lies ahead and the last one served does not |
| `CpuLoad.FactorOk` | patch/kernel/sched/core.c:2658-2667 | every entry of the degrade table is at most the exact factor |
| `CpuLoad.FactorTight` | patch/kernel/sched/core.c:2658-2667 | and less than one unit of the 128-point scale below it: the exact factor rounded down |
| `CpuLoad.DecayBound` | patch/kernel/sched/core.c:2674-2697 | for i = 1..4 the decayed load never exceeds load·((2^i − 1)/2^i)^missed |
| `CpuLoad.DecayTight` | patch/kernel/sched/core.c:2674-2697 | and falls short of it by at most 7·(load/128 + 1), the cut-off after many missed ticks included |
| `CpuLoad.DecayMissed` | patch/kernel/sched/core.c:2674-2697 | the loop stays inside the table, computes the specified decay and meets both bounds |
| `CpuLoad.AveragedMoves` | patch/kernel/sched/core.c:2719-2738 | an update moves a sample strictly towards the load and never past it |
| `CpuLoad.AveragedRounds` | patch/kernel/sched/core.c:2719-2738 | the new sample is ((scale − 1)·old + load)/scale, rounded up when the load is higher and down otherwise |
| `CpuLoad.Converges` | patch/kernel/sched/core.c:2703-2741 | under constant load a sample reaches exactly that load within \|difference\| ticks and stays there |
| `CpuLoad.UpdateCpuLoad` | patch/kernel/sched/core.c:2703-2741 | the array is left alone within one tick; otherwise sample 0 becomes the load and every other that mean of its decayed self and the load |
| `LoadFold.StepConserves` | patch/kernel/sched/core.c:2316-2459 | no single access loses or invents a task |
| `LoadFold.RunsConserve` | patch/kernel/sched/core.c:2316-2459 | under every interleaving and any index flips, `calc_load_tasks` + both idle buckets + deltas held in locals = the sum of `calc_load_active` |
| `LoadFold.TasksAreExact` | patch/kernel/sched/core.c:2316-2329 | with nothing in flight and every CPU folded, the count misses exactly what is in the buckets |
| `LoadFold.TwoFoldsSettle` | patch/kernel/sched/core.c:2580-2607 | two global folds of different buckets with no addition in between or after leave the exact number of active tasks |
| `LoadFold.NextWindowSettles` | patch/kernel/sched/core.c:2538-2571 | one flip between two folds suffices for that |
| `LoadFold.BucketsMeetIff` | patch/kernel/sched/core.c:2389-2406 | the bucket chosen for a delta is the one a later fold reads iff the flips in between, and one more if the window was open, are even |
| `LoadFold.KeptUntilFlip` | patch/kernel/sched/core.c:2389-2423 | until the next flip the bucket that is not read keeps all that is added to it |
| `LoadFold.OpenWindowWaits` | patch/kernel/sched/core.c:2408-2459 | a delta whose bucket was chosen with the window open is not taken by that window's fold, and is taken by the first fold after the flip |
| `LoadFold.LoadAccount.AccountActive` | patch/kernel/sched/core.c:2613-2625 | the CPU's delta goes to `calc_load_tasks` and nowhere else |
| `LoadFold.LoadAccount.EnterIdle` | patch/kernel/sched/core.c:2408-2423 | the CPU's delta goes to the bucket of the current or, in the window, the next index, and nowhere else |
| `LoadFold.LoadAccount.GlobalFold` | patch/kernel/sched/core.c:2580-2607 | the read bucket is emptied into `calc_load_tasks`, the other kept, the index flipped |
| `LoadFold.LoadAccount.Remove` | patch/kernel/sched/core.c:5376-5380 | a removed CPU's contribution leaves `calc_load_tasks` with it |
| `Completion.WakeUpMeaning` | patch/kernel/sched/core.c:3629-3641 | an entry is woken iff fewer than `nr_exclusive` exclusive sleepers stand before it (always, for 0) |
| `Completion.WakeUpCommon` | patch/kernel/sched/core.c:3629-3641 | the list walk does exactly that |
| `Completion.WakeUpCounts` | patch/kernel/sched/core.c:3629-3641 | among exclusive waiters min(nr, sleepers) are woken, all of them for 0 |
| `Completion.IssueKeeps` | patch/kernel/sched/core.c:3735-3763 | complete and complete_all keep the invariant |
| `Completion.ArriveMeaning` | patch/kernel/sched/core.c:3766-3789 | a wait that finds `done` positive takes one at once and returns the timeout, or 1 for 0, leaving the queue alone; at 0 it queues at the tail and sleeps, or with a signal pending logs −ERESTARTSYS and nothing else |
| `Completion.ResumeKeeps` | patch/kernel/sched/core.c:3781-3789 | and every later one, for any remaining timeout and pending signal |
| `Completion.StepKeeps` | patch/kernel/sched/core.c:3735-3789 | every step keeps the invariant |
| `Completion.RunsKeepInv` | patch/kernel/sched/core.c:3735-3789 | in every reachable state: successes + `done` + 2^32·wraps = completions issued, and while a queued waiter sleeps `done` is at most the number of queued awake waiters |
| `Completion.SuccessesPlusDone` | patch/kernel/sched/core.c:3735-3789 | without complete_all, successful waits + `done` = number of complete calls iff no complete call found `done` at UINT_MAX; fewer than 2^32 calls never do |
| `Completion.WrapsIff` | patch/kernel/sched/core.c:3735-3743 | the counter has wrapped iff some complete call found it at its maximum |
| `Completion.WrappedRunLosesAll` | patch/kernel/sched/core.c:3735-3743 | a run of 2^32 complete calls with no waiter, after which `done` is 0 and nobody has been served |
| `Completion.NoLostWakeup` | patch/kernel/sched/core.c:3735-3789 | if no queued waiter is awake then nobody waits or `done` is 0 |
| `Completion.ConsumesIffPositive` | patch/kernel/sched/core.c:3766-3789 | a wait takes a completion iff it returns a positive value; one ended by a signal or its timeout takes none |
| `Completion.CompleteIsFifo` | patch/kernel/sched/core.c:3735-3743 | complete wakes the longest-waiting sleeper and nobody else |
| `Completion.CompletionObject.CompleteOne` | patch/kernel/sched/core.c:3735-3743 | `done` becomes done + 1 modulo 2^32, no wait returns, and the walk gives the specified queue, keeping the invariant |
| `Completion.CompletionObject.CompleteEvery` | patch/kernel/sched/core.c:3755-3763 | `done` becomes done + 2147483647 modulo 2^32, and every queued waiter is awake, in its old place |
| `Completion.CompletionObject.BeginWait` | patch/kernel/sched/core.c:3766-3780 | the fields change as stated for an arrival; it is over at once iff a completion was there or a signal is pending |
| `Completion.CompletionObject.ContinueWait` | patch/kernel/sched/core.c:3773-3789 | a woken waiter that finds a completion takes it and returns a positive value; else it leaves with 0 or −ERESTARTSYS, or sleeps again, with `done` still 0 |
| `Completion.CompletionObject.TryWaitFor` | patch/kernel/sched/core.c:3924-3936 | takes one completion and returns true iff `done` is positive, else changes no field; the queue is left alone |
| `Dispatch.DequeueOk` | patch/kernel/sched/wrr.c:309-326 | taking a task off its class's queue keeps members and counters in step for all other tasks |
| `Dispatch.EnqueueOk` | patch/kernel/sched/wrr.c:282-308 | putting it on the queue of its class completes the invariant, with a weight in 1..99 and a full slice for WRR |
| `Dispatch.ReworkOk` | patch/kernel/sched/core.c:4423-4443 | dequeue, change, enqueue keeps the invariant for any well-formed new fields |
| `Dispatch.ReworkFrame` | patch/kernel/sched/core.c:4423-4443 | and leaves every other task, and the order of the others, alone |
| `Dispatch.ReworkPuts` | patch/kernel/sched/core.c:4423-4443 | the task itself ends on the queue of its new class alone if runnable, a WRR queue at the end asked for and with a full slice, and on no queue otherwise |
| `Dispatch.ForkKeeps` | patch/kernel/sched/core.c:1787-1863 | fork keeps the invariant and every other task; the child is off all queues, keeps weight and slice, has its own rather than a lent priority, and under reset-on-fork loses a real-time policy and a negative nice value but not WRR |
| `Dispatch.WakeNewKeeps` | patch/kernel/sched/core.c:1872-1912 | the first wakeup keeps the invariant, puts the task on its queue, for WRR at the tail, and gives it the weight of its group unless it has its own |
| `Dispatch.WakeKeeps` | patch/kernel/sched/core.c:1398-1406 | a later wakeup keeps the invariant, puts the task on its queue, for WRR at the tail, and leaves its policy, priorities and class alone |
| `Dispatch.SleepKeeps` | patch/kernel/sched/core.c:3410-3425 | going to sleep keeps the invariant, takes the task off its queue and changes nothing else of it |
| `Dispatch.SetSchedulerKeeps` | patch/kernel/sched/core.c:4293-4449 | a change of policy keeps the invariant, and a refused one changes nothing |
| `Dispatch.SetSchedulerMeaning` | patch/kernel/sched/core.c:4243-4272 | for a well-formed task it succeeds iff the policy is known, the priority 1..99 for FIFO and RR, 0..99 for WRR, 0 for the rest, permission is given and, for a real change to a real-time policy, the group has runtime; it then leaves the policy asked for, the priority it implies, and the better of that and what waiters lend, with reset-on-fork as asked for, on the queue of its new class, for WRR at the tail |
| `Dispatch.WrrAgainIsNoop` | patch/kernel/sched/core.c:4394-4400 | asking for WRR again changes nothing, the weight included |
| `Dispatch.SetPrioKeeps` | patch/kernel/sched/core.c:4018-4074 | for a task of any class: it has the priority lent or taken back, stands on the queue that calls for (a WRR queue at the head iff the priority got worse, else at the tail) and on no other, its policy and own priorities are untouched, and the invariant holds |
| `Dispatch.BoostRoundTrip` | patch/kernel/sched/core.c:4018-4074 | lending a queued WRR task a real-time priority and taking it back puts it at the head with a full slice and changes nothing else |
| `Dispatch.SetNiceKeeps` | patch/kernel/sched/core.c:4076-4120 | a nice value keeps the invariant |
| `Dispatch.SetNiceMeaning` | patch/kernel/sched/core.c:4076-4120 | nothing if out of range or unchanged; a FIFO or RR task has the value stored; any other takes it over, save that a lent real-time priority stays, and is queued anew, for WRR at the tail with a full slice |
| `Dispatch.MoveGroupKeeps` | patch/kernel/sched/core.c:7593-7629 | moving between groups keeps the invariant |
| `Dispatch.MoveGroupReweighs` | patch/kernel/sched/core.c:7593-7629 | the task is in the new group, is queued anew and otherwise as it was; a queued WRR task without its own weight takes the new group's, with a full slice, at the tail |
| `Dispatch.TickKeeps` | patch/kernel/sched/wrr.c:197-246 | a tick keeps the invariant and takes one from the slice or refills it |
| `Dispatch.YieldKeeps` | patch/kernel/sched/wrr.c:142-144 | so does a yield |
| `Dispatch.StepKeeps` | patch/kernel/sched/core.c:4243-4272 | every step keeps the invariant |
| `Dispatch.RunsKeepOk` | patch/kernel/sched/core.c:1787-1912 | in every reachable state of fork, wake, sleep, setscheduler, boost, nice, group move, tick and yield: class from (prio, policy), queues, counters, WRR weights and slices as they should be |
| `Dispatch.OnExactlyOneQueue` | patch/kernel/sched/core.c:4264-4270 | spelled out: a runnable task is on the queue of its class and on no other, any other task on none |
| `Dispatch.BecomesWrr` | patch/kernel/sched/core.c:4243-4272 | any other unboosted runnable task goes to the tail of the WRR queue with the weight asked for, or its group's for 0, and a full slice |
| `Dispatch.ShortcutAgrees` | patch/kernel/sched/core.c:3367-3390 | the shortcut for a queue of fair tasks picks what the walk over all classes would |
| `Dispatch.PickMeaning` | patch/kernel/sched/core.c:3367-3390 | the whole pick: the stop task if it runs, else the real-time answer, else the WRR head unless that queue is empty or throttled, else the fair answer; a picked task is runnable, and nobody is picked iff all classes are empty or throttled |
| `DispatchWrr.TickRefines` | patch/kernel/sched/wrr.c:197-246 | the tick on the run queue is the tick of the WRR class on its list |
| `DispatchWrr.YieldRefines` | patch/kernel/sched/wrr.c:142-144 | and the yield its requeue at the tail |
| `DispatchWrr.StepEffect` | patch/kernel/sched/core.c:4423-4443 | every other operation leaves the WRR list alone, takes the task off it, or puts it at the tail with its weight and a full slice |
| `DispatchWrr.StepRefines` | patch/kernel/sched/core.c:4243-4272 | so every step of the run queue is a step of the WRR class |
| `DispatchWrr.RunRefines` | patch/kernel/sched/core.c:4243-4272 | and every run of the one a run of the other |
| `DispatchWrr.ExactShares` | patch/kernel/sched/wrr.c:197-246 | exact shares on the run queue, with forks, wakeups, policy changes and boosts of other classes going on meanwhile |
| `DispatchWrr.NoStarvation` | patch/kernel/sched/wrr.c:142-335 | freedom from starvation on the run queue, while other tasks come, go, and change policy, nice value or group |
| `DispatchImpl.RunQueue.UpdateWeight` | patch/kernel/sched/wrr.c:378-399 | only that task's weight and slice change, to the group's weight unless custom, and a full slice |
| `DispatchImpl.RunQueue.EnqueueTask` | patch/kernel/sched/wrr.c:282-308 | field updates compute the specified queue |
| `DispatchImpl.RunQueue.DequeueTask` | patch/kernel/sched/wrr.c:309-326 | field updates compute the specified queue |
| `DispatchImpl.RunQueue.SetFields` | patch/kernel/sched/core.c:4243-4272 | the field updates of __setscheduler compute the specified task |
| `DispatchImpl.RunQueue.SchedSetscheduler` | patch/kernel/sched/core.c:4293-4449 | computes the specified state, keeps the invariant and every other task, succeeds under exactly that condition, and changes nothing on an error |
| `DispatchImpl.RunQueue.RtMutexSetprio` | patch/kernel/sched/core.c:4018-4074 | computes the specified state; the task has the priority and stands where stated there, every other task is as it was, and the invariant holds |
| `DispatchImpl.RunQueue.SetUserNice` | patch/kernel/sched/core.c:4076-4120 | the same for a nice value |
| `DispatchImpl.RunQueue.SchedMoveTask` | patch/kernel/sched/core.c:7593-7629 | the same for a change of group |
| `DispatchImpl.RunQueue.PickNextTask` | patch/kernel/sched/core.c:3367-3390 | with its shortcut returns exactly that pick, on every combination of answers, stop task and throttling |
| `RqLocks.CallSafe` | patch/kernel/sched/sched.h:1035-1138 | each routine, called with the locks its callers must hold, takes locks only in increasing order, releases only what it holds, and ends with what it promises |
| `RqLocks.StepKeeps` | patch/kernel/sched/sched.h:1035-1138 | no lock access of any CPU breaks this or mutual exclusion |
| `RqLocks.RunsKeepInv` | patch/kernel/sched/sched.h:1035-1138 | so in every reachable state, for any number of CPUs mixing both variants |
| `RqLocks.BlockedHoldsLower` | patch/kernel/sched/sched.h:1054-1121 | a CPU blocked on a lock holds only lower-ordered locks |
| `RqLocks.NoWaitCycle` | patch/kernel/sched/sched.h:1035-1138 | no chain of CPUs each waiting for the next returns to its start |
| `RqLocks.SomeoneRuns` | patch/kernel/sched/sched.h:1035-1138 | every blocked CPU waits, through a chain, for one that is not blocked |
| `RqLocks.DeadlockFree` | patch/kernel/sched/sched.h:1035-1138 | in every reachable state with a blocked CPU, some lock holder can proceed or is between calls |
| `RqLocks.FinishedCalls` | patch/kernel/sched/sched.h:1035-1138 | a finished call leaves exactly the promised locks, and `_double_lock_balance` returns 1 iff it dropped its own lock on the way |
| `RqLocks.TrylockDecides` | patch/kernel/sched/sched.h:1054-1073 | the trylock variant takes a free lock in one access, dropping nothing; a taken one is waited for, in order, its own lock being dropped first iff it is the higher |
| `RqLocks.FairDrops` | patch/kernel/sched/sched.h:1035-1045 | the fair variant always drops its own lock, takes both in order and returns 1 |
| `RqLocks.TryingSafeIff` | patch/kernel/sched/sched.h:1054-1073 | the trylock variant is safe iff the two run queues differ; with one queue twice the CPU comes to wait for a lock it owns |

## Left out

- CFS, the stop and idle classes, cpupri, and the real-time push/pull balancing: their sources are not in the repository or depend on code that is not; in `Dispatch` the fair and real-time picks are answers given from outside and the stop class is a flag.
- Clocks, jiffies, timers, context switches, memory barriers and RCU: time appears as inputs (deltas, overruns, jiffies), `wrr_throttled()` as a free boolean at each call.
- WRR runs assume that a pending reschedule is carried out before the next tick, and take `WRR_WEIGHT_UNIT` as a constant of at least 1.
- Group paths: whether a task is in a background group is a boolean.
- Permission, rlimit and security checks of `__sched_setscheduler` are one boolean and its group-bandwidth check another, each where the code has it; every refusal is -EPERM; the retry when the policy changes before the lock is taken is not a separate step.
- `rt_mutex_getprio` and the PI waiters: the boost is an input, never worse than the task's own priority, which is what the rt-mutex code passes.
- Migration: `Dispatch` and the WRR class are modelled on one run queue.
- RtRuns.StepKeeps: group removal is not a step, because a group without tasks has an empty queue; hotplug appears only in `EnableKeepsIff`.
- RtThrottle.ThrottlingBound: borrowing and boosting are excluded, and 64-bit wrap-around of `rt_time` is not modelled; that a task is charged at most once between throttling and switch-out is assumed.
- RtJoint.ThrottlingBound: the same, over a fixed tree of groups.
- Admission.UnrelatedShares: for runtimes below 2^44 ns, which is more than the interface's 32-bit count of microseconds can ask for (patch/kernel/sched/core.c:7770-7780).
- RtBorrow.RunsConserve: a change of the group's own bandwidth (which resets every queue, disabled ones included) is not a step.
- Completion.SuccessesPlusDone: complete_all is excluded, as it adds UINT_MAX/2 at once; `RunsKeepInv` covers it.
- Completion.ConsumesIffPositive: a timeout is at most LONG_MAX; an unsigned long above that turns negative in wait_for_completion_timeout, and a wait that then takes a completion would return a negative value.
- DispatchWrr.NoStarvation: the end of a boost (a head enqueue) and changes to the running task itself are not steps.
- LoadFold.RunsConserve: a CPU is removed only when it holds no delta of its own, as stop_machine ensures.
- WrrRuns.NoStarvation: head enqueues and requeues of the waiting task by a policy or group change are excluded, because they do break the bound (`AheadPushedBack`).
- RqLocks.CallSafe: lockdep annotations, interrupt state and the uniprocessor versions of the routines.
- Sched-domain construction, sysctl, debugfs and cgroup files, the utilities, build files and the report.
