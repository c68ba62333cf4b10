# A verified model of the myos-i686 kernel core

This project models the parts of the myos-i686 kernel that keep state: the CPU scheduler with its
batch simulator, the block allocator, the mailboxes, the semaphores and mutexes, the keyboard buffer,
and the printing and parsing of numbers. For each it proves what holds in every reachable state or
for every input.

`dafny verify dfyconfig.toml` checks the whole project.

## How it is built

Most components have two layers. The value layer describes the state as datatypes and sequences and
each C function as a function on them; the theorems about runs are proved there, by induction on the
events. The heap layer has the source's own form: classes with the fields of the C structures and
globals, intrusive linked queues, arrays, loops. Each method of it is proved to compute, on the
abstract value of the object (its `View`), exactly the function of the value layer. For the scheduler
each entry point is also proved to take the processes outside the scheduler along, so that a call is
exactly one event of the runs (`WorldOf() == Next(old(WorldOf()), event)`), and the theorems about runs
hold of the updates in place.

| file | contents |
|---|---|
| `Words.dfy`, `Processes.dfy` | 32-bit words, the PCB as a value, queues of PCBs |
| `SchedulerModel.dfy` | the steps of `scheduler.c` over sequences |
| `SchedulerRuns.dfy` | runs of events; every process in exactly one place |
| `ProcessFields.dfy` | what a run does to the fields of one process |
| `RoundRobinWait.dfy`, `RoundRobinSlices.dfy`, `RoundRobinChange.dfy` | round robin to the tick |
| `Preemption.dfy`, `NonPreemption.dfy` | the policies that take the CPU away, and those that never do |
| `Journal.dfy`, `JournalTicks.dfy` | the journal: its slots, its intervals, and the ticks they account for |
| `MlfqRanks.dfy`, `MlfqOrder.dfy`, `MlfqFairness.dfy`, `MlfqBoosts.dfy`, `MlfqDemotion.dfy`, `MlfqLevels.dfy` | MLFQ: invariants through changes of policy, order of service, no starvation, boosts, demotion, level discipline |
| `Simulation.dfy`, `SimSchedule.dfy`, `FlowTime.dfy`, `SjfOptimality.dfy`, `MisleadingEstimates.dfy`, `PolicyComparison.dfy` | the batch simulator: conservation of work, the schedule it follows, optimality, comparison of all policies |
| `ProcessQueues.dfy`, `Scheduling.dfy` | the linked queues and the scheduler on the heap |
| `MemoryPool.dfy` | the allocator, both layers |
| `Mailboxes.dfy`, `MailboxWaiting.dfy`, `MailboxBlocks.dfy`, `MailboxTable.dfy` | the mailboxes, who is woken by them, and the table on the heap |
| `Waiters.dfy`, `SyncTables.dfy`, `Semaphores.dfy`, `Mutexes.dfy` | waiter arrays, the tables, the synchronisation primitives as values |
| `SemaphoreTable.dfy`, `MutexTable.dfy` | the two tables on the heap |
| `KeyboardBuffer.dfy` | the keyboard buffer with its interrupting producer, both layers |
| `Numbers.dfy` | `_itoa` and `string_to_uint` |

## Where the code does less than its comments suggest

The model follows the code. Each of these is proved, with the exact condition under which the code does
what one would expect and with an input where it does not, which for state is a run from initialisation:

- `scheduler_block_process` leaves `current_process` as it is. Blocking keeps every process in one
  place if and only if its target is not the current process (`BlockKeepsOnePlaceIff`); blocking and
  unblocking the current one makes it current and queued at once (`DuplicateIsReachable`).
- The kernel boots with round robin and enters MLFQ by a live change, and neither the change nor a boost
  touches the current process. Under the policies that do not count slices its `remaining_slice` wraps
  below 0, and after the change it may keep the CPU for 2^32 ticks (`MlfqFairness.WrappedSliceStarves`).
  The bound of 500 + 20 + 5n ticks survives the change if and only if between 1 and 525 ticks of the slice
  are left (`ChangeKeepsBoundIff`); it always does between round robin and MLFQ (`BootKeepsBound`), and in
  general the rest of the slice takes the place of 520 (`NoStarvation`).
- For the same reason demotion is not always exact after a change (`ChangeDelaysDemotion`): it is if and
  only if the allotment ends with a slice (`DemotionExactIff`). The level discipline holds from the start
  with MLFQ (`ReachableLevels`), and after a change under the condition of `ChangeKeepsLevelsIff`
  (`ChangeBreaksLevels`).
- For the same reason a change to round robin serves the queue in turn if and only if between 1 and 20
  ticks of the current slice are left (`ChangeServesInTurnIff`). `remaining_slice` is decremented before it
  is compared with 0: counted down to 0 under FCFS, it lasts 2^32 ticks under round robin
  (`RoundRobinChange.WrappedSliceStarves`).
- `scheduler_add_process` takes a remaining time of 0 for a missing one: a process that has used its time up
  under SRTF has its whole burst before it again when it is unblocked. The remaining time is kept if and
  only if it is not 0 (`ReadmissionKeepsWorkIff`, `SpentStartsAgain`).
- The rounding in `kmalloc` wraps at 2^32, and a search for 0 blocks still finds a free one: a pointer
  is backed by its bytes if and only if `size + 63` is below 2^32 (`AllocReservesIff`,
  `HugeRequestSucceeds`).
- `kfree` releases one block: it undoes `kmalloc` if and only if at most one block was marked
  (`FreeUndoesAllocIff`, `SecondBlockLeaks`).
- The simulator never preempts under PRIORITY and SRTF, so the SRTF simulation runs each process to
  its end; that order is still optimal for a queue that is complete at the start (`SrtfIsOptimal`).
  SJF is optimal if and only if its estimates never put a longer process first (`SjfOptimalIff`,
  `SjfIsMisled`).
- The simulator starts the interval of the first process at the end of a tick it charges it for: its
  logged durations are one tick short, and those of no other process (`FinishedLogs`,
  `ThreeTicksLoggedAsTwo`). Live, the journal accounts for every tick (`LoggedIsCharged`).
- Blocking calls return at once. `mbox_send_blocking` still fails if and only if the mailbox is full, and
  `mbox_recv_blocking` if and only if it is empty (`BlockingCallsStillFail`, `BlockingFailsIff`).
- A mailbox remembers one waiting process for each direction: the first of two receivers stays registered
  if and only if the second is the same process (`SecondReceiverReplacesFirst`); otherwise nothing wakes it
  any more (`FirstReceiverIsLost`, `LostReceiverIsReachable`).
- Names are cut to 15 characters when they are stored, but compared as they are: a second creation under
  the same name is refused if and only if it has at most 15 (`SecondCreateRefusedIff`, `LongNameTwice`).
- `mutex_lock` always reports success to a process, which owns the mutex then if and only if it was free
  (`LockAcceptedIff`, `LockSucceedsTooEarly`).
- The ninth waiter of a semaphore or mutex is dropped although its call reports success, and is never
  woken: all of n processes are served if and only if at most eight of them have to wait (`BlockedCallerQueuedIff`,
  `OnlyEightAreWoken`, `OnlyNineAreServed`).

## Model

| member | source | states |
|---|---|---|
| `SchedulerModel.Choice` | kernel/src/scheduler.c:124-179 | The selected position beats every earlier one strictly and is beaten by none: best key, earliest among equals |
| `SchedulerModel.ChoiceUnique` | kernel/src/scheduler.c:124-179 | That description determines the selected position |
| `SchedulerModel.ChoiceIsHead` | kernel/src/scheduler.c:210-216 | FCFS and round robin take the head |
| `SchedulerModel.ChoiceIsEarliestBest` | kernel/src/scheduler.c:124-240 | The selected process has the highest priority, the least burst_time or the least remaining_time of the queue and is the earliest of those that have it; the head under FCFS and round robin |
| `SchedulerModel.Select` | kernel/src/scheduler.c:252-269 | Selection finds a process exactly when the queues of the policy hold one, and otherwise changes nothing |
| `SchedulerRuns.ReachableOnePlace` | kernel/src/scheduler.c:285-596 | From scheduler_init, over any run of create, add, block of a non-current process, unblock, boost, policy change and tick: every created process is in exactly one place (a queue, the CPU, or outside), queued means READY, current means RUNNING, and the queues the policy does not use are empty |
| `SchedulerRuns.RunKeepsOnePlace` | kernel/src/scheduler.c:305-565 | The same from any state that satisfies it |
| `SchedulerRuns.NextKeepsOnePlace` | kernel/src/scheduler.c:305-565 | One event keeps it, and moves no process into or out of existence |
| `SchedulerRuns.BlockKeepsOnePlaceIff` | kernel/src/scheduler.c:357-369 | Blocking keeps it if and only if the target is not the current process |
| `SchedulerRuns.BlockingCurrentDuplicates` | kernel/src/scheduler.c:357-384 | Block then unblock of the current process leaves it current and queued at once |
| `SchedulerRuns.DuplicateIsReachable` | kernel/src/scheduler.c:357-384 | From scheduler_init: create, add, tick, block, unblock reaches such a state |
| `SchedulerRuns.StepPlaces` | kernel/src/scheduler.c:416-565 | The step after the boost check keeps the number of places of every process |
| `SchedulerRuns.SetPolicyPlaces` | kernel/src/scheduler.c:571-596 | A policy change loses and duplicates no process |
| `SchedulerRuns.MigrationKeepsOrder` | kernel/src/scheduler.c:571-596 | Policy change, and boost (lines 386-406), keep the order of all queued processes, highest level first |
| `RoundRobinWait.RoundRobinExactWait` | kernel/src/scheduler.c:430-565 | The process at position k of the queue is still waiting before, and is current after, exactly the rest of the current slice plus the slices of the k processes ahead, whatever joins behind it |
| `RoundRobinWait.TimerCountsDown` | kernel/src/scheduler.c:430-459 | One tick brings every waiting process exactly one tick nearer |
| `RoundRobinWait.OtherEventsKeepWait` | kernel/src/scheduler.c:305-384 | Events between ticks leave the waiting time unchanged |
| `RoundRobinSlices.ReachableInTens` | kernel/src/scheduler.c:504-563 | From the boot with round robin, without leaving it: queued processes have slices of ten, and the process on the CPU is always a whole number of slices of ten ticks, counted from when it got the CPU, from the end of its present one, whether anybody waits or not |
| `RoundRobinSlices.TenForEachAhead` | kernel/src/scheduler.c:430-565 | In such a run the process at position k waits exactly the rest of the current slice, at most 10 ticks, and 10 ticks for each process ahead |
| `RoundRobinChange.ServedIff` | kernel/src/scheduler.c:430-565 | Under round robin, in any run that blocks nobody, the process at position k gets the CPU if and only if the ticks of the run cover the rest of the current slice and the slices of the k processes ahead |
| `RoundRobinChange.ChangeServesInTurnIff` | kernel/src/scheduler.c:571-596 | A live change to round robin from any policy with a process queued serves the process at position k within 20(k + 1) ticks, in every run that blocks nobody, if and only if no process is current or its remaining_slice is in 1 to 20 |
| `RoundRobinChange.WrappedSliceStarves` | kernel/src/scheduler.c:430-432 | The run that breaks it: ten ticks under FCFS bring remaining_slice to 0, and after the change the other process gets the CPU after 2^32 ticks and no earlier |
| `MlfqLevels.ReachableLevels` | kernel/src/scheduler.c:386-565 | In every state of an MLFQ-only run: a process queued at level l has level l and quantum(l), levels stay in 0 to 2, queued allotments are multiples of 5 |
| `MlfqLevels.NextKeepsLevels` | kernel/src/scheduler.c:386-565 | One event keeps the level discipline |
| `MlfqLevels.ChargedLevel` | kernel/src/scheduler.c:430-500 | A slice ends on a multiple of 5 of the allotment |
| `MlfqRanks.ReachableRanks` | kernel/src/scheduler.c:285-596 | In every state reachable from scheduler_init, through any changes of policy: a process queued at level l has level l and quantum(l) as its slice, levels stay in 0 to 2 |
| `MlfqRanks.NextKeepsRanks` | kernel/src/scheduler.c:305-596 | One event keeps that, and only a tick changes the rest of the current slice |
| `MlfqRanks.TimerRanks` | kernel/src/scheduler.c:408-565 | Under MLFQ and round robin a tick counts the current slice down, and a new slice is at most 20 ticks |
| `MlfqRanks.BootHandover` | kernel/src/kernel.c:543 | From the boot with round robin, as long as only round robin and MLFQ are chosen, the rest of the current slice is at most 20 ticks |
| `MlfqLevels.ChangeKeepsLevelsIff` | kernel/src/scheduler.c:581-592 | A live change to MLFQ establishes the level discipline if and only if the current process and the allotments outside the queues already agree with it |
| `MlfqLevels.ChangeBreaksLevels` | kernel/src/shell.c:337-341 | It does not once a process runs under round robin: the run from boot |
| `MlfqDemotion.NextMoves` | kernel/src/scheduler.c:430-565 | One event under MLFQ changes the account of a process only by a charged tick, a demotion at allotment 0, a boost or a re-admission |
| `MlfqDemotion.DemotionByAllotment` | kernel/src/scheduler.c:486-500 | Under MLFQ, however entered and across any preemptions: with allotment a (30 when full) a process is never demoted before a charged ticks, and from level 0 with exactly the a-th if its allotment ends with a slice |
| `MlfqDemotion.DemotionExactIff` | kernel/src/scheduler.c:486-500 | Demotion from level 0 is exact in every run if and only if the allotment is a whole number of slices away, counted from the end of the slice for the current process, in fives for any other |
| `MlfqDemotion.ChangeDelaysDemotion` | kernel/src/scheduler.c:571-596 | The run from boot in which it is not: one tick under round robin, then the change |
| `MlfqFairness.NoStarvation` | kernel/src/scheduler.c:386-565 | Under MLFQ, in every reachable state (ReachableRanks), a READY process that is not blocked gets the CPU within max(520, H) + 5(n - 1) ticks, H being the rest of the current slice and n the number queued at the next boost; arrivals after it do not delay it |
| `MlfqFairness.ServedAfterBoost` | kernel/src/scheduler.c:408-414 | The bound counted from the time left to the next boost |
| `MlfqFairness.TopIsServed` | kernel/src/scheduler.c:242-250 | A process of the top level gets the CPU after the rest of the current slice and one top quantum for each process ahead |
| `MlfqFairness.BoostBringsToTop` | kernel/src/scheduler.c:393-403 | A boost puts every queued process on top, behind at most the others queued with it |
| `MlfqFairness.BootKeepsBound` | kernel/src/scheduler.c:386-565 | From the boot with round robin, with changes between round robin and MLFQ only: whenever the policy is MLFQ, every queued process gets the CPU within 500 + 20 + 5n ticks |
| `MlfqFairness.ShortSliceKeepsBound` | kernel/src/scheduler.c:386-565 | The same in every reachable MLFQ state with at most 525 ticks left of the current slice |
| `MlfqFairness.ServedAfterChange` | kernel/src/scheduler.c:581-592 | After a live change to MLFQ the process at position k gets the CPU within the rest of the current slice and 5k ticks |
| `MlfqFairness.ChangeKeepsBoundIff` | kernel/src/scheduler.c:571-596 | A live change to MLFQ with a process queued keeps the bound of 500 + 20 + 5n if and only if no process is current or its remaining_slice is in 1 to 525 |
| `MlfqFairness.CurrentKeepsCpu` | kernel/src/scheduler.c:386-406 | Under MLFQ the current process keeps the CPU until its slice is used up, whatever boosts and arrivals come |
| `MlfqFairness.WrappedSliceStarves` | kernel/src/scheduler.c:430-432 | The run that breaks the bound: ten ticks under FCFS wrap the slice, and after the change the other process waits 2^32 ticks |
| `Preemption.TickHonoursPolicy` | kernel/src/scheduler.c:461-484 | After every tick of PRIORITY or SRTF, from any state, no queued process has a higher priority, or less remaining time, than the current one; the process changes exactly when one had, and then to the earliest of the best |
| `Preemption.StepHonoursPolicy` | kernel/src/scheduler.c:504-563 | The same of the step after the boost check, with the exact new state |
| `Preemption.ChoiceAppendWorse` | kernel/src/scheduler.c:540-550 | Queueing the process that loses does not change the choice |
| `NonPreemption.NeverPreempted` | kernel/src/scheduler.c:471-474 | Under FCFS and SJF, over any run that neither changes the policy nor blocks the current process: that process stays on the CPU and is charged every tick, the queue keeps its order, loses only blocked processes and grows only at its tail, and nothing is logged |
| `NonPreemption.IdleTakesBest` | kernel/src/scheduler.c:417-428 | A tick on an idle CPU starts the earliest of the best queued processes with its whole slice, and leaves the others in order |
| `NonPreemption.FirstTickTakesShortest` | kernel/src/scheduler.c:144-160 | Under SJF the first tick of a run starts the earliest process of least burst_time among all added before it |
| `MlfqOrder.TickServesFirst` | kernel/src/scheduler.c:242-250 | Under MLFQ the current process keeps the CPU until its slice ends; then it joins the tail of its level, and the first process of the lowest-numbered level that is not empty takes the CPU, so that no queued process has a smaller level; the others keep their order |
| `MlfqOrder.SelectTakesFirst` | kernel/src/scheduler.c:242-250 | Selection under MLFQ takes the first of level 0 followed by level 1 followed by level 2 |
| `MlfqOrder.NoOvertaking` | kernel/src/scheduler.c:386-565 | Under MLFQ a queued process that is at a smaller level than another one, or ahead of it at the same level, gets the CPU before it in every run that blocks neither, whatever slices, demotions, boosts and arrivals come between |
| `MlfqBoosts.BoostsEvery500` | kernel/src/scheduler.c:408-414 | Over any MLFQ run without explicit boosts the last boost is the latest multiple of 500 ticks after the one before: boosts come every 500 ticks and at no other time |
| `MlfqBoosts.BoostsAfterChange` | kernel/src/scheduler.c:581-592 | After a live change to MLFQ they come at multiples of 500 ticks from the change |
| `MlfqBoosts.BoostLifts` | kernel/src/scheduler.c:393-405 | A boost puts levels 1 and 2 behind level 0 in order, each process at level 0 with allotment 30 and a slice of 5, and changes nothing else |
| `MlfqBoosts.ChangeMoves` | kernel/src/scheduler.c:571-596 | A change away from MLFQ joins the levels and changes no PCB; a change to MLFQ lifts all queued processes that way; other changes move nothing |
| `ProcessFields.NextEvolves` | kernel/src/scheduler.c:305-384 | One event never changes the name or priority of a process; its burst, remaining time, ticks and arrival change only by a charged tick (remaining time under SRTF only) or an admission, which keeps the work done and fills in only a burst or remaining time of 0 |
| `ProcessFields.RunCharges` | kernel/src/scheduler.c:430-442 | Over any run of all events: each process is charged exactly the ticks it is on the CPU for, keeps its name, priority and non-zero burst, and while its remaining time stays above 0 that goes down by exactly the ticks under SRTF |
| `ProcessFields.CreationFills` | kernel/src/process.c:90-135 | A new process is NEW with its name, its priority cut to 31, no ticks, level 0, allotment 30 and a slice of 10 |
| `ProcessFields.ReadmissionKeepsWorkIff` | kernel/src/scheduler.c:322-324 | An unblocked process keeps its remaining time if and only if it is not 0 |
| `ProcessFields.SpentStartsAgain` | kernel/src/scheduler.c:322-324 | The run in which it is 0: a process of one tick uses it up under SRTF, is displaced, blocked and unblocked, and has its whole burst before it again |
| `ProcessFields.ReachableCreated` | kernel/src/process.c:90-135 | Every process of a reachable state was created in the run, with its name, its priority cut to 31, and its burst, or 50 for 0 |
| `ProcessFields.ReachableNamesRight` | kernel/src/scheduler.c:182-205 | In every reachable state each journal entry has the first 15 characters of the name of the process with its pid |
| `Journal.ReachableTiled` | kernel/src/scheduler.c:532-560 | Over any run of events, each logged interval starts where the previous one ended, the last one ends where the current process started, and there is one entry per context switch |
| `Journal.RunTiles` | kernel/src/scheduler.c:532-560 | The same from any tiled state; the journal only grows |
| `Journal.DurationsTelescope` | kernel/src/scheduler.c:201-204 | The 32-bit durations of a tiled journal add up modulo 2^32 to the time it spans |
| `Journal.WriteStores` | kernel/src/scheduler.c:185-192 | Writing at the wrapped index puts entry j in slot j mod 100 and keeps the 100 latest |
| `Journal.LatestSlot` | kernel/src/scheduler.c:962-966 | The slot that the simulator corrects is the one of the entry just logged |
| `JournalTicks.LoggedIsCharged` | kernel/src/scheduler.c:430-563 | From scheduler_init, over any run that does not block the current process: the intervals logged for a process add up to exactly the ticks it was charged, for the current process together with the time since it got the CPU |
| `JournalTicks.DurationsAreCharged` | kernel/src/scheduler.c:182-205 | The same of the 32-bit durations, modulo 2^32 |
| `JournalTicks.SimulationLogs` | kernel/src/scheduler.c:907-994 | At every moment of a simulation, under all six policies, the ticks charged to a process are those logged for it and those since it got the CPU, and one more for the process loaded first |
| `JournalTicks.FinishedLogs` | kernel/src/scheduler.c:907-994 | When a simulation has ended all processes, each was logged for exactly the ticks charged if and only if it is not the one loaded first, which is logged for one tick less |
| `JournalTicks.ThreeTicksLoggedAsTwo` | kernel/src/scheduler.c:907-966 | From scheduler_init: one job of 3 ticks is charged 3 and logged from 1 to 3 with duration 2 |
| `Simulation.SimulationConservesWork` | kernel/src/scheduler.c:907-1010 | Under all six policies, T simulated ticks leave exactly max(0, W - T) of the work W |
| `Simulation.SimulationKeepsAccounts` | kernel/src/scheduler.c:934-975 | At every moment, for each process, the ticks charged so far and those to come make its initial total |
| `Simulation.EverythingFinishes` | kernel/src/scheduler.c:951-973 | With enough ticks the terminated processes are exactly those queued, each charged exactly its work |
| `Simulation.SimulationTiles` | kernel/src/scheduler.c:959-994 | Within one simulation each logged interval starts where the previous one ended |
| `Simulation.SimulationDisciplined` | kernel/src/scheduler.c:907-1010 | Queued means READY and current means RUNNING throughout a simulation |
| `Simulation.NothingToSimulate` | kernel/src/scheduler.c:858-905 | With nobody queued the simulator does nothing on an idle CPU, and otherwise only clears the journal and loses the current process |
| `SimSchedule.SimulationOnSchedule` | kernel/src/scheduler.c:907-1010 | Under round robin and MLFQ, at every tick of a simulation: the journal holds exactly the turns of an independently computed schedule that have ended, the terminated processes are those that ended in them, and the process on the CPU is the one whose turn is next to end |
| `SimSchedule.RoundRobinFirstTurn` | kernel/src/scheduler.c:949-990 | Simulating round robin with whole slices, position k first gets the CPU at exactly the tick that gives each process ahead one turn of min(10, its work) ticks; until then one of those is on the CPU, in queue order |
| `SimSchedule.TurnsAreSlices` | kernel/src/scheduler.c:949-955 | In the schedule a turn in which the process does not end lasts exactly its slice, 10 under round robin and 5, 10 or 20 by level under MLFQ, and no turn is longer |
| `SimSchedule.IntervalsAreSlices` | kernel/src/scheduler.c:949-966 | So does every logged interval after the first with which no process ends |
| `SimSchedule.MlfqSimulatesByLevel` | kernel/src/scheduler.c:242-250 | Simulating MLFQ is round robin over level 0 with slices of 5 until all its processes have ended, then over level 1 with 10, then over level 2 with 20 |
| `SjfOptimality.UnslicedSimulation` | kernel/src/scheduler.c:907-1010 | FCFS, PRIORITY, SJF and SRTF simulations complete the queue one process after the other, in selection order, at the sums of their works |
| `SjfOptimality.OrderIsStableSort` | kernel/src/scheduler.c:124-240 | Selection order is a permutation of the queue, sorted by key, ties in queue order |
| `SjfOptimality.SjfIsOptimal` | kernel/src/scheduler.c:907-1010 | With remaining times equal to bursts: completions in nondecreasing burst order, ties in queue order, and no order of the same processes has a smaller sum of finish ticks |
| `SjfOptimality.SjfBeatsFcfs` | kernel/src/scheduler.c:907-1010 | The sum of finish ticks of the SJF simulation is at most that of the FCFS simulation of the same queue |
| `SjfOptimality.SjfOptimalIff` | kernel/src/scheduler.c:907-1010 | For any estimates, no order beats the SJF simulation if and only if no process of the queue with a smaller estimate, or an equal one further ahead, has more work |
| `SjfOptimality.UnslicedOptimalIff` | kernel/src/scheduler.c:907-1010 | The same for FCFS, PRIORITY, SJF and SRTF and their keys |
| `SjfOptimality.OrderSortedIff` | kernel/src/scheduler.c:124-240 | Selection order is sorted by work exactly when the key never puts a longer process first |
| `MisleadingEstimates.SjfIsMisled` | kernel/src/scheduler.c:144-160 | A run from scheduler_init after which it is not: under SRTF a process of 50 ticks is preempted with 48 left, one of 49 is queued behind it, the policy changes to SJF |
| `PolicyComparison.NoPolicyBeatsSorted` | kernel/src/scheduler.c:907-1010 | Under any of the six policies, preemptive ones included, a simulation that ends all processes has a sum of finish ticks at least that of the order sorted by work |
| `PolicyComparison.SjfBeatsAll` | kernel/src/scheduler.c:907-1010 | SJF has at most the sum of finish ticks of the simulation of the same queue under any policy it is changed to, round robin and MLFQ included |
| `PolicyComparison.RunPays` | kernel/src/scheduler.c:934-975 | At any moment of a simulation the clock is at least the work done so far, also when each process ended |
| `PolicyComparison.OnceIsSameStart` | kernel/src/scheduler.c:305-339 | What these two ask of pids holds in every scheduler that holds each process once |
| `SjfOptimality.SrtfIsOptimal` | kernel/src/scheduler.c:907-1010 | The SRTF simulation is optimal for any estimates |
| `SjfOptimality.FcfsOrder` | kernel/src/scheduler.c:210-212 | FCFS selection order is the queue itself |
| `FlowTime.OptimalIffSorted` | kernel/src/scheduler.c:907-1010 | An order of completion minimises the sum of finish ticks if and only if it is sorted by work |
| `FlowTime.SortedIsMinimal` | kernel/src/scheduler.c:907-1010 | A sorted order is at most as long as every permutation of it |
| `ProcessQueues.Queue.constructor` | kernel/src/scheduler.c:38-42 | A new queue is empty |
| `ProcessQueues.Queue.Enqueue` | kernel/src/scheduler.c:44-62 | Appends at the tail; NULL changes nothing; head, tail, count and links stay the spelling of the sequence |
| `ProcessQueues.Queue.Dequeue` | kernel/src/scheduler.c:64-80 | Takes the front out and returns it with its link cleared, NULL from an empty queue |
| `ProcessQueues.Queue.Remove` | kernel/src/scheduler.c:82-109 | Deletes one member wherever it is, keeping the order of the others; ignores non-members and NULL |
| `ProcessQueues.Queue.Unlink` | kernel/src/scheduler.c:99-108 | The bypass of one interior or last process |
| `ProcessQueues.Queue.Peek` | kernel/src/scheduler.c:111-113 | The front, or NULL |
| `ProcessQueues.Queue.IsEmpty` | kernel/src/scheduler.c:115-117 | True exactly for the empty sequence |
| `ProcessQueues.FindHighestPriority` | kernel/src/scheduler.c:124-141 | The earliest process of greatest priority |
| `ProcessQueues.FindShortestJob` | kernel/src/scheduler.c:144-160 | The earliest process of least burst time |
| `ProcessQueues.FindShortestRemaining` | kernel/src/scheduler.c:163-179 | The earliest process of least remaining time |
| `ProcessQueues.AdmitProcess` | kernel/src/scheduler.c:315-334 | The PCB assignments of scheduler_add_process, defaults included |
| `Scheduling.Scheduler.constructor` | kernel/src/scheduler.c:285-303 | A valid scheduler with empty queues, all processes outside it |
| `Scheduling.Scheduler.SelectNext` | kernel/src/scheduler.c:252-269 | Takes out of the linked queues the process that the model selects, and nothing else |
| `Scheduling.Scheduler.PutInQueue` | kernel/src/scheduler.c:542-547 | Appends to the queue of the policy and level |
| `Scheduling.Scheduler.MoveAll` | kernel/src/scheduler.c:574-590 | Moves a whole queue behind another in order |
| `Scheduling.Scheduler.MlfqBoost` | kernel/src/scheduler.c:386-406 | The boost on the linked queues is the model boost: level 0, then 1, then 2, refreshed; with the processes outside the scheduler it is the event BoostAll of the runs |
| `Scheduling.Scheduler.Migrate` | kernel/src/scheduler.c:573-592 | The moves of the policy change, without the new policy |
| `Scheduling.Scheduler.SetType` | kernel/src/scheduler.c:571-596 | The policy change on the linked queues is the model one, keeps the scheduler valid, and is the event ChangePolicy of the runs |
| `Scheduling.Scheduler.LogExecution` | kernel/src/scheduler.c:185-204 | Writes the entry into its slot of the array of 100 |
| `Scheduling.Scheduler.ChargeCurrent` | kernel/src/scheduler.c:430-442 | The four counters of one charged tick, with the 32-bit wrap of remaining_slice |
| `Scheduling.Scheduler.DecideSwitch` | kernel/src/scheduler.c:444-501 | Whether to switch under each policy, and the MLFQ demotion |
| `Scheduling.Scheduler.ContextSwitch` | kernel/src/scheduler.c:532-563 | Log, requeue, select and install: the model switch |
| `Scheduling.Scheduler.StepBusy` | kernel/src/scheduler.c:430-565 | The step with a process on the CPU |
| `Scheduling.Scheduler.StartIdle` | kernel/src/scheduler.c:417-428 | The step with an idle CPU |
| `Scheduling.Scheduler.Schedule` | kernel/src/scheduler.c:408-565 | scheduler_schedule on the heap is the model step, and keeps the scheduler valid |
| `Scheduling.Scheduler.TimerInterrupt` | kernel/src/timer.c:44-52 | One timer interrupt is the model tick and the event Timer of the runs |
| `Scheduling.Scheduler.Add` | kernel/src/scheduler.c:305-339 | scheduler_add_process; READY and RUNNING processes and NULL are left alone; the call is the event Add of the runs |
| `Scheduling.Scheduler.Remove` | kernel/src/scheduler.c:341-355 | Takes the process out of whichever queue holds it |
| `Scheduling.Scheduler.Block` | kernel/src/scheduler.c:357-369 | The process is out of every queue and BLOCKED; the scheduler is valid afterwards if and only if it was not the current one; the call is the event Block of the runs, also for the current process |
| `Scheduling.Scheduler.Unblock` | kernel/src/scheduler.c:371-384 | Only a BLOCKED process is admitted again; the call is the event Unblock of the runs |
| `Scheduling.Scheduler.SimStep` | kernel/src/scheduler.c:907-1010 | One iteration of the simulator loop is the model tick |
| `Scheduling.Scheduler.Simulate` | kernel/src/scheduler.c:853-1014 | The batch simulator is the model simulation; every process queued at the start ends queued, on the CPU or TERMINATED |
| `MemoryPool.FirstFitCorrect` | kernel/src/memory.c:49-70 | First fit returns the lowest start of n free blocks, and -1 exactly when there is none |
| `MemoryPool.AllocKeepsConsistent` | kernel/src/memory.c:113-148 | An allocation turns exactly the blocks of its region from free to used; counters stay equal to a recount |
| `MemoryPool.AllocFailsIff` | kernel/src/memory.c:118-128 | NULL exactly when no run of ceil(size/64) free blocks exists, for size + 63 below 2^32 |
| `MemoryPool.AllocReservesIff` | kernel/src/memory.c:118-147 | A returned pointer is backed by size reserved bytes if and only if size + 63 is below 2^32 |
| `MemoryPool.FreeKeepsConsistent` | kernel/src/memory.c:166-216 | kfree of any address keeps the counters equal to a recount |
| `MemoryPool.FreeUndoesAllocIff` | kernel/src/memory.c:195-216 | kfree restores the bitmap of before kmalloc if and only if at most one block was marked |
| `MemoryPool.RecountChangesNothing` | kernel/src/memory.c:218-223 | memory_get_stats changes nothing |
| `MemoryPool.FreeReleasesIff` | kernel/src/memory.c:166-216 | kfree does something if and only if it gets the address of a used block, and then frees that block alone |
| `MemoryPool.NothingGiven` | kernel/src/memory.c:113-128 | kmalloc of 0 bytes fails, and a failed kmalloc changes nothing |
| `MemoryPool.RunCountsCalls` | kernel/src/memory.c:113-216 | Over any run the two call counters are the numbers of pointers given and blocks released modulo 2^32 |
| `MemoryPool.RunKeepsCounters` | kernel/src/memory.c:113-223 | Over any run of calls: used equals a recount, used + free is 1024, and the peak is the greatest use ever reached |
| `MemoryPool.ReachableCounters` | kernel/src/memory.c:87-223 | The same from memory_init, with the peak exactly the greatest use |
| `MemoryPool.InitConsistent` | kernel/src/memory.c:87-111 | The pool of memory_init is consistent |
| `MemoryPool.HugeRequestSucceeds` | kernel/src/memory.c:118-147 | From memory_init, a request for 2^32 - 1 bytes gets a pointer to a block that stays free |
| `MemoryPool.SecondBlockLeaks` | kernel/src/memory.c:195-216 | From memory_init, 65 bytes allocated and freed leave one block used |
| `MemoryPool.ByteSet` | kernel/src/memory.c:28-32 | Setting one bit of one byte marks that block and no other |
| `MemoryPool.ByteCleared` | kernel/src/memory.c:35-39 | Clearing one bit of one byte frees that block and no other |
| `MemoryPool.Allocator.constructor` | kernel/src/memory.c:87-111 | The initial pool |
| `MemoryPool.Allocator.SetBlockUsed` | kernel/src/memory.c:28-32 | Marks one block |
| `MemoryPool.Allocator.SetBlockFree` | kernel/src/memory.c:35-39 | Frees one block |
| `MemoryPool.Allocator.IsBlockUsed` | kernel/src/memory.c:42-46 | Reads one block |
| `MemoryPool.Allocator.FindFreeBlocks` | kernel/src/memory.c:49-70 | The single scan computes first fit; asked for 0 blocks it answers as for 1 |
| `MemoryPool.Allocator.CountUsedBlocks` | kernel/src/memory.c:73-81 | The number of marked blocks |
| `MemoryPool.Allocator.Malloc` | kernel/src/memory.c:113-148 | kmalloc is the model allocation |
| `MemoryPool.Allocator.Release` | kernel/src/memory.c:166-216 | kfree is the model release, error cases included |
| `MemoryPool.Allocator.Stats` | kernel/src/memory.c:218-223 | The recounted statistics |
| `Mailboxes.PushAppends` | kernel/src/ipc.c:189-198 | Storing at the tail appends one message to the contents |
| `Mailboxes.PopDrops` | kernel/src/ipc.c:226-246 | Reading at the head removes the oldest message |
| `Mailboxes.RunIsFifo` | kernel/src/ipc.c:74-256 | After any run from ipc_init, for every active mailbox: the i-th message handed over since its creation is the i-th accepted, cut to 64 bytes and to the receiver's buffer, the ring holds the rest in order, tail is head plus count modulo 8, and sent minus received is count modulo 2^32 |
| `Mailboxes.NextKeepsFifo` | kernel/src/ipc.c:98-301 | One call, blocking or not, keeps that of every mailbox |
| `Mailboxes.OthersUntouched` | kernel/src/ipc.c:133-301 | A call on one id leaves every other mailbox as it was |
| `Mailboxes.CreateOpensEmpty` | kernel/src/ipc.c:98-131 | A new mailbox is empty, is found by its id and takes a free slot; a failed creation changes nothing |
| `Mailboxes.CodesOfMessages` | kernel/src/ipc.c:170-256 | The codes of mbox_send and mbox_recv hold exactly in their cases: no such mailbox, bad arguments, 8 messages held, none held; only a success changes anything or wakes anybody |
| `Mailboxes.CodesOfCreate` | kernel/src/ipc.c:98-116 | The codes of mbox_create hold exactly in their cases: no name, name taken, no free slot |
| `Mailboxes.RunKeepsNames` | kernel/src/ipc.c:98-131 | Over any run that creates under names of at most 15 characters no two active mailboxes share a name |
| `Mailboxes.SecondCreateRefusedIff` | kernel/src/ipc.c:103-121 | A second creation under the same name is refused as such if and only if the name has at most 15 characters |
| `Mailboxes.LongNameTwice` | kernel/src/ipc.c:103-121 | From ipc_init, the same name of 16 characters is created twice |
| `Mailboxes.BlockingCallsStillFail` | kernel/src/ipc.c:258-301 | Where the plain call fails for want of room or of a message, the blocking one registers and blocks its caller and fails with the same code |
| `Mailboxes.RunKeepsFifo` | kernel/src/ipc.c:98-301 | Any run of calls keeps that |
| `Mailboxes.InitialIsFifo` | kernel/src/ipc.c:74-96 | The table of ipc_init has the invariant |
| `MailboxWaiting.BlockingFailsIff` | kernel/src/ipc.c:258-301 | From ipc_init, with one mailbox created and n messages sent to it: a blocking send blocks its caller and still fails if and only if n is 8 or more, a blocking receive if and only if n is 0 |
| `MailboxWaiting.UnregisteredNeverWoken` | kernel/src/ipc.c:133-301 | Over any run of calls on any mailboxes, a process that none has registered and that makes no blocking call is never woken |
| `MailboxWaiting.SecondReceiverReplacesFirst` | kernel/src/ipc.c:280-301 | After two processes have blocked on an empty mailbox, the first is still registered if and only if it is the second, and the next message wakes the second alone |
| `MailboxWaiting.SecondSenderReplacesFirst` | kernel/src/ipc.c:258-278 | The same of two processes that wait for room in a full mailbox |
| `MailboxWaiting.FirstReceiverIsLost` | kernel/src/ipc.c:133-301 | The first of two different receivers is woken by nothing any more, unless it makes another blocking call itself |
| `MailboxWaiting.LostReceiverIsReachable` | kernel/src/ipc.c:280-301 | The run from ipc_init: create, receive by 1, receive by 2, send wakes 2, and nothing ever wakes 1 |
| `MailboxBlocks.BlocksAreAccountedFor` | kernel/src/ipc.c:133-301 | Over any run: the blocks of a process are its wake-ups, its registrations that are left, and those forgotten when another call registered in their place |
| `MailboxBlocks.ReachableWakeUps` | kernel/src/ipc.c:133-301 | From ipc_init no process is woken more often than blocked, and exactly as often if and only if no registration is left or was forgotten |
| `MailboxBlocks.DestroyWakesTheWaiter` | kernel/src/ipc.c:133-154 | In every reachable state a waiting sender means a full mailbox and a waiting receiver an empty one, and mbox_destroy wakes exactly the one that waits and frees the slot |
| `MailboxTable.MemCopy` | kernel/src/ipc.c:42-48 | Copies size bytes and touches no others |
| `MailboxTable.BoxTable.constructor` | kernel/src/ipc.c:74-96 | ipc_init |
| `MailboxTable.BoxTable.FindById` | kernel/src/ipc.c:51-58 | The first active mailbox with the id, or NULL |
| `MailboxTable.BoxTable.FindFreeSlot` | kernel/src/ipc.c:61-68 | The first inactive slot, or NULL |
| `MailboxTable.BoxTable.IsNameTaken` | kernel/src/ipc.c:104-108 | Whether an active mailbox has the name |
| `MailboxTable.BoxTable.Create` | kernel/src/ipc.c:98-131 | mbox_create is the model creation, with its codes |
| `MailboxTable.BoxTable.Destroy` | kernel/src/ipc.c:133-154 | mbox_destroy is the model one; both waiting processes are woken |
| `MailboxTable.BoxTable.Send` | kernel/src/ipc.c:170-208 | mbox_send is the model send, with its codes and the process it wakes |
| `MailboxTable.BoxTable.Recv` | kernel/src/ipc.c:210-256 | mbox_recv is the model receive; the buffer beyond the message is untouched |
| `MailboxTable.BoxTable.SendBlocking` | kernel/src/ipc.c:258-278 | mbox_send_blocking is the model one |
| `MailboxTable.BoxTable.RecvBlocking` | kernel/src/ipc.c:280-301 | mbox_recv_blocking is the model one |
| `MailboxTable.Box.Put` | kernel/src/ipc.c:189-205 | The statements that store a message, in place |
| `MailboxTable.Box.Get` | kernel/src/ipc.c:226-253 | The statements that hand a message over, in place |
| `Waiters.WaiterArray.Add` | kernel/src/sync.c:65-69 | Appends a waiter; drops it when eight wait (the semaphore twin is lines 109-113) |
| `Waiters.WaiterArray.Remove` | kernel/src/sync.c:71-85 | Takes the first waiter out by shifting the array (the semaphore twin is lines 115-129) |
| `Waiters.WaiterArray.WakeAll` | kernel/src/sync.c:396-402 | Wakes all waiters first come first (the mutex twin is lines 211-217) |
| `SyncTables.RunProjects` | kernel/src/sync.c:174-493 | In any run on a table, a mutex or semaphore that is not destroyed is what the operations with its own id, and no others, make of it |
| `SyncTables.OthersUntouched` | kernel/src/sync.c:174-493 | A call on one id leaves every other slot as it was |
| `SyncTables.CreateOpens` | kernel/src/sync.c:174-203 | A creation takes a free slot with a fresh id and is found by it; a failed one changes nothing (the semaphore twin is lines 359-388) |
| `SyncTables.RunKeepsTable` | kernel/src/sync.c:174-493 | Over any run of calls no two active slots share an id |
| `SyncTables.ApplyKeepsTable` | kernel/src/sync.c:174-493 | One call keeps that |
| `SyncTables.CodesOfCreate` | kernel/src/sync.c:174-203 | The codes of a creation hold exactly in their cases: no name, name taken, no free slot (the semaphore twin is lines 359-388) |
| `SyncTables.NotFoundIff` | kernel/src/sync.c:205-326 | An operation on an id of no active slot fails as such and changes nothing; any other is done on that slot (the semaphore twins are lines 390-493) |
| `SyncTables.RunKeepsNames` | kernel/src/sync.c:174-203 | Over any run that creates under names of at most 15 characters no two active slots share a name |
| `SyncTables.SecondCreateRefusedIff` | kernel/src/sync.c:180-191 | A second creation under the same name is refused as such if and only if the name has at most 15 characters |
| `Semaphores.ConservedInTable` | kernel/src/sync.c:359-493 | The counting invariant holds of every semaphore in the table from its creation until it is destroyed, whatever is done to the others |
| `Semaphores.RunConserves` | kernel/src/sync.c:427-493 | In every reachable state: value is initial + posts - decrements; waiters never exceed the debt of the value, and equal it if the initial value was not negative and nobody was dropped; processes are woken in the order they were queued; the statistics count the calls |
| `Semaphores.NextConserves` | kernel/src/sync.c:427-493 | One call keeps that |
| `Semaphores.PassesAreBounded` | kernel/src/sync.c:427-493 | At most initial + posts processes get past, and exactly all but the value left if nobody was dropped |
| `Semaphores.BlockedCallerQueuedIff` | kernel/src/sync.c:441-454 | A wait that blocks reports success, and its caller is queued, also a second time, if and only if fewer than eight wait |
| `Semaphores.CodesOfCounting` | kernel/src/sync.c:427-493 | Wait fails with -7 exactly on a value of 0 or less without a current process, trywait exactly on 0 or less, post never; a refused trywait changes nothing, and otherwise it is a wait |
| `Semaphores.OnlyEightAreWoken` | kernel/src/sync.c:109-129 | n waits on value 0 and n posts bring the value back to 0 with no waiter left, but wake everybody if and only if n is at most eight |
| `Semaphores.DestroyWakesTheRest` | kernel/src/sync.c:390-411 | Over any run that ends with its destruction a semaphore wakes every process it queued exactly once and in order, some by posts and the rest by the destruction, which frees the slot |
| `SemaphoreTable.SemTable.constructor` | kernel/src/sync.c:150-163 | The semaphore part of sync_init |
| `SemaphoreTable.SemTable.FindById` | kernel/src/sync.c:91-98 | The first active semaphore with the id, or NULL |
| `SemaphoreTable.SemTable.FindFree` | kernel/src/sync.c:100-107 | The first free slot, or NULL |
| `SemaphoreTable.SemTable.IsNameTaken` | kernel/src/sync.c:365-369 | Whether an active semaphore has the name |
| `SemaphoreTable.SemTable.Create` | kernel/src/sync.c:359-388 | sem_create is the model creation, with its codes |
| `SemaphoreTable.SemTable.Destroy` | kernel/src/sync.c:390-411 | sem_destroy is the model one; every waiter is woken in order and the slot freed |
| `SemaphoreTable.SemTable.Wait` | kernel/src/sync.c:427-455 | sem_wait is the model wait, with its codes and the block it asks for |
| `SemaphoreTable.SemTable.TryWait` | kernel/src/sync.c:457-470 | sem_trywait is the model one, with its codes |
| `SemaphoreTable.SemTable.Post` | kernel/src/sync.c:472-493 | sem_post is the model post, with the process it wakes |
| `Mutexes.RunHandsOff` | kernel/src/sync.c:242-326 | Over any run of lock, trylock and unlock: the owners so far followed by the waiters are the accepted requests in order; waiters exist only while the mutex is locked; every owner but the present one has been released; the statistics count the calls |
| `Mutexes.LockHandsOff` | kernel/src/sync.c:242-294 | Lock and trylock keep that |
| `Mutexes.UnlockHandsOff` | kernel/src/sync.c:296-326 | Unlock keeps that |
| `Mutexes.LockAcceptedIff` | kernel/src/sync.c:251-276 | A lock always reports success to a process and blocks it exactly when the mutex is locked; the request is accepted if and only if the mutex is free or fewer than eight wait, and its caller owns the mutex when the call returns if and only if the mutex was free |
| `Mutexes.CodesOfLocking` | kernel/src/sync.c:242-326 | Lock fails with -1 exactly on a locked mutex without a current process, trylock exactly on a locked one, unlock never; a refused trylock changes nothing, and otherwise it is a lock |
| `Mutexes.LockSucceedsTooEarly` | kernel/src/sync.c:251-276 | Two processes lock a new mutex: the second lock reports success while the first process owns it |
| `Mutexes.OnlyNineAreServed` | kernel/src/sync.c:65-85 | n locks of a new mutex and n unlocks leave it free with no waiter, but every process has owned it if and only if n is at most nine |
| `Mutexes.WaiterOwnsAfter` | kernel/src/sync.c:242-326 | Bounded waiting in any run of locks, trylocks and unlocks: a process with n others ahead of it moves up one place with each unlock and owns the mutex from the one numbered n + 1 until the next |
| `Mutexes.HandsOffInTable` | kernel/src/sync.c:174-326 | The hand-off invariant holds of every mutex in the table from its creation until it is destroyed, whatever is done to the others |
| `Mutexes.DestroyWakesTheRest` | kernel/src/sync.c:205-226 | Over any run that ends with its destruction a mutex serves every request it accepted exactly once and in order, some as owners and the rest woken by the destruction, which frees the slot |
| `MutexTable.LockTable.constructor` | kernel/src/sync.c:139-148 | The mutex part of sync_init |
| `MutexTable.LockTable.FindById` | kernel/src/sync.c:47-54 | The first active mutex with the id, or NULL |
| `MutexTable.LockTable.FindFree` | kernel/src/sync.c:56-63 | The first free slot, or NULL |
| `MutexTable.LockTable.IsNameTaken` | kernel/src/sync.c:180-184 | Whether an active mutex has the name |
| `MutexTable.LockTable.Create` | kernel/src/sync.c:174-203 | mutex_create is the model creation, with its codes |
| `MutexTable.LockTable.Destroy` | kernel/src/sync.c:205-226 | mutex_destroy is the model one; every waiter is woken in order and the slot freed |
| `MutexTable.LockTable.Lock` | kernel/src/sync.c:242-276 | mutex_lock is the model lock, with its codes and the block it asks for |
| `MutexTable.LockTable.TryLock` | kernel/src/sync.c:278-294 | mutex_trylock is the model one, with its codes |
| `MutexTable.LockTable.Unlock` | kernel/src/sync.c:296-326 | mutex_unlock is the model unlock, with the process it wakes |
| `KeyboardBuffer.InterruptedRunIsFifo` | kernel/src/keyboard.c:62-83 | With the handler running between any two statements of the reader, what was delivered followed by what is buffered is what was accepted, in order; at most 255 are held |
| `KeyboardBuffer.NextKeepsFifo` | kernel/src/keyboard.c:62-83 | One key or one statement keeps that; a key overwrites no unread character and is accepted if and only if fewer than 255 are held |
| `KeyboardBuffer.ReachableFifo` | kernel/src/keyboard.c:62-83 | From keyboard_init, delivered followed by buffered is exactly what found room |
| `KeyboardBuffer.InitIsFifo` | kernel/src/keyboard.c:192-196 | The state of keyboard_init has the invariant |
| `KeyboardBuffer.PutAppends` | kernel/src/keyboard.c:62-69 | buffer_put appends, or drops when full |
| `KeyboardBuffer.AdvanceDrops` | kernel/src/keyboard.c:80-82 | Advancing the read position drops the oldest character |
| `KeyboardBuffer.RoomIff` | kernel/src/keyboard.c:63-65 | There is room exactly for 255 characters |
| `KeyboardBuffer.Keyboard.BufferPut` | kernel/src/keyboard.c:62-69 | The array version of buffer_put |
| `KeyboardBuffer.Keyboard.BufferHasData` | kernel/src/keyboard.c:71-73 | True exactly when a character is pending |
| `KeyboardBuffer.Keyboard.BufferGet` | kernel/src/keyboard.c:75-83 | Without interruption: the oldest character, or 0 from an empty buffer |
| `Numbers.DigitsDenote` | kernel/src/printf.c:47-68 | The numeral of u denotes u in every base from 2 to 16, to a reader who knows only the letters of its case, and has no others |
| `Numbers.NoLeadingZero` | kernel/src/printf.c:60-68 | A numeral starts with 0 only for 0 |
| `Numbers.DigitsLength` | kernel/src/printf.c:60-68 | At most k digits exactly below base^k |
| `Numbers.ExtractDigits` | kernel/src/printf.c:60-68 | The extraction loop writes the digits from the least significant on |
| `Numbers.ReverseInPlace` | kernel/src/printf.c:76-85 | The two-pointer loop reverses the buffer |
| `Numbers.ReversedExtracted` | kernel/src/printf.c:60-85 | The reversed digits are the numeral |
| `Numbers.Itoa` | kernel/src/printf.c:43-88 | _itoa writes the printed form and its terminator, changes nothing after it, and returns the length |
| `Numbers.PrintedLength` | kernel/src/printf.c:43-88 | At most 11 characters for signed decimal, 10 for unsigned, 8 for hexadecimal |
| `Numbers.MostNegative` | kernel/src/printf.c:53-58 | The most negative value prints as its true magnitude under 32-bit wrap-around |
| `Numbers.SignedDecodes` | kernel/src/printf.c:53-72 | Signed decimal output is the sign and the magnitude |
| `Numbers.HexDecodes` | kernel/src/printf.c:47-88 | Base-16 output of a 32-bit word has the letters A to F when uppercase is set and a to f when not, and decodes to the word in that case alone |
| `Numbers.HexOf255` | kernel/src/printf.c:47 | 255 is FF in upper case and ff in lower case |
| `Numbers.StringToUint` | kernel/src/shell.c:77-84 | string_to_uint is the number of the leading digits modulo 2^32 |
| `Numbers.PrintThenParse` | kernel/src/shell.c:77-84 | Parsing what _itoa prints in base 10 gives the word back, for every 32-bit unsigned word, whatever non-digit follows |
| `Numbers.PrintParse` | kernel/src/printf.c:43-88 | The same through one buffer in memory |

## Left out

- SchedulerRuns.NextKeepsOnePlace: not claimed when the current process is blocked, because it is then false; `BlockKeepsOnePlaceIff` gives the exact condition.
- RoundRobinWait.RoundRobinExactWait: states runs that stay in round robin and block nobody, as a block ahead in the queue shortens the wait.
- MlfqFairness.NoStarvation: the waiting process itself must not be blocked, and no run blocks the current process.
- Journal.RunTiles: covers runs that block the current process only as far as the value layer does: it then holds two copies of one PCB, where the C code holds one PCB that is both current and queued. The same is true of `Journal.ReachableTiled`; on the heap such a run ends with `Scheduling.Scheduler.Block`, after which the scheduler is not valid.
- PolicyComparison.SjfBeatsAll: queued processes of one pid must have been charged the same so far, which holds when each process is held once (`OnceIsSameStart`).
- JournalTicks.LoggedIsCharged: states runs that do not block the current process, like `ReachableOnePlace`; its intervals are unbounded, and only `DurationsAreCharged` has the 32-bit durations.
- `process_create` on the heap: the event `Create` exists in the runs of values only, and the set of processes of a `Scheduler` object is fixed. The scheduler entry points are events of the runs; `scheduler_simulate` is not one, and is tied to `Simulation.Simulate`.
- Scheduling.Scheduler.Simulate: a process on the CPU at entry is lost, as in the code; the theorems about work count the processes queued at entry.
- NonPreemption.NeverPreempted: states runs without a change of policy and without a block of the current process, like `ReachableOnePlace`.
- MlfqOrder.NoOvertaking: states runs that block neither of the two processes, as an unblocked one starts again at the tail of level 0.
- SimSchedule.RoundRobinFirstTurn: starts from whole slices, as live round robin leaves them (`ReachableInTens`); `SimulationOnSchedule` has any.
- SimSchedule.IntervalsAreSlices: starts from whole slices; the first interval of a simulation is one tick short (`FinishedLogs`).
- `process_kill`, `process_exit` and the reuse of a PCB slot still in a queue: they do not touch the scheduler queues.
- 64-bit wrap-around of the tick counters, 32-bit wrap-around of the next process, mailbox, mutex and semaphore identifiers, and of a semaphore value: these are unbounded here. The queue count is a natural number.
- The branch of `scheduler_schedule` at lines 506-511: under PRIORITY and SRTF a switch is only ever decided with a better process waiting, so it cannot be reached.
- The loops over the three MLFQ levels are written out, one queue field a level.
- Saved register contexts, stacks and the actual transfer of control: a context switch changes `current_process` and PCB fields only, as in the code.
- The scheduler seen from the mailboxes, mutexes and semaphores: they report the calls they make to it as `Block` signals, with the pid, the `block_reason` and the identifier of the `block_resource`, and `Unblock` signals. In the scheduler `block_resource` is not modelled.
- Names are strings without NUL, compared and cut as values; the character loops of `str_compare` and `str_copy` are not modelled. Process names are cut to 15 characters in the journal.
- `mbox_find`, `mbox_count`, `mutex_find`, `sem_find` and `sem_getvalue`, which only read.
- The pools of memory themselves: a pointer is an offset, and `kcalloc` and the contents of allocated blocks are not modelled.
- Aliasing of a caller's buffer with the mailbox storage, which no caller can name.
- Scancode tables, modifier keys, `keyboard_getchar` and `keyboard_flush`; the handler is a producer of characters.
- `vprintf`, its formats and output, and bases above 16.
- The terminal, the shell and its commands, hardware set-up, interrupt entry code, all printing and test functions, and the commented-out simulator.
