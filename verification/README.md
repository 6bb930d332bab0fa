# Verification of the eOS kernel core

This project models the core of eOS, a small priority-preemptive real-time kernel for AArch64, and
proves what the kernel promises: tasks are where their status says, the highest-priority ready task
runs, sleeps end on their tick, semaphores conserve their counts, and message queues are FIFO
queues under any interleaving.  Where it does not keep a promise, the exact condition is proved. It
covers `core/task.c`, `core/scheduler.c`, `core/timer.c`, `core/sync.c`, `core/comm.c`, the lists and
the number and format printing of `core/common.c`, `copy_context` of `core/interrupt.c`, and the boot
sequence of `core/init.c`. All paths below are relative to the root of the repository.

`dafny verify dfyconfig.toml` checks the whole project with Dafny 4.11.

## How it is built

**Two layers.** `KernelState` is the kernel as a state machine on values: one function per C
function, saying what the call does to the tasks, queues, alarms and bitmap between two scheduling
points. `Kernel` is the kernel on the heap: control blocks, semaphores and alarms with embedded list
nodes, 64 heads of ready queues, the two-level bitmap. Each of its methods is the code of one C
function and is proved to do exactly what the function of `KernelState` says; `KernelReplay` puts
the methods together, so that what is proved of runs holds of the code.

**Lists.** `IntrusiveList` is the circular doubly linked list with `Node` and `Head` objects (a
`Head` is the cell a `_os_node_t **` points at). Many lists share one set of nodes, so the contracts
speak of a whole family of lists; `Queues` has the sequences they stand for. `ReadyBitmap` has the
map and unmap tables on 8-bit words.

**Runs.** `KernelInvariant` states the invariant, `KernelSteps` proves that every call keeps it,
`KernelRuns` defines the actions and runs from boot, and `KernelEffects` says of each call what it
does to the state and its queues. On runs stand `KernelSync` and `KernelCalls` (counts, lost
wake-ups), `KernelWindow` (the same with the blocking acquire open to interrupts), `KernelDoze` (the
alarms, with `eos_sleep` and the timed acquire open to interrupts), `KernelTiming` and
`KernelStranded` (sleeps and periods), `KernelSuspend` (suspended tasks), `KernelTurns` and
`KernelFairness` (round robin), `KernelWakeOrder` (who is woken first), and `KernelScenario` and
`KernelDozeRuns` (runs into what the kernel should not do).

**Messages, timers, text.** `MessageProtocol` runs any number of senders and receivers on the kernel
and on the byte ring of `MessageRing`, with their copies byte by byte; `MessageCalls` follows one call
through such a history to what it returns. `Timer` is `core/timer.c` for any counter and handlers that
set and cancel alarms, on values; `Counters` is its code on linked alarm blocks. `CopyContext`,
`NumberText` and `FormatText` stand on their own; `NumberMeaning` and `FormatMeaning` say what a reader
finds in the text they write.

## What is assumed

- A kernel call is atomic between two scheduling points. The C code opens interrupts inside some
  calls: `core/sync.c:40-42` (the deadline is read before interrupts are disabled), `core/sync.c:54-55`,
  `core/task.c:249-252` and `core/task.c:97-136`. `KernelWindow` models the second for acquires
  without a timeout; `KernelDoze` models the second for acquires with one, and the third, as far as
  alarms go. A tick at `core/sync.c:40-42` or in the last is not modelled.
- Sending and receiving a message are not atomic. A tick can come after each of their kernel calls
  and after each byte of a copy, and a release can be preempted between its increment and its
  wake-up. Between locking and restoring the scheduler a tick switches to no other task; that the
  task that has locked it is the only one in its critical section is proved (`ExclusiveStep`).
- A context switch is the change of the current task. What a task's saved stack holds of a kernel
  call is its `pc`: blocked or woken in an acquire with its local variables, or between the two
  halves of a release.
- Callers keep to what `KernelRuns.Enabled` says: control blocks start zeroed and are not reused,
  pointers are not NULL, the idle task never blocks and is never suspended, deadlines fit 32 bits,
  semaphores start between 0 and 127 and are not released at 127. A zeroed status is none of the
  four constants; the model writes SUSPENDED for it until the task is READY.

## What is false of the code

Where the code does not do what its design promises, the model does what the code does, and the
exact condition is proved.

- A tick can follow a NULL pointer. `_os_wakeup_from_queue` (`core/task.c:300-316`) leaves the alarm
  of a timed waiter armed and its owner recorded; if the alarm falls due while the task is READY and
  first in its ready queue, `_os_wakeup_from_alarm_queue` (`core/task.c:325-340`) removes the node
  through the wrong head and appends to a list whose first node has no links. `TickKeeps` proves
  that a tick faults if and only if that is so (`TickHits`), `AlarmBreaksQueue` shows the broken
  heap, `TimedAcquireCanFault` is a run of twelve calls from boot that ends there, and `UntimedRun`
  proves that no run without a positive acquire timeout ever does.
- A wake-up can be lost at a deadline. A timed waiter that was woken for a unit of the count and runs
  only at or after its deadline gives up without passing the unit on (`core/sync.c:57-60`).
  `StepSync` proves that every unit stays covered if and only if the step is not such a give-up with
  another task waiting and nobody else on the way (`LosesWakeup`); `WakeupCanBeLost` is a run from
  boot to such a step, after which a task waits on a count of 1 with nobody on the way.
- A wake-up can be lost without any deadline. `eos_acquire_semaphore` tests the count with
  interrupts disabled but restores them before it joins the wait queue (`core/sync.c:54-55`). A
  release in between finds the queue empty and wakes nobody. `OpenSync` proves that joining is
  harmless if and only if the count is not greater than the number of tasks already on their way
  (`LosesInWindow`), `UntimedOpenRun` that without timeouts this is the only way to lose a wake-up,
  and `WakeupCanBeLostInWindow` is a run from boot that loses one.
- `eos_sleep(0)` by a task without a period sets no alarm, and the task never runs again
  (`SleepStrands`, `StrandedForever`); `SleeperCanBeStranded` is a run of six calls from boot.
- A sleep can miss its alarm. `eos_sleep` arms the alarm and only then writes the status
  (`core/task.c:249-252`), and a timed acquire arms it before it joins the wait queue
  (`core/sync.c:48-55`). `AlarmOrTooLate` proves, for any run without a faulting tick, that the task
  ends up waiting with its alarm armed if and only if the tick it waits for has not come in between;
  `SleepCanMissItsAlarm` is a run of eight from boot that ends with the task waiting for no alarm.
- A sleep can break a ready queue. When the task is preempted in that window and its alarm falls due,
  `_os_wakeup_from_alarm_queue` appends its node to the ready queue it is on. `AddNodeAgain` proves
  that this leaves the list whole if and only if the node is alone on it, `PreemptedFaults` says at
  which tick it happens, and `SleepCanBreakTheQueue` is a run of nine from boot. `UntimedRun` and
  `UntimedOpenRun` take `eos_sleep` to be atomic.
- A suspended task can become ready without `eos_resume_task`. A task woken from a timed acquire and
  suspended before it runs has its alarm still armed (`core/task.c:300-316`, `core/task.c:200-204`).
  `StaysSuspended` proves that a task without an armed alarm stays suspended until it is resumed,
  `SuspendedUntilAlarm` that one with an alarm stays so exactly until its tick, and `SuspendedCanWake`
  is a run of thirteen from boot.
- `eos_change_priority` does not reorder a wait queue. `StepSorted` gives the exact condition under
  which the priority order survives (`Misplaces`), and `WaiterCanBeMisplaced` is a run from boot to a
  call that breaks it.
- A count is an `int8s_t`: a message queue of more than 127 slots starts with a wrong count
  (`PutCountRight`), and a release at 127 wraps (`ReleasedConserved`).
- A deadline that wraps 32 bits is due at once, and a handler that sets its own alarm so keeps
  `eos_trigger_counter` in its loop for ever (`WrappingNeverEnds`).

That `copy_context` needs both its loops is shown by `ForwardRight`: a forward copy alone would be
wrong for overlapping contexts.

## Model

| member | source | states |
|---|---|---|
| Queues.InsertOrderedStable | eos_aarch64/core/common.c:42-66 | insertion in order keeps a sorted queue sorted, and the newcomer stands behind all equals and before all greater |
| IntrusiveList.Splice | eos_aarch64/core/common.c:57-60 | the four pointer writes, pointwise: which links of which nodes change, and nothing else |
| IntrusiveList.AddNodeTail | eos_aarch64/core/common.c:26-38 | on the heap, appends a detached node to its list; heads, links and all other lists stay whole and unchanged |
| IntrusiveList.AddNodeAgain | eos_aarch64/core/common.c:26-38 | appending a node to the list it is on leaves the lists whole if and only if it is alone there, and then changes no link |
| IntrusiveList.FindPlace | eos_aarch64/core/common.c:51-55 | the walk ends on every circle, at the first node of greater order value or back at the head |
| IntrusiveList.AddNodeOrdered | eos_aarch64/core/common.c:42-66 | inserts a detached node before the first of greater order value, moving the head when that is the first; other lists unchanged |
| IntrusiveList.Detach | eos_aarch64/core/common.c:75-85 | the pointer writes of a removal, pointwise |
| IntrusiveList.RemoveNode | eos_aarch64/core/common.c:69-88 | returns 0 and changes nothing on a detached node; otherwise the node leaves its list, and all lists are whole if and only if the head was its own or the node was not first |
| ReadyBitmap.UnmapIsLowestBit | eos_aarch64/core/scheduler.c:30-47 | the unmap table gives the position of the lowest set bit of every non-zero byte |
| ReadyBitmap.MapTable | eos_aarch64/core/scheduler.c:21-22 | entry i of the map table has exactly bit i set |
| ReadyBitmap.SetAdds | eos_aarch64/core/scheduler.c:111-118 | setting the two bits marks exactly one more priority and keeps group and table in agreement |
| ReadyBitmap.ClearRemoves | eos_aarch64/core/scheduler.c:121-129 | clearing removes exactly that priority, and the group bit goes exactly when the byte is zero |
| ReadyBitmap.LookupIsLeast | eos_aarch64/core/scheduler.c:103-108 | the two table lookups give the least marked priority, and 0 when nothing is marked |
| ReadyBitmap.ReadyIndex.SetReady | eos_aarch64/core/scheduler.c:111-118 | the in-place code adds the priority to the marked set |
| ReadyBitmap.ReadyIndex.UnsetReady | eos_aarch64/core/scheduler.c:121-129 | the in-place code removes the priority from the marked set |
| ReadyBitmap.ReadyIndex.GetHighestPriority | eos_aarch64/core/scheduler.c:103-108 | returns the least marked priority |
| KernelState.HighestFrom | eos_aarch64/core/scheduler.c:103-108 | the result is marked and no greater than any marked priority, when there is one |
| KernelInvariant.DispatchFinds | eos_aarch64/core/task.c:123-125 | the queue the bitmap selects is never empty, because the idle task is ready |
| KernelInvariant.DispatchHighest | eos_aarch64/core/task.c:122-134 | after a dispatch no READY task outranks the running one |
| KernelInvariant.ScheduleKeeps | eos_aarch64/core/task.c:88-139 | eos_schedule finds a task, keeps the core invariant, and with the scheduler unlocked leaves nobody outranked |
| KernelInvariant.ScheduleOnlyWakes | eos_aarch64/core/task.c:88-139 | eos_schedule puts no task to sleep and changes nothing of a task but its status |
| KernelInvariant.PickFromAnywhere | eos_aarch64/core/task.c:330-334 | unlinking a task through its owner leaves every other task in place and the bitmap right, unless it is READY and first |
| KernelSteps.CreateKeeps | eos_aarch64/core/task.c:34-79 | creating a task keeps the kernel invariant |
| KernelSteps.ChangePriorityKeeps | eos_aarch64/core/task.c:148-170 | changing a priority keeps it |
| KernelSteps.SuspendKeeps | eos_aarch64/core/task.c:193-207 | suspending any task but the idle one keeps it |
| KernelSteps.ResumeKeeps | eos_aarch64/core/task.c:210-223 | resuming keeps it |
| KernelSteps.PeriodKeeps | eos_aarch64/core/task.c:179-184 | setting a period and release time keeps it |
| KernelSteps.SleepKeeps | eos_aarch64/core/task.c:226-256 | sleeping keeps it, with the alarm exactly on the sleepers |
| KernelSteps.InitSemaphoreKeeps | eos_aarch64/core/sync.c:12-22 | a new semaphore keeps it |
| KernelSteps.AcquireKeeps | eos_aarch64/core/sync.c:25-55 | acquiring, failing or starting to wait keeps it |
| KernelSteps.RetryKeeps | eos_aarch64/core/sync.c:57-75 | the round after a wake-up keeps it, whether it gives up, takes a unit or waits again |
| KernelSteps.ReleaseKeeps | eos_aarch64/core/sync.c:86-88 | the increment keeps it |
| KernelSteps.WakeFromQueueKeeps | eos_aarch64/core/task.c:300-316 | waking the first waiter keeps it |
| KernelSteps.WakeKeeps | eos_aarch64/core/sync.c:89-92 | the wake-up of a release keeps it |
| KernelSteps.LockKeeps | eos_aarch64/core/scheduler.c:50-58 | locking the scheduler keeps it |
| KernelSteps.RestoreKeeps | eos_aarch64/core/scheduler.c:61-67 | restoring the scheduler keeps it |
| KernelSteps.FireOneKeeps | eos_aarch64/core/timer.c:82-83 | one round of the tick loop keeps the loop invariant when the alarm does not hit a READY first task |
| KernelSteps.FireDueExact | eos_aarch64/core/timer.c:77-89 | the loop ends with no alarm due, and faults if and only if some due alarm meets a READY first task at its start |
| KernelSteps.FireDueEffect | eos_aarch64/core/timer.c:77-89 | per task: exactly the due alarms leave the queue, and exactly their tasks become READY without owner |
| KernelSteps.TickKeeps | eos_aarch64/core/timer.c:61-92 | a tick faults if and only if TickHits; otherwise it keeps the kernel invariant |
| KernelEffects.CreateStep | eos_aarch64/core/task.c:34-79 | creating refuses priorities above 63 and stacks below 1024 bytes and changes nothing then; otherwise the new task stands READY at the tail of its queue when eos_schedule is called |
| KernelEffects.PriorityStep | eos_aarch64/core/task.c:148-170 | changing refuses priorities above 63; otherwise the task has the new one, a READY task has moved to the tail of its new queue, and nothing else differs when eos_schedule is called |
| KernelEffects.ResumeStep | eos_aarch64/core/task.c:210-223 | a SUSPENDED task stands READY at the tail of its queue when eos_schedule is called; on any other task nothing happens |
| KernelEffects.PeriodStep | eos_aarch64/core/task.c:179-184 | the period is set and the release time is the present tick, nothing else changes |
| KernelEffects.SleepReturns | eos_aarch64/core/task.c:229-247 | a sleep with the scheduler locked does nothing, and one until a release that has passed only counts the release |
| KernelEffects.SleepWaits | eos_aarch64/core/task.c:226-256 | any other sleep leaves the caller WAITING with its alarm in its place for tick + n or the next release, without one for 0 and no period, and nothing else changed when eos_schedule is called |
| KernelEffects.AcquireTakes | eos_aarch64/core/sync.c:43-75 | unlocked and with a positive count an acquire takes one unit whatever its timeout, and nothing else changes |
| KernelEffects.AcquireFails | eos_aarch64/core/sync.c:34-47 | locked, or with a negative timeout and no unit, it changes nothing |
| KernelEffects.AcquireWaits | eos_aarch64/core/sync.c:43-55 | otherwise the caller joins the wait queue by its type, with its alarm in its place exactly for a positive timeout, and nothing else has changed when eos_schedule is called |
| KernelEffects.AcquirerWaits | eos_aarch64/core/sync.c:43-55 | after such an acquire the caller is WAITING in that queue, does not run, and its alarm is due timeout ticks later |
| KernelEffects.RetryGivesUp | eos_aarch64/core/sync.c:57-60 | a task that runs again at or after its deadline leaves the acquire whatever the count, with alarm and counts as they are |
| KernelEffects.RetryTakesUnit | eos_aarch64/core/sync.c:62-73 | before it, with a unit there, it takes the unit and its alarm off the queue |
| KernelEffects.RetryWaits | eos_aarch64/core/sync.c:53-64 | before it, with none there, it joins the wait queue again by its type, with the alarm it has |
| KernelEffects.ReleaseStep | eos_aarch64/core/sync.c:86-88 | a release adds one unit and nothing else |
| KernelEffects.WakeStep | eos_aarch64/core/sync.c:89-92 | then the first waiter, if any, stands READY at the tail of its ready queue when eos_schedule is called, with owner and alarm as they are |
| KernelEffects.InitStep | eos_aarch64/core/sync.c:12-22 | a new semaphore has the count and type asked for and an empty wait queue |
| KernelEffects.LockStep | eos_aarch64/core/scheduler.c:50-58 | locking sets the lock and nothing else |
| KernelEffects.RestoreStep | eos_aarch64/core/scheduler.c:61-67 | restoring sets the lock as given and calls eos_schedule, which does nothing when that is locked |
| KernelRuns.BootHolds | eos_aarch64/core/init.c:21-37 | boot establishes the kernel invariant |
| KernelRuns.StepKeeps | eos_aarch64/core/task.c:34-340 | every call and tick keeps the invariant and faults only as TickKeeps says |
| KernelRuns.RunKeeps | eos_aarch64/core/task.c:34-340 | the invariant holds in every state of every run from boot without such a tick |
| KernelRuns.OnePlace | eos_aarch64/core/task.c:34-340 | each task is in exactly one place, told by its status, priority and owner, both directions |
| KernelRuns.NoDuplicates | eos_aarch64/core/task.c:71-72 | no queue holds a task twice |
| KernelRuns.NobodyOutranksCurrent | eos_aarch64/core/task.c:88-139 | with the scheduler unlocked a task runs, no READY task outranks it, and the next eos_schedule finds a task |
| KernelSync.StepSync | eos_aarch64/core/sync.c:43-94 | a step keeps counts conserved and every unit on its way to a waiter if and only if it does not lose a wake-up |
| KernelSync.RunSync | eos_aarch64/core/sync.c:43-94 | so do all states of a run without such a step |
| KernelSync.UntimedRun | eos_aarch64/core/sync.c:43-94 | when calls are atomic between scheduling points and no acquire has a positive timeout, every state of every run satisfies the invariant, never faults and loses no wake-up; KernelWindow has the window at line 54 |
| KernelSync.WakeWakesOne | eos_aarch64/core/sync.c:89-92 | a release wakes the first waiter when there is one and moves nobody else |
| KernelWindow.HalvesMakeTheCall | eos_aarch64/core/sync.c:43-55 | with nothing in the window, testing the count and joining the queue are the blocking acquire |
| KernelWindow.OpenKeeps | eos_aarch64/core/sync.c:54-55 | with the window open, every call and tick keeps the kernel invariant |
| KernelWindow.JoinSync | eos_aarch64/core/sync.c:54-55 | a task that joins the wait queue leaves every unit covered if and only if the count is at most the tasks on their way |
| KernelWindow.OpenSync | eos_aarch64/core/sync.c:43-94 | with the window open, a move keeps counts and covered wake-ups if and only if it loses none, in the window or at a deadline |
| KernelWindow.OpenRun | eos_aarch64/core/sync.c:43-94 | so do all states of a run of such moves |
| KernelWindow.UntimedOpenRun | eos_aarch64/core/sync.c:43-94 | without timeouts no run faults, and no wake-up is lost unless some task joins in the window with too few tasks on their way |
| KernelCalls.StepEffect | eos_aarch64/core/sync.c:25-94 | a step moves only the running task in its code, and changes a semaphore only by acquiring or releasing it |
| KernelCalls.ReleasedConserved | eos_aarch64/core/sync.c:87 | the 8-bit count stays right through a release if and only if it is below 127 |
| KernelCalls.CountConserved | eos_aarch64/core/sync.c:43-87 | a step keeps count = initial + releases - acquires and 0 <= count, through blocking, timeouts and failures |
| KernelCalls.CountsConserved | eos_aarch64/core/sync.c:12-94 | so does every state of every run |
| KernelScenario.TimedAcquireCanFault | eos_aarch64/core/task.c:325-340 | a run of twelve calls from boot with one timed acquire that ends in a fault |
| KernelScenario.WakeupCanBeLost | eos_aarch64/core/sync.c:57-60 | a run of fourteen from boot whose last step loses a wake-up: a task waits on a count of 1 and nobody is on the way |
| KernelScenario.SleeperCanBeStranded | eos_aarch64/core/task.c:235-252 | a run of six from boot that ends in eos_sleep(0) and a task that waits for no alarm |
| KernelScenario.SuspendedCanWake | eos_aarch64/core/task.c:300-340 | a run of thirteen from boot in which a suspended task becomes ready without being resumed |
| KernelScenario.WaiterCanBeMisplaced | eos_aarch64/core/task.c:148-170 | a run of ten from boot after which a PRIORITY wait queue is out of order |
| KernelScenario.WakeupCanBeLostInWindow | eos_aarch64/core/sync.c:54-55 | a run of thirteen from boot, without any timeout, that loses a wake-up in the window |
| KernelDoze.HalvesMakeTheSleep | eos_aarch64/core/task.c:226-256 | with nothing in the window, arming the alarm and then waiting are eos_sleep |
| KernelDoze.HalvesMakeTheAcquire | eos_aarch64/core/sync.c:43-55 | with nothing in the window, arming the alarm and then joining the queue are the timed acquire |
| KernelDoze.TickAlarms | eos_aarch64/core/timer.c:61-92 | in any state with a sorted alarm queue, a tick that does not fault fires exactly the alarms due by then and moves no deadline |
| KernelDoze.HitFaults | eos_aarch64/core/task.c:325-340 | whatever other alarms fire first, the loop faults on a due alarm whose READY task was hit when it started |
| KernelDoze.GapKeeps | eos_aarch64/core/timer.c:28-92 | with both windows open, every move but a faulting tick keeps the alarm queue sorted and each task in a window armed exactly until its deadline |
| KernelDoze.FinishedWithAlarm | eos_aarch64/core/task.c:249-252 | a task that leaves the window waits with its alarm armed if and only if its deadline is still ahead |
| KernelDoze.PreemptedFaults | eos_aarch64/core/task.c:325-340 | the tick at which the alarm of a task that is READY in the window falls due faults when the task has no owner and is not alone in its ready queue, or has a stale owner and is first there |
| KernelDoze.AlarmOrTooLate | eos_aarch64/core/task.c:249-256 | over any run without a faulting tick, whatever comes between the start and the end of the call: the task waits with its alarm armed if and only if the tick it is due at has not come |
| KernelDozeRuns.SleepCanMissItsAlarm | eos_aarch64/core/task.c:249-252 | a run of eight from boot after which a task sleeps without an alarm, though it asked for one tick |
| KernelDozeRuns.SleepCanBreakTheQueue | eos_aarch64/core/task.c:249-252 | a run of nine from boot whose last tick breaks the ready queue of a task preempted in eos_sleep(2) |
| KernelTiming.CallFramed | eos_aarch64/core/task.c:34-256 | no call but a task's own changes its alarm, and release times change only as documented |
| KernelTiming.TickFires | eos_aarch64/core/timer.c:61-92 | what a tick does to one task |
| KernelTiming.SleepStep | eos_aarch64/core/task.c:226-256 | a sleeper sleeps through every step but the tick it asked for, and that tick readies it |
| KernelTiming.SleepEndsOnTime | eos_aarch64/core/task.c:226-256 | over whole runs: asleep before its tick, ready or running from exactly that tick |
| KernelTiming.CallFallsAsleep | eos_aarch64/core/task.c:226-256 | an eos_sleep that does not return at once leaves its caller asleep until tick + n, or until the next release when n is 0 |
| KernelTiming.SleepReturnsOnTime | eos_aarch64/core/task.c:226-256 | over whole runs, from the call: asleep before that tick, and ready or running at exactly that tick |
| KernelTiming.NoDrift | eos_aarch64/core/task.c:238-245 | after k calls of eos_sleep(0) the release time is that of eos_set_period plus k periods, in any run |
| KernelTiming.CatchUp | eos_aarch64/core/task.c:238-249 | at a fixed tick exactly (tick - release) / period late calls return at once, and the next one sleeps until the following release |
| KernelSuspend.SuspendSuspends | eos_aarch64/core/task.c:193-207 | in any run: a READY task that is suspended is SUSPENDED and on no ready queue, its queue closes the gap in order, the bit agrees, and nothing else changes; on any other task nothing happens |
| KernelSuspend.SuspendedStep | eos_aarch64/core/task.c:34-340 | no step but its resume, or the tick its alarm is due at, changes that a task is suspended |
| KernelSuspend.StaysSuspended | eos_aarch64/core/task.c:193-223 | in any run a suspended task without an armed alarm stays suspended and is never the current one until it is resumed |
| KernelSuspend.SuspendedUntilAlarm | eos_aarch64/core/task.c:325-340 | in any run a suspended task with an armed alarm stays suspended exactly until the tick of the alarm, which makes it ready |
| KernelStranded.SleepStrands | eos_aarch64/core/task.c:235-252 | a sleep leaves its caller without any alarm if and only if it is eos_sleep(0) without a period |
| KernelStranded.StrandedForever | eos_aarch64/core/task.c:226-256 | such a task never becomes ready again in any run |
| KernelTurns.OneTurn | eos_aarch64/core/task.c:88-139 | eos_schedule turns the ring of the running priority by one, and changes nothing when the ring is one task |
| KernelTurns.RoundRobin | eos_aarch64/core/task.c:88-139 | k calls turn it by k |
| KernelTurns.EverybodyRuns | eos_aarch64/core/task.c:88-139 | the task at position i runs after i + 1 calls, and n calls restore the state |
| KernelTurns.TicksTakeTurns | eos_aarch64/core/timer.c:61-92 | the same with ticks when no alarm falls due, and n ticks change only the time |
| KernelFairness.HandedPrepared | eos_aarch64/core/task.c:88-139 | in which state each call invokes eos_schedule, and that the core invariant holds there |
| KernelFairness.StepAdvances | eos_aarch64/core/task.c:88-139 | any step that calls the unlocked scheduler brings a ready task one place forward or runs it, and no other step puts it back |
| KernelFairness.RunsWithinItsPlace | eos_aarch64/core/task.c:88-139 | in any run a task at position k of its ready queue runs within k + 1 unlocked eos_schedule calls, while nobody outranks it and nothing moves it |
| KernelWakeOrder.QueueMoves | eos_aarch64/core/task.c:273-340 | a step makes the running task join a wait queue by its type, or leaves the others in the order they had |
| KernelWakeOrder.StepSorted | eos_aarch64/core/task.c:148-170 | a step keeps all PRIORITY wait queues sorted if and only if it does not give a waiter a priority its place does not fit |
| KernelWakeOrder.WakeOrder | eos_aarch64/core/task.c:283-316 | in every run that rerates no waiter, FIFO queues are in order of arrival and PRIORITY queues by priority, equals in order of arrival |
| KernelWakeOrder.WokenIsAhead | eos_aarch64/core/task.c:303-313 | the task a release wakes is the one all other waiters are behind |
| KernelWakeOrder.WakeRank | eos_aarch64/core/sync.c:89-92 | a release takes exactly the first waiter off its queue |
| Kernel.Tcb.Init | eos_aarch64/core/task.c:55-63 | the fields eos_create_task writes |
| Kernel.Kernel.constructor | eos_aarch64/core/init.c:24-33 | the initialised modules are the empty kernel state, with the scheduler locked |
| Kernel.Kernel.Boot | eos_aarch64/core/init.c:21-37 | the code of boot reaches the boot state |
| Kernel.Kernel.WhereTheNodeIs | eos_aarch64/core/task.c:34-340 | on the heap: which list each task's node is linked into, by status, and that all others are detached |
| Kernel.Kernel.IndexAgrees | eos_aarch64/core/scheduler.c:103-129 | the bit of a priority is set if and only if its ready queue is not empty, and a group bit if and only if its byte is not zero |
| Kernel.Kernel.Append | eos_aarch64/core/task.c:71-72 | on the heap, a detached task joins the tail of a ready queue and the bit is set |
| Kernel.Kernel.LeaveReady | eos_aarch64/core/task.c:128-130 | a READY task leaves its queue, and the bit goes with the last one |
| Kernel.Kernel.Dispatch | eos_aarch64/core/task.c:122-134 | the first task of the queue the bitmap selects runs; no NULL is followed |
| Kernel.Kernel.Schedule | eos_aarch64/core/task.c:88-139 | the heap code does exactly KernelState.Schedule and stays whole |
| Kernel.Kernel.CreateTask | eos_aarch64/core/task.c:34-79 | exactly KernelState.Create, with the result code, including the rejected arguments |
| Kernel.Kernel.ChangePriority | eos_aarch64/core/task.c:148-170 | exactly KernelState.ChangePriority |
| Kernel.Kernel.SuspendTask | eos_aarch64/core/task.c:193-207 | exactly KernelState.Suspend; a READY control block becomes SUSPENDED and any other keeps its status |
| Kernel.Kernel.ResumeTask | eos_aarch64/core/task.c:210-223 | exactly KernelState.Resume |
| Kernel.Kernel.SetPeriod | eos_aarch64/core/task.c:179-184 | exactly KernelState.SetPeriod |
| Kernel.Kernel.SetAlarm | eos_aarch64/core/timer.c:28-52 | exactly KernelState.SetAlarm on a task's own alarm |
| Kernel.Kernel.Sleep | eos_aarch64/core/task.c:226-256 | exactly KernelState.Sleep, with 32-bit arithmetic |
| Kernel.Kernel.WaitInQueue | eos_aarch64/core/task.c:273-297 | exactly KernelState.Enqueue followed by Schedule |
| Kernel.Kernel.WakeupFromQueue | eos_aarch64/core/task.c:300-316 | exactly KernelState.WakeFromQueue, nothing on an empty queue |
| Kernel.Kernel.WakeupFromAlarmQueue | eos_aarch64/core/task.c:325-340 | exactly KernelState.WakeFromAlarm for every task it does not fault on, also through a stale owner |
| Kernel.Kernel.AlarmBreaksQueue | eos_aarch64/core/task.c:330-336 | in the faulting case the ready queue is left led by a node whose links are NULL |
| Kernel.Kernel.FireAllDue | eos_aarch64/core/timer.c:75-90 | the loop ends and does exactly KernelState.FireDue |
| Kernel.Kernel.TriggerCounter | eos_aarch64/core/timer.c:61-92 | exactly KernelState.Tick |
| Kernel.Kernel.InitSemaphore | eos_aarch64/core/sync.c:12-22 | exactly KernelState.InitSemaphore, with the 8-bit count |
| Kernel.Kernel.AcquireSemaphore | eos_aarch64/core/sync.c:25-75 | exactly KernelState.Acquire up to the return or the switch; it succeeds at once exactly when unlocked with a positive count, and fails exactly when locked or with no unit and a negative timeout |
| Kernel.Kernel.RetryAcquire | eos_aarch64/core/sync.c:57-75 | exactly KernelState.Retry; it fails exactly at or after the deadline of a timed acquire, and succeeds exactly before that with a positive count |
| Kernel.Kernel.ReleaseSemaphore | eos_aarch64/core/sync.c:86-88 | exactly KernelState.Release |
| Kernel.Kernel.WakeWaiter | eos_aarch64/core/sync.c:89-94 | exactly KernelState.Wake |
| Kernel.Kernel.LockScheduler | eos_aarch64/core/scheduler.c:50-58 | locks and returns the previous state |
| Kernel.Kernel.RestoreScheduler | eos_aarch64/core/scheduler.c:61-67 | exactly KernelState.Restore |
| KernelReplay.Perform | eos_aarch64/core/task.c:34-340 | the code of any allowed action does its step and keeps the invariant |
| KernelReplay.Replay | eos_aarch64/core/init.c:21-49 | booted and given the actions of any run, the heap code ends valid in the state the run ends in |
| Timer.AlarmSetOrder | eos_aarch64/core/timer.c:37-50 | an alarm that is set stands behind all that fall due no later and before all others, whose order stays |
| Timer.AheadUnlessWrapped | eos_aarch64/core/timer.c:43 | a deadline lies ahead if and only if tick + timeout does not wrap 32 bits |
| Timer.FiresTheDue | eos_aarch64/core/timer.c:75-90 | with any handlers, the loop fires the due alarms in order, less those an earlier handler cancelled or re-armed, and ends with none due |
| Timer.FiredInOrder | eos_aarch64/core/timer.c:75-90 | no alarm fires twice, and the due alarms fire in the order in which they stand in the queue |
| Timer.FireLeavesAhead | eos_aarch64/core/timer.c:75-90 | after the loop every queued alarm lies ahead |
| Timer.FireUntouched | eos_aarch64/core/timer.c:77-89 | an alarm no handler touches fires if and only if it is due, and stays if and only if it is not |
| Timer.WrappingNeverEnds | eos_aarch64/core/timer.c:77-89 | a handler that sets its own alarm with a timeout that wraps keeps the loop going for ever |
| Timer.AheadInEveryHistory | eos_aarch64/core/timer.c:28-92 | between any two events of any history from a new counter every queued alarm lies ahead |
| Timer.QueuedUntilDue | eos_aarch64/core/timer.c:28-92 | over any history: a queued alarm left alone, whoever armed it, keeps its deadline, is queued exactly while the tick is below it, and is fired by exactly the tick that reaches it |
| Timer.FireLast | eos_aarch64/core/timer.c:77-89 | an alarm that handlers set or re-set inside a tick ends the tick as the last of them asked: queued for tick + timeout, or cancelled |
| Timer.FiresOnTime | eos_aarch64/core/timer.c:28-92 | over any history: set with timeout t, by a call or by a handler inside a tick, and left alone from then on, an alarm is queued for t ticks and fired by exactly the t-th |
| Timer.FireKeepsOrder | eos_aarch64/core/timer.c:77-89 | of two alarms no handler of the tick touches, the one behind fires only behind the other, and stays behind it while that is queued |
| Timer.NeverOvertakes | eos_aarch64/core/timer.c:28-92 | over any history: of two alarms left alone the one behind stays behind while the other is queued, and a tick fires it only behind the other or when that is gone |
| Timer.ArmedBehind | eos_aarch64/core/timer.c:28-92 | the alarm armed last, by a call or a handler, stands behind another queued one if and only if its deadline is not earlier |
| Timer.FiresInArmingOrder | eos_aarch64/core/timer.c:28-92 | over any history: of two alarms with equal deadlines, armed by calls or handlers in different events and then left alone, the one armed first stands ahead while queued, and a tick fires both in that order or does not fire the other |
| Counters.Counter.constructor | eos_aarch64/core/timer.c:17-23 | a new counter among unused alarm blocks has an empty queue |
| Counters.Counter.Remove | eos_aarch64/core/timer.c:37 | on the heap, the alarm's node leaves the queue when it is on it |
| Counters.Counter.Add | eos_aarch64/core/timer.c:50 | on the heap, the alarm's node joins the queue behind all that fall due no later |
| Counters.Counter.SetAlarm | eos_aarch64/core/timer.c:28-52 | on linked alarm blocks, exactly AlarmSet, for any alarm, queued or not |
| Counters.Counter.FireAll | eos_aarch64/core/timer.c:75-90 | the loop, which reads the head of the queue anew after handlers that set and cancel alarms, ends for all handlers whose deadlines fit 32 bits and does exactly Fire |
| Counters.Counter.TriggerCounter | eos_aarch64/core/timer.c:61-90 | exactly Trigger, with the handlers that ran in order, and every alarm still queued lies ahead |
| MessageRing.SlotAfterWrite | eos_aarch64/core/comm.c:51-63 | a slot reads back what was written and no other slot changes |
| MessageRing.PutKeeps | eos_aarch64/core/comm.c:51-63 | with a free slot, a copy in appends the message and overwrites nothing unread |
| MessageRing.PopKeeps | eos_aarch64/core/comm.c:92-104 | with a message there, a copy out yields the oldest one unchanged |
| MessageRing.SendGoesOn | eos_aarch64/core/comm.c:60-63 | each byte of a copy in goes into the message's slot and leaves everything unread and the bytes before it as they were |
| MessageRing.SendEnds | eos_aarch64/core/comm.c:51-63 | with its last byte the message stands in the ring behind all sent before |
| MessageRing.ReceiveGoesOn | eos_aarch64/core/comm.c:101-104 | each byte of a copy out is the next one of the oldest message |
| MessageRing.ReceiveEnds | eos_aarch64/core/comm.c:92-104 | with its last byte the oldest message has been received |
| MessageRing.PutCountRight | eos_aarch64/core/comm.c:27 | the count of free slots starts right if and only if the queue has at most 127 |
| MessageRing.MessageQueue.constructor | eos_aarch64/core/comm.c:21-26 | a new queue is an empty ring |
| MessageRing.MessageQueue.CopyIn | eos_aarch64/core/comm.c:51-63 | the byte loop writes exactly the slot at rear and advances rear with the wrap |
| MessageRing.MessageQueue.CopyOut | eos_aarch64/core/comm.c:92-104 | the byte loop reads exactly the slot at front and advances front with the wrap |
| MessageProtocol.TokensConserved | eos_aarch64/core/comm.c:44-108 | messages in the ring and free slots equal the counts plus the tasks between acquire and end of copy or end of copy and release |
| MessageProtocol.RingSizes | eos_aarch64/core/comm.c:51-58 | front and rear are the messages received and sent modulo the size, but for the one index a copy under way has advanced |
| MessageProtocol.CopiesAreSafe | eos_aarch64/core/comm.c:48-104 | from locking to the last byte of a copy its slot is free or its message is there, and every byte lies in the buffer |
| MessageProtocol.GoIsEnabled | eos_aarch64/core/comm.c:44-108 | a call in progress can always go on; its releases never overflow a count |
| MessageProtocol.LockedTick | eos_aarch64/core/task.c:88-96 | a tick with the scheduler locked switches to no other task |
| MessageProtocol.StaysInside | eos_aarch64/core/comm.c:48-65 | between lock and restore a task only copies, only ticks come in between, and it goes on running |
| MessageProtocol.ExclusiveStep | eos_aarch64/core/comm.c:48-65 | mutual exclusion: after every event, whoever is between lock and restore runs with the scheduler locked, so nobody else is |
| MessageProtocol.NextKeeps | eos_aarch64/core/comm.c:33-111 | every event of any task, with ticks between the bytes of a copy, keeps the invariant of queue and kernel |
| MessageProtocol.InitIsNew | eos_aarch64/core/comm.c:13-30 | eos_init_mqueue establishes it |
| MessageProtocol.FifoInEveryHistory | eos_aarch64/core/comm.c:33-111 | for any number of senders and receivers and any interleaving, the messages received are a prefix of those sent, byte for byte, at most the queue size behind, and copies exclude each other |
| MessageProtocol.UntimedFifo | eos_aarch64/core/comm.c:33-111 | when no call of the history has a positive timeout, no tick faults, and with nothing assumed of ticks the messages received are a prefix of those sent, at most the queue size behind |
| MessageProtocol.FailureChangesNothing | eos_aarch64/core/comm.c:44-46 | no step of a call up to its failure changes a sequence, the ring or the count of either semaphore |
| MessageCalls.BeginGranted | eos_aarch64/core/comm.c:44-48 | with the scheduler unlocked and a unit there, a send or receive goes on at once, whatever its timeout |
| MessageCalls.BeginFails | eos_aarch64/core/comm.c:44-46 | locked, or with a negative timeout and no unit, it fails at once and nothing has changed |
| MessageCalls.BeginWaits | eos_aarch64/core/comm.c:44-46 | otherwise the caller waits for that semaphore, with its alarm armed for tick + timeout exactly for a positive timeout |
| MessageCalls.TimedCall | eos_aarch64/core/comm.c:44-87 | in every history a blocked send or receive with timeout n keeps its deadline tick + n; it is blocked only before it and with its alarm armed; run earlier it goes on when there is a unit, run then or later it returns with nothing sent or received |
| MessageCalls.CallReturns | eos_aarch64/core/comm.c:33-111 | in every history a call returns the message size when exactly one of its steps has sent its message, or received the next one, and 0 when none has; it does nothing to the other sequence |
| CopyContext.CopyContext | eos_aarch64/core/interrupt.c:40-66 | for any overlap the destination becomes the old source and no other word changes; nothing on NULL |
| CopyContext.BackwardRight | eos_aarch64/core/interrupt.c:56-61 | the backward loop is right whenever the destination lies behind the source |
| CopyContext.ForwardRight | eos_aarch64/core/interrupt.c:63-65 | the forward loop is right when the destination does not start inside the source, and wrong when it does and the first words differ |
| NumberText.DigitsValue | eos_aarch64/core/common.c:173-179 | the digits decode to the number in every base from 2 to 36, each below the base, without leading zeros |
| NumberText.Convert | eos_aarch64/core/common.c:173-179 | the do_div loop fills at most 64 of the 66 cells with the digits in reverse |
| NumberText.PrintedLength | eos_aarch64/core/common.c:136-214 | the output is as long as the maximum of the width and sign + prefix + maximum of digits and precision |
| NumberText.Number | eos_aarch64/core/common.c:136-214 | writes exactly sign, prefix, padding, zeros and digits by the flags, nothing else; refuses other bases |
| NumberText.SkipAtoi | eos_aarch64/core/common.c:125-133 | returns the value of the digits and stops behind them |
| NumberText.AtoiInvertsNumber | eos_aarch64/core/common.c:125-214 | skip_atoi reads back what number prints in base 10 |
| NumberMeaning.PrintedLayout | eos_aarch64/core/common.c:136-214 | what is printed is spaces, sign, prefix, zeros, digits, spaces in this order, each exactly as flags, width and precision ask: `-` for negative numbers, `+` or space as the flags say, prefix by base and case, digits of that case without leading zero |
| NumberMeaning.ReadsBack | eos_aarch64/core/common.c:136-214 | a reader of signed text gets the number back, for every number, base, width, precision and set of flags; unsigned conversions read as an unsigned long |
| FormatText.ParseShow | eos_aarch64/core/common.c:238-289 | every directive written in the usual order is read as what it says, wherever it stands |
| FormatText.ReadDirective | eos_aarch64/core/common.c:238-284 | the code reads a directive as Parse does and never passes the NUL |
| FormatText.Strnlen | eos_aarch64/core/common.c:114-122 | the length of the string or the limit, whichever is less |
| FormatText.PutDirective | eos_aarch64/core/common.c:286-389 | writes exactly what the directive stands for, a lone % when the NUL cuts it short; n stores the position and prints nothing |
| FormatText.ShownIsRendered | eos_aarch64/core/common.c:217-395 | a format of one directive prints what the directive says |
| FormatText.Vsprintf | eos_aarch64/core/common.c:217-395 | ends on every NUL-terminated format, reads nothing behind the NUL, writes the formatted text, a NUL and nothing else, and stores the position at each n in order |
| FormatMeaning.NumberPrinted | eos_aarch64/core/common.c:286-389 | any directive with d, i, u, o, x or X prints the argument reduced to its type by h and l, which reads back in base 10, 8 or 16, in the case asked for and laid out by flags, width and precision |
| FormatMeaning.PlainConversion | eos_aarch64/core/common.c:286-389 | for every int, the text of %d and %i reads as its decimal value with sign, that of %u, %o, %x and %X as its unsigned value in base 10, 8 and 16 |
| FormatMeaning.CharacterPrinted | eos_aarch64/core/common.c:290-300 | c prints the argument's low byte, padded to the width on the side the flag says |
| FormatMeaning.StringPrinted | eos_aarch64/core/common.c:302-320 | s prints the string, or its first characters up to a precision, and <NULL> for a NULL pointer, padded likewise |
| FormatMeaning.PointerPrinted | eos_aarch64/core/common.c:322-332 | p prints the address in hexadecimal, zero-filled to 16 digits when no width is given |
| FormatMeaning.OthersPrinted | eos_aarch64/core/common.c:334-376 | %% prints a percent sign, n nothing, and any other character is printed behind a percent sign |
| FormatMeaning.CountMeans | eos_aarch64/core/common.c:334-343 | n stores the number of characters before it, as an int or with l as a long |
| FormatMeaning.FlagsRead | eos_aarch64/core/common.c:238-250 | a flag is set if and only if its character occurs among those behind the percent sign |
| FormatMeaning.SpelledOut | eos_aarch64/core/common.c:238-286 | which characters spell which flags, width, precision, qualifier and conversion |
| FormatMeaning.FormatsCompose | eos_aarch64/core/common.c:217-395 | a format of literals and directives prints the literals as they are and each directive what it prints alone with its own arguments, in order; each n stores what stands before it |

## Left out

- Assembly, saving and restoring contexts, the interrupt controller, spin locks, the hardware timer and the UART: hardware; a switch is a change of the current task.
- Interrupts inside eos_schedule (`core/task.c:97-136`), and a tick between reading the deadline and disabling interrupts (`core/sync.c:40-42`), after which the alarm is due one tick behind the deadline: a call is atomic there.
- KernelSteps.SleepKeeps: does not model a tick between setting the alarm and writing the status (`core/task.c:249-252`); KernelDoze does, for the alarms, and after such a tick the invariant here can fail (KernelDozeRuns).
- KernelSteps.AcquireKeeps: does not model the windows at `core/sync.c:40-42` and `core/sync.c:54-55`; KernelWindow models the latter for acquires without a timeout, KernelDoze for those with one.
- KernelSync.UntimedRun: does not model the window at `core/sync.c:54-55`; KernelWindow.UntimedOpenRun does, and says what is lost in it.
- KernelWindow.OpenKeeps: does not open the window of an acquire with a timeout, because an alarm that fires in it breaks the invariant (KernelDoze.PreemptedFaults, KernelDoze.AlarmOrTooLate).
- KernelWindow.OpenSync: the same.
- KernelWindow.OpenRun: the same.
- KernelTiming.SleepReturnsOnTime: does not model a tick in that window, as KernelSteps.SleepKeeps; KernelDoze.AlarmOrTooLate does.
- KernelDoze.GapKeeps: says nothing of ready queues, wait queues and counts while a window is open; only of alarms and deadlines.
- KernelDoze.PreemptedFaults: that ready queues hold tasks of their own priority is a hypothesis there, because KernelDoze keeps no invariant of them.
- Kernel.Kernel.Schedule: does not model interrupts at `core/task.c:97-136`, because the list writes there are one step.
- Kernel.Kernel.Sleep: does not model a tick between setting the alarm and writing the status, as KernelSteps.SleepKeeps.
- Kernel.Kernel.AcquireSemaphore: does not model the window at `core/sync.c:54-55` on the heap; joining the queue is Kernel.Kernel.WaitInQueue.
- Condition variables (`core/sync.c:97-138`): marked as not covered by the source.
- `eos_destroy_task` and `_os_wakeup_all_from_queue`: empty bodies.
- The table of interrupt handlers (`core/interrupt.c:27-37`): plain array access.
- `_os_create_context`, stacks and user tasks: no algorithm; a task's stack size is checked, its memory is not modelled.
- NULL arguments and the PRINT diagnostics: preconditions; with them the result codes of eos_suspend_task and eos_resume_task, which are 0 for every task.
- Kernel.Kernel.CreateTask: does not model a control block that is used a second time, because the source never resets its links.
- Kernel.Kernel.SetAlarm: does not model alarms of the system timer other than the tasks' own; Counters.Counter.SetAlarm is the same code for any alarms and handlers.
- Counters.Counter.TriggerCounter: handlers act on the counter through eos_set_alarm only, as a script that may ask for anything at every call; the call of eos_schedule at its end is Kernel.Kernel.TriggerCounter's.
- MessageProtocol.NextKeeps: the send and receive calls are sequences of steps on values; their copy loops on memory are MessageRing.MessageQueue.
- FormatText.Vsprintf: does not model arguments of the wrong type, nor the least `long` under `%ld` and the least `int` as a width argument, whose negation C leaves undefined; what `n` stores is returned as a list instead of being written through the pointers.
- `_os_printf`, `_os_serial_printf`, `uart_put_hex` and `uart_put_dec`: output, and weaker forms of the number printing.
- The getters `eos_get_priority`, `eos_get_period`, `eos_get_current_task`, `eos_get_scheduler_lock`: they return a field.
