/**
  The kernel as a state machine on values: what one call of `core/task.c`, `core/sync.c` or
  `core/timer.c` does to the tasks, the queues, the alarms and the ready bitmap when nothing
  interrupts it between two scheduling points.  `Kernel` proves that the code on the heap does
  exactly this; `KernelInvariant` proves what every run keeps.
 */
module KernelState {
  import opened Queues
  import opened ReadyBitmap

  type TaskId = nat
  type SemId = nat

  /** `int32u_t` arithmetic wraps here. */
  const WORD: nat := 0x1_0000_0000
  const MIN_STACK_SIZE: nat := 1024
  const IDLE: TaskId := 0

  datatype Status = READY | RUNNING | WAITING | SUSPENDED

  /** Where a task is in its own code: in none of the calls below, blocked in or woken inside
      `eos_acquire_semaphore` and about to test the count again, or inside `eos_release_semaphore`
      between the increment and the wake-up. */
  datatype Pc = User | Acquiring(sem: SemId, timeout: nat, deadline: nat) | Releasing(sem: SemId)

  datatype Task = Task(status: Status, priority: nat, period: nat, wakeupTime: nat,
                       owner: Option<SemId>, alarmTime: nat, pc: Pc)

  /** `count` is the code's; `initial`, `released` and `acquired` are history: what it started
      from and how often it was released and acquired. */
  datatype Semaphore = Semaphore(count: int, byPriority: bool, initial: int, released: nat, acquired: nat)

  /** `faulted` records that the code followed a NULL or stale pointer, or broke a list. */
  datatype State = State(tasks: map<TaskId, Task>,
                         ready: seq<seq<TaskId>>, bits: set<nat>,
                         sems: map<SemId, Semaphore>, waiting: map<SemId, seq<TaskId>>,
                         alarms: seq<TaskId>, tick: nat,
                         current: Option<TaskId>, locked: bool, faulted: bool)

  /** Every name in the state refers to something. */
  ghost predicate Typed(s: State) {
    |s.ready| == LOWEST_PRIORITY + 1 &&
    s.waiting.Keys == s.sems.Keys &&
    (forall p, t :: 0 <= p <= LOWEST_PRIORITY && t in s.ready[p] ==> t in s.tasks) &&
    (forall q, t :: q in s.waiting && t in s.waiting[q] ==> t in s.tasks) &&
    (forall t :: t in s.alarms ==> t in s.tasks) &&
    (forall t :: t in s.tasks ==> TypedTask(s, s.tasks[t])) &&
    (s.current.Some? ==> s.current.value in s.tasks)
  }

  ghost predicate TypedTask(s: State, task: Task) {
    task.priority <= LOWEST_PRIORITY &&
    (task.owner.Some? ==> task.owner.value in s.waiting) &&
    (!task.pc.User? ==> task.pc.sem in s.sems)
  }

  function Add32(a: nat, b: nat): nat { (a + b) % WORD }

  /** The value an `int8s_t` holds after `v` is stored in it. */
  function Int8(v: int): int { (v + 128) % 256 - 128 }

  ghost function Priorities(tasks: map<TaskId, Task>): map<TaskId, nat> {
    map t | t in tasks :: tasks[t].priority
  }

  ghost function AlarmTimes(tasks: map<TaskId, Task>): map<TaskId, nat> {
    map t | t in tasks :: tasks[t].alarmTime
  }

  // ----- the steps the calls are made of

  ghost function With(s: State, t: TaskId, task: Task): (s': State)
    requires Typed(s) && TypedTask(s, task) && t in s.tasks
    ensures Typed(s')
  {
    s.(tasks := s.tasks[t := task])
  }

  ghost function SetStatus(s: State, t: TaskId, status: Status): (s': State)
    requires Typed(s) && t in s.tasks
    ensures Typed(s')
  {
    With(s, t, s.tasks[t].(status := status))
  }

  ghost function SetPc(s: State, t: TaskId, pc: Pc): (s': State)
    requires Typed(s) && t in s.tasks && (!pc.User? ==> pc.sem in s.sems)
    ensures Typed(s')
  {
    With(s, t, s.tasks[t].(pc := pc))
  }

  /** The task joins the tail of its ready queue, and the bit is set. */
  ghost function AddReady(s: State, t: TaskId): (s': State)
    requires Typed(s) && t in s.tasks
    ensures Typed(s')
  {
    var p := s.tasks[t].priority;
    s.(ready := s.ready[p := s.ready[p] + [t]], bits := s.bits + {p})
  }

  ghost function MakeReady(s: State, t: TaskId): (s': State)
    requires Typed(s) && t in s.tasks
    ensures Typed(s')
  {
    SetStatus(AddReady(s, t), t, READY)
  }

  /** The task leaves its ready queue, and the bit goes with the last one. */
  ghost function LeaveReady(s: State, t: TaskId): (s': State)
    requires Typed(s) && t in s.tasks
    ensures Typed(s')
  {
    var p := s.tasks[t].priority;
    var rest := Delete(s.ready[p], t);
    s.(ready := s.ready[p := rest], bits := if rest == [] then s.bits - {p} else s.bits)
  }

  /** The least priority in the bitmap, and 0 when it is empty. */
  function HighestFrom(bits: set<nat>, p: nat): (h: nat)
    requires p <= LOWEST_PRIORITY + 1
    ensures h <= LOWEST_PRIORITY
    ensures forall q :: p <= q <= LOWEST_PRIORITY && q in bits ==> p <= h <= q && h in bits
    decreases LOWEST_PRIORITY + 1 - p
  {
    if p > LOWEST_PRIORITY then 0 else if p in bits then p else HighestFrom(bits, p + 1)
  }

  function Highest(bits: set<nat>): nat { HighestFrom(bits, 0) }

  // ----- core/task.c

  ghost function Requeue(s: State): (s': State)
    requires Typed(s)
    ensures Typed(s')
  {
    if s.current.Some? && s.tasks[s.current.value].status == RUNNING then MakeReady(s, s.current.value) else s
  }

  ghost function Run(s: State, t: TaskId): (s': State)
    requires Typed(s) && t in s.tasks
    ensures Typed(s')
  {
    SetStatus(LeaveReady(s, t), t, RUNNING).(current := Some(t))
  }

  ghost function Dispatch(s: State): (s': State)
    requires Typed(s)
    ensures Typed(s')
  {
    var queue := s.ready[Highest(s.bits)];
    if queue == [] then s.(faulted := true) else Run(s, queue[0])
  }

  /** `eos_schedule` */
  ghost function Schedule(s: State): (s': State)
    requires Typed(s)
    ensures Typed(s')
  {
    if s.locked then s else Dispatch(Requeue(s))
  }

  /** `eos_create_task` */
  ghost function Create(s: State, t: TaskId, stackSize: nat, priority: nat): (s': State)
    requires Typed(s) && t !in s.tasks
    ensures Typed(s')
  {
    if priority > LOWEST_PRIORITY || stackSize < MIN_STACK_SIZE then s
    else
      var s1 := s.(tasks := s.tasks[t := Task(SUSPENDED, priority, 0, 0, None, 0, User)]);
      assert Typed(s1);
      Schedule(MakeReady(s1, t))
  }

  /** `eos_change_priority` */
  ghost function ChangePriority(s: State, t: TaskId, priority: nat): (s': State)
    requires Typed(s) && t in s.tasks
    ensures Typed(s')
  {
    if priority > LOWEST_PRIORITY then s
    else if s.tasks[t].status == READY then
      var s1 := LeaveReady(s, t);
      Schedule(MakeReady(With(s1, t, s1.tasks[t].(priority := priority)), t))
    else Schedule(With(s, t, s.tasks[t].(priority := priority)))
  }

  /** `eos_suspend_task` */
  ghost function Suspend(s: State, t: TaskId): (s': State)
    requires Typed(s) && t in s.tasks
    ensures Typed(s')
  {
    if s.tasks[t].status == READY then SetStatus(LeaveReady(s, t), t, SUSPENDED) else s
  }

  /** `eos_resume_task` */
  ghost function Resume(s: State, t: TaskId): (s': State)
    requires Typed(s) && t in s.tasks
    ensures Typed(s')
  {
    if s.tasks[t].status == SUSPENDED then Schedule(MakeReady(s, t)) else s
  }

  /** `eos_set_period` */
  ghost function SetPeriod(s: State, t: TaskId, period: nat): (s': State)
    requires Typed(s) && t in s.tasks
    ensures Typed(s')
  {
    With(s, t, s.tasks[t].(period := period, wakeupTime := s.tick))
  }

  ghost function ArmAt(s: State, t: TaskId, deadline: nat): (s': State)
    requires Typed(s) && t in s.tasks
    ensures Typed(s')
  {
    var s1 := With(s, t, s.tasks[t].(alarmTime := deadline));
    s1.(alarms := InsertOrdered(s1.alarms, t, AlarmTimes(s1.tasks)))
  }

  /** `eos_set_alarm` on the system timer and a task's own alarm; a timeout of 0 takes the alarm off. */
  ghost function SetAlarm(s: State, t: TaskId, timeout: nat): (s': State)
    requires Typed(s) && t in s.tasks
    ensures Typed(s')
  {
    var s1 := s.(alarms := Delete(s.alarms, t));
    if timeout == 0 then s1 else ArmAt(s1, t, Add32(s.tick, timeout))
  }

  /** `eos_sleep`: with 0 ticks a periodic task waits for its next release. */
  ghost function Sleep(s: State, ticks: nat): (s': State)
    requires Typed(s) && s.current.Some?
    ensures Typed(s')
  {
    var t := s.current.value;
    if s.locked then s
    else if ticks == 0 && s.tasks[t].period != 0 then
      var next := Add32(s.tasks[t].wakeupTime, s.tasks[t].period);
      var s1 := With(s, t, s.tasks[t].(wakeupTime := next));
      if next <= s.tick then s1 else Schedule(SetStatus(SetAlarm(s1, t, next - s.tick), t, WAITING))
    else Schedule(SetStatus(SetAlarm(s, t, ticks), t, WAITING))
  }

  /** `_os_wait_in_queue` up to the switch */
  ghost function Enqueue(s: State, q: SemId): (s': State)
    requires Typed(s) && s.current.Some? && q in s.sems
    ensures Typed(s')
  {
    var t := s.current.value;
    var queue := if s.sems[q].byPriority then InsertOrdered(s.waiting[q], t, Priorities(s.tasks))
                 else s.waiting[q] + [t];
    With(s.(waiting := s.waiting[q := queue]), t, s.tasks[t].(owner := Some(q), status := WAITING))
  }

  /** `_os_wakeup_from_queue` */
  ghost function WakeFromQueue(s: State, q: SemId): (s': State)
    requires Typed(s) && q in s.sems
    ensures Typed(s')
  {
    if s.waiting[q] == [] then s
    else
      var t := s.waiting[q][0];
      Schedule(MakeReady(s.(waiting := s.waiting[q := Delete(s.waiting[q], t)]), t))
  }

  /** The node of a task leaves whatever list it is on. */
  ghost function Unlink(s: State, t: TaskId): (s': State)
    requires Typed(s)
    ensures Typed(s')
  {
    s.(ready := seq(LOWEST_PRIORITY + 1, p requires 0 <= p <= LOWEST_PRIORITY => Delete(s.ready[p], t)),
       waiting := map q | q in s.waiting :: Delete(s.waiting[q], t))
  }

  /** The alarm of a task that is READY was still armed.  Through a stale owner the node is taken
      off its ready queue as if it were on the wait queue; when it is the first there, the following
      append writes through a NULL link.  Without an owner the node is appended to the ready queue
      it is on already, which breaks the circle unless the node is alone there. */
  ghost predicate AlarmHitsReady(s: State, t: TaskId)
    requires Typed(s) && t in s.tasks
  {
    s.tasks[t].status == READY &&
    var queue := s.ready[s.tasks[t].priority];
    if s.tasks[t].owner == None then queue != [t] else queue != [] && queue[0] == t
  }

  /** `_os_wakeup_from_alarm_queue` */
  ghost function WakeFromAlarm(s: State, t: TaskId): (s': State)
    requires Typed(s) && t in s.tasks
    ensures Typed(s')
  {
    if AlarmHitsReady(s, t) then s.(faulted := true)
    else if s.tasks[t].owner.Some? then
      var s1 := Unlink(s, t);
      MakeReady(With(s1, t, s1.tasks[t].(owner := None)), t)
    else if s.tasks[t].status == READY then s.(bits := s.bits + {s.tasks[t].priority})
    else MakeReady(s, t)
  }

  // ----- core/timer.c

  /** The first alarm is due. */
  ghost predicate Due(s: State)
    requires Typed(s)
  {
    s.alarms != [] && s.tasks[s.alarms[0]].alarmTime <= s.tick
  }

  /** The loop of `eos_trigger_counter`. */
  ghost function FireDue(s: State): (s': State)
    requires Typed(s)
    ensures Typed(s')
    decreases |s.alarms|
  {
    if s.faulted || !Due(s) then s
    else FireDue(WakeFromAlarm(s.(alarms := s.alarms[1..]), s.alarms[0]))
  }

  /** `eos_trigger_counter` on the system timer */
  ghost function Tick(s: State): (s': State)
    requires Typed(s)
    ensures Typed(s')
  {
    Schedule(FireDue(s.(tick := Add32(s.tick, 1))))
  }

  // ----- core/sync.c and the scheduler lock

  /** `eos_init_semaphore` */
  ghost function InitSemaphore(s: State, q: SemId, count: int, byPriority: bool): (s': State)
    requires Typed(s) && q !in s.sems
    ensures Typed(s')
  {
    s.(sems := s.sems[q := Semaphore(Int8(count), byPriority, Int8(count), 0, 0)],
       waiting := s.waiting[q := []])
  }

  ghost function Take(s: State, q: SemId): (s': State)
    requires Typed(s) && q in s.sems
    ensures Typed(s')
  {
    var sem := s.sems[q];
    s.(sems := s.sems[q := sem.(count := Int8(sem.count - 1), acquired := sem.acquired + 1)])
  }

  datatype Outcome = Failed | Acquired | Blocked

  /** What the call, or its next round, comes to. */
  ghost function AcquireOutcome(s: State, q: SemId, timeout: int): Outcome
    requires Typed(s) && q in s.sems
  {
    if s.locked then Failed
    else if s.sems[q].count > 0 then Acquired
    else if timeout < 0 then Failed
    else Blocked
  }

  /** The alarm is set and the task enters the loop of `eos_acquire_semaphore`. */
  ghost function Enter(s: State, t: TaskId, q: SemId, timeout: nat): (s': State)
    requires Typed(s) && t in s.tasks && q in s.sems
    ensures Typed(s')
  {
    SetPc(SetAlarm(s, t, timeout), t, Acquiring(q, timeout, Add32(s.tick, timeout)))
  }

  /** `eos_acquire_semaphore` until it returns or switches to another task */
  ghost function Acquire(s: State, q: SemId, timeout: int): (s': State)
    requires Typed(s) && s.current.Some? && q in s.sems
    ensures Typed(s')
  {
    var t := s.current.value;
    match AcquireOutcome(s, q, timeout)
    case Failed => s
    case Acquired => Take(s, q)
    case Blocked => Schedule(Enqueue(Enter(s, t, q, timeout), q))
  }

  ghost function RetryOutcome(s: State): Outcome
    requires Typed(s) && s.current.Some? && s.tasks[s.current.value].pc.Acquiring?
  {
    var pc := s.tasks[s.current.value].pc;
    if pc.timeout != 0 && pc.deadline <= s.tick then Failed
    else if s.sems[pc.sem].count > 0 then Acquired
    else Blocked
  }

  /** The rest of the loop body of `eos_acquire_semaphore`, after the task runs again */
  ghost function Retry(s: State): (s': State)
    requires Typed(s) && s.current.Some? && s.tasks[s.current.value].pc.Acquiring?
    ensures Typed(s')
  {
    var t := s.current.value;
    var q := s.tasks[t].pc.sem;
    match RetryOutcome(s)
    case Failed => SetPc(s, t, User)
    case Acquired => Take(SetPc(SetAlarm(s, t, 0), t, User), q)
    case Blocked => Schedule(Enqueue(s, q))
  }

  /** `eos_release_semaphore` up to the increment */
  ghost function Release(s: State, q: SemId): (s': State)
    requires Typed(s) && s.current.Some? && q in s.sems
    ensures Typed(s')
  {
    var sem := s.sems[q];
    SetPc(s.(sems := s.sems[q := sem.(count := Int8(sem.count + 1), released := sem.released + 1)]),
          s.current.value, Releasing(q))
  }

  /** the rest of `eos_release_semaphore` */
  ghost function Wake(s: State): (s': State)
    requires Typed(s) && s.current.Some? && s.tasks[s.current.value].pc.Releasing?
    ensures Typed(s')
  {
    var t := s.current.value;
    WakeFromQueue(SetPc(s, t, User), s.tasks[t].pc.sem)
  }

  /** `_os_lock_scheduler` */
  ghost function Lock(s: State): (s': State)
    requires Typed(s)
    ensures Typed(s')
  {
    s.(locked := true)
  }

  /** `_os_restore_scheduler`; with `false` also the end of `_os_init` */
  ghost function Restore(s: State, locked: bool): (s': State)
    requires Typed(s)
    ensures Typed(s')
  {
    Schedule(s.(locked := locked))
  }

  /** The kernel when `_os_init` has set up its modules, before any task exists. */
  ghost function Empty(): (s: State)
    ensures Typed(s)
  {
    State(map[], seq(LOWEST_PRIORITY + 1, _ => []), {}, map[], map[], [], 0, None, true, false)
  }

  /** `_os_init` up to `eos_user_main`: the scheduler is locked and the idle task is created. */
  ghost function Boot(): (s: State)
    ensures Typed(s)
  {
    Create(Empty(), IDLE, 8096, LOWEST_PRIORITY)
  }
}
