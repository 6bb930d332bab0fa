/** Runs of the kernel: what is true after any number of calls and ticks. */
module KernelRuns {
  import opened Queues
  import opened ReadyBitmap
  import opened KernelState
  import opened KernelInvariant
  import opened KernelSteps

  /** A call of the running task (or of `eos_user_main` while no task runs), the next part of a
      call it was in, or a timer interrupt. */
  datatype Action =
    | DoCreate(t: TaskId, stackSize: nat, priority: nat)
    | DoChangePriority(t: TaskId, priority: nat)
    | DoSuspend(t: TaskId)
    | DoResume(t: TaskId)
    | DoSetPeriod(t: TaskId, period: nat)
    | DoSleep(ticks: nat)
    | DoInitSemaphore(q: SemId, count: int, byPriority: bool)
    | DoAcquire(q: SemId, timeout: int)
    | DoRetry
    | DoRelease(q: SemId)
    | DoWake
    | DoLock
    | DoRestore(locked: bool)
    | DoTick

  /** Nobody is in the middle of a call. */
  ghost predicate Free(s: State)
    requires Typed(s)
  {
    s.current.Some? ==> s.tasks[s.current.value].pc.User?
  }

  /** The current task is a user task between two calls: the idle task never blocks. */
  ghost predicate UserRuns(s: State)
    requires Typed(s)
  {
    s.current.Some? && s.current.value != IDLE && Free(s)
  }

  /** What callers owe: names that exist, new names for new objects, times that fit in 32 bits
      and semaphore counts that fit in 8. */
  ghost predicate Enabled(s: State, a: Action) {
    Typed(s) &&
    match a
    case DoCreate(t, _, _) => Free(s) && t !in s.tasks
    case DoChangePriority(t, _) => Free(s) && t in s.tasks
    case DoSuspend(t) => Free(s) && t in s.tasks && t != IDLE
    case DoResume(t) => Free(s) && t in s.tasks
    case DoSetPeriod(t, period) => Free(s) && t in s.tasks && period < WORD
    case DoSleep(ticks) => UserRuns(s) && SleepFits(s, ticks)
    case DoInitSemaphore(q, count, _) => Free(s) && q !in s.sems && 0 <= count <= 127
    case DoAcquire(q, timeout) => UserRuns(s) && q in s.sems && (timeout > 0 ==> s.tick + timeout < WORD)
    case DoRetry => s.current.Some? && s.tasks[s.current.value].pc.Acquiring?
    case DoRelease(q) => UserRuns(s) && q in s.sems && s.sems[q].count < 127
    case DoWake => s.current.Some? && s.tasks[s.current.value].pc.Releasing?
    case DoLock => Free(s)
    case DoRestore(_) => Free(s)
    case DoTick => s.current.Some? && s.tick + 1 < WORD
  }

  ghost function Step(s: State, a: Action): (s': State)
    requires Enabled(s, a)
    ensures Typed(s')
  {
    match a
    case DoCreate(t, stackSize, priority) => Create(s, t, stackSize, priority)
    case DoChangePriority(t, priority) => ChangePriority(s, t, priority)
    case DoSuspend(t) => Suspend(s, t)
    case DoResume(t) => Resume(s, t)
    case DoSetPeriod(t, period) => SetPeriod(s, t, period)
    case DoSleep(ticks) => Sleep(s, ticks)
    case DoInitSemaphore(q, count, byPriority) => InitSemaphore(s, q, count, byPriority)
    case DoAcquire(q, timeout) => Acquire(s, q, timeout)
    case DoRetry => Retry(s)
    case DoRelease(q) => Release(s, q)
    case DoWake => Wake(s)
    case DoLock => Lock(s)
    case DoRestore(locked) => Restore(s, locked)
    case DoTick => Tick(s)
  }

  ghost predicate Follows(s: State, a: Action, s': State) {
    Enabled(s, a) && s' == Step(s, a)
  }

  /** `run` is what the kernel goes through from boot when it does `acts`. */
  ghost predicate IsRun(run: seq<State>, acts: seq<Action>) {
    |run| == |acts| + 1 && run[0] == Boot() &&
    forall i :: 0 <= i < |acts| ==> Follows(run[i], acts[i], run[i + 1])
  }

  lemma BootHolds()
    ensures Inv(Boot())
  {
    var s1 := Empty().(tasks := map[IDLE := Task(SUSPENDED, LOWEST_PRIORITY, 0, 0, None, 0, User)]);
    assert Typed(s1) && Placed(s1, {IDLE});
    ReadyKeeps(s1, IDLE, 1);
  }

  /** One step keeps the invariant, and it faults exactly when it is a tick that finds a due
      alarm's task READY and first in its queue. */
  lemma StepKeeps(s: State, a: Action)
    requires Inv(s) && Enabled(s, a)
    ensures Step(s, a).faulted <==> a.DoTick? && TickHits(s)
    ensures !(a.DoTick? && TickHits(s)) ==> Inv(Step(s, a))
  {
    hide ReadyOk, WaitingOk, BitsOk, AlarmsOk, RunningOk, Undisturbed, TickHits, Acquire, Retry, Wake, Sleep, Create,
      ChangePriority, Suspend, Resume, Restore, Release, Tick;
    match a
    case DoCreate(t, stackSize, priority) => CreateKeeps(s, t, stackSize, priority);
    case DoChangePriority(t, priority) => ChangePriorityKeeps(s, t, priority);
    case DoSuspend(t) => SuspendKeeps(s, t);
    case DoResume(t) => ResumeKeeps(s, t);
    case DoSetPeriod(t, period) => PeriodKeeps(s, t, period, s.tick);
    case DoSleep(ticks) => SleepKeeps(s, ticks);
    case DoInitSemaphore(q, count, byPriority) => InitSemaphoreKeeps(s, q, count, byPriority);
    case DoAcquire(q, timeout) => AcquireKeeps(s, q, timeout);
    case DoRetry => RetryKeeps(s);
    case DoRelease(q) => ReleaseKeeps(s, q);
    case DoWake => WakeKeeps(s);
    case DoLock => LockKeeps(s);
    case DoRestore(locked) => RestoreKeeps(s, locked);
    case DoTick => TickKeeps(s);
  }

  /** In every run in which no tick meets such an alarm, every state satisfies the invariant. */
  lemma {:induction false} RunKeeps(run: seq<State>, acts: seq<Action>, n: nat)
    requires IsRun(run, acts) && n < |run|
    requires forall i :: 0 <= i < n && acts[i].DoTick? ==> !TickHits(run[i])
    ensures Inv(run[n])
  {
    hide Inv, TickHits, Step;
    if n == 0 {
      BootHolds();
    } else {
      RunKeeps(run, acts, n - 1);
      assert Follows(run[n - 1], acts[n - 1], run[n]);
      StepKeeps(run[n - 1], acts[n - 1]);
    }
  }

  // ----- what the invariant says to a reader

  ghost predicate OnReadyQueue(s: State, t: TaskId, p: nat)
    requires Typed(s)
  {
    p <= LOWEST_PRIORITY && t in s.ready[p]
  }

  ghost predicate OnWaitQueue(s: State, t: TaskId, q: SemId)
    requires Typed(s)
  {
    q in s.waiting && t in s.waiting[q]
  }

  /** A task is in exactly one place, and its status says which: it runs, it is on the ready
      queue of its own priority, on the wait queue of the semaphore it blocks on, or on none. */
  lemma OnePlace(s: State, t: TaskId)
    requires Inv(s) && t in s.tasks
    ensures s.tasks[t].status == RUNNING <==> s.current == Some(t)
    ensures forall p :: OnReadyQueue(s, t, p) <==> s.tasks[t].status == READY && p == s.tasks[t].priority
    ensures forall q: SemId :: OnWaitQueue(s, t, q) <==>
      s.tasks[t].status == WAITING && s.tasks[t].pc.Acquiring? && s.tasks[t].pc.sem == q
    ensures forall q: SemId :: OnWaitQueue(s, t, q) ==> s.tasks[t].owner == Some(q)
  {
  }

  lemma NoDuplicates(s: State)
    requires Inv(s)
    ensures forall p :: 0 <= p <= LOWEST_PRIORITY ==> Distinct(s.ready[p])
    ensures forall q :: q in s.waiting ==> Distinct(s.waiting[q])
    ensures Distinct(s.alarms)
  {
  }

  /** With the scheduler unlocked there is a running task, no READY task outranks it, and the
      next `eos_schedule` finds a task to run. */
  lemma NobodyOutranksCurrent(s: State, t: TaskId)
    requires Inv(s) && !s.locked && t in s.tasks && s.tasks[t].status == READY
    ensures s.current.Some? && s.tasks[s.current.value].status == RUNNING
    ensures s.tasks[s.current.value].priority <= s.tasks[t].priority
    ensures !Schedule(s).faulted && Schedule(s).current.Some?
  {
    hide AlarmsOk, ReadyOk, WaitingOk, BitsOk;
    ScheduleKeeps(s, s.tick + 1);
  }
}
