/**
  The calls that arm the caller's own alarm and then wait, with the window the code leaves open in
  them.  `eos_sleep` sets the alarm and only then writes the status; `eos_acquire_semaphore` with a
  timeout sets it and restores interrupts before it joins the wait queue.  Ticks, and with them
  other tasks, can come in between, and the alarm can fall due before the task waits for it.

  All that is said here rests on the alarm queue alone; it needs no invariant of the other queues.
 */
module KernelDoze {
  import opened Queues
  import opened ReadyBitmap
  import opened KernelState
  import opened KernelInvariant
  import opened KernelSteps
  import opened KernelRuns
  import opened KernelTiming

  /** What a task in the window is about to do, and when its alarm is due. */
  datatype Plan = ToSleep(deadline: nat) | ToWait(deadline: nat, q: SemId, timeout: nat)

  datatype Gap = Gap(kernel: State, planned: map<TaskId, Plan>)

  datatype Move =
    | Whole(a: Action)                    // a step of `KernelRuns`
    | StartSleep(ticks: nat)              // eos_sleep up to the alarm
    | StartWait(q: SemId, timeout: nat)   // eos_acquire_semaphore with a timeout up to line 54
    | Finish                              // the rest: the status or the wait queue, and eos_schedule

  /** The running task is in the window. */
  ghost predicate Inside(w: Gap) {
    w.kernel.current.Some? && w.kernel.current.value in w.planned
  }

  ghost predicate May(w: Gap, m: Move) {
    var s := w.kernel;
    Typed(s) &&
    match m
    case Whole(a) => Enabled(s, a) && (Inside(w) ==> a.DoTick?)
    case StartSleep(ticks) => !Inside(w) && UserRuns(s) && SleepFits(s, ticks) && SleepsNow(s, ticks)
    case StartWait(q, timeout) =>
      !Inside(w) && Enabled(s, DoAcquire(q, timeout)) && timeout > 0 && AcquireOutcome(s, q, timeout).Blocked?
    case Finish => Inside(w) && (w.planned[s.current.value].ToWait? ==> w.planned[s.current.value].q in s.sems)
  }

  /** `eos_sleep` up to its line 249 */
  ghost function Dozing(s: State, ticks: nat): (s': State)
    requires Typed(s) && s.current.Some? && SleepsNow(s, ticks)
    ensures Typed(s')
  {
    var t, end := s.current.value, SleepEnd(s, ticks);
    var s1 := if ticks == 0 then With(s, t, s.tasks[t].(wakeupTime := end)) else s;
    SetAlarm(s1, t, end - s.tick)
  }

  /** The state in which the second half calls the scheduler. */
  ghost function Waits(s: State, plan: Plan): (s': State)
    requires Typed(s) && s.current.Some? && (plan.ToWait? ==> plan.q in s.sems)
    ensures Typed(s')
  {
    var t := s.current.value;
    match plan
    case ToSleep(_) => SetStatus(s, t, WAITING)
    case ToWait(deadline, q, timeout) => Enqueue(SetPc(s, t, Acquiring(q, timeout, deadline)), q)
  }

  ghost function Next(w: Gap, m: Move): (w': Gap)
    requires May(w, m)
    ensures Typed(w'.kernel)
  {
    var s := w.kernel;
    match m
    case Whole(a) => w.(kernel := Step(s, a))
    case StartSleep(ticks) => Gap(Dozing(s, ticks), w.planned[s.current.value := ToSleep(SleepEnd(s, ticks))])
    case StartWait(q, timeout) =>
      Gap(SetAlarm(s, s.current.value, timeout), w.planned[s.current.value := ToWait(s.tick + timeout, q, timeout)])
    case Finish =>
      Gap(Schedule(Waits(s, w.planned[s.current.value])), w.planned - {s.current.value})
  }

  /** With nothing in between, the two halves are the call. */
  lemma HalvesMakeTheSleep(s: State, ticks: nat)
    requires Typed(s) && s.current.Some? && May(Gap(s, map[]), StartSleep(ticks))
    ensures var w := Next(Gap(s, map[]), StartSleep(ticks));
            May(w, Finish) && Next(w, Finish) == Gap(Sleep(s, ticks), map[])
  {
    hide Schedule, Dozing, SleepsNow, SetStatus, SleepEnd, Sleep;
    var w := Next(Gap(s, map[]), StartSleep(ticks));
    DozedOff(s, ticks);
    assert w.planned - {s.current.value} == map[];
  }

  lemma DozedOff(s: State, ticks: nat)
    requires Typed(s) && s.current.Some? && SleepsNow(s, ticks) && SleepFits(s, ticks)
    ensures Dozing(s, ticks).current == s.current
    ensures Sleep(s, ticks) == Schedule(SetStatus(Dozing(s, ticks), s.current.value, WAITING))
  {
    hide Schedule, SetAlarm, SetStatus;
    if ticks == 0 {
      hide Dozing;
      DozedToRelease(s);
      NoWrap(s.tasks[s.current.value].wakeupTime, s.tasks[s.current.value].period);
    } else {
      AlarmRuns(s, s.current.value, ticks);
    }
  }

  lemma DozedToRelease(s: State)
    requires Typed(s) && s.current.Some? && SleepsNow(s, 0)
    ensures var t, end := s.current.value, SleepEnd(s, 0);
            Dozing(s, 0) == SetAlarm(With(s, t, s.tasks[t].(wakeupTime := end)), t, end - s.tick) &&
            Dozing(s, 0).current == s.current
  {
    hide SetAlarm;
    var t, end := s.current.value, SleepEnd(s, 0);
    AlarmRuns(With(s, t, s.tasks[t].(wakeupTime := end)), t, end - s.tick);
  }

  lemma HalvesMakeTheAcquire(s: State, q: SemId, timeout: nat)
    requires Typed(s) && s.current.Some? && q in s.sems && May(Gap(s, map[]), StartWait(q, timeout))
    ensures var w := Next(Gap(s, map[]), StartWait(q, timeout));
            May(w, Finish) && Next(w, Finish) == Gap(Acquire(s, q, timeout), map[])
  {
    hide Schedule, SetAlarm, Enqueue;
    var w := Next(Gap(s, map[]), StartWait(q, timeout));
    NoWrap(s.tick, timeout);
    AlarmRuns(s, s.current.value, timeout);
    assert w.planned - {s.current.value} == map[];
  }

  // ----- what every step does to the alarm queue

  /** The alarm queue is sorted and holds nobody twice. */
  ghost predicate Fit(s: State) {
    Distinct(s.alarms) && Sorted(s.alarms, AlarmTimes(s.tasks))
  }

  lemma FitSame(s: State, s': State)
    requires Fit(s) && s'.alarms == s.alarms
    requires forall t :: t in s.alarms ==> t in s.tasks && t in s'.tasks &&
                                           s'.tasks[t].alarmTime == s.tasks[t].alarmTime
    ensures Fit(s')
  {
    hide Distinct, Sorted;
    SortedKeys(s.alarms, AlarmTimes(s.tasks));
    SortedBySame(s.alarms, AlarmTimes(s.tasks), AlarmTimes(s'.tasks));
  }

  lemma AlarmsAreTasks(s: State)
    requires Typed(s)
    ensures forall t :: t in s.alarms ==> t in s.tasks
  {
  }

  lemma FitSchedule(s: State)
    requires Typed(s) && Fit(s)
    ensures Fit(Schedule(s))
  {
    hide Typed, Schedule, Fit;
    AlarmsAreTasks(s);
    ScheduleOnlyWakes(s);
    ScheduleFrame(s);
    FitSame(s, Schedule(s));
  }

  lemma FitAlarm(s: State, t: TaskId, timeout: nat)
    requires Typed(s) && Fit(s) && t in s.tasks
    ensures Fit(SetAlarm(s, t, timeout))
  {
    hide Typed, Distinct, Sorted, InsertOrdered, Delete, Add32;
    var rest := Delete(s.alarms, t);
    DeleteSorted(s.alarms, t, AlarmTimes(s.tasks));
    if timeout != 0 {
      var tasks := s.tasks[t := s.tasks[t].(alarmTime := Add32(s.tick, timeout))];
      SortedKeys(rest, AlarmTimes(s.tasks));
      DeletedApart(s.alarms, t);
      SortedBySame(rest, AlarmTimes(s.tasks), AlarmTimes(tasks));
      InsertSorted(rest, t, AlarmTimes(tasks));
      InsertedApart(rest, t, AlarmTimes(tasks));
    } else {
      DeletedApart(s.alarms, t);
    }
  }

  lemma DeletedApart(queue: seq<TaskId>, t: TaskId)
    requires Distinct(queue)
    ensures Distinct(Delete(queue, t)) && t !in Delete(queue, t)
  {
  }

  lemma InsertedApart(rest: seq<TaskId>, t: TaskId, key: map<TaskId, nat>)
    requires Distinct(rest) && t !in rest && t in key && forall x :: x in rest ==> x in key
    ensures Distinct(InsertOrdered(rest, t, key))
  {
  }

  /** The alarm queue and all deadlines are as they were. */
  ghost predicate SameAlarms(s: State, s': State) {
    s'.alarms == s.alarms &&
    forall t :: t in s.tasks ==> t in s'.tasks && s'.tasks[t].alarmTime == s.tasks[t].alarmTime
  }

  lemma SameThenSchedule(s: State, s1: State)
    requires Typed(s1) && SameAlarms(s, s1)
    ensures SameAlarms(s, Schedule(s1))
  {
    hide Typed, Schedule;
    Kept(s1);
  }

  lemma SameAfterCreate(s: State, t: TaskId, stackSize: nat, priority: nat)
    requires Typed(s) && t !in s.tasks
    ensures SameAlarms(s, Create(s, t, stackSize, priority))
  {
    hide Schedule, MakeReady;
    if priority <= LOWEST_PRIORITY && stackSize >= MIN_STACK_SIZE {
      var s1 := s.(tasks := s.tasks[t := Task(SUSPENDED, priority, 0, 0, None, 0, User)]);
      assert Typed(s1);
      MadeReady(s1, t);
      SameThenSchedule(s, MakeReady(s1, t));
    }
  }

  lemma SameAfterPriority(s: State, t: TaskId, priority: nat)
    requires Typed(s) && t in s.tasks
    ensures SameAlarms(s, ChangePriority(s, t, priority))
  {
    hide Schedule, SameAlarms, LeaveReady, MakeReady, Typed;
    if priority <= LOWEST_PRIORITY {
      RepricedSame(s, t, priority);
      SameThenSchedule(s, Repriced(s, t, priority));
    } else {
      NothingChanged(s);
    }
  }

  lemma RepricedSame(s: State, t: TaskId, priority: nat)
    requires Typed(s) && t in s.tasks && priority <= LOWEST_PRIORITY
    ensures SameAlarms(s, Repriced(s, t, priority))
  {
    hide Delete, MakeReady;
    if s.tasks[t].status == READY {
      var s1 := LeaveReady(s, t);
      MadeReady(With(s1, t, s1.tasks[t].(priority := priority)), t);
    }
  }

  lemma NothingChanged(s: State)
    ensures SameAlarms(s, s)
  {
  }

  lemma SameAfterWake(s: State)
    requires Typed(s) && s.current.Some? && s.tasks[s.current.value].pc.Releasing?
    ensures SameAlarms(s, Wake(s))
  {
    hide SameAlarms, WakeFromQueue;
    var t := s.current.value;
    PcSame(s, User);
    SameThenWake(s, SetPc(s, t, User), s.tasks[t].pc.sem);
  }

  lemma PcSame(s: State, pc: Pc)
    requires Typed(s) && s.current.Some? && (!pc.User? ==> pc.sem in s.sems)
    ensures SameAlarms(s, SetPc(s, s.current.value, pc))
  {
    hide Typed;
  }

  lemma SameThenWake(s: State, s1: State, q: SemId)
    requires Typed(s1) && q in s1.sems && SameAlarms(s, s1)
    ensures SameAlarms(s, WakeFromQueue(s1, q))
  {
    hide Schedule, Delete, MakeReady;
    if s1.waiting[q] != [] {
      var w := s1.waiting[q][0];
      assert w in s1.waiting[q];
      MadeReady(s1.(waiting := s1.waiting[q := Delete(s1.waiting[q], w)]), w);
      SameThenSchedule(s, WokenFirst(s1, q));
    }
  }

  lemma SameAfterResume(s: State, t: TaskId)
    requires Typed(s) && t in s.tasks
    ensures SameAlarms(s, Resume(s, t))
  {
    hide Schedule, MakeReady, Typed;
    MadeReady(s, t);
    SameThenSchedule(s, MakeReady(s, t));
  }

  lemma SameAfterSuspend(s: State, t: TaskId)
    requires Typed(s) && t in s.tasks
    ensures SameAlarms(s, Suspend(s, t))
  {
    hide Schedule, Delete;
  }

  lemma SameAfterRest(s: State, a: Action)
    requires Enabled(s, a)
    requires a.DoSetPeriod? || a.DoInitSemaphore? || a.DoRelease? || a.DoLock? || a.DoRestore?
    ensures SameAlarms(s, Step(s, a))
  {
    hide Schedule, Int8;
    if a.DoRestore? {
      SameThenSchedule(s, s.(locked := a.locked));
    }
  }

  /** Calls that set no alarm leave the alarm queue and all deadlines alone. */
  lemma AlarmsKept(s: State, a: Action)
    requires Enabled(s, a) && !a.DoSleep? && !a.DoAcquire? && !a.DoRetry? && !a.DoTick?
    ensures SameAlarms(s, Step(s, a))
  {
    hide SameAlarms, Typed, Create, ChangePriority, Suspend, Wake, Resume;
    if a.DoCreate? {
      SameAfterCreate(s, a.t, a.stackSize, a.priority);
    } else if a.DoChangePriority? {
      SameAfterPriority(s, a.t, a.priority);
    } else if a.DoSuspend? {
      SameAfterSuspend(s, a.t);
    } else if a.DoResume? {
      SameAfterResume(s, a.t);
    } else if a.DoWake? {
      SameAfterWake(s);
    } else {
      hide Step;
      SameAfterRest(s, a);
    }
  }

  lemma Kept(s: State)
    requires Typed(s)
    ensures Schedule(s).alarms == s.alarms && Schedule(s).tick == s.tick
    ensures forall t :: t in s.tasks ==> t in Schedule(s).tasks &&
                                         Schedule(s).tasks[t].alarmTime == s.tasks[t].alarmTime
  {
    hide Schedule;
    ScheduleOnlyWakes(s);
    ScheduleFrame(s);
  }

  lemma FitDoze(s: State, t: TaskId, timeout: nat)
    requires Typed(s) && Fit(s) && t in s.tasks
    ensures Fit(Schedule(SetStatus(SetAlarm(s, t, timeout), t, WAITING)))
  {
    hide Schedule, SetAlarm, Fit;
    AlarmRuns(s, t, timeout);
    FitAlarm(s, t, timeout);
    AlarmsAreTasks(SetAlarm(s, t, timeout));
    FitSame(SetAlarm(s, t, timeout), SetStatus(SetAlarm(s, t, timeout), t, WAITING));
    FitSchedule(SetStatus(SetAlarm(s, t, timeout), t, WAITING));
  }

  lemma FitSleep(s: State, ticks: nat)
    requires Typed(s) && Fit(s) && s.current.Some?
    ensures Fit(Sleep(s, ticks))
  {
    hide Schedule, SetAlarm, SetStatus, Fit, Add32;
    var t := s.current.value;
    if !s.locked {
      if ticks == 0 && s.tasks[t].period != 0 {
        var s1 := With(s, t, s.tasks[t].(wakeupTime := Add32(s.tasks[t].wakeupTime, s.tasks[t].period)));
        AlarmsAreTasks(s);
        FitSame(s, s1);
        if s1.tasks[t].wakeupTime > s.tick {
          FitDoze(s1, t, s1.tasks[t].wakeupTime - s.tick);
        }
      } else {
        FitDoze(s, t, ticks);
      }
    }
  }

  lemma FitWait(s: State, pc: Pc, q: SemId)
    requires Typed(s) && Fit(s) && s.current.Some? && q in s.sems && (!pc.User? ==> pc.sem in s.sems)
    ensures Fit(Schedule(Enqueue(SetPc(s, s.current.value, pc), q)))
  {
    hide Schedule, Fit, InsertOrdered;
    var s1 := Enqueue(SetPc(s, s.current.value, pc), q);
    AlarmsAreTasks(s);
    FitSame(s, s1);
    FitSchedule(s1);
  }

  lemma FitAcquire(s: State, q: SemId, timeout: int)
    requires Typed(s) && Fit(s) && s.current.Some? && q in s.sems
    ensures Fit(Acquire(s, q, timeout))
  {
    hide Schedule, SetAlarm, Fit, Add32, Enqueue, SetPc;
    if AcquireOutcome(s, q, timeout).Blocked? {
      var t := s.current.value;
      AlarmRuns(s, t, timeout);
      FitAlarm(s, t, timeout);
      FitWait(SetAlarm(s, t, timeout), Acquiring(q, timeout, Add32(s.tick, timeout)), q);
    } else {
      AlarmsAreTasks(s);
      FitSame(s, Acquire(s, q, timeout));
    }
  }

  lemma FitRetry(s: State)
    requires Typed(s) && Fit(s) && s.current.Some? && s.tasks[s.current.value].pc.Acquiring?
    ensures Fit(Retry(s))
  {
    hide Schedule, SetAlarm, Fit, InsertOrdered;
    var t := s.current.value;
    AlarmsAreTasks(s);
    AlarmRuns(s, t, 0);
    match RetryOutcome(s)
    case Failed => FitSame(s, Retry(s));
    case Acquired =>
      FitAlarm(s, t, 0);
      AlarmsAreTasks(SetAlarm(s, t, 0));
      FitSame(SetAlarm(s, t, 0), Retry(s));
    case Blocked =>
      FitSame(s, Enqueue(s, s.tasks[t].pc.sem));
      FitSchedule(Enqueue(s, s.tasks[t].pc.sem));
  }

  lemma FitCall(s: State, a: Action)
    requires Enabled(s, a) && Fit(s) && !a.DoTick?
    ensures Fit(Step(s, a))
  {
    hide Fit, Sleep, Acquire, Retry;
    if a.DoSleep? {
      FitSleep(s, a.ticks);
    } else if a.DoAcquire? {
      FitAcquire(s, a.q, a.timeout);
    } else if a.DoRetry? {
      FitRetry(s);
    } else {
      hide Step;
      AlarmsKept(s, a);
      AlarmsAreTasks(s);
      FitSame(s, Step(s, a));
    }
  }

  // ----- ticks

  lemma NotDue(s: State)
    requires Typed(s) && Fit(s) && !Due(s)
    ensures forall t :: t in s.alarms ==> s.tick < s.tasks[t].alarmTime
  {
  }

  /** A round of the loop that does not fault takes the first alarm off and changes its task only. */
  lemma OneRound(s: State)
    requires Typed(s) && Fit(s) && Due(s) && !AlarmHitsReady(s.(alarms := s.alarms[1..]), s.alarms[0])
    ensures var t, s' := s.alarms[0], FireOne(s);
            t in s.tasks && Fit(s') && s'.alarms == s.alarms[1..] && s'.tick == s.tick && s'.faulted == s.faulted &&
            s'.tasks == s.tasks[t := s.tasks[t].(status := READY, owner := None)] &&
            forall x :: x in s.alarms[1..] <==> x in s.alarms && x != t
  {
    hide WakeFromAlarm, AlarmHitsReady;
    var s0 := s.(alarms := s.alarms[1..]);
    assert s.alarms[0] in s.alarms;
    WakeFromAlarmTask(s0, s.alarms[0]);
    AlarmsAreTasks(s);
    FitSame(s0, FireOne(s));
  }

  /** When the loop ends without a fault, exactly the alarms that lie ahead are left. */
  lemma {:induction false} FireAlarms(s: State)
    requires Typed(s) && Fit(s) && !FireDue(s).faulted
    ensures var s' := FireDue(s);
            Fit(s') && s'.tick == s.tick &&
            forall t :: t in s.tasks ==>
              t in s'.tasks && s'.tasks[t].alarmTime == s.tasks[t].alarmTime &&
              (t in s'.alarms <==> t in s.alarms && s.tick < s.tasks[t].alarmTime)
    decreases |s.alarms|
  {
    hide Typed, Fit, WakeFromAlarm, AlarmHitsReady;
    if Due(s) {
      HitsOrNot(s);
      OneRound(s);
      FireAlarms(FireOne(s));
    } else {
      NotDue(s);
    }
  }

  lemma HitsOrNot(s: State)
    requires Typed(s) && Due(s) && !FireDue(s).faulted
    ensures s.alarms[0] in s.tasks && Typed(s.(alarms := s.alarms[1..]))
    ensures !s.faulted && !AlarmHitsReady(s.(alarms := s.alarms[1..]), s.alarms[0]) && FireDue(s) == FireDue(FireOne(s))
  {
    assert s.alarms[0] in s.alarms;
  }

  lemma TickAlarms(s: State)
    requires Typed(s) && Fit(s) && s.tick + 1 < WORD && !Tick(s).faulted
    ensures var s' := Tick(s);
            Fit(s') && s'.tick == s.tick + 1 &&
            forall t :: t in s.tasks ==>
              t in s'.tasks && s'.tasks[t].alarmTime == s.tasks[t].alarmTime &&
              (t in s'.alarms <==> t in s.alarms && s.tick + 1 < s.tasks[t].alarmTime)
  {
    hide Typed, Fit, FireDue, Schedule;
    NoWrap(s.tick, 1);
    var s1 := s.(tick := s.tick + 1);
    TickTyped(s);
    if FireDue(s1).faulted {
      FaultStays(FireDue(s1));
    }
    AlarmsAreTasks(s);
    FitSame(s, s1);
    FireAlarms(s1);
    FitSchedule(FireDue(s1));
    Kept(FireDue(s1));
  }

  lemma TickTyped(s: State)
    requires Typed(s)
    ensures Typed(s.(tick := s.tick + 1))
  {
  }

  /** Every ready queue holds tasks of its own priority. */
  ghost predicate InOwnQueues(s: State)
    requires Typed(s)
  {
    forall p, x :: 0 <= p <= LOWEST_PRIORITY && x in s.ready[p] ==> x in s.tasks && s.tasks[x].priority == p
  }

  /** A ready queue after the handler of task `h` has run. */
  ghost function QueueAfter(s: State, h: TaskId, p: nat): seq<TaskId>
    requires Typed(s) && h in s.tasks && p <= LOWEST_PRIORITY
  {
    var rest := if s.tasks[h].owner.Some? then Delete(s.ready[p], h) else s.ready[p];
    if s.tasks[h].priority == p && (s.tasks[h].owner.Some? || s.tasks[h].status != READY) then rest + [h] else rest
  }

  lemma QueueAfterIs(s: State, h: TaskId, p: nat)
    requires Typed(s) && h in s.tasks && !AlarmHitsReady(s, h) && p <= LOWEST_PRIORITY
    ensures WakeFromAlarm(s, h).ready[p] == QueueAfter(s, h, p)
  {
    hide Typed, AlarmHitsReady, TypedTask, Delete;
    Levels(s);
  }

  lemma OthersHitStays(s: State, h: TaskId, t: TaskId)
    requires Typed(s) && InOwnQueues(s) && h in s.tasks && t in s.tasks && h != t
    requires !AlarmHitsReady(s, h) && AlarmHitsReady(s, t)
    ensures t in WakeFromAlarm(s, h).tasks && AlarmHitsReady(WakeFromAlarm(s, h), t)
  {
    hide Typed, WakeFromAlarm;
    WakeFromAlarmTask(s, h);
    PriorityFits(s, t);
    Levels(s);
    Levels(WakeFromAlarm(s, h));
    var p := s.tasks[t].priority;
    QueueAfterIs(s, h, p);
    if s.tasks[t].owner.Some? {
      DeleteKeepsFirst(s.ready[p], h);
    } else if s.tasks[h].priority == p {
      assert QueueAfter(s, h, p) == s.ready[p] || QueueAfter(s, h, p)[|QueueAfter(s, h, p)| - 1] == h;
    } else {
      assert h !in s.ready[p];
    }
  }

  lemma InOwnQueuesAfter(s: State, h: TaskId)
    requires Typed(s) && InOwnQueues(s) && h in s.tasks && !AlarmHitsReady(s, h)
    ensures InOwnQueues(WakeFromAlarm(s, h))
  {
    hide Typed, WakeFromAlarm, AlarmHitsReady;
    WakeFromAlarmTask(s, h);
    Levels(WakeFromAlarm(s, h));
    Levels(s);
    forall p, x | 0 <= p <= LOWEST_PRIORITY && x in WakeFromAlarm(s, h).ready[p]
      ensures x in s.tasks && s.tasks[x].priority == p
    {
      QueueAfterIs(s, h, p);
    }
  }

  lemma PriorityFits(s: State, t: TaskId)
    requires Typed(s) && t in s.tasks
    ensures s.tasks[t].priority <= LOWEST_PRIORITY
  {
  }

  /** A due alarm that hits its READY task when the loop starts still does when its turn comes. */
  lemma {:induction false} HitFaults(s: State, t: TaskId)
    requires Typed(s) && Fit(s) && InOwnQueues(s)
    requires t in s.alarms && t in s.tasks && s.tasks[t].alarmTime <= s.tick && AlarmHitsReady(s, t)
    ensures FireDue(s).faulted
    decreases |s.alarms|
  {
    hide Typed, Fit, WakeFromAlarm, AlarmHitsReady, InOwnQueues;
    if !Due(s) {
      NotDue(s);
    } else if !FireDue(s).faulted {
      HitsOrNot(s);
      OneRound(s);
      var s0 := s.(alarms := s.alarms[1..]);
      SameQueues(s, s0, t);
      OthersHitStays(s0, s.alarms[0], t);
      InOwnQueuesAfter(s0, s.alarms[0]);
      HitFaults(FireOne(s), t);
    }
  }

  /** What a task's alarm hits does not depend on the time and the alarm queue. */
  lemma SameQueues(s: State, s': State, t: TaskId)
    requires Typed(s) && Typed(s') && t in s.tasks && s' == s.(alarms := s'.alarms, tick := s'.tick)
    ensures AlarmHitsReady(s', t) == AlarmHitsReady(s, t) && InOwnQueues(s') == InOwnQueues(s)
  {
    hide Typed;
    Levels(s);
    PriorityFits(s, t);
  }

  // ----- the invariant

  /** A task in the window has its alarm armed exactly as long as that has not fallen due. */
  ghost predicate Armed(s: State, t: TaskId, deadline: nat) {
    t in s.tasks && s.tasks[t].alarmTime == deadline && (t in s.alarms <==> s.tick < deadline)
  }

  ghost predicate GapInv(w: Gap) {
    Typed(w.kernel) && Fit(w.kernel) && forall t :: t in w.planned ==> Armed(w.kernel, t, w.planned[t].deadline)
  }

  lemma ArmedByCall(s: State, a: Action, t: TaskId, deadline: nat)
    requires Enabled(s, a) && !a.DoTick? && s.current != Some(t) && Armed(s, t, deadline)
    ensures Armed(Step(s, a), t, deadline)
  {
    hide Step, Enabled;
    CallFramed(s, a);
  }

  lemma ArmedByTick(s: State, t: TaskId, deadline: nat)
    requires Typed(s) && Fit(s) && s.tick + 1 < WORD && !Tick(s).faulted && Armed(s, t, deadline)
    ensures Armed(Tick(s), t, deadline)
  {
    hide Typed, Fit, Tick;
    TickAlarms(s);
  }

  /** Setting the caller's alarm arms it and moves nobody else's. */
  lemma ArmedBySet(s: State, t: TaskId, timeout: nat, x: TaskId, deadline: nat)
    requires Typed(s) && Fit(s) && t in s.tasks && 0 < timeout && s.tick + timeout < WORD
    requires if x == t then deadline == s.tick + timeout else Armed(s, x, deadline)
    ensures Armed(SetAlarm(s, t, timeout), x, deadline)
  {
    hide Typed, SetAlarm;
    NoWrap(s.tick, timeout);
    AlarmRuns(s, t, timeout);
    OwnAlarm(s, t, timeout);
    OthersAlarms(s, t, timeout);
  }

  lemma ArmedSame(s: State, s': State, t: TaskId, deadline: nat)
    requires Armed(s, t, deadline) && SameAlarms(s, s') && s'.tick == s.tick
    ensures Armed(s', t, deadline)
  {
  }

  lemma WholeKeeps(w: Gap, a: Action)
    requires GapInv(w) && May(w, Whole(a)) && (a.DoTick? ==> !Step(w.kernel, a).faulted)
    ensures GapInv(Next(w, Whole(a)))
  {
    hide Fit, Armed, Tick, Enabled;
    var s := w.kernel;
    forall t | t in w.planned
      ensures Armed(Step(s, a), t, w.planned[t].deadline)
    {
      if a.DoTick? {
        CanTick(s);
        ArmedByTick(s, t, w.planned[t].deadline);
      } else {
        ArmedByCall(s, a, t, w.planned[t].deadline);
      }
    }
    if a.DoTick? {
      CanTick(s);
      TickAlarms(s);
    } else {
      FitCall(s, a);
    }
  }

  lemma CanTick(s: State)
    requires Enabled(s, DoTick)
    ensures s.tick + 1 < WORD && Step(s, DoTick) == Tick(s)
  {
    hide Tick;
  }

  lemma StartSleepKeeps(w: Gap, ticks: nat)
    requires GapInv(w) && May(w, StartSleep(ticks))
    ensures GapInv(Next(w, StartSleep(ticks)))
  {
    hide Fit, Armed, SetAlarm, Typed;
    var s, end := w.kernel, SleepEnd(w.kernel, ticks);
    var t := s.current.value;
    CurrentThere(s);
    var s1 := if ticks == 0 then With(s, t, s.tasks[t].(wakeupTime := end)) else s;
    AlarmsAreTasks(s);
    FitSame(s, s1);
    FitAlarm(s1, t, end - s.tick);
    forall x | x in w.planned || x == t
      ensures Armed(Dozing(s, ticks), x, if x == t then end else w.planned[x].deadline)
    {
      if x != t {
        ArmedSame(s, s1, x, w.planned[x].deadline);
      }
      ArmedBySet(s1, t, end - s.tick, x, if x == t then end else w.planned[x].deadline);
    }
  }

  lemma CurrentThere(s: State)
    requires Typed(s) && s.current.Some?
    ensures s.current.value in s.tasks && TypedTask(s, s.tasks[s.current.value])
  {
  }

  lemma StartWaitKeeps(w: Gap, q: SemId, timeout: nat)
    requires GapInv(w) && May(w, StartWait(q, timeout))
    ensures GapInv(Next(w, StartWait(q, timeout)))
  {
    hide Fit, Armed, SetAlarm, Typed;
    var s := w.kernel;
    var t := s.current.value;
    CurrentThere(s);
    FitAlarm(s, t, timeout);
    forall x | x in w.planned || x == t
      ensures Armed(SetAlarm(s, t, timeout), x, if x == t then s.tick + timeout else w.planned[x].deadline)
    {
      ArmedBySet(s, t, timeout, x, if x == t then s.tick + timeout else w.planned[x].deadline);
    }
  }

  /** What is left of either call arms and disarms nothing. */
  lemma FinishSame(s: State, plan: Plan)
    requires Typed(s) && Fit(s) && s.current.Some? && (plan.ToWait? ==> plan.q in s.sems)
    ensures var s1 := Waits(s, plan);
            s.current.value in s1.tasks && s1.tasks[s.current.value].status == WAITING &&
            SameAlarms(s, Schedule(s1)) && Schedule(s1).tick == s.tick && Fit(Schedule(s1))
  {
    hide Fit, Schedule, InsertOrdered;
    var s1 := Waits(s, plan);
    AlarmsAreTasks(s);
    FitSame(s, s1);
    FitSchedule(s1);
    SameThenSchedule(s, s1);
    Kept(s1);
  }

  lemma FinishKeeps(w: Gap)
    requires GapInv(w) && May(w, Finish)
    ensures GapInv(Next(w, Finish))
  {
    hide Fit, Armed, Schedule, Waits, Typed, SameAlarms;
    var s, plan := w.kernel, w.planned[w.kernel.current.value];
    FinishSame(s, plan);
    forall x | x in w.planned && x != s.current.value
      ensures Armed(Schedule(Waits(s, plan)), x, w.planned[x].deadline)
    {
      ArmedSame(s, Schedule(Waits(s, plan)), x, w.planned[x].deadline);
    }
  }

  /** Every move but a tick that faults keeps it. */
  lemma GapKeeps(w: Gap, m: Move)
    requires GapInv(w) && May(w, m) && (m == Whole(DoTick) ==> !Next(w, m).kernel.faulted)
    ensures GapInv(Next(w, m))
  {
    hide GapInv, Step, Enabled, AcquireOutcome, SleepsNow;
    match m
    case Whole(a) => WholeKeeps(w, a);
    case StartSleep(ticks) => StartSleepKeeps(w, ticks);
    case StartWait(q, timeout) => StartWaitKeeps(w, q, timeout);
    case Finish => FinishKeeps(w);
  }

  /** The task waits without an alarm if and only if its alarm fell due in the window. */
  lemma FinishedWithAlarm(w: Gap)
    requires GapInv(w) && May(w, Finish)
    ensures var t := w.kernel.current.value; var plan := w.planned[t];
            t in Waits(w.kernel, plan).tasks && Waits(w.kernel, plan).tasks[t].status == WAITING &&
            (t in Next(w, Finish).kernel.alarms <==> w.kernel.tick < plan.deadline)
  {
    hide Fit, Schedule, Waits, Typed;
    FinishSame(w.kernel, w.planned[w.kernel.current.value]);
  }

  /** It need not get that far: when the task has been preempted in the window, the tick at which its
      alarm falls due can break its ready queue.  `AlarmHitsReady` says when. */
  lemma PreemptedFaults(w: Gap, t: TaskId)
    requires GapInv(w) && May(w, Whole(DoTick)) && t in w.planned && w.planned[t].deadline == w.kernel.tick + 1
    requires InOwnQueues(w.kernel) && AlarmHitsReady(w.kernel, t)
    ensures Next(w, Whole(DoTick)).kernel.faulted
  {
    hide Fit, Typed, FireDue, Schedule, AlarmHitsReady, InOwnQueues;
    var s := w.kernel;
    NoWrap(s.tick, 1);
    TickTyped(s);
    AlarmsAreTasks(s);
    FitSame(s, s.(tick := s.tick + 1));
    SameQueues(s, s.(tick := s.tick + 1), t);
    HitFaults(s.(tick := s.tick + 1), t);
    FaultStays(FireDue(s.(tick := s.tick + 1)));
  }

  // ----- runs

  ghost predicate Follows(w: Gap, m: Move, w': Gap) {
    May(w, m) && w' == Next(w, m)
  }

  /** `ws` is what the kernel goes through from boot when it does `ms`. */
  ghost predicate IsGapRun(ws: seq<Gap>, ms: seq<Move>) {
    |ws| == |ms| + 1 && ws[0] == Gap(Boot(), map[]) &&
    forall i :: 0 <= i < |ms| ==> Follows(ws[i], ms[i], ws[i + 1])
  }

  lemma BootFits()
    ensures GapInv(Gap(Boot(), map[]))
  {
    hide Boot;
    BootHolds();
  }

  lemma {:induction false} GapRun(ws: seq<Gap>, ms: seq<Move>, n: nat)
    requires IsGapRun(ws, ms) && n < |ws|
    requires forall i :: 0 <= i < n && ms[i] == Whole(DoTick) ==> !ws[i + 1].kernel.faulted
    ensures GapInv(ws[n])
  {
    hide GapInv, May, Next, Boot;
    if n == 0 {
      BootFits();
    } else {
      GapRun(ws, ms, n - 1);
      assert Follows(ws[n - 1], ms[n - 1], ws[n]);
      GapKeeps(ws[n - 1], ms[n - 1]);
    }
  }

  /** A plan stands until its task finishes. */
  lemma PlanStands(w: Gap, m: Move, t: TaskId)
    requires May(w, m) && t in w.planned && !(m.Finish? && w.kernel.current == Some(t))
    ensures t in Next(w, m).planned && Next(w, m).planned[t] == w.planned[t]
  {
    hide Typed, Step, SetAlarm, Schedule, Waits, Dozing, AcquireOutcome, SleepsNow;
  }

  lemma {:induction false} PlanUntil(ws: seq<Gap>, ms: seq<Move>, t: TaskId, i: nat, n: nat)
    requires IsGapRun(ws, ms) && i <= n < |ws| && t in ws[i].planned
    requires forall k :: i <= k < n ==> !(ms[k].Finish? && ws[k].kernel.current == Some(t))
    ensures t in ws[n].planned && ws[n].planned[t] == ws[i].planned[t]
    decreases n
  {
    hide May, Next, Boot;
    if i < n {
      PlanUntil(ws, ms, t, i, n - 1);
      assert Follows(ws[n - 1], ms[n - 1], ws[n]);
      PlanStands(ws[n - 1], ms[n - 1], t);
    }
  }

  /** The start of either call: who makes it, and when its alarm is due. */
  ghost predicate Starts(w: Gap, m: Move, t: TaskId, deadline: nat) {
    May(w, m) && w.kernel.current == Some(t) &&
    match m
    case StartSleep(ticks) => deadline == SleepEnd(w.kernel, ticks)
    case StartWait(_, timeout) => deadline == w.kernel.tick + timeout
    case _ => false
  }

  lemma StartPlans(w: Gap, m: Move, t: TaskId, deadline: nat)
    requires Starts(w, m, t, deadline)
    ensures t in Next(w, m).planned && Next(w, m).planned[t].deadline == deadline
  {
    hide Typed, SetAlarm, SleepEnd, SleepsNow, AcquireOutcome, Enabled;
  }

  /** In any run, whatever comes between: a task that starts a sleep or a timed acquire with its alarm
      due at `deadline`, and gets to the end of the call at move `n`, then waits with its alarm
      armed if and only if the tick `deadline` has not come before.  Otherwise nothing ends its wait
      on time. */
  lemma AlarmOrTooLate(ws: seq<Gap>, ms: seq<Move>, t: TaskId, deadline: nat, i: nat, n: nat)
    requires IsGapRun(ws, ms) && i < n < |ms| && Starts(ws[i], ms[i], t, deadline)
    requires ms[n] == Finish && ws[n].kernel.current == Some(t)
    requires forall k :: i < k < n ==> !(ms[k].Finish? && ws[k].kernel.current == Some(t))
    requires forall k :: 0 <= k < n && ms[k] == Whole(DoTick) ==> !ws[k + 1].kernel.faulted
    ensures t in ws[n + 1].kernel.alarms <==> ws[n].kernel.tick < deadline
  {
    hide GapInv, May, Next, Boot, Starts;
    StartsIs(ws[i], ms[i], t, deadline);
    assert Follows(ws[i], ms[i], ws[i + 1]) && Follows(ws[n], ms[n], ws[n + 1]);
    StartPlans(ws[i], ms[i], t, deadline);
    PlanUntil(ws, ms, t, i + 1, n);
    GapRun(ws, ms, n);
    FinishedWithAlarm(ws[n]);
  }

  lemma StartsIs(w: Gap, m: Move, t: TaskId, deadline: nat)
    requires Starts(w, m, t, deadline)
    ensures May(w, m)
  {
  }
}
