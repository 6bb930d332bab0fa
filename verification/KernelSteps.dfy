/** Each kernel call keeps the invariant. */
module KernelSteps {
  import opened Queues
  import opened ReadyBitmap
  import opened KernelState
  import opened KernelInvariant

  /** A call ends well when the running task may go on with the scheduler locked. */
  ghost predicate MayGoOn(s: State)
    requires Typed(s)
  {
    s.locked && s.current.Some? ==>
      s.tasks[s.current.value].status == RUNNING && !s.tasks[s.current.value].pc.Acquiring?
  }

  lemma Settle(s: State)
    requires Core(s, s.tick + 1) && MayGoOn(s)
    ensures Inv(Schedule(s))
  {
    hide ReadyOk, WaitingOk, BitsOk, AlarmsOk, RunningOk, Dispatch;
    ScheduleKeeps(s, s.tick + 1);
    if !s.locked {
      hide Schedule;
      ScheduleFrame(s);
    }
  }

  /** A task that becomes READY off the lists leaves everything else as it was. */
  lemma ReadyKeeps(s: State, t: TaskId, now: nat)
    requires Typed(s) && !s.faulted && s.tick < WORD && t in s.tasks && Placed(s, {t})
    requires AlarmsOk(MakeReady(s, t).tasks, s.alarms, s.tick, now)
    requires RunningOk(MakeReady(s, t).tasks, s.current)
    ensures Core(MakeReady(s, t), now)
  {
    PutReady(s, t);
  }

  // ----- core/task.c

  lemma NewTaskKeeps(s: State, t: TaskId, task: Task)
    requires Placed(s, {}) && t !in s.tasks && task.status == SUSPENDED
    ensures Placed(s.(tasks := s.tasks[t := task]), {t})
  {
  }

  lemma NewSleeper(tasks: map<TaskId, Task>, alarms: seq<TaskId>, t: TaskId, tasks': map<TaskId, Task>,
                   tick: nat, now: nat)
    requires AlarmsOk(tasks, alarms, tick, now) && t !in tasks
    requires tasks'.Keys == tasks.Keys + {t} && !Expects(tasks'[t], tick)
    requires forall x :: x in tasks ==> tasks'[x] == tasks[x]
    ensures AlarmsOk(tasks', alarms, tick, now)
  {
    SortedBySame(alarms, AlarmTimes(tasks), AlarmTimes(tasks'));
  }

  /** A state in which a call may end with `eos_schedule`. */
  ghost predicate Prepared(s: State) {
    Core(s, s.tick + 1) && MayGoOn(s)
  }

  lemma CreatePrepared(s: State, t: TaskId, priority: nat)
    requires Inv(s) && t !in s.tasks && priority <= LOWEST_PRIORITY
    ensures var s1 := s.(tasks := s.tasks[t := Task(SUSPENDED, priority, 0, 0, None, 0, User)]);
            Typed(s1) && Prepared(MakeReady(s1, t))
  {
    hide ReadyOk, WaitingOk, BitsOk, AlarmsOk, Undisturbed;
    var task := Task(SUSPENDED, priority, 0, 0, None, 0, User);
    var s1 := s.(tasks := s.tasks[t := task]);
    assert Typed(s1);
    hide Typed;
    NewTaskKeeps(s, t, task);
    NewSleeper(s.tasks, s.alarms, t, MakeReady(s1, t).tasks, s.tick, s.tick + 1);
    ReadyKeeps(s1, t, s.tick + 1);
  }

  lemma CreateKeeps(s: State, t: TaskId, stackSize: nat, priority: nat)
    requires Inv(s) && t !in s.tasks
    ensures Inv(Create(s, t, stackSize, priority))
  {
    hide ReadyOk, WaitingOk, BitsOk, AlarmsOk, RunningOk, MakeReady, Schedule;
    if priority <= LOWEST_PRIORITY && stackSize >= MIN_STACK_SIZE {
      CreatePrepared(s, t, priority);
      Settle(MakeReady(s.(tasks := s.tasks[t := Task(SUSPENDED, priority, 0, 0, None, 0, User)]), t));
    }
  }

  lemma PriorityPlaced(s: State, t: TaskId, priority: nat)
    requires Placed(s, {}) && t in s.tasks && s.tasks[t].status != READY && priority <= LOWEST_PRIORITY
    ensures Placed(s.(tasks := s.tasks[t := s.tasks[t].(priority := priority)]), {})
  {
  }

  lemma ChangeReadyPriority(s: State, t: TaskId, priority: nat)
    requires Core(s, s.tick + 1) && t in s.tasks && s.tasks[t].status == READY && priority <= LOWEST_PRIORITY
    ensures var s1 := LeaveReady(s, t);
            Core(MakeReady(With(s1, t, s1.tasks[t].(priority := priority)), t), s.tick + 1)
  {
    hide ReadyOk, WaitingOk, BitsOk, AlarmsOk, Delete;
    var s1, task := LeaveReady(s, t), s.tasks[t].(priority := priority);
    PickFromReady(s, t);
    Rewrite(s1, t, task);
    var s2 := With(s1, t, task);
    RepricedSleepers(s.tasks, MakeReady(s2, t).tasks, s.current, t, priority);
    AlarmsFrame(s.tasks, MakeReady(s2, t).tasks, s.alarms, s.tick, s.tick + 1);
    ReadyKeeps(s2, t, s.tick + 1);
  }

  lemma RepricedSleepers(tasks: map<TaskId, Task>, tasks': map<TaskId, Task>, current: Option<TaskId>, t: TaskId,
                         priority: nat)
    requires t in tasks && tasks[t].status == READY && RunningOk(tasks, current)
    requires tasks'.Keys == tasks.Keys && tasks'[t] == tasks[t].(priority := priority)
    requires forall x :: x in tasks && x != t ==> tasks'[x] == tasks[x]
    ensures SameSleepers(tasks, tasks') && RunningOk(tasks', current)
  {
  }

  /** The state `eos_change_priority` hands to `eos_schedule`. */
  ghost function Repriced(s: State, t: TaskId, priority: nat): (s': State)
    requires Typed(s) && t in s.tasks && priority <= LOWEST_PRIORITY
    ensures Typed(s')
  {
    if s.tasks[t].status == READY then
      var s1 := LeaveReady(s, t);
      MakeReady(With(s1, t, s1.tasks[t].(priority := priority)), t)
    else With(s, t, s.tasks[t].(priority := priority))
  }

  lemma ChangePriorityPrepared(s: State, t: TaskId, priority: nat)
    requires Inv(s) && t in s.tasks && priority <= LOWEST_PRIORITY
    ensures Prepared(Repriced(s, t, priority))
  {
    hide ReadyOk, WaitingOk, BitsOk, AlarmsOk, RunningOk, Undisturbed;
    if s.tasks[t].status == READY {
      hide MakeReady;
      ChangeReadyPriority(s, t, priority);
      MadeReady(With(LeaveReady(s, t), t, LeaveReady(s, t).tasks[t].(priority := priority)), t);
    } else {
      ChangeOtherPriority(s, t, priority);
    }
  }

  lemma ChangeOtherPriority(s: State, t: TaskId, priority: nat)
    requires Core(s, s.tick + 1) && t in s.tasks && s.tasks[t].status != READY && priority <= LOWEST_PRIORITY
    ensures Core(With(s, t, s.tasks[t].(priority := priority)), s.tick + 1)
  {
    hide ReadyOk, WaitingOk, BitsOk, AlarmsOk;
    AlarmsFrame(s.tasks, s.tasks[t := s.tasks[t].(priority := priority)], s.alarms, s.tick, s.tick + 1);
    PriorityPlaced(s, t, priority);
  }

  /** Joining a ready queue changes one status. */
  lemma MadeReady(s: State, t: TaskId)
    requires Typed(s) && t in s.tasks
    ensures var s' := MakeReady(s, t);
            s'.tasks == s.tasks[t := s.tasks[t].(status := READY)] && s'.current == s.current &&
            s'.locked == s.locked && s'.tick == s.tick && s'.alarms == s.alarms
  {
  }

  lemma ChangePriorityKeeps(s: State, t: TaskId, priority: nat)
    requires Inv(s) && t in s.tasks
    ensures Inv(ChangePriority(s, t, priority))
  {
    hide ReadyOk, WaitingOk, BitsOk, AlarmsOk, RunningOk, MakeReady, LeaveReady, Schedule;
    if priority <= LOWEST_PRIORITY {
      ChangePriorityPrepared(s, t, priority);
      Settle(Repriced(s, t, priority));
    }
  }

  lemma SuspendKeeps(s: State, t: TaskId)
    requires Inv(s) && t in s.tasks && t != IDLE
    ensures Inv(Suspend(s, t))
  {
    hide ReadyOk, WaitingOk, BitsOk, AlarmsOk;
    if s.tasks[t].status == READY {
      PickFromReady(s, t);
      var s1 := LeaveReady(s, t);
      PutDownAs(s1, t, SUSPENDED);
      AlarmsFrame(s.tasks, SetStatus(s1, t, SUSPENDED).tasks, s.alarms, s.tick, s.tick + 1);
    }
  }

  lemma ResumePrepared(s: State, t: TaskId)
    requires Inv(s) && t in s.tasks && s.tasks[t].status == SUSPENDED
    ensures Prepared(MakeReady(s, t))
  {
    hide ReadyOk, WaitingOk, BitsOk, AlarmsOk;
    PickUp(s, t);
    AlarmsFrame(s.tasks, MakeReady(s, t).tasks, s.alarms, s.tick, s.tick + 1);
    ReadyKeeps(s, t, s.tick + 1);
  }

  lemma ResumeKeeps(s: State, t: TaskId)
    requires Inv(s) && t in s.tasks
    ensures Inv(Resume(s, t))
  {
    hide ReadyOk, WaitingOk, BitsOk, AlarmsOk, RunningOk, MakeReady, Schedule;
    if s.tasks[t].status == SUSPENDED {
      ResumePrepared(s, t);
      Settle(MakeReady(s, t));
    }
  }

  lemma SamePlaces(s: State, t: TaskId, task: Task)
    requires Placed(s, {}) && t in s.tasks
    requires task.status == s.tasks[t].status && task.priority == s.tasks[t].priority
    requires task.owner == s.tasks[t].owner
    requires task.pc == s.tasks[t].pc || task.status != WAITING
    ensures Placed(s.(tasks := s.tasks[t := task]), {})
  {
    hide BitsOk;
    assert ReadyOk(s.tasks[t := task], s.ready, {}) by {
      hide WaitingOk;
    }
    assert WaitingOk(s.tasks[t := task], s.waiting, {}) by {
      hide ReadyOk;
    }
  }

  /** Places and priorities do not depend on the periods. */
  lemma PeriodKeeps(s: State, t: TaskId, period: nat, wakeupTime: nat)
    requires Inv(s) && t in s.tasks
    ensures Inv(With(s, t, s.tasks[t].(period := period, wakeupTime := wakeupTime)))
  {
    hide ReadyOk, WaitingOk, BitsOk, AlarmsOk;
    var task := s.tasks[t].(period := period, wakeupTime := wakeupTime);
    AlarmsFrame(s.tasks, s.tasks[t := task], s.alarms, s.tick, s.tick + 1);
    SamePlaces(s, t, task);
  }

  lemma Disarm(tasks: map<TaskId, Task>, alarms: seq<TaskId>, t: TaskId, tasks': map<TaskId, Task>,
                   tick: nat, now: nat)
    requires AlarmsOk(tasks, alarms, tick, now) && t in tasks
    requires tasks'.Keys == tasks.Keys && !Expects(tasks'[t], tick)
    requires forall x :: x in tasks && x != t ==> tasks'[x] == tasks[x]
    ensures AlarmsOk(tasks', Delete(alarms, t), tick, now)
  {
    DeleteSorted(alarms, t, AlarmTimes(tasks));
    SortedBySame(Delete(alarms, t), AlarmTimes(tasks), AlarmTimes(tasks'));
  }

  /** An alarm that is armed anew for a task entitled to it. */
  lemma Arm(tasks: map<TaskId, Task>, alarms: seq<TaskId>, t: TaskId, tasks': map<TaskId, Task>,
            key: map<TaskId, nat>, tick: nat, now: nat)
    requires AlarmsOk(tasks, alarms, tick, now) && t in tasks
    requires tasks'.Keys == tasks.Keys && ArmedOk(tasks'[t]) && now <= tasks'[t].alarmTime
    requires forall x :: x in tasks && x != t ==> tasks'[x] == tasks[x]
    requires key == AlarmTimes(tasks')
    ensures AlarmsOk(tasks', InsertOrdered(Delete(alarms, t), t, key), tick, now)
  {
    hide ArmedOk, Expects, InsertOrdered, Delete, Sorted, Distinct;
    var rest := Delete(alarms, t);
    DeleteSorted(alarms, t, AlarmTimes(tasks));
    SortedBySame(rest, AlarmTimes(tasks), key);
    SortedKeys(rest, key);
    InsertSorted(rest, t, key);
  }

  lemma SortedKeys(queue: seq<TaskId>, key: map<TaskId, nat>)
    requires Sorted(queue, key)
    ensures forall x :: x in queue ==> x in key
  {
  }

  lemma NoWrap(a: nat, b: nat)
    requires a + b < WORD
    ensures Add32(a, b) == a + b
  {
  }

  lemma SameTimes(tasks: map<TaskId, Task>, tasks': map<TaskId, Task>)
    requires tasks'.Keys == tasks.Keys
    requires forall x :: x in tasks ==> tasks'[x].alarmTime == tasks[x].alarmTime
    ensures AlarmTimes(tasks') == AlarmTimes(tasks)
  {
  }

  /** What `SetAlarm` does to the alarm queue, seen from the task table the call ends with. */
  lemma AlarmSet(s: State, t: TaskId, timeout: nat, tasks': map<TaskId, Task>)
    requires Typed(s) && t in s.tasks && AlarmsOk(s.tasks, s.alarms, s.tick, s.tick + 1) && s.tick + timeout < WORD
    requires tasks'.Keys == s.tasks.Keys && forall x :: x in s.tasks && x != t ==> tasks'[x] == s.tasks[x]
    requires if timeout == 0 then !Expects(tasks'[t], s.tick)
             else ArmedOk(tasks'[t]) && tasks'[t].alarmTime == s.tick + timeout
    ensures AlarmsOk(tasks', SetAlarm(s, t, timeout).alarms, s.tick, s.tick + 1)
  {
    hide AlarmsOk, ArmedOk, Expects, InsertOrdered, Delete, Add32, AlarmTimes;
    if timeout == 0 {
      Disarm(s.tasks, s.alarms, t, tasks', s.tick, s.tick + 1);
    } else {
      NoWrap(s.tick, timeout);
      SameTimes(tasks', s.tasks[t := s.tasks[t].(alarmTime := s.tick + timeout)]);
      Arm(s.tasks, s.alarms, t, tasks', AlarmTimes(tasks'), s.tick, s.tick + 1);
    }
  }

  lemma AlarmPlaced(s: State, t: TaskId, timeout: nat)
    requires Typed(s) && Placed(s, {t}) && t in s.tasks
    ensures Placed(SetAlarm(s, t, timeout), {t})
  {
    if timeout != 0 {
      Rewrite(s, t, s.tasks[t].(alarmTime := Add32(s.tick, timeout)));
    }
  }

  lemma SleepPrepared(s: State, t: TaskId, timeout: nat)
    requires Inv(s) && !s.locked && s.current == Some(t) && t != IDLE && s.tasks[t].pc.User?
    requires s.tick + timeout < WORD
    ensures Prepared(SetStatus(SetAlarm(s, t, timeout), t, WAITING))
  {
    hide ReadyOk, WaitingOk, BitsOk, AlarmsOk, InsertOrdered, Delete, AlarmTimes, Add32;
    var s1 := SetAlarm(s, t, timeout);
    var s' := SetStatus(s1, t, WAITING);
    NoWrap(s.tick, timeout);
    PickUp(s, t);
    AlarmPlaced(s, t, timeout);
    PutDownAs(s1, t, WAITING);
    AlarmSet(s, t, timeout, s'.tasks);
  }

  lemma SleepFor(s: State, t: TaskId, timeout: nat)
    requires Inv(s) && !s.locked && s.current == Some(t) && t != IDLE && s.tasks[t].pc.User?
    requires s.tick + timeout < WORD
    ensures Inv(Schedule(SetStatus(SetAlarm(s, t, timeout), t, WAITING)))
  {
    hide ReadyOk, WaitingOk, BitsOk, AlarmsOk, RunningOk, SetAlarm, Schedule;
    SleepPrepared(s, t, timeout);
    AlarmRuns(s, t, timeout);
    Settle(SetStatus(SetAlarm(s, t, timeout), t, WAITING));
  }

  /** The deadline arithmetic of a sleep stays within 32 bits. */
  ghost predicate SleepFits(s: State, ticks: nat)
    requires Typed(s) && s.current.Some?
  {
    var task := s.tasks[s.current.value];
    if ticks == 0 && task.period != 0 then task.wakeupTime + task.period < WORD else s.tick + ticks < WORD
  }

  lemma SleepKeeps(s: State, ticks: nat)
    requires Inv(s) && s.current.Some? && s.current.value != IDLE && s.tasks[s.current.value].pc.User?
    requires SleepFits(s, ticks)
    ensures Inv(Sleep(s, ticks))
  {
    hide ReadyOk, WaitingOk, BitsOk, AlarmsOk, RunningOk, Undisturbed, SetAlarm, SetStatus, Schedule, Add32;
    if !s.locked {
      var t := s.current.value;
      if ticks == 0 && s.tasks[t].period != 0 {
        var next := s.tasks[t].wakeupTime + s.tasks[t].period;
        NoWrap(s.tasks[t].wakeupTime, s.tasks[t].period);
        var s1 := With(s, t, s.tasks[t].(wakeupTime := next));
        PeriodKeeps(s, t, s.tasks[t].period, next);
        if next > s.tick {
          SleepFor(s1, t, next - s.tick);
        }
      } else {
        SleepFor(s, t, ticks);
      }
    }
  }

  // ----- core/sync.c and the scheduler lock

  lemma InitSemaphoreKeeps(s: State, q: SemId, count: int, byPriority: bool)
    requires Inv(s) && q !in s.sems
    ensures Inv(InitSemaphore(s, q, count, byPriority))
  {
    hide ReadyOk, WaitingOk, BitsOk, AlarmsOk;
    NewQueue(s.tasks, s.waiting, q);
  }

  lemma NewQueue(tasks: map<TaskId, Task>, waiting: map<SemId, seq<TaskId>>, q: SemId)
    requires WaitingOk(tasks, waiting, {}) && q !in waiting
    ensures WaitingOk(tasks, waiting[q := []], {})
  {
  }

  /** The current task blocks on `q`, from a state in which it is no longer counted anywhere. */
  lemma BlockPrepared(s: State, q: SemId)
    requires Typed(s) && !s.faulted && s.tick < WORD && !s.locked && s.current.Some? && q in s.sems
    requires Placed(s, {s.current.value}) && s.current.value != IDLE
    requires s.tasks[s.current.value].pc.Acquiring? && s.tasks[s.current.value].pc.sem == q
    requires RunningOk(s.tasks, s.current)
    requires AlarmsOk(Enqueue(s, q).tasks, s.alarms, s.tick, s.tick + 1)
    ensures Prepared(Enqueue(s, q))
  {
    hide ReadyOk, WaitingOk, BitsOk, AlarmsOk, InsertOrdered, Delete, AlarmTimes, Add32;
    PutWaiting(s, q);
  }

  lemma EnterPlaced(s: State, t: TaskId, q: SemId, timeout: nat)
    requires Typed(s) && Placed(s, {t}) && t in s.tasks && q in s.sems
    ensures Placed(Enter(s, t, q, timeout), {t})
  {
    hide ReadyOk, WaitingOk, BitsOk, SetAlarm;
    var s0 := SetAlarm(s, t, timeout);
    AlarmPlaced(s, t, timeout);
    AlarmRuns(s, t, timeout);
    Rewrite(s0, t, s0.tasks[t].(pc := Acquiring(q, timeout, Add32(s.tick, timeout))));
  }

  /** Setting an alarm changes the alarm queue and the task's deadline only. */
  lemma AlarmRuns(s: State, t: TaskId, timeout: nat)
    requires Typed(s) && t in s.tasks
    ensures var s' := SetAlarm(s, t, timeout);
            s' == s.(alarms := s'.alarms, tasks := s.tasks[t := s.tasks[t].(alarmTime := s'.tasks[t].alarmTime)]) &&
            s'.tasks[t].alarmTime == if timeout == 0 then s.tasks[t].alarmTime else Add32(s.tick, timeout)
  {
    hide InsertOrdered, Delete, AlarmTimes;
    if timeout == 0 {
      assert s.tasks == s.tasks[t := s.tasks[t].(alarmTime := s.tasks[t].alarmTime)];
    }
  }

  /** Setting a task's alarm moves nobody else's. */
  lemma OthersAlarms(s: State, t: TaskId, timeout: nat)
    requires Typed(s) && t in s.tasks
    ensures forall x :: x != t ==> (x in SetAlarm(s, t, timeout).alarms <==> x in s.alarms)
  {
  }

  lemma OwnAlarm(s: State, t: TaskId, timeout: nat)
    requires Typed(s) && t in s.tasks && Distinct(s.alarms)
    ensures t in SetAlarm(s, t, timeout).alarms <==> timeout != 0
  {
  }

  lemma EnterAlarms(s: State, q: SemId, timeout: nat)
    requires Typed(s) && s.current.Some? && q in s.sems
    requires AlarmsOk(s.tasks, s.alarms, s.tick, s.tick + 1) && s.tick + timeout < WORD
    ensures var s' := Enter(s, s.current.value, q, timeout);
            AlarmsOk(Enqueue(s', q).tasks, s'.alarms, s.tick, s.tick + 1)
  {
    hide AlarmsOk, SetAlarm, Add32;
    var t := s.current.value;
    var s' := Enter(s, t, q, timeout);
    NoWrap(s.tick, timeout);
    AlarmRuns(s, t, timeout);
    AlarmSet(s, t, timeout, Enqueue(s', q).tasks);
  }

  lemma AcquirePrepared(s: State, q: SemId, timeout: int)
    requires Inv(s) && s.current.Some? && s.current.value != IDLE && s.tasks[s.current.value].pc.User?
    requires q in s.sems && timeout >= 0 && (timeout > 0 ==> s.tick + timeout < WORD) && !s.locked
    ensures Prepared(Enqueue(Enter(s, s.current.value, q, timeout), q))
  {
    hide ReadyOk, WaitingOk, BitsOk, AlarmsOk, SetAlarm, Schedule, Undisturbed;
    var t := s.current.value;
    PickUp(s, t);
    EnterPlaced(s, t, q, timeout);
    EnterAlarms(s, q, timeout);
    AlarmRuns(s, t, timeout);
    BlockPrepared(Enter(s, t, q, timeout), q);
  }

  lemma AcquireKeeps(s: State, q: SemId, timeout: int)
    requires Inv(s) && s.current.Some? && s.current.value != IDLE && s.tasks[s.current.value].pc.User?
    requires q in s.sems && (timeout > 0 ==> s.tick + timeout < WORD)
    ensures Inv(Acquire(s, q, timeout))
  {
    hide ReadyOk, WaitingOk, BitsOk, AlarmsOk, SetAlarm, Enqueue, Schedule, Undisturbed, Prepared;
    if AcquireOutcome(s, q, timeout).Blocked? {
      AcquirePrepared(s, q, timeout);
      AlarmRuns(s, s.current.value, timeout);
      SettlePrepared(Enqueue(Enter(s, s.current.value, q, timeout), q));
    }
  }

  lemma SettlePrepared(s: State)
    requires Prepared(s)
    ensures Inv(Schedule(s))
  {
    hide Core, Schedule;
    Settle(s);
  }

  lemma RetryPrepared(s: State)
    requires Inv(s) && s.current.Some? && s.tasks[s.current.value].pc.Acquiring? && RetryOutcome(s).Blocked?
    ensures Prepared(Enqueue(s, s.tasks[s.current.value].pc.sem))
  {
    hide ReadyOk, WaitingOk, BitsOk, AlarmsOk;
    PickUp(s, s.current.value);
    StillArmed(s);
    BlockPrepared(s, s.tasks[s.current.value].pc.sem);
  }

  lemma RetryKeeps(s: State)
    requires Inv(s) && s.current.Some? && s.tasks[s.current.value].pc.Acquiring?
    ensures Inv(Retry(s))
  {
    hide ReadyOk, WaitingOk, BitsOk, AlarmsOk, InsertOrdered, Delete, AlarmTimes, Add32;
    var t := s.current.value;
    var q := s.tasks[t].pc.sem;
    var free := s.tasks[t].(pc := User);
    match RetryOutcome(s)
    case Failed =>
      SamePlaces(s, t, free);
      TimedOutIsDisarmed(s, t);
      Disarm(s.tasks, s.alarms, t, s.tasks[t := free], s.tick, s.tick + 1);
    case Acquired =>
      SamePlaces(s, t, free);
      Disarm(s.tasks, s.alarms, t, s.tasks[t := free], s.tick, s.tick + 1);
    case Blocked =>
      RetryPrepared(s);
      SettlePrepared(Enqueue(s, q));
  }

  lemma TimedOutIsDisarmed(s: State, t: TaskId)
    requires Inv(s) && t in s.tasks && s.tasks[t].pc.Acquiring? && s.tasks[t].pc.deadline <= s.tick
    ensures t !in s.alarms
  {
  }

  /** A waiter that has been woken early and goes back to wait: if its acquire has a deadline,
      its alarm is still armed. */
  lemma StillArmed(s: State)
    requires Inv(s) && s.current.Some? && s.tasks[s.current.value].pc.Acquiring?
    requires RetryOutcome(s).Blocked?
    ensures AlarmsOk(Enqueue(s, s.tasks[s.current.value].pc.sem).tasks, s.alarms, s.tick, s.tick + 1)
  {
    hide ReadyOk, WaitingOk, BitsOk, RunningOk, Undisturbed, InsertOrdered, Sorted;
    var tasks := Enqueue(s, s.tasks[s.current.value].pc.sem).tasks;
    SortedKeys(s.alarms, AlarmTimes(s.tasks));
    SortedBySame(s.alarms, AlarmTimes(s.tasks), AlarmTimes(tasks));
  }

  /** A running task may change where it is in its own code, as long as no alarm waits for it. */
  lemma MovePc(s: State, pc: Pc)
    requires Inv(s) && s.current.Some? && !s.tasks[s.current.value].pc.Acquiring?
    requires !pc.Acquiring? && (pc.Releasing? ==> pc.sem in s.sems) && (s.current.value == IDLE ==> pc.User?)
    ensures Inv(SetPc(s, s.current.value, pc))
  {
    hide ReadyOk, WaitingOk, BitsOk, AlarmsOk;
    var t := s.current.value;
    NotArmed(s, t);
    SamePlaces(s, t, s.tasks[t].(pc := pc));
    Disarm(s.tasks, s.alarms, t, SetPc(s, t, pc).tasks, s.tick, s.tick + 1);
  }

  lemma NotArmed(s: State, t: TaskId)
    requires Inv(s) && t in s.tasks && s.tasks[t].status != WAITING && !s.tasks[t].pc.Acquiring?
    ensures t !in s.alarms && Delete(s.alarms, t) == s.alarms
  {
  }

  lemma ReleaseKeeps(s: State, q: SemId)
    requires Inv(s) && s.current.Some? && s.current.value != IDLE && s.tasks[s.current.value].pc.User? && q in s.sems
    ensures Inv(Release(s, q))
  {
    hide ReadyOk, WaitingOk, BitsOk, AlarmsOk;
    MovePc(s, Releasing(q));
  }

  lemma FirstWaiter(s: State, q: SemId)
    requires Typed(s) && WaitingOk(s.tasks, s.waiting, {}) && q in s.waiting && s.waiting[q] != []
    ensures var t := s.waiting[q][0]; t in s.tasks && s.tasks[t].status == WAITING && s.tasks[t].pc.Acquiring?
  {
    assert s.waiting[q][0] in s.waiting[q];
  }

  /** The state `_os_wakeup_from_queue` hands to `eos_schedule`. */
  ghost function WokenFirst(s: State, q: SemId): (s': State)
    requires Typed(s) && q in s.sems && s.waiting[q] != []
    ensures Typed(s')
  {
    var t := s.waiting[q][0];
    MakeReady(s.(waiting := s.waiting[q := Delete(s.waiting[q], t)]), t)
  }

  lemma WakePrepared(s: State, q: SemId)
    requires Inv(s) && q in s.sems && s.waiting[q] != []
    ensures Prepared(WokenFirst(s, q))
  {
    hide ReadyOk, WaitingOk, BitsOk, AlarmsOk, Delete, Undisturbed;
    var t := s.waiting[q][0];
    var s1 := s.(waiting := s.waiting[q := Delete(s.waiting[q], t)]);
    FirstWaiter(s, q);
    PickFromWaiting(s, q);
    WokenAlarms(s, q);
    ReadyKeeps(s1, t, s.tick + 1);
  }

  lemma WakeFromQueueKeeps(s: State, q: SemId)
    requires Inv(s) && q in s.sems
    ensures Inv(WakeFromQueue(s, q))
  {
    hide ReadyOk, WaitingOk, BitsOk, AlarmsOk, RunningOk, MakeReady, Schedule, Delete;
    if s.waiting[q] != [] {
      WakePrepared(s, q);
      Settle(WokenFirst(s, q));
    }
  }

  /** The alarm of a timed waiter stays armed when it is woken early. */
  lemma WokenAlarms(s: State, q: SemId)
    requires Inv(s) && q in s.waiting && s.waiting[q] != []
    ensures var t := s.waiting[q][0];
            t in s.tasks && AlarmsOk(s.tasks[t := s.tasks[t].(status := READY)], s.alarms, s.tick, s.tick + 1)
  {
    hide ReadyOk, WaitingOk, BitsOk, RunningOk, Undisturbed, Sorted;
    var t := s.waiting[q][0];
    FirstWaiter(s, q);
    SortedKeys(s.alarms, AlarmTimes(s.tasks));
    SortedBySame(s.alarms, AlarmTimes(s.tasks), AlarmTimes(s.tasks[t := s.tasks[t].(status := READY)]));
  }

  lemma WakeKeeps(s: State)
    requires Inv(s) && s.current.Some? && s.tasks[s.current.value].pc.Releasing?
    ensures Inv(Wake(s))
  {
    hide ReadyOk, WaitingOk, BitsOk, AlarmsOk;
    MovePc(s, User);
    WakeFromQueueKeeps(SetPc(s, s.current.value, User), s.tasks[s.current.value].pc.sem);
  }

  lemma LockKeeps(s: State)
    requires Inv(s) && (s.current.Some? ==> !s.tasks[s.current.value].pc.Acquiring?)
    ensures Inv(Lock(s))
  {
    hide ReadyOk, WaitingOk, BitsOk, AlarmsOk;
  }

  lemma RestorePrepared(s: State, locked: bool)
    requires Inv(s) && (s.current.Some? ==> !s.tasks[s.current.value].pc.Acquiring?)
    ensures Prepared(s.(locked := locked))
  {
    hide ReadyOk, WaitingOk, BitsOk, AlarmsOk;
  }

  lemma RestoreKeeps(s: State, locked: bool)
    requires Inv(s) && (s.current.Some? ==> !s.tasks[s.current.value].pc.Acquiring?)
    ensures Inv(Restore(s, locked))
  {
    hide ReadyOk, WaitingOk, BitsOk, AlarmsOk;
    RestorePrepared(s, locked);
    Settle(s.(locked := locked));
  }

  // ----- core/timer.c

  /** What the loop of `eos_trigger_counter` keeps: alarms that are due may still be queued. */
  ghost predicate LoopInv(s: State) {
    Core(s, s.tick)
  }

  lemma LoopTyped(s: State)
    requires LoopInv(s)
    ensures Typed(s)
  {
  }

  /** The first due alarm, taken off the queue, with its handler run. */
  ghost function FireOne(s: State): (s': State)
    requires Typed(s) && s.alarms != []
    ensures Typed(s')
  {
    WakeFromAlarm(s.(alarms := s.alarms[1..]), s.alarms[0])
  }

  /** Whom the first due alarm belongs to. */
  lemma DueTask(s: State)
    requires LoopInv(s) && Due(s) && !AlarmHitsReady(s, s.alarms[0])
    ensures var t := s.alarms[0];
            t in s.tasks && t != IDLE && (s.tasks[t].owner == None ==> s.tasks[t].status == WAITING &&
                                                                       s.tasks[t].pc.User?) &&
            (s.tasks[t].status == READY ==> s.ready[s.tasks[t].priority] != [] && s.ready[s.tasks[t].priority][0] != t)
  {
    assert s.alarms[0] in s.alarms;
  }

  lemma WakeFromAlarmPlaced(s: State, t: TaskId)
    requires Typed(s) && Placed(s, {}) && t in s.tasks && !AlarmHitsReady(s, t)
    requires s.tasks[t].owner == None ==> s.tasks[t].status == WAITING && s.tasks[t].pc.User?
    requires s.tasks[t].status == READY ==> s.ready[s.tasks[t].priority] != []
    ensures Placed(WakeFromAlarm(s, t), {})
  {
    hide ReadyOk, WaitingOk, BitsOk;
    if s.tasks[t].owner.Some? {
      PickFromAnywhere(s, t);
      var s1 := Unlink(s, t);
      Rewrite(s1, t, s1.tasks[t].(owner := None));
      PutReady(With(s1, t, s1.tasks[t].(owner := None)), t);
    } else {
      PickUp(s, t);
      PutReady(s, t);
    }
  }

  lemma UnlinkFrame(s: State, t: TaskId)
    requires Typed(s)
    ensures Unlink(s, t) == s.(ready := Unlink(s, t).ready, waiting := Unlink(s, t).waiting)
  {
  }

  lemma WakeFromAlarmTask(s: State, t: TaskId)
    requires Typed(s) && t in s.tasks && !AlarmHitsReady(s, t)
    ensures var s' := WakeFromAlarm(s, t);
            s'.tasks == s.tasks[t := s.tasks[t].(status := READY, owner := None)] &&
            s'.alarms == s.alarms && s'.tick == s.tick && s'.current == s.current && s'.faulted == s.faulted &&
            s'.locked == s.locked && s'.sems == s.sems
  {
    hide Delete, Unlink;
    UnlinkFrame(s, t);
    if s.tasks[t].owner == None {
      assert s.tasks[t].(owner := None) == s.tasks[t];
    }
  }

  lemma FireOneTask(s: State)
    requires Typed(s) && s.alarms != [] && s.alarms[0] in s.tasks && !AlarmHitsReady(s, s.alarms[0])
    ensures var t, s' := s.alarms[0], FireOne(s);
            s'.tasks == s.tasks[t := s.tasks[t].(status := READY, owner := None)] &&
            s'.alarms == s.alarms[1..] && s'.tick == s.tick && s'.current == s.current && s'.faulted == s.faulted &&
            s'.locked == s.locked && s'.sems == s.sems
  {
    hide WakeFromAlarm;
    WakeFromAlarmTask(s.(alarms := s.alarms[1..]), s.alarms[0]);
  }

  lemma FireOneKeeps(s: State)
    requires LoopInv(s) && Due(s) && !AlarmHitsReady(s, s.alarms[0])
    ensures LoopInv(FireOne(s))
  {
    hide ReadyOk, WaitingOk, BitsOk, AlarmsOk, ArmedOk, Expects, WakeFromAlarm;
    DueTask(s);
    var s0 := s.(alarms := s.alarms[1..]);
    WakeFromAlarmPlaced(s0, s.alarms[0]);
    WakeFromAlarmTask(s0, s.alarms[0]);
    FiredAlarms(s, FireOne(s).tasks);
  }

  lemma FiredAlarms(s: State, tasks': map<TaskId, Task>)
    requires LoopInv(s) && Due(s)
    requires tasks'.Keys == s.tasks.Keys && forall x :: x in s.tasks && x != s.alarms[0] ==> tasks'[x] == s.tasks[x]
    requires tasks'[s.alarms[0]].status == READY && tasks'[s.alarms[0]].pc == s.tasks[s.alarms[0]].pc
    ensures AlarmsOk(tasks', s.alarms[1..], s.tick, s.tick)
  {
    var t := s.alarms[0];
    assert Delete(s.alarms, t) == s.alarms[1..] by { DeleteAt(s.alarms, 0); }
    Disarm(s.tasks, s.alarms, t, tasks', s.tick, s.tick);
  }

  /** Firing one alarm changes neither who is READY among the others nor who is first. */
  lemma OthersUnmoved(s: State, t: TaskId)
    requires LoopInv(s) && Due(s) && !AlarmHitsReady(s, s.alarms[0])
    requires t in s.alarms && t != s.alarms[0]
    ensures t in s.tasks && t in FireOne(s).tasks && (AlarmHitsReady(FireOne(s), t) <==> AlarmHitsReady(s, t))
  {
    hide WaitingOk, BitsOk, AlarmsOk, WakeFromAlarm;
    var h := s.alarms[0];
    var s0 := s.(alarms := s.alarms[1..]);
    DueTask(s);
    ArmedOwned(s, t);
    WakeFromAlarmTask(s0, h);
    if s.tasks[t].status == READY {
      var p := s.tasks[t].priority;
      assert t in s.ready[p];
      FirstUnmoved(s0, h, p);
    }
  }

  lemma ArmedOwned(s: State, t: TaskId)
    requires LoopInv(s) && t in s.alarms
    ensures t in s.tasks && (s.tasks[t].owner == None ==> s.tasks[t].status == WAITING)
  {
    hide ReadyOk, WaitingOk, BitsOk;
  }

  lemma FirstUnmoved(s: State, h: TaskId, p: nat)
    requires Typed(s) && h in s.tasks && !AlarmHitsReady(s, h) &&
             (s.tasks[h].owner == None ==> s.tasks[h].status != READY)
    requires p <= LOWEST_PRIORITY && s.ready[p] != [] && ReadyOk(s.tasks, s.ready, {})
    ensures var s' := WakeFromAlarm(s, h); s'.ready[p] != [] && s'.ready[p][0] == s.ready[p][0]
  {
    hide ReadyOk, WakeFromAlarm, AlarmHitsReady;
    OtherIsFirst(s, h, p);
    FirstStays(s, h, p);
  }

  lemma OtherIsFirst(s: State, h: TaskId, p: nat)
    requires Typed(s) && h in s.tasks && !AlarmHitsReady(s, h) &&
             (s.tasks[h].owner == None ==> s.tasks[h].status != READY)
    requires p <= LOWEST_PRIORITY && s.ready[p] != [] && ReadyOk(s.tasks, s.ready, {})
    ensures s.ready[p][0] != h
  {
    assert s.ready[p][0] in s.ready[p];
  }

  lemma FirstStays(s: State, h: TaskId, p: nat)
    requires Typed(s) && h in s.tasks && !AlarmHitsReady(s, h) && p <= LOWEST_PRIORITY && s.ready[p] != [] &&
             s.ready[p][0] != h
    ensures var s' := WakeFromAlarm(s, h); s'.ready[p] != [] && s'.ready[p][0] == s.ready[p][0]
  {
    hide Delete, AlarmHitsReady, Typed, TypedTask;
    Levels(s);
    DeleteKeepsFirst(s.ready[p], h);
  }

  lemma Levels(s: State)
    requires Typed(s)
    ensures |s.ready| == LOWEST_PRIORITY + 1
  {
  }

  lemma DeleteKeepsFirst(s: seq<nat>, x: nat)
    requires s != [] && s[0] != x
    ensures Delete(s, x) != [] && Delete(s, x)[0] == s[0]
  {
  }

  /** Some due alarm finds its task READY and first in its queue. */
  ghost predicate DueAlarmHits(s: State)
    requires Typed(s)
  {
    exists t :: t in s.alarms && s.tasks[t].alarmTime <= s.tick && AlarmHitsReady(s, t)
  }

  lemma NoneDue(s: State)
    requires LoopInv(s) && !Due(s)
    ensures forall t :: t in s.alarms ==> s.tick < s.tasks[t].alarmTime
  {
    if s.alarms != [] {
      forall t | t in s.alarms
        ensures s.tasks[s.alarms[0]].alarmTime <= s.tasks[t].alarmTime
      {
        var i :| 0 <= i < |s.alarms| && s.alarms[i] == t;
      }
    }
  }

  lemma HitsStay(s: State)
    requires LoopInv(s) && Due(s) && !AlarmHitsReady(s, s.alarms[0])
    ensures DueAlarmHits(FireOne(s)) <==> DueAlarmHits(s)
  {
    hide ReadyOk, WaitingOk, BitsOk, ArmedOk, WakeFromAlarm, AlarmHitsReady;
    var s' := FireOne(s);
    FireOneTask(s);
    forall t | t in s.alarms && t != s.alarms[0]
      ensures AlarmHitsReady(s', t) <==> AlarmHitsReady(s, t)
    {
      OthersUnmoved(s, t);
    }
    assert Delete(s.alarms, s.alarms[0]) == s.alarms[1..] by { DeleteAt(s.alarms, 0); }
    assert forall t :: t in s'.alarms <==> t in s.alarms && t != s.alarms[0];
  }

  /** The loop ends without a fault if and only if no due alarm finds its task READY and first in
      its queue; then nothing due is left. */
  lemma {:induction false} FireDueExact(s: State)
    requires LoopInv(s)
    ensures FireDue(s).faulted <==> DueAlarmHits(s)
    ensures !DueAlarmHits(s) ==> LoopInv(FireDue(s)) && !Due(FireDue(s))
    decreases |s.alarms|
  {
    hide ReadyOk, WaitingOk, BitsOk, AlarmsOk, WakeFromAlarm, AlarmHitsReady;
    if !Due(s) {
      NoneDue(s);
    } else if AlarmHitsReady(s, s.alarms[0]) {
      HeadHits(s);
    } else {
      FireOneKeeps(s);
      HitsStay(s);
      FireOneTask(s);
      FireDueExact(FireOne(s));
    }
  }

  lemma FirstIsSafe(s: State)
    requires LoopInv(s) && Due(s) && !DueAlarmHits(s)
    ensures s.alarms[0] in s.tasks && !AlarmHitsReady(s, s.alarms[0])
  {
    assert s.alarms[0] in s.alarms;
  }

  lemma OneFired(s: State)
    requires Typed(s) && !s.faulted && Due(s)
    ensures FireDue(s) == FireDue(FireOne(s))
  {
  }

  lemma HeadHits(s: State)
    requires Typed(s) && !s.faulted && Due(s) && AlarmHitsReady(s, s.alarms[0])
    ensures DueAlarmHits(s) && FireDue(s).faulted
  {
    assert s.alarms[0] in s.alarms;
  }

  lemma {:induction false} FireDueFrame(s: State)
    requires LoopInv(s) && !DueAlarmHits(s)
    ensures FireDue(s).tasks.Keys == s.tasks.Keys && FireDue(s).tick == s.tick
    ensures FireDue(s).current == s.current && FireDue(s).locked == s.locked && FireDue(s).sems == s.sems
    decreases |s.alarms|
  {
    hide ReadyOk, WaitingOk, BitsOk, AlarmsOk, WakeFromAlarm, AlarmHitsReady;
    if Due(s) {
      if AlarmHitsReady(s, s.alarms[0]) {
        HeadHits(s);
      } else {
        FireOneKeeps(s);
        FireOneTask(s);
        HitsStay(s);
        FireDueFrame(FireOne(s));
      }
    }
  }

  /** What the loop does: exactly the alarms that are due fire, each making its task READY, and
      every other task and alarm stays as it was. */
  lemma {:induction false} FireDueEffect(s: State, t: TaskId)
    requires LoopInv(s) && !DueAlarmHits(s) && t in s.tasks
    ensures t in FireDue(s).tasks
    ensures t in FireDue(s).alarms <==> t in s.alarms && s.tick < s.tasks[t].alarmTime
    ensures FireDue(s).tasks[t] == if t in s.alarms && s.tasks[t].alarmTime <= s.tick
                                   then s.tasks[t].(status := READY, owner := None) else s.tasks[t]
    decreases |s.alarms|
  {
    hide ReadyOk, WaitingOk, BitsOk, AlarmsOk, WakeFromAlarm, AlarmHitsReady;
    if !Due(s) {
      NoneDue(s);
    } else if AlarmHitsReady(s, s.alarms[0]) {
      HeadHits(s);
    } else {
      FireOneKeeps(s);
      FireOneTask(s);
      HitsStay(s);
      HeadGone(s);
      FireDueEffect(FireOne(s), t);
    }
  }

  lemma HeadGone(s: State)
    requires LoopInv(s) && s.alarms != []
    ensures s.alarms[0] !in s.alarms[1..]
  {
  }

  /** A tick faults if and only if an alarm that comes due with it finds its task READY and
      first in its ready queue. */
  ghost predicate TickHits(s: State) {
    Typed(s) && exists t :: t in s.alarms && s.tasks[t].alarmTime <= s.tick + 1 && AlarmHitsReady(s, t)
  }

  lemma TickStarts(s: State)
    requires Inv(s) && s.tick + 1 < WORD
    ensures var s1 := s.(tick := s.tick + 1); LoopInv(s1) && (DueAlarmHits(s1) <==> TickHits(s))
  {
    hide ReadyOk, WaitingOk, BitsOk, ArmedOk, RunningOk, Undisturbed;
    var s1 := s.(tick := s.tick + 1);
    assert forall t :: t in s.tasks ==> (AlarmHitsReady(s1, t) <==> AlarmHitsReady(s, t));
  }

  lemma TickEnds(s: State)
    requires LoopInv(s) && !Due(s)
    ensures Core(s, s.tick + 1)
  {
    hide ReadyOk, WaitingOk, BitsOk, ArmedOk, RunningOk;
    NoneDue(s);
  }

  lemma LoopLetsGoOn(s: State)
    requires Inv(s) && s.tick + 1 < WORD && !TickHits(s)
    ensures var s2 := FireDue(s.(tick := s.tick + 1)); s2.tick == s.tick + 1 && MayGoOn(s2)
  {
    hide ReadyOk, WaitingOk, BitsOk, AlarmsOk, FireDue;
    var s1 := s.(tick := s.tick + 1);
    TickStarts(s);
    FireDueFrame(s1);
    if s.locked && s.current.Some? {
      NotArmed(s, s.current.value);
      FireDueEffect(s1, s.current.value);
    }
  }

  lemma TickPrepared(s: State)
    requires Inv(s) && s.tick + 1 < WORD && !TickHits(s)
    ensures Typed(s.(tick := s.tick + 1)) && Prepared(FireDue(s.(tick := s.tick + 1)))
  {
    hide ReadyOk, WaitingOk, BitsOk, AlarmsOk, RunningOk, Undisturbed, FireDue, DueAlarmHits, TickHits;
    var s1 := s.(tick := s.tick + 1);
    TickStarts(s);
    FireDueExact(s1);
    TickEnds(FireDue(s1));
    LoopLetsGoOn(s);
  }

  lemma TickKeeps(s: State)
    requires Inv(s) && s.tick + 1 < WORD
    ensures Tick(s).faulted <==> TickHits(s)
    ensures !TickHits(s) ==> Inv(Tick(s))
  {
    hide ReadyOk, WaitingOk, BitsOk, AlarmsOk, RunningOk, Undisturbed, FireDue, DueAlarmHits, TickHits, Schedule;
    var s1 := s.(tick := s.tick + 1);
    NoWrap(s.tick, 1);
    TickStarts(s);
    FireDueExact(s1);
    if TickHits(s) {
      FaultStays(FireDue(s1));
    } else {
      TickPrepared(s);
      Settle(FireDue(s1));
    }
  }

  lemma FaultStays(s: State)
    requires Typed(s) && s.faulted
    ensures Schedule(s).faulted
  {
  }
}
