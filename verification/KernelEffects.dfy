/**
  What each call of `core/task.c` and `core/sync.c` does, said of the states before and after it and
  of their queues as sequences.  Where a call ends in `eos_schedule`, the lemma returns the state
  it calls it in.
 */
module KernelEffects {
  import opened Queues
  import opened ReadyBitmap
  import opened KernelState
  import opened KernelInvariant
  import opened KernelSteps
  import opened KernelRuns
  import opened KernelSync
  import opened KernelFairness
  import opened KernelStranded

  /** `r` is `q` without its element `x`, the others in their places. */
  ghost predicate Without(q: seq<TaskId>, r: seq<TaskId>, x: TaskId) {
    exists i :: 0 <= i < |q| && q[i] == x && r == q[..i] + q[i + 1..]
  }

  /** `r` is `q` with `x` behind all elements up to the first of a greater key. */
  ghost predicate Slotted(q: seq<TaskId>, r: seq<TaskId>, x: TaskId, key: map<TaskId, nat>) {
    x in key && (forall y :: y in q ==> y in key) &&
    exists k :: 0 <= k <= |q| && r == q[..k] + [x] + q[k..] &&
                (forall i :: 0 <= i < k ==> key[q[i]] <= key[x]) && (k < |q| ==> key[q[k]] > key[x])
  }

  lemma DeletedIs(q: seq<TaskId>, x: TaskId)
    requires Distinct(q) && x in q
    ensures Without(q, Delete(q, x), x) && x !in Delete(q, x)
  {
    DeleteAt(q, IndexOf(q, x));
  }

  lemma InsertedIs(q: seq<TaskId>, x: TaskId, key: map<TaskId, nat>)
    requires x in key && forall y :: y in q ==> y in key
    ensures Slotted(q, InsertOrdered(q, x, key), x, key)
  {
    var vals := KeysOf(q, key);
    var k := FirstAbove(vals, key[x]);
    assert forall i :: 0 <= i < |q| ==> vals[i] == key[q[i]];
  }

  // ----- tasks

  /** `eos_suspend_task` takes a READY task off its ready queue and leaves any other alone. */
  lemma SuspendStep(s: State, t: TaskId)
    requires Inv(s) && Enabled(s, DoSuspend(t))
    ensures var s', p := Step(s, DoSuspend(t)), s.tasks[t].priority;
            s.tasks[t].status == READY ==>
              p < |s.ready| && p < |s'.ready| && Without(s.ready[p], s'.ready[p], t) &&
              s' == s.(tasks := s.tasks[t := s.tasks[t].(status := SUSPENDED)],
                       ready := s.ready[p := s'.ready[p]], bits := s'.bits) &&
              (forall q :: 0 <= q <= LOWEST_PRIORITY ==> t !in s'.ready[q]) &&
              forall q :: q in s'.bits <==> 0 <= q <= LOWEST_PRIORITY && s'.ready[q] != []
    ensures s.tasks[t].status != READY ==> Step(s, DoSuspend(t)) == s
  {
    hide Delete, WaitingOk, AlarmsOk, RunningOk, Undisturbed;
    if s.tasks[t].status == READY {
      DeletedIs(s.ready[s.tasks[t].priority], t);
    }
  }

  /** `eos_resume_task` puts a SUSPENDED task behind its equals and leaves any other alone. */
  lemma ResumeStep(s: State, t: TaskId) returns (s1: State)
    requires Inv(s) && Enabled(s, DoResume(t))
    ensures s.tasks[t].status != SUSPENDED ==> Step(s, DoResume(t)) == s
    ensures s.tasks[t].status == SUSPENDED ==>
      var p := s.tasks[t].priority;
      Typed(s1) && Prepared(s1) && Step(s, DoResume(t)) == Schedule(s1) && p < |s.ready| &&
      s1 == s.(tasks := s.tasks[t := s.tasks[t].(status := READY)], ready := s.ready[p := s.ready[p] + [t]],
               bits := s.bits + {p})
  {
    hide ReadyOk, WaitingOk, AlarmsOk, RunningOk, Undisturbed, Schedule, Prepared;
    s1 := s;
    if s.tasks[t].status == SUSPENDED {
      ResumePrepared(s, t);
      s1 := MakeReady(s, t);
    }
  }

  /** `eos_create_task` refuses priorities above 63 and stacks below 1024 bytes; otherwise the new task
      is READY behind its equals, without period, alarm or owner. */
  lemma CreateStep(s: State, t: TaskId, stackSize: nat, priority: nat) returns (s1: State)
    requires Inv(s) && Enabled(s, DoCreate(t, stackSize, priority))
    ensures priority > 63 || stackSize < 1024 ==> Step(s, DoCreate(t, stackSize, priority)) == s
    ensures priority <= 63 && stackSize >= 1024 ==>
      Typed(s1) && Prepared(s1) && Step(s, DoCreate(t, stackSize, priority)) == Schedule(s1) && priority < |s.ready| &&
      s1 == s.(tasks := s.tasks[t := Task(READY, priority, 0, 0, None, 0, User)],
               ready := s.ready[priority := s.ready[priority] + [t]], bits := s.bits + {priority})
  {
    hide ReadyOk, WaitingOk, AlarmsOk, RunningOk, Undisturbed, Schedule, Prepared;
    s1 := s;
    if priority <= 63 && stackSize >= 1024 {
      CreatePrepared(s, t, priority);
      var s0 := s.(tasks := s.tasks[t := Task(SUSPENDED, priority, 0, 0, None, 0, User)]);
      s1 := MakeReady(s0, t);
      assert s1.tasks == s.tasks[t := Task(READY, priority, 0, 0, None, 0, User)];
    }
  }

  /** The task has the new priority; when it is READY it has moved behind its new equals. */
  ghost predicate Rerated(s: State, s1: State, t: TaskId, priority: nat) {
    t in s.tasks && s1 == s.(tasks := s.tasks[t := s.tasks[t].(priority := priority)], ready := s1.ready,
                             bits := s1.bits) &&
    if s.tasks[t].status == READY then
      s.tasks[t].priority < |s.ready| && priority < |s.ready| &&
      exists rest :: Without(s.ready[s.tasks[t].priority], rest, t) &&
                     var ready := s.ready[s.tasks[t].priority := rest];
                     s1.ready == ready[priority := ready[priority] + [t]]
    else s1.ready == s.ready && s1.bits == s.bits
  }

  /** `eos_change_priority` refuses priorities above 63; a READY task moves behind its new equals, and
      nothing else moves. */
  lemma PriorityStep(s: State, t: TaskId, priority: nat) returns (s1: State)
    requires Inv(s) && Enabled(s, DoChangePriority(t, priority))
    ensures priority > 63 ==> Step(s, DoChangePriority(t, priority)) == s
    ensures priority <= 63 ==>
      Typed(s1) && Prepared(s1) && Step(s, DoChangePriority(t, priority)) == Schedule(s1) && Rerated(s, s1, t, priority)
  {
    hide Inv, Schedule, Prepared, Repriced, Rerated;
    s1 := s;
    if priority <= 63 {
      ChangePriorityPrepared(s, t, priority);
      RepricedIs(s, t, priority);
      s1 := Repriced(s, t, priority);
      PriorityRuns(s, t, priority);
    }
  }

  lemma PriorityRuns(s: State, t: TaskId, priority: nat)
    requires Typed(s) && t in s.tasks && priority <= LOWEST_PRIORITY
    ensures ChangePriority(s, t, priority) == Schedule(Repriced(s, t, priority))
  {
    hide Typed, LeaveReady, MakeReady, Schedule;
  }

  lemma RepricedIs(s: State, t: TaskId, priority: nat)
    requires Inv(s) && t in s.tasks && priority <= LOWEST_PRIORITY
    ensures Rerated(s, Repriced(s, t, priority), t, priority)
  {
    hide WaitingOk, BitsOk, AlarmsOk, RunningOk, Undisturbed, Delete, Without;
    if s.tasks[t].status == READY {
      DeletedIs(s.ready[s.tasks[t].priority], t);
      assert Repriced(s, t, priority).tasks == s.tasks[t := s.tasks[t].(priority := priority)];
    }
  }

  /** `eos_set_period` sets the period and counts releases from now on. */
  lemma PeriodStep(s: State, t: TaskId, period: nat)
    requires Enabled(s, DoSetPeriod(t, period))
    ensures Step(s, DoSetPeriod(t, period)) ==
      s.(tasks := s.tasks[t := s.tasks[t].(period := period, wakeupTime := s.tick)])
  {
  }

  lemma LockStep(s: State)
    requires Enabled(s, DoLock)
    ensures Step(s, DoLock) == s.(locked := true)
  {
  }

  lemma RestoreStep(s: State, locked: bool)
    requires Inv(s) && Enabled(s, DoRestore(locked))
    ensures Prepared(s.(locked := locked)) && Step(s, DoRestore(locked)) == Schedule(s.(locked := locked))
    ensures locked ==> Step(s, DoRestore(locked)) == s.(locked := true)
  {
    hide ReadyOk, WaitingOk, BitsOk, AlarmsOk, RunningOk, Undisturbed, Prepared;
    RestorePrepared(s, locked);
  }

  // ----- eos_sleep

  /** `alarms` is the alarm queue when `t` has set its alarm for `deadline`. */
  ghost predicate ArmedAt(s: State, alarms: seq<TaskId>, t: TaskId, deadline: nat) {
    Slotted(s.alarms, alarms, t, AlarmTimes(s.tasks)[t := deadline])
  }

  /** Locked, `eos_sleep` returns at once.  So it does with 0 ticks when the next release has passed,
      which it counts. */
  lemma SleepReturns(s: State, ticks: nat)
    requires Enabled(s, DoSleep(ticks))
    ensures s.locked ==> Step(s, DoSleep(ticks)) == s
    ensures var t := s.current.value; var task := s.tasks[t];
            !s.locked && ticks == 0 && task.period != 0 && task.wakeupTime + task.period <= s.tick ==>
              Step(s, DoSleep(ticks)) ==
                s.(tasks := s.tasks[t := task.(wakeupTime := task.wakeupTime + task.period)])
  {
    hide Schedule, SetAlarm;
    var task := s.tasks[s.current.value];
    if ticks == 0 && task.period != 0 {
      NoWrap(task.wakeupTime, task.period);
    }
  }

  lemma AlarmSetIs(s: State, t: TaskId, timeout: nat)
    requires Typed(s) && t in s.tasks && t !in s.alarms && (timeout > 0 ==> s.tick + timeout < WORD)
    ensures timeout == 0 ==> SetAlarm(s, t, timeout) == s
    ensures var s1, d := SetAlarm(s, t, timeout), s.tick + timeout;
            timeout > 0 ==>
              s1 == s.(tasks := s.tasks[t := s.tasks[t].(alarmTime := d)], alarms := s1.alarms) &&
              ArmedAt(s, s1.alarms, t, d)
  {
    hide ArmAt, ArmedAt, TypedTask;
    assert s.(alarms := Delete(s.alarms, t)) == s;
    if timeout > 0 {
      NoWrap(s.tick, timeout);
      ArmedIs(s, t, s.tick + timeout);
    }
  }

  lemma ArmedIs(s: State, t: TaskId, d: nat)
    requires Typed(s) && t in s.tasks
    ensures var s1 := ArmAt(s, t, d);
            s1 == s.(tasks := s.tasks[t := s.tasks[t].(alarmTime := d)], alarms := s1.alarms) &&
            ArmedAt(s, s1.alarms, t, d)
  {
    hide InsertOrdered, TypedTask, Slotted;
    var key := AlarmTimes(s.tasks[t := s.tasks[t].(alarmTime := d)]);
    assert key == AlarmTimes(s.tasks)[t := d];
    InsertedIs(s.alarms, t, key);
  }

  lemma CallerUnarmed(s: State)
    requires Inv(s) && UserRuns(s)
    ensures s.current.value in s.tasks && s.tasks[s.current.value].status == RUNNING && s.current.value !in s.alarms
  {
  }

  /** Otherwise the caller waits, with its alarm armed for `tick + ticks`, or with 0 for its next
      release; with 0 and no period it waits without an alarm. */
  lemma SleepWaits(s: State, ticks: nat) returns (s1: State)
    requires Inv(s) && Enabled(s, DoSleep(ticks)) && !s.locked
    requires var task := s.tasks[s.current.value];
             !(ticks == 0 && task.period != 0 && task.wakeupTime + task.period <= s.tick)
    ensures Typed(s1) && Prepared(s1) && Step(s, DoSleep(ticks)) == Schedule(s1)
    ensures var t := s.current.value; var task := s.tasks[t];
            var released := if ticks == 0 && task.period != 0 then task.wakeupTime + task.period else task.wakeupTime;
            var d := if ticks == 0 then released else s.tick + ticks;
            if ticks == 0 && task.period == 0
            then s1 == s.(tasks := s.tasks[t := task.(status := WAITING)])
            else s1 == s.(tasks := s.tasks[t := task.(status := WAITING, wakeupTime := released, alarmTime := d)],
                          alarms := s1.alarms) && ArmedAt(s, s1.alarms, t, d)
  {
    hide Inv, SetAlarm, Schedule, Prepared, ArmedAt;
    var t := s.current.value;
    var task := s.tasks[t];
    CallerUnarmed(s);
    if ticks == 0 && task.period != 0 {
      NoWrap(task.wakeupTime, task.period);
      var next := task.wakeupTime + task.period;
      AlarmSetIs(With(s, t, task.(wakeupTime := next)), t, next - s.tick);
      SameTimes(s, t, task.(wakeupTime := next),
                SetAlarm(With(s, t, task.(wakeupTime := next)), t, next - s.tick).alarms, next);
    } else {
      AlarmSetIs(s, t, ticks);
    }
    SleepHanded(s, ticks);
    s1 := FallenAsleep(s, ticks);
  }

  /** Where an alarm stands depends on the deadlines only. */
  lemma SameTimes(s: State, t: TaskId, task: Task, alarms: seq<TaskId>, deadline: nat)
    requires t in s.tasks && task.alarmTime == s.tasks[t].alarmTime
    requires ArmedAt(s.(tasks := s.tasks[t := task]), alarms, t, deadline)
    ensures ArmedAt(s, alarms, t, deadline)
  {
    assert AlarmTimes(s.tasks[t := task]) == AlarmTimes(s.tasks);
  }

  // ----- semaphores

  /** `w` is the wait queue `q` when task `t` has joined it. */
  ghost predicate Joined(s: State, q: SemId, w: seq<TaskId>, t: TaskId)
    requires q in s.sems && q in s.waiting
  {
    if s.sems[q].byPriority then Slotted(s.waiting[q], w, t, Priorities(s.tasks)) else w == s.waiting[q] + [t]
  }

  /** In `s1` the caller of `s` waits in the queue of `q`, as `task` otherwise; only the alarms may
      differ too. */
  ghost predicate Waits(s: State, s1: State, q: SemId, task: Task) {
    s.current.Some? && q in s.sems && q in s.waiting && q in s1.waiting &&
    Joined(s, q, s1.waiting[q], s.current.value) &&
    s1 == s.(tasks := s.tasks[s.current.value := task.(status := WAITING, owner := Some(q))],
             waiting := s.waiting[q := s1.waiting[q]], alarms := s1.alarms)
  }

  /** An acquire of a positive count succeeds, whatever the timeout: it takes one unit, and nothing
      else changes. */
  lemma AcquireTakes(s: State, q: SemId, timeout: int)
    requires Enabled(s, DoAcquire(q, timeout)) && Conserved(s.sems[q]) && !s.locked && s.sems[q].count > 0
    ensures var sem := s.sems[q];
            Step(s, DoAcquire(q, timeout)) ==
              s.(sems := s.sems[q := sem.(count := sem.count - 1, acquired := sem.acquired + 1)])
  {
  }

  /** It fails with the scheduler locked, and with a negative timeout when the count is not positive;
      then nothing changes. */
  lemma AcquireFails(s: State, q: SemId, timeout: int)
    requires Enabled(s, DoAcquire(q, timeout)) && (s.locked || (s.sems[q].count <= 0 && timeout < 0))
    ensures Step(s, DoAcquire(q, timeout)) == s
  {
  }

  /** Otherwise the caller waits in the queue of the semaphore, with an alarm when the timeout is
      positive. */
  lemma AcquireWaits(s: State, q: SemId, timeout: int) returns (s1: State)
    requires Inv(s) && Enabled(s, DoAcquire(q, timeout)) && !s.locked && s.sems[q].count <= 0 && timeout >= 0
    ensures s.current.Some? && s.current.value in s.tasks
    ensures Typed(s1) && Prepared(s1) && Step(s, DoAcquire(q, timeout)) == Schedule(s1)
    ensures var t, d := s.current.value, (s.tick + timeout) % 0x1_0000_0000; var task := s.tasks[t];
            Waits(s, s1, q, task.(pc := Acquiring(q, timeout, d),
                                  alarmTime := if timeout > 0 then d else task.alarmTime)) &&
            if timeout > 0 then d == s.tick + timeout && ArmedAt(s, s1.alarms, t, d) else s1.alarms == s.alarms
  {
    hide Inv, Enter, Schedule, Prepared, ArmedAt, InsertOrdered, Joined;
    var t := s.current.value;
    EnteredIs(s, q, timeout);
    AcquirePrepared(s, q, timeout);
    s1 := Enqueue(Enter(s, t, q, timeout), q);
    JoinsByType(Enter(s, t, q, timeout), s, q);
  }

  /** What that leaves the caller in. */
  lemma AcquirerWaits(s: State, q: SemId, timeout: int)
    requires Inv(s) && Enabled(s, DoAcquire(q, timeout)) && !s.locked && s.sems[q].count <= 0 && timeout >= 0
    ensures var s', t, d := Step(s, DoAcquire(q, timeout)), s.current.value, s.tick + timeout;
            s'.sems == s.sems && t in s'.tasks && s'.tasks[t].status == WAITING && s'.current != Some(t) &&
            q in s'.waiting && t in s'.waiting[q] && s'.tasks[t].owner == Some(q) &&
            (timeout == 0 ==> s'.tasks[t].pc.Acquiring? && s'.tasks[t].pc.timeout == 0 && t !in s'.alarms) &&
            (timeout > 0 ==> s'.tasks[t].pc == Acquiring(q, timeout, d) && t in s'.alarms && s'.tasks[t].alarmTime == d)
  {
    hide Inv, Step, Schedule, Prepared;
    var s1 := AcquireWaits(s, q, timeout);
    CallerUnarmed(s);
    ScheduleFrame(s1);
    PreparedCore(s1);
    ScheduleKeepsWaiting(s1, s.current.value);
    StepKeeps(s, DoAcquire(q, timeout));
    WaitersDontRun(Step(s, DoAcquire(q, timeout)), s.current.value);
  }

  lemma PreparedCore(s: State)
    requires Prepared(s)
    ensures Core(s, s.tick + 1)
  {
    hide Core;
  }

  lemma WaitersDontRun(s: State, t: TaskId)
    requires Inv(s) && t in s.tasks && s.tasks[t].status == WAITING
    ensures s.current != Some(t)
  {
  }

  lemma EnteredIs(s: State, q: SemId, timeout: nat)
    requires Inv(s) && Enabled(s, DoAcquire(q, timeout))
    ensures var t, d := s.current.value, (s.tick + timeout) % 0x1_0000_0000; var task := s.tasks[t];
            var s1 := Enter(s, t, q, timeout);
            s1 == s.(tasks := s.tasks[t := task.(pc := Acquiring(q, timeout, d),
                                                 alarmTime := if timeout > 0 then d else task.alarmTime)],
                     alarms := s1.alarms) &&
            Priorities(s1.tasks) == Priorities(s.tasks) &&
            if timeout > 0 then d == s.tick + timeout && ArmedAt(s, s1.alarms, t, d) else s1.alarms == s.alarms
  {
    hide Inv, SetAlarm, ArmedAt;
    CallerUnarmed(s);
    AlarmSetIs(s, s.current.value, timeout);
    if timeout > 0 {
      NoWrap(s.tick, timeout);
    }
  }

  lemma JoinsByType(s1: State, s: State, q: SemId)
    requires Typed(s1) && s1.current.Some? && q in s1.sems && q in s.sems && q in s.waiting
    requires s1.sems == s.sems && s1.waiting == s.waiting && Priorities(s1.tasks) == Priorities(s.tasks)
    ensures q in Enqueue(s1, q).waiting && Joined(s, q, Enqueue(s1, q).waiting[q], s1.current.value)
  {
    hide InsertOrdered;
    InsertedIs(s.waiting[q], s1.current.value, Priorities(s.tasks));
  }

  /** The running task is inside an acquire and tests again. */
  ghost predicate Retries(s: State) {
    Inv(s) && Enabled(s, DoRetry)
  }

  /** At or after its deadline it gives up, whatever the count, and leaves its alarm as it is. */
  lemma RetryGivesUp(s: State)
    requires Retries(s)
    requires var pc := s.tasks[s.current.value].pc; pc.timeout != 0 && pc.deadline <= s.tick
    ensures var t := s.current.value; Step(s, DoRetry) == s.(tasks := s.tasks[t := s.tasks[t].(pc := User)])
  {
    hide Inv;
  }

  /** Before it, or without one, it takes a unit when there is one and disarms its alarm. */
  lemma RetryTakesUnit(s: State)
    requires Retries(s) && Conserved(s.sems[s.tasks[s.current.value].pc.sem])
    requires var pc := s.tasks[s.current.value].pc;
             !(pc.timeout != 0 && pc.deadline <= s.tick) && s.sems[pc.sem].count > 0
    ensures var t := s.current.value; var q := s.tasks[t].pc.sem; var sem, s' := s.sems[q], Step(s, DoRetry);
            s' == s.(tasks := s.tasks[t := s.tasks[t].(pc := User)], alarms := s'.alarms,
                     sems := s.sems[q := sem.(count := sem.count - 1, acquired := sem.acquired + 1)]) &&
            if t in s.alarms then Without(s.alarms, s'.alarms, t) else s'.alarms == s.alarms
  {
    hide Inv, SetAlarm, Without, Delete, Distinct;
    AlarmOff(s, s.current.value);
  }

  lemma AlarmOff(s: State, t: TaskId)
    requires Inv(s) && t in s.tasks
    ensures var s1 := SetAlarm(s, t, 0);
            s1 == s.(alarms := s1.alarms) &&
            if t in s.alarms then Without(s.alarms, s1.alarms, t) else s1.alarms == s.alarms
  {
    hide ReadyOk, WaitingOk, BitsOk, RunningOk, Undisturbed, Delete;
    if t in s.alarms {
      DeletedIs(s.alarms, t);
    }
  }

  /** When there is none it waits again, with the alarm it has. */
  lemma RetryWaits(s: State) returns (s1: State)
    requires Retries(s)
    requires var pc := s.tasks[s.current.value].pc;
             !(pc.timeout != 0 && pc.deadline <= s.tick) && s.sems[pc.sem].count <= 0
    ensures Typed(s1) && Prepared(s1) && Step(s, DoRetry) == Schedule(s1)
    ensures s.current.Some? && s.current.value in s.tasks && s.tasks[s.current.value].pc.Acquiring?
    ensures Waits(s, s1, s.tasks[s.current.value].pc.sem, s.tasks[s.current.value]) && s1.alarms == s.alarms
  {
    hide Inv, Schedule, Prepared, InsertOrdered;
    RetryPrepared(s);
    JoinsByType(s, s, s.tasks[s.current.value].pc.sem);
    s1 := Enqueue(s, s.tasks[s.current.value].pc.sem);
  }

  /** A release adds a unit; its second half comes next. */
  lemma ReleaseStep(s: State, q: SemId)
    requires Enabled(s, DoRelease(q)) && Conserved(s.sems[q])
    ensures var t, sem := s.current.value, s.sems[q];
            Step(s, DoRelease(q)) ==
              s.(tasks := s.tasks[t := s.tasks[t].(pc := Releasing(q))],
                 sems := s.sems[q := sem.(count := sem.count + 1, released := sem.released + 1)])
  {
  }

  /** That half makes the first waiter READY behind its equals, if there is one, and leaves its alarm
      and its owner as they are. */
  lemma WakeStep(s: State) returns (s1: State)
    requires Inv(s) && Enabled(s, DoWake)
    ensures var t := s.current.value; var q := s.tasks[t].pc.sem;
            var s0 := s.(tasks := s.tasks[t := s.tasks[t].(pc := User)]);
            q in s.waiting &&
            if s.waiting[q] == [] then Step(s, DoWake) == s0
            else
              var x := s.waiting[q][0];
              Typed(s1) && Prepared(s1) && Step(s, DoWake) == Schedule(s1) &&
              x in s.tasks && x != t && s.tasks[x].priority < |s.ready| &&
              s1 == s0.(tasks := s0.tasks[x := s.tasks[x].(status := READY)],
                        waiting := s.waiting[q := s.waiting[q][1..]],
                        ready := s.ready[s.tasks[x].priority := s.ready[s.tasks[x].priority] + [x]],
                        bits := s.bits + {s.tasks[x].priority})
  {
    hide Inv, Schedule, Prepared, Delete;
    var t := s.current.value;
    var q := s.tasks[t].pc.sem;
    s1 := s;
    if s.waiting[q] != [] {
      FirstWaits(s, q);
      FirstDeleted(s.waiting[q]);
      WakeHanded(s);
      s1 := WokenFirst(SetPc(s, t, User), q);
    }
  }

  lemma FirstWaits(s: State, q: SemId)
    requires Inv(s) && q in s.waiting && s.waiting[q] != []
    ensures s.waiting[q][0] in s.tasks && s.current != Some(s.waiting[q][0])
  {
    hide ReadyOk, BitsOk, AlarmsOk, RunningOk, Undisturbed;
    assert s.waiting[q][0] in s.waiting[q];
  }

  /** A new semaphore has the count and the type asked for, and nobody waits. */
  lemma InitStep(s: State, q: SemId, count: int, byPriority: bool)
    requires Enabled(s, DoInitSemaphore(q, count, byPriority))
    ensures Step(s, DoInitSemaphore(q, count, byPriority)) ==
      s.(sems := s.sems[q := Semaphore(count, byPriority, count, 0, 0)], waiting := s.waiting[q := []])
  {
  }
}
