/** Time and turns: sleeps end on their tick, periodic tasks do not drift, equals take turns. */
module KernelTiming {
  import opened Queues
  import opened ReadyBitmap
  import opened KernelState
  import opened KernelInvariant
  import opened KernelSteps
  import opened KernelRuns

  // ----- what a step leaves alone

  /** The next release a periodic task has asked for, as `eos_set_period` and `eos_sleep(0)` leave it. */
  ghost function NextRelease(s: State, a: Action, t: TaskId): nat
    requires Typed(s) && t in s.tasks
  {
    if a == DoSleep(0) && s.current == Some(t) && !s.locked && s.tasks[t].period != 0
    then Add32(s.tasks[t].wakeupTime, s.tasks[t].period)
    else if a.DoSetPeriod? && a.t == t then s.tick else s.tasks[t].wakeupTime
  }

  /** `task` is what step `a` may have made of task `t`. */
  ghost predicate Framed(s: State, a: Action, t: TaskId, task: Task)
    requires Typed(s) && t in s.tasks
  {
    task.wakeupTime == NextRelease(s, a, t) &&
    task.period == (if a.DoSetPeriod? && a.t == t then a.period else s.tasks[t].period) &&
    (s.current != Some(t) ==> task.pc == s.tasks[t].pc && task.alarmTime == s.tasks[t].alarmTime)
  }

  /** A step changes the releases as `NextRelease` says, and nobody's alarm but the caller's. */
  ghost predicate FramedStep(s: State, a: Action, s': State)
    requires Typed(s)
  {
    (forall t :: t in s.tasks ==> t in s'.tasks && Framed(s, a, t, s'.tasks[t])) &&
    (forall t :: t in s.tasks && s.current != Some(t) ==> (t in s'.alarms <==> t in s.alarms)) &&
    s'.tick == s.tick
  }

  lemma FramedThenSchedule(s: State, a: Action, s1: State)
    requires Typed(s) && Typed(s1) && FramedStep(s, a, s1)
    ensures FramedStep(s, a, Schedule(s1))
  {
    hide Schedule, NextRelease, Typed;
    ScheduleOnlyWakes(s1);
    ScheduleFrame(s1);
  }

  /** One task rewritten, the queues changed at will. */
  lemma FramedTask(s: State, a: Action, s1: State, t: TaskId, task: Task)
    requires Typed(s) && Typed(s1) && t in s.tasks && s1.tasks == s.tasks[t := task] && s1.alarms == s.alarms &&
             s1.tick == s.tick
    requires !a.DoSleep? && (a.DoSetPeriod? ==> a.t == t) && Framed(s, a, t, task)
    ensures FramedStep(s, a, s1)
  {
  }

  lemma FramedSame(s: State, a: Action, s1: State)
    requires Typed(s) && s1.tasks == s.tasks && s1.alarms == s.alarms && s1.tick == s.tick
    requires if a.DoSleep? then s.locked else !a.DoSetPeriod?
    ensures FramedStep(s, a, s1)
  {
  }

  lemma FallAsleepFramed(s: State, a: Action, s1: State, t: TaskId, timeout: nat)
    requires Typed(s) && Typed(s1) && s.current == Some(t) && t in s.tasks
    requires s1.alarms == s.alarms && s1.tick == s.tick && !a.DoSetPeriod?
    requires s1.tasks == s.tasks[t := s.tasks[t].(wakeupTime := NextRelease(s, a, t))]
    ensures FramedStep(s, a, Schedule(SetStatus(SetAlarm(s1, t, timeout), t, WAITING)))
  {
    hide SetAlarm, Schedule, Add32;
    AlarmRuns(s1, t, timeout);
    OthersAlarms(s1, t, timeout);
    FramedThenSchedule(s, a, SetStatus(SetAlarm(s1, t, timeout), t, WAITING));
  }

  lemma SleepFramed(s: State, ticks: nat)
    requires Typed(s) && s.current.Some?
    ensures FramedStep(s, DoSleep(ticks), Sleep(s, ticks))
  {
    hide SetAlarm, Schedule, SetStatus, Add32, FramedStep;
    var t, a := s.current.value, DoSleep(ticks);
    if s.locked {
      FramedSame(s, a, s);
    } else if ticks == 0 && s.tasks[t].period != 0 {
      var next := Add32(s.tasks[t].wakeupTime, s.tasks[t].period);
      var s1 := With(s, t, s.tasks[t].(wakeupTime := next));
      if next <= s.tick {
        ReleasePassed(s, s1, t);
      } else {
        FallAsleepFramed(s, a, s1, t, next - s.tick);
      }
    } else {
      assert s.tasks == s.tasks[t := s.tasks[t].(wakeupTime := NextRelease(s, a, t))];
      FallAsleepFramed(s, a, s, t, ticks);
    }
  }

  lemma ReleasePassed(s: State, s1: State, t: TaskId)
    requires Typed(s) && s.current == Some(t) && t in s.tasks && !s.locked && s.tasks[t].period != 0
    requires s1 == s.(tasks := s.tasks[t := s.tasks[t].(wakeupTime := Add32(s.tasks[t].wakeupTime, s.tasks[t].period))])
    ensures FramedStep(s, DoSleep(0), s1)
  {
    hide Add32;
  }

  lemma CreateFramed(s: State, t: TaskId, stackSize: nat, priority: nat)
    requires Typed(s) && t !in s.tasks
    ensures FramedStep(s, DoCreate(t, stackSize, priority), Create(s, t, stackSize, priority))
  {
    hide Schedule;
    var a := DoCreate(t, stackSize, priority);
    if priority <= LOWEST_PRIORITY && stackSize >= MIN_STACK_SIZE {
      var s1 := s.(tasks := s.tasks[t := Task(SUSPENDED, priority, 0, 0, None, 0, User)]);
      assert Typed(s1);
      FramedThenSchedule(s, a, MakeReady(s1, t));
    }
  }

  lemma PriorityFramed(s: State, a: Action, t: TaskId, priority: nat)
    requires Enabled(s, a) && a == DoChangePriority(t, priority)
    ensures FramedStep(s, a, ChangePriority(s, t, priority))
  {
    hide Schedule, Delete, FramedStep;
    var task := s.tasks[t].(priority := priority);
    FramedSame(s, a, s);
    if priority <= LOWEST_PRIORITY {
      if s.tasks[t].status == READY {
        var s1 := MakeReady(With(LeaveReady(s, t), t, task), t);
        assert s1.tasks == s.tasks[t := task] by { assert task.(status := READY) == task; }
        FramedTask(s, a, s1, t, task);
        FramedThenSchedule(s, a, s1);
      } else {
        FramedTask(s, a, With(s, t, task), t, task);
        FramedThenSchedule(s, a, With(s, t, task));
      }
    }
  }

  lemma TaskCallsFramed(s: State, a: Action)
    requires Enabled(s, a)
    requires a.DoChangePriority? || a.DoSuspend? || a.DoResume? || a.DoSetPeriod? || a.DoLock? || a.DoRestore?
    ensures FramedStep(s, a, Step(s, a))
  {
    hide Schedule, Delete, FramedStep;
    match a
    case DoChangePriority(t, priority) => PriorityFramed(s, a, t, priority);
    case DoSuspend(t) =>
      FramedSame(s, a, s);
      if s.tasks[t].status == READY {
        FramedTask(s, a, Suspend(s, t), t, s.tasks[t].(status := SUSPENDED));
      }
    case DoResume(t) =>
      FramedSame(s, a, s);
      if s.tasks[t].status == SUSPENDED {
        FramedTask(s, a, MakeReady(s, t), t, s.tasks[t].(status := READY));
        FramedThenSchedule(s, a, MakeReady(s, t));
      }
    case DoSetPeriod(t, period) => FramedTask(s, a, SetPeriod(s, t, period), t, SetPeriod(s, t, period).tasks[t]);
    case DoLock => FramedSame(s, a, Lock(s));
    case DoRestore(locked) =>
      FramedSame(s, a, s.(locked := locked));
      FramedThenSchedule(s, a, s.(locked := locked));
  }

  lemma WaitFramed(s: State, a: Action, s0: State, q: SemId)
    requires Typed(s) && Typed(s0) && s.current.Some? && s0.current == s.current && q in s0.sems
    requires FramedStep(s, a, s0)
    ensures FramedStep(s, a, Schedule(Enqueue(s0, q)))
  {
    hide Schedule, InsertOrdered, NextRelease;
    FramedThenSchedule(s, a, Enqueue(s0, q));
  }

  lemma EnterFramed(s: State, q: SemId, timeout: nat)
    requires Typed(s) && s.current.Some? && q in s.sems
    ensures FramedStep(s, DoAcquire(q, timeout), Enter(s, s.current.value, q, timeout))
    ensures Enter(s, s.current.value, q, timeout).current == s.current &&
            Enter(s, s.current.value, q, timeout).sems == s.sems
  {
    hide SetAlarm, Add32;
    AlarmRuns(s, s.current.value, timeout);
    OthersAlarms(s, s.current.value, timeout);
  }

  lemma AcquireFramed(s: State, q: SemId, timeout: int)
    requires Typed(s) && s.current.Some? && q in s.sems
    ensures FramedStep(s, DoAcquire(q, timeout), Acquire(s, q, timeout))
  {
    hide Schedule, Enter, Enqueue, FramedStep, NextRelease;
    match AcquireOutcome(s, q, timeout)
    case Failed => FramedSame(s, DoAcquire(q, timeout), s);
    case Acquired => FramedSame(s, DoAcquire(q, timeout), Take(s, q));
    case Blocked =>
      EnterFramed(s, q, timeout);
      WaitFramed(s, DoAcquire(q, timeout), Enter(s, s.current.value, q, timeout), q);
  }

  lemma RetryFramed(s: State)
    requires Typed(s) && s.current.Some? && s.tasks[s.current.value].pc.Acquiring?
    ensures FramedStep(s, DoRetry, Retry(s))
  {
    hide Schedule, Enqueue, SetAlarm;
    var t := s.current.value;
    match RetryOutcome(s)
    case Failed =>
    case Acquired =>
      AlarmRuns(s, t, 0);
      OthersAlarms(s, t, 0);
    case Blocked =>
      FramedSame(s, DoRetry, s);
      WaitFramed(s, DoRetry, s, s.tasks[t].pc.sem);
  }

  lemma WakeFramed(s: State)
    requires Typed(s) && s.current.Some? && s.tasks[s.current.value].pc.Releasing?
    ensures FramedStep(s, DoWake, Wake(s))
  {
    hide Schedule, Delete;
    var t := s.current.value;
    var q := s.tasks[t].pc.sem;
    var s1 := SetPc(s, t, User);
    if s.waiting[q] != [] {
      var w := s.waiting[q][0];
      assert w in s.waiting[q];
      var s2 := s1.(waiting := s1.waiting[q := Delete(s1.waiting[q], w)]);
      hide MakeReady, Typed;
      MadeReady(s2, w);
      FramedThenSchedule(s, DoWake, MakeReady(s2, w));
    }
  }

  /** Every call but a tick is framed. */
  lemma CallFramed(s: State, a: Action)
    requires Enabled(s, a) && !a.DoTick?
    ensures FramedStep(s, a, Step(s, a))
  {
    hide FramedStep, Acquire, Retry, Wake, Sleep, Create, ChangePriority, Suspend, Resume, Restore;
    match a
    case DoCreate(t, stackSize, priority) => CreateFramed(s, t, stackSize, priority);
    case DoSleep(ticks) => SleepFramed(s, ticks);
    case DoInitSemaphore(q, count, byPriority) => FramedSame(s, a, Step(s, a));
    case DoAcquire(q, timeout) => AcquireFramed(s, q, timeout);
    case DoRetry => RetryFramed(s);
    case DoRelease(q) =>
      var t := s.current.value;
      FramedTask(s, a, Release(s, q), t, s.tasks[t].(pc := Releasing(q)));
    case DoWake => WakeFramed(s);
    case _ => TaskCallsFramed(s, a);
  }

  /** What a tick makes of task `t`: its alarm fires when, and only when, it is due. */
  ghost predicate Ticked(s: State, s': State, t: TaskId)
    requires t in s.tasks
  {
    s'.tick == s.tick + 1 && t in s'.tasks &&
    s'.tasks[t].wakeupTime == s.tasks[t].wakeupTime && s'.tasks[t].period == s.tasks[t].period &&
    s'.tasks[t].pc == s.tasks[t].pc && s'.tasks[t].alarmTime == s.tasks[t].alarmTime &&
    (t in s'.alarms <==> t in s.alarms && s.tasks[t].alarmTime != s.tick + 1) &&
    (t in s.alarms && s.tasks[t].alarmTime == s.tick + 1 ==> s'.tasks[t].status in {READY, RUNNING})
  }

  lemma TickFires(s: State, t: TaskId)
    requires Inv(s) && s.tick + 1 < WORD && !TickHits(s) && t in s.tasks
    ensures Ticked(s, Tick(s), t)
  {
    hide ReadyOk, WaitingOk, BitsOk, RunningOk, Undisturbed, FireDue, DueAlarmHits, TickHits, Schedule, ArmedOk,
         Expects, TypedTask, Sorted, Distinct;
    var s1 := s.(tick := s.tick + 1);
    NoWrap(s.tick, 1);
    TickStarts(s);
    FireDueFrame(s1);
    FireDueEffect(s1, t);
    ScheduleOnlyWakes(FireDue(s1));
    ScheduleFrame(FireDue(s1));
  }

  // ----- sleeps

  /** Task `t` sleeps until tick `d`. */
  ghost predicate Asleep(s: State, t: TaskId, d: nat) {
    t in s.tasks && s.tasks[t].status == WAITING && s.tasks[t].pc.User? && t in s.alarms && s.tasks[t].alarmTime == d
  }

  lemma StillAsleep(s: State, t: TaskId, d: nat)
    requires Inv(s) && t in s.alarms && t in s.tasks && s.tasks[t].pc.User? && s.tasks[t].alarmTime == d
    ensures Asleep(s, t, d) && s.current != Some(t) && s.tick < d
  {
  }

  /** A sleeper sleeps through every step but the tick it asked for, and that tick makes it ready. */
  lemma SleepStep(s: State, a: Action, t: TaskId, d: nat)
    requires Inv(s) && Enabled(s, a) && !(a.DoTick? && TickHits(s)) && Asleep(s, t, d)
    ensures s.tick < d && s.tick <= Step(s, a).tick <= s.tick + 1 && t in Step(s, a).tasks
    ensures Step(s, a).tick < d ==> Asleep(Step(s, a), t, d)
    ensures Step(s, a).tick == d ==> Step(s, a).tasks[t].status in {READY, RUNNING}
  {
    hide ReadyOk, WaitingOk, BitsOk, AlarmsOk, RunningOk, Undisturbed, TickHits, Tick;
    StepKeeps(s, a);
    StillAsleep(s, t, d);
    if a.DoTick? {
      TickFires(s, t);
      if d != s.tick + 1 {
        StillAsleep(Step(s, a), t, d);
      }
    } else {
      CallFramed(s, a);
      StillAsleep(Step(s, a), t, d);
    }
  }

  /** Over a whole run: a task that sleeps until tick `d` is asleep at every state before tick `d`
      and ready or running from the tick that reaches it. */
  lemma {:induction false} SleepEndsOnTime(run: seq<State>, acts: seq<Action>, t: TaskId, d: nat, i: nat, n: nat)
    requires IsRun(run, acts) && i <= n < |run| && Asleep(run[i], t, d)
    requires forall k :: 0 <= k < n ==> !(acts[k].DoTick? && TickHits(run[k]))
    ensures run[n].tick < d ==> Asleep(run[n], t, d)
    ensures i < n && run[n - 1].tick < d <= run[n].tick ==>
              run[n].tick == d && t in run[n].tasks && run[n].tasks[t].status in {READY, RUNNING}
    decreases n
  {
    hide Inv, TickHits, Step, Asleep;
    RunKeeps(run, acts, n);
    if i < n {
      SleepEndsOnTime(run, acts, t, d, i, n - 1);
      assert Follows(run[n - 1], acts[n - 1], run[n]);
      RunKeeps(run, acts, n - 1);
      TickMonotone(run[n - 1], acts[n - 1]);
      if run[n - 1].tick < d {
        SleepStep(run[n - 1], acts[n - 1], t, d);
      }
    }
  }

  lemma TickMonotone(s: State, a: Action)
    requires Inv(s) && Enabled(s, a) && !(a.DoTick? && TickHits(s))
    ensures s.tick <= Step(s, a).tick
  {
    hide ReadyOk, WaitingOk, BitsOk, AlarmsOk, Undisturbed, TickHits, Tick;
    if a.DoTick? {
      TickFires(s, IDLE);
    } else {
      CallFramed(s, a);
    }
  }

  // ----- periodic releases

  /** How often `t` asked for its next release between states `i` and `n`. */
  ghost function Releases(run: seq<State>, acts: seq<Action>, t: TaskId, i: nat, n: nat): nat
    requires i <= n <= |acts| <= |run|
    decreases n
  {
    if i == n then 0
    else Releases(run, acts, t, i, n - 1) +
         if acts[n - 1] == DoSleep(0) && run[n - 1].current == Some(t) && !run[n - 1].locked then 1 else 0
  }

  /** The k-th release after `w`. */
  function Nth(w: nat, period: nat, k: nat): nat { w + k * period }

  lemma NthNext(w: nat, period: nat, k: nat)
    ensures Nth(w, period, 0) == w && Nth(w, period, k + 1) == Nth(w, period, k) + period
  {
  }

  lemma LastRelease(run: seq<State>, acts: seq<Action>, t: TaskId, i: nat, n: nat)
    requires i < n <= |acts| <= |run|
    ensures Releases(run, acts, t, i, n) == Releases(run, acts, t, i, n - 1) +
      if acts[n - 1] == DoSleep(0) && run[n - 1].current == Some(t) && !run[n - 1].locked then 1 else 0
  {
  }

  lemma {:induction false} NthRelease(run: seq<State>, acts: seq<Action>, t: TaskId, i: nat, n: nat)
    requires IsRun(run, acts) && i <= n < |run| && t in run[i].tasks && run[i].tasks[t].period > 0
    requires forall k :: 0 <= k < n ==> !(acts[k].DoTick? && TickHits(run[k]))
    requires forall k :: i <= k < n ==> !(acts[k].DoSetPeriod? && acts[k].t == t)
    ensures t in run[n].tasks && run[n].tasks[t].period == run[i].tasks[t].period
    ensures run[n].tasks[t].wakeupTime == Nth(run[i].tasks[t].wakeupTime, run[i].tasks[t].period,
                                              Releases(run, acts, t, i, n))
    decreases n
  {
    hide Inv, TickHits, Step, Enabled, Nth;
    NthNext(run[i].tasks[t].wakeupTime, run[i].tasks[t].period, if i < n then Releases(run, acts, t, i, n - 1) else 0);
    if i < n {
      NthRelease(run, acts, t, i, n - 1);
      RunKeeps(run, acts, n - 1);
      assert Follows(run[n - 1], acts[n - 1], run[n]);
      OneRelease(run[n - 1], acts[n - 1], t);
      LastRelease(run, acts, t, i, n);
    }
  }

  /** Periodic releases do not drift: whatever else happens and however late the task is, after k
      calls of `eos_sleep(0)` the release it waits for is exactly k periods after the tick at
      which `eos_set_period` was called. */
  lemma NoDrift(run: seq<State>, acts: seq<Action>, t: TaskId, i: nat, n: nat)
    requires IsRun(run, acts) && i <= n < |run| && t in run[i].tasks && run[i].tasks[t].period > 0
    requires forall k :: 0 <= k < n ==> !(acts[k].DoTick? && TickHits(run[k]))
    requires forall k :: i <= k < n ==> !(acts[k].DoSetPeriod? && acts[k].t == t)
    ensures t in run[n].tasks && run[n].tasks[t].period == run[i].tasks[t].period
    ensures run[n].tasks[t].wakeupTime ==
              run[i].tasks[t].wakeupTime + Releases(run, acts, t, i, n) * run[i].tasks[t].period
  {
    hide TickHits, IsRun;
    NthRelease(run, acts, t, i, n);
  }

  lemma OneRelease(s: State, a: Action, t: TaskId)
    requires Inv(s) && Enabled(s, a) && !(a.DoTick? && TickHits(s)) && t in s.tasks && s.tasks[t].period > 0
    requires !(a.DoSetPeriod? && a.t == t)
    ensures t in Step(s, a).tasks && Step(s, a).tasks[t].period == s.tasks[t].period
    ensures Step(s, a).tasks[t].wakeupTime == s.tasks[t].wakeupTime +
      if a == DoSleep(0) && s.current == Some(t) && !s.locked then s.tasks[t].period else 0
  {
    hide ReadyOk, WaitingOk, BitsOk, AlarmsOk, RunningOk, Undisturbed, TickHits, Tick, Sleep;
    if a.DoTick? {
      TickFires(s, t);
    } else {
      CallFramed(s, a);
      if a == DoSleep(0) && s.current == Some(t) {
        NoWrap(s.tasks[t].wakeupTime, s.tasks[t].period);
      }
    }
  }

  /** The running task calls `eos_sleep(0)` k times in a row, as long as it keeps running. */
  ghost function SleepCalls(s: State, k: nat): (s': State)
    requires Typed(s)
    ensures Typed(s')
  {
    if k == 0 then s
    else
      var s1 := SleepCalls(s, k - 1);
      if s1.current.Some? then Sleep(s1, 0) else s1
  }

  /** `s` with the next release of `t` moved to `release`. */
  ghost function Released(s: State, t: TaskId, release: nat): State
    requires t in s.tasks
  {
    s.(tasks := s.tasks[t := s.tasks[t].(wakeupTime := release)])
  }

  lemma NthUpTo(w: nat, period: nat, k: nat, m: nat)
    requires k <= m
    ensures Nth(w, period, k) <= Nth(w, period, m)
  {
    if k < m {
      NthUpTo(w, period, k, m - 1);
      NthNext(w, period, m - 1);
    }
  }

  lemma LateBy(w: nat, period: nat, now: nat)
    requires period > 0 && w <= now
    ensures var m := (now - w) / period;
            Nth(w, period, m) <= now < Nth(w, period, m + 1) && Nth(w, period, m + 1) <= now + period
  {
    NthNext(w, period, (now - w) / period);
  }

  lemma SleepPasses(s: State, t: TaskId, w: nat)
    requires Typed(s) && !s.locked && s.current == Some(t) && t in s.tasks && s.tasks[t].period > 0 && s.tick < WORD
    requires w + s.tasks[t].period <= s.tick
    ensures Typed(Released(s, t, w)) && Sleep(Released(s, t, w), 0) == Released(s, t, w + s.tasks[t].period)
  {
    hide Schedule, SetAlarm, Add32;
    NoWrap(w, s.tasks[t].period);
    var s1 := Released(s, t, w);
    assert s1.tasks[t := s1.tasks[t].(wakeupTime := w + s.tasks[t].period)] ==
             Released(s, t, w + s.tasks[t].period).tasks;
  }

  lemma SameRelease(s: State, t: TaskId)
    requires t in s.tasks
    ensures Released(s, t, s.tasks[t].wakeupTime) == s
  {
    assert s.tasks[t].(wakeupTime := s.tasks[t].wakeupTime) == s.tasks[t];
  }

  lemma {:induction false} LateCalls(s: State, t: TaskId, k: nat)
    requires Typed(s) && !s.locked && s.current == Some(t) && t in s.tasks && s.tasks[t].period > 0 && s.tick < WORD
    requires Nth(s.tasks[t].wakeupTime, s.tasks[t].period, k) <= s.tick
    ensures SleepCalls(s, k) == Released(s, t, Nth(s.tasks[t].wakeupTime, s.tasks[t].period, k))
  {
    hide Nth, Sleep, Released, Typed;
    StillRuns(s, t, Nth(s.tasks[t].wakeupTime, s.tasks[t].period, if k == 0 then 0 else k - 1));
    var w, p := s.tasks[t].wakeupTime, s.tasks[t].period;
    if k == 0 {
      NthNext(w, p, 0);
      SameRelease(s, t);
    } else {
      NthNext(w, p, k - 1);
      LateCalls(s, t, k - 1);
      SleepPasses(s, t, Nth(w, p, k - 1));
    }
  }

  lemma ReleasedKeeps(s: State, t: TaskId, w: nat)
    requires Inv(s) && t in s.tasks
    ensures Inv(Released(s, t, w))
  {
    hide ReadyOk, WaitingOk, BitsOk, AlarmsOk, RunningOk, Undisturbed;
    PeriodKeeps(s, t, s.tasks[t].period, w);
  }

  lemma BlocksNext(s: State, t: TaskId, w: nat)
    requires Inv(s) && !s.locked && s.current == Some(t) && t != IDLE && s.tasks[t].pc.User? && s.tasks[t].period > 0
    requires s.tick < w + s.tasks[t].period < WORD
    ensures Typed(Released(s, t, w)) && Asleep(Sleep(Released(s, t, w), 0), t, w + s.tasks[t].period)
  {
    hide ReadyOk, WaitingOk, BitsOk, AlarmsOk, RunningOk, Undisturbed, Sleep, Asleep;
    ReleasedKeeps(s, t, w);
    SleepsUntil(Released(s, t, w), t);
  }

  /** A periodic task that is late by d ticks: exactly d / period calls of `eos_sleep(0)` return at
      once and change nothing but its next release, and the one after puts it to sleep until the
      first release that is still ahead. */
  lemma CatchUp(s: State, t: TaskId, late: nat, k: nat)
    requires Inv(s) && !s.locked && s.current == Some(t) && t != IDLE && s.tasks[t].pc.User?
    requires s.tasks[t].period > 0 && s.tasks[t].wakeupTime <= s.tick && s.tick + s.tasks[t].period < WORD
    requires late == (s.tick - s.tasks[t].wakeupTime) / s.tasks[t].period
    ensures s.tick < Nth(s.tasks[t].wakeupTime, s.tasks[t].period, late + 1) <= s.tick + s.tasks[t].period
    ensures k <= late ==> SleepCalls(s, k) == Released(s, t, Nth(s.tasks[t].wakeupTime, s.tasks[t].period, k))
    ensures k == late + 1 ==> Asleep(SleepCalls(s, k), t, Nth(s.tasks[t].wakeupTime, s.tasks[t].period, k))
  {
    hide Nth, Sleep, ReadyOk, WaitingOk, BitsOk, AlarmsOk, RunningOk, Undisturbed, Asleep, Released;
    var w, p := s.tasks[t].wakeupTime, s.tasks[t].period;
    LateBy(w, p, s.tick);
    if k <= late {
      NthUpTo(w, p, k, late);
      LateCallsOf(s, t, k);
    } else if k == late + 1 {
      LateCallsOf(s, t, late);
      NthNext(w, p, late);
      StillRuns(s, t, Nth(w, p, late));
      BlocksNext(s, t, Nth(w, p, late));
    }
  }

  lemma StillRuns(s: State, t: TaskId, w: nat)
    requires t in s.tasks && s.current == Some(t)
    ensures Released(s, t, w).current == Some(t)
  {
  }

  lemma LateCallsOf(s: State, t: TaskId, k: nat)
    requires Inv(s) && !s.locked && s.current == Some(t) && s.tasks[t].period > 0
    requires Nth(s.tasks[t].wakeupTime, s.tasks[t].period, k) <= s.tick
    ensures SleepCalls(s, k) == Released(s, t, Nth(s.tasks[t].wakeupTime, s.tasks[t].period, k))
  {
    hide Nth, ReadyOk, WaitingOk, BitsOk, AlarmsOk, RunningOk, Undisturbed, SleepCalls, Released;
    LateCalls(s, t, k);
  }

  lemma SleepsUntil(s: State, t: TaskId)
    requires Inv(s) && !s.locked && s.current == Some(t) && t != IDLE && s.tasks[t].pc.User? && s.tasks[t].period > 0
    requires s.tick < s.tasks[t].wakeupTime + s.tasks[t].period < WORD
    ensures Asleep(Sleep(s, 0), t, s.tasks[t].wakeupTime + s.tasks[t].period)
  {
    hide ReadyOk, WaitingOk, BitsOk, AlarmsOk, RunningOk, Undisturbed, Schedule, SetAlarm, SetStatus;
    var next := s.tasks[t].wakeupTime + s.tasks[t].period;
    NoWrap(s.tasks[t].wakeupTime, s.tasks[t].period);
    var s1 := With(s, t, s.tasks[t].(wakeupTime := next));
    SleepKeeps(s, 0);
    Armed(s1, t, next - s.tick);
    StillAsleep(Sleep(s, 0), t, next);
  }

  lemma Armed(s: State, t: TaskId, timeout: nat)
    requires Typed(s) && t in s.tasks && s.tasks[t].pc.User? && timeout > 0 && s.tick + timeout < WORD
    ensures var s' := Schedule(SetStatus(SetAlarm(s, t, timeout), t, WAITING));
            t in s'.alarms && t in s'.tasks && s'.tasks[t].pc.User? && s'.tasks[t].alarmTime == s.tick + timeout
  {
    hide Schedule;
    NoWrap(s.tick, timeout);
    var s1 := SetStatus(SetAlarm(s, t, timeout), t, WAITING);
    ScheduleOnlyWakes(s1);
    ScheduleFrame(s1);
  }

  // ----- from the call of eos_sleep to its end

  /** The call puts its caller to sleep, for some ticks or until its next release. */
  ghost predicate SleepsNow(s: State, ticks: nat)
    requires Typed(s) && s.current.Some?
  {
    var task := s.tasks[s.current.value];
    !s.locked && (ticks != 0 || (task.period != 0 && s.tick < task.wakeupTime + task.period))
  }

  /** The tick it is to end on. */
  ghost function SleepEnd(s: State, ticks: nat): nat
    requires Typed(s) && s.current.Some?
  {
    var task := s.tasks[s.current.value];
    if ticks == 0 then task.wakeupTime + task.period else s.tick + ticks
  }

  lemma CallFallsAsleep(s: State, ticks: nat)
    requires Inv(s) && UserRuns(s) && SleepFits(s, ticks) && SleepsNow(s, ticks)
    ensures Asleep(Sleep(s, ticks), s.current.value, SleepEnd(s, ticks)) &&
            Sleep(s, ticks).tick == s.tick < SleepEnd(s, ticks)
  {
    hide ReadyOk, WaitingOk, BitsOk, AlarmsOk, RunningOk, Undisturbed, Schedule, SetAlarm, SetStatus;
    var t := s.current.value;
    if ticks == 0 {
      SleepsUntil(s, t);
    } else {
      SleepKeeps(s, ticks);
      Armed(s, t, ticks);
      StillAsleep(Sleep(s, ticks), t, s.tick + ticks);
    }
    SameTick(s, ticks);
  }

  lemma SameTick(s: State, ticks: nat)
    requires Typed(s) && s.current.Some?
    ensures Sleep(s, ticks).tick == s.tick
  {
    hide SetAlarm, Add32, Schedule;
    var t := s.current.value;
    if !s.locked {
      if ticks == 0 && s.tasks[t].period != 0 {
        var next := Add32(s.tasks[t].wakeupTime, s.tasks[t].period);
        if next > s.tick {
          DozeTick(With(s, t, s.tasks[t].(wakeupTime := next)), t, next - s.tick);
        }
      } else {
        DozeTick(s, t, ticks);
      }
    }
  }

  lemma DozeTick(s: State, t: TaskId, timeout: nat)
    requires Typed(s) && t in s.tasks
    ensures Schedule(SetStatus(SetAlarm(s, t, timeout), t, WAITING)).tick == s.tick
  {
    hide SetAlarm, Schedule;
    AlarmRuns(s, t, timeout);
    ScheduleFrame(SetStatus(SetAlarm(s, t, timeout), t, WAITING));
  }

  /** A task that calls `eos_sleep(n)`, n > 0, sleeps at every tick before the n-th after the call and
      is ready or running from exactly that tick; with 0 and a period, from its next release. */
  lemma SleepReturnsOnTime(run: seq<State>, acts: seq<Action>, ticks: nat, i: nat, n: nat)
    requires IsRun(run, acts) && i < n < |run| && acts[i] == DoSleep(ticks)
    requires Typed(run[i]) && run[i].current.Some? && SleepsNow(run[i], ticks)
    requires forall k :: 0 <= k < n ==> !(acts[k].DoTick? && TickHits(run[k]))
    ensures var t, d := run[i].current.value, SleepEnd(run[i], ticks);
            (run[n].tick < d ==> Asleep(run[n], t, d)) &&
            (run[n - 1].tick < d <= run[n].tick ==>
               run[n].tick == d && t in run[n].tasks && run[n].tasks[t].status in {READY, RUNNING})
  {
    hide Inv, TickHits, Asleep, SleepsNow, SleepEnd, Sleep;
    RunKeeps(run, acts, i);
    assert Follows(run[i], acts[i], run[i + 1]);
    CallFallsAsleep(run[i], ticks);
    SleepEndsOnTime(run, acts, run[i].current.value, SleepEnd(run[i], ticks), i + 1, n);
  }
}
