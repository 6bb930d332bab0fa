/** A suspended task stays off the processor until it is resumed, unless an alarm was left armed. */
module KernelSuspend {
  import opened Queues
  import opened KernelState
  import opened KernelInvariant
  import opened KernelSteps
  import opened KernelRuns
  import opened KernelCalls
  import opened KernelTiming
  import opened KernelStranded
  import opened KernelEffects

  ghost predicate Suspended(s: State, t: TaskId) {
    t in s.tasks && s.tasks[t].status == SUSPENDED
  }

  lemma Scheduled(s: State, t: TaskId)
    requires Prepared(s) && Suspended(s, t)
    ensures Suspended(Schedule(s), t)
  {
    hide Schedule, ReadyOk, WaitingOk, BitsOk, AlarmsOk, RunningOk;
    ScheduleKeepsWaiting(s, t);
  }

  /** No call but `eos_resume_task` on it changes the status of a suspended task. */
  lemma TaskCallLeaves(s: State, a: Action, t: TaskId)
    requires Inv(s) && Enabled(s, a) && Suspended(s, t) && a != DoResume(t)
    requires a.DoCreate? || a.DoChangePriority? || a.DoSuspend? || a.DoResume? || a.DoSetPeriod?
    ensures Suspended(Step(s, a), t)
  {
    hide Inv, Schedule, Prepared, Step, Without, Typed;
    if a.DoCreate? {
      var s1 := CreateStep(s, a.t, a.stackSize, a.priority);
      if a.priority <= 63 && a.stackSize >= 1024 {
        Scheduled(s1, t);
      }
    } else if a.DoChangePriority? {
      var s1 := PriorityStep(s, a.t, a.priority);
      if a.priority <= 63 {
        Scheduled(s1, t);
      }
    } else if a.DoSuspend? {
      SuspendStep(s, a.t);
    } else if a.DoResume? {
      var s1 := ResumeStep(s, a.t);
      if s.tasks[a.t].status == SUSPENDED {
        Scheduled(s1, t);
      }
    } else {
      PeriodStep(s, a.t, a.period);
    }
  }

  lemma NotTheCaller(s: State, t: TaskId)
    requires Inv(s) && Suspended(s, t)
    ensures s.current != Some(t)
  {
  }

  lemma SleepLeavesSuspended(s: State, ticks: nat, t: TaskId)
    requires Inv(s) && Enabled(s, DoSleep(ticks)) && Suspended(s, t)
    ensures Suspended(Step(s, DoSleep(ticks)), t)
  {
    hide Inv, Schedule, Prepared, Sleep, ArmedAt;
    NotTheCaller(s, t);
    var task := s.tasks[s.current.value];
    SleepReturns(s, ticks);
    if !s.locked && !(ticks == 0 && task.period != 0 && task.wakeupTime + task.period <= s.tick) {
      var s1 := SleepWaits(s, ticks);
      Scheduled(s1, t);
    }
  }

  lemma WaitLeaves(s: State, a: Action, t: TaskId)
    requires Inv(s) && Enabled(s, a) && Suspended(s, t) && (a.DoSleep? || a.DoAcquire? || a.DoRetry?)
    ensures Suspended(Step(s, a), t)
  {
    hide Inv, Schedule, Prepared, SetAlarm, Enqueue, ArmedAt, Joined;
    NotTheCaller(s, t);
    if a.DoSleep? {
      SleepLeavesSuspended(s, a.ticks, t);
    } else if a.DoAcquire? {
      if AcquireOutcome(s, a.q, a.timeout).Blocked? {
        hide Acquire;
        var s1 := AcquireWaits(s, a.q, a.timeout);
        Scheduled(s1, t);
      }
    } else if RetryOutcome(s).Blocked? {
      hide Retry;
      var s1 := RetryWaits(s);
      Scheduled(s1, t);
    } else {
      hide Retry;
      RetryLeaves(s);
    }
  }

  lemma OtherCallLeaves(s: State, a: Action, t: TaskId)
    requires Inv(s) && Enabled(s, a) && Suspended(s, t)
    requires a.DoInitSemaphore? || a.DoRelease? || a.DoWake? || a.DoLock? || a.DoRestore?
    ensures Suspended(Step(s, a), t)
  {
    hide Inv, Schedule, Prepared, Wake, Int8;
    NotTheCaller(s, t);
    if a.DoWake? {
      var s1 := WakeStep(s);
      if s.waiting[s.tasks[s.current.value].pc.sem] != [] {
        NotWaiting(s, s.tasks[s.current.value].pc.sem, t);
        Scheduled(s1, t);
      }
    } else if a.DoRestore? {
      RestoreStep(s, a.locked);
      Scheduled(s.(locked := a.locked), t);
    }
  }

  lemma NotWaiting(s: State, q: SemId, t: TaskId)
    requires Inv(s) && Suspended(s, t) && q in s.waiting && s.waiting[q] != []
    ensures s.waiting[q][0] != t
  {
    hide ReadyOk, BitsOk, AlarmsOk, RunningOk, Undisturbed;
    assert s.waiting[q][0] in s.waiting[q];
  }

  lemma TickLeavesSuspended(s: State, t: TaskId)
    requires Inv(s) && s.tick + 1 < WORD && !TickHits(s) && Suspended(s, t)
    requires !(t in s.alarms && s.tasks[t].alarmTime == s.tick + 1)
    ensures Suspended(Tick(s), t)
  {
    hide ReadyOk, WaitingOk, BitsOk, RunningOk, Undisturbed, TickHits, FireDue, DueAlarmHits, Schedule, Prepared;
    var s1 := s.(tick := s.tick + 1);
    NoWrap(s.tick, 1);
    TickStarts(s);
    FireDueEffect(s1, t);
    TickPrepared(s);
    Scheduled(FireDue(s1), t);
  }

  /** One step leaves a suspended task suspended and its alarm as it is, unless it resumes the task or
      is the tick its alarm is due at. */
  lemma SuspendedStep(s: State, a: Action, t: TaskId)
    requires Inv(s) && Enabled(s, a) && !(a.DoTick? && TickHits(s)) && Suspended(s, t) && a != DoResume(t)
    ensures var s' := Step(s, a);
            t in s'.tasks && s'.tasks[t].alarmTime == s.tasks[t].alarmTime &&
            s'.tick == s.tick + (if a.DoTick? then 1 else 0) &&
            if a.DoTick? && t in s.alarms && s.tasks[t].alarmTime == s.tick + 1
            then s'.tasks[t].status in {READY, RUNNING}
            else Suspended(s', t) && (t in s'.alarms <==> t in s.alarms)
  {
    hide Inv, TickHits, Step;
    NotTheCaller(s, t);
    if a.DoTick? {
      TickIs(s);
      TickFires(s, t);
      if !(t in s.alarms && s.tasks[t].alarmTime == s.tick + 1) {
        TickLeavesSuspended(s, t);
      }
    } else {
      CallFramed(s, a);
      if a.DoCreate? || a.DoChangePriority? || a.DoSuspend? || a.DoResume? || a.DoSetPeriod? {
        TaskCallLeaves(s, a, t);
      } else if a.DoSleep? || a.DoAcquire? || a.DoRetry? {
        WaitLeaves(s, a, t);
      } else {
        OtherCallLeaves(s, a, t);
      }
    }
  }

  lemma TickIs(s: State)
    requires Enabled(s, DoTick)
    ensures Step(s, DoTick) == Tick(s) && s.tick + 1 < WORD
  {
    hide Tick;
  }

  // ----- runs

  /** `eos_suspend_task` on a READY task: it is SUSPENDED and on no ready queue, its queue closes the
      gap, and nothing else changes.  On any other task it does nothing. */
  lemma SuspendSuspends(run: seq<State>, acts: seq<Action>, t: TaskId, i: nat)
    requires IsRun(run, acts) && i < |acts| && acts[i] == DoSuspend(t)
    requires forall j :: 0 <= j < i ==> !(acts[j].DoTick? && TickHits(run[j]))
    ensures t in run[i].tasks
    ensures run[i].tasks[t].status != READY ==> run[i + 1] == run[i]
    ensures run[i].tasks[t].status == READY ==>
      var s, s', p := run[i], run[i + 1], run[i].tasks[t].priority;
      p < |s.ready| && p < |s'.ready| && Suspended(s', t) && Without(s.ready[p], s'.ready[p], t) &&
      s' == s.(tasks := s.tasks[t := s.tasks[t].(status := SUSPENDED)], ready := s.ready[p := s'.ready[p]],
               bits := s'.bits) &&
      (forall q :: 0 <= q < |s'.ready| ==> t !in s'.ready[q]) &&
      forall q :: q in s'.bits <==> 0 <= q < |s'.ready| && s'.ready[q] != []
  {
    hide Inv, TickHits, Step, Without;
    RunKeeps(run, acts, i);
    assert Follows(run[i], acts[i], run[i + 1]);
    SuspendStep(run[i], t);
    Levels(run[i]);
  }

  /** A suspended task without an armed alarm stays suspended, and is never the current one, until
      `eos_resume_task` is called on it. */
  lemma {:induction false} StaysSuspended(run: seq<State>, acts: seq<Action>, t: TaskId, i: nat, n: nat)
    requires IsRun(run, acts) && i <= n < |run| && Suspended(run[i], t) && t !in run[i].alarms
    requires forall j :: 0 <= j < n ==> !(acts[j].DoTick? && TickHits(run[j]))
    requires forall j :: i <= j < n ==> acts[j] != DoResume(t)
    ensures Suspended(run[n], t) && t !in run[n].alarms && run[n].current != Some(t)
    decreases n
  {
    hide Inv, TickHits, Step, Suspended, Boot, Enabled;
    RunKeeps(run, acts, n);
    if i < n {
      StaysSuspended(run, acts, t, i, n - 1);
      RunKeeps(run, acts, n - 1);
      assert Follows(run[n - 1], acts[n - 1], run[n]);
      SuspendedStep(run[n - 1], acts[n - 1], t);
    }
    NotTheCaller(run[n], t);
  }

  /** One that was woken from a timed acquire and suspended before it ran has its alarm still armed:
      it stays suspended exactly until the tick of its deadline, which makes it ready again. */
  lemma {:induction false} SuspendedUntilAlarm(run: seq<State>, acts: seq<Action>, t: TaskId, i: nat, n: nat)
    requires IsRun(run, acts) && i <= n < |run| && Suspended(run[i], t) && t in run[i].alarms
    requires forall j :: 0 <= j < n ==> !(acts[j].DoTick? && TickHits(run[j]))
    requires forall j :: i <= j < n ==> acts[j] != DoResume(t)
    ensures var d := run[i].tasks[t].alarmTime;
            (run[n].tick < d ==>
               Suspended(run[n], t) && t in run[n].alarms && run[n].tasks[t].alarmTime == d &&
               run[n].current != Some(t)) &&
            (i < n && run[n - 1].tick < d <= run[n].tick ==>
               run[n].tick == d && t in run[n].tasks && run[n].tasks[t].status in {READY, RUNNING})
    decreases n
  {
    hide Inv, TickHits, Step, Boot, Enabled;
    RunKeeps(run, acts, n);
    if i < n {
      SuspendedUntilAlarm(run, acts, t, i, n - 1);
      RunKeeps(run, acts, n - 1);
      assert Follows(run[n - 1], acts[n - 1], run[n]);
      TickMonotone(run[n - 1], acts[n - 1]);
      if run[n - 1].tick < run[i].tasks[t].alarmTime {
        SuspendedStep(run[n - 1], acts[n - 1], t);
      }
    }
    if run[n].tick < run[i].tasks[t].alarmTime {
      NotTheCaller(run[n], t);
    }
  }
}
