/** `eos_sleep(0)` by a task without a period: no alarm is set, and nothing ever wakes the task. */
module KernelStranded {
  import opened Queues
  import opened ReadyBitmap
  import opened KernelState
  import opened KernelInvariant
  import opened KernelSteps
  import opened KernelRuns
  import opened KernelFairness

  /** Task `t` sleeps and no alarm will wake it. */
  ghost predicate Stranded(s: State, t: TaskId) {
    t in s.tasks && s.tasks[t].status == WAITING && s.tasks[t].pc.User? && t !in s.alarms
  }

  lemma DispatchKeepsWaiting(s: State, t: TaskId)
    requires Typed(s) && t in s.tasks && s.tasks[t].status in {WAITING, SUSPENDED}
    requires var queue := s.ready[Highest(s.bits)]; queue != [] && s.tasks[queue[0]].status == READY
    ensures t in Dispatch(s).tasks && Dispatch(s).tasks[t] == s.tasks[t] && Dispatch(s).alarms == s.alarms
  {
    hide Delete;
  }

  lemma ScheduleKeepsWaiting(s: State, t: TaskId)
    requires Core(s, s.tick + 1) && t in s.tasks && s.tasks[t].status in {WAITING, SUSPENDED}
    ensures t in Schedule(s).tasks && Schedule(s).tasks[t] == s.tasks[t] && Schedule(s).alarms == s.alarms
  {
    hide WaitingOk, AlarmsOk, ReadyOk, BitsOk, Dispatch;
    if !s.locked {
      RequeuePlaced(s);
      IdleIsReady(s);
      DispatchFinds(Requeue(s));
      DispatchKeepsWaiting(Requeue(s), t);
    }
  }

  lemma IdleIsReady(s: State)
    requires Typed(s) && RunningOk(s.tasks, s.current)
    ensures IDLE in Requeue(s).tasks && Requeue(s).tasks[IDLE].status == READY
  {
  }

  lemma SleepLeaves(s: State, ticks: nat, t: TaskId)
    requires Typed(s) && s.current.Some? && s.current != Some(t) && Stranded(s, t) && FallsAsleep(s, ticks)
    ensures Stranded(FallenAsleep(s, ticks), t)
  {
    hide SetAlarm, Add32;
    var c := s.current.value;
    if ticks == 0 && s.tasks[c].period != 0 {
      var next := Add32(s.tasks[c].wakeupTime, s.tasks[c].period);
      var s1 := With(s, c, s.tasks[c].(wakeupTime := next));
      AlarmRuns(s1, c, next - s.tick);
      OthersAlarms(s1, c, next - s.tick);
    } else {
      AlarmRuns(s, c, ticks);
      OthersAlarms(s, c, ticks);
    }
  }

  lemma EnterLeaves(s: State, q: SemId, timeout: nat, t: TaskId)
    requires Typed(s) && s.current.Some? && s.current != Some(t) && q in s.sems && Stranded(s, t)
    ensures Stranded(Enqueue(Enter(s, s.current.value, q, timeout), q), t)
  {
    hide SetAlarm, InsertOrdered, Priorities;
    AlarmRuns(s, s.current.value, timeout);
    OthersAlarms(s, s.current.value, timeout);
  }

  lemma TickLeaves(s: State, t: TaskId)
    requires Inv(s) && s.tick + 1 < WORD && !TickHits(s) && Stranded(s, t)
    ensures var s1 := s.(tick := Add32(s.tick, 1)); Typed(s1) && Stranded(FireDue(s1), t)
  {
    hide ReadyOk, WaitingOk, BitsOk, AlarmsOk, RunningOk, Undisturbed, TickHits, FireDue, DueAlarmHits;
    NoWrap(s.tick, 1);
    TickStarts(s);
    FireDueEffect(s.(tick := s.tick + 1), t);
  }

  lemma NotWoken(s: State, t: TaskId, q: SemId)
    requires Inv(s) && Stranded(s, t) && q in s.waiting && s.waiting[q] != []
    ensures s.waiting[q][0] != t
  {
    hide ReadyOk, BitsOk, AlarmsOk, RunningOk, Undisturbed;
    assert s.waiting[q][0] in s.waiting[q];
  }

  lemma BlockLeaves(s: State, q: SemId, t: TaskId)
    requires Typed(s) && s.current.Some? && s.current != Some(t) && q in s.sems && Stranded(s, t)
    ensures Stranded(Enqueue(s, q), t)
  {
    hide InsertOrdered, Priorities;
  }

  lemma WakeLeaves(s: State, q: SemId, t: TaskId)
    requires Inv(s) && s.current.Some? && s.current != Some(t) && q in s.sems && s.waiting[q] != [] && Stranded(s, t)
    ensures Stranded(WokenFirst(SetPc(s, s.current.value, User), q), t)
  {
    hide ReadyOk, WaitingOk, BitsOk, AlarmsOk, RunningOk, Undisturbed, Delete;
    NotWoken(s, t, q);
  }

  /** `x` becomes READY, and nothing changes of `t` that matters. */
  lemma ReadyLeaves(s: State, s1: State, x: TaskId, t: TaskId)
    requires Typed(s1) && x in s1.tasks && x != t && Stranded(s, t) && s1.alarms == s.alarms
    requires t in s1.tasks && s1.tasks[t] == s.tasks[t]
    ensures Stranded(MakeReady(s1, x), t)
  {
  }

  lemma CreateLeaves(s: State, x: TaskId, stackSize: nat, priority: nat, t: TaskId)
    requires Enabled(s, DoCreate(x, stackSize, priority)) && Calls(s, DoCreate(x, stackSize, priority)) &&
             Stranded(s, t)
    ensures Stranded(Handed(s, DoCreate(x, stackSize, priority)), t)
  {
    hide MakeReady, Stranded;
    var s1 := s.(tasks := s.tasks[x := Task(SUSPENDED, priority, 0, 0, None, 0, User)]);
    assert Typed(s1);
    assert t in s.tasks by { StrandedIs(s, t); }
    ReadyLeaves(s, s1, x, t);
  }

  lemma StrandedIs(s: State, t: TaskId)
    requires Stranded(s, t)
    ensures t in s.tasks && s.tasks[t].status == WAITING && t !in s.alarms
  {
  }

  lemma RepricedLeaves(s: State, x: TaskId, priority: nat, t: TaskId)
    requires Typed(s) && x in s.tasks && priority <= LOWEST_PRIORITY && Stranded(s, t)
    ensures Stranded(Repriced(s, x, priority), t)
  {
    hide Typed, Delete;
  }

  lemma ResumeLeaves(s: State, x: TaskId, t: TaskId)
    requires Typed(s) && x in s.tasks && s.tasks[x].status == SUSPENDED && Stranded(s, t)
    ensures Stranded(MakeReady(s, x), t)
  {
    hide MakeReady, Typed;
    ReadyLeaves(s, s, x, t);
  }

  lemma RestoreLeaves(s: State, locked: bool, t: TaskId)
    requires Stranded(s, t)
    ensures Stranded(s.(locked := locked), t)
  {
  }

  lemma HandedLeaves(s: State, a: Action, t: TaskId)
    requires Inv(s) && Enabled(s, a) && !(a.DoTick? && TickHits(s)) && Stranded(s, t) && Calls(s, a)
    ensures Stranded(Handed(s, a), t)
  {
    hide ReadyOk, WaitingOk, BitsOk, AlarmsOk, RunningOk, Undisturbed, TickHits, FallsAsleep, FallenAsleep, FireDue,
         Enter,
      Enqueue, WokenFirst, Repriced, MakeReady;
    assert s.current != Some(t);
    if a.DoSleep? {
      SleepLeaves(s, a.ticks, t);
    } else if a.DoAcquire? {
      EnterLeaves(s, a.q, a.timeout, t);
    } else if a.DoRetry? {
      BlockLeaves(s, s.tasks[s.current.value].pc.sem, t);
    } else if a.DoWake? {
      WakeLeaves(s, s.tasks[s.current.value].pc.sem, t);
    } else if a.DoTick? {
      TickLeaves(s, t);
    } else if a.DoCreate? {
      CreateLeaves(s, a.t, a.stackSize, a.priority, t);
    } else if a.DoChangePriority? {
      RepricedLeaves(s, a.t, a.priority, t);
    } else if a.DoResume? {
      ResumeLeaves(s, a.t, t);
    } else {
      RestoreLeaves(s, a.locked, t);
    }
  }

  lemma QuietLeaves(s: State, a: Action, t: TaskId)
    requires Inv(s) && Enabled(s, a) && Stranded(s, t) && !Calls(s, a)
    ensures Stranded(Step(s, a), t)
  {
    hide ReadyOk, WaitingOk, BitsOk, AlarmsOk, RunningOk, Undisturbed, InsertOrdered, Add32;
    assert s.current != Some(t);
  }

  lemma StepLeaves(s: State, a: Action, t: TaskId)
    requires Inv(s) && Enabled(s, a) && !(a.DoTick? && TickHits(s)) && Stranded(s, t)
    ensures Stranded(Step(s, a), t)
  {
    hide Inv, TickHits, Calls, Handed, Step, Core;
    if Calls(s, a) {
      HandedPrepared(s, a);
      HandedLeaves(s, a, t);
      ScheduleKeepsWaiting(Handed(s, a), t);
    } else {
      QuietLeaves(s, a, t);
    }
  }

  /** A stranded task stays stranded in every run. */
  lemma {:induction false} StrandedForever(run: seq<State>, acts: seq<Action>, t: TaskId, i: nat, n: nat)
    requires IsRun(run, acts) && i <= n < |run| && Stranded(run[i], t)
    requires forall j :: 0 <= j < n ==> !(acts[j].DoTick? && TickHits(run[j]))
    ensures Stranded(run[n], t)
    decreases n
  {
    hide Inv, TickHits, Step, Stranded, Enabled;
    if i < n {
      StrandedForever(run, acts, t, i, n - 1);
      RunKeeps(run, acts, n - 1);
      assert Follows(run[n - 1], acts[n - 1], run[n]);
      StepLeaves(run[n - 1], acts[n - 1], t);
    }
  }

  /** `eos_sleep` with the scheduler unlocked strands its caller if and only if it is called with 0
      by a task that has no period. */
  lemma SleepStrands(s: State, ticks: nat)
    requires Inv(s) && UserRuns(s) && SleepFits(s, ticks) && !s.locked
    ensures Stranded(Sleep(s, ticks), s.current.value) <==> ticks == 0 && s.tasks[s.current.value].period == 0
  {
    hide ReadyOk, WaitingOk, BitsOk, RunningOk, Schedule, FallenAsleep, Sleep, Add32;
    var t := s.current.value;
    if FallsAsleep(s, ticks) {
      SleepHanded(s, ticks);
      FellAsleep(s, ticks);
      ScheduleKeepsWaiting(FallenAsleep(s, ticks), t);
    } else {
      StaysAwake(s, ticks);
    }
  }

  lemma FellAsleep(s: State, ticks: nat)
    requires Inv(s) && UserRuns(s) && SleepFits(s, ticks) && FallsAsleep(s, ticks)
    ensures var s', t := FallenAsleep(s, ticks), s.current.value;
            t in s'.tasks && s'.tasks[t].status == WAITING && s'.tasks[t].pc.User? &&
            (t in s'.alarms <==> !(ticks == 0 && s.tasks[t].period == 0))
  {
    hide ReadyOk, WaitingOk, BitsOk, RunningOk, Undisturbed, SetAlarm, SetStatus, Distinct, Add32;
    var t := s.current.value;
    if ticks == 0 && s.tasks[t].period != 0 {
      var next := Add32(s.tasks[t].wakeupTime, s.tasks[t].period);
      SleepsArmed(With(s, t, s.tasks[t].(wakeupTime := next)), t, next - s.tick);
    } else {
      SleepsArmed(s, t, ticks);
    }
  }

  lemma SleepsArmed(s: State, t: TaskId, timeout: nat)
    requires Typed(s) && t in s.tasks && Distinct(s.alarms) && s.tasks[t].pc.User?
    ensures var s' := SetStatus(SetAlarm(s, t, timeout), t, WAITING);
            t in s'.tasks && s'.tasks[t].status == WAITING && s'.tasks[t].pc.User? && (t in s'.alarms <==> timeout != 0)
  {
    hide SetAlarm, Distinct;
    AlarmRuns(s, t, timeout);
    OwnAlarm(s, t, timeout);
  }

  lemma StaysAwake(s: State, ticks: nat)
    requires Inv(s) && UserRuns(s) && SleepFits(s, ticks) && !FallsAsleep(s, ticks)
    ensures !Stranded(Sleep(s, ticks), s.current.value)
    ensures !s.locked ==> !(ticks == 0 && s.tasks[s.current.value].period == 0)
  {
    hide ReadyOk, WaitingOk, BitsOk, AlarmsOk, RunningOk, Undisturbed, SetAlarm, Schedule;
  }
}
