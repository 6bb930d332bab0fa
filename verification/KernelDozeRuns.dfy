/** Two runs from boot through the window of `eos_sleep`.  In one the alarm falls due before the task
    waits, and nothing wakes it.  In the other the task is preempted there, and the tick at which
    its alarm falls due breaks its ready queue. */
module KernelDozeRuns {
  import opened Queues
  import opened KernelState
  import opened KernelSteps
  import opened KernelRuns
  import opened KernelScenario
  import KernelStranded
  import D = KernelDoze

  // ----- the alarm is too early

  ghost const F5 := B5.(alarms := [], tick := 1, ready := Queued([RELEASER], [FIRST, SECOND], [IDLE]),
                        bits := {5, 10, 63},
                        tasks := Tasks(Idle(READY), NEW, NEW, Five(READY, 1, User)))
  ghost const C5 := B5.(alarms := [], tick := 1)
  ghost const X5 := C5.(tasks := Tasks(Idle(READY), NEW, NEW, Five(WAITING, 1, User)))
  ghost const Z5 := X5.(tasks := Tasks(Idle(READY), Ten(RUNNING, None, 0, User), NEW, Five(WAITING, 1, User)),
                        ready := Queued([], [SECOND], [IDLE]), current := Some(FIRST))
  ghost const ASLEEP: map<TaskId, D.Plan> := map[RELEASER := D.ToSleep(1)]

  lemma Starts5()
    requires Typed(S5)
    ensures D.Follows(D.Gap(S5, map[]), D.StartSleep(1), D.Gap(B5, ASLEEP)) && Typed(B5)
  {
    hide Typed, SetAlarm;
    Alarm5();
  }

  lemma Fired5()
    requires Typed(B5) && Typed(B5.(tick := 1))
    ensures FireDue(B5.(tick := 1)) == F5
  {
    hide Typed;
    var s1 := B5.(tick := 1);
    var s2 := FireOne(s1);
    assert s2.alarms == [];
    Changed(Idle(READY), NEW, NEW, B5.tasks[RELEASER], Five(READY, 1, User));
    assert [] + [RELEASER] == [RELEASER];
    QueuedIs(s2.ready, [RELEASER], [FIRST, SECOND], [IDLE]);
    assert s2 == F5;
    assert FireDue(F5) == F5;
  }

  lemma Scheduled5()
    requires Typed(F5)
    ensures Schedule(F5) == C5
  {
    hide Dispatch, Typed;
    assert Requeue(F5) == F5;
    assert [RELEASER] + [] == [RELEASER];
    Picks(F5, 5, RELEASER, [], [FIRST, SECOND], [IDLE]);
    Changed(Idle(READY), NEW, NEW, F5.tasks[RELEASER], Five(RUNNING, 1, User));
  }

  lemma Ticks5()
    requires Typed(B5)
    ensures D.Follows(D.Gap(B5, ASLEEP), D.Whole(DoTick), D.Gap(C5, ASLEEP)) && Typed(C5)
  {
    hide Schedule, FireDue, Typed;
    StillTyped(B5, B5.(tick := 1));
    Fired5();
    Scheduled5();
  }

  lemma Finishes5()
    requires Typed(C5)
    ensures D.Follows(D.Gap(C5, ASLEEP), D.Finish, D.Gap(Z5, map[]))
    ensures KernelStranded.Stranded(Z5, RELEASER) && !Z5.faulted
  {
    hide Dispatch, Typed;
    Changed(Idle(READY), NEW, NEW, C5.tasks[RELEASER], Five(WAITING, 1, User));
    assert SetStatus(C5, RELEASER, WAITING) == X5;
    assert [FIRST] + [SECOND] == [FIRST, SECOND];
    Picks(X5, 10, FIRST, [], [SECOND], [IDLE]);
    Changed(Idle(READY), NEW, NEW, X5.tasks[RELEASER], Ten(RUNNING, None, 0, User));
    assert ASLEEP - {RELEASER} == map[];
  }

  // ----- the alarm comes at the wrong time

  ghost const F6 := B6.(alarms := [FIRST], tick := 1, ready := Queued([RELEASER], [SECOND], [IDLE]),
                        bits := {5, 10, 63},
                        tasks := Tasks(Idle(READY), Ten(RUNNING, None, 2, User), NEW, Five(READY, 1, User)))
  ghost const C6 := F6.(tasks := Tasks(Idle(READY), Ten(READY, None, 2, User), NEW, Five(RUNNING, 1, User)),
                        ready := Queued([], [SECOND, FIRST], [IDLE]), bits := {10, 63}, current := Some(RELEASER))
  ghost const DOZES: map<TaskId, D.Plan> := map[FIRST := D.ToSleep(2)]

  lemma Starts6()
    requires Typed(S6)
    ensures D.Follows(D.Gap(S6, map[]), D.StartSleep(2), D.Gap(B6, DOZES)) && Typed(B6)
  {
    hide Typed, SetAlarm;
    Alarm6();
  }

  lemma DozeFired6()
    requires Typed(B6) && Typed(B6.(tick := 1))
    ensures FireDue(B6.(tick := 1)) == F6
  {
    hide Typed;
    var s1 := B6.(tick := 1);
    var s2 := FireOne(s1);
    assert s2.alarms == [FIRST];
    Changed(Idle(READY), B6.tasks[FIRST], NEW, B6.tasks[RELEASER], Five(READY, 1, User));
    assert [] + [RELEASER] == [RELEASER];
    QueuedIs(s2.ready, [RELEASER], [SECOND], [IDLE]);
    assert s2 == F6;
    assert FireDue(F6) == F6;
  }

  lemma DozeScheduled6()
    requires Typed(F6)
    ensures Schedule(F6) == C6
  {
    hide Dispatch, Typed;
    var s3 := Requeue(F6);
    assert [SECOND] + [FIRST] == [SECOND, FIRST] && [RELEASER] + [] == [RELEASER];
    QueuedIs(s3.ready, [RELEASER], [SECOND, FIRST], [IDLE]);
    Picks(s3, 5, RELEASER, [], [SECOND, FIRST], [IDLE]);
    assert Dispatch(s3).tasks == C6.tasks;
  }

  lemma Ticks6()
    requires Typed(B6)
    ensures D.Follows(D.Gap(B6, DOZES), D.Whole(DoTick), D.Gap(C6, DOZES)) && Typed(C6) && !C6.faulted
  {
    hide Schedule, FireDue, Typed;
    StillTyped(B6, B6.(tick := 1));
    DozeFired6();
    DozeScheduled6();
  }

  lemma Breaks6()
    requires Typed(C6)
    ensures D.May(D.Gap(C6, DOZES), D.Whole(DoTick)) && Tick(C6).faulted
  {
    hide Typed, Schedule;
    var s1 := C6.(tick := 2);
    StillTyped(C6, s1);
    assert AlarmHitsReady(s1, FIRST);
    assert FireDue(s1).faulted;
    FaultStays(FireDue(s1));
  }

  // ----- the runs

  ghost const MISSES := [D.Whole(TO_9[0]), D.Whole(TO_9[1]), D.Whole(TO_9[2]), D.Whole(TO_9[3]), D.Whole(TO_9[4]),
                         D.StartSleep(1), D.Whole(DoTick), D.Finish]
  ghost const BREAKS := [D.Whole(TO_9[0]), D.Whole(TO_9[1]), D.Whole(TO_9[2]), D.Whole(TO_9[3]), D.Whole(TO_9[4]),
                         D.Whole(TO_9[5]), D.StartSleep(2), D.Whole(DoTick), D.Whole(DoTick)]

  lemma WholeGap(s: State, a: Action, s': State)
    requires Follows(s, a, s')
    ensures D.Follows(D.Gap(s, map[]), D.Whole(a), D.Gap(s', map[]))
  {
    hide Typed, Step;
  }

  lemma GapsTo6()
    ensures Boot() == S0 && Typed(S5) && Typed(S6)
    ensures D.Follows(D.Gap(S0, map[]), D.Whole(TO_9[0]), D.Gap(S1, map[]))
    ensures D.Follows(D.Gap(S1, map[]), D.Whole(TO_9[1]), D.Gap(S2, map[]))
    ensures D.Follows(D.Gap(S2, map[]), D.Whole(TO_9[2]), D.Gap(S3, map[]))
    ensures D.Follows(D.Gap(S3, map[]), D.Whole(TO_9[3]), D.Gap(S4, map[]))
    ensures D.Follows(D.Gap(S4, map[]), D.Whole(TO_9[4]), D.Gap(S5, map[]))
    ensures D.Follows(D.Gap(S5, map[]), D.Whole(TO_9[5]), D.Gap(S6, map[]))
  {
    hide Follows, Boot, Typed, D.Follows, S0, S1, S2, S3, S4, S5, S6, S7, S8, S9;
    AtBoot();
    var run := RunTo9();
    assert forall i :: 0 <= i < 6 ==> Follows(run[i], TO_9[i], run[i + 1]);
    assert run[0] == S0 && run[1] == S1 && run[2] == S2 && run[3] == S3 && run[4] == S4 && run[5] == S5 && run[6] == S6;
    WholeGap(S0, TO_9[0], S1);
    WholeGap(S1, TO_9[1], S2);
    WholeGap(S2, TO_9[2], S3);
    WholeGap(S3, TO_9[3], S4);
    WholeGap(S4, TO_9[4], S5);
    WholeGap(S5, TO_9[5], S6);
    IsTyped(S4, TO_9[4], S5);
    IsTyped(S5, TO_9[5], S6);
  }

  /** A tick in the window of `eos_sleep(1)` fires the alarm on the running task, which then waits for
      an alarm that has been. */
  lemma SleepCanMissItsAlarm() returns (ws: seq<D.Gap>)
    ensures D.IsGapRun(ws, MISSES) && KernelStranded.Stranded(ws[8].kernel, RELEASER) && !ws[8].kernel.faulted
  {
    hide Typed, Boot, D.Follows, KernelStranded.Stranded, S0, S1, S2, S3, S4, S5, B5, C5, ASLEEP;
    GapsTo6();
    Starts5();
    Ticks5();
    Finishes5();
    ws := [D.Gap(S0, map[]), D.Gap(S1, map[]), D.Gap(S2, map[]), D.Gap(S3, map[]), D.Gap(S4, map[]), D.Gap(S5, map[]),
           D.Gap(B5, ASLEEP), D.Gap(C5, ASLEEP), D.Gap(Z5, map[])];
  }

  /** A task preempted in the window of `eos_sleep(2)` stands in its ready queue behind another when
      its alarm falls due, and the tick puts it there a second time. */
  lemma SleepCanBreakTheQueue() returns (ws: seq<D.Gap>)
    ensures D.IsGapRun(ws, BREAKS) && !ws[8].kernel.faulted && ws[9].kernel.faulted
  {
    hide Typed, Boot, Tick, D.Follows, S0, S1, S2, S3, S4, S5, S6, B6, DOZES;
    GapsTo6();
    Starts6();
    Ticks6();
    Breaks6();
    LastTickFollows();
    ws := [D.Gap(S0, map[]), D.Gap(S1, map[]), D.Gap(S2, map[]), D.Gap(S3, map[]), D.Gap(S4, map[]), D.Gap(S5, map[]),
           D.Gap(S6, map[]), D.Gap(B6, DOZES), D.Gap(C6, DOZES), D.Gap(Tick(C6), DOZES)];
  }

  lemma LastTickFollows()
    requires D.May(D.Gap(C6, DOZES), D.Whole(DoTick))
    ensures D.Follows(D.Gap(C6, DOZES), D.Whole(DoTick), D.Gap(Tick(C6), DOZES))
  {
    hide Tick;
  }
}
