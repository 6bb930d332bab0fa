/** Runs from boot into what the kernel should never do.  Two tasks wait for a semaphore, the first
    until tick 2, and a third releases it at tick 1.  From there one run ends in a fault, one loses
    the wake-up, and one leaves a priority queue out of order.  A last run loses a wake-up without
    any deadline, in the window of the blocking acquire. */
module KernelScenario {
  import opened Queues
  import opened ReadyBitmap
  import opened KernelState
  import opened KernelInvariant
  import opened KernelSteps
  import opened KernelRuns
  import opened KernelSync
  import opened KernelWakeOrder
  import KernelEffects
  import KernelStranded
  import KernelSuspend
  import W = KernelWindow

  const FIRST: TaskId := 1
  const SECOND: TaskId := 2
  const RELEASER: TaskId := 3

  ghost function Queued(r5: seq<TaskId>, r10: seq<TaskId>, r63: seq<TaskId>): (r: seq<seq<TaskId>>)
    ensures |r| == LOWEST_PRIORITY + 1 && r[5] == r5 && r[10] == r10 && r[63] == r63
    ensures forall p :: 0 <= p <= LOWEST_PRIORITY && p != 5 && p != 10 && p != 63 ==> r[p] == []
  {
    seq(LOWEST_PRIORITY + 1, p => if p == 5 then r5 else if p == 10 then r10 else if p == 63 then r63 else [])
  }

  lemma QueuedIs(r: seq<seq<TaskId>>, r5: seq<TaskId>, r10: seq<TaskId>, r63: seq<TaskId>)
    requires |r| == LOWEST_PRIORITY + 1 && r[5] == r5 && r[10] == r10 && r[63] == r63
    requires forall p :: 0 <= p <= LOWEST_PRIORITY && p != 5 && p != 10 && p != 63 ==> r[p] == []
    ensures r == Queued(r5, r10, r63)
  {
  }

  ghost function Idle(status: Status): Task { Task(status, 63, 0, 0, None, 0, User) }
  ghost function Ten(status: Status, owner: Option<SemId>, alarmTime: nat, pc: Pc): Task {
    Task(status, 10, 0, 0, owner, alarmTime, pc)
  }
  ghost function Five(status: Status, alarmTime: nat, pc: Pc): Task { Task(status, 5, 0, 0, None, alarmTime, pc) }

  ghost function Tasks(idle: Task, first: Task, second: Task, releaser: Task): map<TaskId, Task> {
    map[IDLE := idle, FIRST := first, SECOND := second, RELEASER := releaser]
  }

  lemma Changed(idle: Task, first: Task, second: Task, releaser: Task, task: Task)
    ensures Tasks(idle, first, second, releaser)[IDLE := task] == Tasks(task, first, second, releaser)
    ensures Tasks(idle, first, second, releaser)[FIRST := task] == Tasks(idle, task, second, releaser)
    ensures Tasks(idle, first, second, releaser)[SECOND := task] == Tasks(idle, first, task, releaser)
    ensures Tasks(idle, first, second, releaser)[RELEASER := task] == Tasks(idle, first, second, task)
  {
  }

  ghost const NEW := Ten(READY, None, 0, User)
  ghost const TIMED := Acquiring(0, 2, 2)
  ghost const UNTIMED := Acquiring(0, 0, 0)
  ghost const BLOCKED := Ten(WAITING, Some(0), 0, UNTIMED)
  ghost const NO_COUNT := Semaphore(0, true, 0, 0, 0)

  ghost const S0 := State(map[IDLE := Idle(READY)], Queued([], [], [IDLE]), {63}, map[], map[], [], 0, None, true,
                          false)
  ghost const S1 := S0.(tasks := map[IDLE := Idle(READY), FIRST := NEW], ready := Queued([], [FIRST], [IDLE]),
                        bits := {10, 63})
  ghost const S2 := S1.(tasks := map[IDLE := Idle(READY), FIRST := NEW, SECOND := NEW],
                        ready := Queued([], [FIRST, SECOND], [IDLE]))
  ghost const S3 := S2.(tasks := Tasks(Idle(READY), NEW, NEW, Five(READY, 0, User)),
                        ready := Queued([RELEASER], [FIRST, SECOND], [IDLE]), bits := {5, 10, 63})
  ghost const S4 := S3.(sems := map[0 := NO_COUNT], waiting := map[0 := []])
  ghost const S5 := S4.(tasks := Tasks(Idle(READY), NEW, NEW, Five(RUNNING, 0, User)), locked := false,
                        ready := Queued([], [FIRST, SECOND], [IDLE]), bits := {10, 63}, current := Some(RELEASER))
  ghost const S6 := S5.(tasks := Tasks(Idle(READY), Ten(RUNNING, None, 0, User), NEW, Five(WAITING, 1, User)),
                        alarms := [RELEASER], ready := Queued([], [SECOND], [IDLE]), current := Some(FIRST))
  ghost const S7 := S6.(tasks := Tasks(Idle(READY), Ten(WAITING, Some(0), 2, TIMED), Ten(RUNNING, None, 0, User),
                                       Five(WAITING, 1, User)),
                        alarms := [RELEASER, FIRST], waiting := map[0 := [FIRST]],
                        ready := Queued([], [], [IDLE]), bits := {63}, current := Some(SECOND))
  ghost const S8 := S7.(tasks := Tasks(Idle(RUNNING), Ten(WAITING, Some(0), 2, TIMED), BLOCKED, Five(WAITING, 1, User)),
                        waiting := map[0 := [FIRST, SECOND]], ready := Queued([], [], []), bits := {},
                        current := Some(IDLE))
  ghost const S9 := S8.(tasks := Tasks(Idle(READY), Ten(WAITING, Some(0), 2, TIMED), BLOCKED, Five(RUNNING, 1, User)),
                        alarms := [FIRST], tick := 1, ready := Queued([], [], [IDLE]), bits := {63},
                        current := Some(RELEASER))
  ghost const S10 := S9.(tasks := Tasks(Idle(READY), Ten(WAITING, Some(0), 2, TIMED), BLOCKED,
                                        Five(RUNNING, 1, Releasing(0))),
                         sems := map[0 := Semaphore(1, true, 0, 1, 0)])
  ghost const S11 := S10.(tasks := Tasks(Idle(READY), Ten(READY, Some(0), 2, TIMED), BLOCKED, Five(RUNNING, 1, User)),
                          waiting := map[0 := [SECOND]], ready := Queued([], [FIRST], [IDLE]), bits := {10, 63})
  ghost const S12 := S11.(tasks := Tasks(Idle(READY), Ten(RUNNING, Some(0), 2, TIMED), BLOCKED, Five(WAITING, 6, User)),
                          alarms := [FIRST, RELEASER], ready := Queued([], [], [IDLE]), bits := {63},
                          current := Some(FIRST))
  ghost const S13 := S12.(tasks := Tasks(Idle(READY), Ten(RUNNING, None, 2, TIMED), BLOCKED, Five(WAITING, 6, User)),
                          alarms := [RELEASER], tick := 2)

  /** What `eos_schedule` picks, from what it finds when the running task is back in its queue. */
  lemma Picks(s: State, p: nat, t: TaskId, r5: seq<TaskId>, r10: seq<TaskId>, r63: seq<TaskId>)
    requires Typed(s) && p in {5, 10, 63} && t in s.tasks && s.tasks[t].priority == p
    requires p in s.bits && (forall q :: q in s.bits ==> p <= q) && t !in Queued(r5, r10, r63)[p]
    requires s.ready == Queued(if p == 5 then [t] + r5 else r5, if p == 10 then [t] + r10 else r10,
                               if p == 63 then [t] + r63 else r63)
    ensures Dispatch(s) == s.(tasks := s.tasks[t := s.tasks[t].(status := RUNNING)], ready := Queued(r5, r10, r63),
                              bits := if Queued(r5, r10, r63)[p] == [] then s.bits - {p} else s.bits,
                              current := Some(t))
  {
    hide Typed, Delete;
    assert Highest(s.bits) == p;
    FirstDeleted(s.ready[p]);
    QueuedIs(Run(s, t).ready, r5, r10, r63);
  }

  /** A task of priority 10 joins its ready queue. */
  lemma BackInTen(s: State, t: TaskId, r5: seq<TaskId>, r10: seq<TaskId>, r63: seq<TaskId>)
    requires Typed(s) && t in s.tasks && s.tasks[t].priority == 10 && s.ready == Queued(r5, r10, r63)
    ensures MakeReady(s, t) == s.(tasks := s.tasks[t := s.tasks[t].(status := READY)],
                                  ready := Queued(r5, r10 + [t], r63),
                                  bits := s.bits + {10})
  {
    hide Typed;
    QueuedIs(MakeReady(s, t).ready, r5, r10 + [t], r63);
  }

  /** The running task joins the priority queue 0, which then is `queue`. */
  lemma JoinsQueue(s: State, queue: seq<TaskId>)
    requires Typed(s) && s.current.Some? && 0 in s.sems && s.sems[0].byPriority
    requires queue == InsertOrdered(s.waiting[0], s.current.value, Priorities(s.tasks))
    ensures var t := s.current.value;
            Enqueue(s, 0) == s.(waiting := s.waiting[0 := queue],
                                tasks := s.tasks[t := s.tasks[t].(owner := Some(0), status := WAITING)])
  {
    hide Typed, InsertOrdered;
  }

  // ----- the calls one by one

  lemma AtBoot()
    ensures Boot() == S0 && Typed(S0)
  {
    var s1 := Empty().(tasks := map[IDLE := Idle(SUSPENDED)]);
    assert Typed(s1);
    QueuedIs(MakeReady(s1, IDLE).ready, [], [], [IDLE]);
  }

  lemma Creates(s: State, s': State, t: TaskId, priority: nat, r5: seq<TaskId>, r10: seq<TaskId>)
    requires Typed(s) && s.locked && s.current.None? && t !in s.tasks && priority in {5, 10}
    requires s.ready == Queued(r5, r10, [IDLE])
    requires s'.ready == Queued(if priority == 5 then r5 + [t] else r5, if priority == 10 then r10 + [t] else r10,
                                [IDLE])
    requires s'.tasks == s.tasks[t := Task(READY, priority, 0, 0, None, 0, User)]
    requires s' == s.(tasks := s'.tasks, ready := s'.ready, bits := s.bits + {priority})
    ensures Follows(s, DoCreate(t, 8096, priority), s')
  {
    hide Typed;
    var s1 := s.(tasks := s.tasks[t := Task(SUSPENDED, priority, 0, 0, None, 0, User)]);
    OneMore(s, s1, t);
    QueuedIs(MakeReady(s1, t).ready, if priority == 5 then r5 + [t] else r5, if priority == 10 then r10 + [t] else r10,
             [IDLE]);
    assert MakeReady(s1, t).tasks == s'.tasks;
  }

  lemma OneMore(s: State, s': State, t: TaskId)
    requires Typed(s) && t !in s.tasks && t in s'.tasks && s' == s.(tasks := s.tasks[t := s'.tasks[t]])
    requires s'.tasks[t].priority <= LOWEST_PRIORITY && s'.tasks[t].owner.None? && s'.tasks[t].pc.User?
    ensures Typed(s')
  {
  }

  lemma Step0()
    requires Typed(S0)
    ensures Follows(S0, DoCreate(FIRST, 8096, 10), S1)
  {
    hide Typed, Follows;
    assert [] + [FIRST] == [FIRST];
    Creates(S0, S1, FIRST, 10, [], []);
  }

  lemma Step1()
    requires Typed(S1)
    ensures Follows(S1, DoCreate(SECOND, 8096, 10), S2)
  {
    hide Typed, Follows;
    assert [FIRST] + [SECOND] == [FIRST, SECOND];
    Creates(S1, S2, SECOND, 10, [], [FIRST]);
  }

  lemma Step2()
    requires Typed(S2)
    ensures Follows(S2, DoCreate(RELEASER, 8096, 5), S3)
  {
    hide Typed, Follows;
    assert [] + [RELEASER] == [RELEASER];
    Creates(S2, S3, RELEASER, 5, [], [FIRST, SECOND]);
  }

  lemma Step3()
    requires Typed(S3)
    ensures Follows(S3, DoInitSemaphore(0, 0, true), S4)
  {
    hide Typed;
  }

  lemma Step4()
    requires Typed(S4)
    ensures Follows(S4, DoRestore(false), S5)
  {
    hide Dispatch, Typed;
    var s1 := S4.(locked := false);
    StillTyped(S4, s1);
    assert [RELEASER] + [] == [RELEASER];
    Picks(s1, 5, RELEASER, [], [FIRST, SECOND], [IDLE]);
    assert Dispatch(s1).tasks == S5.tasks;
  }

  lemma StillTyped(s: State, s': State)
    requires Typed(s) && s' == s.(locked := s'.locked, tick := s'.tick, alarms := s'.alarms)
    requires forall t :: t in s'.alarms ==> t in s.alarms
    ensures Typed(s')
  {
  }

  ghost const B5 := S5.(alarms := [RELEASER], tasks := Tasks(Idle(READY), NEW, NEW, Five(RUNNING, 1, User)))

  lemma Alarm5()
    requires Typed(S5)
    ensures SetAlarm(S5, RELEASER, 1) == B5
  {
    hide Typed;
    var tasks := S5.tasks[RELEASER := Five(RUNNING, 1, User)];
    assert tasks == B5.tasks;
    assert InsertOrdered([], RELEASER, AlarmTimes(tasks)) == [RELEASER];
  }

  lemma Step5()
    requires Typed(S5)
    ensures Follows(S5, DoSleep(1), S6)
  {
    hide Dispatch, SetAlarm, Typed;
    Alarm5();
    var s2 := SetStatus(B5, RELEASER, WAITING);
    assert s2.tasks == Tasks(Idle(READY), NEW, NEW, Five(WAITING, 1, User));
    assert [FIRST] + [SECOND] == [FIRST, SECOND];
    Picks(s2, 10, FIRST, [], [SECOND], [IDLE]);
    assert Dispatch(s2).tasks == S6.tasks;
  }

  ghost const B6 := S6.(alarms := [RELEASER, FIRST],
                        tasks := Tasks(Idle(READY), Ten(RUNNING, None, 2, User), NEW, Five(WAITING, 1, User)))
  ghost const E6 := B6.(tasks := Tasks(Idle(READY), Ten(RUNNING, None, 2, TIMED), NEW, Five(WAITING, 1, User)))
  ghost const W6 := B6.(tasks := Tasks(Idle(READY), Ten(WAITING, Some(0), 2, TIMED), NEW, Five(WAITING, 1, User)),
                        waiting := map[0 := [FIRST]])

  lemma Alarm6()
    requires Typed(S6)
    ensures SetAlarm(S6, FIRST, 2) == B6
  {
    hide Typed;
    var tasks := S6.tasks[FIRST := Ten(RUNNING, None, 2, User)];
    assert tasks == B6.tasks;
    assert FirstAbove(KeysOf([RELEASER], AlarmTimes(tasks)), 2) == 1;
    assert InsertOrdered([RELEASER], FIRST, AlarmTimes(tasks)) == [RELEASER, FIRST];
  }

  lemma Entered6()
    requires Typed(S6)
    ensures Enter(S6, FIRST, 0, 2) == E6
  {
    hide SetAlarm, Typed;
    Alarm6();
    assert Enter(S6, FIRST, 0, 2).tasks == E6.tasks;
  }

  lemma Waits6()
    requires Typed(E6)
    ensures Enqueue(E6, 0) == W6
  {
    hide Typed;
    assert InsertOrdered([], FIRST, Priorities(E6.tasks)) == [FIRST];
    JoinsQueue(E6, [FIRST]);
    Changed(Idle(READY), E6.tasks[FIRST], NEW, E6.tasks[RELEASER], W6.tasks[FIRST]);
  }

  lemma Step6()
    requires Typed(S6)
    ensures Follows(S6, DoAcquire(0, 2), S7)
  {
    hide Schedule, Enter, Enqueue, Typed;
    Entered6();
    Waits6();
    Scheduled7();
  }

  lemma Scheduled7()
    requires Typed(W6)
    ensures Schedule(W6) == S7
  {
    hide Dispatch, Typed;
    assert [SECOND] + [] == [SECOND];
    Picks(W6, 10, SECOND, [], [], [IDLE]);
    assert Dispatch(W6).tasks == S7.tasks;
  }

  ghost const E7 := S7.(tasks := Tasks(Idle(READY), Ten(WAITING, Some(0), 2, TIMED), Ten(RUNNING, None, 0, UNTIMED),
                                       Five(WAITING, 1, User)))
  ghost const W7 := E7.(tasks := Tasks(Idle(READY), Ten(WAITING, Some(0), 2, TIMED), BLOCKED, Five(WAITING, 1, User)),
                        waiting := map[0 := [FIRST, SECOND]])

  lemma Entered7()
    requires Typed(S7)
    ensures Enter(S7, SECOND, 0, 0) == E7
  {
    hide Typed;
    assert SetAlarm(S7, SECOND, 0) == S7;
    assert Enter(S7, SECOND, 0, 0).tasks == E7.tasks;
  }

  lemma Waits7()
    requires Typed(E7)
    ensures Enqueue(E7, 0) == W7
  {
    hide Typed;
    assert FirstAbove(KeysOf([FIRST], Priorities(E7.tasks)), 10) == 1;
    assert InsertOrdered([FIRST], SECOND, Priorities(E7.tasks)) == [FIRST, SECOND];
    JoinsQueue(E7, [FIRST, SECOND]);
    Changed(Idle(READY), E7.tasks[FIRST], E7.tasks[SECOND], E7.tasks[RELEASER], BLOCKED);
  }

  lemma Step7()
    requires Typed(S7)
    ensures Follows(S7, DoAcquire(0, 0), S8)
  {
    hide Dispatch, Enter, Enqueue, Typed;
    Entered7();
    Waits7();
    assert [IDLE] + [] == [IDLE];
    Picks(W7, 63, IDLE, [], [], []);
    assert Dispatch(W7).tasks == S8.tasks;
  }

  ghost const F8 := S8.(alarms := [FIRST], tick := 1, ready := Queued([RELEASER], [], []), bits := {5},
                        tasks := Tasks(Idle(RUNNING), Ten(WAITING, Some(0), 2, TIMED), BLOCKED, Five(READY, 1, User)))

  lemma Fired8()
    requires Typed(S8) && Typed(S8.(tick := 1))
    ensures FireDue(S8.(tick := 1)) == F8
  {
    hide Typed;
    var s1 := S8.(tick := 1);
    var s2 := FireOne(s1);
    assert s2.alarms == [FIRST];
    assert s2.tasks == F8.tasks;
    assert [] + [RELEASER] == [RELEASER];
    QueuedIs(s2.ready, [RELEASER], [], []);
    assert s2 == F8;
    assert FireDue(F8) == F8;
  }

  lemma Scheduled8()
    requires Typed(F8)
    ensures Schedule(F8) == S9
  {
    hide Dispatch, Typed;
    var s3 := Requeue(F8);
    assert [] + [IDLE] == [IDLE] && [RELEASER] + [] == [RELEASER];
    QueuedIs(s3.ready, [RELEASER], [], [IDLE]);
    Picks(s3, 5, RELEASER, [], [], [IDLE]);
    assert Dispatch(s3).tasks == S9.tasks;
  }

  lemma Step8()
    requires Typed(S8)
    ensures Follows(S8, DoTick, S9)
  {
    hide Schedule, FireDue, Typed;
    StillTyped(S8, S8.(tick := 1));
    Fired8();
    Scheduled8();
  }

  lemma May9()
    requires Typed(S9)
    ensures Enabled(S9, DoRelease(0)) && S9.sems[0] == NO_COUNT
  {
    hide Typed;
  }

  /** What a release does, with the new task table and counts named. */
  lemma Increments(s: State, s': State, tasks: map<TaskId, Task>, sems: map<SemId, Semaphore>)
    requires Enabled(s, DoRelease(0)) && s' == s.(tasks := tasks, sems := sems)
    requires var sem, t := s.sems[0], s.current.value;
             sems == s.sems[0 := sem.(count := Int8(sem.count + 1), released := sem.released + 1)] &&
             tasks == s.tasks[t := s.tasks[t].(pc := Releasing(0))]
    ensures Follows(s, DoRelease(0), s')
  {
    hide Typed, Int8;
  }

  lemma Step9()
    requires Typed(S9)
    ensures Follows(S9, DoRelease(0), S10)
  {
    hide Typed, Enabled, Follows;
    May9();
    Changed(Idle(READY), S9.tasks[FIRST], BLOCKED, S9.tasks[RELEASER], Five(RUNNING, 1, Releasing(0)));
    assert S9.sems[0 := Semaphore(1, true, 0, 1, 0)] == S10.sems;
    Increments(S9, S10, S10.tasks, S10.sems);
  }

  ghost const P10 := S10.(tasks := S9.tasks)
  ghost const U10 := P10.(waiting := map[0 := [SECOND]])

  lemma Thinner(s: State, s': State, q: SemId)
    requires Typed(s) && q in s.waiting && q in s'.waiting && s' == s.(waiting := s.waiting[q := s'.waiting[q]])
    requires forall t :: t in s'.waiting[q] ==> t in s.waiting[q]
    ensures Typed(s')
  {
  }

  lemma Dequeued10()
    requires Typed(P10)
    ensures P10.(waiting := P10.waiting[0 := Delete(P10.waiting[0], FIRST)]) == U10 && Typed(U10)
  {
    hide Delete, Typed;
    FirstDeleted([FIRST, SECOND]);
    assert [FIRST, SECOND][1..] == [SECOND];
    assert P10.waiting[0 := [SECOND]] == U10.waiting;
    Thinner(P10, U10, 0);
  }

  lemma Ready10()
    requires Typed(U10)
    ensures MakeReady(U10, FIRST) == S11
  {
    hide Typed;
    Changed(Idle(READY), U10.tasks[FIRST], BLOCKED, U10.tasks[RELEASER], S11.tasks[FIRST]);
    assert [] + [FIRST] == [FIRST];
    BackInTen(U10, FIRST, [], [], [IDLE]);
  }

  lemma Woken10()
    requires Typed(P10)
    ensures Typed(S11) && WakeFromQueue(P10, 0) == Schedule(S11)
  {
    hide Schedule, Delete, Typed, MakeReady;
    Dequeued10();
    Ready10();
  }

  lemma Again10()
    requires Typed(S11)
    ensures Schedule(S11) == S11
  {
    hide Dispatch, Typed;
    var s2 := Requeue(S11);
    assert [] + [RELEASER] == [RELEASER] && [RELEASER] + [] == [RELEASER];
    QueuedIs(s2.ready, [RELEASER], [FIRST], [IDLE]);
    Picks(s2, 5, RELEASER, [], [FIRST], [IDLE]);
    assert Dispatch(s2).tasks == S11.tasks;
  }

  lemma Step10()
    requires Typed(S10)
    ensures Follows(S10, DoWake, S11)
  {
    hide Schedule, WakeFromQueue, Typed;
    assert SetPc(S10, RELEASER, User).tasks == P10.tasks;
    Woken10();
    Again10();
  }

  ghost const B11 := S11.(alarms := [FIRST, RELEASER],
                          tasks := Tasks(Idle(READY), Ten(READY, Some(0), 2, TIMED), BLOCKED, Five(RUNNING, 6, User)))

  lemma Alarm11()
    requires Typed(S11)
    ensures SetAlarm(S11, RELEASER, 5) == B11
  {
    hide Typed;
    var tasks := S11.tasks[RELEASER := Five(RUNNING, 6, User)];
    assert tasks == B11.tasks;
    assert FirstAbove(KeysOf([FIRST], AlarmTimes(tasks)), 6) == 1;
    assert InsertOrdered([FIRST], RELEASER, AlarmTimes(tasks)) == [FIRST, RELEASER];
  }

  ghost const W11 := B11.(tasks := Tasks(Idle(READY), Ten(READY, Some(0), 2, TIMED), BLOCKED, Five(WAITING, 6, User)))

  lemma Asleep11()
    requires Typed(B11)
    ensures SetStatus(B11, RELEASER, WAITING) == W11 && Typed(W11)
  {
    hide Typed;
    assert SetStatus(B11, RELEASER, WAITING).tasks == W11.tasks;
  }

  lemma Scheduled11()
    requires Typed(W11)
    ensures Schedule(W11) == S12
  {
    hide Dispatch, Typed;
    assert [FIRST] + [] == [FIRST];
    Picks(W11, 10, FIRST, [], [], [IDLE]);
    Changed(Idle(READY), W11.tasks[FIRST], BLOCKED, W11.tasks[RELEASER], S12.tasks[FIRST]);
  }

  lemma Step11()
    requires Typed(S11)
    ensures Follows(S11, DoSleep(5), S12)
  {
    hide Schedule, SetAlarm, SetStatus, Typed;
    Alarm11();
    Asleep11();
    Scheduled11();
  }

  ghost const F12 := S12.(alarms := [RELEASER], tick := 2, ready := Queued([], [FIRST], [IDLE]), bits := {10, 63},
                          tasks := Tasks(Idle(READY), Ten(READY, None, 2, TIMED), BLOCKED, Five(WAITING, 6, User)))

  ghost const T12 := S12.(tick := 2)
  ghost const U12 := T12.(alarms := [RELEASER])

  lemma Unlinked12()
    requires Typed(U12)
    ensures Unlink(U12, FIRST) == U12
  {
    hide Typed;
    QueuedIs(Unlink(U12, FIRST).ready, [], [], [IDLE]);
    assert Unlink(U12, FIRST).waiting == U12.waiting;
  }

  ghost const N12 := U12.(tasks := Tasks(Idle(READY), Ten(RUNNING, None, 2, TIMED), BLOCKED, Five(WAITING, 6, User)))

  lemma Back12()
    requires Typed(N12)
    ensures MakeReady(N12, FIRST) == F12
  {
    hide Typed;
    Changed(Idle(READY), N12.tasks[FIRST], BLOCKED, N12.tasks[RELEASER], F12.tasks[FIRST]);
    assert [] + [FIRST] == [FIRST];
    BackInTen(N12, FIRST, [], [], [IDLE]);
  }

  lemma Disowned12()
    requires Typed(U12)
    ensures With(U12, FIRST, Ten(RUNNING, None, 2, TIMED)) == N12 && Typed(N12)
  {
    hide Typed;
    Changed(Idle(READY), U12.tasks[FIRST], BLOCKED, U12.tasks[RELEASER], Ten(RUNNING, None, 2, TIMED));
  }

  /** The running task's own alarm falls due: it is put on its ready queue while it runs. */
  lemma First12()
    requires Typed(T12) && Typed(U12) && Unlink(U12, FIRST) == U12
    ensures FireOne(T12) == F12
  {
    hide Typed, Unlink, With, MakeReady;
    assert [FIRST, RELEASER][1..] == [RELEASER];
    Disowned12();
    Back12();
    assert !AlarmHitsReady(U12, FIRST);
  }

  lemma Fired12()
    requires Typed(T12) && Typed(U12)
    ensures FireDue(T12) == F12
  {
    hide Typed, WakeFromAlarm;
    Unlinked12();
    First12();
    assert FireDue(F12) == F12;
  }

  lemma Scheduled12()
    requires Typed(F12)
    ensures Schedule(F12) == S13
  {
    hide Dispatch, Typed;
    assert [FIRST] + [] == [FIRST];
    Picks(F12, 10, FIRST, [], [], [IDLE]);
    Changed(Idle(READY), F12.tasks[FIRST], BLOCKED, F12.tasks[RELEASER], S13.tasks[FIRST]);
  }

  lemma Step12()
    requires Typed(S12)
    ensures Follows(S12, DoTick, S13)
  {
    hide Schedule, FireDue, Typed;
    StillTyped(S12, T12);
    StillTyped(S12, U12);
    Fired12();
    Scheduled12();
  }

  // ----- the runs

  ghost const TO_9 := [DoCreate(FIRST, 8096, 10), DoCreate(SECOND, 8096, 10), DoCreate(RELEASER, 8096, 5),
                       DoInitSemaphore(0, 0, true), DoRestore(false), DoSleep(1), DoAcquire(0, 2), DoAcquire(0, 0),
                       DoTick]
  ghost const TO_11 := TO_9 + [DoRelease(0), DoWake]
  ghost const TO_13 := TO_11 + [DoSleep(5), DoTick]

  lemma IsTyped(s: State, a: Action, s': State)
    requires Follows(s, a, s')
    ensures Typed(s')
  {
    hide Typed, Step;
  }

  lemma Longer(run: seq<State>, acts: seq<Action>, a: Action, s: State)
    requires IsRun(run, acts) && Follows(run[|acts|], a, s)
    ensures IsRun(run + [s], acts + [a]) && Typed(s)
  {
    hide Follows, Boot;
    IsTyped(run[|acts|], a, s);
  }

  // ----- the run through the window

  ghost const ONE := map[0 := Semaphore(1, true, 0, 1, 0)]
  ghost const K0 := S6.(alarms := [], tick := 1, ready := Queued([RELEASER], [SECOND], [IDLE]), bits := {5, 10, 63},
                        tasks := Tasks(Idle(READY), Ten(RUNNING, None, 0, User), NEW, Five(READY, 1, User)))
  ghost const K1 := K0.(tasks := Tasks(Idle(READY), NEW, NEW, Five(RUNNING, 1, User)),
                        ready := Queued([], [SECOND, FIRST], [IDLE]), bits := {10, 63}, current := Some(RELEASER))
  ghost const K2 := K1.(tasks := Tasks(Idle(READY), NEW, NEW, Five(RUNNING, 1, Releasing(0))), sems := ONE)
  ghost const K3 := K1.(sems := ONE)
  ghost const K4 := K3.(tasks := Tasks(Idle(READY), NEW, Ten(RUNNING, None, 0, User), Five(WAITING, 6, User)),
                        alarms := [RELEASER], ready := Queued([], [FIRST], [IDLE]), current := Some(SECOND))
  ghost const K5 := K4.(tasks := Tasks(Idle(READY), Ten(RUNNING, None, 0, User), Ten(WAITING, None, 6, User),
                                       Five(WAITING, 6, User)),
                        alarms := [RELEASER, SECOND], ready := Queued([], [], [IDLE]), bits := {63},
                        current := Some(FIRST))

  lemma Fired6()
    requires Typed(S6) && Typed(S6.(tick := 1))
    ensures FireDue(S6.(tick := 1)) == K0
  {
    hide Typed;
    var s1 := S6.(tick := 1);
    var s2 := FireOne(s1);
    assert s2.alarms == [];
    assert s2.tasks == K0.tasks;
    assert [] + [RELEASER] == [RELEASER];
    QueuedIs(s2.ready, [RELEASER], [SECOND], [IDLE]);
    assert s2 == K0;
    assert FireDue(K0) == K0;
  }

  lemma Scheduled6()
    requires Typed(K0)
    ensures Schedule(K0) == K1
  {
    hide Dispatch, Typed;
    var s3 := Requeue(K0);
    assert [SECOND] + [FIRST] == [SECOND, FIRST] && [RELEASER] + [] == [RELEASER];
    QueuedIs(s3.ready, [RELEASER], [SECOND, FIRST], [IDLE]);
    Picks(s3, 5, RELEASER, [], [SECOND, FIRST], [IDLE]);
    assert Dispatch(s3).tasks == K1.tasks;
  }

  lemma Tick6()
    requires Typed(S6)
    ensures Follows(S6, DoTick, K1)
  {
    hide Schedule, FireDue, Typed;
    StillTyped(S6, S6.(tick := 1));
    Fired6();
    Scheduled6();
  }

  lemma MayRelease6()
    requires Typed(K1)
    ensures Enabled(K1, DoRelease(0)) && K1.sems[0] == NO_COUNT
  {
    hide Typed;
  }

  lemma Release6()
    requires Typed(K1)
    ensures Follows(K1, DoRelease(0), K2)
  {
    hide Typed, Enabled, Follows;
    MayRelease6();
    Changed(Idle(READY), NEW, NEW, K1.tasks[RELEASER], Five(RUNNING, 1, Releasing(0)));
    assert K1.sems[0 := Semaphore(1, true, 0, 1, 0)] == ONE;
    Increments(K1, K2, K2.tasks, ONE);
  }

  lemma Wake6()
    requires Typed(K2)
    ensures Follows(K2, DoWake, K3)
  {
    hide Typed;
    Changed(Idle(READY), NEW, NEW, K2.tasks[RELEASER], Five(RUNNING, 1, User));
  }

  ghost const L3 := K3.(alarms := [RELEASER], tasks := Tasks(Idle(READY), NEW, NEW, Five(RUNNING, 6, User)))
  ghost const M3 := L3.(tasks := Tasks(Idle(READY), NEW, NEW, Five(WAITING, 6, User)))

  lemma ReleaserAlarm()
    requires Typed(K3)
    ensures SetAlarm(K3, RELEASER, 5) == L3
  {
    hide Typed;
    var tasks := K3.tasks[RELEASER := Five(RUNNING, 6, User)];
    assert tasks == L3.tasks;
    assert InsertOrdered([], RELEASER, AlarmTimes(tasks)) == [RELEASER];
  }

  lemma ReleaserSleeps()
    requires Typed(K3)
    ensures Follows(K3, DoSleep(5), K4)
  {
    hide Dispatch, SetAlarm, Typed;
    ReleaserAlarm();
    Changed(Idle(READY), NEW, NEW, L3.tasks[RELEASER], Five(WAITING, 6, User));
    assert SetStatus(L3, RELEASER, WAITING) == M3;
    assert [SECOND] + [FIRST] == [SECOND, FIRST];
    Picks(M3, 10, SECOND, [], [FIRST], [IDLE]);
    Changed(Idle(READY), NEW, NEW, M3.tasks[RELEASER], Ten(RUNNING, None, 0, User));
  }

  ghost const L4 := K4.(alarms := [RELEASER, SECOND],
                        tasks := Tasks(Idle(READY), NEW, Ten(RUNNING, None, 6, User), Five(WAITING, 6, User)))
  ghost const M4 := L4.(tasks := Tasks(Idle(READY), NEW, Ten(WAITING, None, 6, User), Five(WAITING, 6, User)))

  lemma SecondAlarm()
    requires Typed(K4)
    ensures SetAlarm(K4, SECOND, 5) == L4
  {
    hide Typed;
    var tasks := K4.tasks[SECOND := Ten(RUNNING, None, 6, User)];
    assert tasks == L4.tasks;
    assert FirstAbove(KeysOf([RELEASER], AlarmTimes(tasks)), 6) == 1;
    assert InsertOrdered([RELEASER], SECOND, AlarmTimes(tasks)) == [RELEASER, SECOND];
  }

  lemma SecondSleeps()
    requires Typed(K4)
    ensures Follows(K4, DoSleep(5), K5)
  {
    hide Dispatch, SetAlarm, Typed;
    SecondAlarm();
    Changed(Idle(READY), NEW, L4.tasks[SECOND], L4.tasks[RELEASER], Ten(WAITING, None, 6, User));
    assert SetStatus(L4, SECOND, WAITING) == M4;
    assert [FIRST] + [] == [FIRST];
    Picks(M4, 10, FIRST, [], [], [IDLE]);
    Changed(Idle(READY), NEW, M4.tasks[SECOND], M4.tasks[RELEASER], Ten(RUNNING, None, 0, User));
  }

  lemma RunTo9() returns (run: seq<State>)
    ensures IsRun(run, TO_9) && run == [S0, S1, S2, S3, S4, S5, S6, S7, S8, S9] && Typed(S9)
  {
    hide Follows, Boot, Typed, S0, S1, S2, S3, S4, S5, S6, S7, S8, S9;
    AtBoot();
    Step0();
    IsTyped(S0, TO_9[0], S1);
    Step1();
    IsTyped(S1, TO_9[1], S2);
    Step2();
    IsTyped(S2, TO_9[2], S3);
    Step3();
    IsTyped(S3, TO_9[3], S4);
    Step4();
    IsTyped(S4, TO_9[4], S5);
    Step5();
    IsTyped(S5, TO_9[5], S6);
    Step6();
    IsTyped(S6, TO_9[6], S7);
    Step7();
    IsTyped(S7, TO_9[7], S8);
    Step8();
    IsTyped(S8, TO_9[8], S9);
    run := [S0, S1, S2, S3, S4, S5, S6, S7, S8, S9];
  }

  lemma RunTo11() returns (run: seq<State>)
    ensures IsRun(run, TO_11) && |run| == 12 && run[11] == S11 && Typed(S11)
    ensures forall i :: 0 <= i < 12 ==> !run[i].faulted
  {
    hide Follows, Boot, Typed, IsRun;
    var run9 := RunTo9();
    Step9();
    Longer(run9, TO_9, DoRelease(0), S10);
    Step10();
    Longer(run9 + [S10], TO_9 + [DoRelease(0)], DoWake, S11);
    assert TO_9 + [DoRelease(0)] + [DoWake] == TO_11;
    run := run9 + [S10] + [S11];
  }

  lemma RunTo13() returns (run: seq<State>)
    ensures IsRun(run, TO_13) && |run| == 14 && run[13] == S13 && Typed(S13)
    ensures forall i :: 0 <= i < 14 ==> !run[i].faulted
  {
    hide Follows, Boot, Typed, IsRun;
    var run11 := RunTo11();
    Step11();
    Longer(run11, TO_11, DoSleep(5), S12);
    Step12();
    Longer(run11 + [S12], TO_11 + [DoSleep(5)], DoTick, S13);
    assert TO_11 + [DoSleep(5)] + [DoTick] == TO_13;
    run := run11 + [S12] + [S13];
  }

  /** A run without a fault and without a give-up keeps both invariants. */
  lemma {:induction false} CleanRun(run: seq<State>, acts: seq<Action>, n: nat)
    requires IsRun(run, acts) && n < |run|
    requires forall i :: 0 <= i <= n ==> !run[i].faulted
    requires forall i :: 0 <= i < n ==> !acts[i].DoRetry?
    ensures Inv(run[n]) && SyncInv(run[n])
  {
    hide Inv, SyncInv, Step, TickHits;
    if n == 0 {
      BootHolds();
      BootSync();
    } else {
      CleanRun(run, acts, n - 1);
      assert Follows(run[n - 1], acts[n - 1], run[n]);
      StepKeeps(run[n - 1], acts[n - 1]);
      StepSync(run[n - 1], acts[n - 1]);
    }
  }

  /** With one timed acquire the kernel can reach a fault: the task that waits until tick 2 is
      woken at tick 1, is first in its ready queue, and its alarm was left armed. */
  lemma TimedAcquireCanFault() returns (run: seq<State>)
    ensures IsRun(run, TO_11 + [DoTick]) && run[12].faulted
  {
    hide Follows, Boot, IsRun, Step, Typed;
    run := RunTo11();
    LastTick();
    Longer(run, TO_11, DoTick, Step(S11, DoTick));
    run := run + [Step(S11, DoTick)];
  }

  lemma LastTick()
    requires Typed(S11)
    ensures Enabled(S11, DoTick) && Step(S11, DoTick).faulted && Follows(S11, DoTick, Step(S11, DoTick))
  {
    hide Typed, Schedule;
    var s1 := S11.(tick := 2);
    StillTyped(S11, s1);
    assert AlarmHitsReady(s1, FIRST);
    assert FireDue(s1).faulted;
    FaultStays(FireDue(s1));
  }

  /** A wake-up can be lost: the first waiter was woken for the unit, runs only at its deadline and
      gives up; the unit stays in the count while the second waiter waits and nobody comes. */
  lemma WakeupCanBeLost() returns (run: seq<State>)
    ensures IsRun(run, TO_13 + [DoRetry]) && LosesWakeup(run[13], DoRetry) && Typed(run[14]) && !SyncInv(run[14])
    ensures run[14].sems == S10.sems && run[14].waiting == map[0 := [SECOND]]
    ensures Woken(run[14], 0) == {} == Releasers(run[14], 0)
  {
    hide Follows, Boot, IsRun, Step, Typed, Inv, SyncInv, LosesWakeup, Woken, Releasers;
    run := RunTo13();
    CleanRun(run, TO_13, 13);
    Step13();
    OnTheWay();
    GivesUp();
    Gone();
    Longer(run, TO_13, DoRetry, S14);
    run := run + [S14];
  }

  ghost const S14 := S13.(tasks := Tasks(Idle(READY), Ten(RUNNING, None, 2, User), BLOCKED, Five(WAITING, 6, User)))

  lemma Step13()
    requires Typed(S13)
    ensures Follows(S13, DoRetry, S14)
  {
    hide Typed;
    assert Step(S13, DoRetry).tasks == S14.tasks;
  }

  lemma Gone()
    requires Typed(S13) && Inv(S13) && SyncInv(S13) && LosesWakeup(S13, DoRetry) && Follows(S13, DoRetry, S14)
    ensures Typed(S14) && !SyncInv(S14)
  {
    hide Typed, Inv, SyncInv, LosesWakeup, Step;
    StepSync(S13, DoRetry);
  }

  lemma OnTheWay()
    ensures Woken(S13, 0) == {FIRST} && Releasers(S13, 0) == {} && Woken(S14, 0) == {} == Releasers(S14, 0)
  {
  }

  lemma GivesUp()
    requires Typed(S13)
    ensures LosesWakeup(S13, DoRetry)
  {
    hide Typed, Woken, Releasers;
    OnTheWay();
  }

  /** A task can strand itself: without a period, `eos_sleep(0)` sets no alarm. */
  lemma SleeperCanBeStranded() returns (run: seq<State>)
    ensures IsRun(run, TO_9[..5] + [DoSleep(0)]) && KernelStranded.Stranded(run[6], RELEASER)
  {
    hide Follows, Boot, IsRun, Step, Typed, Inv, SyncInv, KernelStranded.Stranded;
    var run9 := RunTo9();
    ShorterRun(run9, TO_9, 5);
    run := run9[..6];
    LaterTyped(run9, TO_9, 5);
    CleanRun(run, TO_9[..5], 5);
    MayStrand();
    KernelStranded.SleepStrands(S5, 0);
    Longer(run, TO_9[..5], DoSleep(0), Step(S5, DoSleep(0)));
    run := run + [Step(S5, DoSleep(0))];
  }

  lemma LaterTyped(run: seq<State>, acts: seq<Action>, n: nat)
    requires IsRun(run, acts) && 0 < n <= |acts|
    ensures Typed(run[n])
  {
    hide Follows, Boot, Typed;
    assert Follows(run[n - 1], acts[n - 1], run[n]);
    IsTyped(run[n - 1], acts[n - 1], run[n]);
  }

  lemma ShorterRun(run: seq<State>, acts: seq<Action>, n: nat)
    requires IsRun(run, acts) && n <= |acts|
    ensures IsRun(run[..n + 1], acts[..n])
  {
    hide Follows, Boot;
  }

  lemma MayStrand()
    requires Typed(S5)
    ensures Enabled(S5, DoSleep(0)) && Step(S5, DoSleep(0)) == Sleep(S5, 0) &&
            Follows(S5, DoSleep(0), Step(S5, DoSleep(0)))
  {
    hide Sleep, Typed;
  }

  /** A suspended task can be made ready without `eos_resume_task`: it was woken from a timed acquire,
      suspended before it ran, and its alarm was left armed. */
  lemma SuspendedCanWake() returns (run: seq<State>)
    ensures IsRun(run, TO_11 + [DoSuspend(FIRST)] + [DoTick]) && !run[13].faulted
    ensures KernelSuspend.Suspended(run[12], FIRST)
    ensures FIRST in run[13].tasks && run[13].tasks[FIRST].status in {READY, RUNNING}
  {
    hide Follows, Boot, IsRun, Step, Typed, Inv, SyncInv, TickHits, KernelEffects.Without;
    run := RunTo11();
    CleanRun(run, TO_11, 11);
    MaySuspend();
    KernelEffects.SuspendStep(S11, FIRST);
    var s12 := Step(S11, DoSuspend(FIRST));
    StepKeeps(S11, DoSuspend(FIRST));
    Longer(run, TO_11, DoSuspend(FIRST), s12);
    QuietTick(s12);
    KernelSuspend.SuspendedStep(s12, DoTick, FIRST);
    StepKeeps(s12, DoTick);
    Longer(run + [s12], TO_11 + [DoSuspend(FIRST)], DoTick, Step(s12, DoTick));
    run := run + [s12] + [Step(s12, DoTick)];
  }

  lemma MaySuspend()
    requires Typed(S11)
    ensures Enabled(S11, DoSuspend(FIRST)) && Follows(S11, DoSuspend(FIRST), Step(S11, DoSuspend(FIRST)))
    ensures S11.tasks[FIRST].status == READY && S11.alarms == [FIRST] && S11.tick == 1 &&
            S11.current == Some(RELEASER) &&
            S11.tasks[FIRST].alarmTime == 2
  {
    hide Typed, Step;
  }

  lemma QuietTick(s: State)
    requires Typed(s) && s.alarms == [FIRST] && FIRST in s.tasks && s.tasks[FIRST].status == SUSPENDED
    requires s.tick == 1 && s.current.Some?
    ensures !TickHits(s) && Enabled(s, DoTick) && Follows(s, DoTick, Step(s, DoTick))
  {
    hide Typed, Step;
  }

  /** A priority queue can be left out of order: the first waiter is given a priority behind that
      of the second, and stays before it. */
  lemma WaiterCanBeMisplaced() returns (run: seq<State>)
    ensures IsRun(run, TO_9 + [DoChangePriority(FIRST, 20)])
    ensures Inv(run[9]) && Misplaces(run[9], DoChangePriority(FIRST, 20)) && Typed(run[10]) && !WaitSorted(run[10])
  {
    hide Follows, Boot, IsRun, Step, Typed, Inv, SyncInv, Misplaces, WaitSorted;
    run := RunTo9();
    CleanRun(run, TO_9, 9);
    Rerates();
    StepSorted(S9, DoChangePriority(FIRST, 20));
    Longer(run, TO_9, DoChangePriority(FIRST, 20), Step(S9, DoChangePriority(FIRST, 20)));
    run := run + [Step(S9, DoChangePriority(FIRST, 20))];
  }

  lemma Rerates()
    requires Typed(S9) && Inv(S9)
    ensures WaitSorted(S9) && Misplaces(S9, DoChangePriority(FIRST, 20)) && Enabled(S9, DoChangePriority(FIRST, 20))
    ensures Follows(S9, DoChangePriority(FIRST, 20), Step(S9, DoChangePriority(FIRST, 20)))
  {
    hide Typed, Inv, Step;
    assert IndexOf(S9.waiting[0], FIRST) == 0;
    assert OutOfPlace(S9.waiting[0], Priorities(S9.tasks), 0, 20);
  }

  ghost const INSIDE := map[FIRST := 0]
  ghost const MOVES := [W.Whole(TO_9[0]), W.Whole(TO_9[1]), W.Whole(TO_9[2]), W.Whole(TO_9[3]), W.Whole(TO_9[4]),
                        W.Whole(TO_9[5]), W.Test(0), W.Whole(DoTick), W.Whole(DoRelease(0)), W.Whole(DoWake),
                        W.Whole(DoSleep(5)), W.Whole(DoSleep(5))]

  lemma WholeOutside(s: State, a: Action, s': State)
    requires Follows(s, a, s')
    ensures W.Follows(W.Open(s, map[]), W.Whole(a), W.Open(s', map[]))
  {
    hide Typed, Step, Enabled;
  }

  /** A step of another task while the first one is in the window, or a tick. */
  lemma WholeInside(s: State, a: Action, s': State)
    requires Follows(s, a, s') && (s.current == Some(FIRST) ==> a.DoTick?)
    ensures W.Follows(W.Open(s, INSIDE), W.Whole(a), W.Open(s', INSIDE))
  {
    hide Typed, Step, Enabled;
  }

  lemma Tests6()
    requires Typed(S6)
    ensures W.Follows(W.Open(S6, map[]), W.Test(0), W.Open(S6, INSIDE))
  {
    hide Typed;
  }

  lemma LosesNow()
    requires Typed(K5)
    ensures W.May(W.Open(K5, INSIDE), W.Join) && W.LosesInWindow(W.Open(K5, INSIDE), W.Join)
  {
    hide Typed;
    assert Woken(K5, 0) == {} == Releasers(K5, 0);
  }

  lemma Assembled(w0: W.Open, w1: W.Open, w2: W.Open, w3: W.Open, w4: W.Open, w5: W.Open, w6: W.Open, w7: W.Open,
                  w8: W.Open, w9: W.Open, w10: W.Open, w11: W.Open, w12: W.Open) returns (ws: seq<W.Open>)
    requires w0 == W.Open(Boot(), map[])
    requires W.Follows(w0, W.Whole(TO_9[0]), w1) && W.Follows(w1, W.Whole(TO_9[1]), w2) &&
             W.Follows(w2, W.Whole(TO_9[2]), w3)
    requires W.Follows(w3, W.Whole(TO_9[3]), w4) && W.Follows(w4, W.Whole(TO_9[4]), w5) &&
             W.Follows(w5, W.Whole(TO_9[5]), w6)
    requires W.Follows(w6, W.Test(0), w7) && W.Follows(w7, W.Whole(DoTick), w8) &&
             W.Follows(w8, W.Whole(DoRelease(0)), w9)
    requires W.Follows(w9, W.Whole(DoWake), w10) && W.Follows(w10, W.Whole(DoSleep(5)), w11)
    requires W.Follows(w11, W.Whole(DoSleep(5)), w12)
    ensures ws == [w0, w1, w2, w3, w4, w5, w6, w7, w8, w9, w10, w11, w12] && W.IsOpenRun(ws, MOVES)
  {
    hide Boot, W.Follows;
    ws := [w0, w1, w2, w3, w4, w5, w6, w7, w8, w9, w10, w11, w12];
  }

  lemma OutsideMoves()
    ensures Boot() == S0 && Typed(S6)
    ensures W.Follows(W.Open(S0, map[]), W.Whole(TO_9[0]), W.Open(S1, map[]))
    ensures W.Follows(W.Open(S1, map[]), W.Whole(TO_9[1]), W.Open(S2, map[]))
    ensures W.Follows(W.Open(S2, map[]), W.Whole(TO_9[2]), W.Open(S3, map[]))
    ensures W.Follows(W.Open(S3, map[]), W.Whole(TO_9[3]), W.Open(S4, map[]))
    ensures W.Follows(W.Open(S4, map[]), W.Whole(TO_9[4]), W.Open(S5, map[]))
    ensures W.Follows(W.Open(S5, map[]), W.Whole(TO_9[5]), W.Open(S6, map[]))
  {
    hide Follows, Boot, Typed, W.Follows, S0, S1, S2, S3, S4, S5, S6, S7, S8, S9;
    AtBoot();
    var run := RunTo9();
    assert forall i :: 0 <= i < 6 ==> Follows(run[i], TO_9[i], run[i + 1]);
    assert run[0] == S0 && run[1] == S1 && run[2] == S2 && run[3] == S3 && run[4] == S4 && run[5] == S5 && run[6] == S6;
    WholeOutside(S0, TO_9[0], S1);
    WholeOutside(S1, TO_9[1], S2);
    WholeOutside(S2, TO_9[2], S3);
    WholeOutside(S3, TO_9[3], S4);
    WholeOutside(S4, TO_9[4], S5);
    WholeOutside(S5, TO_9[5], S6);
    IsTyped(S5, TO_9[5], S6);
  }

  lemma WindowOpens() returns (ws: seq<W.Open>)
    ensures W.IsOpenRun(ws, MOVES) && ws[12] == W.Open(K5, INSIDE) && Typed(K5)
    ensures forall i :: 0 <= i < 13 ==> !ws[i].kernel.faulted
  {
    hide Boot, Typed, W.Follows, W.IsOpenRun;
    OutsideMoves();
    Tests6();
    InsideMoves();
    ws := Assembled(W.Open(S0, map[]), W.Open(S1, map[]), W.Open(S2, map[]), W.Open(S3, map[]), W.Open(S4, map[]),
                    W.Open(S5, map[]), W.Open(S6, map[]), W.Open(S6, INSIDE), W.Open(K1, INSIDE), W.Open(K2, INSIDE),
                    W.Open(K3, INSIDE), W.Open(K4, INSIDE), W.Open(K5, INSIDE));
  }

  lemma InsideMoves()
    requires Typed(S6)
    ensures W.Follows(W.Open(S6, INSIDE), W.Whole(DoTick), W.Open(K1, INSIDE))
    ensures W.Follows(W.Open(K1, INSIDE), W.Whole(DoRelease(0)), W.Open(K2, INSIDE))
    ensures W.Follows(W.Open(K2, INSIDE), W.Whole(DoWake), W.Open(K3, INSIDE))
    ensures W.Follows(W.Open(K3, INSIDE), W.Whole(DoSleep(5)), W.Open(K4, INSIDE))
    ensures W.Follows(W.Open(K4, INSIDE), W.Whole(DoSleep(5)), W.Open(K5, INSIDE)) && Typed(K5)
  {
    hide Follows, Typed, W.Follows;
    Tick6();
    IsTyped(S6, DoTick, K1);
    Release6();
    IsTyped(K1, DoRelease(0), K2);
    Wake6();
    IsTyped(K2, DoWake, K3);
    ReleaserSleeps();
    IsTyped(K3, DoSleep(5), K4);
    SecondSleeps();
    IsTyped(K4, DoSleep(5), K5);
    WholeInside(S6, DoTick, K1);
    WholeInside(K1, DoRelease(0), K2);
    WholeInside(K2, DoWake, K3);
    WholeInside(K3, DoSleep(5), K4);
    WholeInside(K4, DoSleep(5), K5);
  }

  lemma {:induction false} CleanOpen(ws: seq<W.Open>, ms: seq<W.Move>, n: nat)
    requires W.IsOpenRun(ws, ms) && n < |ws|
    requires forall i :: 0 <= i <= n ==> !ws[i].kernel.faulted
    requires forall i :: 0 <= i < n ==> ms[i] != W.Join && ms[i] != W.Whole(DoRetry)
    ensures W.OpenInv(ws[n]) && SyncInv(ws[n].kernel)
  {
    hide Inv, SyncInv, Step, TickHits, W.Entering, W.May;
    if n == 0 {
      W.BootOpen();
    } else {
      CleanOpen(ws, ms, n - 1);
      assert W.Follows(ws[n - 1], ms[n - 1], ws[n]);
      NoFault(ws[n - 1], ms[n - 1]);
      W.OpenKeeps(ws[n - 1], ms[n - 1]);
      W.OpenSync(ws[n - 1], ms[n - 1]);
    }
  }

  lemma NoFault(w: W.Open, m: W.Move)
    requires W.OpenInv(w) && W.May(w, m) && !W.Next(w, m).kernel.faulted
    ensures !(m == W.Whole(DoTick) && TickHits(w.kernel))
  {
    hide Inv, TickHits, Step, W.Entering;
    if m == W.Whole(DoTick) {
      StepKeeps(w.kernel, DoTick);
    }
  }

  /** A wake-up can be lost without any deadline: the release falls into the window, finds the wait
      queue empty and wakes nobody, and the task then joins the queue although the count is 1. */
  lemma WakeupCanBeLostInWindow() returns (ws: seq<W.Open>)
    ensures W.IsOpenRun(ws, MOVES + [W.Join]) && W.LosesInWindow(ws[12], W.Join)
    ensures Typed(ws[13].kernel) && !SyncInv(ws[13].kernel)
  {
    hide Follows, Typed, W.Follows, W.LosesInWindow, W.May, SyncInv, W.OpenInv;
    var run := WindowOpens();
    CleanOpen(run, MOVES, 12);
    LosesNow();
    W.OpenSync(run[12], W.Join);
    ws := run + [W.Next(run[12], W.Join)];
    OneMove(run, MOVES, W.Join);
  }

  lemma OneMove(ws: seq<W.Open>, ms: seq<W.Move>, m: W.Move)
    requires W.IsOpenRun(ws, ms) && W.May(ws[|ms|], m)
    ensures W.IsOpenRun(ws + [W.Next(ws[|ms|], m)], ms + [m])
  {
    hide Boot, W.May, W.Next;
  }
}
