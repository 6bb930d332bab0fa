/** Semaphores over whole runs: counts are conserved and no wake-up is lost. */
module KernelSync {
  import opened Queues
  import opened ReadyBitmap
  import opened KernelState
  import opened KernelInvariant
  import opened KernelSteps
  import opened KernelRuns

  /** The tasks woken on `q` that have not tested its count again. */
  ghost function Woken(s: State, q: SemId): set<TaskId> {
    set t | t in s.tasks && s.tasks[t].pc.Acquiring? && s.tasks[t].pc.sem == q && s.tasks[t].status != WAITING
  }

  /** The tasks that have incremented the count of `q` and not yet looked at its queue. */
  ghost function Releasers(s: State, q: SemId): set<TaskId> {
    set t | t in s.tasks && s.tasks[t].pc == Releasing(q)
  }

  /** The count is what was put in less what was taken out, and it is a count. */
  ghost predicate Conserved(sem: Semaphore) {
    sem.count == sem.initial + sem.released - sem.acquired && 0 <= sem.count <= 127
  }

  /** While a task waits on `q`, each unit of its count is on its way to a task: one woken, or one
      about to be woken. */
  ghost predicate Covered(s: State, q: SemId)
    requires q in s.sems && q in s.waiting
  {
    s.waiting[q] != [] ==> s.sems[q].count <= |Woken(s, q)| + |Releasers(s, q)|
  }

  ghost predicate SyncInv(s: State)
    requires Typed(s)
  {
    forall q :: q in s.sems ==> Conserved(s.sems[q]) && Covered(s, q)
  }

  /** No task moves in or out of a call, none starts to wait in an acquire, no count changes. */
  ghost predicate Quiet(s: State, s': State)
    requires Typed(s) && Typed(s')
  {
    s'.sems == s.sems &&
    (forall t :: t in s.tasks ==> t in s'.tasks && s'.tasks[t].pc == s.tasks[t].pc) &&
    (forall t :: t in s.tasks && s.tasks[t].pc.Acquiring? && s'.tasks[t].status == WAITING ==>
       s.tasks[t].status == WAITING) &&
    (forall t :: t in s'.tasks && t !in s.tasks ==> s'.tasks[t].pc.User?)
  }

  lemma WokenGrows(s: State, s': State, q: SemId)
    requires Typed(s) && Typed(s') && Quiet(s, s')
    ensures Woken(s, q) <= Woken(s', q) && Releasers(s, q) == Releasers(s', q)
    ensures |Woken(s, q)| <= |Woken(s', q)|
  {
    SetSize(Woken(s, q), Woken(s', q));
  }

  lemma SetSize(a: set<nat>, b: set<nat>)
    requires a <= b
    ensures |a| <= |b|
  {
    assert |b| == |a| + |b - a| by { assert b == a + (b - a); }
  }

  /** Somebody waits on `q` exactly when its queue is not empty. */
  lemma QueueEmpty(s: State, q: SemId)
    requires Inv(s) && q in s.sems
    ensures s.waiting[q] != [] <==>
      exists t :: t in s.tasks && s.tasks[t].status == WAITING && s.tasks[t].pc.Acquiring? && s.tasks[t].pc.sem == q
  {
    hide ReadyOk, BitsOk, AlarmsOk;
    if s.waiting[q] != [] {
      var t := s.waiting[q][0];
      assert t in s.waiting[q];
      assert s.tasks[t].pc.sem == q;
    }
  }

  lemma QuietKeeps(s: State, s': State)
    requires Inv(s) && Inv(s') && SyncInv(s) && Quiet(s, s')
    ensures SyncInv(s')
  {
    forall q | q in s'.sems
      ensures Conserved(s'.sems[q]) && Covered(s', q)
    {
      assert q in s.sems;
      QueueEmpty(s, q);
      QueueEmpty(s', q);
      WokenGrows(s, s', q);
    }
  }

  /** What a call does before its last `eos_schedule` decides whether it is quiet. */
  lemma QuietThenSchedule(s: State, s1: State)
    requires Typed(s) && Typed(s1) && Quiet(s, s1)
    ensures Quiet(s, Schedule(s1))
  {
    hide Schedule;
    ScheduleOnlyWakes(s1);
    ScheduleFrame(s1);
  }

  lemma TickQuiet(s: State)
    requires Inv(s) && s.tick + 1 < WORD && !TickHits(s)
    ensures Quiet(s, Tick(s))
  {
    hide ReadyOk, WaitingOk, BitsOk, AlarmsOk, RunningOk, Undisturbed, Schedule, FireDue, DueAlarmHits, TickHits;
    var s1 := s.(tick := s.tick + 1);
    NoWrap(s.tick, 1);
    TickStarts(s);
    forall t | t in s.tasks
      ensures t in FireDue(s1).tasks && FireDue(s1).tasks[t].pc == s.tasks[t].pc
      ensures FireDue(s1).tasks[t].status == WAITING ==> s.tasks[t].status == WAITING
    {
      FireDueEffect(s1, t);
    }
    FireDueFrame(s1);
    QuietThenSchedule(s, FireDue(s1));
  }

  /** Calls that have nothing to do with semaphores are quiet. */
  ghost predicate OutsideSync(a: Action) {
    !(a.DoInitSemaphore? || a.DoAcquire? || a.DoRetry? || a.DoRelease? || a.DoWake?)
  }

  lemma OneTaskQuiet(s: State, s1: State, t: TaskId, task: Task)
    requires Typed(s) && Typed(s1) && s1.sems == s.sems && t in s.tasks && s1.tasks == s.tasks[t := task]
    requires task.pc == s.tasks[t].pc && (task.pc.User? || task.status != WAITING || s.tasks[t].status == WAITING)
    ensures Quiet(s, s1)
  {
  }

  lemma QuietChain(s: State, s1: State, s2: State)
    requires Typed(s) && Typed(s1) && Typed(s2) && Quiet(s, s1) && Quiet(s1, s2)
    ensures Quiet(s, s2)
  {
  }

  lemma QuietSelf(s: State)
    requires Typed(s)
    ensures Quiet(s, s)
  {
  }

  lemma FallAsleepQuiet(s: State, t: TaskId, timeout: nat)
    requires Typed(s) && t in s.tasks && s.tasks[t].pc.User?
    ensures Quiet(s, Schedule(SetStatus(SetAlarm(s, t, timeout), t, WAITING)))
  {
    hide SetAlarm, Schedule, Quiet;
    AlarmRuns(s, t, timeout);
    var s1 := SetAlarm(s, t, timeout);
    OneTaskQuiet(s, SetStatus(s1, t, WAITING), t, s1.tasks[t].(status := WAITING));
    QuietThenSchedule(s, SetStatus(s1, t, WAITING));
  }

  lemma SleepQuiet(s: State, ticks: nat)
    requires Typed(s) && s.current.Some? && s.tasks[s.current.value].pc.User?
    ensures Quiet(s, Sleep(s, ticks))
  {
    hide SetAlarm, Schedule, SetStatus, Add32, Quiet;
    var t := s.current.value;
    QuietSelf(s);
    if !s.locked {
      if ticks == 0 && s.tasks[t].period != 0 {
        var next := Add32(s.tasks[t].wakeupTime, s.tasks[t].period);
        var s1 := With(s, t, s.tasks[t].(wakeupTime := next));
        OneTaskQuiet(s, s1, t, s.tasks[t].(wakeupTime := next));
        if next > s.tick {
          FallAsleepQuiet(s1, t, next - s.tick);
          QuietChain(s, s1, Sleep(s, ticks));
        }
      } else {
        FallAsleepQuiet(s, t, ticks);
      }
    }
  }

  lemma CreateQuiet(s: State, t: TaskId, stackSize: nat, priority: nat)
    requires Typed(s) && t !in s.tasks
    ensures Quiet(s, Create(s, t, stackSize, priority))
  {
    hide Schedule;
    if priority <= LOWEST_PRIORITY && stackSize >= MIN_STACK_SIZE {
      var s1 := s.(tasks := s.tasks[t := Task(SUSPENDED, priority, 0, 0, None, 0, User)]);
      assert Typed(s1);
      QuietThenSchedule(s, MakeReady(s1, t));
    }
  }

  lemma ChangePriorityQuiet(s: State, t: TaskId, priority: nat)
    requires Typed(s) && t in s.tasks
    ensures Quiet(s, ChangePriority(s, t, priority))
  {
    hide Schedule, Delete, Quiet;
    QuietSelf(s);
    if priority <= LOWEST_PRIORITY {
      var task := s.tasks[t].(priority := priority);
      if s.tasks[t].status == READY {
        var s1 := With(LeaveReady(s, t), t, task);
        assert MakeReady(s1, t).tasks == s.tasks[t := task] by { assert task.(status := READY) == task; }
        OneTaskQuiet(s, MakeReady(s1, t), t, task);
        QuietThenSchedule(s, MakeReady(s1, t));
      } else {
        OneTaskQuiet(s, With(s, t, task), t, task);
        QuietThenSchedule(s, With(s, t, task));
      }
    }
  }

  lemma SuspendQuiet(s: State, t: TaskId)
    requires Typed(s) && t in s.tasks
    ensures Quiet(s, Suspend(s, t))
  {
    hide Delete;
  }

  lemma ResumeQuiet(s: State, t: TaskId)
    requires Typed(s) && t in s.tasks
    ensures Quiet(s, Resume(s, t))
  {
    hide Schedule;
    if s.tasks[t].status == SUSPENDED {
      QuietThenSchedule(s, MakeReady(s, t));
    }
  }

  lemma OutsideIsQuiet(s: State, a: Action)
    requires Inv(s) && Enabled(s, a) && OutsideSync(a) && !(a.DoTick? && TickHits(s))
    ensures Quiet(s, Step(s, a))
  {
    hide Inv, Schedule, TickHits, Sleep, Tick, Create, ChangePriority, Suspend, Resume;
    match a
    case DoCreate(t, stackSize, priority) => CreateQuiet(s, t, stackSize, priority);
    case DoChangePriority(t, priority) => ChangePriorityQuiet(s, t, priority);
    case DoSuspend(t) => SuspendQuiet(s, t);
    case DoResume(t) => ResumeQuiet(s, t);
    case DoSetPeriod(t, period) =>
    case DoSleep(ticks) => SleepQuiet(s, ticks);
    case DoLock =>
    case DoRestore(locked) => QuietThenSchedule(s, s.(locked := locked));
    case DoTick => TickQuiet(s);
  }

  lemma InitSync(s: State, q: SemId, count: int, byPriority: bool)
    requires Inv(s) && SyncInv(s) && q !in s.sems && 0 <= count <= 127
    ensures SyncInv(InitSemaphore(s, q, count, byPriority))
  {
    hide ReadyOk, WaitingOk, BitsOk, AlarmsOk;
    var s' := InitSemaphore(s, q, count, byPriority);
    assert forall p :: p in s.sems ==> Woken(s', p) == Woken(s, p) && Releasers(s', p) == Releasers(s, p);
  }

  lemma TakeSync(s: State, s': State, q: SemId)
    requires Typed(s) && Typed(s') && SyncInv(s) && q in s.sems && s.sems[q].count > 0
    requires s'.tasks == s.tasks && s'.waiting == s.waiting && s'.sems == Take(s, q).sems
    ensures SyncInv(s')
  {
    assert forall p :: p in s.sems ==> Woken(s', p) == Woken(s, p) && Releasers(s', p) == Releasers(s, p);
  }

  /** The running task blocks on `q`, or goes on with no count taken: nothing else about the
      semaphores changes. */
  ghost predicate Blocks(s: State, s': State, t: TaskId, q: SemId)
    requires Typed(s) && Typed(s')
  {
    t in s.tasks && s.tasks.Keys == s'.tasks.Keys && q in s.sems && s.sems.Keys == s'.sems.Keys &&
    (forall x :: x in s.tasks && x != t ==> s'.tasks[x].pc == s.tasks[x].pc) &&
    (forall x :: x in s.tasks && x != t && s'.tasks[x].status == WAITING ==> s.tasks[x].status == WAITING) &&
    s'.tasks[t].pc.Acquiring? && s'.tasks[t].pc.sem == q &&
    (s.tasks[t].pc.User? || s.tasks[t].pc == s'.tasks[t].pc) &&
    (forall p :: p in s.sems && p != q ==> s'.sems[p] == s.sems[p]) &&
    s'.sems[q] == s.sems[q]
  }

  lemma BlockSync(s: State, s': State, t: TaskId, q: SemId)
    requires Inv(s) && Inv(s') && SyncInv(s) && Blocks(s, s', t, q) && s.sems[q].count <= 0
    ensures SyncInv(s')
  {
    hide ReadyOk, WaitingOk, BitsOk, AlarmsOk, RunningOk, Undisturbed, Woken, Releasers;
    forall p | p in s'.sems
      ensures Conserved(s'.sems[p]) && Covered(s', p)
    {
      if p != q {
        OthersWait(s, s', t, q, p);
        OthersWoken(s, s', t, q, p);
      }
    }
  }

  lemma OthersWait(s: State, s': State, t: TaskId, q: SemId, p: SemId)
    requires Inv(s) && Inv(s') && Blocks(s, s', t, q) && p != q && p in s.sems
    ensures s'.waiting[p] != [] ==> s.waiting[p] != []
  {
    hide ReadyOk, WaitingOk, BitsOk, AlarmsOk, RunningOk, Undisturbed;
    QueueEmpty(s, p);
    QueueEmpty(s', p);
  }

  lemma OthersWoken(s: State, s': State, t: TaskId, q: SemId, p: SemId)
    requires Typed(s) && Typed(s') && Blocks(s, s', t, q) && p != q
    ensures |Woken(s, p)| <= |Woken(s', p)| && Releasers(s', p) == Releasers(s, p)
  {
    SetSize(Woken(s, p), Woken(s', p));
  }

  lemma EnterBlocks(s: State, q: SemId, timeout: nat)
    requires Inv(s) && UserRuns(s) && q in s.sems
    ensures Blocks(s, Schedule(Enqueue(Enter(s, s.current.value, q, timeout), q)), s.current.value, q)
  {
    hide Schedule, SetAlarm, Add32, InsertOrdered, ReadyOk, WaitingOk, BitsOk, AlarmsOk;
    var t := s.current.value;
    AlarmRuns(s, t, timeout);
    var s1 := Enqueue(Enter(s, t, q, timeout), q);
    ScheduleOnlyWakes(s1);
    ScheduleFrame(s1);
  }

  lemma AcquireBlocks(s: State, q: SemId, timeout: int)
    requires Inv(s) && UserRuns(s) && q in s.sems && AcquireOutcome(s, q, timeout).Blocked?
    ensures Blocks(s, Acquire(s, q, timeout), s.current.value, q)
  {
    hide Inv, Schedule, Enter, Enqueue, Blocks;
    EnterBlocks(s, q, timeout);
  }

  /** The running task gives up its acquire at its deadline although it was woken for a unit of
      the count, while another task waits and nobody else is on the way to take that unit. */
  ghost predicate LosesWakeup(s: State, a: Action) {
    Typed(s) && a.DoRetry? && s.current.Some? && s.tasks[s.current.value].pc.Acquiring? && RetryOutcome(s).Failed? &&
    var q := s.tasks[s.current.value].pc.sem;
    s.waiting[q] != [] && s.sems[q].count == |Woken(s, q)| + |Releasers(s, q)|
  }

  lemma RetrySync(s: State)
    requires Inv(s) && SyncInv(s) && s.current.Some? && s.tasks[s.current.value].pc.Acquiring? && Inv(Retry(s))
    ensures SyncInv(Retry(s)) <==> !LosesWakeup(s, DoRetry)
  {
    hide ReadyOk, WaitingOk, BitsOk, AlarmsOk, RunningOk, Undisturbed, Schedule, InsertOrdered, SetAlarm,
      Woken, Releasers, SyncInv;
    var t := s.current.value;
    var q := s.tasks[t].pc.sem;
    match RetryOutcome(s)
    case Failed => GiveUpSync(s, t, q);
    case Acquired =>
      AlarmRuns(s, t, 0);
      LeaveSync(s, Retry(s), t, q);
    case Blocked =>
      var s1 := Enqueue(s, q);
      ScheduleOnlyWakes(s1);
      ScheduleFrame(s1);
      BlockSync(s, Retry(s), t, q);
  }

  /** A woken task leaves `eos_acquire_semaphore`: it alone is not on its way any more. */
  lemma LeaveCounts(s: State, s': State, t: TaskId, q: SemId, p: SemId)
    requires Inv(s) && t in s.tasks && s.current == Some(t)
    requires s.tasks[t].pc.Acquiring? && s.tasks[t].pc.sem == q
    requires s'.tasks == s.tasks[t := s.tasks[t].(pc := User)]
    ensures Releasers(s', p) == Releasers(s, p)
    ensures |Woken(s', p)| == |Woken(s, p)| - (if p == q then 1 else 0)
  {
    hide ReadyOk, WaitingOk, BitsOk, AlarmsOk, RunningOk, Undisturbed;
    if p == q {
      assert Woken(s', q) == Woken(s, q) - {t} && t in Woken(s, q);
    } else {
      assert Woken(s', p) == Woken(s, p);
    }
  }

  lemma LeaveSync(s: State, s': State, t: TaskId, q: SemId)
    requires Inv(s) && Typed(s') && SyncInv(s) && t in s.tasks && s.current == Some(t)
    requires s.tasks[t].pc.Acquiring? && s.tasks[t].pc.sem == q
    requires s'.tasks == s.tasks[t := s.tasks[t].(pc := User)] && s'.waiting == s.waiting
    requires s.sems[q].count > 0 && s'.sems == Take(s, q).sems
    ensures SyncInv(s')
  {
    hide ReadyOk, WaitingOk, BitsOk, AlarmsOk, RunningOk, Undisturbed, Woken, Releasers;
    forall p | p in s'.sems
      ensures Conserved(s'.sems[p]) && Covered(s', p)
    {
      LeaveCounts(s, s', t, q, p);
    }
  }

  /** Giving up is harmless exactly when it does not lose a wake-up. */
  lemma GiveUpSync(s: State, t: TaskId, q: SemId)
    requires Inv(s) && SyncInv(s) && t in s.tasks && s.current == Some(t)
    requires s.tasks[t].pc.Acquiring? && s.tasks[t].pc.sem == q && RetryOutcome(s).Failed?
    ensures SyncInv(Retry(s)) <==>
      !(s.waiting[q] != [] && s.sems[q].count == |Woken(s, q)| + |Releasers(s, q)|)
  {
    hide ReadyOk, WaitingOk, BitsOk, AlarmsOk, RunningOk, Undisturbed, Woken, Releasers;
    forall p | p in s.sems
      ensures Covered(Retry(s), p) <==>
        !(p == q && s.waiting[q] != [] && s.sems[q].count == |Woken(s, q)| + |Releasers(s, q)|)
    {
      LeaveCounts(s, Retry(s), t, q, p);
    }
  }

  /** The running task is now between the increment and the wake-up: it alone has moved. */
  lemma ReleaseCounts(s: State, s': State, t: TaskId, q: SemId, p: SemId)
    requires t in s.tasks && s.tasks[t].pc.User? && s'.tasks == s.tasks[t := s.tasks[t].(pc := Releasing(q))]
    ensures Woken(s', p) == Woken(s, p) && |Releasers(s', p)| == |Releasers(s, p)| + (if p == q then 1 else 0)
  {
    if p == q {
      assert Releasers(s', q) == Releasers(s, q) + {t} && t !in Releasers(s, q);
    } else {
      assert Releasers(s', p) == Releasers(s, p);
    }
  }

  lemma ReleaseSync(s: State, q: SemId)
    requires Inv(s) && SyncInv(s) && UserRuns(s) && q in s.sems && s.sems[q].count < 127
    ensures SyncInv(Release(s, q))
  {
    hide ReadyOk, WaitingOk, BitsOk, AlarmsOk, RunningOk, Undisturbed, Woken, Releasers;
    forall p | p in s.sems
      ensures Conserved(Release(s, q).sems[p]) && Covered(Release(s, q), p)
    {
      ReleaseCounts(s, Release(s, q), s.current.value, q, p);
    }
  }

  /** The releaser `t` of `q` is done, and has woken a waiter if there was one. */
  ghost predicate WokeOne(s: State, s': State, t: TaskId, q: SemId)
    requires Typed(s) && Typed(s')
  {
    s'.sems == s.sems && s'.tasks.Keys == s.tasks.Keys && q in s.sems &&
    t in s.tasks && s.tasks[t].pc == Releasing(q) && s'.tasks[t].pc.User? &&
    (forall x :: x in s.tasks && x != t ==> s'.tasks[x].pc == s.tasks[x].pc) &&
    (forall x :: x in s.tasks && s'.tasks[x].status == WAITING ==> s.tasks[x].status == WAITING) &&
    (s.waiting[q] != [] ==>
       var w := s.waiting[q][0]; w in s.tasks && w !in Woken(s, q) && w in Woken(s', q))
  }

  lemma WokeOneCounts(s: State, s': State, t: TaskId, q: SemId, p: SemId)
    requires Typed(s) && Typed(s') && WokeOne(s, s', t, q) && p in s.sems
    ensures |Releasers(s', p)| == |Releasers(s, p)| - (if p == q then 1 else 0)
    ensures |Woken(s', p)| >= |Woken(s, p)| + (if p == q && s.waiting[q] != [] then 1 else 0)
  {
    if p == q {
      assert Releasers(s', q) == Releasers(s, q) - {t} && t in Releasers(s, q);
      if s.waiting[q] != [] {
        SetSize(Woken(s, q) + {s.waiting[q][0]}, Woken(s', q));
      } else {
        SetSize(Woken(s, q), Woken(s', q));
      }
    } else {
      assert Releasers(s', p) == Releasers(s, p);
      SetSize(Woken(s, p), Woken(s', p));
    }
  }

  lemma WokeOneSync(s: State, s': State, t: TaskId, q: SemId)
    requires Inv(s) && Inv(s') && SyncInv(s) && WokeOne(s, s', t, q)
    ensures SyncInv(s')
  {
    hide ReadyOk, WaitingOk, BitsOk, AlarmsOk, RunningOk, Undisturbed, Woken, Releasers;
    forall p | p in s'.sems
      ensures Covered(s', p)
    {
      QueueEmpty(s, p);
      QueueEmpty(s', p);
      WokeOneCounts(s, s', t, q, p);
    }
  }

  lemma WakeWakesOne(s: State)
    requires Inv(s) && s.current.Some? && s.tasks[s.current.value].pc.Releasing?
    ensures WokeOne(s, Wake(s), s.current.value, s.tasks[s.current.value].pc.sem)
  {
    hide ReadyOk, WaitingOk, BitsOk, AlarmsOk, RunningOk, Undisturbed, Schedule, Delete, WokeOne;
    var t := s.current.value;
    var q := s.tasks[t].pc.sem;
    var s1 := SetPc(s, t, User);
    if s.waiting[q] == [] {
      WokeNone(s, s1, t, q);
    } else {
      var w := s.waiting[q][0];
      FirstWaiter(s, q);
      FirstWaitsHere(s, q);
      var s2 := MakeReady(s1.(waiting := s1.waiting[q := Delete(s1.waiting[q], w)]), w);
      ScheduleOnlyWakes(s2);
      ScheduleFrame(s2);
      WokeFirst(s, s2.tasks, Schedule(s2), t, q);
    }
  }

  lemma WokeNone(s: State, s': State, t: TaskId, q: SemId)
    requires Typed(s) && Typed(s') && t in s.tasks && s.tasks[t].pc == Releasing(q) && s.waiting[q] == []
    requires s'.sems == s.sems && s'.tasks == s.tasks[t := s.tasks[t].(pc := User)]
    ensures WokeOne(s, s', t, q)
  {
  }

  lemma WokeFirst(s: State, tasks: map<TaskId, Task>, s': State, t: TaskId, q: SemId)
    requires Typed(s) && Typed(s') && t in s.tasks && s.tasks[t].pc == Releasing(q) && s.waiting[q] != []
    requires var w := s.waiting[q][0];
             w in s.tasks && s.tasks[w].status == WAITING && s.tasks[w].pc.Acquiring? && s.tasks[w].pc.sem == q &&
             tasks == s.tasks[t := s.tasks[t].(pc := User)][w := s.tasks[w].(status := READY)]
    requires s'.sems == s.sems && OnlyWoken(tasks, s'.tasks)
    ensures WokeOne(s, s', t, q)
  {
  }

  lemma FirstWaitsHere(s: State, q: SemId)
    requires Inv(s) && q in s.sems && s.waiting[q] != []
    ensures var w := s.waiting[q][0]; w in s.tasks && s.tasks[w].pc.Acquiring? && s.tasks[w].pc.sem == q
  {
    assert s.waiting[q][0] in s.waiting[q];
  }

  // ----- the theorems

  /** A step keeps the counts right and the wake-ups covered if and only if it does not give up a
      wake-up that somebody else needed. */
  lemma StepSync(s: State, a: Action)
    requires Inv(s) && SyncInv(s) && Enabled(s, a) && !(a.DoTick? && TickHits(s))
    ensures SyncInv(Step(s, a)) <==> !LosesWakeup(s, a)
  {
    hide ReadyOk, WaitingOk, BitsOk, AlarmsOk, RunningOk, Undisturbed, TickHits, SyncInv, Acquire, Retry, Wake, Release;
    StepKeeps(s, a);
    if OutsideSync(a) {
      OutsideIsQuiet(s, a);
      QuietKeeps(s, Step(s, a));
    } else {
      match a
      case DoInitSemaphore(q, count, byPriority) => InitSync(s, q, count, byPriority);
      case DoAcquire(q, timeout) => AcquireSync(s, q, timeout);
      case DoRetry => RetrySync(s);
      case DoRelease(q) => ReleaseSync(s, q);
      case DoWake =>
        WakeWakesOne(s);
        WokeOneSync(s, Wake(s), s.current.value, s.tasks[s.current.value].pc.sem);
    }
  }

  lemma AcquireSync(s: State, q: SemId, timeout: int)
    requires Inv(s) && SyncInv(s) && UserRuns(s) && q in s.sems && Inv(Acquire(s, q, timeout))
    ensures SyncInv(Acquire(s, q, timeout))
  {
    hide ReadyOk, WaitingOk, BitsOk, AlarmsOk, RunningOk, Undisturbed, Woken, Releasers, Blocks, SyncInv, Schedule;
    match AcquireOutcome(s, q, timeout)
    case Failed =>
    case Acquired => TakeSync(s, Acquire(s, q, timeout), q);
    case Blocked =>
      AcquireBlocks(s, q, timeout);
      BlockSync(s, Acquire(s, q, timeout), s.current.value, q);
  }

  /** In every state of every run in which no tick meets a READY task's alarm and no acquire gives
      up a needed wake-up: each count is its initial value plus releases less acquisitions and
      never negative, and while a task waits the count is covered. */
  lemma {:induction false} RunSync(run: seq<State>, acts: seq<Action>, n: nat)
    requires IsRun(run, acts) && n < |run|
    requires forall i :: 0 <= i < n ==> !(acts[i].DoTick? && TickHits(run[i])) && !LosesWakeup(run[i], acts[i])
    ensures Inv(run[n]) && SyncInv(run[n])
  {
    hide Inv, TickHits, Step, SyncInv, LosesWakeup;
    RunKeeps(run, acts, n);
    if n == 0 {
      BootSync();
    } else {
      RunSync(run, acts, n - 1);
      assert Follows(run[n - 1], acts[n - 1], run[n]);
      StepSync(run[n - 1], acts[n - 1]);
    }
  }

  lemma BootSync()
    ensures SyncInv(Boot())
  {
  }

  // ----- runs without timed acquires

  /** No task is in an acquire with a timeout. */
  ghost predicate Untimed(s: State) {
    forall t :: t in s.tasks && s.tasks[t].pc.Acquiring? ==> s.tasks[t].pc.timeout == 0
  }

  lemma UntimedIsSafe(s: State, a: Action)
    requires Inv(s) && Untimed(s)
    ensures !TickHits(s) && !LosesWakeup(s, a)
  {
  }

  lemma QuietUntimed(s: State, s': State)
    requires Typed(s) && Typed(s') && Quiet(s, s') && Untimed(s)
    ensures Untimed(s')
  {
  }

  lemma AcquireUntimed(s: State, q: SemId, timeout: int)
    requires Typed(s) && Untimed(s) && s.current.Some? && q in s.sems && timeout <= 0
    ensures Untimed(Acquire(s, q, timeout))
  {
    hide SetAlarm, Schedule, InsertOrdered, Add32;
    if AcquireOutcome(s, q, timeout).Blocked? {
      AlarmRuns(s, s.current.value, timeout);
      ScheduleOnlyWakes(Enqueue(Enter(s, s.current.value, q, timeout), q));
    }
  }

  lemma RetryUntimed(s: State)
    requires Typed(s) && Untimed(s) && s.current.Some? && s.tasks[s.current.value].pc.Acquiring?
    ensures Untimed(Retry(s))
  {
    hide SetAlarm, Schedule, InsertOrdered;
    AlarmRuns(s, s.current.value, 0);
    if RetryOutcome(s).Blocked? {
      ScheduleOnlyWakes(Enqueue(s, s.tasks[s.current.value].pc.sem));
    }
  }

  lemma WakeUntimed(s: State, s': State, t: TaskId, q: SemId)
    requires Typed(s) && Typed(s') && Untimed(s) && WokeOne(s, s', t, q)
    ensures Untimed(s')
  {
  }

  lemma UntimedStep(s: State, a: Action)
    requires Inv(s) && Untimed(s) && Enabled(s, a) && (a.DoAcquire? ==> a.timeout <= 0)
    ensures Untimed(Step(s, a))
  {
    hide Inv, TickHits, LosesWakeup, Untimed, Quiet, WokeOne, Acquire, Retry, Wake;
    UntimedIsSafe(s, a);
    if OutsideSync(a) {
      OutsideIsQuiet(s, a);
      QuietUntimed(s, Step(s, a));
    } else if a.DoInitSemaphore? || a.DoRelease? {
      SimpleUntimed(s, a);
    } else if a.DoAcquire? {
      AcquireUntimed(s, a.q, a.timeout);
    } else if a.DoRetry? {
      RetryUntimed(s);
    } else {
      WakeWakesOne(s);
      WakeUntimed(s, Wake(s), s.current.value, s.tasks[s.current.value].pc.sem);
    }
  }

  lemma SimpleUntimed(s: State, a: Action)
    requires Untimed(s) && Enabled(s, a) && (a.DoInitSemaphore? || a.DoRelease?)
    ensures Untimed(Step(s, a))
  {
  }

  /** When no acquire is given a timeout, nothing needs to be assumed about the run: it never
      faults, every state satisfies the kernel's invariant, and no wake-up is ever lost. */
  lemma {:induction false} UntimedRun(run: seq<State>, acts: seq<Action>, n: nat)
    requires IsRun(run, acts) && n < |run|
    requires forall i :: 0 <= i < n && acts[i].DoAcquire? ==> acts[i].timeout <= 0
    ensures Inv(run[n]) && SyncInv(run[n]) && Untimed(run[n])
  {
    hide Inv, TickHits, Step, SyncInv, Untimed, LosesWakeup;
    if n == 0 {
      BootHolds();
      BootSync();
      BootUntimed();
    } else {
      UntimedRun(run, acts, n - 1);
      assert Follows(run[n - 1], acts[n - 1], run[n]);
      UntimedIsSafe(run[n - 1], acts[n - 1]);
      StepKeeps(run[n - 1], acts[n - 1]);
      StepSync(run[n - 1], acts[n - 1]);
      UntimedStep(run[n - 1], acts[n - 1]);
    }
  }

  lemma BootUntimed()
    ensures Untimed(Boot())
  {
  }
}
