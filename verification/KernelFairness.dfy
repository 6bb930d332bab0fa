/** A ready task gets its turn in any run, whatever else happens, as long as nobody outranks it. */
module KernelFairness {
  import opened Queues
  import opened ReadyBitmap
  import opened KernelState
  import opened KernelInvariant
  import opened KernelSteps
  import opened KernelRuns

  // ----- where a step calls the scheduler

  /** The sleep puts the task to sleep. */
  ghost predicate FallsAsleep(s: State, ticks: nat)
    requires Typed(s) && s.current.Some?
  {
    var task := s.tasks[s.current.value];
    !s.locked && !(ticks == 0 && task.period != 0 && Add32(task.wakeupTime, task.period) <= s.tick)
  }

  /** `eos_sleep` up to the call of the scheduler */
  ghost function FallenAsleep(s: State, ticks: nat): (s': State)
    requires Typed(s) && s.current.Some? && FallsAsleep(s, ticks)
    ensures Typed(s')
  {
    var t := s.current.value;
    if ticks == 0 && s.tasks[t].period != 0 then
      var next := Add32(s.tasks[t].wakeupTime, s.tasks[t].period);
      SetStatus(SetAlarm(With(s, t, s.tasks[t].(wakeupTime := next)), t, next - s.tick), t, WAITING)
    else SetStatus(SetAlarm(s, t, ticks), t, WAITING)
  }

  /** The step calls `eos_schedule`. */
  ghost predicate Calls(s: State, a: Action)
    requires Enabled(s, a)
  {
    match a
    case DoCreate(_, stackSize, priority) => priority <= LOWEST_PRIORITY && stackSize >= MIN_STACK_SIZE
    case DoChangePriority(_, priority) => priority <= LOWEST_PRIORITY
    case DoResume(t) => s.tasks[t].status == SUSPENDED
    case DoSleep(ticks) => FallsAsleep(s, ticks)
    case DoAcquire(q, timeout) => AcquireOutcome(s, q, timeout).Blocked?
    case DoRetry => RetryOutcome(s).Blocked?
    case DoWake => s.waiting[s.tasks[s.current.value].pc.sem] != []
    case DoRestore(_) => true
    case DoTick => true
    case _ => false
  }

  /** The state it calls it in. */
  ghost function Handed(s: State, a: Action): (s': State)
    requires Enabled(s, a) && Calls(s, a)
    ensures Typed(s')
  {
    match a
    case DoCreate(t, _, priority) =>
      var s1 := s.(tasks := s.tasks[t := Task(SUSPENDED, priority, 0, 0, None, 0, User)]);
      assert Typed(s1);
      MakeReady(s1, t)
    case DoChangePriority(t, priority) => Repriced(s, t, priority)
    case DoResume(t) => MakeReady(s, t)
    case DoSleep(ticks) => FallenAsleep(s, ticks)
    case DoAcquire(q, timeout) => Enqueue(Enter(s, s.current.value, q, timeout), q)
    case DoRetry => Enqueue(s, s.tasks[s.current.value].pc.sem)
    case DoWake => WokenFirst(SetPc(s, s.current.value, User), s.tasks[s.current.value].pc.sem)
    case DoRestore(locked) => s.(locked := locked)
    case DoTick => FireDue(s.(tick := Add32(s.tick, 1)))
  }

  lemma SleepHanded(s: State, ticks: nat)
    requires Inv(s) && UserRuns(s) && SleepFits(s, ticks) && FallsAsleep(s, ticks)
    ensures Prepared(FallenAsleep(s, ticks)) && Sleep(s, ticks) == Schedule(FallenAsleep(s, ticks))
  {
    hide ReadyOk, WaitingOk, BitsOk, AlarmsOk, RunningOk, SetAlarm, SetStatus, Schedule, Prepared, Add32;
    var t := s.current.value;
    if ticks == 0 && s.tasks[t].period != 0 {
      var next := s.tasks[t].wakeupTime + s.tasks[t].period;
      NoWrap(s.tasks[t].wakeupTime, s.tasks[t].period);
      PeriodKeeps(s, t, s.tasks[t].period, next);
      SleepPrepared(With(s, t, s.tasks[t].(wakeupTime := next)), t, next - s.tick);
    } else {
      SleepPrepared(s, t, ticks);
    }
  }

  lemma WakeHanded(s: State)
    requires Inv(s) && s.current.Some? && s.tasks[s.current.value].pc.Releasing?
    requires s.waiting[s.tasks[s.current.value].pc.sem] != []
    ensures var s1 := WokenFirst(SetPc(s, s.current.value, User), s.tasks[s.current.value].pc.sem);
            Prepared(s1) && Wake(s) == Schedule(s1)
  {
    hide ReadyOk, WaitingOk, BitsOk, AlarmsOk, RunningOk, Schedule, Prepared, MakeReady;
    MovePc(s, User);
    WakePrepared(SetPc(s, s.current.value, User), s.tasks[s.current.value].pc.sem);
  }

  lemma TickHanded(s: State)
    requires Inv(s) && s.tick + 1 < WORD && !TickHits(s)
    ensures var s1 := s.(tick := Add32(s.tick, 1));
            Typed(s1) && Prepared(FireDue(s1)) && Tick(s) == Schedule(FireDue(s1))
  {
    hide Inv, Schedule, Prepared, FireDue, TickHits;
    NoWrap(s.tick, 1);
    TickPrepared(s);
  }

  /** The invariant holds wherever the scheduler is called, up to who runs. */
  lemma HandedPrepared(s: State, a: Action)
    requires Inv(s) && Enabled(s, a) && !(a.DoTick? && TickHits(s)) && Calls(s, a)
    ensures Prepared(Handed(s, a)) && Step(s, a) == Schedule(Handed(s, a))
  {
    hide ReadyOk, WaitingOk, BitsOk, AlarmsOk, RunningOk, Undisturbed, TickHits, Schedule, Prepared, FallsAsleep,
         FallenAsleep,
      Sleep, Wake, WokenFirst, Tick, FireDue, MakeReady, Enter, Enqueue, LeaveReady;
    match a
    case DoCreate(t, stackSize, priority) => CreatePrepared(s, t, priority);
    case DoChangePriority(t, priority) => ChangePriorityPrepared(s, t, priority);
    case DoResume(t) => ResumePrepared(s, t);
    case DoSleep(ticks) => SleepHanded(s, ticks);
    case DoAcquire(q, timeout) => AcquirePrepared(s, q, timeout);
    case DoRetry => RetryPrepared(s);
    case DoWake => WakeHanded(s);
    case DoRestore(locked) => RestorePrepared(s, locked);
    case DoTick => TickHanded(s);
  }

  // ----- places in a ready queue

  /** `t` is READY at position `k` of its ready queue. */
  ghost predicate ReadyAt(s: State, t: TaskId, p: nat, k: nat) {
    Typed(s) && t in s.tasks && s.tasks[t].status == READY && s.tasks[t].priority == p && p <= LOWEST_PRIORITY &&
    t in s.ready[p] && IndexOf(s.ready[p], t) == k
  }

  /** `t` is still READY at its priority, and no further back than position `k`. */
  ghost predicate NotBehind(s: State, t: TaskId, p: nat, k: nat) {
    Typed(s) && t in s.tasks && s.tasks[t].status == READY && s.tasks[t].priority == p && p <= LOWEST_PRIORITY &&
    t in s.ready[p] && IndexOf(s.ready[p], t) <= k
  }

  lemma JoinKeepsPlace(s: State, x: TaskId, t: TaskId, p: nat, k: nat)
    requires NotBehind(s, t, p, k) && x in s.tasks && x != t
    ensures NotBehind(MakeReady(s, x), t, p, k)
  {
    AppendKeepsPlace(s.ready[p], x, t);
  }

  lemma LeaveKeepsPlace(s: State, x: TaskId, t: TaskId, p: nat, k: nat)
    requires NotBehind(s, t, p, k) && x in s.tasks && x != t
    ensures NotBehind(LeaveReady(s, x), t, p, k)
  {
    hide Delete;
    DeleteKeepsPlace(s.ready[p], x, t);
  }

  lemma UnlinkKeepsPlace(s: State, x: TaskId, t: TaskId, p: nat, k: nat)
    requires NotBehind(s, t, p, k) && x != t
    ensures NotBehind(Unlink(s, x), t, p, k)
  {
    hide Delete;
    DeleteKeepsPlace(s.ready[p], x, t);
  }

  lemma OtherKeepsPlace(s: State, s': State, t: TaskId, p: nat, k: nat)
    requires NotBehind(s, t, p, k) && Typed(s') && s'.ready == s.ready && t in s'.tasks
    requires s'.tasks[t].status == s.tasks[t].status && s'.tasks[t].priority == s.tasks[t].priority
    ensures NotBehind(s', t, p, k)
  {
  }

  /** A tick makes sleepers ready behind `t`, and leaves `t` alone unless its own alarm is due. */
  lemma {:induction false} FireDueKeepsPlace(s: State, t: TaskId, p: nat, k: nat)
    requires LoopInv(s) && !DueAlarmHits(s) && NotBehind(s, t, p, k) &&
             (t in s.alarms ==> s.tick < s.tasks[t].alarmTime)
    ensures NotBehind(FireDue(s), t, p, k)
    decreases |s.alarms|
  {
    hide Core, LoopInv, DueAlarmHits, FireOne, AlarmHitsReady, NotBehind;
    LoopTyped(s);
    if Due(s) && !s.faulted {
      FirstIsSafe(s);
      FireOneKeeps(s);
      HitsStay(s);
      FireOneTask(s);
      NotTheFirst(s, t, p, k);
      FireOneKeepsPlace(s, t, p, k);
      FireDueKeepsPlace(FireOne(s), t, p, k);
      assert FireDue(s) == FireDue(FireOne(s)) by { OneFired(s); }
    }
  }

  lemma NotTheFirst(s: State, t: TaskId, p: nat, k: nat)
    requires LoopInv(s) && Due(s) && NotBehind(s, t, p, k) && (t in s.alarms ==> s.tick < s.tasks[t].alarmTime)
    ensures t in s.tasks && t != s.alarms[0] && (t in s.alarms[1..] ==> s.tick < s.tasks[t].alarmTime)
  {
    assert s.alarms[0] in s.alarms;
  }

  lemma FireOneKeepsPlace(s: State, t: TaskId, p: nat, k: nat)
    requires LoopInv(s) && Due(s) && NotBehind(s, t, p, k) && t != s.alarms[0] && !AlarmHitsReady(s, s.alarms[0])
    ensures NotBehind(FireOne(s), t, p, k)
  {
    hide Core, NotBehind, Unlink, MakeReady;
    var x, s0 := s.alarms[0], s.(alarms := s.alarms[1..]);
    TailTyped(s);
    DueTask(s);
    StillNotBehind(s, s0, t, p, k);
    if s0.tasks[x].owner.Some? {
      UnlinkKeepsPlace(s0, x, t, p, k);
      var s1 := Unlink(s0, x);
      OwnerGone(s0, x, t, p, k);
      JoinKeepsPlace(With(s1, x, s1.tasks[x].(owner := None)), x, t, p, k);
    } else {
      JoinKeepsPlace(s0, x, t, p, k);
    }
  }

  lemma TailTyped(s: State)
    requires LoopInv(s) && s.alarms != []
    ensures Typed(s) && s.alarms[0] in s.tasks && Typed(s.(alarms := s.alarms[1..]))
  {
    assert s.alarms[0] in s.alarms;
  }

  lemma StillNotBehind(s: State, s0: State, t: TaskId, p: nat, k: nat)
    requires NotBehind(s, t, p, k) && Typed(s0) && s0.ready == s.ready && s0.tasks == s.tasks
    ensures NotBehind(s0, t, p, k)
  {
  }

  lemma OwnerGone(s: State, x: TaskId, t: TaskId, p: nat, k: nat)
    requires Typed(s) && x in s.tasks && x != t && NotBehind(Unlink(s, x), t, p, k)
    ensures x in Unlink(s, x).tasks && TypedTask(Unlink(s, x), Unlink(s, x).tasks[x].(owner := None))
    ensures NotBehind(With(Unlink(s, x), x, Unlink(s, x).tasks[x].(owner := None)), t, p, k)
  {
    hide Delete;
  }

  // ----- what a step does to the place of a ready task

  /** The step is about `t` itself: it suspends it, changes its priority, or fires its alarm. */
  ghost predicate Moves(s: State, a: Action, t: TaskId)
    requires Typed(s)
  {
    match a
    case DoSuspend(x) => x == t
    case DoChangePriority(x, _) => x == t
    case DoTick => t in s.alarms && s.tasks[t].alarmTime <= s.tick + 1
    case _ => false
  }

  lemma CreateKeepsPlace(s: State, x: TaskId, priority: nat, t: TaskId, p: nat, k: nat)
    requires NotBehind(s, t, p, k) && x !in s.tasks && priority <= LOWEST_PRIORITY
    ensures var s1 := s.(tasks := s.tasks[x := Task(SUSPENDED, priority, 0, 0, None, 0, User)]);
            Typed(s1) && NotBehind(MakeReady(s1, x), t, p, k)
  {
    var s1 := s.(tasks := s.tasks[x := Task(SUSPENDED, priority, 0, 0, None, 0, User)]);
    OtherKeepsPlace(s, s1, t, p, k);
    JoinKeepsPlace(s1, x, t, p, k);
  }

  lemma RepriceKeepsPlace(s: State, x: TaskId, priority: nat, t: TaskId, p: nat, k: nat)
    requires NotBehind(s, t, p, k) && x in s.tasks && x != t && priority <= LOWEST_PRIORITY
    ensures NotBehind(Repriced(s, x, priority), t, p, k)
  {
    hide Delete, MakeReady;
    if s.tasks[x].status == READY {
      LeaveKeepsPlace(s, x, t, p, k);
      var s1 := LeaveReady(s, x);
      OtherKeepsPlace(s1, With(s1, x, s1.tasks[x].(priority := priority)), t, p, k);
      JoinKeepsPlace(With(s1, x, s1.tasks[x].(priority := priority)), x, t, p, k);
    }
  }

  lemma SleepKeepsPlace(s: State, ticks: nat, t: TaskId, p: nat, k: nat)
    requires NotBehind(s, t, p, k) && s.current.Some? && s.current != Some(t) && FallsAsleep(s, ticks)
    ensures NotBehind(FallenAsleep(s, ticks), t, p, k)
  {
    hide SetAlarm, Add32;
    var c := s.current.value;
    if ticks == 0 && s.tasks[c].period != 0 {
      var next := Add32(s.tasks[c].wakeupTime, s.tasks[c].period);
      AlarmRuns(With(s, c, s.tasks[c].(wakeupTime := next)), c, next - s.tick);
    } else {
      AlarmRuns(s, c, ticks);
    }
  }

  lemma BlockKeepsPlace(s: State, s1: State, q: SemId, t: TaskId, p: nat, k: nat)
    requires NotBehind(s, t, p, k) && Typed(s1) && s1.current == s.current && s.current.Some? && s.current != Some(t) &&
             q in s1.sems
    requires s1.ready == s.ready && t in s1.tasks && s1.tasks[t] == s.tasks[t]
    ensures NotBehind(Enqueue(s1, q), t, p, k)
  {
    hide InsertOrdered, Priorities;
  }

  lemma EnterKeepsPlace(s: State, q: SemId, timeout: nat, t: TaskId, p: nat, k: nat)
    requires NotBehind(s, t, p, k) && s.current.Some? && s.current != Some(t) && q in s.sems
    ensures NotBehind(Enqueue(Enter(s, s.current.value, q, timeout), q), t, p, k)
  {
    hide SetAlarm, Enqueue;
    AlarmRuns(s, s.current.value, timeout);
    BlockKeepsPlace(s, Enter(s, s.current.value, q, timeout), q, t, p, k);
  }

  lemma WakeKeepsPlace(s: State, t: TaskId, p: nat, k: nat)
    requires Inv(s) && NotBehind(s, t, p, k) && s.current.Some? && s.current != Some(t) &&
             s.tasks[s.current.value].pc.Releasing?
    requires s.waiting[s.tasks[s.current.value].pc.sem] != []
    ensures NotBehind(WokenFirst(SetPc(s, s.current.value, User), s.tasks[s.current.value].pc.sem), t, p, k)
  {
    hide ReadyOk, WaitingOk, BitsOk, AlarmsOk, RunningOk, Undisturbed, Delete, MakeReady;
    var q := s.tasks[s.current.value].pc.sem;
    FirstWaiter(s, q);
    var s1 := SetPc(s, s.current.value, User);
    var w := s.waiting[q][0];
    var s2 := s1.(waiting := s1.waiting[q := Delete(s1.waiting[q], w)]);
    OtherKeepsPlace(s, s2, t, p, k);
    JoinKeepsPlace(s2, w, t, p, k);
  }

  lemma TickKeepsPlace(s: State, t: TaskId, p: nat, k: nat)
    requires Inv(s) && s.tick + 1 < WORD && !TickHits(s) && NotBehind(s, t, p, k) && !Moves(s, DoTick, t)
    ensures var s1 := s.(tick := Add32(s.tick, 1)); Typed(s1) && NotBehind(FireDue(s1), t, p, k)
  {
    hide ReadyOk, WaitingOk, BitsOk, AlarmsOk, RunningOk, Undisturbed, TickHits, FireDue, DueAlarmHits, LoopInv;
    NoWrap(s.tick, 1);
    TickStarts(s);
    var s1 := s.(tick := s.tick + 1);
    OtherKeepsPlace(s, s1, t, p, k);
    FireDueKeepsPlace(s1, t, p, k);
  }

  lemma NotRunning(s: State, t: TaskId)
    requires Inv(s) && t in s.tasks && s.tasks[t].status == READY
    ensures s.current != Some(t)
  {
  }

  /** Up to the call of the scheduler nobody gets in front of `t`. */
  lemma HandedKeepsPlace(s: State, a: Action, t: TaskId, p: nat, k: nat)
    requires Inv(s) && Enabled(s, a) && !(a.DoTick? && TickHits(s)) && NotBehind(s, t, p, k) && !Moves(s, a, t) &&
             Calls(s, a)
    ensures NotBehind(Handed(s, a), t, p, k)
  {
    hide ReadyOk, WaitingOk, BitsOk, AlarmsOk, RunningOk, Undisturbed, TickHits, NotBehind, FallsAsleep, FallenAsleep,
      WokenFirst, FireDue, MakeReady, Enter, Enqueue, Repriced;
    IsReady(s, t, p, k);
    NotRunning(s, t);
    match a
    case DoCreate(x, stackSize, priority) => CreateKeepsPlace(s, x, priority, t, p, k);
    case DoChangePriority(x, priority) => RepriceKeepsPlace(s, x, priority, t, p, k);
    case DoResume(x) => JoinKeepsPlace(s, x, t, p, k);
    case DoSleep(ticks) => SleepKeepsPlace(s, ticks, t, p, k);
    case DoAcquire(q, timeout) => EnterKeepsPlace(s, q, timeout, t, p, k);
    case DoRetry => BlockKeepsPlace(s, s, s.tasks[s.current.value].pc.sem, t, p, k);
    case DoWake => WakeKeepsPlace(s, t, p, k);
    case DoRestore(locked) => SameKeepsPlace(s, s.(locked := locked), t, p, k);
    case DoTick => TickKeepsPlace(s, t, p, k);
  }

  lemma IsReady(s: State, t: TaskId, p: nat, k: nat)
    requires NotBehind(s, t, p, k)
    ensures t in s.tasks && s.tasks[t].status == READY && s.tasks[t].priority == p && p <= LOWEST_PRIORITY
  {
  }

  lemma SameKeepsPlace(s: State, s': State, t: TaskId, p: nat, k: nat)
    requires NotBehind(s, t, p, k) && Typed(s') && s'.ready == s.ready && s'.tasks == s.tasks
    ensures NotBehind(s', t, p, k)
  {
  }

  lemma SamePlace(s: State, s': State, t: TaskId, p: nat, k: nat)
    requires NotBehind(s, t, p, k) && Typed(s') && s'.ready == s.ready && t in s'.tasks
    requires s'.tasks[t].status == READY && s'.tasks[t].priority == p
    ensures NotBehind(s', t, p, k)
  {
  }

  /** The ready queues and the place of `t` are as they were. */
  ghost predicate KeptThere(s: State, s': State, t: TaskId)
    requires t in s.tasks
  {
    s'.ready == s.ready && t in s'.tasks && s'.tasks[t].status == s.tasks[t].status &&
    s'.tasks[t].priority == s.tasks[t].priority
  }

  lemma QuietTask(s: State, a: Action, t: TaskId)
    requires Enabled(s, a) && !Calls(s, a) && t in s.tasks && (a.DoSuspend? ==> s.tasks[a.t].status != READY)
    requires a.DoCreate? || a.DoChangePriority? || a.DoSuspend? || a.DoResume? || a.DoSetPeriod? || a.DoLock?
    ensures KeptThere(s, Step(s, a), t)
  {
  }

  lemma QuietSleep(s: State, ticks: nat, t: TaskId)
    requires Typed(s) && s.current.Some? && !FallsAsleep(s, ticks) && t in s.tasks
    ensures KeptThere(s, Sleep(s, ticks), t)
  {
    hide Typed, Add32;
  }

  lemma QuietSync(s: State, a: Action, t: TaskId)
    requires Enabled(s, a) && !Calls(s, a) && t in s.tasks && s.current != Some(t)
    requires a.DoInitSemaphore? || a.DoAcquire? || a.DoRelease? || a.DoWake?
    ensures KeptThere(s, Step(s, a), t)
  {
    hide Int8;
  }

  lemma QuietRetry(s: State, t: TaskId)
    requires Typed(s) && s.current.Some? && s.tasks[s.current.value].pc.Acquiring? && !RetryOutcome(s).Blocked? &&
             t in s.tasks
    ensures KeptThere(s, Retry(s), t)
  {
    hide SetAlarm, Int8;
    AlarmRuns(s, s.current.value, 0);
  }

  /** Apart from suspending a READY task, such a call leaves the ready queues alone. */
  lemma QuietFrame(s: State, a: Action, t: TaskId)
    requires Enabled(s, a) && !Calls(s, a) && t in s.tasks && s.current != Some(t) && !a.DoTick? && !a.DoRestore?
    requires a.DoSuspend? ==> s.tasks[a.t].status != READY
    ensures KeptThere(s, Step(s, a), t)
  {
    hide Typed, Sleep, Retry, KeptThere, FallsAsleep;
    if a.DoSleep? {
      QuietSleep(s, a.ticks, t);
    } else if a.DoRetry? {
      QuietRetry(s, t);
    } else if a.DoInitSemaphore? || a.DoAcquire? || a.DoRelease? || a.DoWake? {
      hide Step;
      QuietSync(s, a, t);
    } else {
      hide Step;
      QuietTask(s, a, t);
    }
  }

  lemma SuspendKeepsPlace(s: State, x: TaskId, t: TaskId, p: nat, k: nat)
    requires NotBehind(s, t, p, k) && x in s.tasks && x != t && s.tasks[x].status == READY
    ensures NotBehind(Suspend(s, x), t, p, k)
  {
    hide LeaveReady;
    LeaveKeepsPlace(s, x, t, p, k);
  }

  /** A step that does not call the scheduler does not either. */
  lemma QuietKeepsPlace(s: State, a: Action, t: TaskId, p: nat, k: nat)
    requires Inv(s) && Enabled(s, a) && NotBehind(s, t, p, k) && !Moves(s, a, t) && !Calls(s, a)
    ensures NotBehind(Step(s, a), t, p, k)
  {
    hide Inv, NotBehind, Delete, SetAlarm, Add32;
    IsReady(s, t, p, k);
    NotRunning(s, t);
    if a.DoSuspend? && s.tasks[a.t].status == READY {
      SuspendKeepsPlace(s, a.t, t, p, k);
    } else {
      hide Step;
      QuietFrame(s, a, t);
      SamePlace(s, Step(s, a), t, p, k);
    }
  }

  // ----- the turns

  /** Somebody of higher priority than `p` runs. */
  ghost predicate Outranked(s: State, p: nat) {
    s.current.Some? && s.current.value in s.tasks && s.tasks[s.current.value].priority < p
  }

  lemma RequeueKeepsPlace(s: State, t: TaskId, p: nat, k: nat)
    requires NotBehind(s, t, p, k)
    ensures NotBehind(Requeue(s), t, p, k)
  {
    if s.current.Some? && s.tasks[s.current.value].status == RUNNING {
      JoinKeepsPlace(s, s.current.value, t, p, k);
    }
  }

  lemma DispatchAdvances(s: State, t: TaskId, p: nat, k: nat)
    requires NotBehind(s, t, p, k) && ReadyOk(s.tasks, s.ready, {}) && BitsOk(s.ready, s.bits)
    requires s.ready[Highest(s.bits)] != [] && !Outranked(Dispatch(s), p)
    ensures Dispatch(s).current == Some(t) || (k > 0 && NotBehind(Dispatch(s), t, p, k - 1))
  {
    var h := Highest(s.bits);
    var next := s.ready[h][0];
    assert next in s.ready[h] && s.tasks[next].priority == h;
    assert p in s.bits && h <= p;
    if next != t {
      hide Delete;
      assert IndexOf(s.ready[p], next) == 0 && s.ready[p][IndexOf(s.ready[p], t)] == t;
      DeleteKeepsPlace(s.ready[p], next, t);
    }
  }

  /** Every unlocked call of the scheduler brings `t` one place forward or makes it run. */
  lemma ScheduleAdvances(s: State, t: TaskId, p: nat, k: nat)
    requires Core(s, s.tick + 1) && !s.locked && NotBehind(s, t, p, k) && !Outranked(Schedule(s), p)
    ensures Schedule(s).current == Some(t) || (k > 0 && NotBehind(Schedule(s), t, p, k - 1))
  {
    hide WaitingOk, AlarmsOk, Dispatch, NotBehind;
    RequeuePlaced(s);
    RequeueRunning(s);
    RequeueKeepsPlace(s, t, p, k);
    DispatchFinds(Requeue(s));
    DispatchAdvances(Requeue(s), t, p, k);
  }

  /** The step calls the scheduler with the scheduler unlocked. */
  ghost predicate GivesTurn(s: State, a: Action) {
    Enabled(s, a) && Calls(s, a) && !Handed(s, a).locked
  }

  lemma StepAdvances(s: State, a: Action, t: TaskId, p: nat, k: nat)
    requires Inv(s) && Enabled(s, a) && !(a.DoTick? && TickHits(s)) && NotBehind(s, t, p, k) && !Moves(s, a, t)
    requires !Outranked(Step(s, a), p)
    ensures if GivesTurn(s, a) then Step(s, a).current == Some(t) || (k > 0 && NotBehind(Step(s, a), t, p, k - 1))
            else NotBehind(Step(s, a), t, p, k)
  {
    hide Inv, TickHits, NotBehind, Moves, Calls, Handed, Step, Outranked, Dispatch;
    if Calls(s, a) {
      HandedPrepared(s, a);
      HandedKeepsPlace(s, a, t, p, k);
      var s1 := Handed(s, a);
      if s1.locked {
        assert Schedule(s1) == s1;
      } else {
        ScheduleAdvances(s1, t, p, k);
      }
    } else {
      QuietKeepsPlace(s, a, t, p, k);
    }
  }

  /** The unlocked calls of the scheduler in the steps from `i` to before `n`. */
  ghost function Turns(run: seq<State>, acts: seq<Action>, i: nat, n: nat): nat
    requires i <= n <= |acts| < |run|
  {
    if i == n then 0 else Turns(run, acts, i, n - 1) + if GivesTurn(run[n - 1], acts[n - 1]) then 1 else 0
  }

  /** In any run, while `t` stays READY, nothing moves it and nobody who outranks it runs, every turn
      brings it one place forward. */
  lemma {:induction false} TurnsBringForward(run: seq<State>, acts: seq<Action>, t: TaskId, p: nat, k: nat, i: nat,
                                             n: nat)
    requires IsRun(run, acts) && i <= n < |run| && ReadyAt(run[i], t, p, k)
    requires forall j :: 0 <= j < n ==> !(acts[j].DoTick? && TickHits(run[j]))
    requires forall j :: i <= j < n ==> Typed(run[j]) && !Moves(run[j], acts[j], t)
    requires forall j :: i < j <= n ==> !Outranked(run[j], p) && run[j].current != Some(t)
    ensures Turns(run, acts, i, n) <= k && NotBehind(run[n], t, p, k - Turns(run, acts, i, n))
    decreases n
  {
    hide Inv, TickHits, Step, NotBehind, Moves, Outranked, GivesTurn, Enabled, ReadyAt, Typed;
    if i == n {
      AtIsNotBehind(run[n], t, p, k);
    } else {
      TurnsBringForward(run, acts, t, p, k, i, n - 1);
      RunKeeps(run, acts, n - 1);
      assert Follows(run[n - 1], acts[n - 1], run[n]);
      StepAdvances(run[n - 1], acts[n - 1], t, p, k - Turns(run, acts, i, n - 1));
    }
  }

  lemma AtIsNotBehind(s: State, t: TaskId, p: nat, k: nat)
    requires ReadyAt(s, t, p, k)
    ensures NotBehind(s, t, p, k)
  {
  }

  /** So a task at position `k` of its ready queue runs within `k + 1` turns. */
  lemma RunsWithinItsPlace(run: seq<State>, acts: seq<Action>, t: TaskId, p: nat, k: nat, i: nat, n: nat)
    requires IsRun(run, acts) && i <= n < |run| && ReadyAt(run[i], t, p, k)
    requires forall j :: 0 <= j < n ==> !(acts[j].DoTick? && TickHits(run[j]))
    requires forall j :: i <= j < n ==> Typed(run[j]) && !Moves(run[j], acts[j], t)
    requires forall j :: i < j <= n ==> !Outranked(run[j], p)
    requires Turns(run, acts, i, n) > k
    ensures exists j :: i < j <= n && run[j].current == Some(t)
  {
    hide Turns, ReadyAt, TickHits, Moves, Outranked, IsRun;
    if forall j :: i < j <= n ==> run[j].current != Some(t) {
      TurnsBringForward(run, acts, t, p, k, i, n);
    }
  }
}
