/** Who is woken first: wait queues stay in order, by arrival or by priority and arrival. */
module KernelWakeOrder {
  import opened Queues
  import opened ReadyBitmap
  import opened KernelState
  import opened KernelInvariant
  import opened KernelSteps
  import opened KernelRuns

  // ----- what a step does to a wait queue

  /** No semaphore changes its type, new ones have nobody waiting, and no task but `except` changes
      its priority. */
  ghost predicate KeepsRank(s: State, s': State, except: Option<TaskId>) {
    (forall t :: t in s.tasks ==> t in s'.tasks &&
                                  (except == Some(t) || s'.tasks[t].priority == s.tasks[t].priority)) &&
    (forall q :: q in s.sems ==> q in s'.sems && s'.sems[q].byPriority == s.sems[q].byPriority) &&
    (forall q :: q in s'.sems && q !in s.sems ==> q in s'.waiting && s'.waiting[q] == [])
  }

  lemma RankThenSchedule(s: State, s1: State, except: Option<TaskId>)
    requires Typed(s1) && KeepsRank(s, s1, except)
    ensures KeepsRank(s, Schedule(s1), except) && Schedule(s1).waiting == s1.waiting
  {
    hide Schedule, Typed;
    ScheduleOnlyWakes(s1);
    ScheduleFrame(s1);
  }

  lemma FallAsleepRank(s: State, s1: State, t: TaskId, timeout: nat)
    requires Typed(s1) && t in s1.tasks && KeepsRank(s, s1, None)
    ensures var s' := Schedule(SetStatus(SetAlarm(s1, t, timeout), t, WAITING));
            KeepsRank(s, s', None) && s'.waiting == s1.waiting
  {
    hide Schedule, SetAlarm;
    AlarmRuns(s1, t, timeout);
    RankThenSchedule(s, SetStatus(SetAlarm(s1, t, timeout), t, WAITING), None);
  }

  lemma WakeupTimeRank(s: State, t: TaskId, next: nat)
    requires Typed(s) && t in s.tasks
    ensures TypedTask(s, s.tasks[t].(wakeupTime := next)) &&
            KeepsRank(s, With(s, t, s.tasks[t].(wakeupTime := next)), None)
  {
  }

  lemma SleepRank(s: State, ticks: nat)
    requires Typed(s) && s.current.Some?
    ensures KeepsRank(s, Sleep(s, ticks), None) && Sleep(s, ticks).waiting == s.waiting
  {
    hide Schedule, SetAlarm, SetStatus, Add32, KeepsRank;
    var t := s.current.value;
    RankOfSame(s, s);
    if !s.locked {
      if ticks == 0 && s.tasks[t].period != 0 {
        var next := Add32(s.tasks[t].wakeupTime, s.tasks[t].period);
        WakeupTimeRank(s, t, next);
        var s1 := With(s, t, s.tasks[t].(wakeupTime := next));
        if next > s.tick {
          FallAsleepRank(s, s1, t, next - s.tick);
        }
      } else {
        FallAsleepRank(s, s, t, ticks);
      }
    }
  }

  lemma CreateRank(s: State, t: TaskId, stackSize: nat, priority: nat)
    requires Typed(s) && t !in s.tasks
    ensures KeepsRank(s, Create(s, t, stackSize, priority), None) &&
            Create(s, t, stackSize, priority).waiting == s.waiting
  {
    hide Schedule;
    if priority <= LOWEST_PRIORITY && stackSize >= MIN_STACK_SIZE {
      var s1 := s.(tasks := s.tasks[t := Task(SUSPENDED, priority, 0, 0, None, 0, User)]);
      assert Typed(s1);
      RankThenSchedule(s, MakeReady(s1, t), None);
    }
  }

  lemma RequeuedRank(s: State, t: TaskId, priority: nat)
    requires Typed(s) && t in s.tasks && priority <= LOWEST_PRIORITY
    ensures var s0 := LeaveReady(s, t);
            var s1 := MakeReady(With(s0, t, s0.tasks[t].(priority := priority)), t);
            KeepsRank(s, s1, Some(t)) && s1.waiting == s.waiting && s1.tasks[t].priority == priority
  {
    hide Delete;
  }

  lemma ChangePriorityRank(s: State, t: TaskId, priority: nat)
    requires Typed(s) && t in s.tasks
    ensures var s' := ChangePriority(s, t, priority);
            KeepsRank(s, s', Some(t)) && s'.waiting == s.waiting &&
            s'.tasks[t].priority == if priority <= LOWEST_PRIORITY then priority else s.tasks[t].priority
  {
    hide Schedule, Delete, MakeReady;
    if priority <= LOWEST_PRIORITY {
      RequeuedRank(s, t, priority);
      var s1 := if s.tasks[t].status == READY
                then (var s0 := LeaveReady(s, t); MakeReady(With(s0, t, s0.tasks[t].(priority := priority)), t))
                else With(s, t, s.tasks[t].(priority := priority));
      RankThenSchedule(s, s1, Some(t));
      ScheduleOnlyWakes(s1);
    }
  }

  lemma ResumeRank(s: State, t: TaskId)
    requires Typed(s) && t in s.tasks
    ensures KeepsRank(s, Resume(s, t), None) && Resume(s, t).waiting == s.waiting
  {
    hide Schedule;
    if s.tasks[t].status == SUSPENDED {
      RankThenSchedule(s, MakeReady(s, t), None);
    }
  }

  lemma SuspendRank(s: State, t: TaskId)
    requires Typed(s) && t in s.tasks
    ensures KeepsRank(s, Suspend(s, t), None) && Suspend(s, t).waiting == s.waiting
  {
    hide Delete;
  }

  /** Firing the due alarms takes their tasks off the wait queues. */
  lemma {:induction false} FireDueThins(s: State, q: SemId)
    requires LoopInv(s) && !DueAlarmHits(s) && q in s.waiting
    ensures q in FireDue(s).waiting && Thinned(s.waiting[q], FireDue(s).waiting[q])
    decreases |s.alarms|
  {
    hide Core, LoopInv, DueAlarmHits, Thinned, FireOne, AlarmHitsReady;
    QueueDistinct(s, q);
    if !Due(s) || s.faulted {
      ThinnedSelf(s.waiting[q]);
    } else {
      FirstIsSafe(s);
      FireOneKeeps(s);
      HitsStay(s);
      FireOneTask(s);
      FireOneThins(s, q);
      FireDueThins(FireOne(s), q);
      ThinnedTwice(s.waiting[q], FireOne(s).waiting[q], FireDue(FireOne(s)).waiting[q]);
      assert FireDue(s) == FireDue(FireOne(s)) by { OneFired(s); }
    }
  }

  lemma QueueDistinct(s: State, q: SemId)
    requires LoopInv(s) && q in s.waiting
    ensures Typed(s) && Distinct(s.waiting[q])
  {
  }

  lemma FireOneThins(s: State, q: SemId)
    requires LoopInv(s) && Due(s) && !AlarmHitsReady(s, s.alarms[0]) && q in s.waiting
    ensures q in FireOne(s).waiting && Thinned(s.waiting[q], FireOne(s).waiting[q])
  {
    hide Thinned, ReadyOk, BitsOk, AlarmsOk, RunningOk, Delete;
    DeleteThins(s.waiting[q], s.alarms[0]);
    ThinnedSelf(s.waiting[q]);
  }

  lemma TickRank(s: State)
    requires Inv(s) && s.tick + 1 < WORD && !TickHits(s)
    ensures KeepsRank(s, Tick(s), None)
  {
    hide Inv, LoopInv, DueAlarmHits, TickHits, FireDue, Schedule;
    NoWrap(s.tick, 1);
    TickStarts(s);
    var s1 := s.(tick := s.tick + 1);
    LoopTyped(s1);
    FireDueFrame(s1);
    forall t | t in s.tasks
      ensures t in FireDue(s1).tasks && FireDue(s1).tasks[t].priority == s.tasks[t].priority
    {
      FireDueEffect(s1, t);
    }
    RankThenSchedule(s, FireDue(s1), None);
  }

  lemma TickThins(s: State, q: SemId)
    requires Inv(s) && s.tick + 1 < WORD && !TickHits(s) && q in s.sems
    ensures q in Tick(s).waiting && Thinned(s.waiting[q], Tick(s).waiting[q])
  {
    hide Inv, LoopInv, DueAlarmHits, TickHits, Thinned, FireDue, Schedule;
    NoWrap(s.tick, 1);
    TickStarts(s);
    var s1 := s.(tick := s.tick + 1);
    QueueDistinctNow(s, q);
    LoopTyped(s1);
    FireDueThins(s1, q);
    ScheduleFrame(FireDue(s1));
  }

  /** The step makes the current task join the wait queue `q`. */
  ghost predicate Joins(s: State, a: Action, q: SemId)
    requires Enabled(s, a)
  {
    (a.DoAcquire? && a.q == q && AcquireOutcome(s, q, a.timeout).Blocked?) ||
    (a.DoRetry? && s.tasks[s.current.value].pc.sem == q && RetryOutcome(s).Blocked?)
  }

  ghost function Rerated(a: Action): Option<TaskId> {
    if a.DoChangePriority? then Some(a.t) else None
  }

  lemma EnqueueRank(s: State, s1: State, q: SemId, p: SemId)
    requires Typed(s) && Typed(s1) && s1.current == s.current && s.current.Some? && q in s.sems && p in s.sems &&
             KeepsRank(s, s1, None)
    requires s1.waiting == s.waiting && s1.sems == s.sems && Priorities(s1.tasks) == Priorities(s.tasks)
    ensures var s' := Schedule(Enqueue(s1, p));
            KeepsRank(s, s', None) && q in s'.waiting &&
            s'.waiting[q] == if q != p then s.waiting[q]
                             else if s.sems[q].byPriority then InsertOrdered(s.waiting[q], s.current.value,
                                                                             Priorities(s.tasks))
                             else s.waiting[q] + [s.current.value]
  {
    hide Schedule, InsertOrdered, Priorities;
    RankThenSchedule(s, Enqueue(s1, p), None);
  }

  lemma EnterRank(s: State, q: SemId, timeout: nat)
    requires Typed(s) && s.current.Some? && q in s.sems
    ensures var s1 := Enter(s, s.current.value, q, timeout);
            s1.current == s.current && KeepsRank(s, s1, None) && s1.waiting == s.waiting && s1.sems == s.sems &&
            Priorities(s1.tasks) == Priorities(s.tasks)
  {
    hide SetAlarm;
    AlarmRuns(s, s.current.value, timeout);
  }

  lemma SetPeriodRank(s: State, t: TaskId, period: nat)
    requires Typed(s) && t in s.tasks
    ensures KeepsRank(s, SetPeriod(s, t, period), None) && SetPeriod(s, t, period).waiting == s.waiting
  {
  }

  lemma InitRank(s: State, p: SemId, count: int, byPriority: bool)
    requires Typed(s) && p !in s.sems
    ensures var s' := InitSemaphore(s, p, count, byPriority);
            KeepsRank(s, s', None) && forall q :: q in s.waiting ==> q in s'.waiting && s'.waiting[q] == s.waiting[q]
  {
  }

  lemma ReleaseRank(s: State, p: SemId)
    requires Typed(s) && s.current.Some? && p in s.sems
    ensures KeepsRank(s, Release(s, p), None) && Release(s, p).waiting == s.waiting
  {
  }

  lemma RestoreRank(s: State, locked: bool)
    requires Typed(s)
    ensures KeepsRank(s, Restore(s, locked), None) && Restore(s, locked).waiting == s.waiting
  {
    hide Schedule;
    RankThenSchedule(s, s.(locked := locked), None);
  }

  /** The current task has joined `q` by its type. */
  ghost predicate Joined(s: State, s': State, q: SemId)
    requires Typed(s)
  {
    s.current.Some? && q in s.sems && q in s'.waiting &&
    s'.waiting[q] == if s.sems[q].byPriority then InsertOrdered(s.waiting[q], s.current.value, Priorities(s.tasks))
                     else s.waiting[q] + [s.current.value]
  }

  lemma AcquireRank(s: State, p: SemId, timeout: int, q: SemId)
    requires Typed(s) && s.current.Some? && p in s.sems && q in s.sems
    ensures KeepsRank(s, Acquire(s, p, timeout), None) && q in Acquire(s, p, timeout).waiting
    ensures if p == q && AcquireOutcome(s, p, timeout).Blocked? then Joined(s, Acquire(s, p, timeout), q)
            else Acquire(s, p, timeout).waiting[q] == s.waiting[q]
  {
    hide Schedule, Enqueue, Enter, InsertOrdered, Priorities;
    if AcquireOutcome(s, p, timeout).Blocked? {
      EnterRank(s, p, timeout);
      EnqueueRank(s, Enter(s, s.current.value, p, timeout), q, p);
    }
  }

  lemma LeftRank(s: State, t: TaskId, q: SemId)
    requires Typed(s) && t in s.tasks && q in s.sems
    ensures var s' := Take(SetPc(SetAlarm(s, t, 0), t, User), q); KeepsRank(s, s', None) && s'.waiting == s.waiting
  {
    hide Delete;
  }

  lemma PcRank(s: State, t: TaskId)
    requires Typed(s) && t in s.tasks
    ensures KeepsRank(s, SetPc(s, t, User), None)
  {
  }

  lemma RetryRank(s: State, q: SemId)
    requires Typed(s) && s.current.Some? && s.tasks[s.current.value].pc.Acquiring? && q in s.sems
    ensures KeepsRank(s, Retry(s), None) && q in Retry(s).waiting
    ensures if s.tasks[s.current.value].pc.sem == q && RetryOutcome(s).Blocked? then Joined(s, Retry(s), q)
            else Retry(s).waiting[q] == s.waiting[q]
  {
    hide Schedule, Enqueue, SetAlarm, Take, InsertOrdered, Priorities, KeepsRank;
    RankOfSame(s, s);
    PcRank(s, s.current.value);
    if RetryOutcome(s).Blocked? {
      EnqueueRank(s, s, q, s.tasks[s.current.value].pc.sem);
    } else {
      LeftRank(s, s.current.value, s.tasks[s.current.value].pc.sem);
    }
  }

  lemma WakeQueueRank(s: State, p: SemId)
    requires Typed(s) && p in s.sems && s.waiting[p] != [] && Distinct(s.waiting[p])
    ensures KeepsRank(s, WakeFromQueue(s, p), None) && WakeFromQueue(s, p).waiting == s.waiting[p := s.waiting[p][1..]]
  {
    hide Schedule, Delete;
    var t := s.waiting[p][0];
    DeleteAt(s.waiting[p], 0);
    assert Delete(s.waiting[p], t) == s.waiting[p][1..];
    RankThenSchedule(s, MakeReady(s.(waiting := s.waiting[p := Delete(s.waiting[p], t)]), t), None);
  }

  lemma SetPcRank(s: State, s': State, t: TaskId)
    requires Typed(s) && t in s.tasks && KeepsRank(SetPc(s, t, User), s', None)
    ensures KeepsRank(s, s', None)
  {
  }

  /** The rest of a release takes the first waiter off its queue, and no other. */
  lemma WakeRank(s: State, q: SemId)
    requires Inv(s) && s.current.Some? && s.tasks[s.current.value].pc.Releasing? && q in s.sems
    ensures KeepsRank(s, Wake(s), None) && q in Wake(s).waiting
    ensures Wake(s).waiting[q] == if q != s.tasks[s.current.value].pc.sem || s.waiting[q] == [] then s.waiting[q]
                                  else s.waiting[q][1..]
  {
    hide Schedule, WaitingOk, ReadyOk, BitsOk, AlarmsOk, RunningOk, Undisturbed;
    var p := s.tasks[s.current.value].pc.sem;
    QueueDistinctNow(s, p);
    var s1 := SetPc(s, s.current.value, User);
    if s.waiting[p] != [] {
      WakeQueueRank(s1, p);
    }
    SetPcRank(s, Wake(s), s.current.value);
  }

  lemma WakeThins(s: State, q: SemId)
    requires Inv(s) && s.current.Some? && s.tasks[s.current.value].pc.Releasing? && q in s.sems
    ensures q in Wake(s).waiting && Thinned(s.waiting[q], Wake(s).waiting[q])
  {
    hide Thinned, Wake, Inv;
    QueueDistinctNow(s, q);
    WakeRank(s, q);
    if s.waiting[q] == [] {
      ThinnedSelf(s.waiting[q]);
    } else {
      ThinnedSelf(s.waiting[q]);
      DeleteAt(s.waiting[q], 0);
      assert Delete(s.waiting[q], s.waiting[q][0]) == s.waiting[q][1..];
      DeleteThins(s.waiting[q], s.waiting[q][0]);
    }
  }

  lemma NotYetThere(s: State, a: Action, q: SemId)
    requires Inv(s) && Enabled(s, a) && q in s.sems && Joins(s, a, q)
    ensures s.current.Some? && s.current.value !in s.waiting[q]
  {
    hide ReadyOk, BitsOk, AlarmsOk, AcquireOutcome, RetryOutcome, TickHits;
  }

  /** A step makes the current task join the queue by its type, or leaves the tasks in it in the
      order they had. */
  lemma QueueMoves(s: State, a: Action, q: SemId)
    requires Inv(s) && Enabled(s, a) && !(a.DoTick? && TickHits(s)) && q in s.sems
    ensures KeepsRank(s, Step(s, a), Rerated(a)) && q in Step(s, a).waiting
    ensures if Joins(s, a, q)
            then s.current.value !in s.waiting[q] &&
                 Step(s, a).waiting[q] == if s.sems[q].byPriority
                                          then InsertOrdered(s.waiting[q], s.current.value, Priorities(s.tasks))
                                          else s.waiting[q] + [s.current.value]
            else Thinned(s.waiting[q], Step(s, a).waiting[q])
  {
    hide ReadyOk, WaitingOk, BitsOk, AlarmsOk, RunningOk, Undisturbed, TickHits, Sleep, Tick, Create, ChangePriority,
         Suspend, Resume,
      SetPeriod, InitSemaphore, Release, Thinned, InsertOrdered, Priorities, KeepsRank, Retry, Acquire, Wake, Restore;
    StepRank(s, a);
    QueueDistinctNow(s, q);
    ThinnedSelf(s.waiting[q]);
    if Joins(s, a, q) {
      NotYetThere(s, a, q);
    }
    match a
    case DoCreate(t, stackSize, priority) => CreateRank(s, t, stackSize, priority);
    case DoChangePriority(t, priority) => ChangePriorityRank(s, t, priority);
    case DoSuspend(t) => SuspendRank(s, t);
    case DoResume(t) => ResumeRank(s, t);
    case DoSetPeriod(t, period) => SetPeriodRank(s, t, period);
    case DoSleep(ticks) => SleepRank(s, ticks);
    case DoInitSemaphore(p, count, byPriority) => InitRank(s, p, count, byPriority);
    case DoAcquire(p, timeout) => AcquireRank(s, p, timeout, q);
    case DoRetry => RetryRank(s, q);
    case DoRelease(p) => ReleaseRank(s, p);
    case DoWake => WakeThins(s, q);
    case DoLock =>
    case DoRestore(locked) => RestoreRank(s, locked);
    case DoTick => TickThins(s, q);
  }

  lemma StepRank(s: State, a: Action)
    requires Inv(s) && Enabled(s, a) && !(a.DoTick? && TickHits(s))
    ensures KeepsRank(s, Step(s, a), Rerated(a))
  {
    hide ReadyOk, WaitingOk, BitsOk, AlarmsOk, RunningOk, Undisturbed, TickHits, Sleep, Tick, Create, ChangePriority,
         Suspend, Resume,
      SetPeriod, InitSemaphore, Release, KeepsRank, Retry, Acquire, Wake, Restore;
    match a
    case DoCreate(t, stackSize, priority) => CreateRank(s, t, stackSize, priority);
    case DoChangePriority(t, priority) => ChangePriorityRank(s, t, priority);
    case DoSuspend(t) => SuspendRank(s, t);
    case DoResume(t) => ResumeRank(s, t);
    case DoSetPeriod(t, period) => SetPeriodRank(s, t, period);
    case DoSleep(ticks) => SleepRank(s, ticks);
    case DoInitSemaphore(p, count, byPriority) => InitRank(s, p, count, byPriority);
    case DoAcquire(p, timeout) => AcquireRank(s, p, timeout, p);
    case DoRetry => RetryRank(s, s.tasks[s.current.value].pc.sem);
    case DoRelease(p) => ReleaseRank(s, p);
    case DoWake => WakeRank(s, s.tasks[s.current.value].pc.sem);
    case DoLock => RankOfSame(s, Lock(s));
    case DoRestore(locked) => RestoreRank(s, locked);
    case DoTick => TickRank(s);
  }

  lemma QueueDistinctNow(s: State, q: SemId)
    requires Inv(s) && q in s.sems
    ensures q in s.waiting && Distinct(s.waiting[q])
  {
  }

  lemma RankOfSame(s: State, s': State)
    requires s'.tasks == s.tasks && s'.sems == s.sems
    ensures KeepsRank(s, s', None)
  {
  }

  // ----- sorted priority queues

  /** Every wait queue ordered by priority is in that order. */
  ghost predicate WaitSorted(s: State)
    requires Typed(s)
  {
    forall q :: q in s.sems && s.sems[q].byPriority ==> Sorted(s.waiting[q], Priorities(s.tasks))
  }

  /** With the new priority the task at position `i` no longer fits between its neighbours. */
  ghost predicate OutOfPlace(queue: seq<TaskId>, key: map<TaskId, nat>, i: nat, priority: nat)
    requires i < |queue| && forall x :: x in queue ==> x in key
  {
    (0 < i && key[queue[i - 1]] > priority) || (i + 1 < |queue| && priority > key[queue[i + 1]])
  }

  /** The call gives a task that waits by priority a priority its place in the queue does not fit. */
  ghost predicate Misplaces(s: State, a: Action)
    requires Inv(s)
  {
    a.DoChangePriority? && a.priority <= LOWEST_PRIORITY && a.t in s.tasks &&
    exists q :: q in s.sems && s.sems[q].byPriority && a.t in s.waiting[q] &&
                OutOfPlace(s.waiting[q], Priorities(s.tasks), IndexOf(s.waiting[q], a.t), a.priority)
  }

  lemma SortedAfterChange(queue: seq<TaskId>, key: map<TaskId, nat>, key': map<TaskId, nat>, t: TaskId)
    requires Distinct(queue) && Sorted(queue, key) && t in queue && t in key'
    requires forall x :: x in queue ==> x in key' && (x != t ==> key'[x] == key[x])
    ensures Sorted(queue, key') <==> !OutOfPlace(queue, key, IndexOf(queue, t), key'[t])
  {
    var i := IndexOf(queue, t);
    assert forall j :: 0 <= j < |queue| && j != i ==> queue[j] != t;
    if OutOfPlace(queue, key, i, key'[t]) {
      var j := if 0 < i && key[queue[i - 1]] > key'[t] then i - 1 else i;
      assert key'[queue[j]] > key'[queue[j + 1]];
    } else {
      StillInPlace(queue, key, key', t, i);
    }
  }

  lemma StillInPlace(queue: seq<TaskId>, key: map<TaskId, nat>, key': map<TaskId, nat>, t: TaskId, i: nat)
    requires Sorted(queue, key) && i < |queue| && queue[i] == t
    requires forall j :: 0 <= j < |queue| && j != i ==> queue[j] != t
    requires forall x :: x in queue ==> x in key' && (x != t ==> key'[x] == key[x])
    requires !OutOfPlace(queue, key, i, key'[t])
    ensures Sorted(queue, key')
  {
    forall a, b | 0 <= a < b < |queue|
      ensures key'[queue[a]] <= key'[queue[b]]
    {
      if b == i {
        assert key[queue[a]] <= key[queue[i - 1]];
      } else if a == i {
        assert key[queue[i + 1]] <= key[queue[b]];
      } else {
        assert key[queue[a]] <= key[queue[b]];
      }
    }
  }

  lemma ThinnedSorted(a: seq<TaskId>, b: seq<TaskId>, key: map<TaskId, nat>)
    requires Sorted(a, key) && Thinned(a, b)
    ensures Sorted(b, key)
  {
    forall i, j | 0 <= i < j < |b|
      ensures key[b[i]] <= key[b[j]]
    {
      var k, m := IndexOf(a, b[i]), IndexOf(a, b[j]);
      assert a[k] == b[i] && a[m] == b[j];
    }
  }

  lemma WaitersAreTasks(s: State, q: SemId)
    requires Typed(s) && q in s.waiting
    ensures forall x :: x in s.waiting[q] ==> x in Priorities(s.tasks)
  {
  }

  /** In one queue: any step but a priority change keeps the order. */
  lemma QueueStaysSorted(s: State, a: Action, q: SemId)
    requires Inv(s) && Enabled(s, a) && !(a.DoTick? && TickHits(s)) && q in s.sems && !a.DoChangePriority?
    requires s.sems[q].byPriority ==> Sorted(s.waiting[q], Priorities(s.tasks))
    ensures var s' := Step(s, a);
            q in s'.sems && q in s'.waiting && s'.sems[q].byPriority == s.sems[q].byPriority &&
            (s'.sems[q].byPriority ==> Sorted(s'.waiting[q], Priorities(s'.tasks)))
  {
    hide Inv, Step, TickHits, Sorted, Thinned, Joins, InsertOrdered;
    var s' := Step(s, a);
    QueueMoves(s, a, q);
    QueueDistinctNow(s, q);
    WaitersAreTasks(s, q);
    WaitersAreTasks(s', q);
    if s.sems[q].byPriority {
      if Joins(s, a, q) {
        JoinerIsTask(s, a, q);
        InsertOrderedStable(s.waiting[q], s.current.value, Priorities(s.tasks));
      } else {
        ThinnedSorted(s.waiting[q], s'.waiting[q], Priorities(s.tasks));
      }
      SameRates(s, s', q);
    }
  }

  lemma JoinerIsTask(s: State, a: Action, q: SemId)
    requires Inv(s) && Enabled(s, a) && Joins(s, a, q)
    ensures s.current.Some? && s.current.value in Priorities(s.tasks)
  {
  }

  lemma SameRates(s: State, s': State, q: SemId)
    requires Typed(s') && q in s'.waiting && KeepsRank(s, s', None) && Sorted(s'.waiting[q], Priorities(s.tasks))
    ensures Sorted(s'.waiting[q], Priorities(s'.tasks))
  {
    SortedBySame(s'.waiting[q], Priorities(s.tasks), Priorities(s'.tasks));
  }

  /** A priority change keeps the queues sorted if and only if it misplaces nobody. */
  lemma ChangeSorted(s: State, t: TaskId, priority: nat)
    requires Typed(s) && Inv(s) && WaitSorted(s) && t in s.tasks
    ensures WaitSorted(ChangePriority(s, t, priority)) <==> !Misplaces(s, DoChangePriority(t, priority))
  {
    hide Inv, Sorted, ChangePriority, OutOfPlace;
    var s' := ChangePriority(s, t, priority);
    ChangePriorityRank(s, t, priority);
    NothingIsSorted(Priorities(s'.tasks));
    forall q | q in s.sems && s.sems[q].byPriority
      ensures Sorted(s'.waiting[q], Priorities(s'.tasks)) <==>
        !(priority <= LOWEST_PRIORITY && t in s.waiting[q] &&
          OutOfPlace(s.waiting[q], Priorities(s.tasks), IndexOf(s.waiting[q], t), priority))
    {
      QueueDistinctNow(s, q);
      WaitersAreTasks(s, q);
      if t in s.waiting[q] && priority <= LOWEST_PRIORITY {
        SortedAfterChange(s.waiting[q], Priorities(s.tasks), Priorities(s'.tasks), t);
      } else {
        SortedBySame(s.waiting[q], Priorities(s.tasks), Priorities(s'.tasks));
      }
    }
  }

  /** Every step keeps all priority queues sorted, except a change that misplaces a waiting task. */
  lemma StepSorted(s: State, a: Action)
    requires Inv(s) && WaitSorted(s) && Enabled(s, a) && !(a.DoTick? && TickHits(s))
    ensures WaitSorted(Step(s, a)) <==> !Misplaces(s, a)
  {
    hide Inv, TickHits, Sorted, ChangePriority;
    if a.DoChangePriority? {
      ChangeSorted(s, a.t, a.priority);
    } else {
      hide Step;
      forall q | q in Step(s, a).sems && Step(s, a).sems[q].byPriority
        ensures Sorted(Step(s, a).waiting[q], Priorities(Step(s, a).tasks))
      {
        if q in s.sems {
          QueueStaysSorted(s, a, q);
        } else {
          NewSemaphores(s, a, q);
          NothingIsSorted(Priorities(Step(s, a).tasks));
        }
      }
    }
  }

  lemma NewSemaphores(s: State, a: Action, q: SemId)
    requires Inv(s) && Enabled(s, a) && !(a.DoTick? && TickHits(s)) && q in Step(s, a).sems && q !in s.sems
    ensures q in Step(s, a).waiting && Step(s, a).waiting[q] == []
  {
    hide Inv, TickHits, Step;
    StepRank(s, a);
  }

  lemma NothingIsSorted(key: map<TaskId, nat>)
    ensures Sorted([], key)
  {
  }

  // ----- the order of arrival

  /** When `t` joined the wait queue `q` it is on in `run[n]`: the last moment it was not there. */
  ghost function Arrival(run: seq<State>, q: SemId, t: TaskId, n: nat): (k: nat)
    requires n < |run|
    ensures k <= n
  {
    if n == 0 || q !in run[n].waiting || t !in run[n].waiting[q] then n else Arrival(run, q, t, n - 1)
  }

  /** `x` has to be woken before `y`: it came earlier, or on a queue by priority it outranks `y` or
      is its equal and came earlier. */
  ghost predicate Ahead(key: map<TaskId, nat>, arrival: map<TaskId, nat>, byPriority: bool, x: TaskId, y: TaskId)
    requires x in key && y in key && x in arrival && y in arrival
  {
    if byPriority then key[x] < key[y] || (key[x] == key[y] && arrival[x] < arrival[y])
    else arrival[x] < arrival[y]
  }

  ghost predicate InOrder(queue: seq<TaskId>, key: map<TaskId, nat>, arrival: map<TaskId, nat>, byPriority: bool) {
    (forall x :: x in queue ==> x in key && x in arrival) &&
    forall i, j :: 0 <= i < j < |queue| ==> Ahead(key, arrival, byPriority, queue[i], queue[j])
  }

  lemma OrderThinned(a: seq<TaskId>, b: seq<TaskId>, key: map<TaskId, nat>, arrival: map<TaskId, nat>, byPriority: bool)
    requires InOrder(a, key, arrival, byPriority) && Thinned(a, b)
    ensures InOrder(b, key, arrival, byPriority)
  {
    hide Ahead;
    forall i, j | 0 <= i < j < |b|
      ensures Ahead(key, arrival, byPriority, b[i], b[j])
    {
      var k, m := IndexOf(a, b[i]), IndexOf(a, b[j]);
      assert a[k] == b[i] && a[m] == b[j];
    }
  }

  lemma OrderSame(queue: seq<TaskId>, key: map<TaskId, nat>, arrival: map<TaskId, nat>,
                  key': map<TaskId, nat>, arrival': map<TaskId, nat>, byPriority: bool)
    requires InOrder(queue, key, arrival, byPriority)
    requires forall x :: x in queue ==> x in key' && (byPriority ==> key'[x] == key[x])
    requires forall x :: x in queue ==> x in arrival' && arrival'[x] == arrival[x]
    ensures InOrder(queue, key', arrival', byPriority)
  {
  }

  lemma OrderAt(queue: seq<TaskId>, x: TaskId, k: nat, key: map<TaskId, nat>, arrival: map<TaskId, nat>)
    requires InOrder(queue, key, arrival, true) && x in key && x in arrival && k <= |queue|
    requires forall y :: y in queue ==> arrival[y] < arrival[x]
    requires forall i :: 0 <= i < |queue| ==> (i < k <==> key[queue[i]] <= key[x])
    ensures InOrder(queue[..k] + [x] + queue[k..], key, arrival, true)
  {
    var r := queue[..k] + [x] + queue[k..];
    assert forall i :: 0 <= i < |r| && i != k ==> r[i] == queue[if i < k then i else i - 1];
    forall i, j | 0 <= i < j < |r|
      ensures Ahead(key, arrival, true, r[i], r[j])
    {
      if j == k {
        assert queue[i] in queue;
      }
    }
  }

  /** The last to arrive takes its place by priority, or the last place. */
  lemma OrderJoin(queue: seq<TaskId>, x: TaskId, key: map<TaskId, nat>, arrival: map<TaskId, nat>, byPriority: bool)
    requires InOrder(queue, key, arrival, byPriority) && x in key && x in arrival
    requires forall y :: y in queue ==> arrival[y] < arrival[x]
    ensures InOrder(if byPriority then InsertOrdered(queue, x, key) else queue + [x], key, arrival, byPriority)
  {
    if byPriority {
      hide InsertOrdered;
      assert Sorted(queue, key);
      InsertOrderedStable(queue, x, key);
      var k :| 0 <= k <= |queue| && InsertOrdered(queue, x, key) == queue[..k] + [x] + queue[k..] &&
               forall i :: 0 <= i < |queue| ==> (i < k <==> key[queue[i]] <= key[x]);
      hide InOrder, Sorted;
      OrderAt(queue, x, k, key, arrival);
    }
  }

  ghost function Arrivals(run: seq<State>, q: SemId, n: nat): map<TaskId, nat>
    requires n < |run| && q in run[n].waiting
  {
    map t | t in run[n].waiting[q] :: Arrival(run, q, t, n)
  }

  ghost predicate Ranked(run: seq<State>, q: SemId, n: nat)
    requires n < |run|
  {
    q in run[n].sems && q in run[n].waiting &&
    InOrder(run[n].waiting[q], Priorities(run[n].tasks), Arrivals(run, q, n), run[n].sems[q].byPriority)
  }

  /** The call changes the priority of a task that waits on a queue by priority. */
  ghost predicate ReratesWaiter(s: State, a: Action) {
    a.DoChangePriority? && a.priority <= LOWEST_PRIORITY &&
    exists q :: q in s.sems && q in s.waiting && s.sems[q].byPriority && a.t in s.waiting[q]
  }

  /** A task that stays on the queue arrived when it did. */
  lemma ArrivalStays(run: seq<State>, q: SemId, t: TaskId, n: nat)
    requires n + 1 < |run| && q in run[n + 1].waiting && t in run[n + 1].waiting[q]
    ensures Arrival(run, q, t, n + 1) == Arrival(run, q, t, n)
  {
  }

  lemma {:induction false} ArrivedBefore(run: seq<State>, q: SemId, t: TaskId, n: nat)
    requires n < |run| && q in run[n].waiting && t in run[n].waiting[q] && q !in run[0].waiting
    ensures Arrival(run, q, t, n) < n
  {
  }

  /** No waiter of `q` changes priority. */
  lemma RatesKept(s: State, a: Action, q: SemId, x: TaskId)
    requires Inv(s) && Enabled(s, a) && !(a.DoTick? && TickHits(s)) && q in s.sems && !ReratesWaiter(s, a)
    requires x in s.tasks && (x in s.waiting[q] || !a.DoChangePriority?)
    ensures x in Step(s, a).tasks
    ensures s.sems[q].byPriority ==> Step(s, a).tasks[x].priority == s.tasks[x].priority
  {
    hide Core, TickHits, ChangePriority, Tick, Create, Suspend, Resume, SetPeriod, Sleep, InitSemaphore, Acquire, Retry,
         Release,
      Wake, Restore;
    StepRank(s, a);
    if a.DoChangePriority? {
      ChangePriorityRank(s, a.t, a.priority);
    }
  }

  lemma ArrivalsStep(run: seq<State>, q: SemId, n: nat)
    requires n + 1 < |run| && q in run[n + 1].waiting && q in run[n].waiting && q !in run[0].waiting
    ensures forall t {:trigger t in run[n + 1].waiting[q]} :: t in run[n + 1].waiting[q] ==>
      t in Arrivals(run, q, n + 1).Keys &&
      Arrivals(run, q, n + 1)[t] == if t in run[n].waiting[q] then Arrivals(run, q, n)[t] else n
    ensures forall t {:trigger t in run[n].waiting[q]} :: t in run[n].waiting[q] ==>
      t in Arrivals(run, q, n).Keys && Arrivals(run, q, n)[t] < n
  {
    forall t | t in run[n].waiting[q]
      ensures Arrivals(run, q, n)[t] < n
    {
      ArrivedBefore(run, q, t, n);
    }
    forall t | t in run[n + 1].waiting[q]
      ensures Arrivals(run, q, n + 1)[t] == if t in run[n].waiting[q] then Arrivals(run, q, n)[t] else n
    {
      ArrivalStays(run, q, t, n);
    }
  }

  lemma RankedJoin(run: seq<State>, a: Action, q: SemId, n: nat)
    requires n + 1 < |run| && Inv(run[n]) && Follows(run[n], a, run[n + 1]) && !(a.DoTick? && TickHits(run[n]))
    requires Ranked(run, q, n) && q !in run[0].waiting && Joins(run[n], a, q)
    ensures Ranked(run, q, n + 1)
  {
    hide Inv, Step, TickHits, Thinned, Joins, InsertOrdered, InOrder, Arrivals, KeepsRank;
    var s, s' := run[n], run[n + 1];
    QueueMoves(s, a, q);
    JoinerIsTask(s, a, q);
    NotChanging(s, a, q);
    SemStays(s, a, q);
    WaitersAreTasks(s, q);
    ArrivalsStep(run, q, n);
    var queue, key, arr, x := s.waiting[q], Priorities(s.tasks), Arrivals(run, q, n), s.current.value;
    var arr1, byPriority := arr[x := n], s.sems[q].byPriority;
    OrderSame(queue, key, arr, key, arr1, byPriority);
    OrderJoin(queue, x, key, arr1, byPriority);
    forall y | y in s'.waiting[q]
      ensures y in Priorities(s'.tasks) && (byPriority ==> Priorities(s'.tasks)[y] == key[y])
    {
      RatesKept(s, a, q, y);
    }
    OrderSame(s'.waiting[q], key, arr1, Priorities(s'.tasks), Arrivals(run, q, n + 1), byPriority);
  }

  lemma NotChanging(s: State, a: Action, q: SemId)
    requires Inv(s) && Enabled(s, a) && Joins(s, a, q)
    ensures !a.DoChangePriority? && !ReratesWaiter(s, a)
  {
  }

  lemma SemStays(s: State, a: Action, q: SemId)
    requires Inv(s) && Enabled(s, a) && !(a.DoTick? && TickHits(s)) && q in s.sems
    ensures q in Step(s, a).sems && q in Step(s, a).waiting && Step(s, a).sems[q].byPriority == s.sems[q].byPriority
  {
    hide Inv, Step, TickHits;
    StepRank(s, a);
  }

  /** One more step keeps the order, when no waiter on a queue by priority is rerated. */
  lemma RankedStep(run: seq<State>, a: Action, q: SemId, n: nat)
    requires n + 1 < |run| && Inv(run[n]) && Follows(run[n], a, run[n + 1]) && !(a.DoTick? && TickHits(run[n]))
    requires Ranked(run, q, n) && !ReratesWaiter(run[n], a) && q !in run[0].waiting
    ensures Ranked(run, q, n + 1)
  {
    hide Inv, Step, TickHits, Thinned, Joins, InsertOrdered, InOrder, Arrivals, KeepsRank, ReratesWaiter;
    var s, s' := run[n], run[n + 1];
    if Joins(s, a, q) {
      RankedJoin(run, a, q, n);
    } else {
      QueueMoves(s, a, q);
      SemStays(s, a, q);
      WaitersAreTasks(s, q);
      ArrivalsStep(run, q, n);
      var key, arr, byPriority := Priorities(s.tasks), Arrivals(run, q, n), s.sems[q].byPriority;
      OrderThinned(s.waiting[q], s'.waiting[q], key, arr, byPriority);
      ThinnedIn(s.waiting[q], s'.waiting[q]);
      forall y | y in s'.waiting[q]
        ensures y in Priorities(s'.tasks) && (byPriority ==> Priorities(s'.tasks)[y] == key[y])
      {
        RatesKept(s, a, q, y);
      }
      OrderSame(s'.waiting[q], key, arr, Priorities(s'.tasks), Arrivals(run, q, n + 1), byPriority);
    }
  }

  lemma ThinnedIn(a: seq<nat>, b: seq<nat>)
    requires Thinned(a, b)
    ensures forall x :: x in b ==> x in a
  {
  }

  /** The order of waking, in every run in which no waiter on a queue by priority is rerated:
      a queue in order of arrival holds its waiters in that order, a queue by priority holds them
      by priority, equals in order of arrival. */
  lemma {:induction false} WakeOrder(run: seq<State>, acts: seq<Action>, q: SemId, n: nat)
    requires IsRun(run, acts) && n < |run|
    requires forall i :: 0 <= i < n ==> !(acts[i].DoTick? && TickHits(run[i])) && !ReratesWaiter(run[i], acts[i])
    ensures Inv(run[n]) && (q in run[n].sems ==> Ranked(run, q, n))
    decreases n
  {
    hide Inv, TickHits, Step, ReratesWaiter, Ranked;
    RunKeeps(run, acts, n);
    BootHasNoQueues();
    if 0 < n {
      RunKeeps(run, acts, n - 1);
      WakeOrder(run, acts, q, n - 1);
      assert Follows(run[n - 1], acts[n - 1], run[n]);
      if q in run[n - 1].sems {
        RankedStep(run, acts[n - 1], q, n - 1);
      } else if q in run[n].sems {
        NewSemaphores(run[n - 1], acts[n - 1], q);
        RankedEmpty(run, q, n);
      }
    }
  }

  lemma RankedEmpty(run: seq<State>, q: SemId, n: nat)
    requires n < |run| && q in run[n].sems && q in run[n].waiting && run[n].waiting[q] == []
    ensures Ranked(run, q, n)
  {
  }

  lemma BootHasNoQueues()
    ensures Boot().sems == map[] && Boot().waiting == map[]
  {
  }

  ghost predicate Precedes(run: seq<State>, q: SemId, n: nat, x: TaskId, y: TaskId)
    requires n < |run| && q in run[n].sems && q in run[n].waiting
  {
    var key, arrival := Priorities(run[n].tasks), Arrivals(run, q, n);
    x in key && y in key && x in arrival && y in arrival && Ahead(key, arrival, run[n].sems[q].byPriority, x, y)
  }

  /** A release wakes the waiter that all others on its queue are behind, and nobody else. */
  lemma WokenIsAhead(run: seq<State>, n: nat, q: SemId)
    requires n < |run| && Typed(run[n]) && run[n].current.Some? && run[n].tasks[run[n].current.value].pc == Releasing(q)
    requires Ranked(run, q, n) && run[n].waiting[q] != [] && Inv(run[n])
    ensures var s, w := run[n], run[n].waiting[q][0];
            q in Wake(s).waiting && Wake(s).waiting[q] == s.waiting[q][1..] && w in Wake(s).tasks &&
            Wake(s).tasks[w].status in {READY, RUNNING} &&
            forall x :: x in s.waiting[q] && x != w ==> Precedes(run, q, n, w, x)
  {
    hide Inv, Wake, Ahead;
    var s := run[n];
    WakeRank(s, q);
    FirstIsReady(s, q);
  }

  lemma FirstIsReady(s: State, q: SemId)
    requires Inv(s) && q in s.sems && s.waiting[q] != []
    requires s.current.Some? && s.tasks[s.current.value].pc == Releasing(q)
    ensures var w := s.waiting[q][0]; w in Wake(s).tasks && Wake(s).tasks[w].status in {READY, RUNNING}
  {
    hide ReadyOk, BitsOk, AlarmsOk, RunningOk, Undisturbed, Schedule, Delete;
    var w := s.waiting[q][0];
    assert w in s.waiting[q];
    var s1 := SetPc(s, s.current.value, User);
    ScheduleOnlyWakes(MakeReady(s1.(waiting := s1.waiting[q := Delete(s1.waiting[q], w)]), w));
  }
}
