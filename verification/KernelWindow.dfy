/**
  The blocking acquire with the window the code leaves open in it.  `eos_acquire_semaphore` tests
  the count with interrupts disabled, but restores them before `_os_wait_in_queue` puts the task on
  the wait queue: ticks, and with them other tasks and their releases, can come in between.

  The window is modelled for acquires without a timeout.  A task in it has made no change the other
  calls could see, so the kernel's own state shows it between two calls.
 */
module KernelWindow {
  import opened Queues
  import opened KernelState
  import opened KernelInvariant
  import opened KernelSteps
  import opened KernelRuns
  import opened KernelSync
  import opened KernelCalls
  import opened KernelFairness

  /** `entering` are the tasks in the window, with the semaphore each is about to wait for. */
  datatype Open = Open(kernel: State, entering: map<TaskId, SemId>)

  datatype Move =
    | Whole(a: Action)  // a step of `KernelRuns`
    | Test(q: SemId)    // eos_acquire_semaphore(q, 0) finds no unit and opens interrupts again
    | TestAgain         // so does a task that was woken
    | Join              // _os_wait_in_queue

  /** The running task is in the window. */
  ghost predicate Inside(w: Open) {
    w.kernel.current.Some? && w.kernel.current.value in w.entering
  }

  /** A task in the window goes on with its acquire; only ticks come in between. */
  ghost predicate May(w: Open, m: Move) {
    var s := w.kernel;
    match m
    case Whole(a) => Enabled(s, a) && (Inside(w) ==> a.DoTick?)
    case Test(q) => !Inside(w) && Enabled(s, DoAcquire(q, 0)) && AcquireOutcome(s, q, 0).Blocked?
    case TestAgain =>
      !Inside(w) && Enabled(s, DoRetry) && s.tasks[s.current.value].pc.timeout == 0 && RetryOutcome(s).Blocked?
    case Join => Inside(w) && Typed(s) && UserRuns(s) && w.entering[s.current.value] in s.sems
  }

  /** The running task joins the wait queue of `q` and another task runs, whatever the count is by now. */
  ghost function Joined(s: State, q: SemId): (s': State)
    requires Typed(s) && s.current.Some? && q in s.sems
    ensures Typed(s')
  {
    Schedule(Enqueue(Enter(s, s.current.value, q, 0), q))
  }

  ghost function Next(w: Open, m: Move): (w': Open)
    requires May(w, m)
    ensures Typed(w.kernel) && Typed(w'.kernel)
  {
    var s := w.kernel;
    match m
    case Whole(a) => w.(kernel := Step(s, a))
    case Test(q) => w.(entering := w.entering[s.current.value := q])
    case TestAgain =>
      Open(SetPc(s, s.current.value, User), w.entering[s.current.value := s.tasks[s.current.value].pc.sem])
    case Join =>
      Open(Joined(s, w.entering[s.current.value]), w.entering - {s.current.value})
  }

  /** With nothing in between, the two halves are the call. */
  lemma HalvesMakeTheCall(s: State, q: SemId)
    requires May(Open(s, map[]), Test(q))
    ensures var w := Next(Open(s, map[]), Test(q)); May(w, Join) && Next(w, Join) == Open(Acquire(s, q, 0), map[])
  {
    hide Schedule, Enter, Enqueue;
    var w := Next(Open(s, map[]), Test(q));
    assert w.entering - {s.current.value} == map[];
  }

  // ----- the invariant

  /** What the window keeps of a task: it is in no call the kernel knows of, and never runs with the
      scheduler locked. */
  ghost predicate Entering(s: State, entering: map<TaskId, SemId>) {
    (forall t :: t in entering ==> t in s.tasks && t != IDLE && s.tasks[t].pc.User? && entering[t] in s.sems) &&
    (s.locked && s.current.Some? ==> s.current.value !in entering)
  }

  ghost predicate OpenInv(w: Open) {
    Inv(w.kernel) && Entering(w.kernel, w.entering)
  }

  /** No call changes who runs before it calls the scheduler. */
  lemma HandedRuns(s: State, a: Action)
    requires Inv(s) && Enabled(s, a) && !(a.DoTick? && TickHits(s)) && Calls(s, a)
    ensures Handed(s, a).current == s.current && (a.DoTick? ==> Handed(s, a).locked == s.locked)
  {
    hide Inv, LoopInv, DueAlarmHits, TickHits, FireDue, SetAlarm, InsertOrdered, Delete, Add32, FallsAsleep,
         FallenAsleep;
    if a.DoTick? {
      NoWrap(s.tick, 1);
      TickStarts(s);
      FireDueFrame(s.(tick := s.tick + 1));
    } else if a.DoSleep? {
      AsleepRuns(s, a.ticks);
    } else if a.DoAcquire? {
      AlarmRuns(s, s.current.value, a.timeout);
    }
  }

  lemma AsleepRuns(s: State, ticks: nat)
    requires Typed(s) && s.current.Some? && FallsAsleep(s, ticks)
    ensures FallenAsleep(s, ticks).current == s.current
  {
    hide InsertOrdered, Delete, Add32;
  }

  lemma LockedSchedule(s: State)
    requires Typed(s) && Schedule(s).locked
    ensures Schedule(s) == s
  {
    ScheduleFrame(s);
  }

  lemma SilentRuns(s: State, a: Action)
    requires Enabled(s, a) && !Calls(s, a)
    ensures Step(s, a).current == s.current
  {
    hide Schedule, SetAlarm, Delete, Add32;
    if a.DoRetry? {
      AlarmRuns(s, s.current.value, 0);
    }
  }

  /** Who leaves the scheduler locked has not been switched away. */
  lemma LockedStays(s: State, a: Action)
    requires Inv(s) && Enabled(s, a) && !(a.DoTick? && TickHits(s)) && Step(s, a).locked
    ensures Step(s, a).current == s.current && (a.DoTick? ==> s.locked)
  {
    hide Inv, TickHits, Step, Handed, Schedule, Prepared;
    if Calls(s, a) {
      HandedPrepared(s, a);
      HandedRuns(s, a);
      LockedSchedule(Handed(s, a));
    } else {
      SilentRuns(s, a);
    }
  }

  lemma WholeEntering(w: Open, a: Action)
    requires OpenInv(w) && May(w, Whole(a)) && !(a.DoTick? && TickHits(w.kernel))
    ensures Entering(Step(w.kernel, a), w.entering)
  {
    hide Inv, TickHits, Step, Enabled, SemAfter;
    StepEffect(w.kernel, a);
    if Step(w.kernel, a).locked {
      LockedStays(w.kernel, a);
    }
  }

  lemma LeavesCall(s: State)
    requires Inv(s) && s.current.Some? && s.tasks[s.current.value].pc.Acquiring? &&
             s.tasks[s.current.value].pc.timeout == 0
    ensures Inv(SetPc(s, s.current.value, User))
  {
    hide ReadyOk, WaitingOk, BitsOk, AlarmsOk, InsertOrdered, Delete, AlarmTimes, Add32;
    var t := s.current.value;
    var free := s.tasks[t].(pc := User);
    SamePlaces(s, t, free);
    UntimedIsDisarmed(s, t);
    Disarm(s.tasks, s.alarms, t, s.tasks[t := free], s.tick, s.tick + 1);
  }

  lemma UntimedIsDisarmed(s: State, t: TaskId)
    requires Inv(s) && t in s.tasks && s.tasks[t].pc.Acquiring? && s.tasks[t].pc.timeout == 0
    ensures Delete(s.alarms, t) == s.alarms
  {
    assert t !in s.alarms;
  }

  lemma JoinedKeeps(s: State, q: SemId)
    requires Inv(s) && UserRuns(s) && q in s.sems && !s.locked
    ensures Inv(Joined(s, q))
  {
    hide ReadyOk, WaitingOk, BitsOk, AlarmsOk, SetAlarm, Enqueue, Schedule, Undisturbed, Prepared;
    AlarmRuns(s, s.current.value, 0);
    AcquirePrepared(s, q, 0);
    SettlePrepared(Enqueue(Enter(s, s.current.value, q, 0), q));
  }

  lemma JoinedFrame(s: State, q: SemId)
    requires Inv(s) && UserRuns(s) && q in s.sems && !s.locked
    ensures !Joined(s, q).locked && Blocks(s, Joined(s, q), s.current.value, q)
    ensures q in Joined(s, q).waiting && Joined(s, q).waiting[q] != []
  {
    hide ReadyOk, WaitingOk, BitsOk, AlarmsOk, SetAlarm, Schedule, Undisturbed, Blocks, InsertOrdered;
    EnterBlocks(s, q, 0);
    AlarmRuns(s, s.current.value, 0);
    ScheduleFrame(Enqueue(Enter(s, s.current.value, q, 0), q));
  }

  lemma JoinedEntering(w: Open)
    requires OpenInv(w) && May(w, Join)
    ensures Entering(Next(w, Join).kernel, Next(w, Join).entering)
  {
    hide Inv, Joined;
    JoinedFrame(w.kernel, w.entering[w.kernel.current.value]);
  }

  /** Every move keeps the kernel's invariant, in the window and outside. */
  lemma OpenKeeps(w: Open, m: Move)
    requires OpenInv(w) && May(w, m) && !(m == Whole(DoTick) && TickHits(w.kernel))
    ensures OpenInv(Next(w, m))
  {
    hide Inv, TickHits, Step, Joined, Enabled, RetryOutcome, Entering;
    match m
    case Whole(a) =>
      StepKeeps(w.kernel, a);
      WholeEntering(w, a);
    case Test(q) => TestEntering(w, q);
    case TestAgain =>
      LeavesNow(w);
      AgainEntering(w);
    case Join =>
      JoinsUnlocked(w);
      JoinedKeeps(w.kernel, w.entering[w.kernel.current.value]);
      JoinedEntering(w);
  }

  lemma TestEntering(w: Open, q: SemId)
    requires OpenInv(w) && May(w, Test(q))
    ensures Entering(w.kernel, w.entering[w.kernel.current.value := q])
  {
    hide Inv;
  }

  lemma LeavesNow(w: Open)
    requires OpenInv(w) && May(w, TestAgain)
    ensures Inv(SetPc(w.kernel, w.kernel.current.value, User))
  {
    hide Inv;
    LeavesCall(w.kernel);
  }

  lemma AgainEntering(w: Open)
    requires OpenInv(w) && May(w, TestAgain)
    ensures Entering(Next(w, TestAgain).kernel, Next(w, TestAgain).entering)
  {
    hide ReadyOk, WaitingOk, BitsOk, AlarmsOk;
  }

  lemma JoinsUnlocked(w: Open)
    requires OpenInv(w) && May(w, Join)
    ensures !w.kernel.locked
  {
    hide Inv;
  }

  // ----- wake-ups

  /** The task joins the queue although there are more units of the count than tasks on their way to
      take one: it was given a wake-up in the window, when the queue was still empty. */
  ghost predicate LosesInWindow(w: Open, m: Move) {
    m == Join && May(w, m) &&
    var s := w.kernel; var q := w.entering[s.current.value];
    s.sems[q].count > |Woken(s, q)| + |Releasers(s, q)|
  }

  ghost predicate Loses(w: Open, m: Move) {
    LosesInWindow(w, m) || (m.Whole? && LosesWakeup(w.kernel, m.a))
  }

  /** The tasks on their way are the same before and after: who waited still waits, and the task
      that joins waits now. */
  lemma JoinedWoken(s: State, s': State, t: TaskId, q: SemId)
    requires Inv(s) && Inv(s') && Blocks(s, s', t, q) && s.tasks[t].pc.User?
    requires q in s'.waiting && t in s'.waiting[q] && forall x :: x in s.waiting[q] ==> x in s'.waiting[q]
    ensures Woken(s', q) == Woken(s, q) && Releasers(s', q) == Releasers(s, q)
  {
    hide Inv;
    forall x | x in s.tasks && s.tasks[x].pc.Acquiring? && s.tasks[x].pc.sem == q
      ensures s'.tasks[x].status == WAITING <==> s.tasks[x].status == WAITING
    {
      WaitsInQueue(s, x, q);
      WaitsInQueue(s', x, q);
    }
    WaitsInQueue(s', t, q);
  }

  lemma WaitsInQueue(s: State, t: TaskId, q: SemId)
    requires Inv(s) && t in s.tasks && s.tasks[t].pc.Acquiring? && s.tasks[t].pc.sem == q
    ensures q in s.waiting && (s.tasks[t].status == WAITING <==> t in s.waiting[q])
  {
    hide ReadyOk, BitsOk, AlarmsOk, RunningOk, Undisturbed;
  }

  lemma JoinedWaits(s: State, q: SemId)
    requires Inv(s) && UserRuns(s) && q in s.sems
    ensures q in Joined(s, q).waiting && s.current.value in Joined(s, q).waiting[q]
    ensures forall x :: x in s.waiting[q] ==> x in Joined(s, q).waiting[q]
  {
    hide ReadyOk, WaitingOk, BitsOk, AlarmsOk, SetAlarm, Undisturbed, Schedule;
    var t := s.current.value;
    AlarmRuns(s, t, 0);
    ScheduleFrame(Enqueue(Enter(s, t, q, 0), q));
  }

  lemma JoinSync(s: State, q: SemId)
    requires Inv(s) && SyncInv(s) && UserRuns(s) && q in s.sems && !s.locked
    ensures SyncInv(Joined(s, q)) <==> !(s.sems[q].count > |Woken(s, q)| + |Releasers(s, q)|)
  {
    hide ReadyOk, WaitingOk, BitsOk, AlarmsOk, RunningOk, Undisturbed, Joined, Woken, Releasers;
    var t, s' := s.current.value, Joined(s, q);
    JoinedFrame(s, q);
    JoinedWaits(s, q);
    JoinedKeeps(s, q);
    JoinedWoken(s, s', t, q);
    assert Covered(s', q) <==> s.sems[q].count <= |Woken(s, q)| + |Releasers(s, q)|;
    forall p | p in s'.sems && p != q
      ensures Conserved(s'.sems[p]) && Covered(s', p)
    {
      OthersWait(s, s', t, q, p);
      OthersWoken(s, s', t, q, p);
    }
  }

  lemma AgainSync(s: State)
    requires Inv(s) && SyncInv(s) && s.current.Some? && s.tasks[s.current.value].pc.Acquiring? &&
             RetryOutcome(s).Blocked?
    ensures SyncInv(SetPc(s, s.current.value, User))
  {
    hide ReadyOk, WaitingOk, BitsOk, AlarmsOk, RunningOk, Undisturbed, Woken, Releasers;
    var t := s.current.value;
    var q, s' := s.tasks[t].pc.sem, SetPc(s, t, User);
    forall p | p in s'.sems
      ensures Covered(s', p)
    {
      LeaveCounts(s, s', t, q, p);
    }
  }

  /** A move keeps the counts right and the wake-ups covered if and only if it loses none, in the
      window or at a deadline. */
  lemma OpenSync(w: Open, m: Move)
    requires OpenInv(w) && SyncInv(w.kernel) && May(w, m) && !(m == Whole(DoTick) && TickHits(w.kernel))
    ensures SyncInv(Next(w, m).kernel) <==> !Loses(w, m)
  {
    hide Inv, TickHits, Step, Joined, Enabled, RetryOutcome, Entering, SyncInv, Woken, Releasers, LosesWakeup;
    match m
    case Whole(a) => StepSync(w.kernel, a);
    case Test(q) =>
    case TestAgain => AgainNow(w);
    case Join =>
      JoinsUnlocked(w);
      JoinSync(w.kernel, w.entering[w.kernel.current.value]);
  }

  lemma AgainNow(w: Open)
    requires OpenInv(w) && SyncInv(w.kernel) && May(w, TestAgain)
    ensures SyncInv(SetPc(w.kernel, w.kernel.current.value, User))
  {
    hide Inv, SyncInv;
    AgainSync(w.kernel);
  }

  // ----- runs

  ghost predicate Follows(w: Open, m: Move, w': Open) {
    May(w, m) && w' == Next(w, m)
  }

  /** `ws` is what the kernel goes through from boot when it does `ms`. */
  ghost predicate IsOpenRun(ws: seq<Open>, ms: seq<Move>) {
    |ws| == |ms| + 1 && ws[0] == Open(Boot(), map[]) &&
    forall i :: 0 <= i < |ms| ==> Follows(ws[i], ms[i], ws[i + 1])
  }

  /** No tick meets a READY task's alarm, and no wake-up is lost. */
  ghost predicate Clean(w: Open, m: Move) {
    May(w, m) && !(m == Whole(DoTick) && TickHits(w.kernel)) && !Loses(w, m)
  }

  lemma BootOpen()
    ensures OpenInv(Open(Boot(), map[])) && SyncInv(Boot()) && Untimed(Boot())
  {
    hide Inv, SyncInv, Untimed;
    BootHolds();
    BootSync();
    BootUntimed();
  }

  /** Counts are conserved and wake-ups covered in every run of clean moves, with the window open. */
  lemma {:induction false} OpenRun(ws: seq<Open>, ms: seq<Move>, n: nat)
    requires IsOpenRun(ws, ms) && n < |ws| && forall i :: 0 <= i < n ==> Clean(ws[i], ms[i])
    ensures OpenInv(ws[n]) && SyncInv(ws[n].kernel)
  {
    hide OpenInv, TickHits, SyncInv, Loses, May, Next;
    if n == 0 {
      BootOpen();
    } else {
      OpenRun(ws, ms, n - 1);
      assert Follows(ws[n - 1], ms[n - 1], ws[n]) && Clean(ws[n - 1], ms[n - 1]);
      OpenKeeps(ws[n - 1], ms[n - 1]);
      OpenSync(ws[n - 1], ms[n - 1]);
    }
  }

  // ----- runs without timed acquires

  lemma JoinedUntimed(s: State, q: SemId)
    requires Inv(s) && Untimed(s) && UserRuns(s) && q in s.sems
    ensures Untimed(Joined(s, q))
  {
    hide ReadyOk, WaitingOk, BitsOk, AlarmsOk, RunningOk, Undisturbed, SetAlarm, InsertOrdered, Schedule;
    AlarmRuns(s, s.current.value, 0);
    ScheduleOnlyWakes(Enqueue(Enter(s, s.current.value, q, 0), q));
  }

  lemma OpenUntimed(w: Open, m: Move)
    requires OpenInv(w) && Untimed(w.kernel) && May(w, m) && (m.Whole? && m.a.DoAcquire? ==> m.a.timeout <= 0)
    ensures Untimed(Next(w, m).kernel)
  {
    hide Inv, Step, Joined, Enabled, RetryOutcome, Entering;
    match m
    case Whole(a) => UntimedStep(w.kernel, a);
    case Test(q) =>
    case TestAgain =>
    case Join => JoinedUntimed(w.kernel, w.entering[w.kernel.current.value]);
  }

  /** When no acquire is given a timeout, no run faults, and the window is the only place in which a
      wake-up can be lost: every state keeps the invariant, and every wake-up is covered as long as
      no task has joined a queue with more units in the count than tasks on their way. */
  lemma {:induction false} UntimedOpenRun(ws: seq<Open>, ms: seq<Move>, n: nat)
    requires IsOpenRun(ws, ms) && n < |ws|
    requires forall i :: 0 <= i < n && ms[i].Whole? && ms[i].a.DoAcquire? ==> ms[i].a.timeout <= 0
    ensures OpenInv(ws[n]) && Untimed(ws[n].kernel)
    ensures (forall i :: 0 <= i < n ==> !LosesInWindow(ws[i], ms[i])) ==> SyncInv(ws[n].kernel)
  {
    hide Inv, Entering, TickHits, SyncInv, LosesWakeup, LosesInWindow, May, Next, Untimed;
    if n == 0 {
      BootOpen();
    } else {
      UntimedOpenRun(ws, ms, n - 1);
      var w, m := ws[n - 1], ms[n - 1];
      assert Follows(w, m, ws[n]);
      UntimedIsSafe(w.kernel, if m.Whole? then m.a else DoTick);
      OpenKeeps(w, m);
      OpenUntimed(w, m);
      if SyncInv(w.kernel) {
        OpenSync(w, m);
      }
    }
  }
}
