/** The code on the heap goes through every run of the state machine. */
module KernelReplay {
  import opened KernelState
  import opened KernelRuns
  import KI = KernelInvariant
  import KS = KernelSteps
  import opened Kernel

  predicate OnSync(a: Action) {
    a.DoAcquire? || a.DoRetry? || a.DoRelease? || a.DoWake?
  }

  /** A new semaphore. */
  method PerformInit(k: Kernel, q: SemId, count: int, byPriority: bool)
    requires k.Valid() && Typed(k.st) && q !in k.st.sems
    modifies k`st, k`sems, k`semRepr, k`queueHeads
    ensures fresh(k.semRepr - old(k.semRepr)) && fresh(k.queueHeads - old(k.queueHeads))
    ensures k.Valid() && k.st == InitSemaphore(old(k.st), q, count, byPriority)
  {
    hide Kernel.Valid, Typed, InitSemaphore;
    k.SemNamed(q);
    var sem := k.InitSemaphore(q, count, byPriority);
  }

  /** One action on a semaphore that exists, done by the code it stands for. */
  method PerformSync(k: Kernel, a: Action)
    requires k.Valid() && KI.Inv(k.st) && Enabled(k.st, a) && OnSync(a)
    modifies k`st, k`current, k.tcbRepr, k.semRepr, k.queueNodes, k.queueHeads, k.alarmNodes, k.alarmRepr, k.alarmQueue
    modifies k.index, k.index.table
    ensures k.Valid() && k.st == Step(old(k.st), a)
  {
    hide Kernel.Valid, KI.Inv, KS.TickHits, Typed, Acquire, Retry, Release, Wake, KS.SleepFits;
    k.Fields();
    match a
    case DoAcquire(q, timeout) => var outcome := k.AcquireSemaphore(q, timeout);
    case DoRetry => var outcome := k.RetryAcquire();
    case DoRelease(q) => k.ReleaseSemaphore(q);
    case DoWake => k.WakeWaiter();
  }

  predicate OnTask(a: Action) {
    a.DoChangePriority? || a.DoSuspend? || a.DoResume? || a.DoSetPeriod? || a.DoSleep?
  }

  /** One action on a task that exists. */
  method PerformTask(k: Kernel, a: Action)
    requires k.Valid() && KI.Inv(k.st) && Enabled(k.st, a) && OnTask(a)
    modifies k`st, k`current, k.tcbRepr, k.queueNodes, k.queueHeads, k.alarmNodes, k.alarmRepr, k.alarmQueue, k.index,
             k.index.table
    ensures k.Valid() && k.st == Step(old(k.st), a)
  {
    hide Kernel.Valid, KI.Inv, Typed, ChangePriority, Suspend, Resume, SetPeriod, Sleep, KS.SleepFits;
    k.Fields();
    match a
    case DoChangePriority(t, priority) => Block(k, t); k.ChangePriority(k.tcbs[t], priority);
    case DoSuspend(t) => Block(k, t); k.SuspendTask(k.tcbs[t]);
    case DoResume(t) => Block(k, t); k.ResumeTask(k.tcbs[t]);
    case DoSetPeriod(t, period) => Block(k, t); k.SetPeriod(k.tcbs[t], period);
    case DoSleep(ticks) => k.Sleep(ticks);
  }

  /** A new control block, and the call that makes a task of it. */
  method PerformCreate(k: Kernel, t: TaskId, stackSize: nat, priority: nat)
    requires k.Valid() && KI.Inv(k.st) && Typed(k.st) && t !in k.st.tasks
    modifies k`st, k`current, k`tcbs, k`tcbRepr, k`queueNodes, k`alarmNodes, k`alarmRepr
    modifies k.tcbRepr, k.queueNodes, k.queueHeads, k.index, k.index.table
    ensures fresh(k.tcbRepr - old(k.tcbRepr)) && fresh(k.queueNodes - old(k.queueNodes))
    ensures fresh(k.alarmNodes - old(k.alarmNodes)) && fresh(k.alarmRepr - old(k.alarmRepr))
    ensures k.Valid() && k.st == Create(old(k.st), t, stackSize, priority)
  {
    hide Kernel.Valid, KI.Inv, Typed, Create;
    k.Unknown(t);
    var task := new Tcb(t);
    var result := k.CreateTask(task, stackSize, priority);
  }

  /** One action that brings a new task or semaphore. */
  method PerformNew(k: Kernel, a: Action)
    requires k.Valid() && KI.Inv(k.st) && Enabled(k.st, a) && (a.DoCreate? || a.DoInitSemaphore?)
    modifies k, k.tcbRepr, k.queueNodes, k.queueHeads, k.index, k.index.table
    ensures fresh(k.tcbRepr - old(k.tcbRepr)) && fresh(k.semRepr - old(k.semRepr)) &&
            fresh(k.queueNodes - old(k.queueNodes))
    ensures fresh(k.queueHeads - old(k.queueHeads)) && fresh(k.alarmNodes - old(k.alarmNodes)) &&
            fresh(k.alarmRepr - old(k.alarmRepr))
    ensures k.Valid() && k.st == Step(old(k.st), a)
  {
    hide Kernel.Valid, KI.Inv, Typed, Create, InitSemaphore;
    if a.DoCreate? {
      PerformCreate(k, a.t, a.stackSize, a.priority);
    } else {
      PerformInit(k, a.q, a.count, a.byPriority);
    }
  }

  /** The scheduler lock and the timer interrupt. */
  method PerformRest(k: Kernel, a: Action)
    requires k.Valid() && KI.Inv(k.st) && Enabled(k.st, a) && !(a.DoTick? && KS.TickHits(k.st))
    requires a.DoLock? || a.DoRestore? || a.DoTick?
    modifies k`st, k`current, k`locked, k`tick, k.tcbRepr, k.queueNodes, k.queueHeads, k.alarmNodes, k.alarmQueue
    modifies k.index, k.index.table
    ensures k.Valid() && k.st == Step(old(k.st), a)
  {
    hide Kernel.Valid, KI.Inv, KS.TickHits, Typed, Lock, Restore, Tick;
    if a.DoLock? {
      var was := k.LockScheduler();
    } else if a.DoRestore? {
      k.RestoreScheduler(a.locked);
    } else {
      k.TriggerCounter();
    }
  }

  lemma EnabledTyped(s: State, a: Action)
    requires Enabled(s, a)
    ensures Typed(s)
    ensures OnSync(a) || OnTask(a) || a.DoCreate? || a.DoInitSemaphore? || a.DoLock? || a.DoRestore? || a.DoTick?
  {
    hide Typed;
  }

  /** One action, done by the code it stands for. */
  method Perform(k: Kernel, a: Action)
    requires k.Valid() && KI.Inv(k.st) && Enabled(k.st, a) && !(a.DoTick? && KS.TickHits(k.st))
    modifies k, k.tcbRepr, k.semRepr, k.queueNodes, k.queueHeads, k.alarmNodes, k.alarmRepr, k.alarmQueue, k.index,
             k.index.table
    ensures fresh(k.tcbRepr - old(k.tcbRepr)) && fresh(k.semRepr - old(k.semRepr)) &&
            fresh(k.queueNodes - old(k.queueNodes))
    ensures fresh(k.queueHeads - old(k.queueHeads)) && fresh(k.alarmNodes - old(k.alarmNodes)) &&
            fresh(k.alarmRepr - old(k.alarmRepr))
    ensures k.Valid() && KI.Inv(k.st) && Typed(old(k.st)) && k.st == Step(old(k.st), a)
  {
    hide *;
    StepKeeps(k.st, a);
    EnabledTyped(k.st, a);
    if OnSync(a) {
      PerformSync(k, a);
    } else if OnTask(a) {
      PerformTask(k, a);
    } else if a.DoCreate? || a.DoInitSemaphore? {
      PerformNew(k, a);
    } else {
      PerformRest(k, a);
    }
  }

  lemma Block(k: Kernel, t: TaskId)
    requires k.Valid() && t in k.st.tasks
    ensures t in k.tcbs && k.tcbs[t] in k.tcbRepr && k.tcbs[t].id == t
  {
  }

  lemma RunIs(run: seq<State>, acts: seq<Action>)
    requires IsRun(run, acts)
    ensures |run| == |acts| + 1 && run[0] == Boot()
    ensures forall i :: 0 <= i < |acts| ==> Enabled(run[i], acts[i]) && run[i + 1] == Step(run[i], acts[i])
  {
    hide Boot, Step, Enabled;
    forall i | 0 <= i < |acts|
      ensures Enabled(run[i], acts[i]) && run[i + 1] == Step(run[i], acts[i])
    {
      assert Follows(run[i], acts[i], run[i + 1]);
    }
  }

  /** Booted and given the actions of a run, the code ends in the state the run ends in: on that
      way it follows no NULL or stale pointer, and its lists, bitmap and blocks are whole. */
  method Replay(acts: seq<Action>, ghost run: seq<State>) returns (k: Kernel)
    requires IsRun(run, acts)
    requires forall i :: 0 <= i < |acts| && acts[i].DoTick? ==> !KS.TickHits(run[i])
    ensures k.Valid() && k.st == run[|acts|] && KI.Inv(k.st)
  {
    hide *;
    RunIs(run, acts);
    BootHolds();
    var idle: Tcb;
    k, idle := Kernel.Boot();
    var i := 0;
    while i < |acts|
      invariant 0 <= i <= |acts| && k.Valid() && k.st == run[i] && KI.Inv(k.st)
      invariant fresh(k) && fresh(k.tcbRepr) && fresh(k.semRepr) && fresh(k.queueNodes) && fresh(k.queueHeads)
      invariant fresh(k.alarmNodes) && fresh(k.alarmRepr) && fresh(k.alarmQueue) && fresh(k.index) &&
                fresh(k.index.table)
    {
      Perform(k, acts[i]);
      i := i + 1;
    }
  }
}
