/** What one step does to the semaphores and to where each task is in its own code. */
module KernelCalls {
  import opened Queues
  import opened KernelState
  import opened KernelInvariant
  import opened KernelSteps
  import opened KernelRuns
  import opened KernelSync

  /** The step takes a unit of the count of `q`. */
  ghost predicate Takes(s: State, a: Action, q: SemId)
    requires Enabled(s, a)
  {
    (a.DoAcquire? && a.q == q && AcquireOutcome(s, q, a.timeout).Acquired?) ||
    (a.DoRetry? && s.tasks[s.current.value].pc.sem == q && RetryOutcome(s).Acquired?)
  }

  ghost function SemAfter(s: State, a: Action, q: SemId): Semaphore
    requires Enabled(s, a) && q in s.sems
  {
    var sem := s.sems[q];
    if Takes(s, a, q) then sem.(count := Int8(sem.count - 1), acquired := sem.acquired + 1)
    else if a == DoRelease(q) then sem.(count := Int8(sem.count + 1), released := sem.released + 1)
    else sem
  }

  /** `pc` is where the step leaves task `t`. */
  ghost predicate PcAfter(s: State, a: Action, t: TaskId, pc: Pc)
    requires Enabled(s, a) && t in s.tasks
  {
    if s.current != Some(t) then pc == s.tasks[t].pc
    else match a
      case DoAcquire(q, timeout) =>
        if AcquireOutcome(s, q, timeout).Blocked? then pc.Acquiring? && pc.sem == q else pc.User?
      case DoRetry =>
        if RetryOutcome(s).Blocked? then pc == s.tasks[t].pc else pc.User?
      case DoRelease(q) => pc == Releasing(q)
      case DoWake => pc.User?
      case _ => pc == s.tasks[t].pc
  }

  ghost predicate Effect(s: State, a: Action, s': State)
    requires Enabled(s, a)
  {
    (forall q :: q in s.sems ==> q in s'.sems && s'.sems[q] == SemAfter(s, a, q)) &&
    (forall t :: t in s.tasks ==> t in s'.tasks && PcAfter(s, a, t, s'.tasks[t].pc)) &&
    (forall t :: t in s'.tasks && t !in s.tasks ==> s'.tasks[t].pc.User?) &&
    (forall q :: q in s'.sems && q !in s.sems ==>
       a.DoInitSemaphore? && a.q == q && s'.sems[q] == Semaphore(Int8(a.count), a.byPriority, Int8(a.count), 0, 0))
  }

  lemma QuietEffect(s: State, a: Action, s': State)
    requires Enabled(s, a) && OutsideSync(a) && Typed(s') && Quiet(s, s')
    ensures Effect(s, a, s')
  {
  }

  lemma BlocksEffect(s: State, a: Action, s': State, q: SemId)
    requires Enabled(s, a) && Typed(s') && s.current.Some? && Blocks(s, s', s.current.value, q)
    requires (a.DoAcquire? && a.q == q && AcquireOutcome(s, q, a.timeout).Blocked?) ||
             (a.DoRetry? && s.tasks[s.current.value].pc.sem == q && RetryOutcome(s).Blocked?)
    ensures Effect(s, a, s')
  {
    hide AcquireOutcome, RetryOutcome, Int8;
  }

  lemma RetryBlocks(s: State)
    requires Inv(s) && s.current.Some? && s.tasks[s.current.value].pc.Acquiring? && RetryOutcome(s).Blocked?
    ensures Blocks(s, Retry(s), s.current.value, s.tasks[s.current.value].pc.sem)
  {
    hide Schedule, InsertOrdered, Delete, Priorities, ReadyOk, WaitingOk, BitsOk, AlarmsOk;
    var s1 := Enqueue(s, s.tasks[s.current.value].pc.sem);
    ScheduleOnlyWakes(s1);
    ScheduleFrame(s1);
  }

  lemma InitEffect(s: State, a: Action)
    requires Enabled(s, a) && a.DoInitSemaphore?
    ensures Effect(s, a, Step(s, a))
  {
  }

  lemma AcquireEffect(s: State, a: Action)
    requires Inv(s) && Enabled(s, a) && a.DoAcquire?
    ensures Effect(s, a, Step(s, a))
  {
    hide Inv, Schedule, Enter, Enqueue, Blocks;
    if AcquireOutcome(s, a.q, a.timeout).Blocked? {
      AcquireBlocks(s, a.q, a.timeout);
      BlocksEffect(s, a, Acquire(s, a.q, a.timeout), a.q);
    }
  }

  lemma RetryFails(s: State)
    requires Typed(s) && s.current.Some? && s.tasks[s.current.value].pc.Acquiring? && RetryOutcome(s).Failed?
    ensures Retry(s) == s.(tasks := s.tasks[s.current.value := s.tasks[s.current.value].(pc := User)])
  {
  }

  lemma RetryTakes(s: State)
    requires Typed(s) && s.current.Some? && s.tasks[s.current.value].pc.Acquiring? && RetryOutcome(s).Acquired?
    ensures var t := s.current.value; var task := s.tasks[t];
            t in Retry(s).tasks && Retry(s).tasks == s.tasks[t := task.(alarmTime := Retry(s).tasks[t].alarmTime,
                                                                        pc := User)] &&
            Retry(s).sems == Take(s, task.pc.sem).sems
  {
    hide SetAlarm, Int8;
    AlarmRuns(s, s.current.value, 0);
  }

  lemma RetryLeaves(s: State)
    requires Typed(s) && s.current.Some? && s.tasks[s.current.value].pc.Acquiring? && !RetryOutcome(s).Blocked?
    ensures var t := s.current.value; var s', q := Retry(s), s.tasks[t].pc.sem;
            s'.tasks.Keys == s.tasks.Keys && s'.tasks[t].pc.User? &&
            (forall x :: x in s.tasks && x != t ==> s'.tasks[x] == s.tasks[x]) &&
            s'.sems == if RetryOutcome(s).Acquired? then Take(s, q).sems else s.sems
  {
    hide Retry, Take;
    if RetryOutcome(s).Acquired? {
      RetryTakes(s);
    } else {
      RetryFails(s);
    }
  }

  lemma RetryEffect(s: State, a: Action)
    requires Inv(s) && Enabled(s, a) && a.DoRetry?
    ensures Effect(s, a, Step(s, a))
  {
    hide Inv, Retry, Blocks;
    if RetryOutcome(s).Blocked? {
      RetryBlocks(s);
      BlocksEffect(s, a, Retry(s), s.tasks[s.current.value].pc.sem);
    } else {
      RetryLeaves(s);
    }
  }

  lemma ReleaseEffect(s: State, a: Action)
    requires Enabled(s, a) && a.DoRelease?
    ensures Effect(s, a, Step(s, a))
  {
  }

  lemma WakeEffect(s: State, a: Action)
    requires Inv(s) && Enabled(s, a) && a.DoWake?
    ensures Effect(s, a, Step(s, a))
  {
    hide Inv, Wake, Woken;
    WakeWakesOne(s);
  }

  /** Every step moves only the running task in its code, and changes a semaphore only when it
      acquires or releases it. */
  lemma StepEffect(s: State, a: Action)
    requires Inv(s) && Enabled(s, a) && !(a.DoTick? && TickHits(s))
    ensures Effect(s, a, Step(s, a))
  {
    hide Inv, TickHits, Effect, Step, Quiet;
    if OutsideSync(a) {
      OutsideIsQuiet(s, a);
      QuietEffect(s, a, Step(s, a));
    } else if a.DoInitSemaphore? {
      InitEffect(s, a);
    } else if a.DoAcquire? {
      AcquireEffect(s, a);
    } else if a.DoRetry? {
      RetryEffect(s, a);
    } else if a.DoRelease? {
      ReleaseEffect(s, a);
    } else {
      WakeEffect(s, a);
    }
  }

  lemma TakenConserved(sem: Semaphore)
    requires Conserved(sem) && sem.count > 0
    ensures Conserved(sem.(count := Int8(sem.count - 1), acquired := sem.acquired + 1))
  {
  }

  /** The count of an `int8s_t` stays right through a release if and only if it is below 127. */
  lemma ReleasedConserved(sem: Semaphore)
    requires Conserved(sem)
    ensures Conserved(sem.(count := Int8(sem.count + 1), released := sem.released + 1)) <==> sem.count < 127
  {
  }

  /** A count stays what was put in less what was taken out, whatever else happens. */
  lemma CountConserved(s: State, a: Action, q: SemId)
    requires Inv(s) && Enabled(s, a) && !(a.DoTick? && TickHits(s)) && q in s.sems && Conserved(s.sems[q])
    ensures q in Step(s, a).sems && Conserved(Step(s, a).sems[q])
  {
    hide Inv, TickHits, Step, Conserved, Int8, PcAfter;
    StepEffect(s, a);
    if Takes(s, a, q) {
      TakenConserved(s.sems[q]);
    } else if a == DoRelease(q) {
      ReleasedConserved(s.sems[q]);
    }
  }

  /** Semaphore safety in every run from boot: in every state, the count of every semaphore is its
      initial value plus the releases minus the successful acquires, and not negative. */
  lemma {:induction false} CountsConserved(run: seq<State>, acts: seq<Action>, n: nat)
    requires IsRun(run, acts) && n < |run|
    requires forall i :: 0 <= i < n && acts[i].DoTick? ==> !TickHits(run[i])
    ensures forall q :: q in run[n].sems ==> Conserved(run[n].sems[q])
  {
    hide Inv, TickHits, Step, Conserved;
    if n == 0 {
      BootSync();
    } else {
      CountsConserved(run, acts, n - 1);
      RunKeeps(run, acts, n - 1);
      var s, a := run[n - 1], acts[n - 1];
      assert Follows(s, a, run[n]);
      forall q | q in run[n].sems
        ensures Conserved(run[n].sems[q])
      {
        if q in s.sems {
          CountConserved(s, a, q);
        } else {
          NewConserved(s, a, q);
        }
      }
    }
  }

  lemma NewConserved(s: State, a: Action, q: SemId)
    requires Inv(s) && Enabled(s, a) && !(a.DoTick? && TickHits(s)) && q in Step(s, a).sems && q !in s.sems
    ensures Conserved(Step(s, a).sems[q])
  {
    hide Inv, TickHits, Step;
    StepEffect(s, a);
  }
}
