/**
  What every run of the kernel keeps: each task is in exactly one place, the bitmap agrees with
  the queues, the alarms agree with the sleepers, and the running task is never outranked.
 */
module KernelInvariant {
  import opened Queues
  import opened ReadyBitmap
  import opened KernelState

  // ----- where the tasks are

  /** The ready queues hold exactly the READY tasks, each once and in the queue of its priority. */
  ghost predicate ReadyOk(tasks: map<TaskId, Task>, ready: seq<seq<TaskId>>, moving: set<TaskId>) {
    |ready| == LOWEST_PRIORITY + 1 &&
    (forall p :: 0 <= p <= LOWEST_PRIORITY ==> Distinct(ready[p])) &&
    (forall p, t :: 0 <= p <= LOWEST_PRIORITY && t in ready[p] ==>
       t !in moving && t in tasks && tasks[t].status == READY && tasks[t].priority == p) &&
    (forall t :: t in tasks && t !in moving && tasks[t].status == READY ==>
       tasks[t].priority <= LOWEST_PRIORITY && t in ready[tasks[t].priority])
  }

  /** The wait queues hold exactly the tasks blocked on them, each once and owned by its queue. */
  ghost predicate WaitingOk(tasks: map<TaskId, Task>, waiting: map<SemId, seq<TaskId>>, moving: set<TaskId>) {
    (forall q :: q in waiting ==> Distinct(waiting[q])) &&
    (forall q, t :: q in waiting && t in waiting[q] ==>
       t !in moving && t in tasks && tasks[t].status == WAITING && tasks[t].owner == Some(q) &&
       tasks[t].pc.Acquiring? && tasks[t].pc.sem == q) &&
    (forall t :: t in tasks && t !in moving && tasks[t].status == WAITING && tasks[t].pc.Acquiring? ==>
       tasks[t].pc.sem in waiting && t in waiting[tasks[t].pc.sem])
  }

  /** A priority is marked exactly when its queue is not empty. */
  ghost predicate BitsOk(ready: seq<seq<TaskId>>, bits: set<nat>) {
    |ready| == LOWEST_PRIORITY + 1 &&
    forall p :: p in bits <==> 0 <= p <= LOWEST_PRIORITY && ready[p] != []
  }

  /** Every task but those `moving` between two places is where its status says. */
  ghost predicate Placed(s: State, moving: set<TaskId>) {
    ReadyOk(s.tasks, s.ready, moving) && WaitingOk(s.tasks, s.waiting, moving) && BitsOk(s.ready, s.bits)
  }

  /** A task that is on no list may be picked up. */
  lemma PickUp(s: State, t: TaskId)
    requires Placed(s, {}) && t in s.tasks
    requires s.tasks[t].status in {RUNNING, SUSPENDED} || (s.tasks[t].status == WAITING && !s.tasks[t].pc.Acquiring?)
    ensures Placed(s, {t})
  {
  }

  lemma PickFromReady(s: State, t: TaskId)
    requires Typed(s) && Placed(s, {}) && t in s.tasks && s.tasks[t].status == READY
    ensures Placed(LeaveReady(s, t), {t})
  {
    ReadyAfterLeaving(s, t);
    WaitingIgnores(s, t);
  }

  lemma ReadyAfterLeaving(s: State, t: TaskId)
    requires Typed(s) && ReadyOk(s.tasks, s.ready, {}) && BitsOk(s.ready, s.bits)
    requires t in s.tasks && s.tasks[t].status == READY
    ensures var s' := LeaveReady(s, t); ReadyOk(s'.tasks, s'.ready, {t}) && BitsOk(s'.ready, s'.bits)
  {
  }

  lemma WaitingIgnores(s: State, t: TaskId)
    requires WaitingOk(s.tasks, s.waiting, {}) && t in s.tasks && s.tasks[t].status != WAITING
    ensures WaitingOk(s.tasks, s.waiting, {t})
  {
  }

  lemma ReadyIgnores(s: State, t: TaskId)
    requires ReadyOk(s.tasks, s.ready, {}) && t in s.tasks && s.tasks[t].status != READY
    ensures ReadyOk(s.tasks, s.ready, {t})
  {
  }

  lemma PutReady(s: State, t: TaskId)
    requires Typed(s) && Placed(s, {t}) && t in s.tasks
    ensures Placed(MakeReady(s, t), {})
  {
    ReadyAfterPut(s, t);
    WaitingAfterPutReady(s, t);
  }

  lemma ReadyAfterPut(s: State, t: TaskId)
    requires Typed(s) && ReadyOk(s.tasks, s.ready, {t}) && BitsOk(s.ready, s.bits) && t in s.tasks
    ensures var s' := MakeReady(s, t); ReadyOk(s'.tasks, s'.ready, {}) && BitsOk(s'.ready, s'.bits)
  {
  }

  lemma WaitingAfterPutReady(s: State, t: TaskId)
    requires Typed(s) && WaitingOk(s.tasks, s.waiting, {t}) && t in s.tasks
    ensures WaitingOk(MakeReady(s, t).tasks, s.waiting, {})
  {
  }

  /** A moving task may be rewritten. */
  lemma Rewrite(s: State, t: TaskId, task: Task)
    requires Typed(s) && Placed(s, {t}) && t in s.tasks && TypedTask(s, task)
    ensures Placed(With(s, t, task), {t})
  {
  }

  /** It may stay off the lists when its status says so. */
  lemma PutDown(s: State, t: TaskId)
    requires Placed(s, {t}) && t in s.tasks
    requires s.tasks[t].status in {RUNNING, SUSPENDED} || (s.tasks[t].status == WAITING && s.tasks[t].pc.User?)
    ensures Placed(s, {})
  {
  }

  lemma PutDownAs(s: State, t: TaskId, status: Status)
    requires Typed(s) && Placed(s, {t}) && t in s.tasks
    requires status in {RUNNING, SUSPENDED} || (status == WAITING && s.tasks[t].pc.User?)
    ensures Placed(SetStatus(s, t, status), {})
  {
    Rewrite(s, t, s.tasks[t].(status := status));
    PutDown(SetStatus(s, t, status), t);
  }

  lemma PutWaiting(s: State, q: SemId)
    requires Typed(s) && s.current.Some? && q in s.sems && Placed(s, {s.current.value})
    requires s.tasks[s.current.value].pc.Acquiring? && s.tasks[s.current.value].pc.sem == q
    ensures Placed(Enqueue(s, q), {})
  {
    WaitingAfterPut(s, q);
  }

  lemma WaitingAfterPut(s: State, q: SemId)
    requires Typed(s) && s.current.Some? && q in s.sems && WaitingOk(s.tasks, s.waiting, {s.current.value})
    requires s.tasks[s.current.value].pc.Acquiring? && s.tasks[s.current.value].pc.sem == q
    ensures var s' := Enqueue(s, q); WaitingOk(s'.tasks, s'.waiting, {})
  {
    hide InsertOrdered, Priorities;
  }

  lemma PickFromWaiting(s: State, q: SemId)
    requires Placed(s, {}) && q in s.waiting && s.waiting[q] != []
    ensures Placed(s.(waiting := s.waiting[q := Delete(s.waiting[q], s.waiting[q][0])]), {s.waiting[q][0]})
  {
    var t := s.waiting[q][0];
    assert t in s.waiting[q];
    ReadyIgnores(s, t);
  }

  /** Unlinking takes a task off wherever it is; the bitmap still agrees when the task is not
      alone in a ready queue. */
  lemma PickFromAnywhere(s: State, t: TaskId)
    requires Typed(s) && Placed(s, {}) && t in s.tasks
    requires s.tasks[t].status == READY ==> s.ready[s.tasks[t].priority][0] != t
    ensures Placed(Unlink(s, t), {t})
  {
    ReadyAfterUnlink(s, t);
    WaitingAfterUnlink(s, t);
  }

  lemma WaitingAfterUnlink(s: State, t: TaskId)
    requires Typed(s) && WaitingOk(s.tasks, s.waiting, {}) && t in s.tasks
    ensures WaitingOk(s.tasks, Unlink(s, t).waiting, {t})
  {
    hide ReadyOk, BitsOk;
    var waiting := Unlink(s, t).waiting;
    forall q | q in waiting
      ensures q in s.waiting && Distinct(waiting[q]) && t !in waiting[q] &&
              forall x :: x != t ==> (x in waiting[q] <==> x in s.waiting[q])
    {
    }
  }

  lemma ReadyAfterUnlink(s: State, t: TaskId)
    requires Typed(s) && ReadyOk(s.tasks, s.ready, {}) && BitsOk(s.ready, s.bits) && t in s.tasks
    requires s.tasks[t].status == READY ==> s.ready[s.tasks[t].priority][0] != t
    ensures var s' := Unlink(s, t); ReadyOk(s'.tasks, s'.ready, {t}) && BitsOk(s'.ready, s'.bits)
  {
  }

  // ----- alarms and the running task

  /** An armed alarm belongs to a task that sleeps or is in a timed acquire; when that task has
      been woken already, the owner it waited under is still recorded. */
  ghost predicate ArmedOk(task: Task) {
    match task.pc
    case User => task.status == WAITING
    case Acquiring(q, timeout, deadline) => timeout > 0 && task.alarmTime == deadline && task.owner == Some(q)
    case Releasing(_) => false
  }

  /** The task is in a timed acquire that its deadline will end: it is blocked, or its deadline
      is still ahead. */
  ghost predicate Expects(task: Task, tick: nat) {
    task.pc.Acquiring? && task.pc.timeout > 0 && (task.status == WAITING || tick < task.pc.deadline)
  }

  /** The alarm queue is sorted, holds no alarm due before `now`, and holds the alarm of every
      task that expects one. */
  ghost predicate AlarmsOk(tasks: map<TaskId, Task>, alarms: seq<TaskId>, tick: nat, now: nat) {
    Distinct(alarms) && Sorted(alarms, AlarmTimes(tasks)) &&
    (forall t :: t in alarms ==> t in tasks && ArmedOk(tasks[t]) && now <= tasks[t].alarmTime) &&
    (forall t :: t in tasks && Expects(tasks[t], tick) ==> t in alarms)
  }

  /** At most the current task is RUNNING, the idle task can always run, and a task is WAITING
      only in `eos_sleep` or `eos_acquire_semaphore`. */
  ghost predicate RunningOk(tasks: map<TaskId, Task>, current: Option<TaskId>) {
    (forall t :: t in tasks && tasks[t].status == RUNNING ==> current == Some(t)) &&
    (forall t :: t in tasks && tasks[t].status == WAITING ==> !tasks[t].pc.Releasing?) &&
    IDLE in tasks && tasks[IDLE].status in {READY, RUNNING} && tasks[IDLE].pc.User?
  }

  /** No READY task outranks the current one, and the current one is RUNNING. */
  ghost predicate Undisturbed(tasks: map<TaskId, Task>, current: Option<TaskId>) {
    current.Some? && current.value in tasks && tasks[current.value].status == RUNNING &&
    forall t :: t in tasks && tasks[t].status == READY ==> tasks[current.value].priority <= tasks[t].priority
  }

  /** What holds even between the steps of a call. */
  ghost predicate Core(s: State, now: nat) {
    Typed(s) && !s.faulted && s.tick < WORD && Placed(s, {}) &&
    AlarmsOk(s.tasks, s.alarms, s.tick, now) && RunningOk(s.tasks, s.current)
  }

  /** What holds whenever a call has returned or switched: a task inside an acquire never runs
      with the scheduler locked, and with it unlocked nobody is outranked. */
  ghost predicate Inv(s: State) {
    Core(s, s.tick + 1) &&
    (s.current.Some? ==> s.tasks[s.current.value].status == RUNNING) &&
    (s.locked && s.current.Some? ==> !s.tasks[s.current.value].pc.Acquiring?) &&
    (!s.locked ==> Undisturbed(s.tasks, s.current))
  }

  /** The two task tables agree on everything the alarms depend on. */
  ghost predicate SameSleepers(tasks: map<TaskId, Task>, tasks': map<TaskId, Task>) {
    tasks'.Keys == tasks.Keys &&
    forall t :: t in tasks ==>
      tasks'[t].pc == tasks[t].pc && tasks'[t].owner == tasks[t].owner &&
      tasks'[t].alarmTime == tasks[t].alarmTime &&
      (tasks'[t].status == WAITING <==> tasks[t].status == WAITING)
  }

  lemma AlarmsFrame(tasks: map<TaskId, Task>, tasks': map<TaskId, Task>, alarms: seq<TaskId>, tick: nat, now: nat)
    requires AlarmsOk(tasks, alarms, tick, now) && SameSleepers(tasks, tasks')
    ensures AlarmsOk(tasks', alarms, tick, now)
  {
    SortedBySame(alarms, AlarmTimes(tasks), AlarmTimes(tasks'));
  }

  // ----- the scheduler

  lemma RequeuePlaced(s: State)
    requires Typed(s) && Placed(s, {})
    ensures Placed(Requeue(s), {})
  {
    if s.current.Some? && s.tasks[s.current.value].status == RUNNING {
      PickUp(s, s.current.value);
      PutReady(s, s.current.value);
    }
  }

  lemma RequeueRunning(s: State)
    requires Typed(s) && RunningOk(s.tasks, s.current)
    ensures RunningOk(Requeue(s).tasks, s.current)
    ensures forall t :: t in Requeue(s).tasks ==> Requeue(s).tasks[t].status != RUNNING
  {
  }

  lemma RequeueSleepers(s: State)
    requires Typed(s)
    ensures SameSleepers(s.tasks, Requeue(s).tasks)
  {
  }

  lemma RunPlaced(s: State, t: TaskId)
    requires Typed(s) && Placed(s, {}) && t in s.tasks && s.tasks[t].status == READY
    ensures Placed(Run(s, t), {})
  {
    PickFromReady(s, t);
    PutDownAs(LeaveReady(s, t), t, RUNNING);
  }

  lemma RunRunning(s: State, t: TaskId)
    requires Typed(s) && RunningOk(s.tasks, s.current) && t in s.tasks && s.tasks[t].status == READY
    requires forall t :: t in s.tasks ==> s.tasks[t].status != RUNNING
    ensures RunningOk(Run(s, t).tasks, Run(s, t).current) && SameSleepers(s.tasks, Run(s, t).tasks)
  {
  }

  /** There is always a task to dispatch, because the idle task is ready. */
  lemma DispatchFinds(s: State)
    requires Typed(s) && ReadyOk(s.tasks, s.ready, {}) && BitsOk(s.ready, s.bits)
    requires IDLE in s.tasks && s.tasks[IDLE].status == READY
    ensures var p := Highest(s.bits); p in s.bits && s.ready[p] != [] && s.tasks[s.ready[p][0]].status == READY
  {
    assert IDLE in s.ready[s.tasks[IDLE].priority];
    var p := Highest(s.bits);
    assert s.ready[p][0] in s.ready[p];
  }

  lemma DispatchHighest(s: State)
    requires Typed(s) && ReadyOk(s.tasks, s.ready, {}) && BitsOk(s.ready, s.bits)
    requires s.ready[Highest(s.bits)] != []
    ensures Undisturbed(Dispatch(s).tasks, Dispatch(s).current)
  {
    var p, s' := Highest(s.bits), Dispatch(s);
    assert s.ready[p][0] in s.ready[p];
    forall t | t in s'.tasks && s'.tasks[t].status == READY
      ensures p <= s'.tasks[t].priority
    {
      assert t in s.ready[s.tasks[t].priority];
      assert s.tasks[t].priority in s.bits;
    }
  }

  /** `eos_schedule` finds a task in every state, and leaves nobody outranked. */
  lemma ScheduleKeeps(s: State, now: nat)
    requires Core(s, now)
    ensures Core(Schedule(s), now)
    ensures !s.locked ==> Undisturbed(Schedule(s).tasks, Schedule(s).current)
  {
    if !s.locked {
      var s1 := Requeue(s);
      RequeuePlaced(s);
      RequeueRunning(s);
      RequeueSleepers(s);
      AlarmsFrame(s.tasks, s1.tasks, s.alarms, s.tick, now);
      DispatchFinds(s1);
      var t := s1.ready[Highest(s1.bits)][0];
      RunPlaced(s1, t);
      RunRunning(s1, t);
      DispatchHighest(s1);
      AlarmsFrame(s1.tasks, Run(s1, t).tasks, s.alarms, s.tick, now);
    }
  }

  /** A task keeps everything but its status, does not fall asleep, and stays ready when it is. */
  ghost predicate OnlyWoken(tasks: map<TaskId, Task>, tasks': map<TaskId, Task>) {
    tasks'.Keys == tasks.Keys &&
    forall t :: t in tasks ==>
      tasks'[t] == tasks[t].(status := tasks'[t].status) &&
      (tasks'[t].status == WAITING ==> tasks[t].status == WAITING) &&
      (tasks[t].status in {READY, RUNNING} ==> tasks'[t].status in {READY, RUNNING})
  }

  lemma DispatchOnlyWakes(s: State)
    requires Typed(s)
    ensures OnlyWoken(s.tasks, Dispatch(s).tasks)
  {
    hide Delete;
  }

  /** `eos_schedule` puts no task to sleep and changes nothing else of it. */
  lemma ScheduleOnlyWakes(s: State)
    requires Typed(s)
    ensures OnlyWoken(s.tasks, Schedule(s).tasks)
  {
    hide Dispatch;
    DispatchOnlyWakes(Requeue(s));
  }

  /** It changes nothing but the ready queues, who runs, and the status of tasks. */
  lemma ScheduleFrame(s: State)
    requires Typed(s)
    ensures var s' := Schedule(s);
            s' == s.(tasks := s'.tasks, ready := s'.ready, bits := s'.bits, current := s'.current,
                     faulted := s'.faulted)
  {
  }
}
