/**
  The kernel on the heap: task control blocks, semaphores and alarms with their embedded list
  nodes, the 64 ready queues, the ready bitmap and the system timer.  The ghost field `st` is the
  state of `KernelState` this heap stands for; every method is the code of one C function and
  changes `st` by the function of the same name.
 */
module Kernel {
  import opened Queues
  import opened ReadyBitmap
  import opened IntrusiveList
  import opened KernelState
  import KI = KernelInvariant
  import KS = KernelSteps
  import KR = KernelRuns

  class Alarm {
    var timeout: nat
    const queueNode: Node

    constructor (owner: TaskId)
      ensures timeout == 0 && fresh(queueNode) && queueNode.pnode == owner
      ensures queueNode.list == null && queueNode.next == null && queueNode.prev == null && queueNode.orderVal == 0
    {
      timeout := 0;
      queueNode := new Node(owner);
    }
  }

  /** `eos_tcb_t`; `pc` is what the task's stack holds: where it is in a kernel call, and the call's
      local variables. */
  class Tcb {
    const id: TaskId
    var status: Status
    var priority: nat
    var period: nat
    var wakeupTime: nat
    var waitQueueOwner: Head?
    const queueNode: Node
    const alarm: Alarm
    var pc: Pc

    /** A zeroed control block; a status of 0 is none of the four and is not looked at. */
    constructor (id: TaskId)
      ensures this.id == id && fresh(queueNode) && fresh(alarm) && fresh(alarm.queueNode) &&
              queueNode != alarm.queueNode
      ensures queueNode.pnode == id && queueNode.list == null && queueNode.next == null && queueNode.prev == null
      ensures alarm.queueNode.pnode == id && alarm.queueNode.list == null
      ensures alarm.queueNode.next == null && alarm.queueNode.prev == null
      ensures alarm.timeout == 0 && alarm.queueNode.orderVal == 0 && waitQueueOwner == null && pc == User
      ensures status == SUSPENDED
    {
      this.id := id;
      status, priority, period, wakeupTime, waitQueueOwner, pc := SUSPENDED, 0, 0, 0, null, User;
      queueNode := new Node(id);
      alarm := new Alarm(id);
    }

    /** The fields `eos_create_task` writes. */
    method Init(priority: nat)
      modifies this`priority, this`period, this`wakeupTime, queueNode`orderVal
      ensures this.priority == priority && period == 0 && wakeupTime == 0 && queueNode.orderVal == priority
    {
      this.priority := priority;
      period := 0;
      wakeupTime := 0;
      queueNode.orderVal := this.priority;
    }
  }

  /** `eos_semaphore_t`, with its history. */
  class SemaphoreBlock {
    const id: SemId
    var count: int
    const waitQueue: Head
    const byPriority: bool
    ghost var history: Semaphore

    constructor (id: SemId, count: int, byPriority: bool)
      ensures this.id == id && this.count == Int8(count) && this.byPriority == byPriority
      ensures fresh(waitQueue) && waitQueue.name == LOWEST_PRIORITY + 1 + id && waitQueue.first == null &&
              waitQueue.nodes == []
      ensures history == Semaphore(Int8(count), byPriority, Int8(count), 0, 0)
    {
      this.id, this.count, this.byPriority := id, Int8(count), byPriority;
      waitQueue := new Head(LOWEST_PRIORITY + 1 + id);
      history := Semaphore(Int8(count), byPriority, Int8(count), 0, 0);
    }
  }

  ghost function ReadyLast(s: State, p: nat, t: TaskId): (s': State)
    requires Typed(s) && t in s.tasks && p <= LOWEST_PRIORITY
    ensures Typed(s')
  {
    s.(ready := s.ready[p := s.ready[p] + [t]])
  }

  ghost function WithPriority(s: State, t: TaskId, priority: nat): (s': State)
    requires Typed(s) && t in s.tasks && priority <= LOWEST_PRIORITY
    ensures Typed(s')
  {
    With(s, t, s.tasks[t].(priority := priority))
  }

  ghost function WithTimes(s: State, t: TaskId, period: nat, wakeupTime: nat): (s': State)
    requires Typed(s) && t in s.tasks
    ensures Typed(s')
  {
    With(s, t, s.tasks[t].(period := period, wakeupTime := wakeupTime))
  }

  ghost function WithWakeupTime(s: State, t: TaskId, wakeupTime: nat): (s': State)
    requires Typed(s) && t in s.tasks
    ensures Typed(s')
  {
    With(s, t, s.tasks[t].(wakeupTime := wakeupTime))
  }

  ghost function WithOwner(s: State, t: TaskId, owner: Option<SemId>): (s': State)
    requires Typed(s) && t in s.tasks && (owner.Some? ==> owner.value in s.waiting)
    ensures Typed(s')
  {
    With(s, t, s.tasks[t].(owner := owner))
  }

  /** The wait queue `q` with `t` at its tail, or at its place by priority. */
  ghost function QueuedLast(s: State, q: SemId, t: TaskId): (s': State)
    requires Typed(s) && q in s.waiting && t in s.tasks
    ensures Typed(s')
  {
    s.(waiting := s.waiting[q := s.waiting[q] + [t]])
  }

  ghost function QueuedInOrder(s: State, q: SemId, t: TaskId): (s': State)
    requires Typed(s) && q in s.waiting && t in s.tasks
    ensures Typed(s')
  {
    s.(waiting := s.waiting[q := InsertOrdered(s.waiting[q], t, Priorities(s.tasks))])
  }

  ghost function Disarmed(s: State, t: TaskId): (s': State)
    requires Typed(s)
    ensures Typed(s')
  {
    s.(alarms := Delete(s.alarms, t))
  }

  ghost function WithDeadline(s: State, t: TaskId, deadline: nat): (s': State)
    requires Typed(s) && t in s.tasks
    ensures Typed(s')
  {
    With(s, t, s.tasks[t].(alarmTime := deadline))
  }

  ghost function Armed(s: State, t: TaskId): (s': State)
    requires Typed(s) && t in s.tasks
    ensures Typed(s')
  {
    s.(alarms := InsertOrdered(s.alarms, t, AlarmTimes(s.tasks)))
  }

  class Kernel {
    const readyQueue: seq<Head>
    const index: ReadyIndex
    const alarmQueue: Head
    var current: Tcb?
    var locked: bool
    var tick: nat
    var tcbs: map<TaskId, Tcb>
    var sems: map<SemId, SemaphoreBlock>

    ghost var st: State
    ghost var tcbRepr: set<Tcb>
    ghost var semRepr: set<SemaphoreBlock>
    ghost var queueNodes: set<Node>
    ghost var queueHeads: set<Head>
    ghost var alarmNodes: set<Node>
    ghost var alarmRepr: set<Alarm>

    /** Addresses lead where they should, and no object is part of two others. */
    ghost predicate Wired()
      reads this`tcbs, this`sems, this`tcbRepr, this`semRepr, this`queueNodes, this`queueHeads, this`alarmNodes,
            this`alarmRepr
    {
      |readyQueue| == LOWEST_PRIORITY + 1 && queueNodes !! alarmNodes && alarmQueue !in queueHeads &&
      (forall p :: 0 <= p <= LOWEST_PRIORITY ==> readyQueue[p] in queueHeads && readyQueue[p].name == p) &&
      (forall q :: q in sems ==> sems[q].id == q && sems[q] in semRepr && sems[q].waitQueue in queueHeads &&
                                 sems[q].waitQueue.name == LOWEST_PRIORITY + 1 + q) &&
      (forall m :: m in semRepr ==> m.id in sems && sems[m.id] == m) &&
      (forall h :: h in queueHeads ==>
         if h.name <= LOWEST_PRIORITY then readyQueue[h.name] == h
         else h.name - LOWEST_PRIORITY - 1 in sems && sems[h.name - LOWEST_PRIORITY - 1].waitQueue == h) &&
      (forall t :: t in tcbs ==>
         tcbs[t].id == t && tcbs[t] in tcbRepr &&
         tcbs[t].queueNode in queueNodes && tcbs[t].queueNode.pnode == t &&
         tcbs[t].alarm in alarmRepr && tcbs[t].alarm.queueNode in alarmNodes && tcbs[t].alarm.queueNode.pnode == t) &&
      (forall b :: b in tcbRepr ==> b.id in tcbs && tcbs[b.id] == b) &&
      (forall n :: n in queueNodes ==> n.pnode in tcbs && tcbs[n.pnode].queueNode == n) &&
      (forall n :: n in alarmNodes ==> n.pnode in tcbs && tcbs[n.pnode].alarm.queueNode == n)
    }

    ghost predicate QueuesMatch(ready: seq<seq<TaskId>>, waiting: map<SemId, seq<TaskId>>)
      reads this`tcbs, this`sems, this`tcbRepr, this`semRepr, this`queueNodes, this`queueHeads, this`alarmNodes,
            this`alarmRepr
      reads queueHeads`nodes
    {
      Wired() && |ready| == LOWEST_PRIORITY + 1 && waiting.Keys == sems.Keys &&
      (forall p :: 0 <= p <= LOWEST_PRIORITY ==> Names(readyQueue[p].nodes) == ready[p]) &&
      (forall q :: q in sems ==> Names(sems[q].waitQueue.nodes) == waiting[q])
    }

    ghost predicate TaskMatches(b: Tcb, task: Task)
      reads this`sems, b, b.queueNode`orderVal, b.alarm, b.alarm.queueNode`orderVal
    {
      b.status == task.status && b.priority == task.priority && b.period == task.period &&
      b.wakeupTime == task.wakeupTime && b.pc == task.pc && b.queueNode.orderVal == task.priority &&
      b.alarm.timeout == task.alarmTime && b.alarm.queueNode.orderVal == task.alarmTime &&
      (if task.owner == None then b.waitQueueOwner == null
       else task.owner.value in sems && b.waitQueueOwner == sems[task.owner.value].waitQueue)
    }

    ghost predicate TasksMatch(tasks: map<TaskId, Task>)
      reads this`tcbs, this`sems, this`tcbRepr, this`semRepr, this`queueNodes, this`queueHeads, this`alarmNodes,
            this`alarmRepr
      reads tcbRepr, queueNodes`orderVal, alarmNodes`orderVal, alarmRepr
    {
      Wired() && tasks.Keys == tcbs.Keys && forall t :: t in tcbs ==> TaskMatches(tcbs[t], tasks[t])
    }

    ghost predicate SemsMatch(blocks: map<SemId, Semaphore>)
      reads this`tcbs, this`sems, this`tcbRepr, this`semRepr, this`queueNodes, this`queueHeads, this`alarmNodes,
            this`alarmRepr
      reads semRepr
    {
      Wired() && blocks.Keys == sems.Keys &&
      forall q :: q in sems ==>
        blocks[q] == sems[q].history && blocks[q].count == sems[q].count && blocks[q].byPriority == sems[q].byPriority
    }

    ghost predicate BitsMatch(bits: set<nat>)
      reads index, index.table
    {
      index.Valid() && index.Priorities() == bits
    }

    ghost predicate AlarmsMatch(alarms: seq<TaskId>)
      reads alarmQueue`nodes
    {
      Names(alarmQueue.nodes) == alarms
    }

    ghost predicate RestMatches(now: nat, running: Option<TaskId>, lock: bool, faulted: bool)
      reads this`tcbs, this`current, this`locked, this`tick
    {
      tick == now && locked == lock && !faulted &&
      (if current == null then running == None
       else running == Some(current.id) && current.id in tcbs && tcbs[current.id] == current)
    }

    ghost predicate Valid()
      reads this, tcbRepr, semRepr, queueNodes, queueHeads, alarmNodes, alarmRepr, alarmQueue, index, index.table
    {
      Wired() && Typed(st) && Family(queueNodes, queueHeads) && Family(alarmNodes, {alarmQueue}) &&
      QueuesMatch(st.ready, st.waiting) && TasksMatch(st.tasks) && SemsMatch(st.sems) &&
      BitsMatch(st.bits) && AlarmsMatch(st.alarms) && RestMatches(st.tick, st.current, st.locked, st.faulted)
    }

    static method NewHeads() returns (heads: seq<Head>)
      ensures |heads| == LOWEST_PRIORITY + 1
      ensures forall p :: 0 <= p <= LOWEST_PRIORITY ==>
        fresh(heads[p]) && heads[p].name == p && heads[p].first == null && heads[p].nodes == []
    {
      heads := [];
      var i := 0;
      while i <= LOWEST_PRIORITY
        invariant 0 <= i <= LOWEST_PRIORITY + 1 && |heads| == i
        invariant forall p :: 0 <= p < i ==>
          fresh(heads[p]) && heads[p].name == p && heads[p].first == null && heads[p].nodes == []
      {
        var h := new Head(i);
        heads := heads + [h];
        i := i + 1;
      }
    }

    /** `_os_init_scheduler`, `_os_init_task` and `_os_init_timer`, with the scheduler locked. */
    constructor ()
      ensures Valid() && st == Empty() && fresh(queueHeads) && fresh(index) && fresh(index.table)
      ensures tcbs == map[] && tcbRepr == {} && semRepr == {} && queueNodes == {} && alarmNodes == {} && alarmRepr == {}
      ensures fresh(alarmQueue)
    {
      hide Valid;
      var heads := NewHeads();
      readyQueue := heads;
      index := new ReadyIndex();
      alarmQueue := new Head(0);
      current, locked, tick, tcbs, sems := null, true, 0, map[], map[];
      st := Empty();
      tcbRepr, semRepr, queueNodes, alarmNodes, alarmRepr := {}, {}, {}, {}, {};
      queueHeads := set p | 0 <= p <= LOWEST_PRIORITY :: heads[p];
      new;
      NothingThere();
    }

    lemma NothingThere()
      requires |readyQueue| == LOWEST_PRIORITY + 1 && tcbs == map[] && sems == map[] && current == null && locked &&
               tick == 0
      requires forall p :: 0 <= p <= LOWEST_PRIORITY ==>
        readyQueue[p].name == p && readyQueue[p].first == null && readyQueue[p].nodes == []
      requires index.Valid() && index.Priorities() == {} && alarmQueue.first == null && alarmQueue.nodes == []
      requires queueNodes == {} && alarmNodes == {} && tcbRepr == {} && semRepr == {} && alarmRepr == {} &&
               st == Empty()
      requires queueHeads == (set p | 0 <= p <= LOWEST_PRIORITY :: readyQueue[p]) && alarmQueue !in queueHeads
      ensures Valid()
    {
    }

    /** A task that is on none of the state's lists has a detached node. */
    lemma NotListed(t: Tcb)
      requires Wired() && QueuesMatch(st.ready, st.waiting) && Numbered(queueNodes, queueHeads)
      requires t in tcbRepr && KI.Placed(st, {t.id})
      ensures t.queueNode.list == null
    {
    }

    lemma Sees(t: Tcb)
      requires Valid() && t in tcbRepr
      ensures t.id in st.tasks && TaskMatches(t, st.tasks[t.id]) && |readyQueue| == LOWEST_PRIORITY + 1
      ensures t.priority <= LOWEST_PRIORITY && readyQueue[t.priority] in queueHeads &&
              readyQueue[t.priority].name == t.priority
      ensures t.queueNode in queueNodes && t.queueNode.pnode == t.id
      ensures t.alarm in alarmRepr && t.alarm.queueNode in alarmNodes && t.alarm.queueNode.pnode == t.id
    {
      hide Family, QueuesMatch, SemsMatch, BitsMatch, AlarmsMatch, RestMatches;
    }

    lemma Known(t: Tcb)
      requires Valid() && t in tcbRepr
      ensures t.id in tcbs && tcbs[t.id] == t && t.id in st.tasks
    {
      hide Family, QueuesMatch, SemsMatch, BitsMatch, AlarmsMatch, RestMatches;
    }

    lemma QueueNodeOf(t: Tcb)
      requires Valid() && t in tcbRepr
      ensures t.id in st.tasks && t.queueNode in queueNodes && t.queueNode.pnode == t.id
      ensures t.queueNode.orderVal == st.tasks[t.id].priority
    {
      hide Family, QueuesMatch, SemsMatch, BitsMatch, AlarmsMatch, RestMatches;
    }

    lemma AlarmOf(t: Tcb)
      requires Valid() && t in tcbRepr
      ensures t.id in st.tasks && t.alarm in alarmRepr && t.alarm.queueNode in alarmNodes &&
              t.alarm.queueNode.pnode == t.id
      ensures t.alarm.queueNode.orderVal == t.alarm.timeout == st.tasks[t.id].alarmTime
    {
      hide Family, QueuesMatch, SemsMatch, BitsMatch, AlarmsMatch, RestMatches;
    }

    lemma Apart()
      requires Wired()
      ensures queueNodes !! alarmNodes && alarmQueue !in queueHeads
    {
    }

    // ----- what validity and the kernel's invariant say about the heap

    /** Every task is in one place: the running one has a detached node, a READY one is on the ready
        queue of its own priority, a task blocked on a semaphore is on that semaphore's wait queue,
        which its owner pointer names, and all others have detached nodes. */
    lemma WhereTheNodeIs(t: Tcb)
      requires Valid() && KI.Inv(st) && t in tcbRepr
      ensures t.status == RUNNING <==> current == t
      ensures t.status == READY ==> t.priority < |readyQueue| && t.queueNode.list == readyQueue[t.priority]
      ensures t.status == WAITING && t.pc.Acquiring? ==>
        t.pc.sem in sems && t.queueNode.list == sems[t.pc.sem].waitQueue && t.waitQueueOwner == sems[t.pc.sem].waitQueue
      ensures t.status != READY && !(t.status == WAITING && t.pc.Acquiring?) ==>
        t.queueNode.list == null && t.queueNode.prev == null && t.queueNode.next == null
    {
      hide Valid, KI.Placed, KI.AlarmsOk, KI.RunningOk, KI.Undisturbed;
      Fields();
      Calm(st);
      TaskFields(t);
      QueueNodeOf(t);
      RunningIsCurrent(t);
      if t.status == READY {
        Priority(t);
        ReadyHeads();
        OnReady(t);
      } else if t.status == WAITING && t.pc.Acquiring? {
        BlockedThere(st, t.id);
        OwnerHead(t);
        OnWaiting(t, t.pc.sem);
      } else {
        KI.PickUp(st, t.id);
        Detached(t);
        Unlinked(t);
      }
    }

    lemma RunningIsCurrent(t: Tcb)
      requires Valid() && KI.Inv(st) && t in tcbRepr && t.id in st.tasks && t.status == st.tasks[t.id].status
      ensures t.status == RUNNING <==> current == t
    {
      hide Family, QueuesMatch, TasksMatch, SemsMatch, BitsMatch, AlarmsMatch, KI.Placed, KI.AlarmsOk, KI.Undisturbed;
    }

    lemma ReadyHeads()
      requires Valid()
      ensures |readyQueue| == LOWEST_PRIORITY + 1
    {
    }

    lemma Unlinked(t: Tcb)
      requires Valid() && t in tcbRepr && t.queueNode.list == null
      ensures t.queueNode.prev == null && t.queueNode.next == null
    {
      hide QueuesMatch, TasksMatch, SemsMatch, BitsMatch, AlarmsMatch, RestMatches;
    }

    /** The two-level bitmap agrees with the queues: the bit of a priority is set exactly when its
        ready queue is not empty, and a group's bit exactly when its byte is not zero. */
    lemma IndexAgrees(p: nat)
      requires Valid() && KI.Inv(st) && p <= LOWEST_PRIORITY
      ensures |readyQueue| == LOWEST_PRIORITY + 1 && index.table.Length == READY_TABLE_SIZE
      ensures Marked(index.table[..], p) <==> readyQueue[p].first != null
      ensures Bit(index.group, p / 8) <==> index.table[p / 8] != 0
    {
      hide Valid, KI.ReadyOk, KI.WaitingOk, KI.AlarmsOk, KI.RunningOk, KI.Undisturbed;
      BitsAre();
      NamesEmpty(p);
    }

    // ----- single writes, each with what it makes of `st`

    twostate lemma Appended(new head: Head, new t: Tcb)
      requires old(allocated(head) && allocated(t))
      requires old(QueuesMatch(st.ready, st.waiting)) && Wired() && unchanged(this) && head in queueHeads &&
               t in tcbRepr
      requires head.nodes == old(head.nodes) + [t.queueNode]
      requires forall h :: h in queueHeads && h != head ==> h.nodes == old(h.nodes)
      ensures head.name <= LOWEST_PRIORITY ==>
        QueuesMatch(st.ready[head.name := st.ready[head.name] + [t.id]], st.waiting)
      ensures head.name > LOWEST_PRIORITY ==> var q := head.name - LOWEST_PRIORITY - 1;
        QueuesMatch(st.ready, st.waiting[q := st.waiting[q] + [t.id]])
    {
      assert Names(head.nodes) == Names(old(head.nodes)) + [t.id];
      hide Names;
    }

    /** `_os_add_node_tail` on a ready queue */
    method AppendReady(p: nat, t: Tcb)
      requires Valid() && t in tcbRepr && p <= LOWEST_PRIORITY && KI.Placed(st, {t.id})
      modifies this`st, queueHeads, queueNodes`prev, queueNodes`next, queueNodes`list, queueNodes`idx
      ensures Valid() && t.id in old(st.tasks) && st == ReadyLast(old(st), p, t.id)
    {
      hide Family, Wired, QueuesMatch, TasksMatch, SemsMatch, BitsMatch, AlarmsMatch, RestMatches, Typed, KI.Placed,
           Numbered;
      QueueNodeOf(t);
      ReadyHead(p);
      Detached(t);
      Apart();
      ghost var s' := ReadyLast(st, p, t.id);
      AddNodeTail(readyQueue[p], t.queueNode, queueNodes, queueHeads);
      Appended(readyQueue[p], t);
      st := s';
    }

    lemma ReadyHead(p: nat)
      requires Wired() && p <= LOWEST_PRIORITY
      ensures |readyQueue| == LOWEST_PRIORITY + 1 && readyQueue[p] in queueHeads && readyQueue[p].name == p
    {
    }

    /** `_os_set_ready` */
    method Mark(p: nat)
      requires Valid() && p <= LOWEST_PRIORITY
      modifies this`st, index, index.table
      ensures Valid() && st == old(st).(bits := old(st).bits + {p})
    {
      hide Wired, Family, QueuesMatch, TasksMatch, SemsMatch, AlarmsMatch, RestMatches;
      index.SetReady(p);
      st := st.(bits := st.bits + {p});
    }

    /** The task joins the tail of the ready queue `p`, and the bit is set. */
    method Append(p: nat, t: Tcb)
      requires Valid() && t in tcbRepr && p <= LOWEST_PRIORITY && KI.Placed(st, {t.id})
      modifies this`st, queueHeads, index, index.table
      modifies queueNodes`prev, queueNodes`next, queueNodes`list, queueNodes`idx
      ensures Valid() && t.id in old(st.tasks)
      ensures st == ReadyLast(old(st), p, t.id).(bits := old(st).bits + {p})
    {
      hide Valid, KI.Placed, Typed;
      AppendReady(p, t);
      Mark(p);
    }

    lemma Priority(t: Tcb)
      requires Valid() && t in tcbRepr
      ensures Typed(st) && t.id in st.tasks && t.priority == st.tasks[t.id].priority <= LOWEST_PRIORITY
    {
      hide Family, QueuesMatch, SemsMatch, BitsMatch, AlarmsMatch, RestMatches;
    }

    lemma Detached(t: Tcb)
      requires Valid() && t in tcbRepr && KI.Placed(st, {t.id})
      ensures t.queueNode.list == null
    {
      hide QueuesMatch, TasksMatch, SemsMatch, AlarmsMatch, RestMatches, BitsMatch, Typed, KI.Placed, Numbered, Wired;
      NotListed(t);
    }

    twostate lemma TaskWritten(new t: Tcb, task: Task)
      requires old(allocated(t))
      requires unchanged(this) && old(TasksMatch(st.tasks)) && t in tcbRepr
      requires forall b :: b in tcbRepr && b != t ==> unchanged(b)
      requires forall n :: n in queueNodes && n != t.queueNode ==> n.orderVal == old(n.orderVal)
      requires forall n :: n in alarmNodes && n != t.alarm.queueNode ==> n.orderVal == old(n.orderVal)
      requires forall x :: x in alarmRepr && x != t.alarm ==> x.timeout == old(x.timeout)
      requires TaskMatches(t, task)
      ensures TasksMatch(st.tasks[t.id := task])
    {
      forall a | a in tcbs && a != t.id
        ensures TaskMatches(tcbs[a], st.tasks[a])
      {
        OtherBlock(t, a);
      }
    }

    /** Two tasks have nothing in common. */
    lemma OtherBlock(t: Tcb, a: TaskId)
      requires Wired() && t in tcbRepr && a in tcbs && a != t.id
      ensures var b := tcbs[a];
              b != t && b in tcbRepr && b.queueNode != t.queueNode && b.queueNode in queueNodes &&
              b.alarm != t.alarm && b.alarm in alarmRepr && b.alarm.queueNode != t.alarm.queueNode &&
              b.alarm.queueNode in alarmNodes
    {
    }

    method SetStatus(t: Tcb, status: Status)
      requires Valid() && t in tcbRepr
      modifies this`st, t`status
      ensures Valid() && st == KernelState.SetStatus(old(st), t.id, status)
    {
      hide Family, Wired, QueuesMatch, TasksMatch, SemsMatch, BitsMatch, AlarmsMatch, RestMatches, Typed;
      Sees(t);
      ghost var s' := KernelState.SetStatus(st, t.id, status);
      t.status := status;
      TaskWritten(t, st.tasks[t.id].(status := status));
      st := s';
    }

    /** The task joins the tail of its ready queue. */
    method MakeReady(t: Tcb)
      requires Valid() && t in tcbRepr && KI.Placed(st, {t.id})
      modifies this`st, t`status, queueHeads, index, index.table
      modifies queueNodes`prev, queueNodes`next, queueNodes`list, queueNodes`idx
      ensures Valid() && st == KernelState.MakeReady(old(st), t.id)
    {
      hide Valid, KI.Placed, Typed;
      Priority(t);
      Append(t.priority, t);
      SetStatus(t, READY);
    }

    twostate lemma Departed(new t: Tcb)
      requires old(allocated(t))
      requires old(Wired() && Numbered(queueNodes, queueHeads) && QueuesMatch(st.ready, st.waiting) && Typed(st))
      requires unchanged(this) && t in tcbRepr
      requires forall h :: h in queueHeads ==>
        h.nodes == if h == old(t.queueNode.list) then Removed(old(h.nodes), old(t.queueNode.idx)) else old(h.nodes)
      ensures QueuesMatch(Unlink(st, t.id).ready, Unlink(st, t.id).waiting)
    {
      hide Delete;
      Distinguished();
      forall p | 0 <= p <= LOWEST_PRIORITY
        ensures Names(readyQueue[p].nodes) == Delete(st.ready[p], t.id)
      {
        NamesAfter(readyQueue[p], t.queueNode, queueNodes, queueHeads);
      }
      forall q | q in sems
        ensures Names(sems[q].waitQueue.nodes) == Delete(st.waiting[q], t.id)
      {
        NamesAfter(sems[q].waitQueue, t.queueNode, queueNodes, queueHeads);
      }
    }

    lemma Distinguished()
      requires Wired()
      ensures Addressed(queueNodes) && Addressed(alarmNodes)
    {
    }

    lemma NodeOf(t: Tcb)
      requires Wired() && t in tcbRepr
      ensures t.queueNode in queueNodes
    {
    }

    lemma IsNumbered()
      requires Family(queueNodes, queueHeads)
      ensures Numbered(queueNodes, queueHeads)
    {
    }

    /** `_os_remove_node` on a task's node, through its own queue's head or through another when the
        node is not the first of its queue. */
    method RemoveFrom(head: Head, t: Tcb)
      requires Valid() && t in tcbRepr && head in queueHeads
      requires t.queueNode.list == null || t.queueNode.list == head || t.queueNode.idx != 0
      modifies this`st, queueHeads, queueNodes`prev, queueNodes`next, queueNodes`list, queueNodes`idx
      ensures Valid() && st == KernelState.Unlink(old(st), t.id)
    {
      hide Wired, Family, QueuesMatch, TasksMatch, SemsMatch, BitsMatch, AlarmsMatch, RestMatches, Typed, Delete,
           TaskMatches,
        Numbered, Nexts, Prevs, Loose, Starts, Removed;
      NodeOf(t);
      Apart();
      IsNumbered();
      ghost var s' := KernelState.Unlink(st, t.id);
      var removed, list := RemoveNode(head, t.queueNode, queueNodes, queueHeads);
      Departed(t);
      st := s';
    }

    /** Where the node of a READY task is. */
    lemma OnReady(t: Tcb)
      requires Valid() && t in tcbRepr && KI.Placed(st, {}) && st.tasks[t.id].status == READY
      ensures t.queueNode.list == readyQueue[t.priority] &&
              t.queueNode.idx < |st.ready[t.priority]| == |readyQueue[t.priority].nodes|
      ensures t.queueNode.idx == 0 <==> st.ready[t.priority][0] == t.id
    {
      hide SemsMatch, BitsMatch, AlarmsMatch, RestMatches, Nexts, Prevs, Loose;
      var p := t.priority;
      var h := readyQueue[p];
      assert t.id in st.ready[p];
      var i :| 0 <= i < |st.ready[p]| && st.ready[p][i] == t.id;
      assert Names(h.nodes)[i] == h.nodes[i].pnode;
      assert h.nodes[i] == t.queueNode;
      assert Names(h.nodes)[0] == h.nodes[0].pnode;
    }

    lemma NamesEmpty(p: nat)
      requires Valid() && p <= LOWEST_PRIORITY
      ensures |readyQueue| == LOWEST_PRIORITY + 1 && (readyQueue[p].first == null <==> st.ready[p] == [])
    {
      hide TasksMatch, SemsMatch, BitsMatch, AlarmsMatch, RestMatches, Numbered, Nexts, Prevs, Loose;
      assert |Names(readyQueue[p].nodes)| == |readyQueue[p].nodes|;
    }

    /** `_os_unset_ready` */
    method Unmark(p: nat)
      requires Valid() && p <= LOWEST_PRIORITY
      modifies this`st, index, index.table
      ensures Valid() && st == old(st).(bits := old(st).bits - {p})
    {
      hide Wired, Family, QueuesMatch, TasksMatch, SemsMatch, AlarmsMatch, RestMatches;
      index.UnsetReady(p);
      st := st.(bits := st.bits - {p});
    }

    /** A READY task leaves its ready queue, and the bit goes with the last one. */
    method LeaveReady(t: Tcb)
      requires Valid() && t in tcbRepr && KI.Placed(st, {}) && st.tasks[t.id].status == READY
      modifies this`st, queueHeads, index, index.table, queueNodes`prev, queueNodes`next, queueNodes`list,
               queueNodes`idx
      ensures Valid() && st == KernelState.LeaveReady(old(st), t.id)
    {
      hide Wired, Family, QueuesMatch, TasksMatch, SemsMatch, BitsMatch, AlarmsMatch, RestMatches, Typed;
      Sees(t);
      OnReady(t);
      OnlyThere(st, t.id);
      RemoveFrom(readyQueue[t.priority], t);
      NamesEmpty(t.priority);
      if readyQueue[t.priority].first == null {
        Unmark(t.priority);
      }
    }

    // ----- the other fields of a task

    method SetPriority(t: Tcb, priority: nat)
      requires Valid() && t in tcbRepr && priority <= LOWEST_PRIORITY
      modifies this`st, t`priority, t.queueNode`orderVal
      ensures Valid() && st == WithPriority(old(st), t.id, priority)
    {
      hide Family, Wired, QueuesMatch, TasksMatch, SemsMatch, BitsMatch, AlarmsMatch, RestMatches, Typed;
      Sees(t);
      TypedSees(t);
      Apart();
      ghost var s' := WithPriority(st, t.id, priority);
      t.priority := priority;
      t.queueNode.orderVal := t.priority;
      TaskWritten(t, st.tasks[t.id].(priority := priority));
      st := s';
    }

    lemma TypedSees(t: Tcb)
      requires Valid() && t in tcbRepr
      ensures t.id in st.tasks && TypedTask(st, st.tasks[t.id])
    {
      hide Family, QueuesMatch, SemsMatch, BitsMatch, AlarmsMatch, RestMatches;
    }

    method SetTimes(t: Tcb, period: nat, wakeupTime: nat)
      requires Valid() && t in tcbRepr
      modifies this`st, t`period, t`wakeupTime
      ensures Valid() && st == WithTimes(old(st), t.id, period, wakeupTime)
    {
      hide Family, Wired, QueuesMatch, TasksMatch, SemsMatch, BitsMatch, AlarmsMatch, RestMatches, Typed;
      Sees(t);
      TypedSees(t);
      ghost var s' := WithTimes(st, t.id, period, wakeupTime);
      t.period := period;
      t.wakeupTime := wakeupTime;
      TaskWritten(t, st.tasks[t.id].(period := period, wakeupTime := wakeupTime));
      st := s';
    }

    /** The task waits in `owner`, or in no queue. */
    method SetOwner(t: Tcb, owner: Head?, ghost q: Option<SemId>)
      requires Valid() && t in tcbRepr
      requires if q == None then owner == null else q.value in sems && owner == sems[q.value].waitQueue
      modifies this`st, t`waitQueueOwner
      ensures Valid() && st == WithOwner(old(st), t.id, q)
    {
      hide Family, Wired, QueuesMatch, TasksMatch, SemsMatch, BitsMatch, AlarmsMatch, RestMatches, Typed;
      Sees(t);
      if q.Some? {
        SemNamed(q.value);
      }
      ghost var s' := WithOwner(st, t.id, q);
      t.waitQueueOwner := owner;
      TaskWritten(t, st.tasks[t.id].(owner := q));
      st := s';
    }

    lemma SemNamed(q: SemId)
      requires Valid()
      ensures q in sems <==> q in st.sems
      ensures q in sems ==> q in st.waiting && sems[q].waitQueue in queueHeads &&
                            sems[q].waitQueue.name == LOWEST_PRIORITY + 1 + q
      ensures q in sems ==> st.sems[q].count == sems[q].count && st.sems[q].byPriority == sems[q].byPriority &&
                            sems[q] in semRepr
    {
      hide Family, TasksMatch, BitsMatch, AlarmsMatch, RestMatches, Typed;
    }

    /** The task moves on in its own code. */
    method SetPc(t: Tcb, pc: Pc)
      requires Valid() && t in tcbRepr && (!pc.User? ==> pc.sem in st.sems)
      modifies this`st, t`pc
      ensures Valid() && st == KernelState.SetPc(old(st), t.id, pc) && t.pc == pc
    {
      hide Family, Wired, QueuesMatch, TasksMatch, SemsMatch, BitsMatch, AlarmsMatch, RestMatches, Typed;
      Sees(t);
      ghost var s' := KernelState.SetPc(st, t.id, pc);
      t.pc := pc;
      TaskWritten(t, st.tasks[t.id].(pc := pc));
      st := s';
    }

    // ----- wait queues

    /** `_os_add_node_tail` on a wait queue */
    method AppendWaiting(q: SemId, t: Tcb)
      requires Valid() && t in tcbRepr && q in sems && q in st.waiting && KI.Placed(st, {t.id})
      modifies this`st, queueHeads, queueNodes`prev, queueNodes`next, queueNodes`list, queueNodes`idx
      ensures Valid() && st == QueuedLast(old(st), q, t.id)
    {
      hide Family, Wired, QueuesMatch, TasksMatch, SemsMatch, BitsMatch, AlarmsMatch, RestMatches, Typed, KI.Placed,
           TaskMatches;
      Sees(t);
      SemNamed(q);
      Detached(t);
      Apart();
      ghost var s' := QueuedLast(st, q, t.id);
      AddNodeTail(sems[q].waitQueue, t.queueNode, queueNodes, queueHeads);
      Appended(sems[q].waitQueue, t);
      st := s';
    }

    /** The order values of the nodes of a wait queue are the priorities of the tasks. */
    lemma OrderIsPriority(q: SemId)
      requires Valid() && q in sems
      ensures q in st.waiting && (forall x :: x in st.waiting[q] ==> x in Priorities(st.tasks))
      ensures OrderVals(sems[q].waitQueue.nodes) == KeysOf(st.waiting[q], Priorities(st.tasks))
    {
      hide Family, TasksMatch, SemsMatch, BitsMatch, AlarmsMatch, RestMatches;
      var h := sems[q].waitQueue;
      assert Names(h.nodes) == st.waiting[q];
      forall i | 0 <= i < |h.nodes|
        ensures h.nodes[i].pnode in st.tasks && h.nodes[i].orderVal == st.tasks[h.nodes[i].pnode].priority
      {
        assert st.waiting[q][i] in st.waiting[q];
        InQueue(h, i);
        Sees(tcbs[h.nodes[i].pnode]);
      }
    }

    lemma InQueue(h: Head, i: nat)
      requires Valid() && h in queueHeads && i < |h.nodes|
      ensures h.nodes[i].pnode in tcbs && tcbs[h.nodes[i].pnode] in tcbRepr &&
              tcbs[h.nodes[i].pnode].queueNode == h.nodes[i]
    {
      hide QueuesMatch, TasksMatch, SemsMatch, BitsMatch, AlarmsMatch, RestMatches, Nexts, Prevs, Loose;
    }

    twostate lemma Filed(new q: SemId, new k: nat, new t: Tcb)
      requires old(allocated(t))
      requires old(QueuesMatch(st.ready, st.waiting)) && Wired() && unchanged(this) && q in sems && t in tcbRepr
      requires var h := sems[q].waitQueue; k <= |old(h.nodes)| && h.nodes == Insert(old(h.nodes), k, t.queueNode)
      requires forall h :: h in queueHeads && h != sems[q].waitQueue ==> h.nodes == old(h.nodes)
      ensures QueuesMatch(st.ready, st.waiting[q := st.waiting[q][..k] + [t.id] + st.waiting[q][k..]])
    {
      var h := sems[q].waitQueue;
      assert Names(h.nodes) == Names(old(h.nodes))[..k] + [t.id] + Names(old(h.nodes))[k..];
    }

    /** That is the order of the priorities when the place is the one the order values give. */
    twostate lemma FiledInOrder(new q: SemId, new t: Tcb)
      requires old(allocated(t)) && old(QueuesMatch(st.ready, st.waiting) && Typed(st))
      requires Wired() && unchanged(this) && q in sems && t in tcbRepr && q in st.waiting && t.id in st.tasks
      requires forall x :: x in st.waiting[q] ==> x in Priorities(st.tasks)
      requires var h, k := sems[q].waitQueue, FirstAbove(KeysOf(st.waiting[q], Priorities(st.tasks)),
                                                         st.tasks[t.id].priority);
        k <= |old(h.nodes)| && h.nodes == Insert(old(h.nodes), k, t.queueNode)
      requires forall h :: h in queueHeads && h != sems[q].waitQueue ==> h.nodes == old(h.nodes)
      ensures QueuesMatch(QueuedInOrder(st, q, t.id).ready, QueuedInOrder(st, q, t.id).waiting)
    {
      hide Wired, QueuesMatch, Typed, Insert, KeysOf, FirstAbove;
      Filed(q, FirstAbove(KeysOf(st.waiting[q], Priorities(st.tasks)), st.tasks[t.id].priority), t);
    }

    /** `_os_add_node_ordered` on a wait queue */
    method InsertWaiting(q: SemId, t: Tcb)
      requires Valid() && t in tcbRepr && q in sems && q in st.waiting && KI.Placed(st, {t.id})
      modifies this`st, queueHeads, queueNodes`prev, queueNodes`next, queueNodes`list, queueNodes`idx
      ensures Valid() && st == QueuedInOrder(old(st), q, t.id)
    {
      hide Family, Wired, QueuesMatch, TasksMatch, SemsMatch, BitsMatch, AlarmsMatch, RestMatches, Typed, KI.Placed,
        TaskMatches, Numbered, Nexts, Prevs, Loose, Starts, Insert, FirstAbove, KeysOf, InsertOrdered;
      QueueNodeOf(t);
      SemNamed(q);
      Detached(t);
      Apart();
      OrderIsPriority(q);
      ghost var s' := QueuedInOrder(st, q, t.id);
      AddNodeOrdered(sems[q].waitQueue, t.queueNode, queueNodes, queueHeads);
      FiledInOrder(q, t);
      st := s';
    }

    // ----- the alarm queue

    /** `_os_remove_node` on a task's alarm */
    method RemoveAlarm(t: Tcb)
      requires Valid() && t in tcbRepr
      modifies this`st, alarmQueue, alarmNodes`prev, alarmNodes`next, alarmNodes`list, alarmNodes`idx
      ensures Valid() && st == Disarmed(old(st), t.id) && t.alarm.queueNode.list == null
    {
      hide Family, Wired, QueuesMatch, TasksMatch, SemsMatch, BitsMatch, AlarmsMatch, RestMatches, Typed, TaskMatches,
        Addressed, Numbered, Nexts, Prevs, Loose, Starts, Removed, Delete;
      AlarmOf(t);
      Apart();
      Distinguished();
      AlarmsNumbered();
      ghost var s' := Disarmed(st, t.id);
      var removed, list := RemoveNode(alarmQueue, t.alarm.queueNode, alarmNodes, {alarmQueue});
      AlarmGone(t.alarm.queueNode);
      st := s';
    }

    twostate lemma AlarmGone(new x: Node)
      requires old(allocated(x)) && unchanged(this) && x in alarmNodes && Addressed(alarmNodes)
      requires old(Numbered(alarmNodes, {alarmQueue}) && AlarmsMatch(st.alarms))
      requires old(x.list) == alarmQueue ==>
        old(x.idx) < |old(alarmQueue.nodes)| && alarmQueue.nodes == Removed(old(alarmQueue.nodes), old(x.idx))
      requires old(x.list) != alarmQueue ==> alarmQueue.nodes == old(alarmQueue.nodes)
      ensures AlarmsMatch(Delete(st.alarms, x.pnode))
    {
      NamesAfter(alarmQueue, x, alarmNodes, {alarmQueue});
    }

    twostate lemma AlarmFiled(new x: Node, new k: nat)
      requires old(allocated(x)) && unchanged(this) && old(AlarmsMatch(st.alarms))
      requires k <= |old(alarmQueue.nodes)| && alarmQueue.nodes == Insert(old(alarmQueue.nodes), k, x)
      ensures k <= |st.alarms| && AlarmsMatch(st.alarms[..k] + [x.pnode] + st.alarms[k..])
    {
      assert Names(alarmQueue.nodes) == Names(old(alarmQueue.nodes))[..k] + [x.pnode] +
                                        Names(old(alarmQueue.nodes))[k..];
    }

    twostate lemma AlarmFiledInOrder(new t: Tcb)
      requires old(allocated(t)) && unchanged(this) && old(AlarmsMatch(st.alarms)) && Typed(st) && t.id in st.tasks
      requires forall x :: x in st.alarms ==> x in AlarmTimes(st.tasks)
      requires t.alarm.queueNode.pnode == t.id
      requires var k := FirstAbove(KeysOf(st.alarms, AlarmTimes(st.tasks)), st.tasks[t.id].alarmTime);
        k <= |old(alarmQueue.nodes)| && alarmQueue.nodes == Insert(old(alarmQueue.nodes), k, t.alarm.queueNode)
      ensures AlarmsMatch(Armed(st, t.id).alarms)
    {
      hide AlarmsMatch, Typed, Insert, KeysOf, FirstAbove;
      AlarmFiled(t.alarm.queueNode, FirstAbove(KeysOf(st.alarms, AlarmTimes(st.tasks)), st.tasks[t.id].alarmTime));
    }

    lemma AlarmsNumbered()
      requires Valid()
      ensures Numbered(alarmNodes, {alarmQueue})
      ensures forall n :: n in alarmNodes && n.list != null ==> n.list == alarmQueue && n.idx < |alarmQueue.nodes|
    {
      hide Wired, QueuesMatch, TasksMatch, SemsMatch, BitsMatch, AlarmsMatch, RestMatches, Nexts, Prevs, Loose, Starts;
    }

    /** The deadline is written into the alarm and its node. */
    method SetDeadline(t: Tcb, deadline: nat)
      requires Valid() && t in tcbRepr
      modifies this`st, t.alarm`timeout, t.alarm.queueNode`orderVal
      ensures Valid() && st == WithDeadline(old(st), t.id, deadline)
    {
      hide Family, Wired, QueuesMatch, TasksMatch, SemsMatch, BitsMatch, AlarmsMatch, RestMatches, Typed;
      Sees(t);
      TypedSees(t);
      Apart();
      ghost var s' := WithDeadline(st, t.id, deadline);
      t.alarm.timeout := deadline;
      t.alarm.queueNode.orderVal := t.alarm.timeout;
      TaskWritten(t, st.tasks[t.id].(alarmTime := deadline));
      st := s';
    }

    lemma OrderIsDeadline()
      requires Valid()
      ensures forall x :: x in st.alarms ==> x in AlarmTimes(st.tasks)
      ensures OrderVals(alarmQueue.nodes) == KeysOf(st.alarms, AlarmTimes(st.tasks))
    {
      hide Family, TasksMatch, SemsMatch, BitsMatch, RestMatches;
      assert Names(alarmQueue.nodes) == st.alarms;
      forall i | 0 <= i < |alarmQueue.nodes|
        ensures alarmQueue.nodes[i].pnode in st.tasks &&
                alarmQueue.nodes[i].orderVal == st.tasks[alarmQueue.nodes[i].pnode].alarmTime
      {
        assert st.alarms[i] in st.alarms;
        InAlarmQueue(i);
        Sees(tcbs[alarmQueue.nodes[i].pnode]);
      }
    }

    lemma InAlarmQueue(i: nat)
      requires Valid() && i < |alarmQueue.nodes|
      ensures var n := alarmQueue.nodes[i];
              n.pnode in tcbs && tcbs[n.pnode] in tcbRepr && tcbs[n.pnode].alarm.queueNode == n
    {
      hide QueuesMatch, TasksMatch, SemsMatch, BitsMatch, AlarmsMatch, RestMatches, Nexts, Prevs, Loose;
    }

    /** `_os_add_node_ordered` on a task's alarm */
    method InsertAlarm(t: Tcb)
      requires Valid() && t in tcbRepr && t.alarm.queueNode.list == null
      modifies this`st, alarmQueue, alarmNodes`prev, alarmNodes`next, alarmNodes`list, alarmNodes`idx
      ensures Valid() && st == Armed(old(st), t.id)
    {
      hide Family, Wired, QueuesMatch, TasksMatch, SemsMatch, BitsMatch, AlarmsMatch, RestMatches, Typed, TaskMatches,
        Numbered, Nexts, Prevs, Loose, Starts, Insert, FirstAbove, KeysOf, InsertOrdered;
      AlarmOf(t);
      Apart();
      OrderIsDeadline();
      ghost var s' := Armed(st, t.id);
      AddNodeOrdered(alarmQueue, t.alarm.queueNode, alarmNodes, {alarmQueue});
      AlarmFiledInOrder(t);
      st := s';
    }

    // ----- counts, time, the lock and the running task

    /** `sem->count` and the semaphore's history */
    method SetCount(q: SemId, count: int, ghost history: Semaphore)
      requires Valid() && q in sems && q in st.sems
      requires history.count == count && history.byPriority == sems[q].byPriority
      modifies this`st, semRepr`count, semRepr`history
      ensures Valid() && st == old(st).(sems := old(st).sems[q := history])
    {
      hide Family, Wired, QueuesMatch, TasksMatch, BitsMatch, AlarmsMatch, RestMatches, SemsMatch, TaskMatches,
        Numbered, Nexts, Prevs, Loose, Starts;
      SemNamed(q);
      sems[q].count := count;
      sems[q].history := history;
      SemWritten(q, history);
      st := st.(sems := st.sems[q := history]);
    }

    twostate lemma SemWritten(new q: SemId, history: Semaphore)
      requires unchanged(this) && old(SemsMatch(st.sems)) && q in sems
      requires forall b :: b in semRepr && b != sems[q] ==> unchanged(b)
      requires history.count == sems[q].count && history.byPriority == sems[q].byPriority && sems[q].history == history
      ensures SemsMatch(st.sems[q := history])
    {
      forall a | a in sems
        ensures st.sems[q := history][a].count == sems[a].count && st.sems[q := history][a] == sems[a].history
        ensures st.sems[q := history][a].byPriority == sems[a].byPriority
      {
        assert sems[a] in semRepr;
      }
    }

    method SetTick(now: nat)
      requires Valid()
      modifies this`st, this`tick
      ensures Valid() && st == old(st).(tick := now)
    {
      hide Family, Wired, QueuesMatch, TasksMatch, SemsMatch, BitsMatch, AlarmsMatch;
      tick := now;
      st := st.(tick := now);
    }

    method SetLock(lock: bool)
      requires Valid()
      modifies this`st, this`locked
      ensures Valid() && st == old(st).(locked := lock)
    {
      hide Family, Wired, QueuesMatch, TasksMatch, SemsMatch, BitsMatch, AlarmsMatch;
      locked := lock;
      st := st.(locked := lock);
    }

    method SetCurrent(t: Tcb)
      requires Valid() && t in tcbRepr
      modifies this`st, this`current
      ensures Valid() && st == old(st).(current := Some(t.id))
    {
      hide Family, Wired, QueuesMatch, TasksMatch, SemsMatch, BitsMatch, AlarmsMatch, TaskMatches;
      Known(t);
      current := t;
      st := st.(current := Some(t.id));
    }

    // ----- core/task.c

    /** The plain fields say what the state says. */
    lemma Fields()
      requires Valid()
      ensures Typed(st) && !st.faulted && locked == st.locked && tick == st.tick
      ensures if current == null then st.current == None else st.current == Some(current.id) && current in tcbRepr
    {
      hide Family, QueuesMatch, TasksMatch, SemsMatch, BitsMatch, AlarmsMatch;
    }

    /** When a task runs. */
    lemma Times(t: Tcb)
      requires Valid() && t in tcbRepr
      ensures t.id in st.tasks && t.period == st.tasks[t.id].period && t.wakeupTime == st.tasks[t.id].wakeupTime
      ensures t.status == st.tasks[t.id].status && t.pc == st.tasks[t.id].pc
    {
      hide Family, QueuesMatch, SemsMatch, BitsMatch, AlarmsMatch, RestMatches;
    }

    /** What a task's own fields say, without the rest. */
    lemma TaskFields(t: Tcb)
      requires Valid() && t in tcbRepr
      ensures t.id in st.tasks && TaskMatches(t, st.tasks[t.id])
    {
      hide Family, QueuesMatch, SemsMatch, BitsMatch, AlarmsMatch, RestMatches, TaskMatches;
    }

    lemma BitsAre()
      requires Valid()
      ensures index.Valid() && index.Priorities() == st.bits
    {
      hide Family, Wired, QueuesMatch, TasksMatch, SemsMatch, AlarmsMatch, RestMatches;
    }

    /** The first node of a ready queue leads to the first task of it. */
    lemma FrontReady(p: nat)
      requires Valid() && p <= LOWEST_PRIORITY && st.ready[p] != []
      ensures |readyQueue| == LOWEST_PRIORITY + 1 && readyQueue[p].first != null
      ensures var x := readyQueue[p].first.pnode;
              x == st.ready[p][0] && x in tcbs && tcbs[x] in tcbRepr && tcbs[x].id == x
    {
      hide TasksMatch, SemsMatch, BitsMatch, AlarmsMatch, RestMatches, Nexts, Prevs, Loose;
      assert Names(readyQueue[p].nodes)[0] == readyQueue[p].nodes[0].pnode;
    }

    /** The second half of `eos_schedule`: the first task of the highest ready queue runs. */
    method Dispatch()
      requires Valid() && KI.Placed(st, {}) && IDLE in st.tasks && st.tasks[IDLE].status == READY
      modifies this`st, this`current, tcbRepr`status, queueHeads, index, index.table
      modifies queueNodes`prev, queueNodes`next, queueNodes`list, queueNodes`idx
      ensures Valid() && st == KernelState.Dispatch(old(st))
    {
      hide Valid, Typed, KI.ReadyOk, KI.WaitingOk, KI.BitsOk, KernelState.LeaveReady, KernelState.SetStatus;
      Fields();
      BitsAre();
      KI.DispatchFinds(st);
      var highest := index.GetHighestPriority();
      IsHighest(st.bits, highest);
      FrontReady(highest);
      var node := readyQueue[highest].first;
      var next := tcbs[node.pnode];
      LeaveReady(next);
      SetStatus(next, RUNNING);
      SetCurrent(next);
    }

    /** `eos_schedule` */
    method Schedule()
      requires Valid() && Settled(st)
      modifies this`st, this`current, tcbRepr`status, queueHeads, index, index.table
      modifies queueNodes`prev, queueNodes`next, queueNodes`list, queueNodes`idx
      ensures Valid() && st == KernelState.Schedule(old(st))
    {
      hide Valid, Typed, KI.Placed, KernelState.Dispatch;
      Fields();
      if locked {
        return;
      }
      KI.RequeuePlaced(st);
      KI.RequeueRunning(st);
      if current != null {
        TaskFields(current);
        if current.status == RUNNING {
          KI.PickUp(st, current.id);
          MakeReady(current);
        }
      }
      assert st == Requeue(old(st));
      Dispatch();
    }

    method Register(task: Tcb, ghost s': State)
      modifies this`st, this`tcbs, this`tcbRepr, this`queueNodes, this`alarmNodes, this`alarmRepr
      ensures tcbs == old(tcbs)[task.id := task] && tcbRepr == old(tcbRepr) + {task}
      ensures queueNodes == old(queueNodes) + {task.queueNode} && alarmNodes == old(alarmNodes) + {task.alarm.queueNode}
      ensures alarmRepr == old(alarmRepr) + {task.alarm} && st == s'
    {
      tcbs := tcbs[task.id := task];
      tcbRepr := tcbRepr + {task};
      queueNodes := queueNodes + {task.queueNode};
      alarmNodes := alarmNodes + {task.alarm.queueNode};
      alarmRepr := alarmRepr + {task.alarm};
      st := s';
    }

    /** The caller's control block becomes one of the kernel's tasks, on no list yet. */
    method Adopt(task: Tcb)
      requires Valid() && Zeroed(task) && task.id !in tcbs && task.alarm !in alarmRepr
      requires task.priority <= LOWEST_PRIORITY && TaskMatches(task, NewTask(task.priority))
      modifies this`st, this`tcbs, this`tcbRepr, this`queueNodes, this`alarmNodes, this`alarmRepr
      ensures tcbs == old(tcbs)[task.id := task] && tcbRepr == old(tcbRepr) + {task}
      ensures queueNodes == old(queueNodes) + {task.queueNode} && alarmNodes == old(alarmNodes) + {task.alarm.queueNode}
      ensures alarmRepr == old(alarmRepr) + {task.alarm}
      ensures Valid() && st == old(st).(tasks := old(st).tasks[task.id := NewTask(task.priority)])
    {
      hide Family, Wired, QueuesMatch, TasksMatch, SemsMatch, BitsMatch, AlarmsMatch, RestMatches, Typed, TaskMatches,
        Numbered, Nexts, Prevs, Loose, Starts;
      TypedAdopted(task.id, task.priority);
      Strange(task);
      GrowFamily(queueNodes, queueHeads, task.queueNode);
      GrowFamily(alarmNodes, {alarmQueue}, task.alarm.queueNode);
      Register(task, st.(tasks := st.tasks[task.id := NewTask(task.priority)]));
      TaskJoins(task);
    }

    lemma TypedAdopted(t: TaskId, priority: nat)
      requires Valid() && priority <= LOWEST_PRIORITY && t !in tcbs
      ensures Typed(st.(tasks := st.tasks[t := NewTask(priority)])) && t !in st.tasks
    {
      hide Family, QueuesMatch, SemsMatch, BitsMatch, AlarmsMatch, RestMatches;
    }

    lemma Outside(task: Tcb)
      requires Valid() && Zeroed(task) && task.id !in tcbs
      ensures task !in tcbRepr && task.queueNode !in queueNodes + alarmNodes &&
              task.alarm.queueNode !in queueNodes + alarmNodes
    {
      hide Family, QueuesMatch, TasksMatch, SemsMatch, BitsMatch, AlarmsMatch, RestMatches, Typed;
    }

    lemma Strange(task: Tcb)
      requires Wired() && task.id !in tcbs && task.queueNode.pnode == task.id && task.alarm.queueNode.pnode == task.id
      ensures task !in tcbRepr && task.queueNode !in queueNodes + alarmNodes &&
              task.alarm.queueNode !in queueNodes + alarmNodes
    {
    }

    twostate lemma StillRuns(new task: Tcb)
      requires old(allocated(task)) && old(RestMatches(st.tick, st.current, st.locked, st.faulted))
      requires task.id !in old(tcbs) && tcbs == old(tcbs)[task.id := task]
      requires current == old(current) && locked == old(locked) && tick == old(tick)
      ensures RestMatches(old(st.tick), old(st.current), old(st.locked), old(st.faulted))
    {
    }

    twostate lemma WiredIn(new task: Tcb)
      requires old(allocated(task)) && old(Wired()) && task !in old(tcbRepr)
      requires task.id !in old(tcbs) && task.queueNode.pnode == task.id && task.alarm.queueNode.pnode == task.id
      requires task.queueNode !in old(alarmNodes) && task.alarm.queueNode !in old(queueNodes)
      requires task.queueNode != task.alarm.queueNode
      requires tcbs == old(tcbs)[task.id := task] && tcbRepr == old(tcbRepr) + {task}
      requires queueNodes == old(queueNodes) + {task.queueNode} &&
               alarmNodes == old(alarmNodes) + {task.alarm.queueNode}
      requires alarmRepr == old(alarmRepr) + {task.alarm} && sems == old(sems) && semRepr == old(semRepr)
      requires queueHeads == old(queueHeads)
      ensures Wired()
    {
    }

    twostate lemma QueuesStay()
      requires old(QueuesMatch(st.ready, st.waiting) && SemsMatch(st.sems)) && Wired()
      requires sems == old(sems) && semRepr == old(semRepr) && forall b :: b in semRepr ==> unchanged(b)
      requires queueHeads == old(queueHeads) && forall h :: h in queueHeads ==> h.nodes == old(h.nodes)
      ensures QueuesMatch(old(st.ready), old(st.waiting)) && SemsMatch(old(st.sems))
    {
    }

    twostate lemma Adopted(new task: Tcb, new record: Task)
      requires old(allocated(task)) && task.id !in old(tcbs) && old(TasksMatch(st.tasks)) && Wired()
      requires tcbs == old(tcbs)[task.id := task] && sems == old(sems)
      requires forall b :: b in old(tcbRepr) ==> unchanged(b)
      requires forall n :: n in old(queueNodes + alarmNodes) ==> n.orderVal == old(n.orderVal)
      requires forall x :: x in old(alarmRepr) ==> unchanged(x)
      requires TaskMatches(task, record)
      ensures TasksMatch(old(st.tasks)[task.id := record])
    {
    }

    twostate lemma TaskJoins(new task: Tcb)
      requires old(allocated(task)) && task.id !in old(tcbs) && task !in old(tcbRepr)
      requires old(Wired() && QueuesMatch(st.ready, st.waiting) && SemsMatch(st.sems) && TasksMatch(st.tasks))
      requires old(RestMatches(st.tick, st.current, st.locked, st.faulted))
      requires task.queueNode.pnode == task.id && task.alarm.queueNode.pnode == task.id
      requires task.queueNode !in old(alarmNodes) && task.alarm.queueNode !in old(queueNodes)
      requires task.queueNode != task.alarm.queueNode
      requires tcbs == old(tcbs)[task.id := task] && tcbRepr == old(tcbRepr) + {task}
      requires queueNodes == old(queueNodes) + {task.queueNode} &&
               alarmNodes == old(alarmNodes) + {task.alarm.queueNode}
      requires alarmRepr == old(alarmRepr) + {task.alarm} && sems == old(sems) && semRepr == old(semRepr)
      requires queueHeads == old(queueHeads) && current == old(current) && locked == old(locked) && tick == old(tick)
      requires forall h :: h in queueHeads ==> unchanged(h)
      requires forall b :: b in semRepr ==> unchanged(b)
      requires forall b :: b in old(tcbRepr) ==> unchanged(b)
      requires forall n :: n in old(queueNodes + alarmNodes) ==> unchanged(n)
      requires forall x :: x in old(alarmRepr) ==> unchanged(x)
      requires TaskMatches(task, NewTask(task.priority))
      ensures Wired() && TasksMatch(old(st.tasks)[task.id := NewTask(task.priority)])
      ensures QueuesMatch(old(st.ready), old(st.waiting)) && SemsMatch(old(st.sems))
      ensures RestMatches(old(st.tick), old(st.current), old(st.locked), old(st.faulted))
    {
      hide Wired, QueuesMatch, TasksMatch, SemsMatch, TaskMatches, RestMatches;
      WiredIn(task);
      QueuesStay();
      Adopted(task, NewTask(task.priority));
      StillRuns(task);
    }

    method Enlist(task: Tcb, priority: nat)
      requires Valid() && Zeroed(task) && task.id !in tcbs && task.alarm !in alarmRepr && priority <= LOWEST_PRIORITY
      modifies this`st, this`tcbs, this`tcbRepr, this`queueNodes, this`alarmNodes, this`alarmRepr
      modifies task, task.queueNode`orderVal
      ensures tcbRepr == old(tcbRepr) + {task} && queueNodes == old(queueNodes) + {task.queueNode}
      ensures alarmNodes == old(alarmNodes) + {task.alarm.queueNode} && alarmRepr == old(alarmRepr) + {task.alarm}
      ensures Valid() && st == old(st).(tasks := old(st).tasks[task.id := NewTask(priority)])
    {
      hide Valid, Typed;
      Outside(task);
      task.Init(priority);
      Adopt(task);
    }

    /** `eos_create_task` on good arguments */
    method AddTask(task: Tcb, priority: nat)
      requires Valid() && Zeroed(task) && task.id !in tcbs && task.alarm !in alarmRepr && priority <= LOWEST_PRIORITY
      requires KI.Inv(st) || (st == Empty() && task.id == IDLE)
      modifies this`st, this`current, this`tcbs, this`tcbRepr, this`queueNodes, this`alarmNodes, this`alarmRepr
      modifies task, task.queueNode, tcbRepr`status, queueHeads, index, index.table
      modifies queueNodes`prev, queueNodes`next, queueNodes`list, queueNodes`idx
      ensures tcbRepr == old(tcbRepr) + {task} && queueNodes == old(queueNodes) + {task.queueNode}
      ensures alarmNodes == old(alarmNodes) + {task.alarm.queueNode} && alarmRepr == old(alarmRepr) + {task.alarm}
      ensures Valid() && task.id !in old(st).tasks && st == Create(old(st), task.id, MIN_STACK_SIZE, priority)
    {
      hide Valid, Typed, KI.Placed, KI.Inv, KI.RunningOk, KernelState.Schedule, KernelState.MakeReady;
      Unknown(task.id);
      Fields();
      CreateAllowed(st, task.id);
      Enlist(task, priority);
      CreatedSettled(old(st), task.id, priority);
      Admit(task);
    }

    /** The task joins its ready queue and the scheduler runs. */
    method Admit(task: Tcb)
      requires Valid() && task in tcbRepr && KI.Placed(st, {task.id})
      requires Typed(st) && task.id in st.tasks && Settled(KernelState.MakeReady(st, task.id))
      modifies this`st, this`current, tcbRepr`status, queueHeads, index, index.table
      modifies queueNodes`prev, queueNodes`next, queueNodes`list, queueNodes`idx
      ensures Valid() && st == KernelState.Schedule(KernelState.MakeReady(old(st), task.id))
    {
      hide Valid, Typed, KI.Placed, KI.RunningOk, KernelState.Schedule, KernelState.MakeReady;
      MakeReady(task);
      Schedule();
    }

    /** `eos_create_task` */
    method CreateTask(task: Tcb, stackSize: nat, priority: nat) returns (result: nat)
      requires Valid() && Zeroed(task) && task.id !in tcbs && task.alarm !in alarmRepr
      requires KI.Inv(st) || (st == Empty() && task.id == IDLE)
      modifies this`st, this`current, this`tcbs, this`tcbRepr, this`queueNodes, this`alarmNodes, this`alarmRepr
      modifies task, task.queueNode, tcbRepr`status, queueHeads, index, index.table
      modifies queueNodes`prev, queueNodes`next, queueNodes`list, queueNodes`idx
      ensures tcbRepr <= old(tcbRepr) + {task} && queueNodes <= old(queueNodes) + {task.queueNode}
      ensures alarmNodes <= old(alarmNodes) + {task.alarm.queueNode} && alarmRepr <= old(alarmRepr) + {task.alarm}
      ensures Valid() && task.id !in old(st).tasks && st == Create(old(st), task.id, stackSize, priority)
      ensures result == if priority > LOWEST_PRIORITY || stackSize < MIN_STACK_SIZE then WORD - 1 else 0
    {
      hide Valid, Typed, KI.Inv, Zeroed, KernelState.Schedule, KernelState.MakeReady;
      Unknown(task.id);
      Fields();
      if priority > LOWEST_PRIORITY {
        return WORD - 1;
      }
      if stackSize < MIN_STACK_SIZE {
        return WORD - 1;
      }
      AddTask(task, priority);
      return 0;
    }

    lemma Unknown(t: TaskId)
      requires Valid()
      ensures t in tcbs <==> t in st.tasks
    {
      hide Family, QueuesMatch, SemsMatch, BitsMatch, AlarmsMatch, RestMatches;
    }

    /** `eos_change_priority` */
    method ChangePriority(t: Tcb, priority: nat)
      requires Valid() && KI.Inv(st) && t in tcbRepr
      modifies this`st, this`current, tcbRepr`status, tcbRepr`priority, queueHeads, index, index.table
      modifies queueNodes`prev, queueNodes`next, queueNodes`list, queueNodes`idx, queueNodes`orderVal
      ensures Valid() && t.id in old(st).tasks && st == KernelState.ChangePriority(old(st), t.id, priority)
    {
      hide Valid, Typed, KI.Placed, KI.RunningOk, KI.AlarmsOk, KernelState.Schedule, Delete, KernelState.MakeReady;
      Fields();
      TypedSees(t);
      TaskFields(t);
      QueueNodeOf(t);
      if priority > LOWEST_PRIORITY {
        return;
      }
      ChangedSettled(st, t.id, priority);
      if t.status == READY {
        LeaveReady(t);
        Append(priority, t);
        SetPriority(t, priority);
        Repriced(old(st), t.id, priority);
      } else {
        SetPriority(t, priority);
      }
      Schedule();
    }

    /** `eos_suspend_task` */
    method SuspendTask(t: Tcb)
      requires Valid() && KI.Inv(st) && t in tcbRepr
      modifies this`st, t`status, queueHeads, index, index.table, queueNodes`prev, queueNodes`next, queueNodes`list,
               queueNodes`idx
      ensures t.status == if old(t.status) == READY then SUSPENDED else old(t.status)
      ensures Valid() && t.id in old(st).tasks && st == Suspend(old(st), t.id)
    {
      hide Valid, Typed, KI.Placed, KI.AlarmsOk, KI.RunningOk, KernelState.LeaveReady;
      Fields();
      TaskFields(t);
      if t.status == READY {
        LeaveReady(t);
        SetStatus(t, SUSPENDED);
        TaskFields(t);
      }
    }

    /** `eos_resume_task` */
    method ResumeTask(t: Tcb)
      requires Valid() && KI.Inv(st) && t in tcbRepr
      modifies this`st, this`current, tcbRepr`status, queueHeads, index, index.table
      modifies queueNodes`prev, queueNodes`next, queueNodes`list, queueNodes`idx
      ensures Valid() && t.id in old(st).tasks && st == Resume(old(st), t.id)
    {
      hide Valid, Typed, KI.Placed, KI.AlarmsOk, KernelState.Schedule;
      Fields();
      TaskFields(t);
      if t.status == SUSPENDED {
        KI.PickUp(st, t.id);
        KI.PutReady(st, t.id);
        MakeReady(t);
        Schedule();
      }
    }

    /** `eos_set_period` */
    method SetPeriod(t: Tcb, period: nat)
      requires Valid() && t in tcbRepr
      modifies this`st, t`period, t`wakeupTime
      ensures Valid() && t.id in old(st).tasks && st == KernelState.SetPeriod(old(st), t.id, period)
    {
      hide Valid, Typed;
      Fields();
      Known(t);
      SetTimes(t, period, tick);
    }

    // ----- core/timer.c and the calls that wait

    /** `eos_set_alarm` on the system timer */
    method SetAlarm(t: Tcb, timeout: nat)
      requires Valid() && t in tcbRepr
      modifies this`st, alarmQueue, alarmNodes`prev, alarmNodes`next, alarmNodes`list, alarmNodes`idx,
               alarmNodes`orderVal
      modifies alarmRepr`timeout
      ensures Valid() && t.id in old(st).tasks && st == KernelState.SetAlarm(old(st), t.id, timeout)
    {
      hide Valid, Typed, InsertOrdered, Delete;
      Fields();
      Known(t);
      AlarmOf(t);
      RemoveAlarm(t);
      if timeout == 0 {
        return;
      }
      SetDeadline(t, Add32(tick, timeout));
      InsertAlarm(t);
    }

    /** `eos_sleep` */
    method Sleep(ticks: nat)
      requires Valid() && Typed(st) && st.current.Some? && KR.UserRuns(st) && KI.Inv(st)
      modifies this`st, this`current, tcbRepr`status, tcbRepr`wakeupTime, tcbRepr`period, queueHeads, index, index.table
      modifies queueNodes`prev, queueNodes`next, queueNodes`list, queueNodes`idx
      modifies alarmQueue, alarmNodes`prev, alarmNodes`next, alarmNodes`list, alarmNodes`idx, alarmNodes`orderVal
      modifies alarmRepr`timeout
      ensures Valid() && st == KernelState.Sleep(old(st), ticks)
    {
      hide Valid, Typed, KI.Placed, KI.Inv, KI.RunningOk, KernelState.SetStatus, KernelState.Schedule,
           KernelState.SetAlarm, Add32;
      Fields();
      Calm(st);
      if locked {
        return;
      }
      Times(current);
      var timeout := ticks;
      if ticks == 0 && current.period != 0 {
        SetWakeupTime(current, Add32(current.wakeupTime, current.period));
        if current.wakeupTime <= tick {
          return;
        }
        timeout := current.wakeupTime - tick;
      }
      Doze(timeout);
    }

    /** The last part of `eos_sleep` */
    method Doze(timeout: nat)
      requires Valid() && Settled(st) && current != null && current.id != IDLE
      requires current.pc.User? && current.status == RUNNING
      modifies this`st, this`current, tcbRepr`status, queueHeads, index, index.table
      modifies queueNodes`prev, queueNodes`next, queueNodes`list, queueNodes`idx
      modifies alarmQueue, alarmNodes`prev, alarmNodes`next, alarmNodes`list, alarmNodes`idx, alarmNodes`orderVal
      modifies alarmRepr`timeout
      ensures Typed(old(st)) && old(current.id) in old(st).tasks && st == KernelState.Schedule(
        KernelState.SetStatus(KernelState.SetAlarm(old(st), old(current.id), timeout), old(current.id), WAITING))
      ensures Valid()
    {
      hide Valid, Typed, KI.Placed, KI.RunningOk, KernelState.SetStatus, KernelState.Schedule, KernelState.SetAlarm;
      Fields();
      Times(current);
      AsleepSettled(st, current.id, timeout);
      SetAlarm(current, timeout);
      SetStatus(current, WAITING);
      Schedule();
    }

    method SetWakeupTime(t: Tcb, wakeupTime: nat)
      requires Valid() && t in tcbRepr && Settled(st)
      modifies this`st, t`period, t`wakeupTime
      ensures t.wakeupTime == wakeupTime && Valid() && Settled(st) && t.id in old(st).tasks
      ensures st == WithWakeupTime(old(st), t.id, wakeupTime)
    {
      hide Valid, Typed, KI.ReadyOk, KI.WaitingOk, KI.BitsOk;
      Fields();
      TaskFields(t);
      KS.SamePlaces(st, t.id, st.tasks[t.id].(wakeupTime := wakeupTime));
      SetTimes(t, t.period, wakeupTime);
      TaskFields(t);
    }

    /** `_os_wait_in_queue` */
    method WaitInQueue(q: SemId)
      requires Valid() && q in sems && current != null && KI.Placed(st, {current.id}) &&
               KI.RunningOk(st.tasks, st.current)
      requires current.id != IDLE && current.pc.Acquiring? && current.pc.sem == q
      modifies this`st, this`current, tcbRepr`status, tcbRepr`waitQueueOwner, queueHeads, index, index.table
      modifies queueNodes`prev, queueNodes`next, queueNodes`list, queueNodes`idx
      ensures Valid() && old(st).current.Some? && q in old(st).sems
      ensures st == KernelState.Schedule(Enqueue(old(st), q))
    {
      hide Valid, Typed, KI.Placed, KI.RunningOk, KernelState.Schedule, Enqueue;
      Fields();
      TaskFields(current);
      SemNamed(q);
      EnqueuedSettled(st, q);
      Join(q);
      Schedule();
    }

    /** The current task joins the wait queue by its type. */
    method Join(q: SemId)
      requires Valid() && q in sems && current != null && KI.Placed(st, {current.id})
      modifies this`st, tcbRepr`status, tcbRepr`waitQueueOwner, queueHeads
      modifies queueNodes`prev, queueNodes`next, queueNodes`list, queueNodes`idx
      ensures Valid() && old(st).current.Some? && q in old(st).sems && st == Enqueue(old(st), q)
    {
      hide Valid, Typed, KI.Placed, InsertOrdered, TaskMatches;
      Fields();
      TaskFields(current);
      SemNamed(q);
      if !sems[q].byPriority {
        AppendWaiting(q, current);
      } else {
        InsertWaiting(q, current);
      }
      SetOwner(current, sems[q].waitQueue, Some(q));
      SetStatus(current, WAITING);
    }

    lemma FrontWaiting(q: SemId)
      requires Valid() && q in sems
      ensures q in st.waiting && (sems[q].waitQueue.first == null <==> st.waiting[q] == [])
      ensures st.waiting[q] != [] ==>
        var x := sems[q].waitQueue.first.pnode;
        x == st.waiting[q][0] && x in tcbs && tcbs[x] in tcbRepr && tcbs[x].id == x
      ensures st.waiting[q] != [] ==> tcbs[st.waiting[q][0]].queueNode.list == sems[q].waitQueue
    {
      hide TasksMatch, SemsMatch, BitsMatch, AlarmsMatch, RestMatches, Nexts, Prevs, Loose;
      var h := sems[q].waitQueue;
      assert |Names(h.nodes)| == |h.nodes|;
      if h.nodes != [] {
        assert Names(h.nodes)[0] == h.nodes[0].pnode;
      }
    }

    /** `_os_wakeup_from_queue` */
    method WakeupFromQueue(q: SemId)
      requires Valid() && q in sems && KI.Placed(st, {}) && KI.RunningOk(st.tasks, st.current)
      modifies this`st, this`current, tcbRepr`status, queueHeads, index, index.table
      modifies queueNodes`prev, queueNodes`next, queueNodes`list, queueNodes`idx
      ensures Valid() && q in old(st).sems && st == WakeFromQueue(old(st), q)
    {
      hide Valid, Typed, KI.Placed, KI.RunningOk, KernelState.Schedule, KernelState.MakeReady, Delete;
      Fields();
      SemNamed(q);
      FrontWaiting(q);
      if sems[q].waitQueue.first == null {
        return;
      }
      var task := tcbs[sems[q].waitQueue.first.pnode];
      TakenSettled(st, q);
      RemoveFrom(sems[q].waitQueue, task);
      MakeReady(task);
      Schedule();
    }

    /** Where the node of a task blocked on a semaphore is. */
    lemma OnWaiting(t: Tcb, q: SemId)
      requires Valid() && t in tcbRepr && q in sems && q in st.waiting && t.id in st.waiting[q]
      ensures t.queueNode.list == sems[q].waitQueue
    {
      hide TasksMatch, SemsMatch, BitsMatch, AlarmsMatch, RestMatches, Nexts, Prevs, Loose, Typed;
      var h := sems[q].waitQueue;
      var i :| 0 <= i < |st.waiting[q]| && st.waiting[q][i] == t.id;
      assert Names(h.nodes)[i] == h.nodes[i].pnode;
      assert h.nodes[i] == t.queueNode;
    }

    lemma OwnerHead(t: Tcb)
      requires Valid() && t in tcbRepr
      ensures t.id in st.tasks && (t.waitQueueOwner == null <==> st.tasks[t.id].owner == None)
      ensures st.tasks[t.id].owner.Some? ==> var q := st.tasks[t.id].owner.value;
        q in sems && q in st.waiting && t.waitQueueOwner == sems[q].waitQueue && t.waitQueueOwner in queueHeads
    {
      hide Family, BitsMatch, AlarmsMatch, RestMatches, Typed;
    }

    /** The head recorded in a task is the one its node is on, unless the node is on none, or on a
        ready queue behind another. */
    lemma OwnerLeads(t: Tcb)
      requires Valid() && t in tcbRepr && KI.Placed(st, {}) && t.id in st.tasks && Typed(st)
      requires t.waitQueueOwner != null && !AlarmHitsReady(st, t.id)
      ensures t.queueNode.list == null || t.queueNode.list == t.waitQueueOwner || t.queueNode.idx != 0
    {
      hide Valid, Typed, KI.Placed;
      TaskFields(t);
      OwnerHead(t);
      var task := st.tasks[t.id];
      if task.status == READY {
        OnReady(t);
      } else if task.status == WAITING && task.pc.Acquiring? {
        BlockedThere(st, t.id);
        OnWaiting(t, task.pc.sem);
      } else {
        KI.PickUp(st, t.id);
        Detached(t);
      }
    }

    /** `_os_wakeup_from_alarm_queue` */
    method WakeupFromAlarmQueue(t: Tcb)
      requires Valid() && t in tcbRepr && Typed(st) && KI.Placed(st, {}) && t.id in st.tasks &&
               !AlarmHitsReady(st, t.id)
      requires st.tasks[t.id].owner == None ==> st.tasks[t.id].status == WAITING && st.tasks[t.id].pc.User?
      requires st.tasks[t.id].status == READY ==> st.ready[st.tasks[t.id].priority] != []
      modifies this`st, tcbRepr`status, tcbRepr`waitQueueOwner, queueHeads, index, index.table
      modifies queueNodes`prev, queueNodes`next, queueNodes`list, queueNodes`idx
      ensures Valid() && st == WakeFromAlarm(old(st), t.id)
    {
      hide Valid, Typed, KI.Placed, KernelState.MakeReady, KernelState.Unlink;
      OwnerHead(t);
      var owner := t.waitQueueOwner;
      if owner != null {
        OwnerLeads(t);
        KI.PickFromAnywhere(st, t.id);
        RemoveFrom(owner, t);
        TypedSees(t);
        KI.Rewrite(st, t.id, st.tasks[t.id].(owner := None));
        SetOwner(t, null, None);
      } else {
        KI.PickUp(st, t.id);
      }
      MakeReady(t);
    }

    /** What `_os_wakeup_from_alarm_queue` meets when its task is READY, first in its ready queue and
        still owned: the removal through the stale owner leaves the ready queue led by a node
        without links, so the append that follows reads a NULL `prev` and writes through it. */
    method AlarmBreaksQueue(t: Tcb)
      requires Valid() && t in tcbRepr && Typed(st) && KI.Placed(st, {}) && t.id in st.tasks
      requires AlarmHitsReady(st, t.id) && t.waitQueueOwner != null
      modifies queueHeads, queueNodes`prev, queueNodes`next, queueNodes`list, queueNodes`idx
      ensures |readyQueue| == LOWEST_PRIORITY + 1 && t.priority <= LOWEST_PRIORITY
      ensures readyQueue[t.priority].first == t.queueNode && t.queueNode.prev == null && !Family(queueNodes, queueHeads)
    {
      hide Valid, Typed, KI.Placed, Family, Numbered;
      Priority(t);
      TaskFields(t);
      OwnerHead(t);
      OnReady(t);
      QueueNodeOf(t);
      OwnerIsWaitQueue(t);
      IsFamily();
      var removed, list := RemoveNode(t.waitQueueOwner, t.queueNode, queueNodes, queueHeads);
    }

    lemma IsFamily()
      requires Valid()
      ensures Family(queueNodes, queueHeads)
    {
    }

    lemma OwnerIsWaitQueue(t: Tcb)
      requires Valid() && t in tcbRepr && t.waitQueueOwner != null && t.priority <= LOWEST_PRIORITY
      ensures |readyQueue| == LOWEST_PRIORITY + 1 && readyQueue[t.priority] in queueHeads &&
              t.waitQueueOwner != readyQueue[t.priority]
    {
      hide Family, BitsMatch, AlarmsMatch, RestMatches, Typed;
    }

    lemma FrontAlarm()
      requires Valid()
      ensures alarmQueue.first == null <==> st.alarms == []
      ensures st.alarms != [] ==>
        var x := alarmQueue.first.pnode; x == st.alarms[0] && x in tcbs && tcbs[x] in tcbRepr && tcbs[x].id == x
    {
      hide QueuesMatch, TasksMatch, SemsMatch, BitsMatch, RestMatches, Nexts, Prevs, Loose;
      assert |Names(alarmQueue.nodes)| == |alarmQueue.nodes|;
      if alarmQueue.nodes != [] {
        assert Names(alarmQueue.nodes)[0] == alarmQueue.nodes[0].pnode;
      }
    }

    /** One round of the loop of `eos_trigger_counter`: the first alarm is due, leaves the queue and
        its handler runs. */
    method FireOne(t: Tcb)
      requires Valid() && t in tcbRepr && KS.LoopInv(st) && Due(st) && t.id == st.alarms[0] && !AlarmHitsReady(st, t.id)
      modifies this`st, tcbRepr`status, tcbRepr`waitQueueOwner, queueHeads, index, index.table
      modifies queueNodes`prev, queueNodes`next, queueNodes`list, queueNodes`idx
      modifies alarmQueue, alarmNodes`prev, alarmNodes`next, alarmNodes`list, alarmNodes`idx
      ensures Valid() && st == KS.FireOne(old(st))
    {
      hide Valid, Typed, KI.ReadyOk, KI.WaitingOk, KI.BitsOk, KI.RunningOk, WakeFromAlarm, Delete;
      KS.DueTask(st);
      FirstDeleted(st.alarms);
      AlarmOf(t);
      RemoveAlarm(t);
      WakeupFromAlarmQueue(t);
    }

    /** It brings the loop one alarm further. */
    method Round(t: Tcb)
      requires Valid() && t in tcbRepr && KS.LoopInv(st) && Due(st) && t.id == st.alarms[0] && !KS.DueAlarmHits(st)
      modifies this`st, tcbRepr`status, tcbRepr`waitQueueOwner, queueHeads, index, index.table
      modifies queueNodes`prev, queueNodes`next, queueNodes`list, queueNodes`idx
      modifies alarmQueue, alarmNodes`prev, alarmNodes`next, alarmNodes`list, alarmNodes`idx
      ensures Valid() && KS.LoopInv(st) && !KS.DueAlarmHits(st) && Typed(old(st)) && FireDue(st) == FireDue(old(st))
      ensures st.tick == old(st).tick && |st.alarms| < |old(st).alarms|
    {
      hide Valid, Typed, KI.Core, KS.LoopInv, KS.DueAlarmHits, KS.FireOne;
      Fields();
      KS.FirstIsSafe(st);
      AlarmOf(t);
      KS.FireOneKeeps(st);
      KS.HitsStay(st);
      KS.FireOneTask(st);
      KS.OneFired(st);
      FireOne(t);
      Fields();
    }

    /** The loop of `eos_trigger_counter` */
    method FireAllDue()
      requires Valid() && Typed(st) && KS.LoopInv(st) && !KS.DueAlarmHits(st)
      modifies this`st, tcbRepr`status, tcbRepr`waitQueueOwner, queueHeads, index, index.table
      modifies queueNodes`prev, queueNodes`next, queueNodes`list, queueNodes`idx
      modifies alarmQueue, alarmNodes`prev, alarmNodes`next, alarmNodes`list, alarmNodes`idx
      ensures Valid() && KS.LoopInv(st) && st == FireDue(old(st))
    {
      hide Valid, Typed, KI.Core, KS.LoopInv, KS.DueAlarmHits;
      FrontAlarm();
      if alarmQueue.first != null {
        var task: Tcb? := tcbs[alarmQueue.first.pnode];
        while task != null
          invariant Valid() && Typed(st) && KS.LoopInv(st) && !KS.DueAlarmHits(st) && FireDue(st) == FireDue(old(st))
          invariant if task == null then st.alarms == []
                    else st.alarms != [] && task in tcbRepr && task.id == st.alarms[0]
          decreases |st.alarms|
        {
          Fields();
          AlarmOf(task);
          if task.alarm.timeout > tick {
            break;
          }
          Round(task);
          Fields();
          FrontAlarm();
          if alarmQueue.first != null {
            task := tcbs[alarmQueue.first.pnode];
          } else {
            task := null;
          }
        }
      }
    }

    /** `eos_trigger_counter` on the system timer */
    method TriggerCounter()
      requires Valid() && KI.Inv(st) && st.tick + 1 < WORD && !KS.TickHits(st)
      modifies this`st, this`tick, this`current, tcbRepr`status, tcbRepr`waitQueueOwner, queueHeads, index, index.table
      modifies queueNodes`prev, queueNodes`next, queueNodes`list, queueNodes`idx
      modifies alarmQueue, alarmNodes`prev, alarmNodes`next, alarmNodes`list, alarmNodes`idx
      ensures Valid() && Typed(old(st)) && st == Tick(old(st))
    {
      hide Valid, Typed, KI.Inv, KS.LoopInv, KernelState.Schedule, KS.TickHits, KS.DueAlarmHits, Add32, FireDue;
      Fields();
      KS.TickStarts(st);
      KS.NoWrap(st.tick, 1);
      SetTick(Add32(tick, 1));
      Fields();
      FireAllDue();
      LoopSettled(st);
      Schedule();
    }

    // ----- core/sync.c and the scheduler lock

    method RegisterSemaphore(q: SemId, sem: SemaphoreBlock, ghost s': State)
      modifies this`st, this`sems, this`semRepr, this`queueHeads
      ensures sems == old(sems)[q := sem] && semRepr == old(semRepr) + {sem} &&
              queueHeads == old(queueHeads) + {sem.waitQueue}
      ensures st == s'
    {
      sems := sems[q := sem];
      semRepr := semRepr + {sem};
      queueHeads := queueHeads + {sem.waitQueue};
      st := s';
    }

    twostate lemma WiredSemaphore(new q: SemId, new sem: SemaphoreBlock)
      requires old(allocated(sem)) && old(Wired()) && q !in old(sems) && sem.id == q &&
               sem.waitQueue.name == LOWEST_PRIORITY + 1 + q
      requires sem !in old(semRepr) && sem.waitQueue != alarmQueue
      requires sems == old(sems)[q := sem] && semRepr == old(semRepr) + {sem} &&
               queueHeads == old(queueHeads) + {sem.waitQueue}
      requires tcbs == old(tcbs) && tcbRepr == old(tcbRepr) && queueNodes == old(queueNodes)
      requires alarmNodes == old(alarmNodes) && alarmRepr == old(alarmRepr)
      ensures Wired()
    {
    }

    twostate lemma SemaphoreIn(new q: SemId, new sem: SemaphoreBlock)
      requires old(allocated(sem)) && old(QueuesMatch(st.ready, st.waiting) && SemsMatch(st.sems)) && Wired() &&
               q !in old(sems)
      requires sems == old(sems)[q := sem] && sem.waitQueue.nodes == []
      requires forall h :: h in old(queueHeads) ==> h.nodes == old(h.nodes)
      requires forall b :: b in old(semRepr) ==> unchanged(b)
      requires sem.count == sem.history.count && sem.byPriority == sem.history.byPriority
      ensures QueuesMatch(old(st.ready), old(st.waiting)[q := []]) && SemsMatch(old(st.sems)[q := sem.history])
    {
    }

    twostate lemma TasksStay(new q: SemId, new sem: SemaphoreBlock)
      requires old(allocated(sem)) && old(TasksMatch(st.tasks)) && Wired() && q !in old(sems)
      requires sems == old(sems)[q := sem] && tcbs == old(tcbs)
      requires forall b :: b in old(tcbRepr) ==> unchanged(b)
      requires forall n :: n in old(queueNodes + alarmNodes) ==> n.orderVal == old(n.orderVal)
      requires forall x :: x in old(alarmRepr) ==> unchanged(x)
      ensures TasksMatch(old(st.tasks))
    {
    }

    twostate lemma SemaphoreJoins(new q: SemId, new sem: SemaphoreBlock)
      requires old(allocated(sem)) && q !in old(sems) && sem.id == q && sem.waitQueue.name == LOWEST_PRIORITY + 1 + q
      requires old(Wired() && QueuesMatch(st.ready, st.waiting) && SemsMatch(st.sems) && TasksMatch(st.tasks))
      requires sem !in old(semRepr) && sem.waitQueue != alarmQueue && sem.waitQueue.nodes == []
      requires sems == old(sems)[q := sem] && semRepr == old(semRepr) + {sem} &&
               queueHeads == old(queueHeads) + {sem.waitQueue}
      requires tcbs == old(tcbs) && tcbRepr == old(tcbRepr) && queueNodes == old(queueNodes)
      requires alarmNodes == old(alarmNodes) && alarmRepr == old(alarmRepr)
      requires forall h :: h in old(queueHeads) ==> unchanged(h)
      requires forall b :: b in old(semRepr) ==> unchanged(b)
      requires forall b :: b in old(tcbRepr) ==> unchanged(b)
      requires forall n :: n in old(queueNodes + alarmNodes) ==> unchanged(n)
      requires forall x :: x in old(alarmRepr) ==> unchanged(x)
      requires sem.count == sem.history.count && sem.byPriority == sem.history.byPriority
      ensures Wired() && TasksMatch(old(st.tasks))
      ensures QueuesMatch(old(st.ready), old(st.waiting)[q := []]) && SemsMatch(old(st.sems)[q := sem.history])
    {
      hide Wired, QueuesMatch, TasksMatch, SemsMatch, TaskMatches;
      WiredSemaphore(q, sem);
      SemaphoreIn(q, sem);
      TasksStay(q, sem);
    }

    /** A semaphore nobody waits for joins the kernel's. */
    method AddSemaphore(q: SemId, sem: SemaphoreBlock, count: int, byPriority: bool)
      requires Valid() && q !in sems && q !in st.sems && sem.id == q && sem.waitQueue.name == LOWEST_PRIORITY + 1 + q
      requires sem !in semRepr && sem.waitQueue != alarmQueue && sem.waitQueue.nodes == [] &&
               sem.waitQueue.first == null
      requires sem.count == sem.history.count && sem.byPriority == sem.history.byPriority
      requires sem.history == Semaphore(Int8(count), byPriority, Int8(count), 0, 0)
      modifies this`st, this`sems, this`semRepr, this`queueHeads
      ensures sems == old(sems)[q := sem] && semRepr == old(semRepr) + {sem} &&
              queueHeads == old(queueHeads) + {sem.waitQueue}
      ensures Valid() && Typed(old(st)) && st == KernelState.InitSemaphore(old(st), q, count, byPriority)
    {
      hide Family, Wired, QueuesMatch, TasksMatch, SemsMatch, BitsMatch, AlarmsMatch, RestMatches, Typed, TaskMatches,
        Numbered, Nexts, Prevs, Loose, Starts, Int8;
      GrowHeads(queueNodes, queueHeads, sem.waitQueue);
      RegisterSemaphore(q, sem, KernelState.InitSemaphore(st, q, count, byPriority));
      SemaphoreJoins(q, sem);
    }

    /** `eos_init_semaphore` */
    method InitSemaphore(q: SemId, count: int, byPriority: bool) returns (sem: SemaphoreBlock)
      requires Valid() && q !in sems
      modifies this`st, this`sems, this`semRepr, this`queueHeads
      ensures fresh(sem) && fresh(sem.waitQueue)
      ensures sems == old(sems)[q := sem] && semRepr == old(semRepr) + {sem} &&
              queueHeads == old(queueHeads) + {sem.waitQueue}
      ensures Valid() && Typed(old(st)) && q !in old(st).sems &&
              st == KernelState.InitSemaphore(old(st), q, count, byPriority)
    {
      hide Valid, Typed, KernelState.InitSemaphore;
      Fields();
      SemNamed(q);
      sem := new SemaphoreBlock(q, count, byPriority);
      AddSemaphore(q, sem, count, byPriority);
    }

    /** The decrement at the end of `eos_acquire_semaphore` */
    method Take(q: SemId)
      requires Valid() && q in sems
      modifies this`st, semRepr`count, semRepr`history
      ensures Valid() && q in old(st).sems && st == KernelState.Take(old(st), q)
    {
      hide Valid, Typed;
      Fields();
      SemNamed(q);
      ghost var sem := st.sems[q];
      SetCount(q, Int8(sems[q].count - 1), sem.(count := Int8(sem.count - 1), acquired := sem.acquired + 1));
    }

    /** `eos_acquire_semaphore` until it returns or switches to another task */
    method AcquireSemaphore(q: SemId, timeout: int) returns (outcome: Outcome)
      requires Valid() && Typed(st) && st.current.Some? && q in st.sems && KR.UserRuns(st) && KI.Inv(st)
      modifies this`st, this`current, tcbRepr`status, tcbRepr`waitQueueOwner, tcbRepr`pc, queueHeads, index, index.table
      modifies queueNodes`prev, queueNodes`next, queueNodes`list, queueNodes`idx, semRepr`count, semRepr`history
      modifies alarmQueue, alarmNodes`prev, alarmNodes`next, alarmNodes`list, alarmNodes`idx, alarmNodes`orderVal
      modifies alarmRepr`timeout
      ensures q in old(sems)
      ensures outcome.Acquired? <==> !old(locked) && old(sems[q].count) > 0
      ensures outcome.Failed? <==> old(locked) || (old(sems[q].count) <= 0 && timeout < 0)
      ensures Valid() && st == Acquire(old(st), q, timeout) && outcome == AcquireOutcome(old(st), q, timeout)
    {
      hide Valid, Typed, KI.Inv, KI.Placed, KI.RunningOk, KernelState.Schedule, KernelState.SetAlarm, Enqueue,
           KernelState.Take, Enter,
        TaskMatches;
      Fields();
      Calm(st);
      SemNamed(q);
      Times(current);
      if locked {
        return Failed;
      }
      if sems[q].count <= 0 {
        if timeout < 0 {
          return Failed;
        }
        StartWaiting(q, timeout);
        return Blocked;
      }
      Take(q);
      return Acquired;
    }

    /** The alarm is set and the task waits for the first time. */
    method StartWaiting(q: SemId, timeout: nat)
      requires Valid() && Typed(st) && current != null && q in st.sems && Settled(st)
      requires current.id != IDLE && current.status == RUNNING
      modifies this`st, this`current, tcbRepr`status, tcbRepr`waitQueueOwner, tcbRepr`pc, queueHeads, index, index.table
      modifies queueNodes`prev, queueNodes`next, queueNodes`list, queueNodes`idx
      modifies alarmQueue, alarmNodes`prev, alarmNodes`next, alarmNodes`list, alarmNodes`idx, alarmNodes`orderVal
      modifies alarmRepr`timeout
      ensures Valid() && old(st).current.Some? && st == KernelState.Schedule(FirstWait(old(st), q, timeout))
    {
      hide Valid, Typed, KI.Placed, KI.RunningOk, KernelState.Schedule, KernelState.SetAlarm, Enqueue;
      Fields();
      TaskFields(current);
      SemNamed(q);
      KI.PickUp(st, current.id);
      EnteredPlaced(st, q, timeout);
      KS.AlarmRuns(st, current.id, timeout);
      SetAlarm(current, timeout);
      SetPc(current, Acquiring(q, timeout, Add32(tick, timeout)));
      WaitInQueue(q);
    }

    /** The rest of the loop body of `eos_acquire_semaphore` */
    method RetryAcquire() returns (outcome: Outcome)
      requires Valid() && Typed(st) && st.current.Some? && st.tasks[st.current.value].pc.Acquiring? && KI.Inv(st)
      modifies this`st, this`current, tcbRepr`status, tcbRepr`waitQueueOwner, tcbRepr`pc, queueHeads, index, index.table
      modifies queueNodes`prev, queueNodes`next, queueNodes`list, queueNodes`idx, semRepr`count, semRepr`history
      modifies alarmQueue, alarmNodes`prev, alarmNodes`next, alarmNodes`list, alarmNodes`idx, alarmNodes`orderVal
      modifies alarmRepr`timeout
      ensures old(current) != null && old(current.pc).Acquiring? && old(current.pc.sem) in old(sems)
      ensures var pc := old(current.pc); var late := pc.timeout != 0 && pc.deadline <= old(tick);
              (outcome.Failed? <==> late) && (outcome.Acquired? <==> !late && old(sems[current.pc.sem].count) > 0)
      ensures Valid() && st == Retry(old(st)) && outcome == RetryOutcome(old(st))
    {
      hide Valid, Typed, KI.Inv, KI.Placed, KI.RunningOk, KernelState.Schedule, KernelState.SetAlarm, Enqueue,
           KernelState.Take;
      Fields();
      Calm(st);
      Times(current);
      TypedSees(current);
      var q, timeout, deadline := current.pc.sem, current.pc.timeout, current.pc.deadline;
      SemNamed(q);
      if timeout != 0 && deadline <= tick {
        SetPc(current, User);
        return Failed;
      }
      if sems[q].count <= 0 {
        KI.PickUp(st, current.id);
        NotIdle(st);
        WaitInQueue(q);
        return Blocked;
      }
      SetAlarm(current, 0);
      SetPc(current, User);
      Take(q);
      return Acquired;
    }

    /** `eos_release_semaphore` up to the increment */
    method ReleaseSemaphore(q: SemId)
      requires Valid() && Typed(st) && st.current.Some? && q in st.sems
      modifies this`st, tcbRepr`pc, semRepr`count, semRepr`history
      ensures Valid() && st == Release(old(st), q)
    {
      hide Valid, Typed;
      Fields();
      SemNamed(q);
      ghost var sem := st.sems[q];
      SetCount(q, Int8(sems[q].count + 1), sem.(count := Int8(sem.count + 1), released := sem.released + 1));
      SetPc(current, Releasing(q));
    }

    /** The rest of `eos_release_semaphore` */
    method WakeWaiter()
      requires Valid() && Typed(st) && st.current.Some? && st.tasks[st.current.value].pc.Releasing? && KI.Inv(st)
      modifies this`st, this`current, tcbRepr`status, tcbRepr`pc, queueHeads, index, index.table
      modifies queueNodes`prev, queueNodes`next, queueNodes`list, queueNodes`idx
      ensures Valid() && st == Wake(old(st))
    {
      hide Valid, Typed, KI.Inv, KI.ReadyOk, KI.WaitingOk, KI.BitsOk, WakeFromQueue;
      Fields();
      Calm(st);
      TaskFields(current);
      TypedSees(current);
      var q := current.pc.sem;
      KS.SamePlaces(st, current.id, st.tasks[current.id].(pc := User));
      SetPc(current, User);
      SemNamed(q);
      if sems[q].waitQueue.first != null {
        WakeupFromQueue(q);
      } else {
        NobodyWaits(q);
      }
    }

    lemma NobodyWaits(q: SemId)
      requires Valid() && q in sems && sems[q].waitQueue.first == null
      ensures q in st.sems && st == WakeFromQueue(st, q)
    {
      hide Valid, KernelState.Schedule;
      Fields();
      SemNamed(q);
      FrontWaiting(q);
    }

    /** `_os_lock_scheduler` */
    method LockScheduler() returns (was: bool)
      requires Valid()
      modifies this`st, this`locked
      ensures was == old(st).locked && Valid() && Typed(old(st)) && st == Lock(old(st))
    {
      hide Valid, Typed;
      Fields();
      was := locked;
      SetLock(true);
    }

    /** `_os_restore_scheduler` */
    method RestoreScheduler(state: bool)
      requires Valid() && KI.Inv(st)
      modifies this`st, this`locked, this`current, tcbRepr`status, queueHeads, index, index.table
      modifies queueNodes`prev, queueNodes`next, queueNodes`list, queueNodes`idx
      ensures Valid() && Typed(old(st)) && st == Restore(old(st), state)
    {
      hide Valid, KI.Inv, KI.ReadyOk, KI.WaitingOk, KI.BitsOk, KI.RunningOk, KernelState.Schedule;
      Fields();
      Calm(st);
      SetLock(state);
      Schedule();
    }

    /** `_os_init` up to `eos_user_main` */
    static method Boot() returns (kernel: Kernel, idle: Tcb)
      ensures kernel.Valid() && kernel.st == KernelState.Boot() && idle.id == IDLE
      ensures fresh(kernel) && fresh(kernel.tcbRepr) && fresh(kernel.semRepr) && fresh(kernel.queueNodes)
      ensures fresh(kernel.queueHeads) && fresh(kernel.alarmNodes) && fresh(kernel.alarmRepr) &&
              fresh(kernel.alarmQueue)
      ensures fresh(kernel.index) && fresh(kernel.index.table)
    {
      hide Kernel.Valid, Create;
      kernel := new Kernel();
      idle := new Tcb(IDLE);
      var result := kernel.CreateTask(idle, 8096, LOWEST_PRIORITY);
    }
  }

  /** The current task with its alarm set, on the wait queue of `q`. */
  ghost function FirstWait(s: State, q: SemId, timeout: nat): (s': State)
    requires Typed(s) && s.current.Some? && q in s.sems
    ensures Typed(s')
  {
    Enqueue(Enter(s, s.current.value, q, timeout), q)
  }

  /** What `eos_schedule` needs: everybody is in place, and the idle task can run. */
  ghost predicate Settled(s: State) {
    Typed(s) && KI.Placed(s, {}) && KI.RunningOk(s.tasks, s.current)
  }

  /** A control block nobody has used: no links, no owner, no deadline. */
  ghost predicate Zeroed(t: Tcb)
    reads t, t.queueNode, t.alarm, t.alarm.queueNode
  {
    t.status == SUSPENDED && t.waitQueueOwner == null && t.pc == User && t.alarm.timeout == 0 &&
    t.queueNode != t.alarm.queueNode &&
    t.queueNode.pnode == t.id && t.queueNode.list == null && t.queueNode.prev == null && t.queueNode.next == null &&
    t.alarm.queueNode.pnode == t.id && t.alarm.queueNode.list == null && t.alarm.queueNode.prev == null &&
    t.alarm.queueNode.next == null && t.alarm.queueNode.orderVal == 0
  }

  ghost function NewTask(priority: nat): Task { Task(SUSPENDED, priority, 0, 0, None, 0, User) }

  lemma AsleepSettled(s: State, t: TaskId, timeout: nat)
    requires Settled(s) && s.current == Some(t) && t != IDLE && s.tasks[t].pc.User? && s.tasks[t].status == RUNNING
    ensures Settled(KernelState.SetStatus(KernelState.SetAlarm(s, t, timeout), t, WAITING))
  {
    hide KI.ReadyOk, KI.WaitingOk, KI.BitsOk, KernelState.SetAlarm;
    KI.PickUp(s, t);
    KS.AlarmRuns(s, t, timeout);
    KS.AlarmPlaced(s, t, timeout);
    KI.PutDownAs(KernelState.SetAlarm(s, t, timeout), t, WAITING);
  }

  lemma EnqueuedSettled(s: State, q: SemId)
    requires Typed(s) && s.current.Some? && q in s.sems && KI.Placed(s, {s.current.value}) &&
             KI.RunningOk(s.tasks, s.current)
    requires s.current.value != IDLE && s.tasks[s.current.value].pc.Acquiring? && s.tasks[s.current.value].pc.sem == q
    ensures Settled(Enqueue(s, q))
  {
    hide KI.ReadyOk, KI.WaitingOk, KI.BitsOk;
    KI.PutWaiting(s, q);
  }

  lemma CreatedSettled(s: State, t: TaskId, priority: nat)
    requires Typed(s) && KI.Placed(s, {}) && (KI.RunningOk(s.tasks, s.current) || (s.tasks == map[] && t == IDLE))
    requires t !in s.tasks && priority <= LOWEST_PRIORITY
    ensures var s1 := s.(tasks := s.tasks[t := NewTask(priority)]);
            Typed(s1) && KI.Placed(s1, {t}) && Settled(KernelState.MakeReady(s1, t))
  {
    hide KI.ReadyOk, KI.WaitingOk, KI.BitsOk;
    var s1 := s.(tasks := s.tasks[t := NewTask(priority)]);
    assert Typed(s1);
    hide Typed;
    KS.NewTaskKeeps(s, t, NewTask(priority));
    KI.PutReady(s1, t);
  }

  lemma CreateAllowed(s: State, t: TaskId)
    requires KI.Inv(s) || (s == Empty() && t == IDLE)
    ensures Typed(s) && KI.Placed(s, {}) && (KI.RunningOk(s.tasks, s.current) || (s.tasks == map[] && t == IDLE))
  {
  }

  /** An empty list may join the lists of a family. */
  lemma GrowHeads(nodes: set<Node>, heads: set<Head>, h: Head)
    requires Family(nodes, heads) && h.first == null && h.nodes == []
    ensures Family(nodes, heads + {h})
  {
  }

  /** A loose node may join the nodes of a family. */
  lemma GrowFamily(nodes: set<Node>, heads: set<Head>, x: Node)
    requires Family(nodes, heads) && x !in nodes && x.list == null && x.prev == null && x.next == null
    ensures Family(nodes + {x}, heads)
  {
  }

  /** The first task of a wait queue is on that queue alone. */
  lemma TakenSettled(s: State, q: SemId)
    requires Settled(s) && q in s.sems && s.waiting[q] != []
    ensures var t := s.waiting[q][0];
            var s1 := s.(waiting := s.waiting[q := Delete(s.waiting[q], t)]);
            t in s.tasks && KernelState.Unlink(s, t) == s1 && KI.Placed(s1, {t}) &&
            Settled(KernelState.MakeReady(s1, t))
  {
    hide KI.ReadyOk, KI.WaitingOk, KI.BitsOk, KernelState.Unlink, Delete;
    var t := s.waiting[q][0];
    var s1 := s.(waiting := s.waiting[q := Delete(s.waiting[q], t)]);
    KS.FirstWaiter(s, q);
    OnlyWaiting(s, q);
    KI.PickFromWaiting(s, q);
    KI.PutReady(s1, t);
  }

  lemma OnlyWaiting(s: State, q: SemId)
    requires Typed(s) && KI.Placed(s, {}) && q in s.sems && s.waiting[q] != []
    ensures var t := s.waiting[q][0]; KernelState.Unlink(s, t) == s.(waiting := s.waiting[q := Delete(s.waiting[q], t)])
  {
    hide Delete;
    var t := s.waiting[q][0];
    assert t in s.waiting[q] && s.tasks[t].status == WAITING;
    assert forall a :: a in s.waiting && a != q ==> t !in s.waiting[a];
    assert forall p :: 0 <= p <= LOWEST_PRIORITY ==> t !in s.ready[p];
    var s' := KernelState.Unlink(s, t);
    assert s'.waiting == s.waiting[q := Delete(s.waiting[q], t)];
    assert s'.ready == s.ready;
  }

  lemma BlockedThere(s: State, t: TaskId)
    requires KI.Placed(s, {}) && t in s.tasks && s.tasks[t].status == WAITING && s.tasks[t].pc.Acquiring?
    ensures s.tasks[t].pc.sem in s.waiting && t in s.waiting[s.tasks[t].pc.sem] &&
            s.tasks[t].owner == Some(s.tasks[t].pc.sem)
  {
  }

  lemma LoopSettled(s: State)
    requires KS.LoopInv(s)
    ensures Settled(s)
  {
  }

  lemma ChangedSettled(s: State, t: TaskId, priority: nat)
    requires KI.Inv(s) && t in s.tasks && priority <= LOWEST_PRIORITY
    ensures s.tasks[t].status == READY ==>
      var s1 := LeaveReady(s, t);
      Settled(KernelState.MakeReady(With(s1, t, s1.tasks[t].(priority := priority)), t)) && KI.Placed(s1, {t})
    ensures s.tasks[t].status != READY ==> Settled(With(s, t, s.tasks[t].(priority := priority)))
  {
    hide KI.ReadyOk, KI.WaitingOk, KI.BitsOk, KI.AlarmsOk;
    if s.tasks[t].status == READY {
      KI.PickFromReady(s, t);
      KS.ChangeReadyPriority(s, t, priority);
    } else {
      KS.PriorityPlaced(s, t, priority);
    }
  }

  lemma EnteredPlaced(s: State, q: SemId, timeout: nat)
    requires Typed(s) && s.current.Some? && q in s.sems && KI.Placed(s, {s.current.value}) &&
             KI.RunningOk(s.tasks, s.current)
    ensures var s1 := Enter(s, s.current.value, q, timeout);
            KI.Placed(s1, {s.current.value}) &&
            (s.tasks[s.current.value].status == RUNNING && s.current.value != IDLE ==>
              KI.RunningOk(s1.tasks, s1.current))
  {
    hide KI.Placed, KernelState.SetAlarm;
    KS.EnterPlaced(s, s.current.value, q, timeout);
    KS.AlarmRuns(s, s.current.value, timeout);
  }

  /** The idle task is never in an acquire. */
  lemma NotIdle(s: State)
    requires Settled(s) && s.current.Some? && !s.tasks[s.current.value].pc.User?
    ensures s.current.value != IDLE
  {
  }

  /** Appending to the new queue before the priority is written comes to the same. */
  lemma Repriced(s: State, t: TaskId, priority: nat)
    requires Typed(s) && t in s.tasks && s.tasks[t].status == READY && priority <= LOWEST_PRIORITY
    ensures var s1, task := LeaveReady(s, t), s.tasks[t].(priority := priority);
            With(ReadyLast(s1, priority, t).(bits := s1.bits + {priority}), t, task) ==
              KernelState.MakeReady(With(s1, t, task), t)
  {
    hide Delete;
    var task := s.tasks[t].(priority := priority);
    assert s.tasks[t := task][t := task] == s.tasks[t := task];
  }

  lemma Calm(s: State)
    requires KI.Inv(s)
    ensures Settled(s) && (s.current.Some? ==> s.tasks[s.current.value].status == RUNNING)
  {
  }

  lemma IsHighest(bits: set<nat>, p: nat)
    requires bits != {} && p in bits && p <= LOWEST_PRIORITY && forall q :: q in bits ==> p <= q
    ensures p == Highest(bits)
  {
  }

  /** A READY task is on its ready queue alone. */
  lemma OnlyThere(s: State, t: TaskId)
    requires Typed(s) && KI.Placed(s, {}) && t in s.tasks && s.tasks[t].status == READY
    ensures var p := s.tasks[t].priority;
            KernelState.Unlink(s, t) == s.(ready := s.ready[p := Delete(s.ready[p], t)])
  {
    var s', p := KernelState.Unlink(s, t), s.tasks[t].priority;
    assert forall q :: q in s.waiting ==> t !in s.waiting[q];
    assert s'.waiting == s.waiting;
    assert s'.ready == s.ready[p := Delete(s.ready[p], t)];
  }
}
