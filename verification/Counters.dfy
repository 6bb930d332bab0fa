/**
  `core/timer.c` on the heap: a counter with its alarm queue as a linked list, and alarm blocks with
  embedded nodes.  Handlers set and cancel alarms of the counter while its loop walks the queue.
 */
module Counters {
  import opened Queues
  import opened IntrusiveList
  import opened Timer
  import K = KernelState

  /** `eos_alarm_t` without its handler: what the handlers ask for is a script. */
  class Alarm {
    const id: nat
    var timeout: nat
    const queueNode: Node

    /** A zeroed block at address `id` */
    constructor (id: nat)
      ensures this.id == id && timeout == 0 && fresh(queueNode) && queueNode.pnode == id && queueNode.orderVal == 0
      ensures queueNode.list == null && queueNode.prev == null && queueNode.next == null
    {
      this.id, timeout := id, 0;
      queueNode := new Node(id);
    }
  }

  /** `eos_counter_t`; `alarms` are the blocks in memory by their addresses, `calls` counts the
      handlers that have run, and `clock` is the value the counter stands for. */
  class Counter {
    var tick: nat
    const alarmQueue: Head
    const alarms: map<nat, Alarm>
    var calls: nat

    ghost var clock: Clock
    ghost const nodes: set<Node>
    ghost const blocks: set<Alarm>

    /** Every address leads to its block, and every node to the block it is part of. */
    ghost predicate Wired() {
      (forall a :: a in alarms ==> alarms[a].id == a && alarms[a] in blocks &&
                                   alarms[a].queueNode in nodes && alarms[a].queueNode.pnode == a) &&
      (forall b :: b in blocks ==> b.id in alarms && alarms[b.id] == b) &&
      (forall n :: n in nodes ==> n.pnode in alarms && alarms[n.pnode].queueNode == n)
    }

    ghost predicate BlocksMatch(timeouts: map<nat, nat>)
      reads nodes`orderVal, blocks
    {
      Wired() && timeouts.Keys == alarms.Keys &&
      forall a :: a in alarms ==> alarms[a].timeout == timeouts[a] && alarms[a].queueNode.orderVal == timeouts[a]
    }

    ghost predicate QueueMatches(queue: seq<nat>)
      reads alarmQueue
    {
      Names(alarmQueue.nodes) == queue
    }

    ghost predicate Valid()
      reads this, nodes, blocks, alarmQueue
    {
      Wired() && Ok(clock) && Family(nodes, {alarmQueue}) && BlocksMatch(clock.timeouts) && QueueMatches(clock.queue) &&
      clock.tick == tick && clock.calls == calls
    }

    /** `eos_init_counter`, among the alarm blocks `alarms` that nobody has used */
    constructor (initValue: nat, alarms: map<nat, Alarm>)
      requires initValue < K.WORD
      requires forall a :: a in alarms ==>
        alarms[a].id == a && alarms[a].timeout == 0 && alarms[a].queueNode.pnode == a &&
        alarms[a].queueNode.orderVal == 0 &&
        alarms[a].queueNode.list == null && alarms[a].queueNode.prev == null && alarms[a].queueNode.next == null
      ensures Valid() && AllAhead(clock) && this.alarms == alarms
      ensures clock == Clock(initValue, [], map a | a in alarms :: 0, 0)
    {
      hide Wired, Family, BlocksMatch, QueueMatches, Ok;
      tick, this.alarms, calls := initValue, alarms, 0;
      alarmQueue := new Head(0);
      clock := Clock(initValue, [], map a | a in alarms :: 0, 0);
      nodes := set a | a in alarms :: alarms[a].queueNode;
      blocks := set a | a in alarms :: alarms[a];
      new;
      NothingQueued(initValue);
    }

    lemma NothingQueued(initValue: nat)
      requires initValue < K.WORD && tick == initValue && calls == 0 && alarmQueue.first == null &&
               alarmQueue.nodes == []
      requires forall a :: a in alarms ==>
        alarms[a].id == a && alarms[a].timeout == 0 && alarms[a].queueNode.pnode == a &&
        alarms[a].queueNode.orderVal == 0 &&
        alarms[a].queueNode.list == null && alarms[a].queueNode.prev == null && alarms[a].queueNode.next == null
      requires nodes == (set a | a in alarms :: alarms[a].queueNode) && blocks == set a | a in alarms :: alarms[a]
      requires clock == Clock(initValue, [], map a | a in alarms :: 0, 0)
      ensures Wired() && Ok(clock) && Family(nodes, {alarmQueue}) && BlocksMatch(clock.timeouts) &&
              QueueMatches(clock.queue)
      ensures AllAhead(clock)
    {
    }

    // ----- single writes

    lemma BlockOf(alarm: Alarm)
      requires Wired() && alarm in blocks
      ensures alarm.id in alarms && alarms[alarm.id] == alarm
      ensures alarm.queueNode in nodes && alarm.queueNode.pnode == alarm.id && Addressed(nodes)
    {
    }

    lemma QueueNumbered()
      requires Valid()
      ensures Numbered(nodes, {alarmQueue})
      ensures forall n :: n in nodes && n.list != null ==> n.list == alarmQueue && n.idx < |alarmQueue.nodes|
    {
      hide Wired, BlocksMatch, QueueMatches, Nexts, Prevs, Loose, Starts;
    }

    twostate lemma NameGone(new x: Node)
      requires old(allocated(x)) && unchanged(this) && x in nodes && Addressed(nodes)
      requires old(Numbered(nodes, {alarmQueue}) && QueueMatches(clock.queue))
      requires old(x.list) == alarmQueue ==>
        old(x.idx) < |old(alarmQueue.nodes)| && alarmQueue.nodes == Removed(old(alarmQueue.nodes), old(x.idx))
      requires old(x.list) != alarmQueue ==> alarmQueue.nodes == old(alarmQueue.nodes)
      ensures QueueMatches(Delete(clock.queue, x.pnode))
    {
      NamesAfter(alarmQueue, x, nodes, {alarmQueue});
    }

    /** `_os_remove_node` on the alarm */
    method Remove(alarm: Alarm)
      requires Valid() && alarm in blocks
      modifies this`clock, alarmQueue, nodes`prev, nodes`next, nodes`list, nodes`idx
      ensures alarm.queueNode.list == null
      ensures Valid() && clock == old(clock).(queue := Delete(old(clock).queue, alarm.id))
    {
      hide Family, Wired, BlocksMatch, QueueMatches, Addressed, Numbered, Delete;
      BlockOf(alarm);
      QueueNumbered();
      DeleteSorted(clock.queue, alarm.id, clock.timeouts);
      var removed, list := RemoveNode(alarmQueue, alarm.queueNode, nodes, {alarmQueue});
      NameGone(alarm.queueNode);
      clock := clock.(queue := Delete(clock.queue, alarm.id));
    }

    twostate lemma BlockWritten(new alarm: Alarm, new timeout: nat)
      requires old(allocated(alarm)) && old(BlocksMatch(clock.timeouts)) && unchanged(this) && alarm in blocks
      requires alarm.timeout == timeout && alarm.queueNode.orderVal == timeout
      requires forall b :: b in blocks && b != alarm ==> b.timeout == old(b.timeout)
      requires forall n :: n in nodes && n != alarm.queueNode ==> n.orderVal == old(n.orderVal)
      ensures BlocksMatch(clock.timeouts[alarm.id := timeout])
    {
      assert forall a :: a in alarms && a != alarm.id ==> alarms[a] != alarm && alarms[a].queueNode != alarm.queueNode;
    }

    /** The deadline of an alarm that is not queued */
    method SetDeadline(alarm: Alarm, timeout: nat)
      requires Valid() && alarm in blocks && alarm.id !in clock.queue
      modifies this`clock, alarm`timeout, alarm.queueNode`orderVal
      ensures Valid() && clock == old(clock).(timeouts := old(clock).timeouts[alarm.id := timeout])
    {
      hide Family, Wired, BlocksMatch, QueueMatches;
      BlockOf(alarm);
      SortedBySame(clock.queue, clock.timeouts, clock.timeouts[alarm.id := timeout]);
      alarm.timeout := timeout;
      alarm.queueNode.orderVal := alarm.timeout;
      BlockWritten(alarm, timeout);
      clock := clock.(timeouts := clock.timeouts[alarm.id := timeout]);
    }

    /** The order values of the queued nodes are the deadlines. */
    lemma OrderIsDeadline()
      requires Valid()
      ensures OrderVals(alarmQueue.nodes) == KeysOf(clock.queue, clock.timeouts)
    {
      hide Nexts, Prevs, Loose;
      forall i | 0 <= i < |alarmQueue.nodes|
        ensures alarmQueue.nodes[i].pnode in clock.timeouts &&
                alarmQueue.nodes[i].orderVal == clock.timeouts[alarmQueue.nodes[i].pnode]
      {
        assert alarmQueue.nodes[i] in nodes;
      }
    }

    twostate lemma NameFiled(new x: Node, new k: nat)
      requires old(allocated(x)) && unchanged(this) && old(QueueMatches(clock.queue))
      requires k <= |old(alarmQueue.nodes)| && alarmQueue.nodes == Insert(old(alarmQueue.nodes), k, x)
      ensures k <= |clock.queue| && QueueMatches(clock.queue[..k] + [x.pnode] + clock.queue[k..])
    {
      NamesOfInsert(old(alarmQueue.nodes), k, x);
    }

    /** `_os_add_node_ordered` on an alarm that is not queued */
    method Add(alarm: Alarm)
      requires Valid() && alarm in blocks && alarm.queueNode.list == null && alarm.id !in clock.queue &&
               alarm.id in clock.timeouts
      modifies this`clock, alarmQueue, nodes`prev, nodes`next, nodes`list, nodes`idx
      ensures Valid() && clock == old(clock).(queue := InsertOrdered(old(clock).queue, alarm.id, old(clock).timeouts))
    {
      hide Family, Wired, BlocksMatch, QueueMatches;
      BlockOf(alarm);
      Deadline(alarm);
      OrderIsDeadline();
      InsertOrderedStable(clock.queue, alarm.id, clock.timeouts);
      ghost var k := FirstAbove(OrderVals(alarmQueue.nodes), alarm.queueNode.orderVal);
      AddNodeOrdered(alarmQueue, alarm.queueNode, nodes, {alarmQueue});
      NameFiled(alarm.queueNode, k);
      clock := clock.(queue := InsertOrdered(clock.queue, alarm.id, clock.timeouts));
    }

    lemma Deadline(alarm: Alarm)
      requires Valid() && alarm in blocks
      ensures alarm.id in clock.timeouts && alarm.timeout == clock.timeouts[alarm.id] == alarm.queueNode.orderVal
    {
      hide Family, QueueMatches;
    }

    lemma IsOk()
      requires Valid()
      ensures Ok(clock) && clock.tick == tick && clock.calls == calls && clock.timeouts.Keys == alarms.Keys
    {
      hide Family, Wired, QueueMatches;
    }

    lemma InNodes(alarm: Alarm)
      requires Valid() && alarm in blocks
      ensures alarm.queueNode in nodes && alarm.id in clock.timeouts
    {
      hide Family, QueueMatches;
    }

    // ----- the calls

    /** `eos_set_alarm` */
    method SetAlarm(alarm: Alarm, timeout: nat)
      requires Valid() && alarm in blocks
      modifies this`clock, alarmQueue, nodes`prev, nodes`next, nodes`list, nodes`idx, nodes`orderVal, blocks`timeout
      ensures Valid() && Ok(old(clock)) && clock == AlarmSet(old(clock), alarm.id, timeout)
    {
      hide Valid, Sorted;
      IsOk();
      InNodes(alarm);
      DeleteSorted(clock.queue, alarm.id, clock.timeouts);
      Remove(alarm);
      if timeout == 0 {
        return;
      }
      IsOk();
      SetDeadline(alarm, K.Add32(tick, timeout));
      Add(alarm);
    }

    /** What a handler asks for names alarms there are. */
    ghost predicate Known(requests: seq<Request>) {
      forall i :: 0 <= i < |requests| ==> requests[i].alarm in alarms
    }

    /** A handler: it calls `eos_set_alarm` any number of times. */
    method Handle(requests: seq<Request>)
      requires Valid() && Known(requests)
      modifies this`clock, alarmQueue, nodes`prev, nodes`next, nodes`list, nodes`idx, nodes`orderVal, blocks`timeout
      ensures Valid() && Ok(old(clock)) && clock == SetAll(old(clock), requests)
    {
      hide Valid, AlarmSet, SetAll, Ok;
      IsOk();
      var i := 0;
      while i < |requests|
        invariant 0 <= i <= |requests| && Valid() && Ok(clock)
        invariant SetAll(clock, requests[i..]) == SetAll(old(clock), requests)
      {
        SetAllStep(clock, requests[i..]);
        assert requests[i..][1..] == requests[i + 1..];
        BlockAt(requests[i].alarm);
        SetAlarm(alarms[requests[i].alarm], requests[i].timeout);
        IsOk();
        i := i + 1;
      }
      SetAllStep(clock, requests[i..]);
    }

    lemma SetAllStep(c: Clock, requests: seq<Request>)
      requires Ok(c)
      ensures SetAll(c, requests) == if requests == [] then c
                                     else SetAll(AlarmSet(c, requests[0].alarm, requests[0].timeout), requests[1..])
    {
      hide Ok, AlarmSet;
    }

    lemma BlockAt(a: nat)
      requires Valid() && a in alarms
      ensures alarms[a] in blocks && alarms[a].id == a
    {
      hide Family, QueueMatches, BlocksMatch;
    }

    /** What `alarm_queue->pnode` is. */
    lemma First()
      requires Valid()
      ensures alarmQueue.first == null <==> clock.queue == []
      ensures alarmQueue.first != null ==>
        alarmQueue.first.pnode == clock.queue[0] && alarmQueue.first.pnode in alarms &&
        clock.queue[0] in clock.timeouts &&
        alarms[clock.queue[0]].timeout == clock.timeouts[clock.queue[0]] &&
        alarms[clock.queue[0]] in blocks && alarms[clock.queue[0]].id == clock.queue[0]
    {
      hide Nexts, Prevs, Loose;
      if alarmQueue.nodes != [] {
        assert alarmQueue.nodes[0] in nodes;
      }
    }

    lemma FirstGone()
      requires Ok(clock) && clock.queue != []
      ensures Delete(clock.queue, clock.queue[0]) == clock.queue[1..]
    {
      FirstDeleted(clock.queue);
    }

    /** The first alarm leaves the queue, and the call of its handler is counted. */
    method Pop(alarm: Alarm)
      requires Valid() && clock.queue != [] && alarm in blocks && alarm.id == clock.queue[0]
      modifies this`clock, this`calls, alarmQueue, nodes`prev, nodes`next, nodes`list, nodes`idx
      ensures Valid() && clock == old(clock).(queue := old(clock).queue[1..], calls := old(clock).calls + 1)
    {
      hide Family, BlocksMatch, QueueMatches, Wired, Sorted, Delete;
      FirstGone();
      Remove(alarm);
      calls := calls + 1;
      clock := clock.(calls := clock.calls + 1);
    }

    /** One round of the loop: the first alarm leaves the queue and its handler runs. */
    method FireAlarm(alarm: Alarm, script: Script)
      requires Valid() && Known(script(calls)) && clock.queue != [] && alarm in blocks && alarm.id == clock.queue[0]
      modifies this`clock, this`calls, alarmQueue
      modifies nodes`prev, nodes`next, nodes`list, nodes`idx, nodes`orderVal, blocks`timeout
      ensures Valid() && Ok(old(clock)) && clock == FireFirst(old(clock), script)
    {
      hide Valid, SetAll, Ok, Known;
      IsOk();
      var k := calls;
      Pop(alarm);
      Handle(script(k));
    }

    /** `tick++` */
    method Advance()
      requires Valid() && tick + 1 < K.WORD
      modifies this`clock, this`tick
      ensures Valid() && clock == old(clock).(tick := K.Add32(old(clock).tick, 1))
    {
      hide Family, BlocksMatch, QueueMatches, Wired;
      tick := K.Add32(tick, 1);
      clock := clock.(tick := tick);
    }

    /** The alarm `alarm_queue->pnode`, NULL when the queue is empty */
    method FirstAlarm() returns (alarm: Alarm?)
      requires Valid()
      ensures if clock.queue == [] then alarm == null else IsFirst(alarm)
    {
      First();
      if alarmQueue.first != null {
        alarm := alarms[alarmQueue.first.pnode];
      } else {
        alarm := null;
      }
    }

    ghost predicate IsFirst(alarm: Alarm?)
      reads this`clock, alarm
    {
      alarm != null && alarm in blocks && clock.queue != [] && alarm.id == clock.queue[0] &&
      clock.queue[0] in clock.timeouts && alarm.timeout == clock.timeouts[clock.queue[0]]
    }

    /** With `fired` behind it, the loop comes from `c` to `here`. */
    ghost predicate Came(c: Clock, here: Clock, fired: seq<nat>, script: Script) {
      Ok(c) && Ok(here) && Fits(script, c.tick) && here.tick == c.tick &&
      Fire(here, script).0 == Fire(c, script).0 && fired + Fire(here, script).1 == Fire(c, script).1
    }

    lemma CameOne(c: Clock, here: Clock, fired: seq<nat>, script: Script)
      requires Came(c, here, fired, script) && Due(here) != []
      ensures here.queue != [] && |Due(FireFirst(here, script))| < |Due(here)|
      ensures Came(c, FireFirst(here, script), fired + [here.queue[0]], script)
    {
      hide Due, FireFirst, Ok, Fits;
      DueAfterFirst(here, script);
      var front, rest := here.queue[0], Fire(FireFirst(here, script), script).1;
      assert fired + ([front] + rest) == fired + [front] + rest;
    }

    lemma CameAll(c: Clock, here: Clock, fired: seq<nat>, script: Script)
      requires Came(c, here, fired, script) && Due(here) == []
      ensures (here, fired) == Fire(c, script)
    {
      hide Due, FireFirst, Ok, Fits;
      assert fired + [] == fired;
    }

    lemma CameNone(c: Clock, script: Script)
      requires Ok(c) && Fits(script, c.tick)
      ensures Came(c, c, [], script)
    {
      hide Ok, Fits, Fire;
      assert [] + Fire(c, script).1 == Fire(c, script).1;
    }

    /** The loop of `eos_trigger_counter`: `alarm` is read from the head of the queue anew after
        every handler.  It ends. */
    method FireAll(script: Script) returns (ghost fired: seq<nat>)
      requires Valid() && Ok(clock) && Fits(script, clock.tick) && forall k :: Known(script(k))
      modifies this`clock, this`calls, alarmQueue
      modifies nodes`prev, nodes`next, nodes`list, nodes`idx, nodes`orderVal, blocks`timeout
      ensures Valid() && (clock, fired) == Fire(old(clock), script)
    {
      hide Valid, Ok, Due, Fire, FireFirst, Known, Came, Fits;
      IsOk();
      ghost var c := clock;
      fired := [];
      CameNone(c, script);
      var alarm := FirstAlarm();
      while alarm != null
        invariant Valid() && Ok(clock) && clock.tick == tick == c.tick && Came(c, clock, fired, script)
        invariant if clock.queue == [] then alarm == null else IsFirst(alarm)
        decreases |Due(clock)|
      {
        FrontDue(clock);
        if alarm.timeout > tick {
          break;
        }
        CameOne(c, clock, fired, script);
        fired := fired + [clock.queue[0]];
        FireAlarm(alarm, script);
        IsOk();
        alarm := FirstAlarm();
      }
      FrontDue(clock);
      CameAll(c, clock, fired, script);
    }

    /** `eos_trigger_counter` up to the call of `eos_schedule` */
    method TriggerCounter(script: Script) returns (ghost fired: seq<nat>)
      requires Valid() && Allowed(clock, Tick, script) && forall k :: Known(script(k))
      modifies this`clock, this`calls, this`tick, alarmQueue
      modifies nodes`prev, nodes`next, nodes`list, nodes`idx, nodes`orderVal, blocks`timeout
      ensures Valid() && Ok(old(clock)) && (clock, fired) == Trigger(old(clock), script)
      ensures AllAhead(clock)
    {
      hide Valid, Ok, Fire, Known, AllAhead, Fits;
      IsOk();
      Advance();
      IsOk();
      FireLeavesAhead(clock, script);
      fired := FireAll(script);
    }
  }
}
