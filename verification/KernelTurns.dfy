/** Tasks of equal priority take turns. */
module KernelTurns {
  import opened Queues
  import opened ReadyBitmap
  import opened KernelState
  import opened KernelInvariant
  import opened KernelSteps

  /** The tasks that share the running task's priority, in the order of their turns. */
  ghost function Ring(s: State): (ring: seq<TaskId>)
    requires Typed(s) && s.current.Some?
    ensures ring != [] && ring[0] == s.current.value
  {
    [s.current.value] + s.ready[s.tasks[s.current.value].priority]
  }

  /** `s` when `t` runs, `rest` waits behind it at priority `p`, and all others are as in `s`. */
  ghost function Seated(s: State, p: nat, t: TaskId, rest: seq<TaskId>): State
    requires p < |s.ready|
  {
    s.(tasks := map x | x in s.tasks ::
                  if x == t then s.tasks[x].(status := RUNNING)
                  else if x in rest then s.tasks[x].(status := READY) else s.tasks[x],
       ready := s.ready[p := rest], current := Some(t))
  }

  lemma RingIsReady(s: State)
    requires Inv(s) && !s.locked
    ensures var c := s.current.value; var p := s.tasks[c].priority;
            Distinct(Ring(s)) && Distinct(s.ready[p]) && (p in s.bits <==> s.ready[p] != []) &&
            (forall q :: q in s.bits ==> p <= q && q <= LOWEST_PRIORITY) &&
            (forall t :: t in s.ready[p] ==> t in s.tasks && t != c && s.tasks[t].status == READY &&
                                             s.tasks[t].priority == p)
  {
    hide WaitingOk, AlarmsOk;
    var c := s.current.value;
    var p := s.tasks[c].priority;
    assert Ring(s)[1..] == s.ready[p];
    forall q | q in s.bits
      ensures p <= q <= LOWEST_PRIORITY
    {
      var t := s.ready[q][0];
      assert t in s.ready[q] && s.tasks[t].status == READY && s.tasks[t].priority == q;
    }
  }

  /** What `eos_schedule` does when the running task ties with the head of the ready queues. */
  lemma OneTurn(s: State)
    requires Inv(s) && !s.locked
    ensures var ring, p := Ring(s), s.tasks[s.current.value].priority;
            Schedule(s) == if |ring| == 1 then s else Seated(s, p, ring[1], ring[2..] + [ring[0]])
  {
    hide ReadyOk, WaitingOk, BitsOk, AlarmsOk, RunningOk, Seated, Schedule, Distinct;
    RingIsReady(s);
    var ring, c := Ring(s), s.current.value;
    var p := s.tasks[c].priority;
    if |ring| == 1 {
      AloneAgain(s, c, p);
    } else {
      NextInLine(s, c, p);
      assert ring[1] == s.ready[p][0] && ring[2..] == s.ready[p][1..];
    }
  }

  lemma AloneAgain(s: State, c: TaskId, p: nat)
    requires Typed(s) && !s.locked && s.current == Some(c) && s.tasks[c].status == RUNNING && s.tasks[c].priority == p
    requires s.ready[p] == [] && p !in s.bits && forall q :: q in s.bits ==> p <= q
    ensures Schedule(s) == s
  {
    hide Typed, Delete;
    var s1 := Requeue(s);
    RightBack(s, c, p);
    assert Highest(s1.bits) == p;
    assert Delete([c], c) == [] by { FirstDeleted([c]); }
    assert s1.ready[p := []] == s.ready;
    assert s1.bits - {p} == s.bits;
    assert s.tasks[c].(status := RUNNING) == s.tasks[c];
  }

  lemma RightBack(s: State, c: TaskId, p: nat)
    requires Typed(s) && s.current == Some(c) && s.tasks[c].status == RUNNING && s.tasks[c].priority == p &&
             s.ready[p] == []
    ensures p <= LOWEST_PRIORITY && |s.ready| == LOWEST_PRIORITY + 1 && c in s.tasks
    ensures Requeue(s) == s.(tasks := s.tasks[c := s.tasks[c].(status := READY)], ready := s.ready[p := [c]],
                             bits := s.bits + {p})
  {
    assert [] + [c] == [c];
  }

  lemma NextInLine(s: State, c: TaskId, p: nat)
    requires Typed(s) && !s.locked && s.current == Some(c) && s.tasks[c].status == RUNNING && s.tasks[c].priority == p
    requires s.ready[p] != [] && p in s.bits && forall q :: q in s.bits ==> p <= q
    requires forall t :: t in s.ready[p] ==> t in s.tasks && t != c && s.tasks[t].status == READY &&
                                             s.tasks[t].priority == p
    requires Distinct(s.ready[p])
    ensures Schedule(s) == Seated(s, p, s.ready[p][0], s.ready[p][1..] + [c])
  {
    var t, rest := s.ready[p][0], s.ready[p][1..] + [c];
    var s1 := Requeue(s);
    assert s1.ready[p] == [t] + rest && s1.bits == s.bits && Highest(s1.bits) == p;
    assert t in s.ready[p];
    HeadLeaves(s1, p, t, rest);
    SeatedTasks(s, c, p);
    assert s1.ready[p := rest] == s.ready[p := rest];
  }

  lemma HeadLeaves(s: State, p: nat, t: TaskId, rest: seq<TaskId>)
    requires Typed(s) && p <= LOWEST_PRIORITY && s.ready[p] == [t] + rest && rest != [] && t in s.tasks &&
             s.tasks[t].priority == p
    ensures Run(s, t) == s.(tasks := s.tasks[t := s.tasks[t].(status := RUNNING)], ready := s.ready[p := rest],
                            current := Some(t))
  {
    assert IndexOf(s.ready[p], t) == 0;
    assert Delete(s.ready[p], t) == rest;
  }

  lemma SeatedTasks(s: State, c: TaskId, p: nat)
    requires p < |s.ready| && s.ready[p] != [] && c in s.tasks
    requires forall t :: t in s.ready[p] ==> t in s.tasks && t != c && s.tasks[t].status == READY
    requires Distinct(s.ready[p])
    ensures var t := s.ready[p][0];
            s.tasks[c := s.tasks[c].(status := READY)][t := s.tasks[t].(status := RUNNING)]
              == Seated(s, p, t, s.ready[p][1..] + [c]).tasks
  {
    var q := s.ready[p];
    assert q[0] in q && forall x :: x in q[1..] ==> x in q;
    assert forall x :: x in q[1..] ==> s.tasks[x].(status := READY) == s.tasks[x];
  }

  // ----- many turns

  ghost function ScheduleN(s: State, k: nat): (s': State)
    requires Typed(s)
    ensures Typed(s')
  {
    if k == 0 then s else Schedule(ScheduleN(s, k - 1))
  }

  /** The ring `k` turns on. */
  ghost function Turn(s: State, ring: seq<TaskId>, p: nat, k: nat): State
    requires p < |s.ready| && k < |ring|
  {
    Seated(s, p, ring[k], ring[k + 1..] + ring[..k])
  }

  lemma NoTurn(s: State)
    requires Inv(s) && !s.locked
    ensures Turn(s, Ring(s), s.tasks[s.current.value].priority, 0) == s
  {
    hide WaitingOk, AlarmsOk, BitsOk;
    RingIsReady(s);
    var ring := Ring(s);
    assert ring[1..] + ring[..0] == s.ready[s.tasks[s.current.value].priority];
    assert forall x :: x in s.tasks ==> s.tasks[x].(status := s.tasks[x].status) == s.tasks[x];
  }

  /** Reseating the same tasks once more. */
  lemma Reseat(s: State, p: nat, t: TaskId, rest: seq<TaskId>, t': TaskId, rest': seq<TaskId>)
    requires p < |s.ready| && t' in rest && (forall x :: x in rest' <==> x == t || (x in rest && x != t'))
    requires t !in rest
    ensures Seated(Seated(s, p, t, rest), p, t', rest') == Seated(s, p, t', rest')
  {
  }

  lemma NextTurn(s: State, ring: seq<TaskId>, p: nat, k: nat)
    requires p <= LOWEST_PRIORITY && 1 < |ring| && k < |ring| && |s.ready| == LOWEST_PRIORITY + 1
    requires Distinct(ring) && (forall x :: x in ring ==> x in s.tasks && s.tasks[x].priority == p)
    requires var x := Turn(s, ring, p, k); Inv(x) && !x.locked
    ensures Schedule(Turn(s, ring, p, k)) == Turn(s, ring, p, if k + 1 == |ring| then 0 else k + 1)
  {
    hide ReadyOk, WaitingOk, BitsOk, AlarmsOk, RunningOk, Undisturbed, Schedule, Seated, Ring, Typed, Distinct;
    var x := Turn(s, ring, p, k);
    var n := if k + 1 == |ring| then 0 else k + 1;
    TurnSeats(s, ring, p, k);
    OneTurn(x);
    Rotate(ring, k);
    Reseat(s, p, ring[k], ring[k + 1..] + ring[..k], ring[n], ring[n + 1..] + ring[..n]);
  }

  /** Who runs and who is behind after `k` turns. */
  lemma TurnSeats(s: State, ring: seq<TaskId>, p: nat, k: nat)
    requires p < |s.ready| && k < |ring| && ring[k] in s.tasks && s.tasks[ring[k]].priority == p
    requires Typed(Turn(s, ring, p, k))
    ensures var x := Turn(s, ring, p, k);
            x.current == Some(ring[k]) && ring[k] in x.tasks && x.tasks[ring[k]].priority == p &&
            Ring(x) == [ring[k]] + (ring[k + 1..] + ring[..k])
  {
    hide Typed;
  }

  lemma Rotate(ring: seq<TaskId>, k: nat)
    requires k < |ring| && 1 < |ring| && Distinct(ring)
    ensures var n := if k + 1 == |ring| then 0 else k + 1;
            var r, behind, next := [ring[k]] + (ring[k + 1..] + ring[..k]), ring[k + 1..] + ring[..k],
              ring[n + 1..] + ring[..n];
            r[1] == ring[n] && r[2..] + [r[0]] == next && ring[n] in behind && ring[k] !in behind &&
            forall x :: x in next <==> x == ring[k] || (x in behind && x != ring[n])
  {
    var n := if k + 1 == |ring| then 0 else k + 1;
    var r, behind, next := [ring[k]] + (ring[k + 1..] + ring[..k]), ring[k + 1..] + ring[..k],
      ring[n + 1..] + ring[..n];
    assert r[2..] + [ring[k]] == next;
    assert behind == [ring[n]] + r[2..] && behind[0] == ring[n];
    assert next == r[2..] + [ring[k]];
    assert ring[n] !in r[2..];
  }

  lemma TurnKeeps(s: State, k: nat)
    requires Inv(s) && !s.locked && k < |Ring(s)|
    requires Inv(Turn(s, Ring(s), s.tasks[s.current.value].priority, k))
    ensures var ring, p := Ring(s), s.tasks[s.current.value].priority;
            Schedule(Turn(s, ring, p, k)) == Turn(s, ring, p, if k + 1 == |ring| then 0 else k + 1) &&
            Inv(Schedule(Turn(s, ring, p, k)))
  {
    hide ReadyOk, WaitingOk, BitsOk, AlarmsOk, RunningOk, Schedule, Seated;
    var ring, p := Ring(s), s.tasks[s.current.value].priority;
    var x := Turn(s, ring, p, k);
    TurnLocks(s, ring, p, k);
    Settle(x);
    if |ring| == 1 {
      NoTurn(s);
      OneTurn(s);
    } else {
      RingIsReady(s);
      NextTurn(s, ring, p, k);
    }
  }

  lemma TurnLocks(s: State, ring: seq<TaskId>, p: nat, k: nat)
    requires p < |s.ready| && k < |ring|
    ensures var x := Turn(s, ring, p, k); x.locked == s.locked && x.tick == s.tick && x.alarms == s.alarms
  {
  }

  /** Round robin: while nothing else happens, the k-th `eos_schedule` seats the ring k turns on. */
  lemma {:induction false} RoundRobin(s: State, k: nat)
    requires Inv(s) && !s.locked && k < |Ring(s)|
    ensures ScheduleN(s, k) == Turn(s, Ring(s), s.tasks[s.current.value].priority, k) && Inv(ScheduleN(s, k))
  {
    hide ReadyOk, WaitingOk, BitsOk, AlarmsOk, RunningOk, Undisturbed, Schedule, Turn;
    if k == 0 {
      NoTurn(s);
    } else {
      RoundRobin(s, k - 1);
      TurnKeeps(s, k - 1);
    }
  }

  lemma FullTurn(s: State)
    requires Inv(s) && !s.locked
    ensures ScheduleN(s, |Ring(s)|) == s
  {
    hide ReadyOk, WaitingOk, BitsOk, AlarmsOk, RunningOk, Schedule, Turn, Seated, Ring;
    RoundRobin(s, |Ring(s)| - 1);
    TurnKeeps(s, |Ring(s)| - 1);
    NoTurn(s);
  }

  /** A task at position i of the running task's queue runs after i + 1 turns, and after as many
      turns as there are tasks at this priority the kernel is back where it was. */
  lemma EverybodyRuns(s: State, i: nat)
    requires Inv(s) && !s.locked
    ensures i + 1 < |Ring(s)| ==> ScheduleN(s, i + 1).current == Some(s.ready[s.tasks[s.current.value].priority][i])
    ensures ScheduleN(s, |Ring(s)|) == s
  {
    hide ReadyOk, WaitingOk, BitsOk, AlarmsOk, RunningOk, Schedule, ScheduleN;
    FullTurn(s);
    if i + 1 < |Ring(s)| {
      RoundRobin(s, i + 1);
    }
  }

  // ----- the same with ticks

  ghost function TickN(s: State, k: nat): (s': State)
    requires Typed(s)
    ensures Typed(s')
  {
    if k == 0 then s else Tick(TickN(s, k - 1))
  }

  /** No alarm comes due in the next `k` ticks. */
  ghost predicate QuietFor(s: State, k: nat)
    requires Typed(s)
  {
    s.tick + k < WORD && forall t :: t in s.alarms ==> s.tick + k < s.tasks[t].alarmTime
  }

  lemma Later(s: State, k: nat)
    requires Inv(s) && QuietFor(s, k)
    ensures Inv(s.(tick := s.tick + k))
  {
    hide ReadyOk, WaitingOk, BitsOk, RunningOk, Undisturbed;
  }

  lemma StillTyped(s: State, tick: nat)
    requires Typed(s)
    ensures Typed(s.(tick := tick)) && forall t :: t in s.alarms ==> t in s.tasks
  {
  }

  lemma QuietTick(s: State)
    requires Typed(s) && QuietFor(s, 1)
    ensures Typed(s.(tick := s.tick + 1)) && Tick(s) == Schedule(s.(tick := s.tick + 1))
  {
    hide Schedule, WakeFromAlarm, Typed;
    NoWrap(s.tick, 1);
    StillTyped(s, s.tick + 1);
    if s.alarms != [] {
      assert s.alarms[0] in s.alarms;
    }
  }

  lemma TurnLater(s: State, ring: seq<TaskId>, p: nat, k: nat, tick: nat)
    requires p < |s.ready| && k < |ring|
    ensures Turn(s.(tick := tick), ring, p, k) == Turn(s, ring, p, k).(tick := tick)
    ensures forall t :: t in s.tasks ==> t in Turn(s, ring, p, k).tasks &&
                                         Turn(s, ring, p, k).tasks[t].alarmTime == s.tasks[t].alarmTime
  {
  }

  /** Where `k` quiet ticks lead. */
  ghost function AfterTicks(s: State, k: nat): State
    requires Typed(s) && s.current.Some? && k <= |Ring(s)|
  {
    if k == |Ring(s)| then s.(tick := s.tick + k)
    else Turn(s, Ring(s), s.tasks[s.current.value].priority, k).(tick := s.tick + k)
  }

  lemma TurnPlace(s: State)
    requires Typed(s) && s.current.Some?
    ensures s.current.value in s.tasks && s.tasks[s.current.value].priority < |s.ready|
  {
  }

  /** The state after `k - 1` quiet ticks is `k - 1` turns on, and so it is one tick later still. */
  lemma BeforeTick(s: State, k: nat)
    requires Inv(s) && Typed(s) && QuietFor(s, k) && s.current.Some? && 0 < k <= |Ring(s)| && Inv(AfterTicks(s, k - 1))
    ensures Inv(s.(tick := s.tick + k)) && Typed(s.(tick := s.tick + k)) && Ring(s.(tick := s.tick + k)) == Ring(s)
    ensures var x := AfterTicks(s, k - 1);
            Inv(x.(tick := x.tick + 1)) && QuietFor(x, 1) && s.current.value in s.tasks &&
            s.tasks[s.current.value].priority < |s.ready| &&
            x.(tick := x.tick + 1) == Turn(s.(tick := s.tick + k), Ring(s), s.tasks[s.current.value].priority, k - 1)
  {
    hide Inv, Turn, Typed;
    TurnPlace(s);
    StillTyped(s, s.tick + k);
    var ring, p, x := Ring(s), s.tasks[s.current.value].priority, AfterTicks(s, k - 1);
    TurnLocks(s, ring, p, k - 1);
    TurnLater(s, ring, p, k - 1, s.tick + k);
    TurnLater(s, ring, p, k - 1, s.tick + k - 1);
    Later(s, k);
    InvTyped(x);
    StillTyped(x, x.tick);
    Later(x, 1);
  }

  lemma InvTyped(s: State)
    requires Inv(s)
    ensures Typed(s)
  {
  }

  lemma TickTurns(s: State, k: nat)
    requires Inv(s) && !s.locked && QuietFor(s, k) && 0 < k <= |Ring(s)| && Inv(AfterTicks(s, k - 1))
    ensures Tick(AfterTicks(s, k - 1)) == AfterTicks(s, k) && Inv(AfterTicks(s, k))
  {
    hide ReadyOk, WaitingOk, BitsOk, AlarmsOk, RunningOk, Schedule, Tick, Turn, Ring;
    var ring, p, x := Ring(s), s.tasks[s.current.value].priority, AfterTicks(s, k - 1);
    BeforeTick(s, k);
    QuietTick(x);
    TurnKeeps(s.(tick := s.tick + k), k - 1);
    if k < |ring| {
      TurnLater(s, ring, p, k, s.tick + k);
    } else {
      NoTurn(s.(tick := s.tick + k));
    }
  }

  /** With nothing else happening, k ticks seat the ring k turns on, and as many ticks as there are
      tasks at this priority change nothing but the time. */
  lemma {:induction false} TicksTakeTurns(s: State, k: nat)
    requires Inv(s) && !s.locked && QuietFor(s, k) && k <= |Ring(s)|
    ensures Inv(TickN(s, k)) && TickN(s, k) ==
      if k == |Ring(s)| then s.(tick := s.tick + k)
      else Turn(s, Ring(s), s.tasks[s.current.value].priority, k).(tick := s.tick + k)
  {
    hide ReadyOk, WaitingOk, BitsOk, AlarmsOk, RunningOk, Undisturbed, Schedule, Tick, Turn;
    if k == 0 {
      NoTurn(s);
    } else {
      TicksTakeTurns(s, k - 1);
      TickTurns(s, k);
    }
  }
}
