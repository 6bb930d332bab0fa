/**
  `core/timer.c` for any counter and any alarm handlers: handlers may set and cancel alarms of the
  counter while it works through the alarms that are due.
 */
module Timer {
  import opened Queues
  import K = KernelState

  /** A call `eos_set_alarm(counter, alarm, timeout, ..)`; a timeout of 0 cancels, as a NULL entry does. */
  datatype Request = Request(alarm: nat, timeout: nat)

  /** What the n-th call of a handler asks for: any behaviour of any handlers is some such script. */
  type Script = nat -> seq<Request>

  /** `calls` counts the handlers that have run. */
  datatype Clock = Clock(tick: nat, queue: seq<nat>, timeouts: map<nat, nat>, calls: nat)

  ghost predicate Ok(c: Clock) {
    c.tick < K.WORD && Distinct(c.queue) && Sorted(c.queue, c.timeouts)
  }

  /** Every alarm in the queue is still to come. */
  ghost predicate AllAhead(c: Clock) {
    Ok(c) && forall a :: a in c.queue ==> c.tick < c.timeouts[a]
  }

  // ----- eos_set_alarm

  ghost function AlarmSet(c: Clock, a: nat, timeout: nat): (c': Clock)
    requires Ok(c)
    ensures Ok(c') && c'.tick == c.tick && c'.calls == c.calls
    ensures forall b :: b != a ==> (b in c'.queue <==> b in c.queue) &&
                                   (b in c.timeouts ==> b in c'.timeouts && c'.timeouts[b] == c.timeouts[b])
    ensures a in c'.queue <==> timeout != 0
    ensures timeout != 0 ==> a in c'.timeouts && c'.timeouts[a] == K.Add32(c.tick, timeout)
  {
    var rest := Delete(c.queue, a);
    DeleteSorted(c.queue, a, c.timeouts);
    if timeout == 0 then c.(queue := rest)
    else
      var times := c.timeouts[a := K.Add32(c.tick, timeout)];
      SortedBySame(rest, c.timeouts, times);
      InsertOrderedStable(rest, a, times);
      c.(queue := InsertOrdered(rest, a, times), timeouts := times)
  }

  /** An alarm set with a positive timeout lies ahead exactly when the sum does not wrap. */
  lemma AheadUnlessWrapped(tick: nat, timeout: nat)
    requires tick < K.WORD && 0 < timeout < K.WORD
    ensures tick < K.Add32(tick, timeout) <==> tick + timeout < K.WORD
    ensures tick + timeout < K.WORD ==> K.Add32(tick, timeout) == tick + timeout
  {
  }

  /** The alarm set last stands behind all alarms that fall due no later, before all others, and
      those keep their order. */
  lemma AlarmSetOrder(c: Clock, a: nat, timeout: nat)
    requires Ok(c) && timeout != 0
    ensures var c' := AlarmSet(c, a, timeout);
            Delete(c'.queue, a) == Delete(c.queue, a) &&
            forall b :: b in c.queue && b != a ==>
              (IndexOf(c'.queue, b) < IndexOf(c'.queue, a) <==> c.timeouts[b] <= c'.timeouts[a])
  {
    var c', rest := AlarmSet(c, a, timeout), Delete(c.queue, a);
    DeleteSorted(c.queue, a, c.timeouts);
    SortedBySame(rest, c.timeouts, c'.timeouts);
    OrderOfInserted(rest, a, c'.timeouts);
  }

  lemma OrderOfInserted(rest: seq<nat>, a: nat, key: map<nat, nat>)
    requires Sorted(rest, key) && a in key && Distinct(rest) && a !in rest
    ensures var queue := InsertOrdered(rest, a, key);
            Delete(queue, a) == rest &&
            forall b :: b in rest ==> (IndexOf(queue, b) < IndexOf(queue, a) <==> key[b] <= key[a])
  {
    hide InsertOrdered, Delete;
    InsertOrderedStable(rest, a, key);
    var queue := InsertOrdered(rest, a, key);
    var k :| 0 <= k <= |rest| && queue == rest[..k] + [a] + rest[k..] &&
             forall i :: 0 <= i < |rest| ==> (i < k <==> key[rest[i]] <= key[a]);
    hide Distinct, Sorted;
    Inserted(rest, a, k, queue);
  }

  lemma Inserted(rest: seq<nat>, a: nat, k: nat, queue: seq<nat>)
    requires k <= |rest| && queue == rest[..k] + [a] + rest[k..] && Distinct(queue)
    ensures Delete(queue, a) == rest && IndexOf(queue, a) == k
    ensures forall b :: b in rest ==> IndexOf(queue, b) == var i := IndexOf(rest, b); if i < k then i else i + 1
  {
    DeleteAt(queue, k);
    hide Delete;
    assert queue[..k] == rest[..k] && queue[k + 1..] == rest[k..];
    IndexAt(queue, k);
    forall b | b in rest
      ensures IndexOf(queue, b) == var i := IndexOf(rest, b); if i < k then i else i + 1
    {
      InsertedIndex(rest, a, k, queue, b);
    }
  }

  lemma InsertedIndex(rest: seq<nat>, a: nat, k: nat, queue: seq<nat>, b: nat)
    requires k <= |rest| && queue == rest[..k] + [a] + rest[k..] && Distinct(queue) && b in rest
    ensures b in queue && IndexOf(queue, b) == var i := IndexOf(rest, b); if i < k then i else i + 1
  {
    var i := IndexOf(rest, b);
    var j := if i < k then i else i + 1;
    assert queue[j] == b;
    hide Distinct;
    IndexAt(queue, j);
  }

  // ----- eos_trigger_counter

  /** The elements of a sorted queue with keys up to `now`: a prefix. */
  ghost function UpTo(queue: seq<nat>, key: map<nat, nat>, now: nat): (due: seq<nat>)
    requires Sorted(queue, key)
    ensures due <= queue
  {
    queue[..FirstAbove(KeysOf(queue, key), now)]
  }

  lemma UpToIs(queue: seq<nat>, key: map<nat, nat>, now: nat, k: nat)
    requires Sorted(queue, key) && k <= |queue|
    requires (forall i :: 0 <= i < k ==> key[queue[i]] <= now) && (k < |queue| ==> now < key[queue[k]])
    ensures UpTo(queue, key, now) == queue[..k]
  {
    FirstAboveIs(KeysOf(queue, key), now, k);
  }

  lemma UpToHolds(queue: seq<nat>, key: map<nat, nat>, now: nat)
    requires Sorted(queue, key)
    ensures var k := |UpTo(queue, key, now)|;
            forall i :: 0 <= i < |queue| ==> (i < k <==> key[queue[i]] <= now)
  {
  }

  lemma UpToDelete(queue: seq<nat>, key: map<nat, nat>, now: nat, a: nat)
    requires Sorted(queue, key) && Distinct(queue)
    ensures Sorted(Delete(queue, a), key) && UpTo(Delete(queue, a), key, now) == Delete(UpTo(queue, key, now), a)
  {
    DeleteSorted(queue, a, key);
    if a in queue {
      hide UpTo, Delete, Sorted;
      UpToCut(queue, key, now, IndexOf(queue, a));
    }
  }

  lemma UpToCut(queue: seq<nat>, key: map<nat, nat>, now: nat, i: nat)
    requires Sorted(queue, key) && Distinct(queue) && i < |queue| && Sorted(Delete(queue, queue[i]), key)
    ensures UpTo(Delete(queue, queue[i]), key, now) == Delete(UpTo(queue, key, now), queue[i])
  {
    hide Delete, UpTo;
    var due, rest := UpTo(queue, key, now), queue[..i] + queue[i + 1..];
    var k := |due|;
    UpToHolds(queue, key, now);
    DeleteAt(queue, i);
    UpToIs(rest, key, now, if i < k then k - 1 else k);
    assert due == queue[..k];
    if i < k {
      DeleteAt(due, i);
      assert rest[..k - 1] == due[..i] + due[i + 1..];
    } else {
      assert queue[i] !in due;
      assert rest[..k] == due;
    }
  }

  lemma UpToInsert(queue: seq<nat>, key: map<nat, nat>, now: nat, a: nat)
    requires a in key && Sorted(queue, key) && now < key[a] && Sorted(InsertOrdered(queue, a, key), key)
    ensures UpTo(InsertOrdered(queue, a, key), key, now) == UpTo(queue, key, now)
  {
    hide UpTo;
    var k, j := |UpTo(queue, key, now)|, FirstAbove(KeysOf(queue, key), key[a]);
    UpToHolds(queue, key, now);
    assert k <= j;
    var r := InsertOrdered(queue, a, key);
    assert r == queue[..j] + [a] + queue[j..];
    UpToIs(r, key, now, k);
    assert r[..k] == queue[..k];
  }

  lemma UpToSame(queue: seq<nat>, key: map<nat, nat>, key': map<nat, nat>, now: nat)
    requires Sorted(queue, key) && forall x :: x in queue ==> x in key' && key'[x] == key[x]
    ensures Sorted(queue, key') && UpTo(queue, key, now) == UpTo(queue, key', now)
  {
    SortedBySame(queue, key, key');
    UpToHolds(queue, key, now);
    UpToIs(queue, key', now, |UpTo(queue, key, now)|);
  }

  /** The alarms that are due, in the order of the queue. */
  ghost function Due(c: Clock): (due: seq<nat>)
    requires Ok(c)
  {
    UpTo(c.queue, c.timeouts, c.tick)
  }

  ghost function SetAll(c: Clock, requests: seq<Request>): (c': Clock)
    requires Ok(c)
    ensures Ok(c') && c'.tick == c.tick && c'.calls == c.calls
    decreases |requests|
  {
    if requests == [] then c else SetAll(AlarmSet(c, requests[0].alarm, requests[0].timeout), requests[1..])
  }

  /** The first alarm leaves the queue and its handler runs. */
  ghost function FireFirst(c: Clock, script: Script): (c': Clock)
    requires Ok(c) && c.queue != []
    ensures Ok(c') && c'.tick == c.tick && c'.calls == c.calls + 1
  {
    SetAll(c.(queue := c.queue[1..], calls := c.calls + 1), script(c.calls))
  }

  /** No request of the script wraps around when it is made at `tick`. */
  ghost predicate Fits(script: Script, tick: nat) {
    forall k: nat, i :: 0 <= i < |script(k)| ==> tick + script(k)[i].timeout < K.WORD
  }

  // A handler takes alarms off the list of those that are due, and adds none.

  ghost function Without(due: seq<nat>, requests: seq<Request>): (rest: seq<nat>)
    ensures |rest| <= |due|
  {
    if requests == [] then due else Without(Delete(due, requests[0].alarm), requests[1..])
  }

  lemma DueAfterSet(c: Clock, a: nat, timeout: nat)
    requires Ok(c) && c.tick + timeout < K.WORD
    ensures Due(AlarmSet(c, a, timeout)) == Delete(Due(c), a)
  {
    hide UpTo, Distinct, Delete, InsertOrdered, KeysOf;
    var rest := Delete(c.queue, a);
    UpToDelete(c.queue, c.timeouts, c.tick, a);
    if timeout != 0 {
      AheadUnlessWrapped(c.tick, timeout);
      var times := c.timeouts[a := K.Add32(c.tick, timeout)];
      UpToSame(rest, c.timeouts, times, c.tick);
      InsertOrderedStable(rest, a, times);
      UpToInsert(rest, times, c.tick, a);
    }
  }

  lemma {:induction false} DueAfterAll(c: Clock, requests: seq<Request>)
    requires Ok(c) && forall i :: 0 <= i < |requests| ==> c.tick + requests[i].timeout < K.WORD
    ensures Due(SetAll(c, requests)) == Without(Due(c), requests)
    decreases |requests|
  {
    hide Due, AlarmSet, Ok;
    if requests != [] {
      DueAfterSet(c, requests[0].alarm, requests[0].timeout);
      DueAfterAll(AlarmSet(c, requests[0].alarm, requests[0].timeout), requests[1..]);
    }
  }

  lemma DueAfterFirst(c: Clock, script: Script)
    requires Ok(c) && Due(c) != [] && Fits(script, c.tick)
    ensures c.queue != [] && Due(c)[0] == c.queue[0]
    ensures Due(FireFirst(c, script)) == Without(Due(c)[1..], script(c.calls))
  {
    hide UpTo, Delete, SetAll, Sorted, Distinct;
    DueFirst(c.queue, c.timeouts, c.tick);
    var c1 := c.(queue := c.queue[1..], calls := c.calls + 1);
    FirstDeleted(c.queue);
    FirstDeleted(Due(c));
    UpToDelete(c.queue, c.timeouts, c.tick, c.queue[0]);
    DueAfterAll(c1, script(c.calls));
  }

  lemma DueFirst(queue: seq<nat>, key: map<nat, nat>, now: nat)
    requires Sorted(queue, key) && UpTo(queue, key, now) != []
    ensures queue != [] && UpTo(queue, key, now)[0] == queue[0]
  {
  }

  /** The loop of `eos_trigger_counter`, and the alarms whose handlers it has called.  It ends
      because every round leaves fewer alarms due. */
  ghost function Fire(c: Clock, script: Script): (r: (Clock, seq<nat>))
    requires Ok(c) && Fits(script, c.tick)
    ensures Ok(r.0) && r.0.tick == c.tick
    decreases |Due(c)|
  {
    if Due(c) == [] then (c, [])
    else
      DueAfterFirst(c, script);
      var r := Fire(FireFirst(c, script), script);
      (r.0, [c.queue[0]] + r.1)
  }

  /** What fires, told without the queue: of the alarms that are due the first, then what its
      handler has left of the others, and so on. */
  ghost function Fired(due: seq<nat>, script: Script, k: nat): (fired: seq<nat>)
    ensures |fired| <= |due|
    decreases |due|
  {
    if due == [] then [] else [due[0]] + Fired(Without(due[1..], script(k)), script, k + 1)
  }

  lemma {:induction false} FiresTheDue(c: Clock, script: Script)
    requires Ok(c) && Fits(script, c.tick)
    ensures Fire(c, script).1 == Fired(Due(c), script, c.calls)
    ensures Due(Fire(c, script).0) == [] && Fire(c, script).0.calls == c.calls + |Fire(c, script).1|
    decreases |Due(c)|
  {
    hide UpTo, Delete, SetAll, Sorted, Distinct;
    if Due(c) != [] {
      DueAfterFirst(c, script);
      FiresTheDue(FireFirst(c, script), script);
    }
  }

  lemma NothingDue(c: Clock)
    requires Ok(c) && Due(c) == []
    ensures AllAhead(c)
  {
    UpToHolds(c.queue, c.timeouts, c.tick);
  }

  /** When the loop ends, every alarm still queued lies ahead. */
  lemma FireLeavesAhead(c: Clock, script: Script)
    requires Ok(c) && Fits(script, c.tick)
    ensures AllAhead(Fire(c, script).0)
  {
    FiresTheDue(c, script);
    NothingDue(Fire(c, script).0);
  }

  lemma {:induction false} WithoutThins(due: seq<nat>, requests: seq<Request>)
    requires Distinct(due)
    ensures Thinned(due, Without(due, requests))
    decreases |requests|
  {
    hide Thinned, Delete;
    if requests == [] {
      ThinnedSelf(due);
    } else {
      DeleteThins(due, requests[0].alarm);
      WithoutThins(Delete(due, requests[0].alarm), requests[1..]);
      ThinnedTwice(due, Delete(due, requests[0].alarm), Without(due, requests));
    }
  }

  lemma TailThins(due: seq<nat>, rest: seq<nat>)
    requires Distinct(due) && due != [] && Thinned(due[1..], rest)
    ensures Thinned(due, [due[0]] + rest)
  {
    var r, tail := [due[0]] + rest, due[1..];
    forall x | x in tail
      ensures IndexOf(due, x) == IndexOf(tail, x) + 1
    {
      IndexAt(due, IndexOf(tail, x) + 1);
    }
    assert forall x :: x in rest ==> x in tail;
  }

  /** Alarms fire at most once, in the order in which they stand in the queue. */
  lemma {:induction false} FiredInOrder(due: seq<nat>, script: Script, k: nat)
    requires Distinct(due)
    ensures Thinned(due, Fired(due, script, k))
    decreases |due|
  {
    hide Thinned, Without;
    if due == [] {
      ThinnedSelf(due);
    } else {
      var rest := Without(due[1..], script(k));
      WithoutThins(due[1..], script(k));
      StillDistinct(due[1..], rest);
      FiredInOrder(rest, script, k + 1);
      ThinnedTwice(due[1..], rest, Fired(rest, script, k + 1));
      TailThins(due, Fired(rest, script, k + 1));
    }
  }

  lemma StillDistinct(a: seq<nat>, b: seq<nat>)
    requires Thinned(a, b)
    ensures Distinct(b)
  {
  }

  // ----- requests that wrap

  /** An alarm whose deadline wraps is due at once. */
  lemma WrappedIsDue(c: Clock, a: nat, timeout: nat)
    requires Ok(c) && 0 < timeout < K.WORD <= c.tick + timeout
    ensures a in Due(AlarmSet(c, a, timeout))
  {
    var c' := AlarmSet(c, a, timeout);
    AheadUnlessWrapped(c.tick, timeout);
    UpToHolds(c'.queue, c'.timeouts, c'.tick);
    assert c'.queue[IndexOf(c'.queue, a)] == a;
  }

  /** The clock after `n` rounds of the loop, or fewer when nothing is due any more. */
  ghost function Rounds(c: Clock, script: Script, n: nat): (c': Clock)
    requires Ok(c)
    ensures Ok(c')
  {
    if n == 0 then c
    else
      var c1 := Rounds(c, script, n - 1);
      if Due(c1) == [] then c1 else FireFirst(c1, script)
  }

  /** The loop need not end without that bound: when the handler of the one alarm that is due sets
      it again with a timeout that wraps, the alarm is due after any number of rounds. */
  lemma {:induction false} WrappingNeverEnds(c: Clock, a: nat, timeout: nat, script: Script, n: nat)
    requires Ok(c) && c.queue == [a] && c.timeouts[a] <= c.tick && 0 < timeout < K.WORD <= c.tick + timeout
    requires forall k :: script(k) == [Request(a, timeout)]
    ensures var c' := Rounds(c, script, n); Due(c') == [a] && c'.queue == [a] && c'.tick == c.tick
  {
    hide FireFirst;
    if n == 0 {
      UpToHolds(c.queue, c.timeouts, c.tick);
    } else {
      WrappingNeverEnds(c, a, timeout, script, n - 1);
      OnlyAgain(Rounds(c, script, n - 1), a, timeout, script);
    }
  }

  lemma OnlyAgain(c: Clock, a: nat, timeout: nat, script: Script)
    requires Ok(c) && c.queue == [a] && 0 < timeout < K.WORD <= c.tick + timeout &&
             script(c.calls) == [Request(a, timeout)]
    ensures var c' := FireFirst(c, script); Due(c') == [a] && c'.queue == [a] && c'.tick == c.tick
  {
    var c1 := c.(queue := [], calls := c.calls + 1);
    assert c.(queue := c.queue[1..], calls := c.calls + 1) == c1;
    SetOne(c1, a, timeout);
    WrappedIsDue(c1, a, timeout);
    assert |AlarmSet(c1, a, timeout).queue| == 1;
  }

  lemma SetOne(c: Clock, a: nat, timeout: nat)
    requires Ok(c)
    ensures SetAll(c, [Request(a, timeout)]) == AlarmSet(c, a, timeout)
  {
    hide AlarmSet, Ok;
    var rest := [Request(a, timeout)][1..];
    assert rest == [] && SetAll(AlarmSet(c, a, timeout), rest) == AlarmSet(c, a, timeout);
  }

  // ----- an alarm that nobody touches

  ghost predicate Mentions(requests: seq<Request>, a: nat) {
    exists i :: 0 <= i < |requests| && requests[i].alarm == a
  }

  /** No handler call from the `k`-th to before the `m`-th names alarm `a`. */
  ghost predicate Untouched(script: Script, a: nat, k: nat, m: nat) {
    forall i :: k <= i < m ==> !Mentions(script(i), a)
  }

  lemma {:induction false} SetAllKeeps(c: Clock, requests: seq<Request>, a: nat)
    requires Ok(c) && !Mentions(requests, a) && a in c.timeouts
    ensures a in SetAll(c, requests).timeouts && SetAll(c, requests).timeouts[a] == c.timeouts[a]
    ensures a in SetAll(c, requests).queue <==> a in c.queue
    decreases |requests|
  {
    hide Ok, AlarmSet;
    if requests != [] {
      assert requests[0].alarm != a;
      assert Mentions(requests[1..], a) ==> Mentions(requests, a) by {
        assert forall i :: 0 <= i < |requests[1..]| ==> requests[1..][i] == requests[i + 1];
      }
      SetAllKeeps(AlarmSet(c, requests[0].alarm, requests[0].timeout), requests[1..], a);
    }
  }

  /** Such an alarm fires exactly when it is due, and is queued afterwards exactly when it is not. */
  lemma {:induction false} FireUntouched(c: Clock, script: Script, a: nat)
    requires Ok(c) && Fits(script, c.tick) && a in c.timeouts
    requires Untouched(script, a, c.calls, Fire(c, script).0.calls)
    ensures var r := Fire(c, script);
            (a in r.1 <==> a in c.queue && c.timeouts[a] <= c.tick) &&
            a in r.0.timeouts && r.0.timeouts[a] == c.timeouts[a] &&
            (a in r.0.queue <==> a in c.queue && c.tick < c.timeouts[a])
    decreases |Due(c)|
  {
    hide UpTo, Delete, SetAll, Sorted, Distinct, Mentions;
    var r := Fire(c, script);
    FiresTheDue(c, script);
    if Due(c) == [] {
      NothingDue(c);
    } else {
      DueAfterFirst(c, script);
      FirstIsDue(c, a);
      TailOk(c);
      SetAllKeeps(c.(queue := c.queue[1..], calls := c.calls + 1), script(c.calls), a);
      FireUntouched(FireFirst(c, script), script, a);
    }
  }

  lemma {:induction false} SetAllLeavesOut(c: Clock, requests: seq<Request>, a: nat)
    requires Ok(c) && !Mentions(requests, a) && a !in c.queue
    ensures a !in SetAll(c, requests).queue
    decreases |requests|
  {
    hide Ok, AlarmSet;
    if requests != [] {
      OthersMentioned(requests, a);
      SetAllLeavesOut(AlarmSet(c, requests[0].alarm, requests[0].timeout), requests[1..], a);
    }
  }

  lemma OthersMentioned(requests: seq<Request>, a: nat)
    requires requests != [] && !Mentions(requests, a)
    ensures requests[0].alarm != a && !Mentions(requests[1..], a)
  {
    assert forall i :: 0 <= i < |requests[1..]| ==> requests[1..][i] == requests[i + 1];
  }

  /** An alarm that is not queued and that nobody touches does not fire and stays out. */
  lemma {:induction false} FireLeavesOut(c: Clock, script: Script, a: nat)
    requires Ok(c) && Fits(script, c.tick) && a !in c.queue
    requires Untouched(script, a, c.calls, Fire(c, script).0.calls)
    ensures a !in Fire(c, script).1 && a !in Fire(c, script).0.queue
    decreases |Due(c)|
  {
    hide UpTo, Delete, SetAll, Sorted, Distinct, Mentions;
    FiresTheDue(c, script);
    if Due(c) != [] {
      DueAfterFirst(c, script);
      TailOk(c);
      SetAllLeavesOut(c.(queue := c.queue[1..], calls := c.calls + 1), script(c.calls), a);
      FireLeavesOut(FireFirst(c, script), script, a);
    }
  }

  lemma TailOk(c: Clock)
    requires Ok(c) && c.queue != []
    ensures Ok(c.(queue := c.queue[1..], calls := c.calls + 1))
  {
  }

  lemma FirstIsDue(c: Clock, a: nat)
    requires Ok(c) && Due(c) != []
    ensures c.queue != [] && c.timeouts[c.queue[0]] <= c.tick
    ensures a in c.queue[1..] <==> a in c.queue && a != c.queue[0]
  {
  }

  // ----- the last request for an alarm

  /** The `j`-th request of the `m`-th handler call is for alarm `a`. */
  ghost predicate Requests(script: Script, m: nat, j: nat, a: nat, timeout: nat) {
    j < |script(m)| && script(m)[j] == Request(a, timeout)
  }

  /** After that request and up to the `n`-th handler call nobody asks for `a`. */
  ghost predicate QuietAfter(script: Script, m: nat, j: nat, a: nat, n: nat)
    requires j < |script(m)|
  {
    !Mentions(script(m)[j + 1..], a) && Untouched(script, a, m + 1, n)
  }

  lemma {:induction false} SetAllLast(c: Clock, requests: seq<Request>, a: nat, timeout: nat, j: nat)
    requires Ok(c) && j < |requests| && requests[j] == Request(a, timeout) && !Mentions(requests[j + 1..], a)
    ensures var c' := SetAll(c, requests);
            (a in c'.queue <==> timeout != 0) &&
            (timeout != 0 ==> a in c'.timeouts && c'.timeouts[a] == K.Add32(c.tick, timeout))
    decreases |requests|
  {
    hide Ok, Mentions, AlarmSet;
    var c1, rest := AlarmSet(c, requests[0].alarm, requests[0].timeout), requests[1..];
    if j == 0 {
      if timeout != 0 {
        SetAllKeeps(c1, rest, a);
      } else {
        SetAllLeavesOut(c1, rest, a);
      }
    } else {
      assert rest[j..] == requests[j + 1..];
      SetAllLast(c1, rest, a, timeout, j - 1);
    }
  }

  /** What the last request of a tick for an alarm gives: cancelled, it has not stayed; with a
      timeout t > 0, it is queued to fire t ticks later. */
  lemma {:induction false} FireLast(c: Clock, script: Script, a: nat, timeout: nat, m: nat, j: nat)
    requires Ok(c) && Fits(script, c.tick) && c.calls <= m < Fire(c, script).0.calls
    requires Requests(script, m, j, a, timeout) && QuietAfter(script, m, j, a, Fire(c, script).0.calls)
    ensures var c' := Fire(c, script).0;
            (a in c'.queue <==> timeout != 0) &&
            (timeout != 0 ==> a in c'.timeouts && c'.timeouts[a] == c.tick + timeout)
    decreases |Due(c)|
  {
    hide UpTo, Delete, SetAll, Sorted, Distinct, Mentions;
    FiresTheDue(c, script);
    if Due(c) != [] {
      DueAfterFirst(c, script);
      if m == c.calls {
        TailOk(c);
        SetAllLast(c.(queue := c.queue[1..], calls := c.calls + 1), script(m), a, timeout, j);
        if timeout != 0 {
          AheadUnlessWrapped(c.tick, timeout);
          FireUntouched(FireFirst(c, script), script, a);
        } else {
          FireLeavesOut(FireFirst(c, script), script, a);
        }
      } else {
        FireLast(FireFirst(c, script), script, a, timeout, m, j);
      }
    }
  }

  // ----- the order of alarms

  ghost predicate Before(queue: seq<nat>, a: nat, b: nat) {
    a in queue && b in queue && IndexOf(queue, a) < IndexOf(queue, b)
  }

  lemma DeleteKeepsOrder(queue: seq<nat>, x: nat, a: nat, b: nat)
    requires Before(queue, a, b) && x != a && x != b
    ensures Before(Delete(queue, x), a, b)
  {
    hide Delete, IndexOf;
    DeleteKeepsPlace(queue, x, a);
    DeleteKeepsPlace(queue, x, b);
  }

  lemma InsertKeepsOrder(rest: seq<nat>, x: nat, key: map<nat, nat>, a: nat, b: nat)
    requires Sorted(rest, key) && x in key && Distinct(rest) && x !in rest && Before(rest, a, b)
    ensures Before(InsertOrdered(rest, x, key), a, b)
  {
    hide InsertOrdered, Delete;
    InsertOrderedStable(rest, x, key);
    var queue := InsertOrdered(rest, x, key);
    var k :| 0 <= k <= |rest| && queue == rest[..k] + [x] + rest[k..] &&
             forall i :: 0 <= i < |rest| ==> (i < k <==> key[rest[i]] <= key[x]);
    hide Distinct, Sorted;
    Inserted(rest, x, k, queue);
  }

  /** Setting or cancelling another alarm keeps the order of two. */
  lemma SetKeepsOrder(c: Clock, x: nat, timeout: nat, a: nat, b: nat)
    requires Ok(c) && Before(c.queue, a, b) && x != a && x != b
    ensures Before(AlarmSet(c, x, timeout).queue, a, b)
  {
    hide InsertOrdered, Delete, Before;
    var rest := Delete(c.queue, x);
    DeleteKeepsOrder(c.queue, x, a, b);
    DeleteSorted(c.queue, x, c.timeouts);
    if timeout != 0 {
      var times := c.timeouts[x := K.Add32(c.tick, timeout)];
      SortedBySame(rest, c.timeouts, times);
      InsertKeepsOrder(rest, x, times, a, b);
    }
  }

  lemma {:induction false} SetAllKeepsOrder(c: Clock, requests: seq<Request>, a: nat, b: nat)
    requires Ok(c) && Before(c.queue, a, b) && !Mentions(requests, a) && !Mentions(requests, b)
    ensures Before(SetAll(c, requests).queue, a, b)
    decreases |requests|
  {
    hide Ok, AlarmSet, Before;
    if requests != [] {
      OthersMentioned(requests, a);
      OthersMentioned(requests, b);
      SetKeepsOrder(c, requests[0].alarm, requests[0].timeout, a, b);
      SetAllKeepsOrder(AlarmSet(c, requests[0].alarm, requests[0].timeout), requests[1..], a, b);
    }
  }

  lemma TailKeepsOrder(queue: seq<nat>, a: nat, b: nat)
    requires Before(queue, a, b) && a != queue[0]
    ensures Before(queue[1..], a, b)
  {
  }

  lemma TailOrder(x: nat, fired: seq<nat>, a: nat, b: nat)
    requires Before(fired, a, b) && a != x && b != x
    ensures Before([x] + fired, a, b)
  {
    assert ([x] + fired)[1..] == fired;
  }

  lemma HeadOrder(a: nat, fired: seq<nat>, b: nat)
    requires b in [a] + fired && a != b
    ensures Before([a] + fired, a, b)
  {
  }

  /** Of two alarms that nobody touches the later one in the queue never overtakes: it fires only
      when the other does, and behind it. */
  lemma {:induction false} FireKeepsOrder(c: Clock, script: Script, a: nat, b: nat)
    requires Ok(c) && Fits(script, c.tick) && Before(c.queue, a, b)
    requires Untouched(script, a, c.calls, Fire(c, script).0.calls) &&
             Untouched(script, b, c.calls, Fire(c, script).0.calls)
    ensures b in Fire(c, script).1 ==> Before(Fire(c, script).1, a, b)
    ensures a in Fire(c, script).0.queue ==> Before(Fire(c, script).0.queue, a, b)
    decreases |Due(c)|
  {
    hide UpTo, Delete, SetAll, Sorted, Distinct, Mentions, IndexOf, Before;
    FiresTheDue(c, script);
    BeforeIs(c.queue, a, b);
    if Due(c) != [] {
      var c1, c2 := c.(queue := c.queue[1..], calls := c.calls + 1), FireFirst(c, script);
      DueAfterFirst(c, script);
      TailOk(c);
      if a == c.queue[0] {
        FirstIsDue(c, a);
        SetAllLeavesOut(c1, script(c.calls), a);
        FireLeavesOut(c2, script, a);
        if b in Fire(c, script).1 {
          HeadOrder(a, Fire(c2, script).1, b);
        }
      } else {
        TailKeepsOrder(c.queue, a, b);
        SetAllKeepsOrder(c1, script(c.calls), a, b);
        FireKeepsOrder(c2, script, a, b);
        if b in Fire(c, script).1 {
          TailOrder(c.queue[0], Fire(c2, script).1, a, b);
        }
      }
    }
  }

  lemma BeforeIs(queue: seq<nat>, a: nat, b: nat)
    requires Before(queue, a, b)
    ensures a in queue && b in queue && a != b && b != queue[0]
  {
  }

  lemma EitherBefore(queue: seq<nat>, a: nat, b: nat)
    requires a in queue && b in queue && a != b
    ensures Before(queue, a, b) <==> !Before(queue, b, a)
  {
  }

  /** When the last request for `b` in a handler call comes after all for `a`, the two stand in the
      order of their deadlines, `a` first when they are equal. */
  lemma {:induction false} SetAllOrder(c: Clock, requests: seq<Request>, a: nat, b: nat, timeout: nat, j: nat)
    requires Ok(c) && a != b && 0 < timeout && j < |requests| && requests[j] == Request(b, timeout)
    requires !Mentions(requests[j + 1..], a) && !Mentions(requests[j + 1..], b) && a in SetAll(c, requests).queue
    ensures var c' := SetAll(c, requests);
            a in c'.timeouts && b in c'.timeouts && (Before(c'.queue, a, b) <==> c'.timeouts[a] <= c'.timeouts[b])
    decreases |requests|
  {
    hide Ok, AlarmSet, Mentions, Before, IndexOf;
    var c1, rest := AlarmSet(c, requests[0].alarm, requests[0].timeout), requests[1..];
    if j == 0 {
      if a !in c1.queue {
        SetAllLeavesOut(c1, rest, a);
      }
      JustSet(c, a, b, timeout);
      SetAllKeeps(c1, rest, a);
      SetAllKeeps(c1, rest, b);
      EitherBefore(c1.queue, a, b);
      if Before(c1.queue, a, b) {
        SetAllKeepsOrder(c1, rest, a, b);
      } else {
        SetAllKeepsOrder(c1, rest, b, a);
      }
      EitherBefore(SetAll(c, requests).queue, a, b);
    } else {
      assert rest[j..] == requests[j + 1..];
      SetAllOrder(c1, rest, a, b, timeout, j - 1);
    }
  }

  lemma JustSet(c: Clock, a: nat, b: nat, timeout: nat)
    requires Ok(c) && a != b && 0 < timeout && a in AlarmSet(c, b, timeout).queue
    ensures var c' := AlarmSet(c, b, timeout);
            a in c'.timeouts && b in c'.queue && b in c'.timeouts &&
            (Before(c'.queue, a, b) <==> c'.timeouts[a] <= c'.timeouts[b])
  {
    AlarmSetOrder(c, b, timeout);
  }

  /** The same for a whole tick. */
  lemma {:induction false} FireOrder(c: Clock, script: Script, a: nat, b: nat, timeout: nat, m: nat, j: nat)
    requires Ok(c) && Fits(script, c.tick) && c.calls <= m < Fire(c, script).0.calls && a != b && 0 < timeout
    requires Requests(script, m, j, b, timeout) && QuietAfter(script, m, j, b, Fire(c, script).0.calls)
    requires QuietAfter(script, m, j, a, Fire(c, script).0.calls) && a in Fire(c, script).0.queue
    ensures var c' := Fire(c, script).0;
            a in c'.timeouts && b in c'.timeouts && (Before(c'.queue, a, b) <==> c'.timeouts[a] <= c'.timeouts[b])
    decreases |Due(c)|
  {
    hide UpTo, Delete, SetAll, Sorted, Distinct, Mentions, Before, IndexOf;
    FiresTheDue(c, script);
    if Due(c) != [] {
      DueAfterFirst(c, script);
      var c2 := FireFirst(c, script);
      if m == c.calls {
        var c1 := c.(queue := c.queue[1..], calls := c.calls + 1);
        TailOk(c);
        if a !in c2.queue {
          FireLeavesOut(c2, script, a);
        }
        SetAllLast(c1, script(m), b, timeout, j);
        AheadUnlessWrapped(c.tick, timeout);
        SetAllOrder(c1, script(m), a, b, timeout, j);
        BothStay(c2, script, a, b);
      } else {
        FireOrder(c2, script, a, b, timeout, m, j);
      }
    }
  }

  lemma BothStay(c: Clock, script: Script, a: nat, b: nat)
    requires Ok(c) && Fits(script, c.tick) && a != b && a in c.queue && b in c.queue && a in c.timeouts &&
             b in c.timeouts
    requires Untouched(script, a, c.calls, Fire(c, script).0.calls) &&
             Untouched(script, b, c.calls, Fire(c, script).0.calls)
    requires a in Fire(c, script).0.queue && c.tick < c.timeouts[b]
    ensures var c' := Fire(c, script).0;
            a in c'.timeouts && b in c'.timeouts && c'.timeouts[a] == c.timeouts[a] &&
            c'.timeouts[b] == c.timeouts[b] &&
            (Before(c'.queue, a, b) <==> Before(c.queue, a, b))
  {
    hide Ok, Fits, Untouched, Fire, Before;
    FireUntouched(c, script, a);
    FireUntouched(c, script, b);
    EitherBefore(c.queue, a, b);
    EitherBefore(Fire(c, script).0.queue, a, b);
    if Before(c.queue, a, b) {
      FireKeepsOrder(c, script, a, b);
    } else {
      FireKeepsOrder(c, script, b, a);
    }
  }

  // ----- histories

  datatype Event = Set(alarm: nat, timeout: nat) | Tick

  /** The deadlines an event sets fit 32 bits. */
  ghost predicate Allowed(c: Clock, e: Event, script: Script) {
    match e
    case Set(_, timeout) => c.tick + timeout < K.WORD
    case Tick => c.tick + 1 < K.WORD && Fits(script, c.tick + 1)
  }

  /** `eos_trigger_counter` */
  ghost function Trigger(c: Clock, script: Script): (r: (Clock, seq<nat>))
    requires Ok(c) && Allowed(c, Tick, script)
    ensures Ok(r.0) && r.0.tick == c.tick + 1
  {
    Fire(c.(tick := K.Add32(c.tick, 1)), script)
  }

  ghost function Next(c: Clock, e: Event, script: Script): (c': Clock)
    requires Ok(c) && Allowed(c, e, script)
    ensures Ok(c')
  {
    match e
    case Set(a, timeout) => AlarmSet(c, a, timeout)
    case Tick => Trigger(c, script).0
  }

  /** Every event leaves only alarms that lie ahead. */
  lemma NextAhead(c: Clock, e: Event, script: Script)
    requires AllAhead(c) && Allowed(c, e, script)
    ensures AllAhead(Next(c, e, script))
  {
    match e
    case Set(a, timeout) =>
      if timeout != 0 {
        AheadUnlessWrapped(c.tick, timeout);
      }
    case Tick => FireLeavesAhead(c.(tick := K.Add32(c.tick, 1)), script);
  }

  /** `clocks` is what a counter goes through with `events`, from one whose alarms lie ahead: a new
      one has none. */
  ghost predicate IsHistory(clocks: seq<Clock>, events: seq<Event>, script: Script) {
    |clocks| == |events| + 1 && AllAhead(clocks[0]) &&
    forall i :: 0 <= i < |events| ==>
      Allowed(clocks[i], events[i], script) && (Ok(clocks[i]) ==> clocks[i + 1] == Next(clocks[i], events[i], script))
  }

  /** Between two events of any history every queued alarm lies ahead. */
  lemma {:induction false} AheadInEveryHistory(clocks: seq<Clock>, events: seq<Event>, script: Script, n: nat)
    requires IsHistory(clocks, events, script) && n <= |events|
    ensures AllAhead(clocks[n])
  {
    if n != 0 {
      AheadInEveryHistory(clocks, events, script, n - 1);
      NextAhead(clocks[n - 1], events[n - 1], script);
    }
  }

  /** The number of ticks among the events from `i` to before `n`. */
  ghost function Ticks(events: seq<Event>, i: nat, n: nat): nat
    requires i <= n <= |events|
  {
    if i == n then 0 else Ticks(events, i, n - 1) + if events[n - 1].Tick? then 1 else 0
  }

  /** Neither event `k` nor a handler that it calls sets or cancels alarm `a`. */
  ghost predicate LeftBy(clocks: seq<Clock>, events: seq<Event>, script: Script, a: nat, k: nat)
    requires |clocks| == |events| + 1 && k < |events|
  {
    if events[k].Set? then events[k].alarm != a else Untouched(script, a, clocks[k].calls, clocks[k + 1].calls)
  }

  /** Nobody sets or cancels alarm `a` in the events from `i` to before `n`. */
  ghost predicate LeftAlone(clocks: seq<Clock>, events: seq<Event>, script: Script, a: nat, i: nat, n: nat)
    requires IsHistory(clocks, events, script) && i <= n <= |events|
  {
    forall k :: i <= k < n ==> LeftBy(clocks, events, script, a, k)
  }

  /** Exactness: an alarm that stands in the queue, whoever put it there, and is then left alone is
      queued, with its deadline, exactly until the tick of that deadline, and that tick and no other
      fires it. */
  lemma {:induction false} QueuedUntilDue(clocks: seq<Clock>, events: seq<Event>, script: Script, a: nat, i: nat,
                                          n: nat)
    requires IsHistory(clocks, events, script) && i <= n <= |events|
    requires a in clocks[i].queue && a in clocks[i].timeouts && LeftAlone(clocks, events, script, a, i, n)
    ensures var d := clocks[i].timeouts[a];
            a in clocks[n].timeouts && clocks[n].timeouts[a] == d && (a in clocks[n].queue <==> clocks[n].tick < d)
    ensures i < n && events[n - 1].Tick? ==>
      Ok(clocks[n - 1]) &&
      (a in Trigger(clocks[n - 1], script).1 <==> clocks[n - 1].tick + 1 == clocks[i].timeouts[a])
    decreases n
  {
    hide Ok, Fits, Untouched, Trigger, AlarmSet;
    AheadInEveryHistory(clocks, events, script, if i < n then n - 1 else n);
    if i < n {
      LeftAloneOnce(clocks, events, script, a, i, n - 1, n);
      QueuedUntilDue(clocks, events, script, a, i, n - 1);
      if events[n - 1].Tick? {
        TickOnTime(clocks[n - 1], script, a);
      }
    }
  }

  /** What event `i` leaves alarm `a` with: it is the call that sets it for `timeout`, or a tick in
      which the last request of the handlers for it does. */
  ghost predicate Sets(clocks: seq<Clock>, events: seq<Event>, script: Script, i: nat, a: nat, timeout: nat)
    requires IsHistory(clocks, events, script) && i < |events|
  {
    match events[i]
    case Set(b, t) => b == a && t == timeout
    case Tick =>
      exists m: nat, j: nat :: Requests(script, m, j, a, timeout) && clocks[i].calls <= m < clocks[i + 1].calls &&
                     QuietAfter(script, m, j, a, clocks[i + 1].calls)
  }

  lemma SetsWhat(clocks: seq<Clock>, events: seq<Event>, script: Script, i: nat, a: nat, timeout: nat)
    requires IsHistory(clocks, events, script) && i < |events| && Sets(clocks, events, script, i, a, timeout)
    ensures AllAhead(clocks[i + 1])
    ensures a in clocks[i + 1].queue <==> timeout != 0
    ensures timeout != 0 ==> a in clocks[i + 1].timeouts && clocks[i + 1].timeouts[a] == clocks[i + 1].tick + timeout
  {
    hide Ok, Fits, Fire, AlarmSet, Mentions;
    AheadInEveryHistory(clocks, events, script, i);
    AheadInEveryHistory(clocks, events, script, i + 1);
    if events[i].Set? {
      AheadUnlessWrapped(clocks[i].tick, if timeout == 0 then 1 else timeout);
    } else {
      var m: nat, j: nat :| Requests(script, m, j, a, timeout) && clocks[i].calls <= m < clocks[i + 1].calls &&
                  QuietAfter(script, m, j, a, clocks[i + 1].calls);
      TickedOk(clocks[i], script);
      FireLast(clocks[i].(tick := K.Add32(clocks[i].tick, 1)), script, a, timeout, m, j);
    }
  }

  lemma {:induction false} TicksPass(clocks: seq<Clock>, events: seq<Event>, script: Script, i: nat, n: nat)
    requires IsHistory(clocks, events, script) && i <= n <= |events|
    ensures clocks[n].tick == clocks[i].tick + Ticks(events, i, n)
    decreases n
  {
    hide Ok, Fits, Fire, AlarmSet;
    if i < n {
      AheadInEveryHistory(clocks, events, script, n - 1);
      TicksPass(clocks, events, script, i, n - 1);
    }
  }

  /** Set by a call or by a handler with timeout t > 0 and then left alone, an alarm is queued until
      t ticks have passed, and not afterwards; of all those ticks exactly the t-th fires it. */
  lemma FiresOnTime(clocks: seq<Clock>, events: seq<Event>, script: Script, a: nat, timeout: nat, i: nat, n: nat)
    requires IsHistory(clocks, events, script) && i < n <= |events| && 0 < timeout
    requires Sets(clocks, events, script, i, a, timeout) && LeftAlone(clocks, events, script, a, i + 1, n)
    ensures var passed := Ticks(events, i + 1, n);
            clocks[n].tick == clocks[i + 1].tick + passed &&
            a in clocks[n].timeouts && clocks[n].timeouts[a] == clocks[i + 1].tick + timeout &&
            (a in clocks[n].queue <==> passed < timeout)
    ensures i + 1 < n && events[n - 1].Tick? ==>
      Ok(clocks[n - 1]) && (a in Trigger(clocks[n - 1], script).1 <==> Ticks(events, i + 1, n) == timeout)
  {
    hide Ok, Fits, Sets, LeftAlone, Trigger, IsHistory;
    SetsWhat(clocks, events, script, i, a, timeout);
    TicksPass(clocks, events, script, i + 1, n);
    if i + 1 < n {
      TicksPass(clocks, events, script, i + 1, n - 1);
    }
    QueuedUntilDue(clocks, events, script, a, i + 1, n);
  }

  lemma TickOnTime(c: Clock, script: Script, a: nat)
    requires AllAhead(c) && Allowed(c, Tick, script) && a in c.timeouts &&
             Untouched(script, a, c.calls, Trigger(c, script).0.calls)
    ensures var r := Trigger(c, script);
            (a in r.1 <==> a in c.queue && c.timeouts[a] == c.tick + 1) &&
            a in r.0.timeouts && r.0.timeouts[a] == c.timeouts[a] &&
            (a in r.0.queue <==> a in c.queue && c.tick + 1 < c.timeouts[a])
  {
    FireUntouched(c.(tick := K.Add32(c.tick, 1)), script, a);
  }

  lemma TickedOk(c: Clock, script: Script)
    requires Ok(c) && Allowed(c, Tick, script)
    ensures var c' := c.(tick := K.Add32(c.tick, 1)); Ok(c') && Fits(script, c'.tick) && c'.tick == c.tick + 1
  {
  }

  // ----- the order of firing over histories

  lemma EventKeepsOrder(clocks: seq<Clock>, events: seq<Event>, script: Script, a: nat, b: nat, i: nat)
    requires IsHistory(clocks, events, script) && i < |events| && Before(clocks[i].queue, a, b) && Ok(clocks[i])
    requires LeftBy(clocks, events, script, a, i) && LeftBy(clocks, events, script, b, i)
    ensures a in clocks[i + 1].queue ==> Before(clocks[i + 1].queue, a, b)
    ensures events[i].Tick? && b in Trigger(clocks[i], script).1 ==> Before(Trigger(clocks[i], script).1, a, b)
  {
    hide Ok, Before, Fits, Untouched, Fire, AlarmSet;
    match events[i]
    case Set(x, timeout) => SetKeepsOrder(clocks[i], x, timeout, a, b);
    case Tick =>
      TickedOk(clocks[i], script);
      FireKeepsOrder(clocks[i].(tick := K.Add32(clocks[i].tick, 1)), script, a, b);
  }

  lemma EventLeavesOut(clocks: seq<Clock>, events: seq<Event>, script: Script, a: nat, i: nat)
    requires IsHistory(clocks, events, script) && i < |events| && a !in clocks[i].queue && Ok(clocks[i])
    requires LeftBy(clocks, events, script, a, i)
    ensures a !in clocks[i + 1].queue && (events[i].Tick? ==> a !in Trigger(clocks[i], script).1)
  {
    hide Ok, Fits, Untouched, Fire, AlarmSet;
    match events[i]
    case Set(x, timeout) =>
    case Tick =>
      TickedOk(clocks[i], script);
      FireLeavesOut(clocks[i].(tick := K.Add32(clocks[i].tick, 1)), script, a);
  }

  lemma LeftAloneOnce(clocks: seq<Clock>, events: seq<Event>, script: Script, a: nat, i: nat, k: nat, n: nat)
    requires IsHistory(clocks, events, script) && i <= k < n <= |events| && LeftAlone(clocks, events, script, a, i, n)
    ensures LeftBy(clocks, events, script, a, k) && LeftAlone(clocks, events, script, a, i, n - 1)
  {
    hide LeftBy;
  }

  /** An alarm that stands behind another never overtakes it while both are left alone: as long as
      the other is queued so is it, behind it, and a tick fires it only behind the other or when
      that is gone. */
  lemma {:induction false} NeverOvertakes(clocks: seq<Clock>, events: seq<Event>, script: Script, a: nat, b: nat,
                                          i: nat, n: nat)
    requires IsHistory(clocks, events, script) && i <= n <= |events| && Before(clocks[i].queue, a, b)
    requires LeftAlone(clocks, events, script, a, i, n) && LeftAlone(clocks, events, script, b, i, n)
    ensures a in clocks[n].queue ==> Before(clocks[n].queue, a, b)
    ensures i < n && events[n - 1].Tick? ==>
      Ok(clocks[n - 1]) &&
      (b in Trigger(clocks[n - 1], script).1 ==>
         Before(Trigger(clocks[n - 1], script).1, a, b) || a !in clocks[n - 1].queue)
    decreases n
  {
    hide Ok, Before, LeftAlone, Trigger, Allowed, Next;
    if i < n {
      AheadInEveryHistory(clocks, events, script, n - 1);
      LeftAloneOnce(clocks, events, script, a, i, n - 1, n);
      LeftAloneOnce(clocks, events, script, b, i, n - 1, n);
      NeverOvertakes(clocks, events, script, a, b, i, n - 1);
      if a in clocks[n - 1].queue {
        EventKeepsOrder(clocks, events, script, a, b, n - 1);
      } else {
        EventLeavesOut(clocks, events, script, a, n - 1);
      }
    }
  }

  /** Event `i` leaves `b` set for `timeout`, and nobody asks for `a` in it afterwards: `b` has been
      armed later than `a`. */
  ghost predicate SetsAfter(clocks: seq<Clock>, events: seq<Event>, script: Script, i: nat, b: nat, timeout: nat,
                            a: nat)
    requires IsHistory(clocks, events, script) && i < |events|
  {
    match events[i]
    case Set(x, t) => x == b && t == timeout
    case Tick =>
      exists m: nat, j: nat :: Requests(script, m, j, b, timeout) && clocks[i].calls <= m < clocks[i + 1].calls &&
                     QuietAfter(script, m, j, b, clocks[i + 1].calls) &&
                     QuietAfter(script, m, j, a, clocks[i + 1].calls)
  }

  /** The alarm armed last stands behind the other exactly when its deadline is not earlier. */
  lemma ArmedBehind(clocks: seq<Clock>, events: seq<Event>, script: Script, a: nat, b: nat, timeout: nat, i: nat)
    requires IsHistory(clocks, events, script) && i < |events| && a != b && 0 < timeout
    requires SetsAfter(clocks, events, script, i, b, timeout, a) && a in clocks[i + 1].queue
    ensures var c := clocks[i + 1];
            b in c.queue && a in c.timeouts && b in c.timeouts && c.timeouts[b] == c.tick + timeout &&
            (Before(c.queue, a, b) <==> c.timeouts[a] <= c.timeouts[b])
  {
    hide Ok, Fits, Before, Fire, AlarmSet;
    AheadInEveryHistory(clocks, events, script, i);
    SetsWhat(clocks, events, script, i, b, timeout);
    if events[i].Set? {
      JustSet(clocks[i], a, b, timeout);
    } else {
      var m: nat, j: nat :| Requests(script, m, j, b, timeout) && clocks[i].calls <= m < clocks[i + 1].calls &&
                  QuietAfter(script, m, j, b, clocks[i + 1].calls) && QuietAfter(script, m, j, a, clocks[i + 1].calls);
      TickedOk(clocks[i], script);
      FireOrder(clocks[i].(tick := K.Add32(clocks[i].tick, 1)), script, a, b, timeout, m, j);
    }
  }

  /** Equal deadlines, from where the second is armed: `a` is queued, `b` is armed later by event `i`
      for the same tick, be it in the same run of the handlers, and both are left alone from then on.
      They are queued together, `a` first, or both gone, and the tick that fires one fires the
      other, `a` first. */
  lemma FiresBehind(clocks: seq<Clock>, events: seq<Event>, script: Script, a: nat, b: nat, timeout: nat, i: nat,
                    n: nat)
    requires IsHistory(clocks, events, script) && i < n <= |events| && a != b && 0 < timeout
    requires SetsAfter(clocks, events, script, i, b, timeout, a)
    requires a in clocks[i + 1].queue && a in clocks[i + 1].timeouts &&
             clocks[i + 1].timeouts[a] == clocks[i + 1].tick + timeout
    requires LeftAlone(clocks, events, script, a, i + 1, n) && LeftAlone(clocks, events, script, b, i + 1, n)
    ensures if a in clocks[n].queue then Before(clocks[n].queue, a, b) else b !in clocks[n].queue
    ensures i + 1 < n && events[n - 1].Tick? ==>
      Ok(clocks[n - 1]) &&
      var fired := Trigger(clocks[n - 1], script).1;
      if a in fired then Before(fired, a, b) else b !in fired
  {
    hide Ok, Before, Fits, SetsAfter, LeftAlone, Trigger, IsHistory;
    ArmedBehind(clocks, events, script, a, b, timeout, i);
    QueuedUntilDue(clocks, events, script, a, i + 1, n);
    QueuedUntilDue(clocks, events, script, b, i + 1, n);
    NeverOvertakes(clocks, events, script, a, b, i + 1, n);
    if i + 1 < n {
      LeftAloneOnce(clocks, events, script, a, i + 1, n - 1, n);
      QueuedUntilDue(clocks, events, script, a, i + 1, n - 1);
    }
  }

  lemma LeftAloneThen(clocks: seq<Clock>, events: seq<Event>, script: Script, a: nat, i: nat, k: nat, n: nat)
    requires IsHistory(clocks, events, script) && i <= k < n <= |events| && LeftAlone(clocks, events, script, a, i, n)
    ensures LeftAlone(clocks, events, script, a, i, k + 1) && LeftAlone(clocks, events, script, a, k + 1, n)
    ensures LeftBy(clocks, events, script, a, k)
  {
    hide LeftBy;
  }

  lemma NoLaterMention(requests: seq<Request>, k: nat, a: nat)
    requires k <= |requests| && !Mentions(requests, a)
    ensures !Mentions(requests[k..], a)
  {
  }

  lemma LaterSets(clocks: seq<Clock>, events: seq<Event>, script: Script, a: nat, b: nat, timeout: nat, i: nat)
    requires IsHistory(clocks, events, script) && i < |events| && a != b
    requires Sets(clocks, events, script, i, b, timeout) && LeftBy(clocks, events, script, a, i)
    ensures SetsAfter(clocks, events, script, i, b, timeout, a)
  {
    if events[i].Tick? {
      var m: nat, j: nat :| Requests(script, m, j, b, timeout) && clocks[i].calls <= m < clocks[i + 1].calls &&
                            QuietAfter(script, m, j, b, clocks[i + 1].calls);
      NoLaterMention(script(m), j + 1, a);
      assert QuietAfter(script, m, j, a, clocks[i + 1].calls);
    }
  }

  /** Alarms with equal deadlines fire in the order in which they were armed: event `h` arms `a`, by a
      call or by a handler, a later event `i` arms `b` for the same tick, and both are left alone. */
  lemma FiresInArmingOrder(clocks: seq<Clock>, events: seq<Event>, script: Script, a: nat, u: nat, h: nat,
                           b: nat, t: nat, i: nat, n: nat)
    requires IsHistory(clocks, events, script) && h < i < n <= |events| && a != b && 0 < u && 0 < t
    requires Sets(clocks, events, script, h, a, u) && LeftAlone(clocks, events, script, a, h + 1, n)
    requires Sets(clocks, events, script, i, b, t) && LeftAlone(clocks, events, script, b, i + 1, n)
    requires clocks[h + 1].tick + u == clocks[i + 1].tick + t
    ensures if a in clocks[n].queue then Before(clocks[n].queue, a, b) else b !in clocks[n].queue
    ensures i + 1 < n && events[n - 1].Tick? ==>
      Ok(clocks[n - 1]) &&
      var fired := Trigger(clocks[n - 1], script).1;
      if a in fired then Before(fired, a, b) else b !in fired
  {
    hide Ok, Before, Sets, SetsAfter, LeftAlone, LeftBy, Trigger, IsHistory;
    SetsWhat(clocks, events, script, h, a, u);
    LeftAloneThen(clocks, events, script, a, h + 1, i, n);
    QueuedUntilDue(clocks, events, script, a, h + 1, i + 1);
    LaterSets(clocks, events, script, a, b, t, i);
    FiresBehind(clocks, events, script, a, b, t, i, n);
  }

  lemma FrontDue(c: Clock)
    requires Ok(c)
    ensures Due(c) != [] <==> c.queue != [] && c.timeouts[c.queue[0]] <= c.tick
  {
  }
}
