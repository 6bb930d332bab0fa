/**
  What one call of `eos_send_message` or `eos_receive_message` comes to, from its first step to its
  last, whatever other tasks do in between: when it blocks and until when, and what it has sent or
  received when it returns.
 */
module MessageCalls {
  import opened Queues
  import opened KernelState
  import opened KernelInvariant
  import opened KernelSteps
  import opened KernelRuns
  import opened KernelSync
  import opened KernelCalls
  import opened KernelEffects
  import opened MessageProtocol

  // ----- the first step

  /** The semaphore a call begins with, and its timeout. */
  ghost predicate Begins(mq: Mqueue, e: Event, q: SemId, timeout: int) {
    match e
    case Send(_, n) => q == mq.put && timeout == n
    case Receive(n) => q == mq.get && timeout == n
    case _ => false
  }

  /** Task `t` is inside the acquire of `q` that call `e` began with. */
  ghost predicate Inside(mq: Mqueue, w: World, t: TaskId, e: Event) {
    match e
    case Send(message, _) => PhaseOf(w, t) == SendEntered(message)
    case Receive(_) => PhaseOf(w, t) == RecvEntered
    case _ => false
  }

  /** Task `t` has the slot, or the message, that call `e` asked for. */
  ghost predicate Granted(w: World, t: TaskId, e: Event) {
    match e
    case Send(message, _) => PhaseOf(w, t) == SendHolds(message)
    case Receive(_) => PhaseOf(w, t) == RecvHolds
    case _ => false
  }

  ghost predicate SameQueue(w: World, w': World) {
    w'.ring == w.ring && w'.sent == w.sent && w'.received == w.received
  }

  lemma BeginsReady(mq: Mqueue, w: World, e: Event, q: SemId, timeout: int)
    requires Ready(mq, w, e) && Begins(mq, e, q, timeout)
    ensures w.kernel.current.Some? && q in w.kernel.sems && Enabled(w.kernel, DoAcquire(q, timeout))
    ensures Conserved(w.kernel.sems[q]) && Running(w) == Outside
    ensures Call(mq, w, e) == Some(DoAcquire(q, timeout)) && Inv(w.kernel)
  {
    hide Inv, Phased, Sized, RingOk, Exclusive, CopySafe, TickHits;
  }

  lemma OutcomeIs(s: State, q: SemId, timeout: int)
    requires Typed(s) && q in s.sems
    ensures AcquireOutcome(s, q, timeout).Acquired? <==> !s.locked && s.sems[q].count > 0
    ensures AcquireOutcome(s, q, timeout).Failed? <==> s.locked || (s.sems[q].count <= 0 && timeout < 0)
  {
  }

  lemma BeginNext(mq: Mqueue, w: World, e: Event, q: SemId, timeout: int)
    requires Ready(mq, w, e) && Begins(mq, e, q, timeout) && q in w.kernel.sems && w.kernel.current.Some?
    requires Enabled(w.kernel, DoAcquire(q, timeout))
    ensures var w', t, outcome := Next(mq, w, e), w.kernel.current.value, AcquireOutcome(w.kernel, q, timeout);
            w'.kernel == Step(w.kernel, DoAcquire(q, timeout)) && SameQueue(w, w') &&
            (outcome.Acquired? ==> Granted(w', t, e)) && (outcome.Blocked? ==> Inside(mq, w', t, e)) &&
            (outcome.Failed? ==> PhaseOf(w', t) == Outside)
  {
    hide WorldInv, CopySafe, TickHits, Step, Enabled, AcquireOutcome;
  }

  /** With the scheduler unlocked and a positive count the call goes on, whatever the timeout. */
  lemma BeginGranted(mq: Mqueue, w: World, e: Event, q: SemId, timeout: int)
    requires Ready(mq, w, e) && Begins(mq, e, q, timeout) && q in w.kernel.sems && w.kernel.current.Some?
    requires !w.kernel.locked && w.kernel.sems[q].count > 0
    ensures var w', t, sem := Next(mq, w, e), w.kernel.current.value, w.kernel.sems[q];
            Granted(w', t, e) && SameQueue(w, w') &&
            w'.kernel == w.kernel.(sems := w.kernel.sems[q := sem.(count := sem.count - 1,
                                                                   acquired := sem.acquired + 1)])
  {
    hide WorldInv, Ready, Next, Step, Enabled, AcquireOutcome, Begins, Inside, Granted, SameQueue, Conserved, Call,
         CopySafe,
         May, NextPhase, NextRing, TypedTask;
    BeginsReady(mq, w, e, q, timeout);
    AcquireTakes(w.kernel, q, timeout);
    OutcomeIs(w.kernel, q, timeout);
    BeginNext(mq, w, e, q, timeout);
  }

  /** Locked, or with a negative timeout and no unit, it returns 0 and nothing has changed. */
  lemma BeginFails(mq: Mqueue, w: World, e: Event, q: SemId, timeout: int)
    requires Ready(mq, w, e) && Begins(mq, e, q, timeout) && q in w.kernel.sems && w.kernel.current.Some?
    requires w.kernel.locked || (w.kernel.sems[q].count <= 0 && timeout < 0)
    ensures var w' := Next(mq, w, e);
            PhaseOf(w', w.kernel.current.value) == Outside && SameQueue(w, w') && w'.kernel == w.kernel
  {
    hide WorldInv, Ready, Next, Step, Enabled, AcquireOutcome, Begins, Inside, Granted;
    BeginsReady(mq, w, e, q, timeout);
    AcquireFails(w.kernel, q, timeout);
    OutcomeIs(w.kernel, q, timeout);
    BeginNext(mq, w, e, q, timeout);
  }

  /** Otherwise the caller waits for the semaphore; with a positive timeout its alarm is armed for
      exactly that many ticks later. */
  lemma BeginWaits(mq: Mqueue, w: World, e: Event, q: SemId, timeout: int)
    requires Ready(mq, w, e) && Begins(mq, e, q, timeout) && q in w.kernel.sems && w.kernel.current.Some?
    requires !w.kernel.locked && w.kernel.sems[q].count <= 0 && timeout >= 0
    ensures var w', t, d := Next(mq, w, e), w.kernel.current.value, w.kernel.tick + timeout;
            Inside(mq, w', t, e) && SameQueue(w, w') && w'.kernel.sems == w.kernel.sems &&
            t in w'.kernel.tasks && w'.kernel.tasks[t].status == WAITING && w'.kernel.current != Some(t) &&
            q in w'.kernel.waiting && t in w'.kernel.waiting[q] &&
            (timeout == 0 ==> w'.kernel.tasks[t].pc.Acquiring? && w'.kernel.tasks[t].pc.timeout == 0 &&
                              t !in w'.kernel.alarms) &&
            (timeout > 0 ==> w'.kernel.tasks[t].pc == Acquiring(q, timeout, d) &&
                             t in w'.kernel.alarms && w'.kernel.tasks[t].alarmTime == d)
  {
    hide WorldInv, Ready, Next, Step, Enabled, AcquireOutcome, Begins, Inside, Granted;
    BeginsReady(mq, w, e, q, timeout);
    AcquirerWaits(w.kernel, q, timeout);
    OutcomeIs(w.kernel, q, timeout);
    BeginNext(mq, w, e, q, timeout);
  }

  // ----- until when it waits

  /** Task `t` is inside the acquire of call `e`, with timeout `n` and deadline `d`. */
  ghost predicate Waiting(mq: Mqueue, w: World, t: TaskId, e: Event, q: SemId, n: nat, d: nat) {
    Inside(mq, w, t, e) && t in w.kernel.tasks && w.kernel.tasks[t].pc == Acquiring(q, n, d)
  }

  lemma PhasesAfter(mq: Mqueue, w: World, e: Event, t: TaskId)
    requires Ready(mq, w, e)
    ensures PhaseOf(Next(mq, w, e), t) == if w.kernel.current == Some(t) then NextPhase(mq, w, e) else PhaseOf(w, t)
  {
    hide WorldInv, CopySafe, TickHits, NextPhase, NextRing, Call, May, Enabled, Step;
  }

  lemma KernelAfter(mq: Mqueue, w: World, e: Event)
    requires Ready(mq, w, e)
    ensures Next(mq, w, e).kernel == if Call(mq, w, e).Some? then Step(w.kernel, Call(mq, w, e).value) else w.kernel
    ensures Inv(w.kernel)
  {
    hide Inv, Phased, Sized, Tokens, RingOk, Exclusive, CopySafe, TickHits, NextPhase, NextRing, Call, May, Enabled,
         Step;
  }

  /** The next step of a task that waits in the acquire. */
  lemma GoRetries(mq: Mqueue, w: World, t: TaskId, e: Event, q: SemId, n: nat, d: nat)
    requires Ready(mq, w, Go) && Waiting(mq, w, t, e, q, n, d) && w.kernel.current == Some(t)
    ensures Enabled(w.kernel, DoRetry) && Inv(w.kernel) && q in w.kernel.sems && Conserved(w.kernel.sems[q])
    ensures Next(mq, w, Go).kernel == Step(w.kernel, DoRetry) && SameQueue(w, Next(mq, w, Go))
    ensures var late := n != 0 && d <= w.kernel.tick; var w' := Next(mq, w, Go);
            (late ==> PhaseOf(w', t) == Outside) &&
            (!late && w.kernel.sems[q].count > 0 ==> Granted(w', t, e)) &&
            (!late && w.kernel.sems[q].count <= 0 ==> Inside(mq, w', t, e))
  {
    hide Inv, Phased, Sized, RingOk, Exclusive, CopySafe, TickHits, Step;
    assert Running(w) == PhaseOf(w, t);
    SemOf(mq, w, t, e, q, n, d);
  }

  lemma SemOf(mq: Mqueue, w: World, t: TaskId, e: Event, q: SemId, n: nat, d: nat)
    requires WorldInv(mq, w) && Waiting(mq, w, t, e, q, n, d)
    ensures q == mq.put || q == mq.get
  {
    hide Inv, Sized, RingOk, Exclusive, Tokens;
    assert Consistent(mq, PhaseOf(w, t), w.kernel.tasks[t].pc);
  }

  /** As long as the task is inside the acquire, its deadline stands. */
  lemma StillWaits(mq: Mqueue, w: World, ev: Event, t: TaskId, e: Event, q: SemId, n: nat, d: nat)
    requires Ready(mq, w, ev) && Waiting(mq, w, t, e, q, n, d) && Inside(mq, Next(mq, w, ev), t, e)
    ensures Waiting(mq, Next(mq, w, ev), t, e, q, n, d)
  {
    hide Inv, Phased, Sized, Tokens, RingOk, Exclusive, CopySafe, TickHits, NextRing, Step, Next, Enabled, SemAfter,
         AcquireOutcome, RetryOutcome, TypedTask;
    KernelAfter(mq, w, ev);
    PhasesAfter(mq, w, ev, t);
    if Call(mq, w, ev).Some? {
      StepEffect(w.kernel, Call(mq, w, ev).value);
    }
  }

  lemma {:induction false} DeadlineStands(mq: Mqueue, worlds: seq<World>, events: seq<Event>, t: TaskId, e: Event,
                                          q: SemId,
                                          n: nat, d: nat, i: nat, j: nat)
    requires IsHistory(mq, worlds, events) && i <= j < |worlds| && Waiting(mq, worlds[i], t, e, q, n, d)
    requires forall k :: i <= k <= j ==> Inside(mq, worlds[k], t, e)
    ensures Waiting(mq, worlds[j], t, e, q, n, d)
    decreases j
  {
    hide Ready, May, Next, IsNew, Waiting, Inside;
    if i < j {
      DeadlineStands(mq, worlds, events, t, e, q, n, d, i, j - 1);
      FifoInEveryHistory(mq, worlds, events, j - 1);
      assert MessageProtocol.Follows(mq, worlds[j - 1], events[j - 1], worlds[j]);
      assert Inside(mq, worlds[j], t, e);
      StillWaits(mq, worlds[j - 1], events[j - 1], t, e, q, n, d);
    }
  }

  /** A task blocked in a timed acquire has its deadline ahead of it and its alarm armed for it. */
  lemma BlockedIsArmed(s: State, t: TaskId)
    requires Inv(s) && t in s.tasks && s.tasks[t].status == WAITING && s.tasks[t].pc.Acquiring? &&
             s.tasks[t].pc.timeout > 0
    ensures s.tick < s.tasks[t].pc.deadline && t in s.alarms && s.tasks[t].alarmTime == s.tasks[t].pc.deadline
  {
  }

  /** In every history: a send or receive with a positive timeout that finds no unit has until exactly
      `timeout` ticks later.  Until then it is blocked only with its alarm armed for that tick; a unit
      it finds before lets it go on; and when it runs at that tick or later it returns, with nothing
      sent or received. */
  lemma TimedCall(mq: Mqueue, worlds: seq<World>, events: seq<Event>, q: SemId, timeout: nat, i: nat, n: nat)
    requires IsHistory(mq, worlds, events) && i < n < |events| && Begins(mq, events[i], q, timeout) && timeout > 0
    requires var s := worlds[i].kernel; s.current.Some? && q in s.sems && !s.locked && s.sems[q].count <= 0
    requires forall k :: i < k <= n ==> Inside(mq, worlds[k], worlds[i].kernel.current.value, events[i])
    ensures var t, d := worlds[i].kernel.current.value, worlds[i].kernel.tick + timeout;
            var s, w' := worlds[n].kernel, worlds[n + 1];
            t in s.tasks && s.tasks[t].pc == Acquiring(q, timeout, d) && q in s.sems &&
            (s.tasks[t].status == WAITING ==> s.tick < d && t in s.alarms && s.tasks[t].alarmTime == d) &&
            (s.current == Some(t) && events[n] == Go ==>
               SameQueue(worlds[n], w') &&
               if d <= s.tick then PhaseOf(w', t) == Outside && w'.kernel.sems == s.sems
               else if s.sems[q].count > 0 then Granted(w', t, events[i]) else Inside(mq, w', t, events[i]))
  {
    hide Ready, May, Next, IsNew, Inside, Granted, Inv, Step, Begins;
    var t, d, e := worlds[i].kernel.current.value, worlds[i].kernel.tick + timeout, events[i];
    FifoInEveryHistory(mq, worlds, events, i);
    FifoInEveryHistory(mq, worlds, events, n);
    assert MessageProtocol.Follows(mq, worlds[i], e, worlds[i + 1]) &&
           MessageProtocol.Follows(mq, worlds[n], events[n], worlds[n + 1]);
    BeginWaits(mq, worlds[i], e, q, timeout);
    DeadlineStands(mq, worlds, events, t, e, q, timeout, d, i + 1, n);
    WaitsInv(mq, worlds[n], events[n], t, e, q, timeout, d);
    if worlds[n].kernel.tasks[t].status == WAITING {
      BlockedIsArmed(worlds[n].kernel, t);
    }
    if worlds[n].kernel.current == Some(t) && events[n] == Go {
      GoRetries(mq, worlds[n], t, e, q, timeout, d);
      if d <= worlds[n].kernel.tick {
        RetryGivesUp(worlds[n].kernel);
      }
    }
  }

  lemma WaitsInv(mq: Mqueue, w: World, ev: Event, t: TaskId, e: Event, q: SemId, n: nat, d: nat)
    requires Ready(mq, w, ev) && Waiting(mq, w, t, e, q, n, d)
    ensures Inv(w.kernel) && q in w.kernel.sems
  {
    hide Inv, Phased, Sized, RingOk, Exclusive, CopySafe, TickHits, Enabled, Call, May;
    SemOf(mq, w, t, e, q, n, d);
  }

  // ----- what it returns

  /** The value with which the call of the running task returns in this step, if it does. */
  ghost function Returned(mq: Mqueue, w: World, e: Event): Option<nat>
    requires Ready(mq, w, e)
  {
    if e.Kernel? || NextPhase(mq, w, e) != Outside then None
    else if Running(w).SendReleased? || Running(w).RecvReleased? then Some(mq.msgSize)
    else Some(0)
  }

  /** Task `t` does a step that is one of its own, at which something is appended to what has been sent,
      or to what has been received. */
  ghost predicate Appends(w: World, w': World, t: TaskId, sending: bool) {
    w.kernel.current == Some(t) && if sending then w'.sent != w.sent else w'.received != w.received
  }

  /** The task has yet to copy its message. */
  ghost predicate Before(p: Phase, e: Event) {
    match e
    case Send(message, _) =>
      (p.SendEntered? || p.SendHolds? || p.SendLocked? || p.SendCopying?) && p.message == message
    case Receive(_) => p.RecvEntered? || p.RecvHolds? || p.RecvLocked? || p.RecvCopying?
    case _ => false
  }

  /** It has. */
  ghost predicate Behind(p: Phase, e: Event) {
    match e
    case Send(_, _) => p.SendCopied? || p.SendUnlocked? || p.SendReleased?
    case Receive(_) => p.RecvCopied? || p.RecvUnlocked? || p.RecvReleased?
    case _ => false
  }

  /** The step appends the message the call is about: the one to be sent, or the next one received. */
  ghost predicate Delivers(w: World, w': World, e: Event) {
    match e
    case Send(message, _) => w'.sent == w.sent + [message] && w'.received == w.received
    case Receive(_) =>
      |w.received| < |w.sent| && w'.received == w.received + [w.sent[|w.received|]] && w'.sent == w.sent
    case _ => false
  }

  ghost predicate Nothing(w: World, w': World) {
    w'.sent == w.sent && w'.received == w.received
  }

  /** The message to be sent has been, or some message has been received. */
  ghost predicate OneMore(w: World, w': World, e: Event) {
    match e
    case Send(message, _) => w'.sent == w.sent + [message] && w'.received == w.received
    case Receive(_) => w'.sent == w.sent && |w'.received| == |w.received| + 1
    case _ => false
  }

  /** One own step of a task in the middle of a call, or of one that begins it. */
  lemma OwnStep(mq: Mqueue, w: World, ev: Event, e: Event)
    requires Ready(mq, w, ev) && (e.Send? || e.Receive?) && (ev == Go || (ev == e && Running(w) == Outside))
    requires ev == Go ==> Before(Running(w), e) || Behind(Running(w), e)
    ensures var p, p', w' := Running(w), NextPhase(mq, w, ev), Next(mq, w, ev);
            if ev == e || Before(p, e) then
              (Before(p', e) && Nothing(w, w')) ||
              (Behind(p', e) && !Nothing(w, w') && OneMore(w, w', e)) ||
              (p' == Outside && Nothing(w, w') && Returned(mq, w, ev) == Some(0))
            else
              Nothing(w, w') && (Behind(p', e) || (p' == Outside && Returned(mq, w, ev) == Some(mq.msgSize)))
  {
    hide WorldInv, TickHits, CopySafe, Step, Enabled, AcquireOutcome, RetryOutcome, NextRing, NextByte;
    assert |Next(mq, w, ev).sent| != |w.sent| ==> !Nothing(w, Next(mq, w, ev));
  }

  /** What is received is always the next message sent. */
  lemma NextReceived(mq: Mqueue, w: World, e: Event)
    requires Ready(mq, w, e) && |Next(mq, w, e).received| == |w.received| + 1
    ensures |w.received| < |w.sent| && Next(mq, w, e).received == w.received + [w.sent[|w.received|]]
  {
    hide Inv, Phased, Sized, Tokens, RingOk, Exclusive, TickHits, CopySafe, Step, Enabled, NextPhase, NextRing,
         NextByte, May, Call;
    NextKeeps(mq, w, e);
    RingSizes(mq, Next(mq, w, e));
    Prefix(mq, w, e);
  }

  lemma Prefix(mq: Mqueue, w: World, e: Event)
    requires Ready(mq, w, e) && |Next(mq, w, e).received| == |w.received| + 1
    ensures w.received <= Next(mq, w, e).received && Next(mq, w, e).sent == w.sent
  {
    hide WorldInv, TickHits, CopySafe, Step, Enabled, NextPhase, NextRing, NextByte, May, Call;
  }

  /** Between worlds `i` and `j` task `t` appends nothing. */
  ghost predicate NoneIn(worlds: seq<World>, t: TaskId, sending: bool, i: nat, j: nat) {
    forall k :: i <= k < j < |worlds| ==> !Appends(worlds[k], worlds[k + 1], t, sending)
  }

  /** It appends the one message of call `e`, in one step. */
  ghost predicate OnceIn(worlds: seq<World>, t: TaskId, e: Event, i: nat, j: nat) {
    exists k :: i <= k < j < |worlds| && Delivers(worlds[k], worlds[k + 1], e) && NoneIn(worlds, t, e.Send?, i, k) &&
                Appends(worlds[k], worlds[k + 1], t, e.Send?) && NoneIn(worlds, t, e.Send?, k + 1, j)
  }

  /** Where call `e` of task `t`, begun in world `i`, has got to in world `j`. */
  ghost predicate Underway(worlds: seq<World>, t: TaskId, e: Event, i: nat, j: nat)
    requires j < |worlds|
  {
    NoneIn(worlds, t, !e.Send?, i, j) &&
    ((Before(PhaseOf(worlds[j], t), e) && NoneIn(worlds, t, e.Send?, i, j)) ||
     (Behind(PhaseOf(worlds[j], t), e) && OnceIn(worlds, t, e, i, j)))
  }

  /** A step that is not the task's own leaves it where it is; it does only its own call meanwhile. */
  lemma OthersStep(mq: Mqueue, w: World, ev: Event, t: TaskId)
    requires Ready(mq, w, ev) && PhaseOf(w, t) != Outside && !(w.kernel.current == Some(t) && ev == Go)
    ensures var w' := Next(mq, w, ev);
            PhaseOf(w', t) == PhaseOf(w, t) && forall sending :: !Appends(w, w', t, sending)
  {
    hide WorldInv, TickHits, CopySafe, Step, Enabled, AcquireOutcome, RetryOutcome, NextRing, NextByte;
  }

  lemma NoneMore(worlds: seq<World>, t: TaskId, sending: bool, i: nat, j: nat)
    requires i <= j && j + 1 < |worlds| && NoneIn(worlds, t, sending, i, j)
    requires !Appends(worlds[j], worlds[j + 1], t, sending)
    ensures NoneIn(worlds, t, sending, i, j + 1)
  {
    hide Appends;
  }

  lemma OnceMore(worlds: seq<World>, t: TaskId, e: Event, i: nat, j: nat)
    requires i <= j && j + 1 < |worlds| && OnceIn(worlds, t, e, i, j)
    requires !Appends(worlds[j], worlds[j + 1], t, e.Send?)
    ensures OnceIn(worlds, t, e, i, j + 1)
  {
    hide Appends, Delivers, NoneIn;
    var k :| i <= k < j < |worlds| && Delivers(worlds[k], worlds[k + 1], e) && NoneIn(worlds, t, e.Send?, i, k) &&
             Appends(worlds[k], worlds[k + 1], t, e.Send?) && NoneIn(worlds, t, e.Send?, k + 1, j);
    NoneMore(worlds, t, e.Send?, k + 1, j);
  }

  lemma OnceNow(worlds: seq<World>, t: TaskId, e: Event, i: nat, j: nat)
    requires i <= j && j + 1 < |worlds| && NoneIn(worlds, t, e.Send?, i, j)
    requires Delivers(worlds[j], worlds[j + 1], e) && Appends(worlds[j], worlds[j + 1], t, e.Send?)
    ensures OnceIn(worlds, t, e, i, j + 1)
  {
    hide Appends, Delivers;
    assert NoneIn(worlds, t, e.Send?, j + 1, j + 1);
  }

  /** What the task's own step does to its call. */
  lemma OwnUnderway(mq: Mqueue, worlds: seq<World>, events: seq<Event>, t: TaskId, e: Event, i: nat, j: nat)
    requires j + 1 < |worlds| && i <= j < |events| && Ready(mq, worlds[j], events[j]) && (e.Send? || e.Receive?)
    requires worlds[j + 1] == Next(mq, worlds[j], events[j]) && worlds[j].kernel.current == Some(t)
    requires if i == j then events[j] == e && Running(worlds[j]) == Outside
             else events[j] == Go && Underway(worlds, t, e, i, j)
    ensures PhaseOf(worlds[j + 1], t) != Outside ==> Underway(worlds, t, e, i, j + 1)
    ensures PhaseOf(worlds[j + 1], t) == Outside ==>
      NoneIn(worlds, t, !e.Send?, i, j + 1) &&
      ((Returned(mq, worlds[j], events[j]) == Some(0) && NoneIn(worlds, t, e.Send?, i, j + 1)) ||
       (Returned(mq, worlds[j], events[j]) == Some(mq.msgSize) && OnceIn(worlds, t, e, i, j + 1)))
  {
    hide Ready, Next, Before, Behind, NoneIn, OnceIn, Returned;
    var w, w', p := worlds[j], worlds[j + 1], PhaseOf(worlds[j], t);
    PhasesAfter(mq, w, events[j], t);
    OwnStep(mq, w, events[j], e);
    NoneYet(worlds, t, i);
    NotBoth(p, e);
    NotBoth(PhaseOf(w', t), e);
    if i == j || Before(p, e) {
      if e.Receive? && |w'.received| == |w.received| + 1 {
        NextReceived(mq, w, events[j]);
      }
      NoneMore(worlds, t, !e.Send?, i, j);
      if Nothing(w, w') {
        NoneMore(worlds, t, e.Send?, i, j);
      } else {
        OnceNow(worlds, t, e, i, j);
      }
    } else {
      NoneMore(worlds, t, !e.Send?, i, j);
      OnceMore(worlds, t, e, i, j);
    }
  }

  lemma NotBoth(p: Phase, e: Event)
    ensures !(Before(p, e) && Behind(p, e)) && (p == Outside ==> !Before(p, e) && !Behind(p, e))
  {
  }

  lemma NoneYet(worlds: seq<World>, t: TaskId, i: nat)
    ensures forall sending :: NoneIn(worlds, t, sending, i, i)
  {
  }

  lemma {:induction false} CallUnderway(mq: Mqueue, worlds: seq<World>, events: seq<Event>, t: TaskId, i: nat, j: nat)
    requires IsHistory(mq, worlds, events) && i < j < |worlds| && (events[i].Send? || events[i].Receive?)
    requires worlds[i].kernel.current == Some(t) && forall k :: i < k <= j ==> PhaseOf(worlds[k], t) != Outside
    ensures Underway(worlds, t, events[i], i, j)
    decreases j
  {
    hide Ready, May, Next, IsNew, Underway, Returned, Offered;
    FifoInEveryHistory(mq, worlds, events, j - 1);
    assert MessageProtocol.Follows(mq, worlds[j - 1], events[j - 1], worlds[j]);
    if j - 1 == i {
      BeginsOutside(mq, worlds[i], events[i]);
      OwnUnderway(mq, worlds, events, t, events[i], i, i);
    } else {
      CallUnderway(mq, worlds, events, t, i, j - 1);
      if worlds[j - 1].kernel.current == Some(t) && events[j - 1] == Go {
        OwnUnderway(mq, worlds, events, t, events[i], i, j - 1);
      } else {
        OthersUnderway(mq, worlds, events, t, events[i], i, j - 1);
      }
    }
  }

  lemma BeginsOutside(mq: Mqueue, w: World, e: Event)
    requires Ready(mq, w, e) && (e.Send? || e.Receive?)
    ensures Running(w) == Outside
  {
    hide WorldInv, CopySafe, Enabled;
  }

  lemma OthersUnderway(mq: Mqueue, worlds: seq<World>, events: seq<Event>, t: TaskId, e: Event, i: nat, j: nat)
    requires i <= j < |events| && j + 1 < |worlds| && Ready(mq, worlds[j], events[j]) && Underway(worlds, t, e, i, j)
    requires worlds[j + 1] == Next(mq, worlds[j], events[j]) && PhaseOf(worlds[j], t) != Outside
    requires !(worlds[j].kernel.current == Some(t) && events[j] == Go)
    ensures Underway(worlds, t, e, i, j + 1)
  {
    hide Ready, Next, Before, Behind, NoneIn, OnceIn;
    OthersStep(mq, worlds[j], events[j], t);
    NoneMore(worlds, t, !e.Send?, i, j);
    if NoneIn(worlds, t, e.Send?, i, j) {
      NoneMore(worlds, t, e.Send?, i, j);
    }
    if OnceIn(worlds, t, e, i, j) {
      OnceMore(worlds, t, e, i, j);
    }
  }

  /** In every history, whatever other tasks do meanwhile: a call returns the message size when it has
      sent its message, or received the next one, in exactly one of its steps; it returns 0 when
      none of its steps has sent or received anything.  It returns nothing else. */
  lemma CallReturns(mq: Mqueue, worlds: seq<World>, events: seq<Event>, t: TaskId, i: nat, n: nat)
    requires IsHistory(mq, worlds, events) && i <= n < |events| && (events[i].Send? || events[i].Receive?)
    requires worlds[i].kernel.current == Some(t) && forall k :: i < k <= n ==> PhaseOf(worlds[k], t) != Outside
    requires PhaseOf(worlds[n + 1], t) == Outside
    ensures Ready(mq, worlds[n], events[n]) && worlds[n].kernel.current == Some(t)
    ensures var e := events[i];
            NoneIn(worlds, t, !e.Send?, i, n + 1) &&
            ((Returned(mq, worlds[n], events[n]) == Some(0) && NoneIn(worlds, t, e.Send?, i, n + 1)) ||
             (Returned(mq, worlds[n], events[n]) == Some(mq.msgSize) && OnceIn(worlds, t, e, i, n + 1)))
  {
    hide Ready, May, Next, IsNew, Underway, Returned, Offered, NoneIn, OnceIn;
    FifoInEveryHistory(mq, worlds, events, n);
    assert MessageProtocol.Follows(mq, worlds[n], events[n], worlds[n + 1]);
    if n == i {
      BeginsOutside(mq, worlds[i], events[i]);
    } else {
      CallUnderway(mq, worlds, events, t, i, n);
      if !(worlds[n].kernel.current == Some(t) && events[n] == Go) {
        OthersStep(mq, worlds[n], events[n], t);
      }
    }
    OwnUnderway(mq, worlds, events, t, events[i], i, n);
  }
}
