/**
  `eos_send_message` and `eos_receive_message` on one message queue, by any number of tasks, in any
  interleaving the kernel allows.  A tick can come after every step of either call and after every
  byte of a copy; it can preempt the task anywhere but between locking and restoring the scheduler.
 */
module MessageProtocol {
  import opened Queues
  import opened KernelState
  import opened KernelInvariant
  import opened KernelSteps
  import opened KernelRuns
  import opened KernelSync
  import opened KernelCalls
  import opened MessageRing

  /** The queue: its semaphores, the number of its slots and the bytes of a message. */
  datatype Mqueue = Mqueue(put: SemId, get: SemId, size: nat, msgSize: nat)

  /** Where a task is in a call on the queue. */
  datatype Phase =
    | Outside
    | SendEntered(message: Message)            // inside eos_acquire_semaphore(&mq->putsem, ..)
    | SendHolds(message: Message)              // it has a free slot
    | SendLocked(message: Message, was: bool)  // about to advance rear
    | SendCopying(message: Message, was: bool, slot: nat, i: nat)  // about to copy byte i
    | SendCopied(was: bool)                    // about to restore the scheduler
    | SendUnlocked                             // about to release getsem
    | SendReleased                             // inside eos_release_semaphore(&mq->getsem)
    | RecvEntered
    | RecvHolds
    | RecvLocked(was: bool)
    | RecvCopying(was: bool, slot: nat, got: Message)
    | RecvCopied(was: bool)
    | RecvUnlocked
    | RecvReleased

  /** `sent` and `received` are the messages copied in and out so far, in the order of the copies; a
      message counts with its last byte. */
  datatype World = World(kernel: State, phases: map<TaskId, Phase>, ring: Ring, sent: seq<Message>,
                         received: seq<Message>)

  datatype Event =
    | Kernel(a: Action)                          // a tick, or a call that has nothing to do with the queue
    | Send(message: Message, timeout: int)       // the running task calls eos_send_message
    | Receive(timeout: int)                      // or eos_receive_message
    | Go                                         // the running task takes its next step in such a call

  ghost function PhaseOf(w: World, t: TaskId): Phase {
    if t in w.phases then w.phases[t] else Outside
  }

  ghost function Running(w: World): Phase {
    if w.kernel.current.Some? then PhaseOf(w, w.kernel.current.value) else Outside
  }

  // ----- the steps

  /** The call is one on the queue's own semaphores. */
  ghost predicate OnQueue(mq: Mqueue, a: Action) {
    match a
    case DoAcquire(q, _) => q == mq.put || q == mq.get
    case DoRelease(q) => q == mq.put || q == mq.get
    case DoInitSemaphore(q, _, _) => q == mq.put || q == mq.get
    case _ => false
  }

  /** The kernel call, if any, that is the next step of the running task. */
  ghost function Call(mq: Mqueue, w: World, e: Event): Option<Action> {
    match e
    case Kernel(a) => Some(a)
    case Send(_, timeout) => Some(DoAcquire(mq.put, timeout))
    case Receive(timeout) => Some(DoAcquire(mq.get, timeout))
    case Go =>
      match Running(w)
      case Outside => None
      case SendEntered(_) => Some(DoRetry)
      case SendHolds(_) => Some(DoLock)
      case SendLocked(_, _) => None
      case SendCopying(_, _, _, _) => None
      case SendCopied(was) => Some(DoRestore(was))
      case SendUnlocked => Some(DoRelease(mq.get))
      case SendReleased => Some(DoWake)
      case RecvEntered => Some(DoRetry)
      case RecvHolds => Some(DoLock)
      case RecvLocked(_) => None
      case RecvCopying(_, _, _) => None
      case RecvCopied(was) => Some(DoRestore(was))
      case RecvUnlocked => Some(DoRelease(mq.put))
      case RecvReleased => Some(DoWake)
  }

  /** What the tasks are free to do: callers owe what the kernel calls ask of them, and leave the
      queue's semaphores alone.  A task in the middle of a call on the queue only goes on with it. */
  ghost predicate Offered(mq: Mqueue, w: World, e: Event) {
    match e
    case Kernel(a) => Enabled(w.kernel, a) && !OnQueue(mq, a) && (a.DoTick? || Running(w) == Outside)
    case Send(message, timeout) =>
      Running(w) == Outside && Enabled(w.kernel, DoAcquire(mq.put, timeout)) && |message| == mq.msgSize
    case Receive(timeout) => Running(w) == Outside && Enabled(w.kernel, DoAcquire(mq.get, timeout))
    case Go => w.kernel.current.Some? && Running(w) != Outside
  }

  /** The same, but for ticks that would fault. */
  ghost predicate May(mq: Mqueue, w: World, e: Event) {
    Offered(mq, w, e) && !(e == Kernel(DoTick) && TickHits(w.kernel))
  }

  /** The phase an acquire leads to. */
  ghost function Entered(outcome: Outcome, blocked: Phase, holds: Phase): Phase {
    match outcome
    case Failed => Outside
    case Acquired => holds
    case Blocked => blocked
  }

  /** The sizes the memory accesses of a copy depend on. */
  ghost predicate SizedPhase(mq: Mqueue, p: Phase) {
    (p.SendEntered? || p.SendHolds? || p.SendLocked? || p.SendCopying? ==> |p.message| == mq.msgSize) &&
    (p.SendCopying? ==> p.slot < mq.size && p.i < mq.msgSize) &&
    (p.RecvCopying? ==> p.slot < mq.size && |p.got| < mq.msgSize)
  }

  /** Every byte a copy touches lies in the buffer. */
  ghost predicate CopySafe(mq: Mqueue, w: World) {
    |w.ring.bytes| == Offset(mq.size, mq.msgSize) && w.ring.front < mq.size && w.ring.rear < mq.size &&
    SizedPhase(mq, Running(w))
  }

  /** The byte the running receiver copies next. */
  ghost function NextByte(mq: Mqueue, w: World): Byte
    requires CopySafe(mq, w) && Running(w).RecvCopying?
  {
    SlotFits(Running(w).slot, mq.size, mq.msgSize);
    ReadByte(w.ring.bytes, mq.msgSize, Running(w).slot, |Running(w).got|)
  }

  /** The phase of the running task after its step. */
  ghost function NextPhase(mq: Mqueue, w: World, e: Event): Phase
    requires May(mq, w, e) && Typed(w.kernel) && (Call(mq, w, e).Some? ==> Enabled(w.kernel, Call(mq, w, e).value)) &&
             CopySafe(mq, w)
  {
    match e
    case Kernel(_) => Running(w)
    case Send(message, timeout) => Entered(AcquireOutcome(w.kernel, mq.put, timeout), SendEntered(message),
                                           SendHolds(message))
    case Receive(timeout) => Entered(AcquireOutcome(w.kernel, mq.get, timeout), RecvEntered, RecvHolds)
    case Go =>
      match Running(w)
      case Outside => Outside
      case SendEntered(message) => Entered(RetryOutcome(w.kernel), SendEntered(message), SendHolds(message))
      case SendHolds(message) => SendLocked(message, w.kernel.locked)
      case SendLocked(message, was) => SendCopying(message, was, w.ring.rear, 0)
      case SendCopying(message, was, slot, i) => if i + 1 == mq.msgSize then SendCopied(was)
                                                 else SendCopying(message, was, slot, i + 1)
      case SendCopied(_) => SendUnlocked
      case SendUnlocked => SendReleased
      case SendReleased => Outside
      case RecvEntered => Entered(RetryOutcome(w.kernel), RecvEntered, RecvHolds)
      case RecvHolds => RecvLocked(w.kernel.locked)
      case RecvLocked(was) => RecvCopying(was, w.ring.front, [])
      case RecvCopying(was, slot, got) =>
        if |got| + 1 == mq.msgSize then RecvCopied(was) else RecvCopying(was, slot, got + [NextByte(mq, w)])
      case RecvCopied(_) => RecvUnlocked
      case RecvUnlocked => RecvReleased
      case RecvReleased => Outside
  }

  /** The step copies the last byte of a message in, or out. */
  ghost predicate Sends(mq: Mqueue, w: World, e: Event) {
    e.Go? && Running(w).SendCopying? && Running(w).i + 1 == mq.msgSize
  }

  ghost predicate Receives(mq: Mqueue, w: World, e: Event) {
    e.Go? && Running(w).RecvCopying? && |Running(w).got| + 1 == mq.msgSize
  }

  ghost function NextRing(mq: Mqueue, w: World, e: Event): (ring: Ring)
    requires CopySafe(mq, w)
    ensures |ring.bytes| == |w.ring.bytes|
  {
    if !e.Go? then w.ring
    else match Running(w)
      case SendLocked(_, _) => w.ring.(rear := Advance(w.ring.rear, mq.size))
      case SendCopying(message, _, slot, i) =>
        SlotFits(slot, mq.size, mq.msgSize);
        w.ring.(bytes := WriteByte(w.ring.bytes, mq.msgSize, slot, i, message[i]))
      case RecvLocked(_) => Pop(w.ring, mq.size)
      case _ => w.ring
  }

  ghost function Next(mq: Mqueue, w: World, e: Event): World
    requires May(mq, w, e) && Typed(w.kernel) && (Call(mq, w, e).Some? ==> Enabled(w.kernel, Call(mq, w, e).value)) &&
             CopySafe(mq, w)
  {
    World(if Call(mq, w, e).Some? then Step(w.kernel, Call(mq, w, e).value) else w.kernel,
          if w.kernel.current.Some? then w.phases[w.kernel.current.value := NextPhase(mq, w, e)] else w.phases,
          NextRing(mq, w, e),
          if Sends(mq, w, e) then w.sent + [Running(w).message] else w.sent,
          if Receives(mq, w, e) then w.received + [Running(w).got + [NextByte(mq, w)]] else w.received)
  }

  // ----- the invariant

  /** The kernel's record of where a task is agrees with its phase. */
  ghost predicate Consistent(mq: Mqueue, p: Phase, pc: Pc) {
    match p
    case Outside => pc.User? || (pc.sem != mq.put && pc.sem != mq.get)
    case SendEntered(_) => pc.Acquiring? && pc.sem == mq.put
    case SendReleased => pc == Releasing(mq.get)
    case RecvEntered => pc.Acquiring? && pc.sem == mq.get
    case RecvReleased => pc == Releasing(mq.put)
    case _ => pc.User?
  }

  ghost predicate Phased(mq: Mqueue, tasks: map<TaskId, Task>, phases: map<TaskId, Phase>) {
    (forall t :: t in tasks ==> Consistent(mq, if t in phases then phases[t] else Outside, tasks[t].pc)) &&
    (forall t :: t in phases && phases[t] != Outside ==> t in tasks && t != IDLE)
  }

  ghost predicate Sized(mq: Mqueue, w: World) {
    forall t :: t in w.phases ==> SizedPhase(mq, w.phases[t])
  }

  /** The four kinds of tasks that hold a unit of a semaphore's count. */
  datatype Kind = BeforeWrite | AfterWrite | BeforeRead | AfterRead

  ghost predicate Is(p: Phase, k: Kind) {
    match k
    case BeforeWrite => p.SendHolds? || p.SendLocked? || p.SendCopying?
    case AfterWrite => p.SendCopied? || p.SendUnlocked?
    case BeforeRead => p.RecvHolds? || p.RecvLocked? || p.RecvCopying?
    case AfterRead => p.RecvCopied? || p.RecvUnlocked?
  }

  ghost function Tasks(phases: map<TaskId, Phase>, k: Kind): set<TaskId> {
    set t | t in phases && Is(phases[t], k)
  }

  /** Every acquire and release of the two semaphores is accounted for by the copies and by the
      tasks between an acquire and its copy, or between a copy and its release. */
  ghost predicate Accounted(mq: Mqueue, put: Semaphore, get: Semaphore, phases: map<TaskId, Phase>, sent: nat,
                            received: nat) {
    Conserved(put) && Conserved(get) && put.initial == mq.size && get.initial == 0 &&
    put.acquired == sent + |Tasks(phases, BeforeWrite)| &&
    get.released == sent - |Tasks(phases, AfterWrite)| &&
    get.acquired == received + |Tasks(phases, BeforeRead)| &&
    put.released == received - |Tasks(phases, AfterRead)|
  }

  ghost predicate Tokens(mq: Mqueue, w: World) {
    mq.put in w.kernel.sems && mq.get in w.kernel.sems &&
    Accounted(mq, w.kernel.sems[mq.put], w.kernel.sems[mq.get], w.phases, |w.sent|, |w.received|)
  }

  ghost predicate WellFormed(mq: Mqueue) {
    mq.put != mq.get && 0 < mq.size <= 127 && 0 < mq.msgSize < 0x100
  }

  /** Between locking and restoring the scheduler. */
  ghost predicate Critical(p: Phase) {
    p.SendLocked? || p.SendCopying? || p.SendCopied? || p.RecvLocked? || p.RecvCopying? || p.RecvCopied?
  }

  /** Mutual exclusion: a task that has locked the scheduler runs, and so it alone has. */
  ghost predicate Exclusive(w: World) {
    forall t :: t in w.phases && Critical(w.phases[t]) ==> w.kernel.locked && w.kernel.current == Some(t)
  }

  /** The ring holds what has been sent and not received; a copy that is under way has its indices
      advanced and its first bytes copied. */
  ghost predicate RingOk(mq: Mqueue, w: World) {
    match Running(w)
    case SendCopying(message, _, slot, i) => HalfSent(w.ring, mq.size, mq.msgSize, w.sent, w.received, message, slot, i)
    case RecvCopying(_, slot, got) => HalfReceived(w.ring, mq.size, mq.msgSize, w.sent, w.received, got, slot)
    case _ => Holds(w.ring, mq.size, mq.msgSize, w.sent, w.received)
  }

  ghost predicate WorldInv(mq: Mqueue, w: World) {
    WellFormed(mq) && Inv(w.kernel) && Phased(mq, w.kernel.tasks, w.phases) && Sized(mq, w) && Tokens(mq, w) &&
    Exclusive(w) && RingOk(mq, w)
  }

  // ----- what the invariant says

  lemma OneOf(phases: map<TaskId, Phase>, t: TaskId, k: Kind)
    requires t in phases && Is(phases[t], k)
    ensures |Tasks(phases, k)| >= 1
  {
    assert t in Tasks(phases, k);
  }

  /** What the ring holds in every phase of a copy. */
  lemma RingSizes(mq: Mqueue, w: World)
    requires RingOk(mq, w)
    ensures |w.ring.bytes| == Offset(mq.size, mq.msgSize) && w.ring.front < mq.size && w.ring.rear < mq.size
    ensures w.received <= w.sent && |w.sent| <= |w.received| + mq.size
    ensures !Running(w).RecvCopying? ==> w.ring.front == |w.received| % mq.size
    ensures !Running(w).SendCopying? ==> w.ring.rear == |w.sent| % mq.size
  {
    hide Offset;
  }

  /** Token conservation: the messages in the ring are those counted by getsem, those whose senders
      have yet to release it and those whose receivers have acquired it but not read; the free slots
      are those counted by putsem and those of the senders and receivers in between. */
  lemma TokensConserved(mq: Mqueue, w: World)
    requires WorldInv(mq, w)
    ensures var put, get := w.kernel.sems[mq.put].count, w.kernel.sems[mq.get].count;
            var full := |w.sent| - |w.received|;
            full == get + |Tasks(w.phases, AfterWrite)| + |Tasks(w.phases, BeforeRead)| &&
            mq.size - full == put + |Tasks(w.phases, BeforeWrite)| + |Tasks(w.phases, AfterRead)|
  {
    hide Inv, Phased, RingOk;
  }

  /** Whoever is about to copy or in the middle of it has its slot free or its message there, and
      stays within the buffer. */
  lemma CopiesAreSafe(mq: Mqueue, w: World)
    requires WorldInv(mq, w)
    ensures CopySafe(mq, w)
    ensures Running(w).SendLocked? || Running(w).SendCopying? ==> |w.sent| < |w.received| + mq.size
    ensures Running(w).RecvLocked? || Running(w).RecvCopying? ==> |w.received| < |w.sent|
  {
    hide Inv, Phased, Offset, RingOk;
    RingSizes(mq, w);
    TokensConserved(mq, w);
    if Running(w).SendLocked? || Running(w).SendCopying? {
      OneOf(w.phases, w.kernel.current.value, BeforeWrite);
    } else if Running(w).RecvLocked? || Running(w).RecvCopying? {
      OneOf(w.phases, w.kernel.current.value, BeforeRead);
    }
  }

  /** A call on the queue can always go on: in particular its releases never overflow a count. */
  lemma GoIsEnabled(mq: Mqueue, w: World)
    requires WorldInv(mq, w) && May(mq, w, Go)
    ensures Typed(w.kernel) && (Call(mq, w, Go).Some? ==> Enabled(w.kernel, Call(mq, w, Go).value))
  {
    hide Inv, Sized, RingOk, Tokens, Offset, TickHits, CopySafe;
    CurrentIsTask(w.kernel);
    var t := w.kernel.current.value;
    assert Consistent(mq, w.phases[t], w.kernel.tasks[t].pc);
    if Running(w).SendUnlocked? || Running(w).RecvUnlocked? {
      ReleaseFits(mq, w);
    }
  }

  lemma CurrentIsTask(s: State)
    requires Inv(s) && s.current.Some?
    ensures Typed(s) && s.current.value in s.tasks
  {
  }

  lemma ReleaseFits(mq: Mqueue, w: World)
    requires WorldInv(mq, w) && w.kernel.current.Some?
    ensures Running(w).SendUnlocked? ==> mq.get in w.kernel.sems && w.kernel.sems[mq.get].count < 127
    ensures Running(w).RecvUnlocked? ==> mq.put in w.kernel.sems && w.kernel.sems[mq.put].count < 127
  {
    hide Inv, Phased, Sized, RingOk;
    RingSizes(mq, w);
    TokensConserved(mq, w);
    if Running(w).SendUnlocked? {
      OneOf(w.phases, w.kernel.current.value, AfterWrite);
    } else if Running(w).RecvUnlocked? {
      OneOf(w.phases, w.kernel.current.value, AfterRead);
    }
  }

  /** Every event the tasks may do is one the kernel allows. */
  lemma CallIsEnabled(mq: Mqueue, w: World, e: Event)
    requires WorldInv(mq, w) && May(mq, w, e)
    ensures Typed(w.kernel) && CopySafe(mq, w)
    ensures Call(mq, w, e).Some? ==> Enabled(w.kernel, Call(mq, w, e).value) &&
                                     !(Call(mq, w, e).value.DoTick? && TickHits(w.kernel))
  {
    hide Inv, Phased, Sized, Tokens, RingOk, Exclusive, TickHits;
    CopiesAreSafe(mq, w);
    if e.Go? {
      GoIsEnabled(mq, w);
    }
  }

  // ----- every step keeps it

  ghost function One(b: bool): nat { if b then 1 else 0 }

  lemma Moved(phases: map<TaskId, Phase>, t: TaskId, p: Phase, k: Kind)
    ensures |Tasks(phases[t := p], k)| == |Tasks(phases, k)| - One(t in phases && Is(phases[t], k)) + One(Is(p, k))
  {
    var rest := set x | x in phases && Is(phases[x], k) && x != t;
    SizeOf(Tasks(phases, k), rest, t, t in phases && Is(phases[t], k));
    SizeOf(Tasks(phases[t := p], k), rest, t, Is(p, k));
  }

  lemma SizeOf(all: set<TaskId>, rest: set<TaskId>, t: TaskId, b: bool)
    requires t !in rest && forall x :: x in all <==> x in rest || (x == t && b)
    ensures |all| == |rest| + One(b)
  {
    assert all == if b then rest + {t} else rest;
  }

  /** The step is one the invariant allows. */
  ghost predicate Ready(mq: Mqueue, w: World, e: Event) {
    WorldInv(mq, w) && May(mq, w, e) && Typed(w.kernel) && CopySafe(mq, w) &&
    (Call(mq, w, e).Some? ==>
       Enabled(w.kernel, Call(mq, w, e).value) && !(Call(mq, w, e).value.DoTick? && TickHits(w.kernel)))
  }

  lemma CurrentPhased(mq: Mqueue, w: World, e: Event)
    requires Ready(mq, w, e) && Call(mq, w, e).Some? && w.kernel.current.Some? &&
             w.kernel.current.value in w.kernel.tasks
    ensures forall pc :: PcAfter(w.kernel, Call(mq, w, e).value, w.kernel.current.value, pc) ==>
      Consistent(mq, NextPhase(mq, w, e), pc)
  {
    hide Inv, Sized, Tokens, RingOk, Exclusive, TickHits, CopySafe, AcquireOutcome, RetryOutcome;
    var t := w.kernel.current.value;
    assert Consistent(mq, Running(w), w.kernel.tasks[t].pc);
  }

  lemma UserIsOutside(mq: Mqueue)
    ensures forall pc: Pc :: pc.User? ==> Consistent(mq, Outside, pc)
  {
  }

  /** When one task moves to phase `p` and no other task moves in its code. */
  lemma PhasedMove(mq: Mqueue, tasks: map<TaskId, Task>, tasks': map<TaskId, Task>, phases: map<TaskId, Phase>,
                   t: TaskId, p: Phase)
    requires Phased(mq, tasks, phases) && t in tasks && (p != Outside ==> t != IDLE)
    requires forall x :: x in tasks ==> x in tasks' && (x != t ==> tasks'[x].pc == tasks[x].pc)
    requires forall x :: x in tasks' && x !in tasks ==> tasks'[x].pc.User?
    requires Consistent(mq, p, tasks'[t].pc)
    ensures Phased(mq, tasks', phases[t := p])
  {
    hide Consistent;
    UserIsOutside(mq);
  }

  lemma PhasedSame(mq: Mqueue, tasks: map<TaskId, Task>, tasks': map<TaskId, Task>, phases: map<TaskId, Phase>)
    requires Phased(mq, tasks, phases)
    requires forall x :: x in tasks ==> x in tasks' && tasks'[x].pc == tasks[x].pc
    requires forall x :: x in tasks' && x !in tasks ==> tasks'[x].pc.User?
    ensures Phased(mq, tasks', phases)
  {
    hide Consistent;
    UserIsOutside(mq);
  }

  lemma PhasedStep(mq: Mqueue, w: World, e: Event)
    requires Ready(mq, w, e)
    ensures Phased(mq, Next(mq, w, e).kernel.tasks, Next(mq, w, e).phases)
  {
    hide Inv, Tokens, Sized, Phased, RingOk, Exclusive, TickHits, May, NextPhase, Call, Step, Enabled, NextRing,
         Consistent, SemAfter;
    var w' := Next(mq, w, e);
    if Call(mq, w, e).Some? {
      StepEffect(w.kernel, Call(mq, w, e).value);
    }
    if w.kernel.current.Some? {
      NotIdleInCall(mq, w, e);
      if Call(mq, w, e).Some? {
        CurrentPhased(mq, w, e);
      } else {
        CopyPhased(mq, w, e);
      }
      PhasedMove(mq, w.kernel.tasks, w'.kernel.tasks, w.phases, w.kernel.current.value, NextPhase(mq, w, e));
    } else {
      CopyByPhase(mq, w, e);
      PhasedSame(mq, w.kernel.tasks, w'.kernel.tasks, w.phases);
    }
  }

  lemma SizedStep(mq: Mqueue, w: World, e: Event)
    requires Ready(mq, w, e)
    ensures Sized(mq, Next(mq, w, e))
  {
    hide Inv, Tokens, Phased, RingOk, Exclusive, TickHits, May, NextPhase, Call, Step, Enabled, NextRing, SizedPhase;
    NextIsSized(mq, w, e);
  }

  lemma CopyPhased(mq: Mqueue, w: World, e: Event)
    requires Ready(mq, w, e) && Call(mq, w, e).None?
    ensures w.kernel.current.Some? && w.kernel.current.value in w.kernel.tasks &&
            w.kernel.tasks[w.kernel.current.value].pc.User?
    ensures Consistent(mq, NextPhase(mq, w, e), w.kernel.tasks[w.kernel.current.value].pc)
  {
    hide Inv, Tokens, RingOk, Exclusive, TickHits;
    var t := w.kernel.current.value;
    assert Consistent(mq, PhaseOf(w, t), w.kernel.tasks[t].pc);
  }

  lemma NextIsSized(mq: Mqueue, w: World, e: Event)
    requires Ready(mq, w, e)
    ensures SizedPhase(mq, NextPhase(mq, w, e))
  {
    hide Inv, Tokens, Phased, RingOk, Exclusive, TickHits, Enabled, AcquireOutcome, RetryOutcome;
  }

  /** Only a task that may block enters a call. */
  lemma NotIdleInCall(mq: Mqueue, w: World, e: Event)
    requires Ready(mq, w, e) && w.kernel.current.Some?
    ensures w.kernel.current.value in w.kernel.tasks
    ensures NextPhase(mq, w, e) != Outside ==> w.kernel.current.value != IDLE
  {
    hide Inv, Tokens, Sized, RingOk, Exclusive, TickHits, AcquireOutcome, RetryOutcome, Consistent;
  }

  // The four counts, event by event.

  lemma SemsOfCall(mq: Mqueue, w: World, e: Event)
    requires Ready(mq, w, e) && Call(mq, w, e).Some?
    ensures var s, a := w.kernel, Call(mq, w, e).value; var s' := Step(s, a);
            mq.put in s'.sems && mq.get in s'.sems &&
            s'.sems[mq.put] == SemAfter(s, a, mq.put) && Conserved(s'.sems[mq.put]) &&
            s'.sems[mq.get] == SemAfter(s, a, mq.get) && Conserved(s'.sems[mq.get])
  {
    hide Inv, Phased, Sized, RingOk, Exclusive, TickHits, Step, May, Call, CopySafe, Conserved, SemAfter, PcAfter,
         Enabled;
    var s, a := w.kernel, Call(mq, w, e).value;
    StepEffect(s, a);
    CountConserved(s, a, mq.put);
    CountConserved(s, a, mq.get);
  }

  /** Whether the running task takes a unit of a semaphore is what its next phase says. */
  lemma TakesByPhase(mq: Mqueue, w: World, e: Event)
    requires Ready(mq, w, e) && Call(mq, w, e).Some?
    ensures var s, a, p, p' := w.kernel, Call(mq, w, e).value, Running(w), NextPhase(mq, w, e);
            (Takes(s, a, mq.put) <==> p'.SendHolds? && !p.SendHolds?) &&
            (a == DoRelease(mq.put) <==> p.RecvUnlocked? && e.Go?) &&
            (Takes(s, a, mq.get) <==> p'.RecvHolds? && !p.RecvHolds?) &&
            (a == DoRelease(mq.get) <==> p.SendUnlocked? && e.Go?)
  {
    hide Inv, Tokens, Sized, RingOk, Exclusive, TickHits, AcquireOutcome, RetryOutcome;
    if w.kernel.current.Some? {
      var t := w.kernel.current.value;
      assert Consistent(mq, PhaseOf(w, t), w.kernel.tasks[t].pc);
    }
  }

  /** Who finishes a copy is accounted for with the message it copied. */
  lemma CopyByPhase(mq: Mqueue, w: World, e: Event)
    requires Ready(mq, w, e)
    ensures var w' := Next(mq, w, e);
            |w'.sent| == |w.sent| + One(Sends(mq, w, e)) && |w'.received| == |w.received| + One(Receives(mq, w, e))
    ensures Call(mq, w, e).None? <==>
      e.Go? && (Running(w).SendLocked? || Running(w).SendCopying? || Running(w).RecvLocked? || Running(w).RecvCopying?)
    ensures w.kernel.current.None? ==> NextPhase(mq, w, e) == Outside
  {
    hide WorldInv, TickHits, NextRing, CopySafe, Step, NextByte;
  }

  /** The kinds a task belongs to before and after its step, and what it does to the counts. */
  lemma KindsMove(mq: Mqueue, w: World, e: Event)
    requires Ready(mq, w, e)
    ensures var p, p' := Running(w), NextPhase(mq, w, e); var written, taken := Sends(mq, w, e), Receives(mq, w, e);
            One(Is(p', BeforeWrite)) - One(Is(p, BeforeWrite)) == One(p'.SendHolds? && !p.SendHolds?) - One(written) &&
            One(Is(p', AfterWrite)) - One(Is(p, AfterWrite)) == One(written) - One(p.SendUnlocked? && e.Go?) &&
            One(Is(p', BeforeRead)) - One(Is(p, BeforeRead)) == One(p'.RecvHolds? && !p.RecvHolds?) - One(taken) &&
            One(Is(p', AfterRead)) - One(Is(p, AfterRead)) == One(taken) - One(p.RecvUnlocked? && e.Go?)
  {
    hide WorldInv, TickHits, Enabled, CopySafe, AcquireOutcome, RetryOutcome;
  }

  lemma TokensStep(mq: Mqueue, w: World, e: Event)
    requires Ready(mq, w, e)
    ensures Tokens(mq, Next(mq, w, e))
  {
    hide Inv, Phased, Sized, RingOk, Exclusive, TickHits, Enabled, CopySafe, May, Call, NextPhase, AcquireOutcome,
         RetryOutcome, Conserved,
      Tasks, Step, NextRing;
    var w', p, p' := Next(mq, w, e), Running(w), NextPhase(mq, w, e);
    KindsMove(mq, w, e);
    CopyByPhase(mq, w, e);
    if Call(mq, w, e).Some? {
      SemsOfCall(mq, w, e);
      TakesByPhase(mq, w, e);
    }
    if w.kernel.current.Some? {
      var t := w.kernel.current.value;
      Moved(w.phases, t, p', BeforeWrite);
      Moved(w.phases, t, p', AfterWrite);
      Moved(w.phases, t, p', BeforeRead);
      Moved(w.phases, t, p', AfterRead);
    }
  }

  // Mutual exclusion.

  /** A tick with the scheduler locked switches to no other task. */
  lemma LockedTick(s: State)
    requires Inv(s) && s.tick + 1 < WORD && !TickHits(s) && s.locked
    ensures Tick(s).current == s.current && Tick(s).locked
  {
    hide Inv, LoopInv, DueAlarmHits, TickHits, FireDue;
    NoWrap(s.tick, 1);
    TickStarts(s);
    FireDueFrame(s.(tick := s.tick + 1));
  }

  /** A task enters its critical section by locking the scheduler, with no other task in one. */
  lemma EntersByLock(mq: Mqueue, w: World, e: Event)
    requires Ready(mq, w, e) && Critical(NextPhase(mq, w, e)) && !Critical(Running(w))
    ensures e.Go? && Call(mq, w, e) == Some(DoLock) && w.kernel.current.Some?
  {
    hide WorldInv, TickHits, CopySafe, NextByte;
  }

  /** In it, a task only copies until it restores the scheduler; only ticks come in between. */
  lemma StaysInside(mq: Mqueue, w: World, e: Event)
    requires Ready(mq, w, e) && Critical(Running(w))
    ensures w.kernel.current.Some? && w.kernel.locked
    ensures Critical(NextPhase(mq, w, e)) <==> Call(mq, w, e).None? || e == Kernel(DoTick)
    ensures Critical(NextPhase(mq, w, e)) ==> Next(mq, w, e).kernel.locked &&
                                              Next(mq, w, e).kernel.current == w.kernel.current
  {
    hide Inv, Phased, Sized, Tokens, RingOk, TickHits, CopySafe, NextByte, NextRing, Tick;
    if e == Kernel(DoTick) {
      LockedTick(w.kernel);
    }
  }

  lemma Locks(mq: Mqueue, w: World, e: Event)
    requires Ready(mq, w, e) && Call(mq, w, e) == Some(DoLock)
    ensures Next(mq, w, e).kernel.locked && Next(mq, w, e).kernel.current == w.kernel.current
  {
    hide WorldInv, TickHits, CopySafe, NextPhase, NextRing, May, Call;
  }

  lemma ExclusiveStep(mq: Mqueue, w: World, e: Event)
    requires Ready(mq, w, e)
    ensures Exclusive(Next(mq, w, e))
  {
    hide Inv, Phased, Sized, Tokens, RingOk, TickHits, CopySafe, NextPhase, NextRing, May, Call, Critical, Step,
         Enabled;
    if Critical(NextPhase(mq, w, e)) {
      if Critical(Running(w)) {
        StaysInside(mq, w, e);
      } else {
        EntersByLock(mq, w, e);
        Locks(mq, w, e);
      }
    }
  }

  /** After a step of a copy, or a tick during one, the same task is at it; otherwise nobody is. */
  lemma WhoCopies(mq: Mqueue, w: World, e: Event)
    requires Ready(mq, w, e)
    ensures var w' := Next(mq, w, e);
            if Call(mq, w, e).None? || (Critical(Running(w)) && e == Kernel(DoTick))
            then Running(w') == NextPhase(mq, w, e)
            else !Running(w').SendCopying? && !Running(w').RecvCopying?
  {
    hide Inv, Phased, Sized, Tokens, RingOk, TickHits, CopySafe, NextPhase, NextRing, May, Call, Step, Enabled;
    ExclusiveStep(mq, w, e);
    CopyByPhase(mq, w, e);
    if Critical(Running(w)) {
      StaysInside(mq, w, e);
    } else if Critical(NextPhase(mq, w, e)) {
      EntersByLock(mq, w, e);
      LockedOnly(mq, w, e);
    }
  }

  lemma LockedOnly(mq: Mqueue, w: World, e: Event)
    requires Ready(mq, w, e) && e.Go? && Call(mq, w, e) == Some(DoLock)
    ensures NextPhase(mq, w, e).SendLocked? || NextPhase(mq, w, e).RecvLocked?
  {
    hide WorldInv, TickHits, CopySafe, NextByte;
  }

  // The ring.

  lemma CopyInStep(mq: Mqueue, w: World)
    requires Ready(mq, w, Go) && (Running(w).SendLocked? || Running(w).SendCopying?)
    ensures var w' := Next(mq, w, Go);
            var ring, p' := w'.ring, NextPhase(mq, w, Go);
            w'.received == w.received &&
            if p'.SendCopying? then HalfSent(ring, mq.size, mq.msgSize, w'.sent, w'.received, p'.message, p'.slot, p'.i)
            else !p'.RecvCopying? && Holds(ring, mq.size, mq.msgSize, w'.sent, w'.received)
  {
    hide Inv, Phased, Sized, Tokens, Exclusive, TickHits, Enabled, Holds, HalfSent, HasBytes, Offset, Advance,
         WriteByte;
    CopiesAreSafe(mq, w);
    var size, msgSize := mq.size, mq.msgSize;
    if Running(w).SendLocked? {
      SendBegins(w.ring, size, msgSize, w.sent, w.received, Running(w).message);
    } else {
      var p := Running(w);
      SendGoesOn(w.ring, size, msgSize, w.sent, w.received, p.message, p.slot, p.i);
      if p.i + 1 == msgSize {
        SendEnds(NextRing(mq, w, Go), size, msgSize, w.sent, w.received, p.message, p.slot);
      }
    }
  }

  lemma CopyOutStep(mq: Mqueue, w: World)
    requires Ready(mq, w, Go) && (Running(w).RecvLocked? || Running(w).RecvCopying?)
    ensures var w' := Next(mq, w, Go);
            var ring, p' := w'.ring, NextPhase(mq, w, Go);
            w'.sent == w.sent &&
            if p'.RecvCopying? then HalfReceived(ring, mq.size, mq.msgSize, w'.sent, w'.received, p'.got, p'.slot)
            else !p'.SendCopying? && Holds(ring, mq.size, mq.msgSize, w'.sent, w'.received)
  {
    hide Inv, Phased, Sized, Tokens, Exclusive, TickHits, Enabled, Holds, HalfReceived, Offset, Advance, ReadByte;
    CopiesAreSafe(mq, w);
    var size, msgSize := mq.size, mq.msgSize;
    if Running(w).RecvLocked? {
      ReceiveBegins(w.ring, size, msgSize, w.sent, w.received);
    } else {
      var p := Running(w);
      ReceiveGoesOn(w.ring, size, msgSize, w.sent, w.received, p.got, p.slot);
      if |p.got| + 1 == msgSize {
        ReceiveEnds(w.ring, size, msgSize, w.sent, w.received, p.got + [NextByte(mq, w)], p.slot);
      }
    }
  }

  /** A step that is a kernel call leaves the ring alone. */
  lemma CallLeavesRing(mq: Mqueue, w: World, e: Event)
    requires Ready(mq, w, e) && Call(mq, w, e).Some?
    ensures var w' := Next(mq, w, e); w'.ring == w.ring && w'.sent == w.sent && w'.received == w.received
    ensures e == Kernel(DoTick) ==> NextPhase(mq, w, e) == Running(w)
    ensures Running(w).SendCopying? || Running(w).RecvCopying? ==> e == Kernel(DoTick)
  {
    hide WorldInv, TickHits, CopySafe, NextByte, Step;
  }

  lemma RingStep(mq: Mqueue, w: World, e: Event)
    requires Ready(mq, w, e)
    ensures RingOk(mq, Next(mq, w, e))
  {
    hide Inv, Phased, Sized, Tokens, Exclusive, TickHits, CopySafe, NextPhase, Next, May, Call, Enabled, Holds,
         HalfSent, HalfReceived;
    WhoCopies(mq, w, e);
    CopyByPhase(mq, w, e);
    if Call(mq, w, e).Some? {
      CallLeavesRing(mq, w, e);
    } else if Running(w).SendLocked? || Running(w).SendCopying? {
      CopyInStep(mq, w);
    } else {
      CopyOutStep(mq, w);
    }
  }

  lemma KernelStep(mq: Mqueue, w: World, e: Event)
    requires Ready(mq, w, e)
    ensures Inv(Next(mq, w, e).kernel)
  {
    hide Inv, Phased, Sized, Tokens, RingOk, Exclusive, TickHits, Step, May, Call, NextPhase, NextRing, Enabled,
         CopySafe;
    if Call(mq, w, e).Some? {
      StepKeeps(w.kernel, Call(mq, w, e).value);
    }
  }

  /** Every event the tasks may do is possible, and keeps the invariant. */
  lemma NextKeeps(mq: Mqueue, w: World, e: Event)
    requires WorldInv(mq, w) && May(mq, w, e)
    ensures Ready(mq, w, e) && WorldInv(mq, Next(mq, w, e))
  {
    hide Inv, Phased, Sized, Tokens, RingOk, Exclusive, TickHits, Next, Enabled, CopySafe, May, Call;
    CallIsEnabled(mq, w, e);
    KernelStep(mq, w, e);
    PhasedStep(mq, w, e);
    SizedStep(mq, w, e);
    TokensStep(mq, w, e);
    ExclusiveStep(mq, w, e);
    RingStep(mq, w, e);
  }

  // ----- histories

  ghost predicate Follows(mq: Mqueue, w: World, e: Event, w': World) {
    May(mq, w, e) && (Ready(mq, w, e) ==> w' == Next(mq, w, e))
  }

  /** `worlds` is what any number of senders and receivers go through with `events`, from a new queue. */
  ghost predicate IsHistory(mq: Mqueue, worlds: seq<World>, events: seq<Event>) {
    |worlds| == |events| + 1 && WellFormed(mq) && IsNew(mq, worlds[0]) &&
    forall i :: 0 <= i < |events| ==> Follows(mq, worlds[i], events[i], worlds[i + 1])
  }

  /** A queue that `eos_init_mqueue` has just set up in a kernel in which nobody uses its semaphores. */
  ghost predicate IsNew(mq: Mqueue, w: World) {
    Inv(w.kernel) && w.phases == map[] && w.sent == [] && w.received == [] &&
    |w.ring.bytes| == Offset(mq.size, mq.msgSize) && w.ring.front == 0 && w.ring.rear == 0 &&
    mq.put in w.kernel.sems && mq.get in w.kernel.sems &&
    IsFresh(w.kernel.sems[mq.put], mq.size) && IsFresh(w.kernel.sems[mq.get], 0) &&
    forall t :: t in w.kernel.tasks ==> Consistent(mq, Outside, w.kernel.tasks[t].pc)
  }

  ghost predicate IsFresh(sem: Semaphore, count: nat) {
    sem.count == count && sem.initial == count && sem.released == 0 && sem.acquired == 0
  }

  /** `eos_init_mqueue`: two semaphores nobody knows yet, and an empty ring. */
  lemma InitIsNew(s: State, mq: Mqueue, bytes: seq<Byte>, byPriority: bool)
    requires Typed(s) && Inv(s) && WellFormed(mq) && mq.put !in s.sems && mq.get !in s.sems &&
             |bytes| == Offset(mq.size, mq.msgSize)
    ensures var s1 := InitSemaphore(s, mq.put, mq.size, byPriority);
            mq.get !in s1.sems && IsNew(mq, World(InitSemaphore(s1, mq.get, 0, byPriority), map[], Ring(bytes, 0, 0),
                                                  [], []))
  {
    hide Core, Offset, InitSemaphore;
    var s1 := InitSemaphore(s, mq.put, mq.size, byPriority);
    InitSemaphoreKeeps(s, mq.put, mq.size, byPriority);
    Fresh(s, mq.put, mq.size, byPriority);
    InitSemaphoreKeeps(s1, mq.get, 0, byPriority);
    Fresh(s1, mq.get, 0, byPriority);
    NobodyInside(s, mq);
  }

  lemma Fresh(s: State, q: SemId, count: nat, byPriority: bool)
    requires Typed(s) && q !in s.sems && count <= 127
    ensures var s' := InitSemaphore(s, q, count, byPriority);
            q in s'.sems && IsFresh(s'.sems[q], count) && s'.tasks == s.tasks && s'.sems.Keys == s.sems.Keys + {q} &&
            forall p :: p in s.sems ==> s'.sems[p] == s.sems[p]
  {
  }

  lemma NobodyInside(s: State, mq: Mqueue)
    requires Typed(s) && mq.put !in s.sems && mq.get !in s.sems
    ensures forall t :: t in s.tasks ==> Consistent(mq, Outside, s.tasks[t].pc)
  {
  }

  lemma NewInv(mq: Mqueue, w: World)
    requires WellFormed(mq) && IsNew(mq, w)
    ensures WorldInv(mq, w)
  {
    hide Inv, Offset;
    StartsEmpty(w.ring, mq.size, mq.msgSize);
    assert forall k :: Tasks(w.phases, k) == {};
  }

  lemma {:induction false} HistoryKeeps(mq: Mqueue, worlds: seq<World>, events: seq<Event>, n: nat)
    requires IsHistory(mq, worlds, events) && n < |worlds|
    ensures WorldInv(mq, worlds[n])
  {
    hide WorldInv, May, Ready, IsNew;
    if n == 0 {
      NewInv(mq, worlds[0]);
    } else {
      HistoryKeeps(mq, worlds, events, n - 1);
      assert Follows(mq, worlds[n - 1], events[n - 1], worlds[n]);
      NextKeeps(mq, worlds[n - 1], events[n - 1]);
    }
  }

  /** The concurrent queue is a FIFO queue: in every history, whoever sends and receives in whatever
      interleaving, the messages received are a prefix of those sent, byte for byte, never more
      than the size apart.  Whoever has locked the scheduler to copy is the one task that has, and
      until its last byte its slot is free or its message is there. */
  lemma FifoInEveryHistory(mq: Mqueue, worlds: seq<World>, events: seq<Event>, n: nat)
    requires IsHistory(mq, worlds, events) && n < |worlds|
    ensures worlds[n].received <= worlds[n].sent && |worlds[n].sent| <= |worlds[n].received| + mq.size
    ensures Exclusive(worlds[n])
    ensures Running(worlds[n]).SendLocked? || Running(worlds[n]).SendCopying? ==>
              |worlds[n].sent| < |worlds[n].received| + mq.size
    ensures Running(worlds[n]).RecvLocked? || Running(worlds[n]).RecvCopying? ==>
              |worlds[n].received| < |worlds[n].sent|
    ensures n < |events| ==> Ready(mq, worlds[n], events[n])
  {
    hide Inv, Phased, Sized, Tokens, Ready, May, IsNew, RingOk, Exclusive;
    HistoryKeeps(mq, worlds, events, n);
    RingSizes(mq, worlds[n]);
    CopiesAreSafe(mq, worlds[n]);
    if n < |events| {
      assert Follows(mq, worlds[n], events[n], worlds[n + 1]);
      NextKeeps(mq, worlds[n], events[n]);
    }
  }

  /** A call that fails, at once or at its deadline, has changed neither sequence nor the ring nor a
      count: no step of it up to there does. */
  lemma FailureChangesNothing(mq: Mqueue, w: World, e: Event)
    requires Ready(mq, w, e) && !Running(w).SendReleased? && !Running(w).RecvReleased?
    requires NextPhase(mq, w, e) == Outside || NextPhase(mq, w, e).SendEntered? || NextPhase(mq, w, e).RecvEntered?
    ensures var w' := Next(mq, w, e);
            w'.ring == w.ring && w'.sent == w.sent && w'.received == w.received &&
            mq.put in w'.kernel.sems && w'.kernel.sems[mq.put] == w.kernel.sems[mq.put] &&
            mq.get in w'.kernel.sems && w'.kernel.sems[mq.get] == w.kernel.sems[mq.get]
  {
    hide Inv, Phased, Sized, RingOk, Exclusive, TickHits, Enabled, Step, NextPhase, May, CopySafe, Conserved;
    CallOfFailure(mq, w, e);
    SemsOfCall(mq, w, e);
    TakesByPhase(mq, w, e);
    CallLeavesRing(mq, w, e);
  }

  lemma CallOfFailure(mq: Mqueue, w: World, e: Event)
    requires Ready(mq, w, e) && !Running(w).SendReleased? && !Running(w).RecvReleased?
    requires NextPhase(mq, w, e) == Outside || NextPhase(mq, w, e).SendEntered? || NextPhase(mq, w, e).RecvEntered?
    ensures Call(mq, w, e).Some? && !(e.Go? && (Running(w).RecvUnlocked? || Running(w).SendUnlocked?))
  {
    hide WorldInv, TickHits, CopySafe, NextByte;
  }

  // ----- without timeouts

  ghost predicate NoTimeout(e: Event) {
    match e
    case Kernel(a) => a.DoAcquire? ==> a.timeout <= 0
    case Send(_, timeout) => timeout <= 0
    case Receive(timeout) => timeout <= 0
    case Go => true
  }

  /** A history in which nobody gives a positive timeout: nothing is asked of its ticks. */
  ghost predicate IsUntimedHistory(mq: Mqueue, worlds: seq<World>, events: seq<Event>) {
    |worlds| == |events| + 1 && WellFormed(mq) && IsNew(mq, worlds[0]) && Untimed(worlds[0].kernel) &&
    forall i :: 0 <= i < |events| ==> UntimedFollows(mq, worlds[i], events[i], worlds[i + 1])
  }

  ghost predicate UntimedFollows(mq: Mqueue, w: World, e: Event, w': World) {
    Offered(mq, w, e) && NoTimeout(e) && (Ready(mq, w, e) ==> w' == Next(mq, w, e))
  }

  lemma CallUntimed(mq: Mqueue, w: World, e: Event)
    requires Call(mq, w, e).Some? && NoTimeout(e)
    ensures Call(mq, w, e).value.DoAcquire? ==> Call(mq, w, e).value.timeout <= 0
  {
  }

  lemma NextUntimed(mq: Mqueue, w: World, e: Event)
    requires Ready(mq, w, e) && NoTimeout(e) && Untimed(w.kernel)
    ensures Untimed(Next(mq, w, e).kernel)
  {
    hide Inv, Phased, Sized, Tokens, Exclusive, RingOk, TickHits, Step, Call, Untimed, NextPhase, NextRing, CopySafe,
         NoTimeout;
    if Call(mq, w, e).Some? {
      CallUntimed(mq, w, e);
      UntimedStep(w.kernel, Call(mq, w, e).value);
    }
  }

  lemma {:induction false} UntimedKeeps(mq: Mqueue, worlds: seq<World>, events: seq<Event>, n: nat)
    requires IsUntimedHistory(mq, worlds, events) && n < |worlds|
    ensures WorldInv(mq, worlds[n]) && Untimed(worlds[n].kernel)
    ensures n < |events| ==> May(mq, worlds[n], events[n])
  {
    hide Inv, Phased, Sized, Tokens, Exclusive, RingOk, TickHits, Offered, Ready, IsNew, Untimed, Next;
    if n == 0 {
      NewInv(mq, worlds[0]);
    } else {
      UntimedKeeps(mq, worlds, events, n - 1);
      assert UntimedFollows(mq, worlds[n - 1], events[n - 1], worlds[n]);
      NextKeeps(mq, worlds[n - 1], events[n - 1]);
      NextUntimed(mq, worlds[n - 1], events[n - 1]);
    }
    if n < |events| {
      assert UntimedFollows(mq, worlds[n], events[n], worlds[n + 1]);
      UntimedIsSafe(worlds[n].kernel, DoTick);
    }
  }

  /** Without timeouts nothing has to be assumed of the ticks: such a history is one of those above,
      no tick of it faults, and the queue is a FIFO queue in it. */
  lemma UntimedFifo(mq: Mqueue, worlds: seq<World>, events: seq<Event>, n: nat)
    requires IsUntimedHistory(mq, worlds, events) && n < |worlds|
    ensures IsHistory(mq, worlds, events) && !TickHits(worlds[n].kernel) && !worlds[n].kernel.faulted
    ensures worlds[n].received <= worlds[n].sent && |worlds[n].sent| <= |worlds[n].received| + mq.size
  {
    hide WorldInv, TickHits, May, Ready, IsNew, Untimed, Next;
    forall i | 0 <= i < |events|
      ensures Follows(mq, worlds[i], events[i], worlds[i + 1])
    {
      assert UntimedFollows(mq, worlds[i], events[i], worlds[i + 1]);
      UntimedKeeps(mq, worlds, events, i);
    }
    UntimedKeeps(mq, worlds, events, n);
    NeverFaults(mq, worlds[n]);
    FifoInEveryHistory(mq, worlds, events, n);
  }

  lemma NeverFaults(mq: Mqueue, w: World)
    requires WorldInv(mq, w) && Untimed(w.kernel)
    ensures !w.kernel.faulted && !TickHits(w.kernel)
  {
    hide Phased, Sized, Tokens, RingOk, TickHits, Untimed, Placed, AlarmsOk, RunningOk;
    UntimedIsSafe(w.kernel, DoTick);
  }
}
