/**
  The byte ring of `core/comm.c`: `queue_size` slots of `msg_size` bytes in one buffer, written at
  `rear` and read at `front`.
 */
module MessageRing {
  import K = KernelState

  type Byte = bv8
  type Message = seq<Byte>

  /** The first byte of slot `i`. */
  function Offset(i: nat, msgSize: nat): nat { i * msgSize }

  lemma OffsetNext(i: nat, msgSize: nat)
    ensures Offset(i + 1, msgSize) == Offset(i, msgSize) + msgSize
  {
  }

  lemma {:induction false} OffsetOrder(i: nat, j: nat, msgSize: nat)
    requires i <= j
    ensures Offset(i, msgSize) <= Offset(j, msgSize)
    decreases j
  {
    if i < j {
      OffsetOrder(i, j - 1, msgSize);
      OffsetNext(j - 1, msgSize);
    }
  }

  /** The slots fit the buffer. */
  lemma SlotFits(i: nat, size: nat, msgSize: nat)
    requires i < size
    ensures Offset(i, msgSize) + msgSize <= Offset(size, msgSize)
  {
    OffsetNext(i, msgSize);
    OffsetOrder(i + 1, size, msgSize);
  }

  function Slot(bytes: seq<Byte>, msgSize: nat, i: nat): (message: Message)
    requires Offset(i, msgSize) + msgSize <= |bytes|
    ensures |message| == msgSize
  {
    bytes[Offset(i, msgSize)..][..msgSize]
  }

  function WriteSlot(bytes: seq<Byte>, msgSize: nat, i: nat, message: Message): (r: seq<Byte>)
    requires Offset(i, msgSize) + msgSize <= |bytes| && |message| == msgSize
    ensures |r| == |bytes|
  {
    bytes[..Offset(i, msgSize)] + message + bytes[Offset(i, msgSize) + msgSize..]
  }

  /** A slot that is written reads back, and no other slot changes. */
  lemma SlotAfterWrite(bytes: seq<Byte>, size: nat, msgSize: nat, i: nat, message: Message, j: nat)
    requires i < size && j < size && |bytes| == Offset(size, msgSize) && |message| == msgSize
    ensures Offset(i, msgSize) + msgSize <= |bytes| && Offset(j, msgSize) + msgSize <= |bytes|
    ensures Slot(WriteSlot(bytes, msgSize, i, message), msgSize, j) == if j == i then message
                                                                       else Slot(bytes, msgSize, j)
  {
    SlotFits(i, size, msgSize);
    SlotFits(j, size, msgSize);
    var r := WriteSlot(bytes, msgSize, i, message);
    if j < i {
      SlotFits(j, i, msgSize);
    } else if i < j {
      SlotFits(i, j, msgSize);
    }
    hide Offset;
    assert forall k :: 0 <= k < msgSize ==>
      Slot(r, msgSize, j)[k] == if j == i then message[k] else Slot(bytes, msgSize, j)[k];
  }

  /** `front++` and `rear++` with the wrap. */
  function Advance(i: nat, size: nat): nat { if i + 1 == size then 0 else i + 1 }

  /** Advancing keeps an index the number of its slot modulo the size. */
  lemma AdvanceIsMod(k: nat, size: nat)
    requires size > 0
    ensures Advance(k % size, size) == (k + 1) % size
  {
    if k % size + 1 == size {
      assert k + 1 == (k / size + 1) * size;
      ModOfMultiple(k / size + 1, size);
    } else {
      assert k + 1 == (k / size) * size + (k % size + 1);
      ModOfSum(k / size, k % size + 1, size);
    }
  }

  lemma ModOfMultiple(a: nat, size: nat)
    requires size > 0
    ensures (a * size) % size == 0
  {
    ModOfSum(a, 0, size);
  }

  lemma ModOfSum(a: nat, r: nat, size: nat)
    requires r < size
    ensures (a * size + r) % size == r
  {
    var x := a * size + r;
    var d := x / size - a;
    assert x == (x / size) * size + x % size;
    assert d * size == r - x % size;
    if d != 0 {
      Stretch(d, size);
    }
  }

  lemma Stretch(d: int, size: nat)
    requires d != 0
    ensures d * size >= size || d * size + size <= 0
  {
    if d >= 1 {
      assert (d - 1) * size >= 0;
    } else {
      assert (-d - 1) * size >= 0;
    }
  }

  /** Fewer than `size` apart, different messages are in different slots. */
  lemma ModApart(k: nat, n: nat, size: nat)
    requires k < n < k + size
    ensures k % size != n % size
  {
    if k % size == n % size {
      var d := n / size - k / size;
      assert d * size == n - k;
      if d != 0 {
        Stretch(d, size);
      }
    }
  }

  datatype Ring = Ring(bytes: seq<Byte>, front: nat, rear: nat)

  /** The first half of the critical section of `eos_send_message`: the slot at `rear` is written. */
  function Put(ring: Ring, size: nat, msgSize: nat, message: Message): Ring
    requires ring.rear < size && |ring.bytes| == Offset(size, msgSize) && |message| == msgSize
  {
    SlotFits(ring.rear, size, msgSize);
    Ring(WriteSlot(ring.bytes, msgSize, ring.rear, message), ring.front, Advance(ring.rear, size))
  }

  /** The same of `eos_receive_message`: the slot at `front` is read. */
  function Front(ring: Ring, size: nat, msgSize: nat): (message: Message)
    requires ring.front < size && |ring.bytes| == Offset(size, msgSize)
    ensures |message| == msgSize
  {
    SlotFits(ring.front, size, msgSize);
    Slot(ring.bytes, msgSize, ring.front)
  }

  function Pop(ring: Ring, size: nat): Ring { ring.(front := Advance(ring.front, size)) }

  /** The ring holds the messages sent and not yet received, each in the slot of its number, and
      the messages received are the first ones sent, in order. */
  ghost predicate Holds(ring: Ring, size: nat, msgSize: nat, sent: seq<Message>, received: seq<Message>) {
    size > 0 && |ring.bytes| == Offset(size, msgSize) && received <= sent && |sent| <= |received| + size &&
    (forall k :: 0 <= k < |sent| ==> |sent[k]| == msgSize) &&
    ring.front == |received| % size && ring.rear == |sent| % size &&
    forall k :: |received| <= k < |sent| ==> SlotHolds(ring.bytes, size, msgSize, k, sent[k])
  }

  /** Message number `k` is in its slot. */
  ghost predicate SlotHolds(bytes: seq<Byte>, size: nat, msgSize: nat, k: nat, message: Message)
    requires size > 0 && |bytes| == Offset(size, msgSize)
  {
    SlotFits(k % size, size, msgSize);
    Slot(bytes, msgSize, k % size) == message
  }

  /** With a slot free, sending appends the message and overwrites nothing unread. */
  lemma PutKeeps(ring: Ring, size: nat, msgSize: nat, sent: seq<Message>, received: seq<Message>, message: Message)
    requires Holds(ring, size, msgSize, sent, received) && |message| == msgSize && |sent| < |received| + size
    ensures Holds(Put(ring, size, msgSize, message), size, msgSize, sent + [message], received)
  {
    hide Offset, Slot, WriteSlot, Advance;
    AdvanceIsMod(|sent|, size);
    var bytes := Put(ring, size, msgSize, message).bytes;
    forall k | |received| <= k < |sent| + 1
      ensures SlotHolds(bytes, size, msgSize, k, (sent + [message])[k])
    {
      SlotAfterWrite(ring.bytes, size, msgSize, ring.rear, message, k % size);
      if k < |sent| {
        ModApart(k, |sent|, size);
        assert SlotHolds(ring.bytes, size, msgSize, k, sent[k]);
      }
    }
  }

  /** With a message there, receiving takes the oldest one not yet received, unchanged. */
  lemma PopKeeps(ring: Ring, size: nat, msgSize: nat, sent: seq<Message>, received: seq<Message>)
    requires Holds(ring, size, msgSize, sent, received) && |received| < |sent|
    ensures Front(ring, size, msgSize) == sent[|received|]
    ensures Holds(Pop(ring, size), size, msgSize, sent, received + [Front(ring, size, msgSize)])
  {
    hide Offset, Slot, Advance;
    AdvanceIsMod(|received|, size);
    assert SlotHolds(ring.bytes, size, msgSize, |received|, sent[|received|]);
  }

  // ----- byte by byte

  /** One round of the loop that copies a message in: byte `i` of slot `slot`. */
  function WriteByte(bytes: seq<Byte>, msgSize: nat, slot: nat, i: nat, b: Byte): (r: seq<Byte>)
    requires Offset(slot, msgSize) + msgSize <= |bytes| && i < msgSize
    ensures |r| == |bytes|
  {
    bytes[Offset(slot, msgSize) + i := b]
  }

  function ReadByte(bytes: seq<Byte>, msgSize: nat, slot: nat, i: nat): Byte
    requires Offset(slot, msgSize) + msgSize <= |bytes| && i < msgSize
  {
    bytes[Offset(slot, msgSize) + i]
  }

  /** A byte is written into its slot and nowhere else. */
  lemma ByteInSlot(bytes: seq<Byte>, msgSize: nat, slot: nat, i: nat, b: Byte)
    requires Offset(slot, msgSize) + msgSize <= |bytes| && i < msgSize
    ensures WriteByte(bytes, msgSize, slot, i, b) == WriteSlot(bytes, msgSize, slot, Slot(bytes, msgSize, slot)[i := b])
    ensures ReadByte(bytes, msgSize, slot, i) == Slot(bytes, msgSize, slot)[i]
  {
    hide Offset;
  }

  /** The messages in the ring while a sender that has advanced `rear` is copying its message: the
      first `i` bytes are in the slot `rear` was at, and nothing unread has been touched. */
  ghost predicate HalfSent(ring: Ring, size: nat, msgSize: nat, sent: seq<Message>, received: seq<Message>,
                           message: Message, slot: nat, i: nat) {
    slot < size && i <= msgSize == |message| && ring.rear == Advance(slot, size) && |sent| < |received| + size &&
    Holds(ring.(rear := slot), size, msgSize, sent, received) && HasBytes(ring.bytes, size, msgSize, slot, message, i)
  }

  ghost predicate HasBytes(bytes: seq<Byte>, size: nat, msgSize: nat, slot: nat, message: Message, i: nat)
    requires slot < size && |bytes| == Offset(size, msgSize) && i <= msgSize == |message|
  {
    SlotFits(slot, size, msgSize);
    Slot(bytes, msgSize, slot)[..i] == message[..i]
  }

  lemma SendBegins(ring: Ring, size: nat, msgSize: nat, sent: seq<Message>, received: seq<Message>, message: Message)
    requires Holds(ring, size, msgSize, sent, received) && |message| == msgSize && |sent| < |received| + size
    ensures HalfSent(ring.(rear := Advance(ring.rear, size)), size, msgSize, sent, received, message, ring.rear, 0)
  {
    hide Offset, Slot, Advance, SlotHolds;
    assert ring.(rear := Advance(ring.rear, size)).(rear := ring.rear) == ring;
  }

  lemma SendGoesOn(ring: Ring, size: nat, msgSize: nat, sent: seq<Message>, received: seq<Message>,
                   message: Message, slot: nat, i: nat)
    requires HalfSent(ring, size, msgSize, sent, received, message, slot, i) && i < msgSize
    ensures Offset(slot, msgSize) + msgSize <= |ring.bytes|
    ensures HalfSent(ring.(bytes := WriteByte(ring.bytes, msgSize, slot, i, message[i])),
                     size, msgSize, sent, received, message, slot, i + 1)
  {
    hide Offset, Slot, WriteSlot, WriteByte, Advance;
    SlotFits(slot, size, msgSize);
    var was := Slot(ring.bytes, msgSize, slot);
    var bytes := WriteByte(ring.bytes, msgSize, slot, i, message[i]);
    ByteInSlot(ring.bytes, msgSize, slot, i, message[i]);
    SlotAfterWrite(ring.bytes, size, msgSize, slot, was[i := message[i]], slot);
    assert message[..i + 1] == message[..i] + [message[i]] == was[i := message[i]][..i + 1];
    forall k | |received| <= k < |sent|
      ensures SlotHolds(bytes, size, msgSize, k, sent[k])
    {
      assert SlotHolds(ring.bytes, size, msgSize, k, sent[k]);
      ModApart(k, |sent|, size);
      SlotAfterWrite(ring.bytes, size, msgSize, slot, was[i := message[i]], k % size);
    }
  }

  /** With its last byte the message has been sent. */
  lemma SendEnds(ring: Ring, size: nat, msgSize: nat, sent: seq<Message>, received: seq<Message>, message: Message,
                 slot: nat)
    requires HalfSent(ring, size, msgSize, sent, received, message, slot, msgSize)
    ensures Holds(ring, size, msgSize, sent + [message], received)
  {
    hide Offset, Advance, SlotHolds;
    SlotFits(slot, size, msgSize);
    var before := ring.(rear := slot);
    assert Slot(ring.bytes, msgSize, slot) == message;
    assert WriteSlot(ring.bytes, msgSize, slot, message) == ring.bytes;
    PutKeeps(before, size, msgSize, sent, received, message);
    assert Put(before, size, msgSize, message) == ring;
  }

  /** The same while a receiver that has advanced `front` is copying the oldest message out. */
  ghost predicate HalfReceived(ring: Ring, size: nat, msgSize: nat, sent: seq<Message>, received: seq<Message>,
                               got: Message, slot: nat) {
    slot < size && ring.front == Advance(slot, size) && |received| < |sent| &&
    Holds(ring.(front := slot), size, msgSize, sent, received) && got <= sent[|received|]
  }

  lemma ReceiveBegins(ring: Ring, size: nat, msgSize: nat, sent: seq<Message>, received: seq<Message>)
    requires Holds(ring, size, msgSize, sent, received) && |received| < |sent|
    ensures HalfReceived(Pop(ring, size), size, msgSize, sent, received, [], ring.front)
  {
    hide Offset, Slot, Advance, SlotHolds;
    assert Pop(ring, size).(front := ring.front) == ring;
  }

  lemma ReceiveGoesOn(ring: Ring, size: nat, msgSize: nat, sent: seq<Message>, received: seq<Message>, got: Message,
                      slot: nat)
    requires HalfReceived(ring, size, msgSize, sent, received, got, slot) && |got| < msgSize
    ensures Offset(slot, msgSize) + msgSize <= |ring.bytes|
    ensures HalfReceived(ring, size, msgSize, sent, received, got + [ReadByte(ring.bytes, msgSize, slot, |got|)], slot)
  {
    hide Offset, Advance;
    SlotFits(slot, size, msgSize);
    ByteInSlot(ring.bytes, msgSize, slot, |got|, 0);
    assert SlotHolds(ring.bytes, size, msgSize, |received|, sent[|received|]);
  }

  /** With its last byte the message has been received, and it is the oldest one. */
  lemma ReceiveEnds(ring: Ring, size: nat, msgSize: nat, sent: seq<Message>, received: seq<Message>, got: Message,
                    slot: nat)
    requires HalfReceived(ring, size, msgSize, sent, received, got, slot) && |got| == msgSize
    ensures Holds(ring, size, msgSize, sent, received + [got])
  {
    hide Offset, Slot, Advance, SlotHolds;
    var before := ring.(front := slot);
    PopKeeps(before, size, msgSize, sent, received);
    assert got == sent[|received|];
    assert Pop(before, size) == ring;
  }

  lemma StartsEmpty(ring: Ring, size: nat, msgSize: nat)
    requires size > 0 && |ring.bytes| == Offset(size, msgSize) && ring.front == 0 && ring.rear == 0
    ensures Holds(ring, size, msgSize, [], [])
  {
  }

  /** The semaphore that counts the free slots starts right if and only if the size fits `int8s_t`. */
  lemma PutCountRight(size: nat)
    requires 0 < size < 0x1_0000
    ensures K.Int8(size) == size <==> size <= 127
  {
  }

  // ----- the code

  /** `eos_mqueue_t` without its semaphores */
  class MessageQueue {
    const buffer: array<Byte>
    const queueSize: nat
    const msgSize: nat
    var front: nat
    var rear: nat

    ghost predicate Valid()
      reads this
    {
      0 < queueSize < 0x1_0000 && 0 < msgSize < 0x100 && buffer.Length == Offset(queueSize, msgSize) &&
      front < queueSize && rear < queueSize
    }

    ghost function Abs(): Ring
      reads this, buffer
    {
      Ring(buffer[..], front, rear)
    }

    /** `eos_init_mqueue` on the caller's memory */
    constructor (queueStart: array<Byte>, queueSize: nat, msgSize: nat)
      requires 0 < queueSize < 0x1_0000 && 0 < msgSize < 0x100 && queueStart.Length == Offset(queueSize, msgSize)
      ensures Valid() && buffer == queueStart && this.queueSize == queueSize && this.msgSize == msgSize
      ensures Holds(Abs(), queueSize, msgSize, [], [])
    {
      buffer, this.queueSize, this.msgSize := queueStart, queueSize, msgSize;
      front, rear := 0, 0;
      new;
      StartsEmpty(Abs(), queueSize, msgSize);
    }

    /** `eos_send_message` with the scheduler locked */
    method CopyIn(message: array<Byte>)
      requires Valid() && message != buffer && message.Length == msgSize
      modifies this`rear, buffer
      ensures Valid() && Abs() == Put(old(Abs()), queueSize, msgSize, message[..])
    {
      hide Offset;
      SlotFits(rear, queueSize, msgSize);
      var dest := Offset(rear, msgSize);
      rear := rear + 1;
      if rear == queueSize {
        rear := 0;
      }
      var i := 0;
      while i < msgSize
        invariant 0 <= i <= msgSize && dest + msgSize <= buffer.Length && rear == Advance(old(rear), queueSize)
        invariant forall k :: 0 <= k < buffer.Length ==>
          buffer[k] == if dest <= k < dest + i then message[k - dest] else old(buffer[k])
      {
        buffer[dest + i] := message[i];
        i := i + 1;
      }
      assert buffer[..] == WriteSlot(old(buffer[..]), msgSize, old(rear), message[..]);
    }

    /** `eos_receive_message` with the scheduler locked */
    method CopyOut(message: array<Byte>)
      requires Valid() && message != buffer && message.Length == msgSize
      modifies this`front, message
      ensures Valid() && Abs() == Pop(old(Abs()), queueSize) && message[..] == Front(old(Abs()), queueSize, msgSize)
    {
      hide Offset;
      SlotFits(front, queueSize, msgSize);
      var src := Offset(front, msgSize);
      front := front + 1;
      if front == queueSize {
        front := 0;
      }
      var i := 0;
      while i < msgSize
        invariant 0 <= i <= msgSize && src + msgSize <= buffer.Length && front == Advance(old(front), queueSize)
        invariant message[..i] == buffer[src..src + i]
      {
        message[i] := buffer[src + i];
        i := i + 1;
      }
      assert message[..] == buffer[src..src + msgSize];
      assert buffer[..][src..][..msgSize] == buffer[src..src + msgSize];
    }
  }
}
