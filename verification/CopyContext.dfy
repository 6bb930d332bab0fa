/** `copy_context` of `core/interrupt.c`: a copy of words within one memory that may overlap. */
module CopyContext {
  type Word = bv64

  /** `memory` with the `count` words at `src` copied to `dst`, as they were before. */
  function Moved(memory: seq<Word>, dst: nat, src: nat, count: nat): (r: seq<Word>)
    requires dst + count <= |memory| && src + count <= |memory|
    ensures |r| == |memory|
  {
    memory[..dst] + memory[src..src + count] + memory[dst + count..]
  }

  /** The forward loop alone: `count` words one after the other, each as it is by then. */
  function Forward(memory: seq<Word>, dst: nat, src: nat, count: nat): (r: seq<Word>)
    requires dst + count <= |memory| && src + count <= |memory|
    ensures |r| == |memory|
  {
    if count == 0 then memory
    else
      var m := Forward(memory, dst, src, count - 1);
      m[dst + count - 1 := m[src + count - 1]]
  }

  /** `n` modulo `d` */
  function Wrap(n: nat, d: nat): nat
    requires d > 0
  {
    if n < d then n else Wrap(n - d, d)
  }

  /** Running into its own output, the forward loop repeats the words between the two starts. */
  lemma {:induction false} ForwardAt(memory: seq<Word>, dst: nat, src: nat, count: nat, k: nat)
    requires dst + count <= |memory| && src + count <= |memory| && k < |memory|
    ensures src < dst ==> Wrap(if k < dst then 0 else k - dst, dst - src) < dst - src
    ensures Forward(memory, dst, src, count)[k] ==
      if !(dst <= k < dst + count) then memory[k]
      else if src < dst then memory[src + Wrap(k - dst, dst - src)] else memory[src + (k - dst)]
  {
    if src < dst && k >= dst {
      WrapBelow(k - dst, dst - src);
    }
    if count != 0 {
      ForwardAt(memory, dst, src, count - 1, k);
      if k == dst + count - 1 {
        ForwardAt(memory, dst, src, count - 1, src + count - 1);
      }
    }
  }

  lemma {:induction false} WrapBelow(n: nat, d: nat)
    requires d > 0
    ensures Wrap(n, d) < d
  {
    if n >= d {
      WrapBelow(n - d, d);
    }
  }

  /** Why there are two loops: the forward one copies right when the destination does not start
      inside the source, and whenever it does and the words at the two starts differ it is wrong. */
  lemma ForwardRight(memory: seq<Word>, dst: nat, src: nat, count: nat)
    requires dst + count <= |memory| && src + count <= |memory|
    ensures !(src < dst < src + count) ==> Forward(memory, dst, src, count) == Moved(memory, dst, src, count)
    ensures src < dst < src + count && memory[src] != memory[dst] ==>
      Forward(memory, dst, src, count) != Moved(memory, dst, src, count)
  {
    var f, m := Forward(memory, dst, src, count), Moved(memory, dst, src, count);
    if src < dst < src + count {
      var k := dst + (dst - src);
      ForwardAt(memory, dst, src, count, k);
    } else {
      forall k | 0 <= k < |memory|
        ensures f[k] == m[k]
      {
        ForwardAt(memory, dst, src, count, k);
      }
    }
  }

  /** The backward loop when `i` words are still to copy */
  ghost function Backward(memory: seq<Word>, dst: nat, src: nat, count: nat, i: nat): (r: seq<Word>)
    requires i <= count && dst + count <= |memory| && src + count <= |memory|
    ensures |r| == |memory|
    decreases count - i
  {
    if i == count then memory
    else
      var m := Backward(memory, dst, src, count, i + 1);
      m[dst + i := m[src + i]]
  }

  /** Towards a later place the backward loop never reads what it has written. */
  lemma {:induction false} BackwardAt(memory: seq<Word>, dst: nat, src: nat, count: nat, i: nat, k: nat)
    requires i <= count && src < dst && dst + count <= |memory| && k < |memory|
    ensures Backward(memory, dst, src, count, i)[k] == if dst + i <= k < dst + count then memory[src + (k - dst)]
                                                       else memory[k]
    decreases count - i
  {
    if i < count {
      BackwardAt(memory, dst, src, count, i + 1, k);
      BackwardAt(memory, dst, src, count, i + 1, src + i);
    }
  }

  lemma BackwardRight(memory: seq<Word>, dst: nat, src: nat, count: nat)
    requires src < dst && dst + count <= |memory|
    ensures Backward(memory, dst, src, count, 0) == Moved(memory, dst, src, count)
  {
    forall k | 0 <= k < |memory|
      ensures Backward(memory, dst, src, count, 0)[k] == Moved(memory, dst, src, count)[k]
    {
      BackwardAt(memory, dst, src, count, 0, k);
    }
  }

  /** The context is `count` words; `dst` and `src` are word indices into `memory`, negative for NULL. */
  method CopyContext(memory: array<Word>, dst: int, src: int, count: nat)
    requires dst >= 0 ==> dst + count <= memory.Length
    requires src >= 0 ==> src + count <= memory.Length
    modifies memory
    ensures memory[..] == if dst < 0 || src < 0 then old(memory[..]) else Moved(old(memory[..]), dst, src, count)
  {
    if dst < 0 || src < 0 {
      return;
    }
    if dst == src {
      assert memory[..] == Moved(memory[..], dst, src, count);
      return;
    }
    if dst > src && dst < src + count {
      var i := count;
      while i > 0
        invariant 0 <= i <= count && memory[..] == Backward(old(memory[..]), dst, src, count, i)
      {
        i := i - 1;
        memory[dst + i] := memory[src + i];
      }
      BackwardRight(old(memory[..]), dst, src, count);
      return;
    }
    var i := 0;
    while i < count
      invariant 0 <= i <= count && memory[..] == Forward(old(memory[..]), dst, src, i)
    {
      memory[dst + i] := memory[src + i];
      i := i + 1;
    }
    ForwardRight(old(memory[..]), dst, src, count);
  }
}
