/**
  The two-level ready bitmap of `core/scheduler.c`: one byte of priorities for each group of
  eight, and one byte that says which groups are not empty.
 */
module ReadyBitmap {
  const LOWEST_PRIORITY: nat := 63
  const READY_TABLE_SIZE: nat := LOWEST_PRIORITY / 8 + 1

  /** `_os_map_table` */
  const MAP_TABLE: seq<bv8> := [0x01, 0x02, 0x04, 0x08, 0x10, 0x20, 0x40, 0x80]

  /** `_os_unmap_table`, in the rows of sixteen it is written in. */
  const UNMAP_TABLE: seq<seq<nat>> := [
    [0, 0, 1, 0, 2, 0, 1, 0, 3, 0, 1, 0, 2, 0, 1, 0],
    [4, 0, 1, 0, 2, 0, 1, 0, 3, 0, 1, 0, 2, 0, 1, 0],
    [5, 0, 1, 0, 2, 0, 1, 0, 3, 0, 1, 0, 2, 0, 1, 0],
    [4, 0, 1, 0, 2, 0, 1, 0, 3, 0, 1, 0, 2, 0, 1, 0],
    [6, 0, 1, 0, 2, 0, 1, 0, 3, 0, 1, 0, 2, 0, 1, 0],
    [4, 0, 1, 0, 2, 0, 1, 0, 3, 0, 1, 0, 2, 0, 1, 0],
    [5, 0, 1, 0, 2, 0, 1, 0, 3, 0, 1, 0, 2, 0, 1, 0],
    [4, 0, 1, 0, 2, 0, 1, 0, 3, 0, 1, 0, 2, 0, 1, 0],
    [7, 0, 1, 0, 2, 0, 1, 0, 3, 0, 1, 0, 2, 0, 1, 0],
    [4, 0, 1, 0, 2, 0, 1, 0, 3, 0, 1, 0, 2, 0, 1, 0],
    [5, 0, 1, 0, 2, 0, 1, 0, 3, 0, 1, 0, 2, 0, 1, 0],
    [4, 0, 1, 0, 2, 0, 1, 0, 3, 0, 1, 0, 2, 0, 1, 0],
    [6, 0, 1, 0, 2, 0, 1, 0, 3, 0, 1, 0, 2, 0, 1, 0],
    [4, 0, 1, 0, 2, 0, 1, 0, 3, 0, 1, 0, 2, 0, 1, 0],
    [5, 0, 1, 0, 2, 0, 1, 0, 3, 0, 1, 0, 2, 0, 1, 0],
    [4, 0, 1, 0, 2, 0, 1, 0, 3, 0, 1, 0, 2, 0, 1, 0]]

  function Unmap(v: bv8): nat {
    UNMAP_TABLE[(v >> 4) as nat][(v & 0x0F) as nat]
  }

  predicate Bit(v: bv8, i: nat)
    requires i < 8
  {
    v & MAP_TABLE[i] != 0
  }

  lemma MapTable(i: nat)
    requires i < 8
    ensures MAP_TABLE[i] == 1 << i
  {
  }

  lemma {:induction false} BitSet(v: bv8, i: nat, j: nat)
    requires i < 8 && j < 8
    ensures Bit(v | MAP_TABLE[i], j) <==> Bit(v, j) || i == j
  {
  }

  lemma {:induction false} BitCleared(v: bv8, i: nat, j: nat)
    requires i < 8 && j < 8
    ensures Bit(v & !MAP_TABLE[i], j) <==> Bit(v, j) && i != j
  {
  }

  lemma {:induction false} ZeroHasNoBit(v: bv8)
    ensures v == 0 <==> forall i :: 0 <= i < 8 ==> !Bit(v, i)
  {
    if forall i :: 0 <= i < 8 ==> !Bit(v, i) {
      assert !Bit(v, 0) && !Bit(v, 1) && !Bit(v, 2) && !Bit(v, 3);
      assert !Bit(v, 4) && !Bit(v, 5) && !Bit(v, 6) && !Bit(v, 7);
    }
  }

  /** The table holds for every non-zero byte the position of its least significant bit. */
  lemma UnmapIsLowestBit(v: bv8)
    requires v != 0
    ensures Unmap(v) < 8 && Bit(v, Unmap(v)) && forall i :: 0 <= i < Unmap(v) ==> !Bit(v, i)
  {
  }

  /** A group bit is set exactly when the group has a ready priority. */
  ghost predicate Agree(group: bv8, table: seq<bv8>) {
    |table| == READY_TABLE_SIZE &&
    forall y :: 0 <= y < READY_TABLE_SIZE ==> (Bit(group, y) <==> table[y] != 0)
  }

  /** Priority `p` is marked in the table. */
  ghost predicate Marked(table: seq<bv8>, p: nat)
    requires |table| == READY_TABLE_SIZE && p <= LOWEST_PRIORITY
  {
    Bit(table[p / 8], p % 8)
  }

  lemma MarkSet(table: seq<bv8>, p: nat, q: nat)
    requires |table| == READY_TABLE_SIZE && p <= LOWEST_PRIORITY && q <= LOWEST_PRIORITY
    ensures Marked(table[p / 8 := table[p / 8] | MAP_TABLE[p % 8]], q) <==> Marked(table, q) || p == q
  {
    if p / 8 == q / 8 {
      BitSet(table[p / 8], p % 8, q % 8);
    }
  }

  lemma MarkCleared(table: seq<bv8>, p: nat, q: nat)
    requires |table| == READY_TABLE_SIZE && p <= LOWEST_PRIORITY && q <= LOWEST_PRIORITY
    ensures Marked(table[p / 8 := table[p / 8] & !MAP_TABLE[p % 8]], q) <==> Marked(table, q) && p != q
  {
    if p / 8 == q / 8 {
      BitCleared(table[p / 8], p % 8, q % 8);
    }
  }

  lemma AgreeSet(group: bv8, table: seq<bv8>, y: nat, x: nat)
    requires Agree(group, table) && y < 8 && x < 8
    ensures Agree(group | MAP_TABLE[y], table[y := table[y] | MAP_TABLE[x]])
  {
    forall j | 0 <= j < 8
      ensures Bit(group | MAP_TABLE[y], j) <==> Bit(group, j) || y == j
    {
      BitSet(group, y, j);
    }
    BitSet(table[y], x, x);
    ZeroHasNoBit(table[y] | MAP_TABLE[x]);
  }

  lemma AgreeCleared(group: bv8, table: seq<bv8>, y: nat, v: bv8)
    requires Agree(group, table) && y < 8 && (table[y] == 0 ==> v == 0)
    ensures Agree(if v == 0 then group & !MAP_TABLE[y] else group, table[y := v])
  {
    forall j | 0 <= j < 8
      ensures Bit(group & !MAP_TABLE[y], j) <==> Bit(group, j) && y != j
    {
      BitCleared(group, y, j);
    }
  }

  /** The priorities a table marks. */
  ghost function Marks(table: seq<bv8>): set<nat>
    requires |table| == READY_TABLE_SIZE
  {
    set p | 0 <= p <= LOWEST_PRIORITY && Marked(table, p)
  }

  lemma SetAdds(group: bv8, table: seq<bv8>, p: nat, group': bv8, table': seq<bv8>)
    requires Agree(group, table) && p <= LOWEST_PRIORITY
    requires group' == group | MAP_TABLE[p / 8]
    requires table' == table[p / 8 := table[p / 8] | MAP_TABLE[p % 8]]
    ensures Agree(group', table') && Marks(table') == Marks(table) + {p}
  {
    AgreeSet(group, table, p / 8, p % 8);
    forall q | 0 <= q <= LOWEST_PRIORITY
      ensures Marked(table', q) <==> Marked(table, q) || p == q
    {
      MarkSet(table, p, q);
    }
  }

  lemma ClearRemoves(group: bv8, table: seq<bv8>, p: nat, group': bv8, table': seq<bv8>)
    requires Agree(group, table) && p <= LOWEST_PRIORITY
    requires table' == table[p / 8 := table[p / 8] & !MAP_TABLE[p % 8]]
    requires group' == if table'[p / 8] == 0 then group & !MAP_TABLE[p / 8] else group
    ensures Agree(group', table') && Marks(table') == Marks(table) - {p}
  {
    AgreeCleared(group, table, p / 8, table'[p / 8]);
    forall q | 0 <= q <= LOWEST_PRIORITY
      ensures Marked(table', q) <==> Marked(table, q) && p != q
    {
      MarkCleared(table, p, q);
    }
  }

  /** The two lookups of `_os_get_highest_priority`. */
  function Lookup(group: bv8, table: seq<bv8>): nat
    requires |table| == READY_TABLE_SIZE && Unmap(group) < 8
  {
    Unmap(group) * 8 + Unmap(table[Unmap(group)])
  }

  /** The lookup of a byte is at or below each of its bits. */
  lemma UnmapIsBelow(v: bv8, i: nat)
    requires i < 8 && Bit(v, i)
    ensures Unmap(v) <= i && Bit(v, Unmap(v))
  {
    ZeroHasNoBit(v);
    UnmapIsLowestBit(v);
  }

  lemma SomeBit(v: bv8)
    requires v != 0
    ensures Unmap(v) < 8 && Bit(v, Unmap(v))
  {
    UnmapIsLowestBit(v);
  }

  lemma GroupOf(group: bv8, table: seq<bv8>, q: nat)
    requires Agree(group, table) && q in Marks(table)
    ensures Bit(group, q / 8) && Bit(table[q / 8], q % 8)
  {
    ZeroHasNoBit(table[q / 8]);
  }

  lemma Composed(table: seq<bv8>, q: nat, y: nat, x: nat)
    requires |table| == READY_TABLE_SIZE && q <= LOWEST_PRIORITY && y <= q / 8 && x < 8
    requires Bit(table[y], x) && (y == q / 8 ==> x <= q % 8)
    ensures y * 8 + x <= q && y * 8 + x in Marks(table)
  {
    assert (y * 8 + x) / 8 == y && (y * 8 + x) % 8 == x;
  }

  lemma LookupIsBelow(group: bv8, table: seq<bv8>, q: nat)
    requires Agree(group, table) && q in Marks(table)
    ensures Unmap(group) < 8 && Lookup(group, table) <= q && Lookup(group, table) in Marks(table)
  {
    GroupOf(group, table, q);
    UnmapIsBelow(group, q / 8);
    var y := Unmap(group);
    SomeBit(table[y]);
    if y == q / 8 {
      UnmapIsBelow(table[y], q % 8);
    }
    Composed(table, q, y, Unmap(table[y]));
  }

  lemma EmptyGroup(table: seq<bv8>, y: nat)
    requires |table| == READY_TABLE_SIZE && Marks(table) == {} && y < 8
    ensures table[y] == 0
  {
    forall x | 0 <= x < 8
      ensures !Bit(table[y], x)
    {
      assert y * 8 + x !in Marks(table);
    }
    ZeroHasNoBit(table[y]);
  }

  lemma LookupOfNothing(group: bv8, table: seq<bv8>)
    requires Agree(group, table) && Marks(table) == {}
    ensures Unmap(group) == 0 && Lookup(group, table) == 0
  {
    forall y | 0 <= y < 8
      ensures !Bit(group, y)
    {
      EmptyGroup(table, y);
    }
    ZeroHasNoBit(group);
    EmptyGroup(table, 0);
  }

  /** The lookup gives the least marked priority, and 0 when nothing is marked. */
  lemma LookupIsLeast(group: bv8, table: seq<bv8>)
    requires Agree(group, table)
    ensures Unmap(group) < 8
    ensures forall q :: q in Marks(table) ==> Lookup(group, table) <= q
    ensures if Marks(table) == {} then Lookup(group, table) == 0 else Lookup(group, table) in Marks(table)
  {
    forall q | q in Marks(table)
      ensures Unmap(group) < 8 && Lookup(group, table) <= q && Lookup(group, table) in Marks(table)
    {
      LookupIsBelow(group, table, q);
    }
    if Marks(table) == {} {
      LookupOfNothing(group, table);
    } else {
      var q :| q in Marks(table);
    }
  }

  class ReadyIndex {
    var group: bv8
    const table: array<bv8>

    /** `_os_init_scheduler` */
    constructor ()
      ensures Valid() && fresh(table) && Priorities() == {}
    {
      group := 0;
      table := new bv8[READY_TABLE_SIZE](i => 0);
      new;
      ZeroHasNoBit(0);
      assert forall p :: 0 <= p <= LOWEST_PRIORITY ==> !Marked(table[..], p);
    }

    ghost predicate Valid()
      reads this, table
    {
      Agree(group, table[..])
    }

    /** The priorities the bitmap marks. */
    ghost function Priorities(): set<nat>
      reads this, table
      requires table.Length == READY_TABLE_SIZE
    {
      Marks(table[..])
    }

    lemma TableLength()
      requires Valid()
      ensures table.Length == READY_TABLE_SIZE
    {
    }

    /** `_os_set_ready` */
    method SetReady(priority: nat)
      requires Valid() && priority <= LOWEST_PRIORITY
      modifies this`group, table
      ensures Valid() && Priorities() == old(Priorities()) + {priority}
    {
      ghost var g, t := group, table[..];
      group := group | MAP_TABLE[priority / 8];
      table[priority / 8] := table[priority / 8] | MAP_TABLE[priority % 8];
      SetAdds(g, t, priority, group, table[..]);
    }

    /** `_os_unset_ready` */
    method UnsetReady(priority: nat)
      requires Valid() && priority <= LOWEST_PRIORITY
      modifies this`group, table
      ensures Valid() && Priorities() == old(Priorities()) - {priority}
    {
      hide Agree, Marks;
      TableLength();
      ghost var g, t := group, table[..];
      table[priority / 8] := table[priority / 8] & !MAP_TABLE[priority % 8];
      if table[priority / 8] == 0 {
        group := group & !MAP_TABLE[priority / 8];
      }
      ClearRemoves(g, t, priority, group, table[..]);
    }

    /** `_os_get_highest_priority`: the two table lookups give the least marked priority. */
    method GetHighestPriority() returns (p: nat)
      requires Valid()
      ensures forall q :: q in Priorities() ==> p <= q
      ensures if Priorities() == {} then p == 0 else p in Priorities()
    {
      LookupIsLeast(group, table[..]);
      var y := Unmap(group);
      p := y * 8 + Unmap(table[y]);
    }
  }
}
