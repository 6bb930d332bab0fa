/**
  The intrusive circular doubly linked lists of `core/common.c`, on the heap.

  A `Node` is embedded in the object at address `pnode`; a `Head` is the cell a `_os_node_t **`
  points at.  The ghost fields say what the pointers mean: `nodes` is the list a head stands for,
  `list` and `idx` are the list a node is on and its position there.  Many lists share one set of
  nodes, so every contract speaks of a whole `Family` of lists.
 */
module IntrusiveList {
  import opened Queues

  class Node {
    var prev: Node?
    var next: Node?
    var orderVal: nat
    const pnode: nat
    ghost var list: Head?
    ghost var idx: nat

    constructor (pnode: nat)
      ensures this.pnode == pnode && list == null && prev == null && next == null && orderVal == 0
    {
      this.pnode := pnode;
      prev, next, orderVal, list, idx := null, null, 0, null, 0;
    }
  }

  class Head {
    var first: Node?
    const name: nat
    ghost var nodes: seq<Node>

    constructor (name: nat)
      ensures first == null && nodes == [] && this.name == name
    {
      this.name := name;
      first, nodes := null, [];
    }
  }

  /** The positions after and before `i` on a circle of `n`. */
  function After(i: nat, n: nat): nat { if i + 1 == n then 0 else i + 1 }
  function Before(i: nat, n: nat): int { if i == 0 then n - 1 else i - 1 }

  /** Each head leads to the first node of its list. */
  ghost predicate Starts(heads: set<Head>)
    reads heads
  {
    forall h :: h in heads ==> h.first == if h.nodes == [] then null else h.nodes[0]
  }

  /** The nodes of a list know the list and their position, and every node is where it says. */
  ghost predicate Numbered(nodes: set<Node>, heads: set<Head>)
    reads nodes`list, nodes`idx, heads`nodes
  {
    (forall h, i {:trigger h.nodes[i]} :: h in heads && 0 <= i < |h.nodes| ==>
       h.nodes[i] in nodes && h.nodes[i].list == h && h.nodes[i].idx == i) &&
    (forall n {:trigger n.idx} {:trigger n.list} :: n in nodes && n.list != null ==>
       n.list in heads && n.idx < |n.list.nodes| && n.list.nodes[n.idx] == n)
  }

  /** The nodes of a list form one circle in order, forwards and backwards. */
  ghost predicate Nexts(nodes: set<Node>, heads: set<Head>)
    reads nodes`next, heads`nodes
  {
    forall h, i {:trigger h.nodes[i].next} :: h in heads && 0 <= i < |h.nodes| ==>
      h.nodes[i] in nodes && h.nodes[i].next == h.nodes[After(i, |h.nodes|)]
  }

  ghost predicate Prevs(nodes: set<Node>, heads: set<Head>)
    reads nodes`prev, heads`nodes
  {
    forall h, i {:trigger h.nodes[i].prev} :: h in heads && 0 <= i < |h.nodes| ==>
      h.nodes[i] in nodes && h.nodes[i].prev == h.nodes[Before(i, |h.nodes|)]
  }

  /** A node on no list has no links. */
  ghost predicate Loose(nodes: set<Node>)
    reads nodes`list, nodes`prev, nodes`next
  {
    forall n {:trigger n.list} :: n in nodes && n.list == null ==> n.prev == null && n.next == null
  }

  /** The pointers agree with the ghost fields. */
  ghost predicate Family(nodes: set<Node>, heads: set<Head>)
    reads nodes`list, nodes`idx, nodes`prev, nodes`next, heads
  {
    Starts(heads) && Numbered(nodes, heads) && Nexts(nodes, heads) && Prevs(nodes, heads) && Loose(nodes)
  }

  /** `x` placed at position `k` of `s`. */
  ghost function Insert(s: seq<Node>, k: nat, x: Node): (r: seq<Node>)
    requires k <= |s|
    ensures |r| == |s| + 1
    ensures forall i :: 0 <= i < |r| ==> r[i] == if i < k then s[i] else if i == k then x else s[i - 1]
  {
    s[..k] + [x] + s[k..]
  }

  /** `s` without the element at position `k`. */
  ghost function Removed(s: seq<Node>, k: nat): (r: seq<Node>)
    requires k < |s|
    ensures |r| == |s| - 1
    ensures forall i :: 0 <= i < |r| ==> r[i] == if i < k then s[i] else s[i + 1]
  {
    s[..k] + s[k + 1..]
  }

  // ----- insertion

  /** What the list of `head` is when `x` has been put at position `k` of it. */
  twostate predicate Inserted(head: Head, x: Node, k: nat, nodes: set<Node>, heads: set<Head>)
    reads heads, nodes, head
  {
    k <= |old(head.nodes)| && head.nodes == Insert(old(head.nodes), k, x) &&
    (forall h :: h in heads && h != head ==> h.nodes == old(h.nodes)) &&
    (forall n {:trigger n.list} :: n in nodes ==> n.list == if n == x then head else old(n.list)) &&
    (forall n {:trigger n.idx} :: n in nodes ==>
       n.idx == if n == x then k else if old(n.list) == head && k <= old(n.idx) then old(n.idx) + 1 else old(n.idx))
  }

  twostate lemma InsertNumbered(new head: Head, new x: Node, k: nat, new nodes: set<Node>, new heads: set<Head>)
    requires old(allocated(head) && allocated(x) && allocated(nodes) && allocated(heads))
    requires old(Numbered(nodes, heads)) && head in heads && x in nodes && old(x.list) == null
    requires Inserted(head, x, k, nodes, heads)
    ensures Numbered(nodes, heads)
  {
  }

  twostate lemma InsertNexts(new head: Head, new x: Node, k: nat, new nodes: set<Node>, new heads: set<Head>)
    requires old(allocated(head) && allocated(x) && allocated(nodes) && allocated(heads))
    requires old(Numbered(nodes, heads) && Nexts(nodes, heads)) && head in heads && x in nodes && old(x.list) == null
    requires Inserted(head, x, k, nodes, heads) && old(head.nodes) != []
    requires forall n {:trigger n.next} :: n in nodes ==>
      n.next == if n == x then old(head.nodes[if k == |head.nodes| then 0 else k])
                else if n == old(head.nodes[Before(k, |head.nodes|)]) then x else old(n.next)
    ensures Nexts(nodes, heads)
  {
    var s, r := old(head.nodes), head.nodes;
    forall h, i | h in heads && 0 <= i < |h.nodes|
      ensures h.nodes[i] in nodes && h.nodes[i].next == h.nodes[After(i, |h.nodes|)]
    {
      if h == head && i != k {
        var j := if i < k then i else i - 1;
        assert r[i] == s[j] && old(s[j].next) == s[After(j, |s|)];
      }
    }
  }

  twostate lemma InsertPrevs(new head: Head, new x: Node, k: nat, new nodes: set<Node>, new heads: set<Head>)
    requires old(allocated(head) && allocated(x) && allocated(nodes) && allocated(heads))
    requires old(Numbered(nodes, heads) && Prevs(nodes, heads)) && head in heads && x in nodes && old(x.list) == null
    requires Inserted(head, x, k, nodes, heads) && old(head.nodes) != []
    requires forall n {:trigger n.prev} :: n in nodes ==>
      n.prev == if n == x then old(head.nodes[Before(k, |head.nodes|)])
                else if n == old(head.nodes[if k == |head.nodes| then 0 else k]) then x else old(n.prev)
    ensures Prevs(nodes, heads)
  {
    var s, r := old(head.nodes), head.nodes;
    forall h, i | h in heads && 0 <= i < |h.nodes|
      ensures h.nodes[i] in nodes && h.nodes[i].prev == h.nodes[Before(i, |h.nodes|)]
    {
      if h == head && i != k {
        var j := if i < k then i else i - 1;
        assert r[i] == s[j] && old(s[j].prev) == s[Before(j, |s|)];
      }
    }
  }

  /** The four pointer writes with which `_os_add_node_tail` and `_os_add_node_ordered` put
      `newNode` before `node`. */
  method Splice(head: Head, newNode: Node, node: Node, ghost k: nat, ghost nodes: set<Node>, ghost heads: set<Head>)
    requires newNode in nodes && node in nodes && newNode != node && newNode.list == null && k <= |head.nodes|
    requires node.prev != null && node.prev in nodes && node.prev != newNode
    modifies head`nodes, nodes`prev, nodes`next, nodes`list, nodes`idx
    ensures forall n {:trigger n.next} :: n in nodes ==>
      n.next == if n == newNode then node else if n == old(node.prev) then newNode else old(n.next)
    ensures forall n {:trigger n.prev} :: n in nodes ==>
      n.prev == if n == newNode then old(node.prev) else if n == node then newNode else old(n.prev)
    ensures Inserted(head, newNode, k, nodes, heads)
  {
    newNode.prev := node.prev;
    newNode.prev.next := newNode;
    newNode.next := node;
    newNode.next.prev := newNode;
    forall n | n in nodes && n.list == head && k <= n.idx {
      n.idx := n.idx + 1;
    }
    newNode.list := head;
    newNode.idx := k;
    head.nodes := Insert(head.nodes, k, newNode);
  }

  /** On a circle that inserts at position `k`, the end and the start being the same place; where
      the head leads is the callers' business. */
  method Join(head: Head, newNode: Node, node: Node, ghost k: nat, ghost nodes: set<Node>, ghost heads: set<Head>)
    requires Family(nodes, heads) && head in heads && newNode in nodes && newNode.list == null
    requires head.nodes != [] && k <= |head.nodes| && node == head.nodes[if k == |head.nodes| then 0 else k]
    modifies head`nodes, nodes`prev, nodes`next, nodes`list, nodes`idx
    ensures Numbered(nodes, heads) && Nexts(nodes, heads) && Prevs(nodes, heads) && Loose(nodes)
    ensures head.nodes == Insert(old(head.nodes), k, newNode)
    ensures forall n {:trigger n.list} :: n in nodes ==> n.list == if n == newNode then head else old(n.list)
  {
    ghost var s := head.nodes;
    assert node.prev == s[Before(k, |s|)] by {
      if k == |s| {
        assert s[0].prev == s[|s| - 1];
      } else {
        assert s[k].prev == s[Before(k, |s|)];
      }
    }
    Splice(head, newNode, node, k, nodes, heads);
    InsertNumbered(head, newNode, k, nodes, heads);
    InsertNexts(head, newNode, k, nodes, heads);
    InsertPrevs(head, newNode, k, nodes, heads);
  }

  /** In front of the first node: the head moves to the newcomer. */
  method JoinFront(head: Head, newNode: Node, ghost nodes: set<Node>, ghost heads: set<Head>)
    requires Family(nodes, heads) && head in heads && newNode in nodes && newNode.list == null && head.first != null
    modifies head, nodes`prev, nodes`next, nodes`list, nodes`idx
    ensures Family(nodes, heads) && head.nodes == Insert(old(head.nodes), 0, newNode)
    ensures forall n {:trigger n.list} :: n in nodes ==> n.list == if n == newNode then head else old(n.list)
  {
    hide Numbered, Nexts, Prevs, Loose;
    Join(head, newNode, head.first, 0, nodes, heads);
    head.first := newNode;
  }

  /** Anywhere later: the head stays. */
  method JoinLater(head: Head, newNode: Node, node: Node, ghost k: nat, ghost nodes: set<Node>, ghost heads: set<Head>)
    requires Family(nodes, heads) && head in heads && newNode in nodes && newNode.list == null
    requires 0 < k <= |head.nodes| && node == head.nodes[if k == |head.nodes| then 0 else k]
    modifies head`nodes, nodes`prev, nodes`next, nodes`list, nodes`idx
    ensures Family(nodes, heads) && head.nodes == Insert(old(head.nodes), k, newNode)
    ensures forall n {:trigger n.list} :: n in nodes ==> n.list == if n == newNode then head else old(n.list)
  {
    hide Numbered, Nexts, Prevs, Loose;
    Join(head, newNode, node, k, nodes, heads);
  }

  /** A list of one. */
  method Start(head: Head, newNode: Node, ghost nodes: set<Node>, ghost heads: set<Head>)
    requires Family(nodes, heads) && head in heads && newNode in nodes && newNode.list == null && head.first == null
    modifies head, nodes`prev, nodes`next, nodes`list, nodes`idx
    ensures Family(nodes, heads) && head.nodes == [newNode] && old(head.nodes) == []
    ensures forall n {:trigger n.list} :: n in nodes ==> n.list == if n == newNode then head else old(n.list)
  {
    head.first := newNode;
    newNode.prev := newNode;
    newNode.next := newNode;
    newNode.list := head;
    newNode.idx := 0;
    head.nodes := [newNode];
  }

  /** `_os_add_node_tail` appends a detached node to one list and changes no other. */
  method AddNodeTail(head: Head, newNode: Node, ghost nodes: set<Node>, ghost heads: set<Head>)
    requires Family(nodes, heads) && head in heads && newNode in nodes && newNode.list == null
    modifies head, nodes`prev, nodes`next, nodes`list, nodes`idx
    ensures Family(nodes, heads) && head.nodes == old(head.nodes) + [newNode]
    ensures forall n {:trigger n.list} :: n in nodes ==> n.list == if n == newNode then head else old(n.list)
  {
    hide Numbered, Nexts, Prevs, Loose;
    if head.first != null {
      JoinLater(head, newNode, head.first, |head.nodes|, nodes, heads);
    } else {
      Start(head, newNode, nodes, heads);
    }
  }

  /** The same writes on a node that is on the list already: alone there it stays as it is, and
      among others it breaks the circle. */
  method AddNodeAgain(head: Head, node: Node, ghost nodes: set<Node>, ghost heads: set<Head>)
    requires Family(nodes, heads) && head in heads && node in nodes && node.list == head
    modifies nodes`prev, nodes`next
    ensures Family(nodes, heads) <==> |head.nodes| == 1
    ensures |head.nodes| == 1 ==> forall n {:trigger n.next} {:trigger n.prev} :: n in nodes ==>
      n.next == old(n.next) && n.prev == old(n.prev)
  {
    ghost var s, k := head.nodes, node.idx;
    assert s[0].prev == s[Before(0, |s|)] && s[0].next == s[After(0, |s|)];
    assert s[k] == node;
    node.prev := head.first.prev;
    node.prev.next := node;
    node.next := head.first;
    node.next.prev := node;
    if |s| > 1 {
      assert s[0].idx == 0 && s[1].idx == 1 && s[|s| - 1].idx == |s| - 1;
      if k == |s| - 1 {
        assert s[k].prev != s[Before(k, |s|)];
      } else {
        assert s[k].next != s[After(k, |s|)];
      }
    }
  }

  ghost function OrderVals(s: seq<Node>): (vals: seq<nat>)
    reads s
    ensures |vals| == |s| && forall i :: 0 <= i < |s| ==> vals[i] == s[i].orderVal
  {
    seq(|s|, i requires 0 <= i < |s| reads s => s[i].orderVal)
  }

  /** The walk of `_os_add_node_ordered`: it stops at the first node of greater `orderVal`, or
      back at the head when there is none.  The list need not be sorted. */
  method FindPlace(head: Head, v: nat, ghost nodes: set<Node>, ghost heads: set<Head>)
    returns (node: Node, ghost k: nat)
    requires Family(nodes, heads) && head in heads && head.first != null
    ensures k == FirstAbove(OrderVals(head.nodes), v) && (head.first.orderVal <= v ==> 0 < k)
    ensures node == head.nodes[if k == |head.nodes| then 0 else k]
  {
    ghost var s := head.nodes;
    node, k := head.first, 0;
    if node.orderVal <= v {
      assert s[0].next == s[After(0, |s|)];
      node, k := node.next, 1;
      while node.orderVal <= v && node != head.first
        invariant 1 <= k <= |s| && node == s[if k == |s| then 0 else k]
        invariant forall i :: 0 <= i < k ==> s[i].orderVal <= v
        decreases |s| - k
      {
        assert s[k].next == s[After(k, |s|)];
        node, k := node.next, k + 1;
      }
      assert k < |s| ==> s[k].idx == k && s[0].idx == 0;
    }
    FirstAboveIs(OrderVals(s), v, k);
  }

  /** `_os_add_node_ordered` inserts a detached node before the first of greater `orderVal`, and
      changes no other list. */
  method AddNodeOrdered(head: Head, newNode: Node, ghost nodes: set<Node>, ghost heads: set<Head>)
    requires Family(nodes, heads) && head in heads && newNode in nodes && newNode.list == null
    modifies head, nodes`prev, nodes`next, nodes`list, nodes`idx
    ensures Family(nodes, heads)
    ensures head.nodes == old(Insert(head.nodes, FirstAbove(OrderVals(head.nodes), newNode.orderVal), newNode))
    ensures forall n {:trigger n.list} :: n in nodes ==> n.list == if n == newNode then head else old(n.list)
  {
    hide Numbered, Nexts, Prevs, Loose;
    if head.first != null {
      if head.first.orderVal > newNode.orderVal {
        FirstAboveIs(OrderVals(head.nodes), newNode.orderVal, 0);
        JoinFront(head, newNode, nodes, heads);
      } else {
        var node, k := FindPlace(head, newNode.orderVal, nodes, heads);
        JoinLater(head, newNode, node, k, nodes, heads);
      }
    } else {
      Start(head, newNode, nodes, heads);
    }
  }

  // ----- removal

  /** What the lists are when `x` has left position `k` of `list`. */
  twostate predicate Left(list: Head, x: Node, k: nat, nodes: set<Node>, heads: set<Head>)
    reads heads, nodes, list
  {
    k < |old(list.nodes)| && list.nodes == Removed(old(list.nodes), k) &&
    (forall h :: h in heads && h != list ==> h.nodes == old(h.nodes)) &&
    (forall n {:trigger n.list} :: n in nodes ==> n.list == if n == x then null else old(n.list)) &&
    (forall n {:trigger n.idx} :: n in nodes && n != x ==>
       n.idx == if old(n.list) == list && k < old(n.idx) then old(n.idx) - 1 else old(n.idx))
  }

  twostate lemma LeftNumbered(new list: Head, new x: Node, k: nat, new nodes: set<Node>, new heads: set<Head>)
    requires old(allocated(list) && allocated(x) && allocated(nodes) && allocated(heads))
    requires old(Numbered(nodes, heads)) && list in heads && x in nodes
    requires k < |old(list.nodes)| && old(list.nodes[k]) == x && Left(list, x, k, nodes, heads)
    ensures Numbered(nodes, heads)
  {
  }

  twostate lemma LeftNexts(new list: Head, new x: Node, k: nat, new nodes: set<Node>, new heads: set<Head>)
    requires old(allocated(list) && allocated(x) && allocated(nodes) && allocated(heads))
    requires old(Numbered(nodes, heads) && Nexts(nodes, heads)) && list in heads && x in nodes
    requires k < |old(list.nodes)| && old(list.nodes[k]) == x && Left(list, x, k, nodes, heads)
    requires forall n {:trigger n.next} :: n in nodes && n != x ==>
      n.next == if n == old(list.nodes[Before(k, |list.nodes|)]) then old(list.nodes[After(k, |list.nodes|)])
                else old(n.next)
    ensures Nexts(nodes, heads)
  {
    var s, r := old(list.nodes), list.nodes;
    forall h, i | h in heads && 0 <= i < |h.nodes|
      ensures h.nodes[i] in nodes && h.nodes[i].next == h.nodes[After(i, |h.nodes|)]
    {
      if h == list {
        var j := if i < k then i else i + 1;
        assert r[i] == s[j] && old(s[j].next) == s[After(j, |s|)];
      }
    }
  }

  twostate lemma LeftPrevs(new list: Head, new x: Node, k: nat, new nodes: set<Node>, new heads: set<Head>)
    requires old(allocated(list) && allocated(x) && allocated(nodes) && allocated(heads))
    requires old(Numbered(nodes, heads) && Prevs(nodes, heads)) && list in heads && x in nodes
    requires k < |old(list.nodes)| && old(list.nodes[k]) == x && Left(list, x, k, nodes, heads)
    requires forall n {:trigger n.prev} :: n in nodes && n != x ==>
      n.prev == if n == old(list.nodes[After(k, |list.nodes|)]) then old(list.nodes[Before(k, |list.nodes|)])
                else old(n.prev)
    ensures Prevs(nodes, heads)
  {
    var s, r := old(list.nodes), list.nodes;
    forall h, i | h in heads && 0 <= i < |h.nodes|
      ensures h.nodes[i] in nodes && h.nodes[i].prev == h.nodes[Before(i, |h.nodes|)]
    {
      if h == list {
        var j := if i < k then i else i + 1;
        assert r[i] == s[j] && old(s[j].prev) == s[Before(j, |s|)];
      }
    }
  }

  /** The pointer writes of `_os_remove_node` on a linked node: its neighbours are joined, the head
      it was given moves on when it leads to the node, and the node is left without links. */
  method Detach(head: Head, node: Node, ghost list: Head, ghost nodes: set<Node>, ghost heads: set<Head>)
    requires node in nodes && node.next != null && node.prev != null && node.next in nodes && node.prev in nodes
    requires head in heads && list in heads && node.list == list && node.idx < |list.nodes|
    requires node.next == node <==> node.prev == node
    modifies head`first, list`nodes, nodes`prev, nodes`next, nodes`list, nodes`idx
    ensures forall n {:trigger n.next} :: n in nodes ==>
      n.next == if n == node then null else if n == old(node.prev) then old(node.next) else old(n.next)
    ensures forall n {:trigger n.prev} :: n in nodes ==>
      n.prev == if n == node then null else if n == old(node.next) then old(node.prev) else old(n.prev)
    ensures Left(list, node, old(node.idx), nodes, heads)
    ensures head.first == if old(node.next) == node then null else if old(head.first) == node then old(node.next)
                                                                   else old(head.first)
  {
    if node.next == node {
      head.first := null;
    } else {
      node.prev.next := node.next;
      node.next.prev := node.prev;
      if node == head.first {
        head.first := node.next;
      }
    }
    node.next := null;
    node.prev := null;
    ghost var k := node.idx;
    forall n | n in nodes && n.list == list && k < n.idx {
      n.idx := n.idx - 1;
    }
    node.list := null;
    list.nodes := Removed(list.nodes, k);
  }

  /** That closes the gap the node leaves; where the heads lead is the callers' business. */
  method Leave(head: Head, node: Node, ghost list: Head, ghost nodes: set<Node>, ghost heads: set<Head>)
    requires Family(nodes, heads) && head in heads && node in nodes && node.list == list
    modifies head`first, list`nodes, nodes`prev, nodes`next, nodes`list, nodes`idx
    ensures Numbered(nodes, heads) && Nexts(nodes, heads) && Prevs(nodes, heads) && Loose(nodes)
    ensures list.nodes == Removed(old(list.nodes), old(node.idx)) && node.next == null && node.prev == null
    ensures forall n {:trigger n.list} :: n in nodes ==> n.list == if n == node then null else old(n.list)
    ensures head.first == if |old(list.nodes)| == 1 then null
                          else if old(head.first) == node then old(list.nodes)[After(old(node.idx), |old(list.nodes)|)]
                          else old(head.first)
  {
    ghost var s, k := list.nodes, node.idx;
    assert s[k].next == s[After(k, |s|)] && s[k].prev == s[Before(k, |s|)];
    assert node.next == node <==> |s| == 1 by { assert s[After(k, |s|)].idx == After(k, |s|); }
    assert node.prev == node <==> |s| == 1 by { assert s[Before(k, |s|)].idx == Before(k, |s|); }
    Detach(head, node, list, nodes, heads);
    LeftNumbered(list, node, k, nodes, heads);
    LeftNexts(list, node, k, nodes, heads);
    LeftPrevs(list, node, k, nodes, heads);
  }

  /** Where the heads lead after a node has left `list` through `head`. */
  lemma StartsAgain(heads: set<Head>, list: Head, head: Head, was: seq<Node>, k: nat)
    requires head in heads && list in heads && k < |was| && list.nodes == Removed(was, k)
    requires forall i, j :: 0 <= i < j < |was| ==> was[i] != was[j]
    requires forall h :: h in heads && h != list && h != head ==> h.first == if h.nodes == [] then null else h.nodes[0]
    requires list != head ==> list.first == was[0] &&
                              (|was| != 1 ==> head.first == if head.nodes == [] then null else head.nodes[0])
    requires list == head ==> head.first == if |was| == 1 then null else if k == 0 then was[1] else was[0]
    ensures Starts(heads) <==> list == head || k != 0
  {
    if list != head && k == 0 {
      assert list.first == was[0];
      assert list.nodes != [] ==> list.nodes[0] == was[1];
    }
  }

  /** `_os_remove_node`, on whatever head it is given.  A detached node stays as it is.  A linked
      node leaves its own list `list`, and the lists are whole again if and only if the head was
      its own or the node was not the first of its list: otherwise that list's head is left
      leading to a node without links, and when it was a list of one the wrong head is emptied
      too. */
  method RemoveNode(head: Head, node: Node, ghost nodes: set<Node>, ghost heads: set<Head>)
    returns (removed: nat, ghost list: Head?)
    requires Family(nodes, heads) && head in heads && node in nodes
    modifies head`first, heads`nodes, nodes`prev, nodes`next, nodes`list, nodes`idx
    ensures list == old(node.list) && removed == (if list == null then 0 else 1)
    ensures forall n {:trigger n.list} :: n in nodes ==> n.list == if n == node then null else old(n.list)
    ensures forall h :: h in heads && h != list ==> h.nodes == old(h.nodes)
    ensures list == null ==> Family(nodes, heads)
    ensures list != null ==> list in heads && list.nodes == Removed(old(list.nodes), old(node.idx))
    ensures list != null ==> (Family(nodes, heads) <==> list == head || old(node.idx) != 0)
    ensures list != null && list != head && old(node.idx) == 0 ==>
      list.first == node && node.next == null && node.prev == null && (|list.nodes| == 0 ==> head.first == null)
  {
    list := node.list;
    if list != null {
      assert list.nodes[node.idx].next == list.nodes[After(node.idx, |list.nodes|)];
      assert list.nodes[node.idx].prev == list.nodes[Before(node.idx, |list.nodes|)];
    }
    if node.next == null || node.prev == null {
      removed := 0;
    } else {
      ghost var was, k := list.nodes, node.idx;
      AllDistinct(nodes, heads, list);
      Leave(head, node, list, nodes, heads);
      StartsAgain(heads, list, head, was, k);
      removed := 1;
    }
  }

  lemma AllDistinct(nodes: set<Node>, heads: set<Head>, h: Head)
    requires Numbered(nodes, heads) && h in heads
    ensures forall i, j :: 0 <= i < j < |h.nodes| ==> h.nodes[i] != h.nodes[j]
  {
  }

  // ----- addresses

  /** The addresses of the nodes. */
  ghost function Names(s: seq<Node>): (r: seq<nat>)
    ensures |r| == |s| && forall i :: 0 <= i < |s| ==> r[i] == s[i].pnode
  {
    seq(|s|, i requires 0 <= i < |s| => s[i].pnode)
  }

  lemma NamesOfInsert(s: seq<Node>, k: nat, x: Node)
    requires k <= |s|
    ensures Names(Insert(s, k, x)) == Names(s)[..k] + [x.pnode] + Names(s)[k..]
  {
  }

  /** Different nodes have different addresses. */
  ghost predicate Addressed(nodes: set<Node>) {
    forall m, n :: m in nodes && n in nodes && m.pnode == n.pnode ==> m == n
  }

  /** Removing a node from the lists deletes its address from what they hold. */
  twostate lemma NamesAfter(new h: Head, new x: Node, new nodes: set<Node>, new heads: set<Head>)
    requires old(allocated(h) && allocated(x) && allocated(nodes) && allocated(heads))
    requires old(Numbered(nodes, heads)) && Addressed(nodes) && h in heads && x in nodes
    requires old(x.list) == h ==> old(x.idx) < |old(h.nodes)| && h.nodes == Removed(old(h.nodes), old(x.idx))
    requires old(x.list) != h ==> h.nodes == old(h.nodes)
    ensures Names(h.nodes) == Delete(Names(old(h.nodes)), x.pnode)
  {
    var was := Names(old(h.nodes));
    assert forall i, j :: 0 <= i < j < |was| ==> was[i] != was[j] by {
      assert forall i :: 0 <= i < |was| ==> old(h.nodes[i].idx) == i;
    }
    if old(x.list) == h {
      DeleteAt(was, old(x.idx));
    } else {
      forall i | 0 <= i < |was|
        ensures was[i] != x.pnode
      {
        assert old(h.nodes[i] in nodes && h.nodes[i].list == h);
      }
    }
  }
}
