/** The intrusive doubly linked ring of dlist.c.

    The C functions get nothing but pointers. Here each also gets, as ghost arguments, the list head and the sequence of
    the nodes that follow it, so that its contract can say what it does to that sequence.
  */
module DoublyLinkedList {
  class Node {
    var next: Node?
    var prev: Node?

    constructor () {
      next, prev := null, null;
    }
  }

  /** The nodes met on the way round, with the head at both ends. */
  ghost function Round(head: Node, s: seq<Node>): seq<Node> { [head] + s + [head] }

  ghost predicate Linked(a: Node, b: Node)
    reads a, b
  {
    a.next == b && b.prev == a
  }

  /** No node occurs twice. */
  ghost predicate Distinct(head: Node, s: seq<Node>) {
    var p := Round(head, s);
    forall i, j :: 0 <= i < j <= |s| ==> p[i] != p[j]
  }

  /** The ring through `head` and the nodes of `s`: next and prev are each other's inverse. */
  ghost predicate Ring(head: Node, s: seq<Node>)
    reads head, s
  {
    Distinct(head, s) && forall i :: 0 <= i <= |s| ==> Linked(Round(head, s)[i], Round(head, s)[i + 1])
  }

  ghost function InsertedAt(s: seq<Node>, k: nat, n: Node): seq<Node>
    requires k <= |s|
  {
    s[..k] + [n] + s[k..]
  }

  ghost function Without(s: seq<Node>, k: nat): seq<Node>
    requires k < |s|
  {
    s[..k] + s[k + 1..]
  }

  /** DlInitHead. */
  method InitHead(head: Node)
    modifies head
    ensures Ring(head, [])
  {
    head.next := head;
    head.prev := head;
  }

  /** DlIsListEmpty. */
  method IsListEmpty(head: Node, ghost s: seq<Node>) returns (empty: bool)
    requires Ring(head, s)
    ensures empty <==> s == []
  {
    assert Linked(Round(head, s)[0], Round(head, s)[1]);
    empty := head.next == head;
  }

  lemma RoundInserted(head: Node, s: seq<Node>, k: nat, node: Node, i: nat)
    requires k <= |s| && i <= |s| + 2
    ensures Round(head, InsertedAt(s, k, node))[i] ==
      if i <= k then Round(head, s)[i] else if i == k + 1 then node else Round(head, s)[i - 1]
  {
  }

  lemma DistinctInserted(head: Node, s: seq<Node>, k: nat, node: Node)
    requires k <= |s| && node != head && node !in s && Distinct(head, s)
    ensures Distinct(head, InsertedAt(s, k, node))
  {
    forall i, j | 0 <= i < j <= |s| + 1
      ensures Round(head, InsertedAt(s, k, node))[i] != Round(head, InsertedAt(s, k, node))[j]
    {
      RoundInserted(head, s, k, node, i);
      RoundInserted(head, s, k, node, j);
    }
  }

  /** A node linked in after the `k`-th node of a ring. */
  lemma Spliced(head: Node, s: seq<Node>, k: nat, node: Node)
    requires k <= |s| && node != head && node !in s && Distinct(head, s)
    requires var p := Round(head, s);
      Linked(p[k], node) && Linked(node, p[k + 1]) && forall i :: 0 <= i <= |s| && i != k ==> Linked(p[i], p[i + 1])
    ensures Ring(head, InsertedAt(s, k, node))
  {
    DistinctInserted(head, s, k, node);
    var q := Round(head, InsertedAt(s, k, node));
    forall i | 0 <= i <= |s| + 1 ensures Linked(q[i], q[i + 1]) {
      RoundInserted(head, s, k, node, i);
      RoundInserted(head, s, k, node, i + 1);
    }
  }

  method InsertNodeAfter(marker: Node?, node: Node?, ghost head: Node, ghost s: seq<Node>, ghost k: nat)
    requires Ring(head, s) && k <= |s|
    requires marker != null ==> marker == Round(head, s)[k]
    requires node != null ==> node != head && node !in s
    modifies head, s, node
    ensures if marker == null || node == null then Ring(head, s) else Ring(head, InsertedAt(s, k, node))
    ensures node != null && marker == null ==> node.next == old(node.next) && node.prev == old(node.prev)
  {
    if marker == null {
      return;
    }
    if node == null {
      return;
    }
    ghost var p := Round(head, s);
    assert Linked(p[k], p[k + 1]);
    node.next := marker.next;
    node.prev := marker;
    marker.next.prev := node;
    marker.next := node;
    forall i | 0 <= i <= |s| && i != k ensures Linked(p[i], p[i + 1]) {
      assert old(Linked(p[i], p[i + 1]));
    }
    Spliced(head, s, k, node);
  }

  method InsertNodeBefore(marker: Node, node: Node?, ghost head: Node, ghost s: seq<Node>, ghost k: nat)
    requires Ring(head, s) && k <= |s| && marker == Round(head, s)[k + 1]
    requires node != null ==> node != head && node !in s
    modifies head, s, node
    ensures if node == null then Ring(head, s) else Ring(head, InsertedAt(s, k, node))
  {
    assert Linked(Round(head, s)[k], marker);
    InsertNodeAfter(marker.prev, node, head, s, k);
  }

  method AddNodeToHead(head: Node, node: Node?, ghost s: seq<Node>)
    requires Ring(head, s) && (node != null ==> node != head && node !in s)
    modifies head, s, node
    ensures if node == null then Ring(head, s) else Ring(head, [node] + s)
  {
    InsertNodeAfter(head, node, head, s, 0);
    assert node != null ==> InsertedAt(s, 0, node) == [node] + s;
  }

  method AddNodeToTail(head: Node, node: Node?, ghost s: seq<Node>)
    requires Ring(head, s) && (node != null ==> node != head && node !in s)
    modifies head, s, node
    ensures if node == null then Ring(head, s) else Ring(head, s + [node])
  {
    assert Linked(Round(head, s)[|s|], Round(head, s)[|s| + 1]);
    InsertNodeAfter(head.prev, node, head, s, |s|);
    assert node != null ==> InsertedAt(s, |s|, node) == s + [node];
  }

  method RemoveNode(node: Node?, ghost head: Node, ghost s: seq<Node>, ghost k: nat)
    requires Ring(head, s)
    requires node != null ==> k < |s| && node == s[k]
    modifies head, s
    ensures if node == null then Ring(head, s) else Ring(head, Without(s, k))
  {
    if node == null {
      return;
    }
    ghost var p := Round(head, s);
    ghost var q := Round(head, Without(s, k));
    assert p[k + 1] == node && Linked(p[k], p[k + 1]) && Linked(p[k + 1], p[k + 2]);
    node.next.prev := node.prev;
    node.prev.next := node.next;
    assert q == p[..k + 1] + p[k + 2..];
    forall i | 0 <= i < |s| ensures Linked(q[i], q[i + 1]) {
      if i < k {
        assert old(Linked(p[i], p[i + 1]));
      } else if i > k {
        assert old(Linked(p[i + 1], p[i + 2]));
      }
    }
  }

  method RemoveNodeFromHead(head: Node?, ghost s: seq<Node>) returns (node: Node?)
    requires head != null ==> Ring(head, s)
    modifies head, s
    ensures head == null || s == [] ==> node == null
    ensures head != null && s == [] ==> Ring(head, s)
    ensures head != null && s != [] ==> node == s[0] && Ring(head, s[1..])
  {
    if head == null {
      return null;
    }
    var empty := IsListEmpty(head, s);
    if empty {
      return null;
    }
    assert Linked(Round(head, s)[0], Round(head, s)[1]);
    node := head.next;
    RemoveNode(node, head, s, 0);
    assert Without(s, 0) == s[1..];
  }

  method RemoveNodeFromTail(head: Node?, ghost s: seq<Node>) returns (node: Node?)
    requires head != null ==> Ring(head, s)
    modifies head, s
    ensures head == null || s == [] ==> node == null
    ensures head != null && s == [] ==> Ring(head, s)
    ensures head != null && s != [] ==> node == s[|s| - 1] && Ring(head, s[..|s| - 1])
  {
    if head == null {
      return null;
    }
    var empty := IsListEmpty(head, s);
    if empty {
      return null;
    }
    assert Linked(Round(head, s)[|s|], Round(head, s)[|s| + 1]);
    node := head.prev;
    RemoveNode(node, head, s, |s| - 1);
    assert Without(s, |s| - 1) == s[..|s| - 1];
  }

  /** Going round by next, or by prev, meets each node of the ring once and comes back to the head: what DlForEachNode
      and DlForEachNodeReverse rely on.
    */
  lemma WaysRound(head: Node, s: seq<Node>)
    requires Ring(head, s)
    ensures s == [] ==> head.next == head && head.prev == head
    ensures s != [] ==> head.next == s[0] && head.prev == s[|s| - 1]
    ensures s != [] ==> s[|s| - 1].next == head && s[0].prev == head
    ensures forall i :: 0 <= i < |s| - 1 ==> s[i].next == s[i + 1] && s[i + 1].prev == s[i]
  {
    var p := Round(head, s);
    assert Linked(p[0], p[1]) && Linked(p[|s|], p[|s| + 1]);
    forall i | 0 <= i < |s| - 1 ensures s[i].next == s[i + 1] && s[i + 1].prev == s[i] {
      assert Linked(p[i + 1], p[i + 2]);
    }
  }

  /** A ring has one reading only: the pointers determine the sequence. */
  lemma {:induction false} RingIsUnique(head: Node, s: seq<Node>, t: seq<Node>, k: nat)
    requires Ring(head, s) && Ring(head, t) && k <= |s| && k <= |t| && s[..k] == t[..k]
    ensures s == t
    decreases |s| - k
  {
    var p, q := Round(head, s), Round(head, t);
    assert p[k] == q[k] by {
      assert k > 0 ==> p[k] == s[..k][k - 1] && q[k] == t[..k][k - 1];
    }
    assert Linked(p[k], p[k + 1]) && Linked(q[k], q[k + 1]);
    assert p[k + 1] == q[k + 1] && p[0] == q[0] == head;
    if k < |s| && k < |t| {
      assert s[..k + 1] == s[..k] + [s[k]] && t[..k + 1] == t[..k] + [t[k]];
      assert p[k + 1] == s[k] && q[k + 1] == t[k];
      RingIsUnique(head, s, t, k + 1);
    }
  }
}

/** The FIFO queue of queue_simple.c: nodes enter at the head of the ring and leave at its tail. */
module SimpleQueue {
  import opened DoublyLinkedList
  import opened Sequences

  class Queue {
    var count: int
    const head: Node
    ghost var nodes: seq<Node>     // from the head of the ring to its tail, that is, the newest first

    ghost predicate Valid()
      reads this, head, nodes
    {
      Ring(head, nodes) && count == |nodes|
    }

    /** The nodes in the queue, the oldest first. */
    ghost function Items(): seq<Node>
      reads this
    {
      Reverse(nodes)
    }

    /** InitQueue. */
    constructor ()
      ensures Valid() && Items() == [] && fresh(head)
    {
      count := 0;
      head := new Node();
      nodes := [];
      new;
      InitHead(head);
    }

    method IsQueueEmpty() returns (empty: bool)
      requires Valid()
      ensures empty <==> Items() == []
    {
      ReverseLength(nodes);
      empty := count == 0;
    }

    method Enqueue(node: Node?)
      requires Valid() && (node != null ==> node != head && node !in Items())
      modifies this, head, nodes, node
      ensures Valid() && Items() == old(Items()) + if node == null then [] else [node]
    {
      if node == null {
        return;
      }
      ReverseMembers(nodes);
      count := count + 1;
      AddNodeToHead(head, node, nodes);
      nodes := [node] + nodes;
      assert nodes[1..] == old(nodes);
    }

    method Dequeue() returns (node: Node?)
      requires Valid()
      modifies this, head, nodes
      ensures Valid()
      ensures if old(Items()) == [] then node == null && Items() == []
              else node == old(Items())[0] && Items() == old(Items())[1..]
    {
      ReverseLength(nodes);
      if count <= 0 {
        return null;
      }
      ReverseLast(nodes);
      count := count - 1;
      node := RemoveNodeFromTail(head, nodes);
      nodes := nodes[..|nodes| - 1];
    }
  }
}
