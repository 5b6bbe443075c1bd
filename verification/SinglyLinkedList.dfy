/** The intrusive singly linked list of slist.c, with the sequence of the nodes after the head as a ghost argument. */
module SinglyLinkedList {
  class Node {
    var next: Node?

    constructor () {
      next := null;
    }
  }

  /** The pointers met on the way from the head to the end. */
  ghost function Walk(head: Node, s: seq<Node>): seq<Node?> { [head] + s + [null] }

  ghost predicate Points(a: Node?, b: Node?)
    reads a
  {
    a != null && a.next == b
  }

  /** No node occurs twice. */
  ghost predicate Distinct(head: Node, s: seq<Node>) {
    var p := Walk(head, s);
    forall i, j :: 0 <= i < j <= |s| ==> p[i] != p[j]
  }

  /** The list from `head` through the nodes of `s` to null. */
  ghost predicate Chain(head: Node, s: seq<Node>)
    reads head, s
  {
    Distinct(head, s) && forall i :: 0 <= i <= |s| ==> Points(Walk(head, s)[i], Walk(head, s)[i + 1])
  }

  ghost function InsertedAt(s: seq<Node>, k: nat, n: Node): seq<Node>
    requires k <= |s|
  {
    s[..k] + [n] + s[k..]
  }

  ghost function Without(s: seq<Node>, k: nat): seq<Node>
    requires k < |s|
  {
    s[..k] + s[k + 1..]
  }

  lemma Occurrence(head: Node, s: seq<Node>, k: nat, l: nat)
    requires Distinct(head, s) && k < |s| && l < |s| && s[k] == s[l]
    ensures k == l
  {
    assert Walk(head, s)[k + 1] == Walk(head, s)[l + 1];
  }

  /** A node linked in after the `k`-th pointer of a chain. */
  lemma Spliced(head: Node, s: seq<Node>, k: nat, node: Node)
    requires k <= |s| && node != head && node !in s && Distinct(head, s)
    requires var p := Walk(head, s);
      Points(p[k], node) && Points(node, p[k + 1]) && forall i :: 0 <= i <= |s| && i != k ==> Points(p[i], p[i + 1])
    ensures Chain(head, InsertedAt(s, k, node))
  {
    var p, q := Walk(head, s), Walk(head, InsertedAt(s, k, node));
    assert q == p[..k + 1] + [node] + p[k + 1..];
    forall i | 0 <= i <= |s| + 1 ensures Points(q[i], q[i + 1]) {
      if i < k {
        assert Points(p[i], p[i + 1]);
      } else if i > k + 1 {
        assert Points(p[i - 1], p[i]);
      }
    }
  }

  /** SlInitHead. */
  method InitHead(head: Node)
    modifies head
    ensures Chain(head, [])
  {
    head.next := null;
  }

  method AddNodeToTail(head: Node?, node: Node?, ghost s: seq<Node>)
    requires head != null ==> Chain(head, s)
    requires head != null && node != null ==> node != head && node !in s
    modifies head, s, node
    ensures head != null ==> if node == null then Chain(head, s) else Chain(head, s + [node])
    ensures node != null && head == null ==> node.next == old(node.next)
  {
    if head == null {
      return;
    }
    if node == null {
      return;
    }
    ghost var p := Walk(head, s);
    var current := head;
    ghost var k := 0;
    while current.next != null
      invariant k <= |s| && current == p[k]
      decreases |s| - k
    {
      assert Points(p[k], p[k + 1]);
      current := current.next;
      k := k + 1;
    }
    assert Points(p[k], p[k + 1]);
    current.next := node;
    node.next := null;
    ghost var q := Walk(head, s + [node]);
    assert q[..|s| + 1] == p[..|s| + 1] && forall i :: 0 <= i <= |s| ==> q[i] == p[i];
    forall i | 0 <= i <= |s| + 1 ensures Points(q[i], q[i + 1]) {
      if i < |s| {
        assert old(Points(p[i], p[i + 1]));
      }
    }
  }

  method InsertNodeAfter(marker: Node?, node: Node?, ghost head: Node, ghost s: seq<Node>, ghost k: nat)
    requires Chain(head, s) && k <= |s|
    requires marker != null ==> marker == Walk(head, s)[k]
    requires node != null ==> node != head && node !in s
    modifies head, s, node
    ensures if marker == null || node == null then Chain(head, s) else Chain(head, InsertedAt(s, k, node))
    ensures node != null && marker == null ==> node.next == old(node.next)
  {
    if marker == null {
      return;
    }
    if node == null {
      return;
    }
    ghost var p := Walk(head, s);
    assert Points(p[k], p[k + 1]);
    var temp := marker.next;
    marker.next := node;
    node.next := temp;
    forall i | 0 <= i <= |s| && i != k ensures Points(p[i], p[i + 1]) {
      assert old(Points(p[i], p[i + 1]));
    }
    Spliced(head, s, k, node);
  }

  method InsertNodeBefore(head: Node?, marker: Node?, node: Node?, ghost s: seq<Node>)
    requires head != null ==> Chain(head, s)
    requires head != null && node != null ==> node != head && node !in s
    modifies head, s, node
    ensures head != null ==>
      if marker == null || node == null || marker !in s then Chain(head, s)
      else forall k :: 0 <= k < |s| && s[k] == marker ==> Chain(head, InsertedAt(s, k, node))
    ensures node != null && (head == null || marker == null || marker !in s) ==> node.next == old(node.next)
  {
    if marker == null {
      return;
    }
    if node == null {
      return;
    }
    if head == null {
      return;
    }
    ghost var p := Walk(head, s);
    assert Points(p[0], p[1]);
    var current, prior, found := head.next, head, false;
    ghost var k := 0;
    while current != null
      invariant k <= |s| && prior == p[k] && current == p[k + 1] && marker !in s[..k]
      decreases |s| - k
    {
      if current == marker {
        found := true;
        break;
      }
      assert Points(p[k + 1], p[k + 2]);
      prior := current;
      current := current.next;
      k := k + 1;
    }
    if found {
      prior.next := node;
      node.next := current;
      forall i | 0 <= i <= |s| && i != k ensures Points(p[i], p[i + 1]) {
        assert old(Points(p[i], p[i + 1]));
      }
      Spliced(head, s, k, node);
      forall l | 0 <= l < |s| && s[l] == marker ensures l == k {
        Occurrence(head, s, k, l);
      }
    }
  }

  method RemoveNode(head: Node?, node: Node?, ghost s: seq<Node>)
    requires head != null ==> Chain(head, s)
    modifies head, s
    ensures head != null ==>
      if node == null || node !in s then Chain(head, s)
      else forall k :: 0 <= k < |s| && s[k] == node ==> Chain(head, Without(s, k))
  {
    if head == null {
      return;
    }
    if node == null {
      return;
    }
    ghost var p := Walk(head, s);
    assert Points(p[0], p[1]);
    var current, prior, found := head.next, head, false;
    ghost var k := 0;
    while current != null
      invariant k <= |s| && prior == p[k] && current == p[k + 1] && node !in s[..k]
      decreases |s| - k
    {
      if current == node {
        found := true;
        break;
      }
      assert Points(p[k + 1], p[k + 2]);
      prior := current;
      current := current.next;
      k := k + 1;
    }
    if found {
      assert Points(p[k + 1], p[k + 2]);
      forall l | 0 <= l < |s| && s[l] == node ensures l == k {
        Occurrence(head, s, k, l);
      }
      prior.next := current.next;
      ghost var q := Walk(head, Without(s, k));
      assert q == p[..k + 1] + p[k + 2..];
      forall i | 0 <= i < |s| ensures Points(q[i], q[i + 1]) {
        if i < k {
          assert old(Points(p[i], p[i + 1]));
        } else if i > k {
          assert old(Points(p[i + 1], p[i + 2]));
        }
      }
    }
  }

  method RemoveNodeFromHead(head: Node?, ghost s: seq<Node>) returns (node: Node?)
    requires head != null ==> Chain(head, s)
    modifies head
    ensures head == null || s == [] ==> node == null
    ensures head != null && s == [] ==> Chain(head, s)
    ensures head != null && s != [] ==> node == s[0] && Chain(head, s[1..])
  {
    if head == null {
      return null;
    }
    ghost var p := Walk(head, s);
    assert Points(p[0], p[1]);
    node := head.next;
    if node != null {
      assert Points(p[1], p[2]);
      head.next := node.next;
      ghost var q := Walk(head, s[1..]);
      assert q == [head] + p[2..];
      forall i | 0 <= i < |s| ensures Points(q[i], q[i + 1]) {
        if i > 0 {
          assert old(Points(p[i + 1], p[i + 2]));
        }
      }
    }
  }

  method RemoveNodeFromTail(head: Node?, ghost s: seq<Node>) returns (node: Node?)
    requires head != null ==> Chain(head, s)
    modifies head, s
    ensures head == null || s == [] ==> node == null
    ensures head != null && s == [] ==> Chain(head, s)
    ensures head != null && s != [] ==> node == s[|s| - 1] && Chain(head, s[..|s| - 1])
  {
    if head == null {
      return null;
    }
    ghost var p := Walk(head, s);
    assert Points(p[0], p[1]);
    var current, prior := head.next, head;
    if head.next == null {
      return null;
    }
    ghost var k := 0;
    assert Points(p[1], p[2]);
    while current.next != null
      invariant k < |s| && prior == p[k] && current == s[k] && Points(p[k + 1], p[k + 2])
      decreases |s| - k
    {
      assert Points(p[k + 1], p[k + 2]);
      prior := current;
      current := current.next;
      k := k + 1;
    }
    prior.next := null;
    node := current;
    ghost var q := Walk(head, s[..|s| - 1]);
    assert forall i :: 0 <= i < |s| ==> q[i] == p[i];
    forall i | 0 <= i < |s| ensures Points(q[i], q[i + 1]) {
      if i < k {
        assert old(Points(p[i], p[i + 1]));
      }
    }
  }

  /** A chain has one reading only: the pointers determine the sequence. */
  lemma {:induction false} ChainIsUnique(head: Node, s: seq<Node>, t: seq<Node>, k: nat)
    requires Chain(head, s) && Chain(head, t) && k <= |s| && k <= |t| && s[..k] == t[..k]
    ensures s == t
    decreases |s| - k
  {
    var p, q := Walk(head, s), Walk(head, t);
    assert p[k] == q[k] by {
      assert k > 0 ==> p[k] == s[..k][k - 1] && q[k] == t[..k][k - 1];
    }
    assert Points(p[k], p[k + 1]) && Points(q[k], q[k + 1]);
    if k < |s| && k < |t| {
      assert s[..k + 1] == s[..k] + [s[k]] && t[..k + 1] == t[..k] + [t[k]];
      ChainIsUnique(head, s, t, k + 1);
    }
  }
}

/** The LIFO stack of stack_simple.c. */
module SimpleStack {
  import opened SinglyLinkedList

  class Stack {
    var count: int
    const head: Node
    ghost var items: seq<Node>     // the last pushed first

    ghost predicate Valid()
      reads this, head, items
    {
      Chain(head, items) && count == |items|
    }

    /** InitStack. */
    constructor ()
      ensures Valid() && items == [] && fresh(head)
    {
      count := 0;
      head := new Node();
      items := [];
      new;
      InitHead(head);
    }

    method PushOnStack(node: Node?)
      requires Valid() && (node != null ==> node != head && node !in items)
      modifies this, head, items, node
      ensures Valid() && items == (if node == null then [] else [node]) + old(items)
    {
      if node == null {
        return;
      }
      InsertNodeAfter(head, node, head, items, 0);
      assert InsertedAt(items, 0, node) == [node] + items;
      count := count + 1;
      items := [node] + items;
    }

    method PopOffStack() returns (node: Node?)
      requires Valid()
      modifies this, head
      ensures Valid()
      ensures if old(items) == [] then node == null && items == []
              else node == old(items)[0] && items == old(items)[1..]
    {
      if count == 0 {
        return null;
      } else {
        count := count - 1;
      }
      node := RemoveNodeFromHead(head, items);
      items := items[1..];
    }
  }
}
