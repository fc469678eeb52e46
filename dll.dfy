/** The doubly-linked list of strings of challenges/dll.c. A list object
    holds `head`, `tail` and `len`; the nodes hold a copy of their string and
    the `prev`/`next` links. The ghost sequence `nodes` lists the nodes from
    head to tail and `contents` their strings: `Valid()` ties the links to
    that order. */
module DoublyLinked {

  /** `MAX_DATA_LEN`: the size of the buffer `create_node` copies a string
      into, terminator included. */
  const MaxDataLen := 100

  /** A C string that fits the buffer: no NUL inside, and room for the
      terminator. */
  predicate FitsBuffer(s: string)
  {
    |s| < MaxDataLen && '\0' !in s
  }

  class Node {
    const data: string
    var prev: Node?
    var next: Node?

    /** `create_node`: a fresh node holding a copy of the string. */
    constructor (data: string, prev: Node?, next: Node?)
      requires FitsBuffer(data)
      ensures this.data == data && this.prev == prev && this.next == next
    {
      this.data := data;
      this.prev := prev;
      this.next := next;
    }
  }

  /** The first index of target in s, or -1. */
  function IndexOf(s: seq<string>, target: string): (i: int)
    ensures -1 <= i < |s|
    ensures i == -1 <==> target !in s
    ensures 0 <= i ==> s[i] == target && target !in s[..i]
  {
    if s == [] then -1
    else if s[0] == target then 0
    else
      var j := IndexOf(s[1..], target);
      assert s[1..][..if j < 0 then 0 else j] == s[1..if j < 0 then 1 else j + 1];
      if j < 0 then -1 else j + 1
  }

  /** `find` after `append` of x: the earlier occurrence of x if there is
      one, otherwise the position of the new last node. */
  lemma {:induction false} IndexOfAppended(s: seq<string>, x: string)
    ensures IndexOf(s + [x], x) == if x in s then IndexOf(s, x) else |s|
  {
    if s != [] && s[0] != x {
      assert (s + [x])[1..] == s[1..] + [x];
      IndexOfAppended(s[1..], x);
    }
  }

  /** `delete` at indx undoes `insert` at indx (within the list). */
  lemma DeleteUndoesInsert(s: seq<string>, indx: nat, x: string)
    requires indx <= |s|
    ensures var t := s[..indx] + [x] + s[indx..]; t[..indx] + t[indx + 1..] == s
  {
    var t := s[..indx] + [x] + s[indx..];
    assert t[..indx] == s[..indx] && t[indx + 1..] == s[indx..];
  }

  /** The nodes ns hold the strings cs, one each, in order. */
  predicate Holds(ns: seq<Node>, cs: seq<string>)
  {
    |ns| == |cs| && forall i :: 0 <= i < |ns| ==> ns[i].data == cs[i]
  }

  /** A node holding x, put at indx, holds x at indx of the strings. */
  lemma HoldsInsert(ns: seq<Node>, cs: seq<string>, indx: nat, n: Node, x: string)
    requires Holds(ns, cs) && indx <= |ns| && n.data == x
    ensures Holds(ns[..indx] + [n] + ns[indx..], cs[..indx] + [x] + cs[indx..])
  {
    var ms, ds := ns[..indx] + [n] + ns[indx..], cs[..indx] + [x] + cs[indx..];
    forall k | 0 <= k < |ms|
      ensures ms[k].data == ds[k]
    {
      if k < indx {
        assert ms[k] == ns[k] && ds[k] == cs[k];
      } else if k > indx {
        assert ms[k] == ns[k - 1] && ds[k] == cs[k - 1];
      }
    }
  }

  /** Dropping the node at indx drops the string at indx. */
  lemma HoldsDelete(ns: seq<Node>, cs: seq<string>, indx: nat)
    requires Holds(ns, cs) && indx < |ns|
    ensures Holds(ns[..indx] + ns[indx + 1..], cs[..indx] + cs[indx + 1..])
  {
    var ms, ds := ns[..indx] + ns[indx + 1..], cs[..indx] + cs[indx + 1..];
    forall k | 0 <= k < |ms|
      ensures ms[k].data == ds[k]
    {
      if k < indx {
        assert ms[k] == ns[k] && ds[k] == cs[k];
      } else {
        assert ms[k] == ns[k + 1] && ds[k] == cs[k + 1];
      }
    }
  }

  /** The links of ns run along it: each node's `prev` is the node before
      it and its `next` the node after it, null at either end. */
  ghost predicate Linked(ns: seq<Node>)
    reads ns
  {
    (forall i {:trigger ns[i].prev} :: 0 <= i < |ns| ==>
       ns[i].prev == if i == 0 then null else ns[i - 1]) &&
    (forall i {:trigger ns[i].next} :: 0 <= i < |ns| ==>
       ns[i].next == if i == |ns| - 1 then null else ns[i + 1])
  }

  /** Linked nodes admit no cycle: the first node is the only one without
      a predecessor, so the nodes are pairwise distinct. */
  lemma {:induction false} LinkedDistinct(ns: seq<Node>, i: nat, j: nat)
    requires Linked(ns) && i < j < |ns|
    ensures ns[i] != ns[j]
    decreases i
  {
    assert ns[j].prev == ns[j - 1];
    if i > 0 {
      assert ns[i].prev == ns[i - 1];
      LinkedDistinct(ns, i - 1, j - 1);
    } else {
      assert ns[i].prev == null;
    }
  }

  /** The node at position j occurs nowhere else in linked nodes. */
  lemma LinkedElsewhere(ns: seq<Node>, j: int)
    requires Linked(ns) && 0 <= j < |ns|
    ensures forall k :: 0 <= k < |ns| && k != j ==> ns[k] != ns[j]
  {
    forall k | 0 <= k < |ns| && k != j
      ensures ns[k] != ns[j]
    {
      if k < j { LinkedDistinct(ns, k, j); } else { LinkedDistinct(ns, j, k); }
    }
  }

  /** Linking node n in at position indx: when every other link is as
      before and n sits between its neighbours, the longer sequence is
      linked. */
  lemma {:induction false} LinkedInsert(ns: seq<Node>, indx: nat, n: Node)
    requires indx <= |ns|
    requires forall k {:trigger ns[k].prev} :: 0 <= k < |ns| && k != indx ==>
      ns[k].prev == if k == 0 then null else ns[k - 1]
    requires forall k {:trigger ns[k].next} :: 0 <= k < |ns| && k != indx - 1 ==>
      ns[k].next == if k == |ns| - 1 then null else ns[k + 1]
    requires indx < |ns| ==> ns[indx].prev == n
    requires indx > 0 ==> ns[indx - 1].next == n
    requires n.prev == (if indx == 0 then null else ns[indx - 1])
    requires n.next == (if indx == |ns| then null else ns[indx])
    ensures Linked(ns[..indx] + [n] + ns[indx..])
  {
    var ms := ns[..indx] + [n] + ns[indx..];
    assert forall k :: 0 <= k < indx ==> ms[k] == ns[k];
    assert forall k :: indx < k < |ms| ==> ms[k] == ns[k - 1];
    forall k | 0 <= k < |ms|
      ensures ms[k].prev == if k == 0 then null else ms[k - 1]
    {
      if k < indx {
        assert ns[k].prev == if k == 0 then null else ns[k - 1];
      } else if k > indx + 1 {
        assert ns[k - 1].prev == ns[k - 2];
      }
    }
    forall k | 0 <= k < |ms|
      ensures ms[k].next == if k == |ms| - 1 then null else ms[k + 1]
    {
      if k < indx - 1 {
        assert ns[k].next == ns[k + 1];
      } else if k > indx {
        assert ns[k - 1].next == if k - 1 == |ns| - 1 then null else ns[k];
      }
    }
  }

  /** Unlinking the node at position indx: when every other link is as
      before and its neighbours now point at each other, the shorter
      sequence is linked. */
  lemma {:induction false} LinkedDelete(ns: seq<Node>, indx: nat)
    requires indx < |ns|
    requires forall k {:trigger ns[k].prev} :: 0 <= k < |ns| && k != indx + 1 ==>
      ns[k].prev == if k == 0 then null else ns[k - 1]
    requires forall k {:trigger ns[k].next} :: 0 <= k < |ns| && k != indx - 1 ==>
      ns[k].next == if k == |ns| - 1 then null else ns[k + 1]
    requires indx + 1 < |ns| ==> ns[indx + 1].prev == if indx == 0 then null else ns[indx - 1]
    requires indx > 0 ==> ns[indx - 1].next == if indx + 1 == |ns| then null else ns[indx + 1]
    ensures Linked(ns[..indx] + ns[indx + 1..])
  {
    var ms := ns[..indx] + ns[indx + 1..];
    assert forall k :: 0 <= k < indx ==> ms[k] == ns[k];
    assert forall k :: indx <= k < |ms| ==> ms[k] == ns[k + 1];
    forall k | 0 <= k < |ms|
      ensures ms[k].prev == if k == 0 then null else ms[k - 1]
    {
      if k < indx {
        assert ns[k].prev == if k == 0 then null else ns[k - 1];
      } else if k > indx {
        assert ns[k + 1].prev == ns[k];
      }
    }
    forall k | 0 <= k < |ms|
      ensures ms[k].next == if k == |ms| - 1 then null else ms[k + 1]
    {
      if k < indx - 1 {
        assert ns[k].next == ns[k + 1];
      } else if k >= indx {
        assert ns[k + 1].next == if k + 1 == |ns| - 1 then null else ns[k + 2];
      }
    }
  }

  class DoublyLinkedList {
    var head: Node?
    var tail: Node?
    var len: int
    /** The nodes from head to tail. */
    ghost var nodes: seq<Node>
    /** Their strings, in the same order. */
    ghost var contents: seq<string>

    ghost predicate Valid()
      reads this, nodes
    {
      len == |nodes| && Holds(nodes, contents) &&
      head == (if nodes == [] then null else nodes[0]) &&
      tail == (if nodes == [] then null else nodes[|nodes| - 1]) &&
      Linked(nodes)
    }

    /** `create_doubly_linked_list`: one node, both head and tail, unlinked. */
    constructor (data: string)
      requires FitsBuffer(data)
      ensures Valid() && fresh(nodes)
      ensures contents == [data] && len == 1 && head == tail && head != null
      ensures head.prev == null && head.next == null
    {
      var n := new Node(data, null, null);
      head := n;
      tail := n;
      len := 1;
      nodes := [n];
      contents := [data];
    }

    /** `find`: the index of the first node holding target, or -1. */
    method Find(target: string) returns (i: int)
      requires Valid()
      ensures i == IndexOf(contents, target)
    {
      var t := head;
      i := 0;
      while t != null
        invariant 0 <= i <= |nodes|
        invariant t == if i < |nodes| then nodes[i] else null
        invariant target !in contents[..i]
        decreases |nodes| - i
      {
        if t.data == target {
          return;
        }
        t := t.next;
        i := i + 1;
      }
      return -1;
    }

    /** `append`: a new tail node holding data. */
    method Append(data: string)
      requires Valid() && FitsBuffer(data)
      modifies this, nodes
      ensures Valid() && fresh(tail)
      ensures contents == old(contents) + [data] && len == old(len) + 1
      ensures nodes == old(nodes) + [tail]
      ensures old(len) == 0 ==> head == tail
      ensures old(len) > 0 ==> head == old(head)
    {
      ghost var ns := nodes;
      if ns != [] {
        LinkedElsewhere(ns, |ns| - 1);
      }
      var n;
      if head == null {
        n := new Node(data, null, null);
        head := n;
        tail := n;
      } else if head == tail {
        n := new Node(data, head, null);
        head.next := n;
        tail := n;
      } else {
        n := new Node(data, tail, null);
        tail.next := n;
        tail := n;
      }
      assert forall k {:trigger ns[k].prev} :: 0 <= k < |ns| ==> ns[k].prev == old(ns[k].prev);
      assert forall k {:trigger ns[k].next} :: 0 <= k < |ns| - 1 ==> ns[k].next == old(ns[k].next);
      len, nodes, contents := len + 1, ns + [n], contents + [data];
      assert ns + [n] == ns[..|ns|] + [n] + ns[|ns|..];
      InsertedValid(ns, old(contents), |ns|, n);
    }

    /** `insert`: a new node holding data at position indx, the nodes from
        indx on moving one place back. Past the end nothing changes (the
        message printed then is left out); at the end it is `append`. A
        negative index would walk off the list in the C code. */
    method Insert(indx: int, data: string)
      requires Valid() && FitsBuffer(data) && indx >= 0
      modifies this, nodes
      ensures Valid()
      ensures indx > old(len) ==> unchanged(this) && unchanged(old(nodes))
      ensures indx == old(len) ==>
        contents == old(contents) + [data] && len == old(len) + 1 &&
        fresh(tail) && nodes == old(nodes) + [tail]
      ensures indx < old(len) ==>
        contents == old(contents)[..indx] + [data] + old(contents)[indx..] && len == old(len) + 1 &&
        fresh(nodes[indx]) && nodes == old(nodes)[..indx] + [nodes[indx]] + old(nodes)[indx..] &&
        (head == nodes[indx] <==> indx == 0) && tail == old(tail)
    {
      if indx > len {
        return;
      }
      if indx == len {
        Append(data);
        return;
      }
      InsertBefore(indx, data);
    }

    /** The walk from the head to position indx that `insert` and `delete`
        start with. */
    method NodeAt(indx: int) returns (t: Node)
      requires Valid() && 0 <= indx < len
      ensures t == nodes[indx]
    {
      t := head;
      var i := 0;
      while i != indx
        invariant 0 <= i <= indx && t == nodes[i]
        decreases indx - i
      {
        assert nodes[i].next == nodes[i + 1];
        t := t.next;
        i := i + 1;
      }
    }

    /** The case of `insert` inside the list: the new node goes between the
        node at indx and its predecessor. */
    method InsertBefore(indx: int, data: string)
      requires Valid() && FitsBuffer(data) && 0 <= indx < len
      modifies this, nodes
      ensures Valid()
      ensures contents == old(contents)[..indx] + [data] + old(contents)[indx..] && len == old(len) + 1
      ensures fresh(nodes[indx]) && nodes == old(nodes)[..indx] + [nodes[indx]] + old(nodes)[indx..]
      ensures (head == nodes[indx] <==> indx == 0) && tail == old(tail)
    {
      var t := NodeAt(indx);
      ghost var ns := nodes;
      ghost var p := t.prev;
      assert t.prev == if indx == 0 then null else ns[indx - 1];
      assert indx > 0 ==> ns[indx - 1].next == t;
      LinkedElsewhere(ns, indx);
      if indx > 0 {
        LinkedElsewhere(ns, indx - 1);
      }
      var n := LinkBefore(t, data);
      if indx == 0 {
        head := n;
      }
      assert forall k {:trigger ns[k].prev} :: 0 <= k < |ns| && k != indx ==> ns[k].prev == old(ns[k].prev);
      assert forall k {:trigger ns[k].next} :: 0 <= k < |ns| && k != indx - 1 ==> ns[k].next == old(ns[k].next);
      len, nodes, contents := len + 1, ns[..indx] + [n] + ns[indx..], contents[..indx] + [data] + contents[indx..];
      InsertedValid(ns, old(contents), indx, n);
    }

    /** The list after a node n is linked in at position indx of the nodes
        ns holding cs: valid, with n at the head exactly when indx is 0. */
    lemma InsertedValid(ns: seq<Node>, cs: seq<string>, indx: nat, n: Node)
      requires indx <= |ns| && Holds(ns, cs)
      requires nodes == ns[..indx] + [n] + ns[indx..] && contents == cs[..indx] + [n.data] + cs[indx..]
      requires len == |nodes| && head == (if indx == 0 then n else ns[0])
      requires tail == if indx == |ns| then n else ns[|ns| - 1]
      requires forall k {:trigger ns[k].prev} :: 0 <= k < |ns| && k != indx ==>
        ns[k].prev == if k == 0 then null else ns[k - 1]
      requires forall k {:trigger ns[k].next} :: 0 <= k < |ns| && k != indx - 1 ==>
        ns[k].next == if k == |ns| - 1 then null else ns[k + 1]
      requires (indx < |ns| ==> ns[indx].prev == n) && (indx > 0 ==> ns[indx - 1].next == n)
      requires n.prev == (if indx == 0 then null else ns[indx - 1])
      requires n.next == if indx == |ns| then null else ns[indx]
      ensures Valid() && (head == nodes[indx] <==> indx == 0)
    {
      LinkedInsert(ns, indx, n);
      HoldsInsert(ns, cs, indx, n, n.data);
      assert nodes[0] == (if indx == 0 then n else ns[0]);
      assert nodes[|nodes| - 1] == if indx == |ns| then n else ns[|ns| - 1];
      if indx > 0 {
        LinkedDistinct(nodes, 0, indx);
      }
    }

    /** The relinking in `insert`: a new node holding data between t and
        its predecessor, if any. */
    static method LinkBefore(t: Node, data: string) returns (n: Node)
      requires FitsBuffer(data) && t.prev != t
      modifies t, t.prev
      ensures fresh(n) && n.data == data && n.prev == old(t.prev) && n.next == t
      ensures t.prev == n && t.next == old(t.next)
      ensures old(t.prev) != null ==> old(t.prev).next == n && old(t.prev).prev == old(t.prev.prev)
    {
      n := new Node(data, t.prev, t);
      if t.prev != null {
        t.prev.next := n;
      }
      t.prev := n;
    }

    /** `delete`: the node at position indx is unlinked, the nodes after it
        moving one place forward. Past the end nothing changes (the message
        printed then is left out). Freeing the node is left out. */
    method Delete(indx: int)
      requires Valid() && indx >= 0
      modifies this, nodes
      ensures Valid()
      ensures indx >= old(len) ==> unchanged(this) && unchanged(old(nodes))
      ensures indx < old(len) ==>
        contents == old(contents)[..indx] + old(contents)[indx + 1..] && len == old(len) - 1 &&
        nodes == old(nodes)[..indx] + old(nodes)[indx + 1..]
      ensures indx < old(len) && old(len) == 1 ==> head == null && tail == null && len == 0
    {
      if indx >= len {
        return;
      }
      var t := NodeAt(indx);
      ghost var ns := nodes;
      if len == 1 {
        head := null;
        tail := null;
        len := len - 1;
        nodes := [];
        contents := [];
        return;
      }
      Unlink(indx, t);
    }

    /** The unlinking in `delete` of the node t at position indx, from a
        list of two or more nodes: its neighbours are joined, or the head or
        the tail moves on to the other one. */
    method Unlink(indx: int, t: Node)
      requires Valid() && 1 < len && 0 <= indx < len && t == nodes[indx]
      modifies this, nodes
      ensures Valid()
      ensures contents == old(contents)[..indx] + old(contents)[indx + 1..] && len == old(len) - 1
      ensures nodes == old(nodes)[..indx] + old(nodes)[indx + 1..]
    {
      ghost var ns := nodes;
      assert t.prev == if indx == 0 then null else ns[indx - 1];
      assert t.next == if indx == |ns| - 1 then null else ns[indx + 1];
      if indx > 0 {
        LinkedElsewhere(ns, indx - 1);
      }
      if indx + 1 < |ns| {
        LinkedElsewhere(ns, indx + 1);
      }
      nodes := ns[..indx] + ns[indx + 1..];
      contents := contents[..indx] + contents[indx + 1..];
      if indx == 0 {
        t.next.prev := null;
        head := t.next;
      } else if indx == len - 1 {
        t.prev.next := null;
        tail := t.prev;
      } else {
        t.prev.next := t.next;
        t.next.prev := t.prev;
      }
      len := len - 1;
      assert forall k {:trigger ns[k].prev} :: 0 <= k < |ns| && k != indx + 1 ==> ns[k].prev == old(ns[k].prev);
      assert forall k {:trigger ns[k].next} :: 0 <= k < |ns| && k != indx - 1 ==> ns[k].next == old(ns[k].next);
      LinkedDelete(ns, indx);
      HoldsDelete(ns, old(contents), indx);
    }
  }
}
