/**
 The circular doubly-linked lists of c-ares (c-ares/ares_llist.c). A list has a dummy head;
 its nodes are embedded in the objects they list. The ghost argument `ring` of the methods
 names the head followed by the nodes, in the order of the `next` links.
 */
module AresList {

  class Node {
    var prev: Node?
    var next: Node?
    var data: nat  // the object the node is embedded in

    constructor ()
      ensures prev == null && next == null
    {
      prev, next, data := null, null, 0;
    }
  }

  ghost predicate Distinct(ring: seq<Node>) {
    forall i, j :: 0 <= i < j < |ring| ==> ring[i] != ring[j]
  }

  /** The place after i in a ring of n. */
  ghost function After(i: int, n: int): int {
    if i + 1 == n then 0 else i + 1
  }

  /** The node at place i and the one after it point at each other. */
  ghost predicate Joined(ring: seq<Node>, i: int)
    reads ring
  {
    0 <= i < |ring| &&
    ring[i].next == ring[After(i, |ring|)] && ring[After(i, |ring|)].prev == ring[i]
  }

  ghost predicate IsRing(ring: seq<Node>)
    reads ring
  {
    |ring| > 0 && Distinct(ring) && forall i :: 0 <= i < |ring| ==> Joined(ring, i)
  }

  /** ares__init_list_head */
  method InitListHead(head: Node)
    modifies head
    ensures IsRing([head])
  {
    head.prev := head;
    head.next := head;
    head.data := 0;
  }

  /** ares__init_list_node */
  method InitListNode(node: Node, d: nat)
    modifies node
    ensures node.prev == null && node.next == null && node.data == d
  {
    node.prev := null;
    node.next := null;
    node.data := d;
  }

  /** ares__is_list_empty */
  method IsListEmpty(head: Node, ghost ring: seq<Node>) returns (empty: bool)
    requires IsRing(ring) && ring[0] == head
    ensures empty <==> |ring| == 1
  {
    assert Joined(ring, 0) && Joined(ring, |ring| - 1);
    empty := head.next == head && head.prev == head;
  }

  /** The ring with a node put before the one at place k; before the head means at the end. */
  ghost function Inserted(ring: seq<Node>, k: nat, node: Node): seq<Node>
    requires k < |ring|
  {
    if k == 0 then ring + [node] else ring[..k] + [node] + ring[k..]
  }

  /** ares__insert_in_list */
  method InsertInList(newNode: Node, oldNode: Node, ghost ring: seq<Node>, ghost k: nat)
    requires IsRing(ring) && k < |ring| && ring[k] == oldNode && newNode !in ring
    modifies newNode`next, newNode`prev, ring`next, ring`prev
    ensures IsRing(Inserted(ring, k, newNode))
  {
    ghost var n := |ring|;
    ghost var p := if k == 0 then n - 1 else k - 1;
    assert Joined(ring, p);
    newNode.next := oldNode;
    newNode.prev := oldNode.prev;
    oldNode.prev.next := newNode;
    oldNode.prev := newNode;
    ghost var r := Inserted(ring, k, newNode);
    forall i | 0 <= i < |r|
      ensures Joined(r, i)
    {
      ghost var at := if k == 0 then n else k;
      assert r[at] == newNode;
      ghost var m := if i <= at then i else i - 1;
      assert i != at ==> r[i] == ring[m] && old(Joined(ring, m));
    }
  }

  /** ares__remove_from_list. A node that is in no list (k is 0) stays as it is. */
  method RemoveFromList(node: Node, ghost ring: seq<Node>, ghost k: nat)
    requires k == 0 ==> node.next == null
    requires k > 0 ==> IsRing(ring) && k < |ring| && ring[k] == node
    modifies node`next, node`prev, ring`next, ring`prev
    ensures k == 0 ==> node.prev == old(node.prev) && forall x :: x in ring ==> x.next == old(x.next) && x.prev == old(x.prev)
    ensures k > 0 ==> IsRing(ring[..k] + ring[k + 1..]) && node.prev == null
    ensures node.next == null
  {
    assert k > 0 ==> Joined(ring, k) && Joined(ring, k - 1);
    if node.next != null {
      node.prev.next := node.next;
      node.next.prev := node.prev;
      node.prev := null;
      node.next := null;
      ghost var r := ring[..k] + ring[k + 1..];
      forall i | 0 <= i < |r|
        ensures Joined(r, i)
      {
        ghost var m := if i < k then i else i + 1;
        assert r[i] == ring[m] && old(Joined(ring, m));
      }
    }
  }

  /** The nodes of a list without their head: linked to each other in order. */
  ghost predicate IsChain(nodes: seq<Node>)
    reads nodes
  {
    && Distinct(nodes)
    && forall i :: 0 <= i < |nodes| - 1 ==> nodes[i].next == nodes[i + 1] && nodes[i + 1].prev == nodes[i]
  }

  lemma RingChain(ring: seq<Node>)
    requires IsRing(ring)
    ensures IsChain(ring[1..])
    ensures |ring| > 1 ==> ring[0].next == ring[1] && ring[0].prev == ring[|ring| - 1]
  {
    var nodes := ring[1..];
    assert Joined(ring, 0) && Joined(ring, |ring| - 1);
    forall i | 0 <= i < |nodes| - 1
      ensures nodes[i].next == nodes[i + 1] && nodes[i + 1].prev == nodes[i]
    {
      assert Joined(ring, i + 1);
    }
  }

  /** One half of swap_lists: `head` becomes the head of a chain of nodes. */
  method TakeOver(head: Node, first: Node, last: Node, ghost nodes: seq<Node>)
    requires IsChain(nodes) && nodes != [] && first == nodes[0] && last == nodes[|nodes| - 1] && head !in nodes
    modifies head`next, head`prev, first`prev, last`next
    ensures IsRing([head] + nodes)
  {
    head.next := first;
    head.prev := last;
    first.prev := head;
    last.next := head;
    ghost var r := [head] + nodes;
    forall i | 0 <= i < |r|
      ensures Joined(r, i)
    {
      assert i > 0 ==> r[i] == nodes[i - 1];
    }
  }

  /** swap_lists: the two heads exchange their nodes. */
  method SwapLists(a: Node, b: Node, ghost xs: seq<Node>, ghost ys: seq<Node>)
    requires IsRing([a] + xs) && IsRing([b] + ys) && a != b && a !in ys && b !in xs
    requires forall i, j :: 0 <= i < |xs| && 0 <= j < |ys| ==> xs[i] != ys[j]
    modifies a, b, xs`next, xs`prev, ys`next, ys`prev
    ensures IsRing([a] + ys) && IsRing([b] + xs)
  {
    RingChain([a] + xs);
    RingChain([b] + ys);
    assert ([a] + xs)[1..] == xs && ([b] + ys)[1..] == ys;
    var aEmpty := IsListEmpty(a, [a] + xs);
    var bEmpty := IsListEmpty(b, [b] + ys);
    var aFirst, aLast, bFirst, bLast := a.next, a.prev, b.next, b.prev;
    if aEmpty {
      InitListHead(b);
      assert [b] + xs == [b];
    } else {
      assert aFirst == xs[0] && aLast == xs[|xs| - 1];
      TakeOver(b, aFirst, aLast, xs);
    }
    forall j | 0 <= j < |ys| - 1
      ensures ys[j].next == ys[j + 1] && ys[j + 1].prev == ys[j]
    {
      assert old(ys[j].next == ys[j + 1] && ys[j + 1].prev == ys[j]);
      assert ys[j] in ys && ys[j + 1] in ys;
    }
    label half:
    if bEmpty {
      InitListHead(a);
      assert [a] + ys == [a];
    } else {
      assert bFirst == ys[0] && bLast == ys[|ys| - 1];
      TakeOver(a, bFirst, bLast, ys);
    }
    forall i | 0 <= i < |[b] + xs|
      ensures Joined([b] + xs, i)
    {
      assert old@half(Joined([b] + xs, i));
      assert i > 0 ==> ([b] + xs)[i] == xs[i - 1] && xs[i - 1] in xs;
    }
  }
}
