/**
 ares__sortaddrinfo (c-ares/ares__sortaddrinfo.c): from the linked list of addresses to an array, and back
 after the array was sorted.
 */
module AddressSort {
  import opened AddressOrder

  class Node {
    const addr: Address
    var next: Node?

    constructor (addr: Address)
      ensures this.addr == addr && next == null
    {
      this.addr := addr;
      next := null;
    }
  }

  datatype Item = Item(node: Node, elem: Elem)

  ghost function NodesOf(items: seq<Item>): (r: seq<Node>)
    ensures |r| == |items| && forall i :: 0 <= i < |r| ==> r[i] == items[i].node
  {
    seq(|items|, i requires 0 <= i < |items| => items[i].node)
  }

  ghost function After(nodes: seq<Node>, i: nat): Node? {
    if i + 1 < |nodes| then nodes[i + 1] else null
  }

  ghost predicate Distinct(nodes: seq<Node>) {
    forall i, j :: 0 <= i < j < |nodes| ==> nodes[i] != nodes[j]
  }

  /** The same nodes, in any order */
  ghost predicate Rearranged(a: seq<Node>, b: seq<Node>) {
    |a| == |b| && Distinct(a) && (forall n :: n in a ==> n in b) && (forall n :: n in b ==> n in a)
  }

  /** The list after the sentinel is these nodes, in this order. */
  ghost predicate IsList(sentinel: Node, nodes: seq<Node>)
    reads sentinel, nodes
  {
    && Distinct(nodes) && sentinel !in nodes
    && sentinel.next == (if nodes == [] then null else nodes[0])
    && forall i :: 0 <= i < |nodes| ==> nodes[i].next == After(nodes, i)
  }

  /** What find_src_addr returns: -1, 0 or 1; the source address is whatever the buffer holds unless it is 1. */
  datatype Source = Fatal | Source(found: bool, addr: Address)

  /** find_src_addr: the answer of the operating system */
  method FindSource(addr: Address) returns (r: Source)
    ensures addr.OtherFamily? ==> r.Source? && !r.found
    ensures r.Source? && r.found ==> (r.addr.V6? <==> addr.V6?)
  {
    var fatal: bool, found: bool, src: Address := *, *, *;
    if addr.OtherFamily? {
      return Source(false, src);
    }
    if fatal {
      return Fatal;
    }
    r := Source(found && (src.V6? <==> addr.V6?), src);
  }

  method Length(sentinel: Node, ghost nodes: seq<Node>) returns (n: nat)
    requires IsList(sentinel, nodes)
    ensures n == |nodes|
  {
    n := 0;
    var cur := sentinel.next;
    while cur != null
      invariant n <= |nodes| && cur == if n < |nodes| then nodes[n] else null
      decreases |nodes| - n
    {
      assert nodes[n].next == After(nodes, n);
      n := n + 1;
      cur := cur.next;
    }
  }

  ghost predicate Collected(items: seq<Item>, nodes: seq<Node>) {
    |items| == |nodes| && forall i :: 0 <= i < |items| ==>
      && items[i].node == nodes[i] && items[i].elem.dst == nodes[i].addr && items[i].elem.order == i
      && (items[i].elem.hasSrc ==> (items[i].elem.src.V6? <==> items[i].elem.dst.V6?))
  }

  /** The array of elements, or false if a source address could not be looked up */
  method Collect(sentinel: Node, ghost nodes: seq<Node>) returns (ok: bool, items: seq<Item>)
    requires IsList(sentinel, nodes)
    ensures ok ==> Collected(items, nodes)
  {
    var n := Length(sentinel, nodes);
    items := [];
    var cur := sentinel.next;
    var i := 0;
    while i < n
      invariant 0 <= i <= n && |items| == i && cur == if i < |nodes| then nodes[i] else null
      invariant Collected(items, nodes[..i])
    {
      var node: Node := cur; // the assertion of the loop
      assert nodes[i].next == After(nodes, i);
      var source := FindSource(node.addr);
      if source.Fatal? {
        return false, items;
      }
      items := items + [Item(node, Elem(node.addr, source.found, source.addr, i))];
      cur := node.next;
      i := i + 1;
    }
    assert nodes[..i] == nodes;
    ok := true;
  }

  /**
   Relinks the nodes in the order of the array. The first element is read without a check that there is one;
   here the result tells whether there is.
   */
  method Relink(sentinel: Node, items: seq<Item>, ghost nodes: seq<Node>) returns (inside: bool)
    requires IsList(sentinel, nodes) && Rearranged(NodesOf(items), nodes)
    modifies sentinel, nodes
    ensures inside <==> items != []
    ensures IsList(sentinel, NodesOf(items))
  {
    ghost var now := NodesOf(items);
    if items == [] {
      return false;
    }
    inside := true;
    sentinel.next := items[0].node;
    var i := 0;
    while i < |items| - 1
      invariant 0 <= i < |items| && sentinel.next == now[0]
      invariant forall k :: 0 <= k < i ==> now[k].next == After(now, k)
    {
      assert now[i] in now;
      items[i].node.next := items[i + 1].node;
      i := i + 1;
    }
    assert now[|items| - 1] in now;
    items[|items| - 1].node.next := null;
  }

  lemma TwiceIn<T>(s: seq<T>, i: nat, j: nat)
    requires i < j < |s| && s[i] == s[j]
    ensures multiset(s)[s[i]] >= 2
  {
    assert s == s[..i] + [s[i]] + s[i + 1..j] + [s[j]] + s[j + 1..];
  }

  lemma {:induction false} OnceIn<T>(s: seq<T>, x: T)
    requires forall i, j :: 0 <= i < j < |s| ==> s[i] != s[j]
    ensures multiset(s)[x] <= 1
  {
    if s != [] {
      assert s == [s[0]] + s[1..];
      OnceIn(s[1..], x);
      assert s[0] !in s[1..];
    }
  }

  // ----- the sorted order is unique

  /** Before holds between every two elements in this order. */
  ghost predicate Ordered(s: seq<Elem>) {
    forall i, j :: 0 <= i < j < |s| ==> Before(s[i], s[j])
  }

  /** The elements of one list: different places, one family */
  ghost predicate Comparable(s: seq<Elem>) {
    && (forall a, b :: a in s && b in s && a != b ==> a.order != b.order)
    && (forall a, b :: a in s && b in s ==> OneFamily(a, b))
  }

  lemma FirstIsLeast(s: seq<Elem>, a: Elem)
    requires Ordered(s) && a in s && a != s[0]
    ensures Before(s[0], a)
  {
    var i :| 0 <= i < |s| && s[i] == a;
  }

  lemma Tail(s: seq<Elem>)
    requires s != []
    ensures s == [s[0]] + s[1..] && multiset(s[1..]) == multiset(s) - multiset{s[0]}
  {
    assert s == [s[0]] + s[1..];
  }

  /** Whatever way the array was sorted, the result is the same. */
  lemma {:induction false} SortedUnique(s: seq<Elem>, t: seq<Elem>)
    requires Ordered(s) && Ordered(t) && multiset(s) == multiset(t) && Comparable(s)
    ensures s == t
    decreases |s|
  {
    hide Before, OneFamily;
    assert |s| == |multiset(s)| && |t| == |multiset(t)|;
    if s != [] {
      assert s[0] in multiset(t) && t[0] in multiset(s);
      if s[0] != t[0] {
        FirstIsLeast(s, t[0]);
        FirstIsLeast(t, s[0]);
        BeforeTotal(s[0], t[0]);
        assert false;
      }
      Tail(s);
      Tail(t);
      assert forall a :: a in s[1..] ==> a in s;
      SortedUnique(s[1..], t[1..]);
    }
  }

  /** Neighbours in order are enough: the comparison is transitive among the elements of one list. */
  lemma {:induction false} NeighboursSuffice(s: seq<Elem>, i: nat, j: nat)
    requires i < j < |s| && Comparable(s) && (forall k, l :: 0 <= k < l < |s| ==> s[k] != s[l])
    requires forall k :: 0 <= k < |s| - 1 ==> Before(s[k], s[k + 1])
    ensures Before(s[i], s[j])
    decreases j - i
  {
    hide Before;
    if i + 1 == j {
      assert Before(s[i], s[i + 1]);
    } else {
      NeighboursSuffice(s, i, j - 1);
      assert Before(s[j - 1], s[j - 1 + 1]);
      assert s[i] in s && s[j - 1] in s && s[j] in s;
      BeforeTransitive(s[i], s[j - 1], s[j]);
    }
  }

  // ----- the whole of ares__sortaddrinfo

  ghost function ElemsOf(items: seq<Item>): (r: seq<Elem>)
    ensures |r| == |items| && forall i :: 0 <= i < |r| ==> r[i] == items[i].elem
  {
    seq(|items|, i requires 0 <= i < |items| => items[i].elem)
  }

  /** Different places in the original list, and one family */
  ghost predicate Sortable(s: seq<Elem>) {
    forall i, j :: 0 <= i < j < |s| ==> s[i].order != s[j].order && OneFamily(s[i], s[j])
  }

  // ----- in the place of qsort

  function Insert(x: Item, s: seq<Item>): (r: seq<Item>)
    ensures multiset(r) == multiset(s) + multiset{x}
  {
    if s == [] then [x]
    else if Before(x.elem, s[0].elem) then [x] + s
    else
      assert s == [s[0]] + s[1..];
      [s[0]] + Insert(x, s[1..])
  }

  function Qsort(s: seq<Item>): (r: seq<Item>)
    ensures multiset(r) == multiset(s)
  {
    if s == [] then [] else
      assert s == [s[0]] + s[1..];
      Insert(s[0], Qsort(s[1..]))
  }

  /** x may be sorted in with these. */
  ghost predicate Fits(x: Item, s: seq<Item>) {
    forall y :: y in s ==> y.elem.order != x.elem.order && OneFamily(x.elem, y.elem)
  }

  lemma OrderedCons(x: Item, s: seq<Item>)
    requires Ordered(ElemsOf(s)) && forall y :: y in s ==> Before(x.elem, y.elem)
    ensures Ordered(ElemsOf([x] + s))
  {
    hide Before;
    assert ElemsOf([x] + s) == [x.elem] + ElemsOf(s);
    forall i | 0 <= i < |s|
      ensures Before(x.elem, ElemsOf(s)[i])
    {
      assert s[i] in s;
    }
  }

  lemma {:induction false} InsertOrders(x: Item, s: seq<Item>)
    requires Ordered(ElemsOf(s)) && Sortable(ElemsOf(s)) && Fits(x, s)
    ensures Ordered(ElemsOf(Insert(x, s)))
  {
    hide Before, OneFamily;
    if s != [] {
      var e := ElemsOf(s);
      assert s == [s[0]] + s[1..] && ElemsOf(s[1..]) == e[1..] && s[0] in s;
      if Before(x.elem, s[0].elem) {
        forall y | y in s
          ensures Before(x.elem, y.elem)
        {
          var i :| 0 <= i < |s| && s[i] == y;
          assert i > 0 ==> Before(e[0], e[i]) && OneFamily(e[0], e[i]) && e[0].order != e[i].order;
          if i > 0 {
            BeforeTransitive(x.elem, e[0], y.elem);
          }
        }
        OrderedCons(x, s);
      } else {
        BeforeTotal(x.elem, s[0].elem);
        InsertOrders(x, s[1..]);
        forall y | y in Insert(x, s[1..])
          ensures Before(s[0].elem, y.elem)
        {
          assert y in multiset(Insert(x, s[1..]));
          if y != x {
            assert y in multiset(s[1..]);
            var i :| 0 <= i < |s[1..]| && s[1..][i] == y;
            assert Before(e[0], e[i + 1]);
          }
        }
        OrderedCons(s[0], Insert(x, s[1..]));
      }
    }
  }

  lemma {:induction false} SortablePerm(a: seq<Item>, b: seq<Item>)
    requires multiset(a) == multiset(b) && Sortable(ElemsOf(a))
    ensures Sortable(ElemsOf(b))
  {
    hide OneFamily;
    forall i, j | 0 <= i < j < |b|
      ensures ElemsOf(b)[i].order != ElemsOf(b)[j].order && OneFamily(ElemsOf(b)[i], ElemsOf(b)[j])
    {
      assert b[i] in multiset(a) && b[j] in multiset(a);
      var k :| 0 <= k < |a| && a[k] == b[i];
      var l :| 0 <= l < |a| && a[l] == b[j];
      if k == l {
        TwiceIn(b, i, j);
        DistinctPlaces(a);
        OnceIn(a, a[k]);
        assert false;
      }
      OneFamilySame(ElemsOf(a)[k], ElemsOf(a)[l]);
      assert ElemsOf(a)[k] == ElemsOf(b)[i] && ElemsOf(a)[l] == ElemsOf(b)[j];
      assert k < l || l < k;
    }
  }

  lemma DistinctPlaces(s: seq<Item>)
    requires Sortable(ElemsOf(s))
    ensures forall i, j :: 0 <= i < j < |s| ==> s[i] != s[j]
  {
    hide OneFamily;
    forall i, j | 0 <= i < j < |s|
      ensures s[i] != s[j]
    {
      assert ElemsOf(s)[i].order != ElemsOf(s)[j].order;
    }
  }

  lemma OneFamilySame(a: Elem, b: Elem)
    ensures OneFamily(a, b) <==> OneFamily(b, a)
  {
  }

  lemma {:induction false} QsortOrders(s: seq<Item>)
    requires Sortable(ElemsOf(s))
    ensures Ordered(ElemsOf(Qsort(s)))
  {
    hide OneFamily;
    if s != [] {
      var e := ElemsOf(s);
      assert ElemsOf(s[1..]) == e[1..];
      assert Sortable(e[1..]);
      QsortOrders(s[1..]);
      SortablePerm(s[1..], Qsort(s[1..]));
      forall y | y in Qsort(s[1..])
        ensures y.elem.order != s[0].elem.order && OneFamily(s[0].elem, y.elem)
      {
        assert y in multiset(s[1..]);
        var i :| 0 <= i < |s[1..]| && s[1..][i] == y;
        assert e[0].order != e[i + 1].order && OneFamily(e[0], e[i + 1]);
      }
      InsertOrders(s[0], Qsort(s[1..]));
    }
  }

  lemma SortedNodes(items: seq<Item>, sorted: seq<Item>, nodes: seq<Node>)
    requires Collected(items, nodes) && Distinct(nodes) && multiset(sorted) == multiset(items)
    ensures Rearranged(NodesOf(sorted), nodes)
  {
    assert |sorted| == |multiset(sorted)| && |items| == |multiset(items)|;
    forall n | n in nodes
      ensures n in NodesOf(sorted)
    {
      var i :| 0 <= i < |nodes| && nodes[i] == n;
      assert items[i] in multiset(sorted);
      var j :| 0 <= j < |sorted| && sorted[j] == items[i];
      assert NodesOf(sorted)[j] == n;
    }
    forall n | n in NodesOf(sorted)
      ensures n in nodes
    {
      var i :| 0 <= i < |sorted| && sorted[i].node == n;
      assert sorted[i] in multiset(items);
    }
    forall i, j | 0 <= i < j < |sorted|
      ensures sorted[i].node != sorted[j].node
    {
      assert sorted[i] in multiset(items) && sorted[j] in multiset(items);
      var k :| 0 <= k < |items| && items[k] == sorted[i];
      var l :| 0 <= l < |items| && items[l] == sorted[j];
      if k == l {
        TwiceIn(sorted, i, j);
        OnceIn(items, items[k]);
        assert false;
      }
      assert nodes[k] != nodes[l];
    }
  }

  datatype Outcome = Sorted | NotFound | NoElement

  /**
   ares__sortaddrinfo: the list keeps its nodes, and if their addresses are of one family they are linked
   in the order of the comparison.
   */
  method SortAddrInfo(sentinel: Node, ghost nodes: seq<Node>)
    returns (r: Outcome, ghost items: seq<Item>, ghost sorted: seq<Item>)
    requires IsList(sentinel, nodes)
    modifies sentinel, nodes
    ensures r == NotFound ==> IsList(sentinel, nodes)
    ensures r != NotFound ==>
      && Collected(items, nodes) && multiset(sorted) == multiset(items) && IsList(sentinel, NodesOf(sorted))
      && (r == NoElement <==> nodes == [])
      && ((forall i, j :: 0 <= i < j < |nodes| ==> (nodes[i].addr.V6? <==> nodes[j].addr.V6?)) ==> Ordered(ElemsOf(sorted)))
  {
    hide Before, OneFamily;
    var ok, collected := Collect(sentinel, nodes);
    items := collected;
    if !ok {
      r, sorted := NotFound, [];
      return;
    }
    var elems := Qsort(collected);
    sorted := elems;
    SortedNodes(items, elems, nodes);
    var inside := Relink(sentinel, elems, nodes);
    r := if inside then Sorted else NoElement;
    if forall i, j :: 0 <= i < j < |nodes| ==> (nodes[i].addr.V6? <==> nodes[j].addr.V6?) {
      CollectedSortable(items, nodes);
      QsortOrders(items);
    }
  }

  lemma CollectedSortable(items: seq<Item>, nodes: seq<Node>)
    requires Collected(items, nodes)
    requires forall i, j :: 0 <= i < j < |nodes| ==> (nodes[i].addr.V6? <==> nodes[j].addr.V6?)
    ensures Sortable(ElemsOf(items))
  {
    forall i, j | 0 <= i < j < |items|
      ensures ElemsOf(items)[i].order != ElemsOf(items)[j].order && OneFamily(ElemsOf(items)[i], ElemsOf(items)[j])
    {
      assert items[i].elem.dst == nodes[i].addr && items[j].elem.dst == nodes[j].addr;
    }
  }
}
