/**
 The timeout heap of the State Threads scheduler (st-1.9/sched.c).

 Sleeping threads are the nodes of a pointer tree. There is no array: a node is
 found by walking from the root along the binary digits of its index. The ghost
 sequence `heap` says which thread stands at which index, and every pointer is
 proved to agree with it.
 */
module TimeoutHeap {

  import opened ThreadStates

  class Thread {
    var due: int
    var left: Thread?
    var right: Thread?
    var heapIndex: int
    var onSleepq: bool
    var timedOut: bool
    var state: RunState

    constructor ()
      ensures !onSleepq && !timedOut && left == null && right == null
    {
      due, left, right, heapIndex := 0, null, null, 0;
      onSleepq, timedOut, state := false, false, Running;
    }
  }

  /** The C variable `_st_thread_t **p`: the address of one link of the tree. */
  datatype Slot = RootSlot | LeftSlot(owner: Thread) | RightSlot(owner: Thread)

  // ----- indices and their binary digits

  /** `n >> b` */
  function Shr(n: nat, b: nat): nat {
    if b == 0 then n else Shr(n, b - 1) / 2
  }

  /** `n & (1 << b)` is not zero */
  predicate BitSet(n: nat, b: nat) {
    Shr(n, b) % 2 == 1
  }

  lemma {:induction false} ShrAtMostHalf(n: nat, b: nat)
    requires b > 0
    ensures 2 * Shr(n, b) <= n
  {
    if b > 1 {
      ShrAtMostHalf(n, b - 1);
    }
  }

  /** The counting loop at the head of heap_insert and heap_delete. */
  method BitLength(n: nat) returns (bits: int)
    requires n > 0
    ensures bits > 0 && Shr(n, bits - 1) == 1
  {
    var s := n;
    bits := 0;
    while s != 0
      invariant 0 <= bits && s == Shr(n, bits)
      invariant bits > 0 ==> Shr(n, bits - 1) > 0
      decreases s
    {
      s := s / 2;
      bits := bits + 1;
    }
  }

  // ----- what the tree means

  /** The thread at index i, or null when the index is not in use. */
  ghost function At(h: seq<Thread>, i: int): Thread? {
    if 1 <= i <= |h| then h[i - 1] else null
  }

  ghost predicate Distinct(h: seq<Thread>) {
    forall i, j :: 0 <= i < j < |h| ==> h[i] != h[j]
  }

  ghost function Members(h: seq<Thread>): set<Thread> {
    set t | t in h
  }

  /** The node at index i knows its index and points at its two children. */
  ghost predicate Linked(h: seq<Thread>, i: int)
    reads if 1 <= i <= |h| then {h[i - 1]} else {}
  {
    1 <= i <= |h| &&
    h[i - 1].left == At(h, 2 * i) && h[i - 1].right == At(h, 2 * i + 1) && h[i - 1].heapIndex == i
  }

  /** A complete binary tree over the indices 1..|h|, each node knowing its index. */
  ghost predicate Shape(h: seq<Thread>, root: Thread?)
    reads h
  {
    root == At(h, 1) && Distinct(h) && forall i :: 1 <= i <= |h| ==> Linked(h, i)
  }

  /** As `Shape`, but the node at index k need not know its index or its children. */
  ghost predicate ShapeBut(h: seq<Thread>, root: Thread?, k: int)
    reads h
  {
    root == At(h, 1) && Distinct(h) && forall i :: 1 <= i <= |h| && i != k ==> Linked(h, i)
  }

  /** The node at index i is due no earlier than its parent. */
  ghost predicate InOrder(h: seq<Thread>, due: Thread -> int, i: int) {
    2 <= i <= |h| && due(h[i / 2 - 1]) <= due(h[i - 1])
  }

  ghost predicate MinOrdered(h: seq<Thread>, due: Thread -> int) {
    forall i :: 2 <= i <= |h| ==> InOrder(h, due, i)
  }

  /** Min-ordered, except that the node at index k may be later than its children. */
  ghost predicate MinOrderedBut(h: seq<Thread>, due: Thread -> int, k: int) {
    && (forall i :: 2 <= i <= |h| && i / 2 != k ==> InOrder(h, due, i))
    && (1 < k && 2 * k <= |h| ==> due(h[k / 2 - 1]) <= due(h[2 * k - 1]))
    && (1 < k && 2 * k + 1 <= |h| ==> due(h[k / 2 - 1]) <= due(h[2 * k]))
  }

  ghost function SlotOf(h: seq<Thread>, i: int): Slot
    requires 1 <= i && i / 2 <= |h|
  {
    if i == 1 then RootSlot
    else if i % 2 == 0 then LeftSlot(h[i / 2 - 1])
    else RightSlot(h[i / 2 - 1])
  }

  /** `index << 1`, with the last digit set to go right. */
  function Child(index: nat, right: bool): (c: nat)
    ensures c / 2 == index && c % 2 == (if right then 1 else 0)
  {
    2 * index + (if right then 1 else 0)
  }

  /** The root of a min-ordered heap is the earliest. */
  lemma {:induction false} RootIsEarliest(h: seq<Thread>, due: Thread -> int, i: int)
    requires MinOrdered(h, due) && 1 <= i <= |h|
    ensures due(h[0]) <= due(h[i - 1])
  {
    if i > 1 {
      assert InOrder(h, due, i);
      RootIsEarliest(h, due, i / 2);
    }
  }

  lemma SwapKeepsMembers(h: seq<Thread>, i: int, j: int)
    requires 0 <= i < j < |h|
    ensures Members(h[i := h[j]][j := h[i]]) == Members(h)
  {
    var h' := h[i := h[j]][j := h[i]];
    forall t | t in h
      ensures t in h'
    {
      var m :| 0 <= m < |h| && h[m] == t;
      assert h'[i] == h[j] && h'[j] == h[i] && (m != i && m != j ==> h'[m] == t);
    }
  }

  lemma MembersAfterCut(h: seq<Thread>)
    requires |h| > 0 && Distinct(h)
    ensures Members(h[..|h| - 1]) == Members(h) - {h[|h| - 1]}
    ensures h[|h| - 1] !in h[..|h| - 1] && h[|h| - 1] in Members(h)
  {
    var n := |h| - 1;
    assert h == h[..n] + [h[n]];
  }

  /** One node's links after `x` has taken the place of the node at index k. */
  lemma RelinkedAt(h: seq<Thread>, k: int, x: Thread, i: int)
    requires 1 <= k <= |h| && 1 <= i <= |h|
    requires i == k ==> x.left == At(h, 2 * k) && x.right == At(h, 2 * k + 1) && x.heapIndex == k
    requires i != k ==> h[i - 1].heapIndex == i
    requires i != k ==> h[i - 1].left == if 2 * i == k then x else At(h, 2 * i)
    requires i != k ==> h[i - 1].right == if 2 * i + 1 == k then x else At(h, 2 * i + 1)
    ensures Linked(h[k - 1 := x], i)
  {
  }

  /** A node's links after `x` has become the leaf at index k. */
  lemma LandedAt(h: seq<Thread>, k: int, x: Thread, i: int)
    requires 1 <= k <= |h| + 1 && 1 <= i <= |h| && i != k
    requires h[i - 1].heapIndex == i
    requires h[i - 1].left == if 2 * i == k then x else At(h, 2 * i)
    requires h[i - 1].right == if 2 * i + 1 == k then x else At(h, 2 * i + 1)
    ensures Linked(if k <= |h| then h[k - 1 := x] else h + [x], i)
  {
  }

  /** A node's links after the last node has been cut off. */
  lemma CutAt(h: seq<Thread>, i: int)
    requires 1 <= i < |h| && h[i - 1].heapIndex == i
    requires h[i - 1].left == if 2 * i == |h| then null else At(h, 2 * i)
    requires h[i - 1].right == if 2 * i + 1 == |h| then null else At(h, 2 * i + 1)
    ensures Linked(h[..|h| - 1], i)
  {
  }

  lemma ReplaceKeepsOrder(h: seq<Thread>, due: Thread -> int, k: int, x: Thread)
    requires MinOrdered(h, due) && 1 <= k <= |h|
    requires due(x) <= due(h[k - 1])
    requires k > 1 ==> due(h[k / 2 - 1]) <= due(x)
    ensures MinOrdered(h[k - 1 := x], due)
  {
    var h' := h[k - 1 := x];
    forall i | 2 <= i <= |h'|
      ensures InOrder(h', due, i)
    {
      assert InOrder(h, due, i);
    }
  }

  lemma PrefixKeepsOrder(h: seq<Thread>, due: Thread -> int, n: int)
    requires MinOrdered(h, due) && 0 <= n <= |h|
    ensures MinOrdered(h[..n], due)
  {
    forall i | 2 <= i <= n
      ensures InOrder(h[..n], due, i)
    {
      assert InOrder(h, due, i);
    }
  }

  /** Putting `x` at index k of an ordered heap, no earlier than the parent of k. */
  lemma LandKeepsOrder(h: seq<Thread>, due: Thread -> int, k: int, x: Thread)
    requires MinOrdered(h, due) && 1 <= k <= |h|
    requires k > 1 ==> due(h[k / 2 - 1]) <= due(x)
    ensures MinOrderedBut(h[k - 1 := x], due, k)
  {
    var h' := h[k - 1 := x];
    forall i | 2 <= i <= |h'| && i / 2 != k
      ensures InOrder(h', due, i)
    {
      assert InOrder(h, due, i);
    }
    assert 1 < k ==> InOrder(h, due, k);
    assert 2 * k <= |h| ==> InOrder(h, due, 2 * k);
    assert 2 * k + 1 <= |h| ==> InOrder(h, due, 2 * k + 1);
  }

  lemma AppendKeepsOrder(h: seq<Thread>, due: Thread -> int, x: Thread)
    requires MinOrdered(h, due)
    requires |h| > 0 ==> due(h[(|h| + 1) / 2 - 1]) <= due(x)
    ensures MinOrdered(h + [x], due)
  {
    var h' := h + [x];
    forall i | 2 <= i <= |h'|
      ensures InOrder(h', due, i)
    {
      assert i <= |h| ==> InOrder(h, due, i);
    }
  }

  /** One step of the sift: the node at k changes places with its younger child c. */
  lemma SwapKeepsOrder(h: seq<Thread>, due: Thread -> int, k: int, c: int)
    requires MinOrderedBut(h, due, k) && 1 <= k && c / 2 == k && c <= |h|
    requires due(h[c - 1]) <= due(h[k - 1])
    requires due(h[c - 1]) <= due(h[2 * k - 1]) && (2 * k + 1 <= |h| ==> due(h[c - 1]) <= due(h[2 * k]))
    ensures MinOrderedBut(h[k - 1 := h[c - 1]][c - 1 := h[k - 1]], due, c)
  {
    var h' := h[k - 1 := h[c - 1]][c - 1 := h[k - 1]];
    forall i | 2 <= i <= |h'| && i / 2 != c
      ensures InOrder(h', due, i)
    {
      assert i / 2 != k ==> InOrder(h, due, i);
      assert i / 2 == k ==> i == 2 * k || i == 2 * k + 1;
    }
    assert 2 * c <= |h| ==> InOrder(h, due, 2 * c);
    assert 2 * c + 1 <= |h| ==> InOrder(h, due, 2 * c + 1);
  }

  /** The sift stops: no child of k is due before k. */
  lemma SettledOrder(h: seq<Thread>, due: Thread -> int, k: int)
    requires MinOrderedBut(h, due, k) && 1 <= k
    requires 2 * k <= |h| ==> due(h[k - 1]) <= due(h[2 * k - 1])
    requires 2 * k + 1 <= |h| ==> due(h[k - 1]) <= due(h[2 * k])
    ensures MinOrdered(h, due)
  {
    forall i | 2 <= i <= |h|
      ensures InOrder(h, due, i)
    {
      assert i / 2 == k ==> i == 2 * k || i == 2 * k + 1;
    }
  }

  lemma MembersAfterReplace(h: seq<Thread>, k: int, x: Thread)
    requires 0 <= k < |h| && Distinct(h) && x !in h
    ensures Members(h[k := x]) == Members(h) + {x} - {h[k]}
    ensures Distinct(h[k := x]) && h[k] !in h[k := x]
  {
    var h' := h[k := x];
    forall t | t in h && t != h[k]
      ensures t in h'
    {
      var i :| 0 <= i < |h| && h[i] == t;
      assert h'[i] == t;
    }
    assert h'[k] == x;
  }

  /** One node's links after the node at index k has changed places with its child at index c. */
  lemma SwappedAt(h: seq<Thread>, k: int, c: int, i: int)
    requires 1 <= k && c / 2 == k && c <= |h| && 1 <= i <= |h|
    requires i != k && i != c && i != k / 2 ==> Linked(h, i)
    requires var t, y := h[k - 1], h[c - 1];
      && (i == c ==> t.heapIndex == c && t.left == At(h, 2 * c) && t.right == At(h, 2 * c + 1))
      && (i == k ==> y.heapIndex == k && y.left == (if c == 2 * k then t else At(h, 2 * k)))
      && (i == k ==> y.right == if c == 2 * k then At(h, 2 * k + 1) else t)
      && (i == k / 2 ==> h[i - 1].heapIndex == i && h[i - 1].left == (if 2 * i == k then y else At(h, 2 * i)))
      && (i == k / 2 ==> h[i - 1].right == if 2 * i == k then At(h, 2 * i + 1) else y)
    ensures Linked(h[k - 1 := h[c - 1]][c - 1 := h[k - 1]], i)
  {
  }

  /** `woken` have been taken out of `all` in the order of their due times, and `rest` is left. */
  ghost predicate Roused(woken: seq<Thread>, rest: set<Thread>, all: set<Thread>, due: Thread -> int, now: int) {
    && Distinct(woken) && rest + Members(woken) == all && rest !! Members(woken)
    && (forall i :: 0 <= i < |woken| ==> due(woken[i]) <= now)
    && (forall i, t :: 0 <= i < |woken| && t in rest ==> due(woken[i]) <= due(t))
    && (forall i, j :: 0 <= i < j < |woken| ==> due(woken[i]) <= due(woken[j]))
  }

  lemma RousedNext(woken: seq<Thread>, rest: set<Thread>, all: set<Thread>, due: Thread -> int, now: int, t: Thread)
    requires Roused(woken, rest, all, due, now)
    requires t in rest && due(t) <= now && forall u :: u in rest ==> due(t) <= due(u)
    ensures Roused(woken + [t], rest - {t}, all, due, now)
    ensures t !in woken
  {
    assert forall u :: u in Members(woken) <==> u in woken;
    assert Members(woken + [t]) == Members(woken) + {t};
  }

  lemma RousedAll(woken: seq<Thread>, rest: set<Thread>, all: set<Thread>, due: Thread -> int, now: int)
    requires Roused(woken, rest, all, due, now)
    requires forall u :: u in rest ==> due(u) > now
    ensures Members(woken) == set t | t in all && due(t) <= now
    ensures rest == set t | t in all && due(t) > now
  {
    assert forall t :: t in all ==> t in rest || t in Members(woken);
  }

  class Vp {
    var root: Thread?      // _ST_SLEEPQ
    var size: nat          // _ST_SLEEPQ_SIZE
    var lastClock: int
    var runq: seq<Thread>

    ghost const threads: set<Thread>  // every thread of this virtual processor
    ghost var heap: seq<Thread>       // the sleeping threads by index, index 1 first
    ghost var dueOf: Thread -> int    // the `due` fields of the threads

    ghost predicate Dated()
      reads this`dueOf, threads`due
    {
      forall t :: t in threads ==> t.due == dueOf(t)
    }

    ghost predicate ValidHeap()
      reads this`root, this`heap, this`dueOf, threads
    {
      && Members(heap) <= threads && Dated()
      && Shape(heap, root) && MinOrdered(heap, dueOf)
    }

    ghost predicate Valid()
      reads this`root, this`size, this`heap, this`dueOf, threads
    {
      ValidHeap() && size == |heap| && forall t :: t in threads ==> (t.onSleepq <==> t in Members(heap))
    }

    constructor (ghost all: set<Thread>, now: int)
      requires forall t :: t in all ==> !t.onSleepq
      ensures threads == all && Valid() && heap == [] && runq == [] && lastClock == now
    {
      root, size, lastClock, runq := null, 0, now, [];
      threads := all;
      heap := [];
      new;
      dueOf := DuesOf(all);
    }

    static ghost function DuesOf(all: set<Thread>): (d: Thread -> int)
      reads all`due
      ensures forall t :: t in all ==> d(t) == t.due
    {
      var m := map t | t in all :: t.due;
      t => if t in m then m[t] else 0
    }

    /** `*p` */
    function Load(p: Slot): Thread?
      reads this, if p.RootSlot? then {} else {p.owner}
    {
      match p
      case RootSlot => root
      case LeftSlot(o) => o.left
      case RightSlot(o) => o.right
    }

    /** Following the link to index i arrives at the node with index i. */
    lemma LoadsNode(i: int)
      requires Shape(heap, root) && 1 <= i <= |heap|
      ensures Load(SlotOf(heap, i)) == heap[i - 1]
    {
      assert i > 1 ==> Linked(heap, i / 2);
    }

    /** `*p = v` */
    method Store(p: Slot, v: Thread?)
      modifies (if p.RootSlot? then {this} else {})`root
      modifies (if p.LeftSlot? then {p.owner} else {})`left
      modifies (if p.RightSlot? then {p.owner} else {})`right
      ensures Load(p) == v
    {
      match p {
        case RootSlot => root := v;
        case LeftSlot(o) => o.left := v;
        case RightSlot(o) => o.right := v;
      }
    }

    // ----- heap_insert

    /** The exchange in heap_insert: `thread` takes the place of the node at `index`. */
    method TakePlace(p: Slot, index: nat, thread: Thread) returns (displaced: Thread)
      requires Shape(heap, root) && 1 <= index <= |heap| && p == SlotOf(heap, index) && thread !in heap
      modifies this`root, this`heap, thread`left, thread`right, thread`heapIndex
      modifies (if p.LeftSlot? then {p.owner} else {})`left
      modifies (if p.RightSlot? then {p.owner} else {})`right
      ensures displaced == old(heap[index - 1])
      ensures heap == old(heap)[index - 1 := thread]
      ensures Shape(heap, root)
    {
      assert Linked(heap, index) && (index > 1 ==> Linked(heap, index / 2));
      displaced := Load(p);
      thread.left := displaced.left;
      thread.right := displaced.right;
      Store(p, thread);
      thread.heapIndex := index;
      heap := heap[index - 1 := thread];
      forall i | 1 <= i <= |heap|
        ensures Linked(heap, i)
      {
        assert old(Linked(heap, i));
        RelinkedAt(old(heap), index, thread, i);
      }
    }

    /** The last lines of heap_insert: `thread` becomes a leaf at index `target`. */
    method Land(p: Slot, target: nat, thread: Thread)
      requires Shape(heap, root) && 1 <= target <= |heap| + 1 && p == SlotOf(heap, target) && thread !in heap
      modifies this`root, this`heap, thread`left, thread`right, thread`heapIndex
      modifies (if p.LeftSlot? then {p.owner} else {})`left
      modifies (if p.RightSlot? then {p.owner} else {})`right
      ensures heap == if target <= old(|heap|) then old(heap)[target - 1 := thread] else old(heap) + [thread]
      ensures ShapeBut(heap, root, target)
      ensures thread.left == null && thread.right == null && thread.heapIndex == target && Load(p) == thread
    {
      assert target > 1 ==> Linked(heap, target / 2);
      thread.heapIndex := target;
      Store(p, thread);
      thread.left := null;
      thread.right := null;
      heap := if target <= |heap| then heap[target - 1 := thread] else heap + [thread];
      forall i | 1 <= i <= |heap| && i != target
        ensures Linked(heap, i)
      {
        assert old(Linked(heap, i));
        LandedAt(old(heap), target, thread, i);
      }
    }

    /**
     One round of the loop of heap_insert: the earlier of the two stays at `index`, the
     other is carried on to the child on the given side.
     */
    method Meet(p: Slot, index: nat, thread: Thread, right: bool) returns (p': Slot, carried: Thread)
      requires ValidHeap() && thread in threads && thread !in heap
      requires 1 <= index <= |heap| && p == SlotOf(heap, index)
      requires index > 1 ==> dueOf(heap[index / 2 - 1]) <= dueOf(thread)
      modifies this`root, this`heap, threads`left, threads`right, threads`heapIndex
      ensures ValidHeap() && carried in threads && carried !in heap
      ensures |heap| == |old(heap)| && heap == old(heap)[index - 1 := heap[index - 1]]
      ensures dueOf(heap[index - 1]) <= dueOf(carried)
      ensures p' == SlotOf(heap, Child(index, right))
      ensures Members(heap) + {carried} == Members(old(heap)) + {thread}
    {
      LoadsNode(index);
      assert index > 1 ==> heap[index / 2 - 1] in Members(heap);
      var here := Load(p);
      assert here in Members(heap);
      carried := thread;
      if thread.due < here.due {
        ReplaceKeepsOrder(heap, dueOf, index, thread);
        MembersAfterReplace(heap, index - 1, thread);
        carried := TakePlace(p, index, thread);
        LoadsNode(index);
      }
      p' := if right then RightSlot(Load(p)) else LeftSlot(Load(p));
    }

    /**
     The loop of heap_insert: walk from the root towards index `target`. Whenever the
     thread in hand is due earlier than the node met, it takes that node's place and
     the node is carried on instead. The thread returned is the one still in hand.
     */
    method Walk(newcomer: Thread, target: nat) returns (p: Slot, thread: Thread)
      requires ValidHeap() && newcomer in threads && newcomer !in heap
      requires 1 <= target <= |heap| + 1
      modifies this`root, this`heap, threads`left, threads`right, threads`heapIndex
      ensures ValidHeap() && thread in threads && thread !in heap
      ensures |heap| == |old(heap)| && p == SlotOf(heap, target)
      ensures target > 1 ==> dueOf(heap[target / 2 - 1]) <= dueOf(thread)
      ensures Members(heap) + {thread} == Members(old(heap)) + {newcomer}
      ensures target <= |heap| ==> heap[target - 1] == old(heap)[target - 1]
    {
      thread := newcomer;
      var bits := BitLength(target);
      p := RootSlot;
      var index: nat := 1;
      var bit := bits - 2;
      while bit >= 0
        invariant -1 <= bit <= bits - 2
        invariant 1 <= index == Shr(target, bit + 1)
        invariant ValidHeap() && thread in threads && thread !in heap
        invariant |heap| == |old(heap)| && index / 2 <= |heap| && p == SlotOf(heap, index)
        invariant index > 1 ==> dueOf(heap[index / 2 - 1]) <= dueOf(thread)
        invariant Members(heap) + {thread} == Members(old(heap)) + {newcomer}
        invariant target <= |heap| ==> heap[target - 1] == old(heap)[target - 1]
      {
        ShrAtMostHalf(target, bit + 1);
        p, thread := Meet(p, index, thread, BitSet(target, bit));
        index := Child(index, BitSet(target, bit));
        bit := bit - 1;
      }
    }

    /**
     heap_insert. The newcomer's heap_index says where the heap grows (the index after the
     last) or which node makes room (the node being deleted, the `victim`). Afterwards some
     thread stands at that index as a leaf, with nothing below it linked to it yet.
     */
    method HeapInsert(newcomer: Thread) returns (p: Slot)
      requires ValidHeap() && newcomer in threads && newcomer !in heap
      requires 1 <= newcomer.heapIndex <= |heap| + 1
      modifies this`root, this`heap, threads`left, threads`right, threads`heapIndex
      ensures var target, n := old(newcomer.heapIndex), old(|heap|);
        && |heap| == (if target <= n then n else n + 1)
        && ShapeBut(heap, root, target)
        && p == SlotOf(heap, target) && Load(p) == heap[target - 1]
        && heap[target - 1].left == null && heap[target - 1].right == null && heap[target - 1].heapIndex == target
        && (target > n ==> MinOrdered(heap, dueOf) && Members(heap) == old(Members(heap)) + {newcomer})
        && (target <= n ==>
              var victim := old(heap)[target - 1];
              && MinOrderedBut(heap, dueOf, target)
              && Members(heap) == old(Members(heap)) + {newcomer} - {victim} && victim !in heap
              && victim.left == At(heap, 2 * target) && victim.right == At(heap, 2 * target + 1))
    {
      hide MinOrdered, MinOrderedBut, Dated;
      var target: nat := newcomer.heapIndex;
      var thread;
      p, thread := Walk(newcomer, target);
      assert target > 1 ==> heap[target / 2 - 1] in Members(heap);
      if target <= |heap| {
        assert Linked(heap, target);
        LandKeepsOrder(heap, dueOf, target, thread);
        MembersAfterReplace(heap, target - 1, thread);
      } else {
        AppendKeepsOrder(heap, dueOf, thread);
      }
      Land(p, target, thread);
    }

    // ----- heap_delete

    /** Walking along the digits of an index arrives at the link that leads to it. */
    method FindSlot(target: nat) returns (p: Slot)
      requires Shape(heap, root) && 1 <= target <= |heap|
      ensures p == SlotOf(heap, target)
    {
      var bits := BitLength(target);
      p := RootSlot;
      ghost var index: nat := 1;
      var bit := bits - 2;
      while bit >= 0
        invariant -1 <= bit <= bits - 2
        invariant 1 <= index == Shr(target, bit + 1)
        invariant index / 2 <= |heap| && p == SlotOf(heap, index)
      {
        ShrAtMostHalf(target, bit + 1);
        LoadsNode(index);
        p := if BitSet(target, bit) then RightSlot(Load(p)) else LeftSlot(Load(p));
        index := Child(index, BitSet(target, bit));
        bit := bit - 1;
      }
    }

    /** Cutting the last node off the tree. */
    method Cut(p: Slot)
      requires Shape(heap, root) && |heap| > 0 && p == SlotOf(heap, |heap|)
      modifies this`root, this`heap
      modifies (if p.LeftSlot? then {p.owner} else {})`left
      modifies (if p.RightSlot? then {p.owner} else {})`right
      ensures heap == old(heap)[..|old(heap)| - 1] && Shape(heap, root)
    {
      ghost var n := |heap|;
      assert n > 1 ==> Linked(heap, n / 2);
      Store(p, null);
      heap := heap[..n - 1];
      forall i | 1 <= i <= |heap|
        ensures Linked(heap, i)
      {
        assert old(Linked(heap, i));
        CutAt(old(heap), i);
      }
    }

    /** The first half of heap_delete: find the last node by its index and cut it off. */
    method UnlinkLast() returns (t: Thread)
      requires ValidHeap() && size == |heap| > 0
      modifies this`root, this`heap, this`size, threads`left, threads`right
      ensures ValidHeap() && size == |heap| == old(size) - 1 && heap == old(heap)[..size] && t == old(heap)[size]
    {
      var p := FindSlot(size);
      LoadsNode(size);
      t := Load(p);
      assert size > 1 ==> heap[size / 2 - 1] in Members(heap);
      MembersAfterCut(heap);
      PrefixKeepsOrder(heap, dueOf, size - 1);
      Cut(p);
      size := size - 1;
    }

    /** The pointer writes of the sift loop: y, a child of t, moves up and t moves down. */
    method Rotate(p: Slot, t: Thread, y: Thread) returns (p': Slot)
      requires t != y && (y == t.left || y == t.right) && t.left != t.right
      requires p.RootSlot? || (p.owner != t && p.owner != y)
      modifies t`left, t`right, t`heapIndex, y`left, y`right, y`heapIndex
      modifies (if p.RootSlot? then {this} else {})`root
      modifies (if p.LeftSlot? then {p.owner} else {})`left
      modifies (if p.RightSlot? then {p.owner} else {})`right
      ensures Load(p) == y
      ensures t.left == old(y.left) && t.right == old(y.right)
      ensures t.heapIndex == old(y.heapIndex) && y.heapIndex == old(t.heapIndex)
      ensures y == old(t.left) ==> y.left == t && y.right == old(t.right) && p' == LeftSlot(y)
      ensures y == old(t.right) ==> y.left == old(t.left) && y.right == t && p' == RightSlot(y)
    {
      var tl, tr := y.left, y.right;
      Store(p, y);
      if y == t.left {
        y.left := t;
        y.right := t.right;
        p' := LeftSlot(y);
      } else {
        y.left := t.left;
        y.right := t;
        p' := RightSlot(y);
      }
      t.left := tl;
      t.right := tr;
      var indexTmp := t.heapIndex;
      t.heapIndex := y.heapIndex;
      y.heapIndex := indexTmp;
    }

    /** The exchange seen on the tree as it was: who now points where, around the indices k and c. */
    method RotateAt(p: Slot, t: Thread, y: Thread, ghost k: int, ghost c: int) returns (p': Slot)
      requires Shape(heap, root) && 1 <= k && c / 2 == k && c <= |heap|
      requires p == SlotOf(heap, k) && heap[k - 1] == t && heap[c - 1] == y
      modifies this`root, t`left, t`right, t`heapIndex, y`left, y`right, y`heapIndex
      modifies (if p.LeftSlot? then {p.owner} else {})`left
      modifies (if p.RightSlot? then {p.owner} else {})`right
      ensures p' == (if c == 2 * k then LeftSlot(y) else RightSlot(y)) && root == if k == 1 then y else old(root)
      ensures t.heapIndex == c && t.left == At(heap, 2 * c) && t.right == At(heap, 2 * c + 1)
      ensures y.heapIndex == k && y.left == (if c == 2 * k then t else At(heap, 2 * k))
      ensures y.right == if c == 2 * k then At(heap, 2 * k + 1) else t
      ensures k > 1 ==> var up := heap[k / 2 - 1];
        && up.heapIndex == k / 2
        && up.left == (if k % 2 == 0 then y else At(heap, k / 2 * 2))
        && up.right == (if k % 2 == 0 then At(heap, k / 2 * 2 + 1) else y)
      ensures forall i :: 1 <= i <= |heap| && i != k && i != c && i != k / 2 ==> Linked(heap, i)
    {
      assert Linked(heap, k) && Linked(heap, c) && (k > 1 ==> Linked(heap, k / 2));
      assert c == 2 * k || c == 2 * k + 1;
      p' := Rotate(p, t, y);
      forall i | 1 <= i <= |heap| && i != k && i != c && i != k / 2
        ensures Linked(heap, i)
      {
        assert old(Linked(heap, i)) && heap[i - 1] != t && heap[i - 1] != y;
      }
    }

    /** The exchange seen on the indices: t at index k and its child y at index c change places. */
    method SwapDown(p: Slot, t: Thread, y: Thread, ghost k: int, ghost c: int) returns (p': Slot)
      requires Shape(heap, root) && 1 <= k && c / 2 == k && c <= |heap|
      requires p == SlotOf(heap, k) && heap[k - 1] == t && heap[c - 1] == y
      modifies this`root, this`heap, t`left, t`right, t`heapIndex, y`left, y`right, y`heapIndex
      modifies (if p.LeftSlot? then {p.owner} else {})`left
      modifies (if p.RightSlot? then {p.owner} else {})`right
      ensures heap == old(heap)[k - 1 := y][c - 1 := t] && p' == SlotOf(heap, c)
      ensures Shape(heap, root)
    {
      p' := RotateAt(p, t, y, k, c);
      ghost var was := heap;
      heap := was[k - 1 := y][c - 1 := t];
      forall i | 1 <= i <= |heap|
        ensures Linked(heap, i)
      {
        SwappedAt(was, k, c, i);
      }
    }

    /** The child of t that is due first, if t has a child. */
    method YoungerChild(t: Thread, ghost k: int) returns (y: Thread?, ghost c: int)
      requires Shape(heap, root) && Members(heap) <= threads && Dated()
      requires 1 <= k <= |heap| && heap[k - 1] == t
      ensures y == null <==> |heap| < 2 * k
      ensures y != null ==> c / 2 == k && c <= |heap| && heap[c - 1] == y
      ensures y != null ==>
        && dueOf(y) <= dueOf(heap[2 * k - 1])
        && (2 * k + 1 <= |heap| ==> dueOf(y) <= dueOf(heap[2 * k]))
    {
      assert Linked(heap, k);
      if t.left == null {
        y := null;
        c := 0;
      } else {
        assert t.left in Members(heap) && (t.right != null ==> t.right in Members(heap));
        if t.right == null {
          y := t.left;
          c := 2 * k;
        } else if t.left.due < t.right.due {
          y := t.left;
          c := 2 * k;
        } else {
          y := t.right;
          c := 2 * k + 1;
        }
      }
    }

    /** One round of the sift loop: y, the younger child of t, is due before t. */
    method SiftStep(p: Slot, t: Thread, y: Thread, ghost k: int, ghost c: int) returns (p': Slot)
      requires Shape(heap, root) && MinOrderedBut(heap, dueOf, k) && Members(heap) <= threads
      requires 1 <= k && c / 2 == k && c <= |heap|
      requires p == SlotOf(heap, k) && heap[k - 1] == t && heap[c - 1] == y && dueOf(y) <= dueOf(t)
      requires dueOf(y) <= dueOf(heap[2 * k - 1]) && (2 * k + 1 <= |heap| ==> dueOf(y) <= dueOf(heap[2 * k]))
      modifies this`root, this`heap, threads`left, threads`right, threads`heapIndex
      ensures Shape(heap, root) && MinOrderedBut(heap, dueOf, c)
      ensures |heap| == |old(heap)| && Members(heap) == Members(old(heap))
      ensures p' == SlotOf(heap, c) && heap[c - 1] == t
    {
      SwapKeepsOrder(heap, dueOf, k, c);
      SwapKeepsMembers(heap, k - 1, c - 1);
      assert t in Members(heap) && y in Members(heap);
      assert k > 1 ==> heap[k / 2 - 1] in Members(heap);
      p' := SwapDown(p, t, y, k, c);
    }

    /** The sift loop of heap_delete. */
    method SiftDown(start: Slot, t: Thread, ghost index: int)
      requires Shape(heap, root) && 1 <= index <= |heap| && MinOrderedBut(heap, dueOf, index)
      requires Members(heap) <= threads && Dated()
      requires start == SlotOf(heap, index) && heap[index - 1] == t
      modifies this`root, this`heap, threads`left, threads`right, threads`heapIndex
      ensures Shape(heap, root) && MinOrdered(heap, dueOf)
      ensures |heap| == |old(heap)| && Members(heap) == Members(old(heap))
    {
      var p := start;
      ghost var k := index;
      while true
        invariant 1 <= k <= |heap| == |old(heap)| && p == SlotOf(heap, k) && heap[k - 1] == t
        invariant Shape(heap, root) && MinOrderedBut(heap, dueOf, k)
        invariant Members(heap) == Members(old(heap)) && Dated()
        decreases |heap| - k
      {
        var y, c := YoungerChild(t, k);
        assert t in Members(heap) && (y != null ==> y in Members(heap));
        if y == null || t.due <= y.due {
          SettledOrder(heap, dueOf, k);
          break;
        }
        p := SiftStep(p, t, y, k, c);
        k := c;
      }
    }

    /** The second half of heap_delete: t, cut off from the end, fills the gap `thread` leaves. */
    method Refill(thread: Thread, t: Thread, ghost k: int)
      requires ValidHeap() && 1 <= k <= |heap| && heap[k - 1] == thread
      requires t in threads && t !in heap
      modifies this`root, this`heap, threads`left, threads`right, threads`heapIndex
      ensures ValidHeap() && |heap| == |old(heap)| && Members(heap) == old(Members(heap)) + {t} - {thread}
    {
      assert Linked(heap, k);
      SetIndex(t, thread.heapIndex);
      var p := HeapInsert(t);
      var last := Load(p);
      assert last in Members(heap);
      Adopt(thread, last, k);
      SiftDown(p, last, k);
    }

    /** The node at index k takes over the children that `thread` had there. */
    method Adopt(thread: Thread, last: Thread, ghost k: int)
      requires ShapeBut(heap, root, k) && 1 <= k <= |heap| && heap[k - 1] == last && last.heapIndex == k
      requires thread.left == At(heap, 2 * k) && thread.right == At(heap, 2 * k + 1)
      modifies last`left, last`right
      ensures Shape(heap, root)
    {
      last.left := thread.left;
      last.right := thread.right;
      forall i | 1 <= i <= |heap|
        ensures Linked(heap, i)
      {
        assert i != k ==> heap[i - 1] != last && old(Linked(heap, i));
      }
    }

    /** heap_delete: any member can be removed, and the rest is a heap again. */
    method HeapDelete(thread: Thread)
      requires ValidHeap() && size == |heap| && thread in heap
      modifies this`root, this`heap, this`size, threads`left, threads`right, threads`heapIndex
      ensures ValidHeap() && size == |heap| && Members(heap) == old(Members(heap)) - {thread}
      ensures thread.left == null && thread.right == null
    {
      ghost var k :| 0 <= k < |heap| && heap[k] == thread;
      assert thread in Members(heap);
      MembersAfterCut(heap);
      var t := UnlinkLast();
      if t != thread {
        assert heap[k] == thread;
        Refill(thread, t, k + 1);
      }
      Detach(thread);
    }

    /** The last line of heap_delete. */
    method Detach(thread: Thread)
      requires ValidHeap() && thread !in Members(heap)
      modifies thread`left, thread`right
      ensures ValidHeap() && thread.left == null && thread.right == null
    {
      thread.left := null;
      thread.right := null;
      forall i | 1 <= i <= |heap|
        ensures Linked(heap, i)
      {
        assert old(Linked(heap, i)) && heap[i - 1] in Members(heap);
      }
    }

    // ----- the sleep queue and the clock

    /** Setting `due` on a thread that is not asleep. */
    method SetDue(thread: Thread, due: int)
      requires ValidHeap() && thread in threads && thread !in Members(heap)
      modifies thread`due, this`dueOf
      ensures ValidHeap() && thread.due == due
    {
      thread.due := due;
      ghost var before := dueOf;
      dueOf := DuesOf(threads);
      forall i | 2 <= i <= |heap|
        ensures InOrder(heap, dueOf, i)
      {
        assert InOrder(heap, before, i);
        assert heap[i - 1] in Members(heap) && heap[i / 2 - 1] in Members(heap);
      }
    }

    /** Setting `heap_index` on a thread that is not asleep. */
    method SetIndex(thread: Thread, index: int)
      requires ValidHeap() && thread in threads && thread !in Members(heap)
      modifies thread`heapIndex
      ensures ValidHeap() && thread.heapIndex == index
    {
      thread.heapIndex := index;
      forall i | 1 <= i <= |heap|
        ensures Linked(heap, i)
      {
        assert old(Linked(heap, i)) && heap[i - 1] in Members(heap);
      }
    }

    /** _st_add_sleep_q, for a thread that is not asleep. */
    method AddSleepQ(thread: Thread, timeout: int)
      requires Valid() && thread in threads && !thread.onSleepq
      modifies this`root, this`heap, this`size, this`dueOf
      modifies threads`left, threads`right, threads`heapIndex, thread`due, thread`onSleepq
      ensures Valid() && Members(heap) == old(Members(heap)) + {thread}
      ensures thread.due == lastClock + timeout
    {
      SetDue(thread, lastClock + timeout);
      thread.onSleepq := true;
      size := size + 1;
      SetIndex(thread, size);
      Append(thread);
    }

    /** Inserting a thread at the first index that is not in use. */
    method Append(thread: Thread)
      requires ValidHeap() && thread in threads && thread !in heap && thread.heapIndex == |heap| + 1
      modifies this`root, this`heap, threads`left, threads`right, threads`heapIndex
      ensures ValidHeap() && |heap| == |old(heap)| + 1 && Members(heap) == old(Members(heap)) + {thread}
    {
      ghost var n := |heap|;
      var p := HeapInsert(thread);
      assert Linked(heap, n + 1);
    }

    /** _st_del_sleep_q */
    method DelSleepQ(thread: Thread)
      requires Valid() && thread in threads && thread.onSleepq
      modifies this`root, this`heap, this`size
      modifies threads`left, threads`right, threads`heapIndex, thread`onSleepq
      ensures Valid() && Members(heap) == old(Members(heap)) - {thread}
    {
      HeapDelete(thread);
      thread.onSleepq := false;
    }

    method SetState(thread: Thread, st: RunState)
      requires Valid() && thread in threads
      modifies thread`state
      ensures Valid() && thread.state == st
    {
      thread.state := st;
      forall i | 1 <= i <= |heap|
        ensures Linked(heap, i)
      {
        assert old(Linked(heap, i));
      }
    }

    /** What a thread does that stops running until a timeout at the latest. */
    method Rest(thread: Thread, st: RunState, timeout: int)
      requires Valid() && thread in threads && !thread.onSleepq
      modifies this`root, this`heap, this`size, this`dueOf
      modifies threads`left, threads`right, threads`heapIndex, thread`due, thread`onSleepq, thread`state
      ensures Valid() && thread.onSleepq && thread.due == lastClock + timeout && thread.state == st
    {
      hide Valid;
      AddSleepQ(thread, timeout);
      Sleepers();
      SetState(thread, st);
    }

    /** The lines that recur wherever a waiting thread is made runnable. */
    method MakeRunnable(thread: Thread)
      requires Valid() && thread in threads
      modifies this`root, this`heap, this`size, this`runq
      modifies threads`left, threads`right, threads`heapIndex, thread`onSleepq, thread`state
      ensures Valid() && !thread.onSleepq && thread.state == Runnable && runq == old(runq) + [thread]
    {
      if thread.onSleepq {
        DelSleepQ(thread);
      }
      SetState(thread, Runnable);
      runq := runq + [thread];
    }

    /** The sleep flags and due times as they are on the threads */
    lemma Sleepers()
      requires Valid()
      ensures forall t :: t in threads ==> (t.onSleepq <==> t in Members(heap)) && t.due == dueOf(t)
      ensures Members(heap) <= threads
    {
    }

    lemma EarliestFirst()
      requires MinOrdered(heap, dueOf) && |heap| > 0
      ensures forall t :: t in Members(heap) ==> dueOf(heap[0]) <= dueOf(t)
    {
      forall t | t in Members(heap)
        ensures dueOf(heap[0]) <= dueOf(t)
      {
        var i :| 0 <= i < |heap| && heap[i] == t;
        RootIsEarliest(heap, dueOf, i + 1);
      }
    }

    /** One round of the loop of _st_vp_check_clock: the earliest sleeper is made runnable. */
    method WakeEarliest(thread: Thread)
      requires Valid() && root == thread
      modifies this`root, this`heap, this`size, this`runq
      modifies threads`left, threads`right, threads`heapIndex, thread`onSleepq, thread`timedOut, thread`state
      ensures Valid() && thread in threads && thread in old(Members(heap)) && Members(heap) == old(Members(heap)) - {thread}
      ensures forall t :: t in Members(heap) ==> dueOf(thread) <= dueOf(t)
      ensures runq == old(runq) + [thread]
      ensures thread.state == Runnable
      ensures thread.timedOut == (old(thread.timedOut) || old(thread.state) == CondWait)
    {
      EarliestFirst();
      assert thread in Members(heap);
      DelSleepQ(thread);
      if thread.state == CondWait {
        thread.timedOut := true;
      }
      thread.state := Runnable;
      runq := runq + [thread];
    }

    /** What waking has done to the threads: those in `woken` and the others. */
    twostate predicate Awakened(new woken: seq<Thread>)
      reads threads
    {
      && (forall t :: t in threads && t in woken ==>
            t.state == Runnable && t.timedOut == (old(t.timedOut) || old(t.state) == CondWait))
      && (forall t :: t in threads && t !in woken ==> t.state == old(t.state) && t.timedOut == old(t.timedOut))
    }

    /** The loop of _st_vp_check_clock. */
    method WakeDue(now: int) returns (ghost woken: seq<Thread>)
      requires Valid()
      modifies this`root, this`heap, this`size, this`runq
      modifies threads`left, threads`right, threads`heapIndex, threads`onSleepq, threads`timedOut, threads`state
      ensures Valid() && runq == old(runq) + woken && Awakened(woken)
      ensures Roused(woken, Members(heap), old(Members(heap)), dueOf, now)
      ensures forall t :: t in Members(heap) ==> dueOf(t) > now
    {
      woken := [];
      while root != null
        invariant Valid() && runq == old(runq) + woken && Awakened(woken)
        invariant Roused(woken, Members(heap), old(Members(heap)), dueOf, now)
        decreases Members(heap)
      {
        var thread: Thread := root;
        assert thread == heap[0] && thread in Members(heap);
        EarliestFirst();
        if thread.due > now {
          return;
        }
        RousedNext(woken, Members(heap), old(Members(heap)), dueOf, now, thread);
        WakeEarliest(thread);
        woken := woken + [thread];
      }
      assert |heap| == 0;
    }

    /**
     _st_vp_check_clock at time `now`: exactly the sleepers that are due go to the end of
     the run queue, the earliest first, and exactly those among them that were waiting on a
     condition variable are marked as timed out.
     */
    method CheckClock(now: int) returns (ghost woken: seq<Thread>)
      requires Valid()
      modifies this`root, this`heap, this`size, this`lastClock, this`runq
      modifies threads`left, threads`right, threads`heapIndex, threads`onSleepq, threads`timedOut, threads`state
      ensures Valid() && lastClock == now && Awakened(woken)
      ensures runq == old(runq) + woken && Distinct(woken)
      ensures Members(woken) == set t | t in old(Members(heap)) && dueOf(t) <= now
      ensures Members(heap) == set t | t in old(Members(heap)) && dueOf(t) > now
      ensures forall i, j :: 0 <= i < j < |woken| ==> dueOf(woken[i]) <= dueOf(woken[j])
    {
      lastClock := now;
      woken := WakeDue(now);
      RousedAll(woken, Members(heap), old(Members(heap)), dueOf, now);
    }
  }
}
