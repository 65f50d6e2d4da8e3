/**
 The timeout heap in the place of the scheduler's map of due times: the threads of module TimeoutHeap under
 the names of module Scheduler, in each of the moves that use the sleep queue.
 */
module SleepQueue {
  import opened ThreadStates
  import opened Options
  import opened Scheduler
  import opened SchedulerRuns
  import Heap = TimeoutHeap

  ghost predicate Injective(names: map<Tid, Heap.Thread>) {
    forall t, u :: t in names && u in names && t != u ==> names[t] != names[u]
  }

  /** What the scheduler's record of a thread and its due time are about */
  datatype Fields = Fields(state: RunState, timedOut: bool, onSleepq: bool, due: int)

  ghost function FieldsOf(x: Heap.Thread): Fields
    reads x
  {
    Fields(x.state, x.timedOut, x.onSleepq, x.due)
  }

  lemma QueuesJoin(q: seq<Heap.Thread>, r: seq<Tid>, q': seq<Heap.Thread>, r': seq<Tid>, names: map<Tid, Heap.Thread>)
    requires SameQueue(q, r, names) && SameQueue(q', r', names)
    ensures SameQueue(q + q', r + r', names)
  {
  }

  /** They agree with the scheduler's record of the thread. */
  ghost predicate Agrees(x: Fields, s: Vp, t: Tid) {
    && t in s.threads
    && x.state == s.threads[t].state && x.timedOut == s.threads[t].timedOut
    && x.onSleepq == s.threads[t].onSleepq && (x.onSleepq <==> t in s.sleepq)
    && (t in s.sleepq ==> x.due == s.sleepq[t])
  }

  /** The queue of thread objects is the queue of names. */
  ghost predicate SameQueue(q: seq<Heap.Thread>, r: seq<Tid>, names: map<Tid, Heap.Thread>) {
    |q| == |r| && forall i :: 0 <= i < |r| ==> r[i] in names && q[i] == names[r[i]]
  }

  /** The heap and its threads hold the sleep queue and the run queue of the scheduler. */
  ghost predicate Holds(h: Heap.Vp, names: map<Tid, Heap.Thread>, s: Vp)
    reads h, h.threads
  {
    && h.Valid() && h.lastClock == s.lastClock
    && Injective(names) && names.Values == h.threads && names.Keys == s.threads.Keys && s.sleepq.Keys <= s.threads.Keys
    && (forall t :: t in names ==> Agrees(FieldsOf(names[t]), s, t))
    && SameQueue(h.runq, s.runq, names)
  }

  /** st_init: two threads, nobody asleep */
  method Start(primordial: Tid, idle: Tid, now: int) returns (h: Heap.Vp, ghost names: map<Tid, Heap.Thread>)
    requires primordial != idle
    ensures fresh(h) && fresh(h.threads) && Holds(h, names, Initial(primordial, idle, now))
  {
    var first := new Heap.Thread();
    var second := new Heap.Thread();
    first.state, second.state := Running, Runnable;
    h := new Heap.Vp({first, second}, now);
    names := map[primordial := first, idle := second];
    hide Heap.Vp.Valid, Agrees, Initial, Injective, SameQueue;
    InitialAgrees(primordial, idle, now, FieldsOf(first), FieldsOf(second));
    TwoNames(primordial, idle, first, second);
  }

  lemma TwoNames(t: Tid, u: Tid, x: Heap.Thread, y: Heap.Thread)
    requires t != u && x != y
    ensures var names := map[t := x, u := y];
      names.Keys == {t, u} && names.Values == {x, y} && Injective(names) && SameQueue([], [], names)
  {
    var names := map[t := x, u := y];
    assert names[t] == x && names[u] == y;
  }

  lemma InitialAgrees(primordial: Tid, idle: Tid, now: int, x: Fields, y: Fields)
    requires primordial != idle
    requires x.(due := 0) == Fields(Running, false, false, 0) && y.(due := 0) == Fields(Runnable, false, false, 0)
    ensures var s := Initial(primordial, idle, now);
      && s.threads.Keys == {primordial, idle} && s.sleepq == map[] && s.runq == [] && s.lastClock == now
      && Agrees(x, s, primordial) && Agrees(y, s, idle)
  {
  }

  lemma AgreesOnSleep(x: Fields, s: Vp, t: Tid)
    requires Agrees(x, s, t)
    ensures t in s.threads && (x.onSleepq <==> t in s.sleepq) && (t in s.sleepq ==> x.due == s.sleepq[t])
  {
  }

  lemma ParkAgrees(x: Fields, y: Fields, s: Vp, st: RunState, inside: Inside, timeout: int, t: Tid)
    requires Agrees(x, s, t) && s.current in s.threads
    requires y == if t == s.current then Fields(st, x.timedOut, true, s.lastClock + timeout) else x
    ensures Agrees(y, Park(s, st, inside, Some(timeout)), t)
  {
  }

  lemma ParkRest(s: Vp, st: RunState, inside: Inside, timeout: int)
    requires s.current in s.threads
    ensures var s' := Park(s, st, inside, Some(timeout));
      && s'.threads.Keys == s.threads.Keys && s'.sleepq.Keys <= s.sleepq.Keys + {s.current}
      && s'.runq == s.runq && s'.lastClock == s.lastClock
  {
  }

  lemma WakeAgrees(x: Fields, y: Fields, s: Vp, ts: seq<Tid>, w: Waker, t: Tid)
    requires Agrees(x, s, t)
    requires y ==
      if t in ts then Fields(Runnable, x.timedOut || (w == ByClock && x.state == CondWait), false, x.due) else x
    ensures Agrees(y, Wake(s, ts, w), t)
  {
  }

  lemma WakeRest(s: Vp, ts: seq<Tid>, w: Waker)
    ensures var s' := Wake(s, ts, w);
      && s'.threads.Keys == s.threads.Keys && s'.sleepq.Keys <= s.sleepq.Keys && s'.runq == s.runq + ts
      && s'.lastClock == s.lastClock
  {
  }

  /** The current thread stops running, with a timeout. */
  method ParkTimed(
    h: Heap.Vp, me: Heap.Thread, ghost names: map<Tid, Heap.Thread>, ghost s: Vp, st: RunState, ghost inside: Inside,
    timeout: int)
    requires Holds(h, names, s) && s.current in names && names[s.current] == me && s.current !in s.sleepq
    modifies h`root, h`heap, h`size, h`dueOf
    modifies h.threads`left, h.threads`right, h.threads`heapIndex, me`due, me`onSleepq, me`state
    ensures Holds(h, names, Park(s, st, inside, Some(timeout)))
  {
    hide Heap.Vp.Valid, Agrees, SameQueue, Park;
    assert !me.onSleepq by {
      assert Agrees(FieldsOf(me), s, s.current);
      AgreesOnSleep(FieldsOf(me), s, s.current);
    }
    ParkRest(s, st, inside, timeout);
    h.Rest(me, st, timeout);
    forall t | t in names
      ensures Agrees(FieldsOf(names[t]), Park(s, st, inside, Some(timeout)), t)
    {
      assert old(Agrees(FieldsOf(names[t]), s, t));
      assert t != s.current ==> names[t] != me;
      ParkAgrees(old(FieldsOf(names[t])), FieldsOf(names[t]), s, st, inside, timeout, t);
    }
  }

  /** A waiting thread is made runnable. */
  method MakeRunnable(
    h: Heap.Vp, thread: Heap.Thread, ghost names: map<Tid, Heap.Thread>, ghost s: Vp, ghost t: Tid, ghost w: Waker)
    requires Holds(h, names, s) && t in names && names[t] == thread && w != ByClock
    modifies h`root, h`heap, h`size, h`runq
    modifies h.threads`left, h.threads`right, h.threads`heapIndex, thread`onSleepq, thread`state
    ensures Holds(h, names, Wake(s, [t], w))
  {
    hide Heap.Vp.Valid, Wake, Agrees;
    WakeRest(s, [t], w);
    h.MakeRunnable(thread);
    forall u | u in names
      ensures Agrees(FieldsOf(names[u]), Wake(s, [t], w), u)
    {
      assert old(Agrees(FieldsOf(names[u]), s, u));
      assert u != t ==> names[u] != thread;
      WakeAgrees(old(FieldsOf(names[u])), FieldsOf(names[u]), s, [t], w, u);
    }
  }

  ghost function NameOf(names: map<Tid, Heap.Thread>, x: Heap.Thread): (t: Tid)
    requires x in names.Values
    ensures t in names && names[t] == x
  {
    var t :| t in names && names[t] == x;
    t
  }

  ghost function NamesOf(names: map<Tid, Heap.Thread>, q: seq<Heap.Thread>): (r: seq<Tid>)
    requires forall i :: 0 <= i < |q| ==> q[i] in names.Values
    ensures SameQueue(q, r, names)
  {
    seq(|q|, i requires 0 <= i < |q| => NameOf(names, q[i]))
  }

  /** The sleepers are these threads, due at these times. */
  ghost predicate Asleep(sleepq: map<Tid, int>, names: map<Tid, Heap.Thread>, all: set<Heap.Thread>, due: Heap.Thread -> int) {
    forall t :: t in names ==> (t in sleepq <==> names[t] in all) && (t in sleepq ==> sleepq[t] == due(names[t]))
  }

  lemma NamedOnce(q: seq<Heap.Thread>, r: seq<Tid>, names: map<Tid, Heap.Thread>, t: Tid)
    requires SameQueue(q, r, names) && Injective(names) && t in names
    ensures t in r <==> names[t] in q
  {
    if names[t] in q {
      var i :| 0 <= i < |q| && q[i] == names[t];
      assert r[i] == t;
    }
  }

  /** The names of the threads that were woken */
  lemma OrderOf(
    woken: seq<Heap.Thread>, names: map<Tid, Heap.Thread>, sleepq: map<Tid, int>, all: set<Heap.Thread>,
    due: Heap.Thread -> int, now: int) returns (order: seq<Tid>)
    requires Injective(names) && sleepq.Keys <= names.Keys && all <= names.Values
    requires Asleep(sleepq, names, all, due)
    requires Heap.Distinct(woken) && Heap.Members(woken) == set x | x in all && due(x) <= now
    requires forall i, j :: 0 <= i < j < |woken| ==> due(woken[i]) <= due(woken[j])
    ensures SameQueue(woken, order, names) && DueOrder(sleepq, now, order)
  {
    forall x
      ensures x in woken <==> x in all && due(x) <= now
    {
      assert x in woken <==> x in Heap.Members(woken);
    }
    order := NamesOf(names, woken);
    forall t
      ensures t in order <==> t in sleepq && sleepq[t] <= now
    {
      if t in names {
        NamedOnce(woken, order, names, t);
      }
    }
    assert NoDup(order) by {
      assert forall i, j :: 0 <= i < j < |order| ==> woken[i] != woken[j];
    }
    assert forall i :: 0 <= i < |order| && order[i] in sleepq ==> sleepq[order[i]] == due(woken[i]);
  }

  /** _st_vp_check_clock: the order in which the heap gives up its threads is one that the scheduler allows. */
  method CheckClockInHeap(h: Heap.Vp, ghost names: map<Tid, Heap.Thread>, ghost s: Vp, now: int)
    returns (ghost order: seq<Tid>)
    requires Holds(h, names, s)
    modifies h`root, h`heap, h`size, h`lastClock, h`runq
    modifies h.threads`left, h.threads`right, h.threads`heapIndex, h.threads`onSleepq, h.threads`timedOut, h.threads`state
    ensures DueOrder(s.sleepq, now, order) && Holds(h, names, CheckClock(s, now, order))
  {
    hide Heap.Vp.Valid, DueOrder, Agrees, Wake, SameQueue;
    h.Sleepers();
    ghost var due, all := h.dueOf, Heap.Members(h.heap);
    assert Asleep(s.sleepq, names, all, due) by {
      forall t | t in names
        ensures (t in s.sleepq <==> names[t] in all) && (t in s.sleepq ==> s.sleepq[t] == due(names[t]))
      {
        AgreesOnSleep(FieldsOf(names[t]), s, t);
      }
    }
    ghost var woken := h.CheckClock(now);
    h.Sleepers();
    order := OrderOf(woken, names, s.sleepq, all, due, now);
    ghost var s1 := s.(lastClock := now);
    WakeRest(s1, order, ByClock);
    QueuesJoin(old(h.runq), s.runq, woken, order, names);
    hide Asleep, Heap.Distinct, Heap.Members;
    forall t | t in names
      ensures Agrees(FieldsOf(names[t]), Wake(s1, order, ByClock), t)
    {
      assert old(Agrees(FieldsOf(names[t]), s, t));
      AgreesAside(old(FieldsOf(names[t])), s, now, t);
      NamedOnce(woken, order, names, t);
      WakeAgrees(old(FieldsOf(names[t])), FieldsOf(names[t]), s1, order, ByClock, t);
    }
  }

  lemma AgreesAside(x: Fields, s: Vp, now: int, t: Tid)
    requires Agrees(x, s, t)
    ensures Agrees(x, s.(lastClock := now), t)
  {
  }
}
