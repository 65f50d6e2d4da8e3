/**
 The code of the scheduler as it is written: one object whose fields are updated in place,
 with loops over the wait queues. Each method is proved to compute the step function of
 module Scheduler, about which everything else is proved.
 */
module SchedulerCode {
  import opened ThreadStates
  import opened Options
  import opened Scheduler
  import opened SchedulerInvariant
  import opened SchedulerRuns

  // ----- the scan of a wait queue for a signal or a broadcast

  function Target(s: Vp, c: Cid, broadcast: bool): Vp
    requires c in s.conds
  {
    if broadcast then Broadcast(s, c) else Signal(s, c)
  }

  /** Up to place i nobody was found for a signal, or everybody found was woken for a broadcast. */
  ghost predicate Scanning(s: Vp, now: Vp, c: Cid, i: nat, broadcast: bool)
    requires c in s.conds && i <= |s.conds[c]|
  {
    && NoDup(s.conds[c])
    && if broadcast then Wake(now, Those(s.threads, s.conds[c][i..], CondWait), BySignal) == Broadcast(s, c)
       else now == s && First(s.threads, s.conds[c][i..], CondWait) == First(s.threads, s.conds[c], CondWait)
  }

  lemma ScanStart(s: Vp, c: Cid, broadcast: bool)
    requires c in s.conds && NoDup(s.conds[c])
    ensures Scanning(s, s, c, 0, broadcast)
  {
    hide Wake, Those, First;
    assert s.conds[c][0..] == s.conds[c];
  }

  lemma QueueStep(threads: map<Tid, Thread>, q: seq<Tid>, i: nat, st: RunState)
    requires i < |q| && q[i] in threads
    ensures First(threads, q[i..], st) == if threads[q[i]].state == st then Some(q[i]) else First(threads, q[i + 1..], st)
    ensures var rest := Those(threads, q[i + 1..], st);
      Those(threads, q[i..], st) == if threads[q[i]].state == st then [q[i]] + rest else rest
  {
    assert q[i..][0] == q[i] && q[i..][1..] == q[i + 1..];
  }

  lemma ScanPass(s: Vp, now: Vp, c: Cid, i: nat, broadcast: bool)
    requires c in s.conds && i < |s.conds[c]| && Scanning(s, now, c, i, broadcast)
    requires s.conds[c][i] in s.threads && s.threads[s.conds[c][i]].state != CondWait
    ensures Scanning(s, now, c, i + 1, broadcast)
  {
    QueueStep(s.threads, s.conds[c], i, CondWait);
    hide Wake, Those, First, Broadcast;
  }

  lemma ScanWake(s: Vp, now: Vp, c: Cid, i: nat, broadcast: bool)
    requires c in s.conds && i < |s.conds[c]| && Scanning(s, now, c, i, broadcast)
    requires s.conds[c][i] in s.threads && s.threads[s.conds[c][i]].state == CondWait
    ensures broadcast ==> Scanning(s, Wake(now, [s.conds[c][i]], BySignal), c, i + 1, broadcast)
    ensures !broadcast ==> Wake(now, [s.conds[c][i]], BySignal) == Target(s, c, broadcast)
  {
    var q := s.conds[c];
    QueueStep(s.threads, q, i, CondWait);
    ghost var rest := Those(s.threads, q[i + 1..], CondWait);
    hide Wake, Those, First, Broadcast;
    if broadcast {
      assert q[i] !in rest;
      WakeSplit(now, [q[i]], rest, BySignal);
    }
  }

  lemma ScanEnd(s: Vp, now: Vp, c: Cid, broadcast: bool)
    requires c in s.conds && Scanning(s, now, c, |s.conds[c]|, broadcast)
    ensures now == Target(s, c, broadcast)
  {
    assert s.conds[c][|s.conds[c]|..] == [];
    WakeNobody(now, BySignal);
  }

  class Processor {
    var threads: map<Tid, Thread>
    var current: Tid
    const idle: Tid
    var runq: seq<Tid>
    var ioq: seq<Tid>
    var zombieq: seq<Tid>
    var sleepq: map<Tid, int>
    var conds: map<Cid, seq<Tid>>
    var locks: map<Mid, Lock>
    var lastClock: int

    /** The state of the machine. */
    function View(): Vp
      reads this
    {
      Vp(threads, current, idle, runq, ioq, zombieq, sleepq, conds, locks, lastClock)
    }

    constructor (primordial: Tid, idle: Tid, now: int)
      requires primordial != idle
      ensures View() == Initial(primordial, idle, now) && Inv(View())
    {
      threads := map[primordial := Thread(Running, false, false, false, Nowhere, None, NoOne),
                     idle := Thread(Runnable, false, false, false, Nowhere, None, NoOne)];
      current, this.idle := primordial, idle;
      runq, ioq, zombieq := [], [], [];
      sleepq, conds, locks, lastClock := map[], map[], map[], now;
      InitialInv(primordial, idle, now);
    }

    /** The sleep flag of the thread tells whether it is on the sleep queue. */
    ghost predicate Flagged(t: Tid)
      reads this
    {
      t in threads && (threads[t].onSleepq <==> t in sleepq)
    }

    /** The lines that recur wherever a waiting thread is made runnable. */
    method MakeRunnable(t: Tid, w: Waker)
      requires Flagged(t) && w != ByClock
      modifies this`threads, this`sleepq, this`runq
      ensures View() == Wake(old(View()), [t], w)
      ensures forall u :: u != t && old(Flagged(u)) ==> Flagged(u) && threads[u] == old(threads[u])
    {
      hide Wake;
      if threads[t].onSleepq {
        sleepq := sleepq - {t};
        threads := threads[t := threads[t].(onSleepq := false)];
      }
      threads := threads[t := threads[t].(state := Runnable, waker := w)];
      runq := runq + [t];
      WakeSingle(old(View()), t, w);
    }

    /** _st_vp_schedule */
    method VpSchedule()
      requires idle in threads && (runq != [] ==> runq[0] in threads)
      modifies this`threads, this`runq, this`current
      ensures View() == Schedule(old(View()))
    {
      var thread := idle;
      if runq != [] {
        thread := runq[0];
        runq := runq[1..];
      }
      threads := threads[thread := threads[thread].(state := Running)];
      current := thread;
    }

    /** st_thread_interrupt */
    method ThreadInterrupt(t: Tid)
      requires Flagged(t)
      modifies this`threads, this`sleepq, this`runq
      ensures View() == Interrupt(old(View()), t)
    {
      if threads[t].state == Zombie {
        return;
      }
      threads := threads[t := threads[t].(interrupted := true)];
      if threads[t].state == Running || threads[t].state == Runnable {
        return;
      }
      MakeRunnable(t, ByInterrupt);
    }

    /** _st_cond_signal: one loop serves both st_cond_signal and st_cond_broadcast. */
    method CondSignal(c: Cid, broadcast: bool)
      requires c in conds && NoDup(conds[c]) && forall t :: t in conds[c] ==> Flagged(t)
      modifies this`threads, this`sleepq, this`runq
      ensures View() == if broadcast then Broadcast(old(View()), c) else Signal(old(View()), c)
    {
      hide Wake, Scanning, Signal, Broadcast;
      var q := conds[c];
      ghost var s := View();
      var i := 0;
      ScanStart(s, c, broadcast);
      forall j | 0 <= j < |q|
        ensures AsBefore(s, q[j])
      {
        assert q[j] in conds[c];
      }
      while i < |q|
        invariant 0 <= i <= |q| && Scanning(s, View(), c, i, broadcast)
        invariant forall j :: i <= j < |q| ==> AsBefore(s, q[j])
      {
        var thread := q[i];
        assert AsBefore(s, thread);
        if threads[thread].state == CondWait {
          ghost var now := View();
          MakeRunnable(thread, BySignal);
          ScanWake(s, now, c, i, broadcast);
          if !broadcast {
            return;
          }
        } else {
          ScanPass(s, View(), c, i, broadcast);
        }
        i := i + 1;
      }
      ScanEnd(s, View(), c, broadcast);
    }

    /** The thread is as it was in s, and its sleep flag is right. */
    ghost predicate AsBefore(s: Vp, t: Tid)
      reads this
    {
      Flagged(t) && t in s.threads && threads[t] == s.threads[t]
    }

    /** st_mutex_unlock */
    method MutexUnlock(m: Mid) returns (r: Result)
      requires m in locks && forall t :: t in locks[m].queue ==> Flagged(t)
      modifies this`threads, this`sleepq, this`runq, this`locks
      ensures (View(), r) == UnlockCall(old(View()), m)
    {
      if locks[m].owner != Some(current) {
        return Error(EPERM);
      }
      var q := locks[m].queue;
      var i := 0;
      assert q[0..] == q;
      while i < |q|
        invariant 0 <= i <= |q| && View() == old(View())
        invariant forall t :: t in q ==> Flagged(t)
        invariant First(threads, q, LockWait) == First(threads, q[i..], LockWait)
      {
        var thread := q[i];
        assert thread in q && q[i..][0] == thread && q[i..][1..] == q[i + 1..];
        if threads[thread].state == LockWait {
          locks := locks[m := locks[m].(owner := Some(thread))];
          MakeRunnable(thread, ByHandOff);
          return Success;
        }
        i := i + 1;
      }
      locks := locks[m := locks[m].(owner := None)];
      return Success;
    }

    /** st_mutex_lock up to the switch; `Switched` when the caller has to wait. */
    method MutexLock(m: Mid) returns (r: Result)
      requires m in locks && Schedulable(View()) && !threads[current].onSleepq
      modifies this`threads, this`runq, this`current, this`locks
      ensures (View(), r) == LockCall(old(View()), m)
    {
      var me := current;
      if threads[me].interrupted {
        threads := threads[me := threads[me].(interrupted := false)];
        return Error(EINTR);
      }
      if locks[m].owner == None {
        locks := locks[m := locks[m].(owner := Some(me))];
        return Success;
      }
      if locks[m].owner == Some(me) {
        return Error(EDEADLK);
      }
      threads := threads[me := threads[me].(state := LockWait, inside := InLock(m), waker := NoOne)];
      locks := locks[m := locks[m].(queue := locks[m].queue + [me])];
      VpSchedule();
      return Switched;
    }

    /** The loop of dispatch over the I/O queue: requests that are ready leave it, the others stay in order. */
    method DispatchReady(ready: set<Tid>)
      requires NoDup(ioq) && forall t :: t in ioq ==> Flagged(t)
      modifies this`threads, this`sleepq, this`runq, this`ioq
      ensures View() == Dispatch(old(View()), Among(old(ioq), ready))
      ensures IoDone(old(View()), View(), ready, Among(old(ioq), ready))
    {
      hide Wake, IoDone;
      var q := ioq;
      ghost var fired := Among(q, ready);
      ghost var s := View();
      var kept, i := [], 0;
      assert q[0..] == q;
      while i < |q|
        invariant 0 <= i <= |q|
        invariant Wake(View(), Among(q[i..], ready), ByIo) == Wake(s, fired, ByIo)
        invariant kept + Without(q[i..], fired) == Without(q, fired)
        invariant ioq == q
        invariant forall j :: i <= j < |q| ==> Flagged(q[j])
      {
        var thread := q[i];
        ghost var now, rest := View(), Among(q[i + 1..], ready);
        assert q[i..][0] == thread && q[i..][1..] == q[i + 1..];
        AmongIs(q, ready);
        AmongIs(q[i + 1..], ready);
        if thread in ready {
          MakeRunnable(thread, ByIo);
          WakeSplit(now, [thread], rest, ByIo);
        } else {
          kept := kept + [thread];
        }
        i := i + 1;
      }
      WakeNobody(View(), ByIo);
      WakeKeepsIoq(s, fired, ByIo);
      ioq := kept;
      DispatchDone(s, ready);
    }
  }
}
