/**
 What holds at every point of every run of the scheduler.

 The invariant has four parts: where each thread is (`Places`), which call it is inside of
 (`Contexts`), what its flags say about its last wait (`Waits`), and mutex ownership (`Owners`).
 `busy` says whether the current thread is running (true between calls) or has just been
 parked and the next thread has not been chosen yet (false).
 */
module SchedulerInvariant {
  import opened ThreadStates
  import opened Options
  import opened Scheduler

  // ----- places

  ghost predicate Queues(s: Vp) {
    && s.idle in s.threads
    && (forall t :: t in s.runq || t in s.zombieq || t in s.ioq || t in s.sleepq ==> t in s.threads)
    && NoDup(s.runq) && NoDup(s.zombieq) && NoDup(s.ioq)
  }

  /** A thread is in exactly one place, and the sleep flag tells whether it is in the heap. */
  ghost predicate PlaceOk(s: Vp, t: Tid, busy: bool)
    requires t in s.threads
  {
    var th := s.threads[t];
    && (th.state == Running <==> busy && t == s.current)
    && (t in s.runq <==> th.state == Runnable && t != s.idle)
    && (t in s.zombieq <==> th.state == Zombie)
    && (th.onSleepq <==> t in s.sleepq)
    && (th.onSleepq ==> th.state == IoWait || th.state == CondWait || th.state == Sleeping)
  }

  ghost predicate Places(s: Vp, busy: bool) {
    && Queues(s)
    && (busy ==> s.current in s.threads)
    && forall t :: t in s.threads ==> PlaceOk(s, t, busy)
  }

  // ----- contexts

  /** The call a thread is inside of agrees with its state and with the wait queues it is linked in. */
  ghost predicate ContextOk(s: Vp, t: Tid)
    requires t in s.threads
  {
    var th := s.threads[t];
    && (t == s.idle ==> th.inside == Nowhere)
    && (th.inside == Nowhere ==> th.state == Running || th.state == Runnable)
    && (th.state == IoWait ==> t in s.ioq)
    && (t in s.ioq ==> th.inside == InPoll)
    && (th.state == CondWait ==> th.inside.InCond?)
    && (th.state == LockWait ==> th.inside.InLock?)
    && (th.state == Sleeping || th.state == Suspended ==> th.inside == InSleep)
    && (th.inside == InExit ==> th.state == Zombie || th.state == Runnable || th.state == Running)
    && (th.state == Zombie ==> th.inside == InExit)
    && (th.inside.InCond? ==> th.inside.c in s.conds)
    && (th.inside.InLock? ==> th.inside.m in s.locks)
    && (th.term.Some? ==> th.term.value in s.conds)
  }

  ghost predicate CondQueueOk(s: Vp, c: Cid)
    requires c in s.conds
  {
    && NoDup(s.conds[c])
    && (forall t :: t in s.conds[c] ==> t in s.threads)
    && (forall t :: t in s.threads ==> (t in s.conds[c] <==> s.threads[t].inside == InCond(c)))
  }

  ghost predicate LockQueueOk(s: Vp, m: Mid)
    requires m in s.locks
  {
    && NoDup(s.locks[m].queue)
    && (forall t :: t in s.locks[m].queue ==> t in s.threads)
    && (forall t :: t in s.threads ==> (t in s.locks[m].queue <==> s.threads[t].inside == InLock(m)))
  }

  ghost predicate Contexts(s: Vp) {
    forall t :: t in s.threads ==> ContextOk(s, t)
  }

  /** The wait queues hold exactly the threads inside the corresponding calls. */
  ghost predicate Links(s: Vp) {
    && (forall c :: c in s.conds ==> CondQueueOk(s, c))
    && (forall m :: m in s.locks ==> LockQueueOk(s, m))
    && (forall t, u :: t in s.threads && u in s.threads && s.threads[t].term.Some? ==>
          (s.threads[t].term == s.threads[u].term ==> t == u))
  }

  // ----- waits

  /**
   Inside a condition wait that is over, the timed-out flag is set exactly when the clock
   ended the wait; elsewhere it is never set.
   */
  ghost predicate WaitOk(th: Thread) {
    && (th.timedOut ==> th.inside.InCond? && th.state != CondWait)
    && (th.inside.InCond? && th.state != CondWait ==>
          && (th.timedOut <==> th.waker == ByClock)
          && (th.waker == BySignal || th.waker == ByClock || th.waker == ByInterrupt)
          && (th.waker == ByInterrupt ==> th.interrupted))
  }

  ghost predicate Waits(s: Vp) {
    forall t :: t in s.threads ==> WaitOk(s.threads[t])
  }

  // ----- mutexes

  /** A thread that has left LOCK_WAIT owns the mutex or was interrupted; one still in it does not own it. */
  ghost predicate OwnerOk(s: Vp, t: Tid)
    requires t in s.threads
  {
    var th := s.threads[t];
    th.inside.InLock? && th.inside.m in s.locks ==>
      var owner := s.locks[th.inside.m].owner;
      && (th.state != LockWait ==> th.interrupted || owner == Some(t))
      && (th.state == LockWait ==> owner != None && owner != Some(t))
  }

  ghost predicate Owners(s: Vp) {
    forall t :: t in s.threads ==> OwnerOk(s, t)
  }

  // ----- together

  ghost predicate Good(s: Vp, busy: bool) {
    Places(s, busy) && Contexts(s) && Links(s) && Waits(s) && Owners(s)
  }

  /** Holds whenever a thread is running: at every point between two switches. */
  ghost predicate Inv(s: Vp) {
    Good(s, true) && (s.current == s.idle ==> s.runq == [])
  }

  /** The objects that threads and queues refer to exist; a consequence of the invariant. */
  ghost predicate Grounded(s: Vp) {
    && Schedulable(s)
    && (s.current != s.idle ==> s.current !in s.runq)
    && (forall t :: t in s.ioq || t in s.sleepq ==> t in s.threads)
    && (forall t :: t in s.threads ==>
          && (s.threads[t].term.Some? ==> s.threads[t].term.value in s.conds)
          && (s.threads[t].inside.InCond? ==> s.threads[t].inside.c in s.conds)
          && (s.threads[t].inside.InLock? ==> s.threads[t].inside.m in s.locks)
          && (s.threads[t].inside.InExit? ==> t != s.idle))
  }

  lemma InvGrounded(s: Vp)
    requires Inv(s)
    ensures Grounded(s)
  {
    assert PlaceOk(s, s.current, true);
    assert forall t :: t in s.threads ==> ContextOk(s, t);
  }

  /** Nothing that the wait queues depend on has changed. */
  ghost predicate SameLinks(s: Vp, s': Vp) {
    && s'.threads.Keys == s.threads.Keys
    && s'.conds == s.conds && s'.locks == s.locks
    && forall t :: t in s.threads ==> s'.threads[t].inside == s.threads[t].inside && s'.threads[t].term == s.threads[t].term
  }

  lemma LinksFrame(s: Vp, s': Vp)
    requires Links(s) && SameLinks(s, s')
    ensures Links(s')
  {
    forall c | c in s'.conds
      ensures CondQueueOk(s', c)
    {
      assert CondQueueOk(s, c);
    }
    forall m | m in s'.locks
      ensures LockQueueOk(s', m)
    {
      assert LockQueueOk(s, m);
    }
  }

  // ----- waking a thread

  /** The threads of the list are distinct and all of them are waiting. */
  ghost predicate Wakeable(s: Vp, ts: seq<Tid>) {
    NoDup(ts) && forall t :: t in ts ==> t in s.threads && t != s.idle && IsWait(s.threads[t].state)
  }

  lemma WakeKeepsPlaces(s: Vp, ts: seq<Tid>, w: Waker, busy: bool)
    requires Places(s, busy) && Wakeable(s, ts)
    ensures Places(Wake(s, ts, w), busy)
  {
    var s' := Wake(s, ts, w);
    forall u | u in s'.threads
      ensures PlaceOk(s', u, busy)
    {
      assert PlaceOk(s, u, busy);
    }
    assert forall t :: t in ts ==> PlaceOk(s, t, busy) && t !in s.runq;
    NoDupAppend(s.runq, ts);
  }

  lemma WakeKeepsContexts(s: Vp, ts: seq<Tid>, w: Waker)
    requires Contexts(s) && Wakeable(s, ts)
    ensures Contexts(Wake(s, ts, w))
  {
    var s' := Wake(s, ts, w);
    forall u | u in s'.threads
      ensures ContextOk(s', u)
    {
      assert ContextOk(s, u);
    }
  }

  /** What may end a condition wait: a signal, the clock, or an interrupt that has set its flag. */
  ghost predicate EndsWait(th: Thread, w: Waker) {
    th.state == CondWait ==> w == BySignal || w == ByClock || (w == ByInterrupt && th.interrupted)
  }

  lemma WakeKeepsWaits(s: Vp, ts: seq<Tid>, w: Waker)
    requires Waits(s) && Contexts(s) && Wakeable(s, ts)
    requires forall t :: t in ts ==> t in s.threads && EndsWait(s.threads[t], w)
    ensures Waits(Wake(s, ts, w))
  {
    var s' := Wake(s, ts, w);
    forall u | u in s'.threads
      ensures WaitOk(s'.threads[u])
    {
      assert WaitOk(s.threads[u]) && ContextOk(s, u);
    }
  }

  lemma WakeKeepsOwners(s: Vp, ts: seq<Tid>, w: Waker)
    requires Owners(s) && Wakeable(s, ts)
    requires forall t :: t in ts && t in s.threads && s.threads[t].inside.InLock? ==> s.threads[t].interrupted
    ensures Owners(Wake(s, ts, w))
  {
    var s' := Wake(s, ts, w);
    forall u | u in s'.threads
      ensures OwnerOk(s', u)
    {
      assert OwnerOk(s, u);
    }
  }

  lemma WakeKeepsGood(s: Vp, ts: seq<Tid>, w: Waker, busy: bool)
    requires Good(s, busy) && Wakeable(s, ts)
    requires forall t :: t in ts ==> t in s.threads && EndsWait(s.threads[t], w)
    requires forall t :: t in ts && t in s.threads && s.threads[t].inside.InLock? ==> s.threads[t].interrupted
    ensures Good(Wake(s, ts, w), busy)
  {
    hide Places, Contexts, Links, Waits, Owners;
    WakeKeepsPlaces(s, ts, w, busy);
    WakeKeepsContexts(s, ts, w);
    LinksFrame(s, Wake(s, ts, w));
    WakeKeepsWaits(s, ts, w);
    WakeKeepsOwners(s, ts, w);
  }

  // ----- choosing the next thread

  /** `ST_ASSERT(thread->state == _ST_ST_RUNNABLE)` in _st_vp_schedule never fails. */
  lemma ScheduleAssertion(s: Vp)
    requires Places(s, false) && Contexts(s)
    ensures Schedulable(s.(current := s.idle))
    ensures s.threads[if s.runq != [] then s.runq[0] else s.idle].state == Runnable
  {
    var next := if s.runq != [] then s.runq[0] else s.idle;
    assert next in s.threads;
    assert PlaceOk(s, next, false) && ContextOk(s, next);
  }

  lemma ScheduleKeepsPlaces(s: Vp)
    requires Places(s, false) && Contexts(s)
    ensures s.runq != [] ==> s.runq[0] in s.threads
    ensures Places(Schedule(s), true)
    ensures Schedule(s).current == s.idle ==> Schedule(s).runq == []
  {
    ScheduleAssertion(s);
    assert s.runq != [] ==> PlaceOk(s, s.runq[0], false);
    ScheduleQueues(s);
    var s' := Schedule(s);
    hide Queues, PlaceOk, Contexts;
    forall u | u in s'.threads
      ensures PlaceOk(s', u, true)
    {
      SchedulePlace(s, u);
    }
  }

  lemma ScheduleQueues(s: Vp)
    requires Queues(s)
    ensures Queues(Schedule(s))
  {
    assert s.runq != [] ==> s.runq == [s.runq[0]] + s.runq[1..];
    assert forall u :: u in Schedule(s).runq ==> u in s.runq;
  }

  lemma SchedulePlace(s: Vp, u: Tid)
    requires Queues(s) && u in s.threads && PlaceOk(s, u, false) && (s.runq != [] ==> PlaceOk(s, s.runq[0], false))
    requires s.threads[if s.runq != [] then s.runq[0] else s.idle].state == Runnable
    ensures PlaceOk(Schedule(s), u, true)
  {
    assert s.runq != [] ==> s.runq == [s.runq[0]] + s.runq[1..];
  }

  lemma ScheduleKeepsContexts(s: Vp)
    requires Places(s, false) && Contexts(s)
    requires s.runq != [] ==> s.runq[0] in s.threads
    ensures Contexts(Schedule(s))
  {
    ScheduleAssertion(s);
    var s' := Schedule(s);
    forall u | u in s'.threads
      ensures ContextOk(s', u)
    {
      assert ContextOk(s, u);
    }
  }

  lemma ScheduleKeepsInv(s: Vp)
    requires Good(s, false)
    ensures Schedulable(s.(current := s.idle)) && Inv(Schedule(s))
  {
    ScheduleAssertion(s);
    ScheduleKeepsPlaces(s);
    ScheduleKeepsContexts(s);
    LinksFrame(s, Schedule(s));
    ScheduleKeepsWaits(s);
  }

  lemma ScheduleKeepsWaits(s: Vp)
    requires Waits(s) && Owners(s) && Schedulable(s.(current := s.idle))
    requires s.threads[if s.runq != [] then s.runq[0] else s.idle].state == Runnable
    ensures Waits(Schedule(s)) && Owners(Schedule(s))
  {
    var s' := Schedule(s);
    forall u | u in s'.threads
      ensures WaitOk(s'.threads[u]) && OwnerOk(s', u)
    {
      assert WaitOk(s.threads[u]) && OwnerOk(s, u);
    }
  }

  // ----- calls that do not block

  lemma InterruptKeepsGood(s: Vp, t: Tid, busy: bool)
    requires Good(s, busy) && t in s.threads && t != s.idle
    ensures Good(Interrupt(s, t), busy)
  {
    hide Good;
    var th := s.threads[t];
    if th.state != Zombie {
      FlagKeepsGood(s, t, true, busy);
      if IsWait(th.state) {
        WakeKeepsGood(s.(threads := s.threads[t := th.(interrupted := true)]), [t], ByInterrupt, busy);
      }
    }
  }

  /** Setting the interrupt flag, or clearing it on a thread that is not waiting for anything. */
  lemma FlagKeepsGood(s: Vp, t: Tid, flag: bool, busy: bool)
    requires Good(s, busy) && t in s.threads
    requires flag || s.threads[t].inside == Nowhere
    ensures Good(s.(threads := s.threads[t := s.threads[t].(interrupted := flag)]), busy)
  {
    var s' := s.(threads := s.threads[t := s.threads[t].(interrupted := flag)]);
    LinksFrame(s, s');
    hide PlaceOk, ContextOk, WaitOk, OwnerOk, Links;
    forall u | u in s'.threads
      ensures PlaceOk(s', u, busy) && ContextOk(s', u) && WaitOk(s'.threads[u]) && OwnerOk(s', u)
    {
      FlagAt(s, t, flag, busy, u);
    }
  }

  lemma FlagAt(s: Vp, t: Tid, flag: bool, busy: bool, u: Tid)
    requires t in s.threads && u in s.threads && (flag || s.threads[t].inside == Nowhere)
    requires PlaceOk(s, u, busy) && ContextOk(s, u) && WaitOk(s.threads[u]) && OwnerOk(s, u)
    ensures var s' := s.(threads := s.threads[t := s.threads[t].(interrupted := flag)]);
      PlaceOk(s', u, busy) && ContextOk(s', u) && WaitOk(s'.threads[u]) && OwnerOk(s', u)
  {
  }

  lemma SignalKeepsGood(s: Vp, c: Cid, busy: bool)
    requires Good(s, busy) && c in s.conds
    ensures Good(Signal(s, c), busy)
  {
    FirstIs(s.threads, s.conds[c], CondWait);
    match First(s.threads, s.conds[c], CondWait)
    case None =>
    case Some(t) =>
      assert ContextOk(s, t);
      WakeKeepsGood(s, [t], BySignal, busy);
  }

  lemma {:induction false} ThoseNoDup(threads: map<Tid, Thread>, q: seq<Tid>, st: RunState)
    requires NoDup(q)
    ensures NoDup(Those(threads, q, st))
  {
    if q != [] {
      assert q[0] !in q[1..];
      ThoseNoDup(threads, q[1..], st);
    }
  }

  lemma BroadcastKeepsGood(s: Vp, c: Cid, busy: bool)
    requires Good(s, busy) && c in s.conds
    ensures Good(Broadcast(s, c), busy)
  {
    assert CondQueueOk(s, c);
    ThoseNoDup(s.threads, s.conds[c], CondWait);
    var ts := Those(s.threads, s.conds[c], CondWait);
    assert forall t :: t in ts ==> ContextOk(s, t);
    WakeKeepsGood(s, ts, BySignal, busy);
  }

  // ----- calls that block

  /** The current thread is running its own code. */
  ghost predicate AtCall(s: Vp) {
    Inv(s) && s.current != s.idle && Me(s).inside == Nowhere
  }

  /** s' is s with the current thread parked and linked where its call says. */
  ghost predicate IsParked(s: Vp, s': Vp, st: RunState, inside: Inside, timeout: Option<int>)
    requires s.current in s.threads
  {
    && s' == Park(s, st, inside, timeout).(ioq := s'.ioq, zombieq := s'.zombieq, conds := s'.conds, locks := s'.locks)
    && s'.ioq == (if st == IoWait then s.ioq + [s.current] else s.ioq)
    && s'.zombieq == (if st == Zombie then s.zombieq + [s.current] else s.zombieq)
    && (timeout.Some? ==> st == IoWait || st == CondWait || st == Sleeping)
    && match inside {
         case Nowhere => false
         case InSleep => (st == Sleeping || st == Suspended) && s'.conds == s.conds && s'.locks == s.locks
         case InPoll => st == IoWait && s'.conds == s.conds && s'.locks == s.locks
         case InExit => st == Zombie && s'.conds == s.conds && s'.locks == s.locks
         case InCond(c) =>
           && st == CondWait && c in s.conds && s'.locks == s.locks
           && s'.conds == s.conds[c := s.conds[c] + [s.current]]
         case InLock(m) =>
           && st == LockWait && m in s.locks && s'.conds == s.conds
           && s.locks[m].owner != None && s.locks[m].owner != Some(s.current)
           && s'.locks == s.locks[m := s.locks[m].(queue := s.locks[m].queue + [s.current])]
       }
  }

  lemma ParkKeepsPlaces(s: Vp, s': Vp, st: RunState, inside: Inside, timeout: Option<int>)
    requires AtCall(s) && IsParked(s, s', st, inside, timeout)
    ensures Places(s', false)
  {
    var me := s.current;
    assert PlaceOk(s, me, true) && ContextOk(s, me);
    NoDupAppend(s.ioq, [me]);
    NoDupAppend(s.zombieq, [me]);
    forall u | u in s'.threads
      ensures PlaceOk(s', u, false)
    {
      assert PlaceOk(s, u, true);
    }
  }

  lemma ParkKeepsContexts(s: Vp, s': Vp, st: RunState, inside: Inside, timeout: Option<int>)
    requires AtCall(s) && IsParked(s, s', st, inside, timeout)
    ensures Contexts(s')
  {
    forall u | u in s'.threads
      ensures ContextOk(s', u)
    {
      assert ContextOk(s, u) && ContextOk(s, s.current);
    }
  }

  lemma ParkKeepsLinks(s: Vp, s': Vp, st: RunState, inside: Inside, timeout: Option<int>)
    requires AtCall(s) && IsParked(s, s', st, inside, timeout)
    ensures Links(s')
  {
    assert Links(s);
    ParkMoves(s, s', st, inside, timeout);
    hide AtCall, IsParked, CondQueueOk, LockQueueOk, MovedTo;
    forall c | c in s'.conds
      ensures CondQueueOk(s', c)
    {
      assert CondQueueOk(s, c);
      ParkCondQueue(s, s', c, inside);
    }
    forall m | m in s'.locks
      ensures LockQueueOk(s', m)
    {
      assert LockQueueOk(s, m);
      ParkLockQueue(s, s', m, inside);
    }
  }

  /** The current thread alone has changed where it is. */
  ghost predicate MovedTo(s: Vp, s': Vp, inside: Inside)
    requires s.current in s.threads
  {
    && Me(s).inside == Nowhere && s'.current == s.current && s'.threads.Keys == s.threads.Keys
    && (forall t :: t in s.threads && t != s.current ==> s'.threads[t] == s.threads[t])
    && s'.threads[s.current].inside == inside
  }

  lemma ParkMoves(s: Vp, s': Vp, st: RunState, inside: Inside, timeout: Option<int>)
    requires s.current in s.threads && Me(s).inside == Nowhere && IsParked(s, s', st, inside, timeout)
    ensures MovedTo(s, s', inside) && s'.conds.Keys == s.conds.Keys && s'.locks.Keys == s.locks.Keys
    ensures forall t :: t in s.threads ==> s'.threads[t].term == s.threads[t].term
    ensures forall c :: c in s.conds ==>
      s'.conds[c] == if inside == InCond(c) then s.conds[c] + [s.current] else s.conds[c]
    ensures forall m :: m in s.locks ==>
      s'.locks[m].queue == if inside == InLock(m) then s.locks[m].queue + [s.current] else s.locks[m].queue
  {
  }

  lemma ParkCondQueue(s: Vp, s': Vp, c: Cid, inside: Inside)
    requires s.current in s.threads && MovedTo(s, s', inside) && c in s.conds && CondQueueOk(s, c) && c in s'.conds
    requires s'.conds[c] == if inside == InCond(c) then s.conds[c] + [s.current] else s.conds[c]
    ensures CondQueueOk(s', c)
  {
    NoDupAppend(s.conds[c], [s.current]);
  }

  lemma ParkLockQueue(s: Vp, s': Vp, m: Mid, inside: Inside)
    requires s.current in s.threads && MovedTo(s, s', inside) && m in s.locks && LockQueueOk(s, m) && m in s'.locks
    requires s'.locks[m].queue == if inside == InLock(m) then s.locks[m].queue + [s.current] else s.locks[m].queue
    ensures LockQueueOk(s', m)
  {
    NoDupAppend(s.locks[m].queue, [s.current]);
  }

  lemma ParkKeepsWaits(s: Vp, s': Vp, st: RunState, inside: Inside, timeout: Option<int>)
    requires AtCall(s) && IsParked(s, s', st, inside, timeout)
    ensures Waits(s') && Owners(s')
  {
    forall u | u in s'.threads
      ensures WaitOk(s'.threads[u]) && OwnerOk(s', u)
    {
      assert WaitOk(s.threads[u]) && OwnerOk(s, u) && WaitOk(Me(s));
    }
  }

  lemma ParkKeepsGood(s: Vp, s': Vp, st: RunState, inside: Inside, timeout: Option<int>)
    requires AtCall(s) && IsParked(s, s', st, inside, timeout)
    ensures Good(s', false)
  {
    hide Places, Contexts, Links, Waits, Owners;
    ParkKeepsPlaces(s, s', st, inside, timeout);
    ParkKeepsContexts(s, s', st, inside, timeout);
    ParkKeepsLinks(s, s', st, inside, timeout);
    ParkKeepsWaits(s, s', st, inside, timeout);
  }
}
