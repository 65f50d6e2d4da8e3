/** Every library call, from one switch point to the next, keeps the invariant. */
module SchedulerCalls {
  import opened ThreadStates
  import opened Options
  import opened Scheduler
  import opened SchedulerInvariant

  lemma InterruptedKeepsInv(s: Vp)
    requires AtCall(s)
    ensures Inv(Interrupted(s).0)
  {
    FlagKeepsGood(s, s.current, false, true);
  }

  lemma CondWaitKeepsInv(s: Vp, c: Cid, timeout: Option<int>)
    requires AtCall(s) && c in s.conds
    ensures Inv(CondWaitCall(s, c, timeout).0)
  {
    hide Inv, Good;
    InvGrounded(s);
    assert Schedulable(s);
    hide Grounded;
    if Me(s).interrupted {
      InterruptedKeepsInv(s);
    } else {
      var s' := Park(s, CondWait, InCond(c), timeout).(conds := s.conds[c := s.conds[c] + [s.current]]);
      ParkKeepsGood(s, s', CondWait, InCond(c), timeout);
      ScheduleKeepsInv(s');
    }
  }

  lemma SleepKeepsInv(s: Vp, timeout: Option<int>)
    requires AtCall(s)
    ensures Inv(SleepCall(s, timeout).0)
  {
    hide Inv, Good;
    InvGrounded(s);
    assert Schedulable(s);
    hide Grounded;
    if Me(s).interrupted {
      InterruptedKeepsInv(s);
    } else {
      var st := if timeout.Some? then Sleeping else Suspended;
      ParkKeepsGood(s, Park(s, st, InSleep, timeout), st, InSleep, timeout);
      ScheduleKeepsInv(Park(s, st, InSleep, timeout));
    }
  }

  lemma PollKeepsInv(s: Vp, added: bool, timeout: Option<int>)
    requires AtCall(s)
    ensures Inv(PollCall(s, added, timeout).0)
  {
    hide Inv, Good;
    InvGrounded(s);
    assert Schedulable(s);
    hide Grounded;
    if Me(s).interrupted {
      InterruptedKeepsInv(s);
    } else if added {
      var s' := Park(s, IoWait, InPoll, timeout).(ioq := s.ioq + [s.current]);
      ParkKeepsGood(s, s', IoWait, InPoll, timeout);
      ScheduleKeepsInv(s');
    }
  }

  // ----- mutexes

  /** Only the owner of one mutex changes. */
  lemma OwnerChange(s: Vp, m: Mid, owner: Option<Tid>)
    requires Good(s, true) && m in s.locks
    requires forall t :: t in s.locks[m].queue && t in s.threads ==> s.threads[t].state != LockWait
    requires s.locks[m].owner.Some? ==> s.locks[m].owner.value !in s.locks[m].queue
    ensures Good(SetOwner(s, m, owner), true)
  {
    var s' := SetOwner(s, m, owner);
    forall u | u in s'.threads
      ensures PlaceOk(s', u, true) && ContextOk(s', u) && OwnerOk(s', u)
    {
      assert PlaceOk(s, u, true) && ContextOk(s, u) && OwnerOk(s, u);
      assert LockQueueOk(s, m);
    }
    OwnerLinks(s, m, owner);
  }

  lemma OwnerLinks(s: Vp, m: Mid, owner: Option<Tid>)
    requires Links(s) && m in s.locks
    ensures Links(SetOwner(s, m, owner))
  {
    var s' := SetOwner(s, m, owner);
    forall n | n in s'.locks
      ensures LockQueueOk(s', n)
    {
      assert LockQueueOk(s, n);
    }
    forall c | c in s'.conds
      ensures CondQueueOk(s', c)
    {
      assert CondQueueOk(s, c);
    }
  }

  /** An unowned mutex never has a thread in LOCK_WAIT on its queue. */
  lemma UnownedHasNoWaiter(s: Vp, m: Mid)
    requires Contexts(s) && Links(s) && Owners(s) && m in s.locks && s.locks[m].owner == None
    ensures forall t :: t in s.locks[m].queue ==> t in s.threads && s.threads[t].state != LockWait
  {
    assert LockQueueOk(s, m);
    forall t | t in s.locks[m].queue
      ensures t in s.threads && s.threads[t].state != LockWait
    {
      assert OwnerOk(s, t);
    }
  }

  lemma TakeKeepsInv(s: Vp, m: Mid)
    requires AtCall(s) && m in s.locks && s.locks[m].owner == None
    ensures Inv(SetOwner(s, m, Some(s.current)))
  {
    UnownedHasNoWaiter(s, m);
    OwnerChange(s, m, Some(s.current));
  }

  lemma LockKeepsInv(s: Vp, m: Mid)
    requires AtCall(s) && m in s.locks
    ensures Inv(LockCall(s, m).0)
  {
    hide Inv, Good;
    InvGrounded(s);
    assert Schedulable(s);
    hide Grounded;
    var lock := s.locks[m];
    if Me(s).interrupted {
      InterruptedKeepsInv(s);
    } else if lock.owner == None {
      TakeKeepsInv(s, m);
    } else if lock.owner != Some(s.current) {
      var s' := Park(s, LockWait, InLock(m), None).(locks := s.locks[m := lock.(queue := lock.queue + [s.current])]);
      ParkKeepsGood(s, s', LockWait, InLock(m), None);
      ScheduleKeepsInv(s');
    }
  }

  /** Owners do not matter for places, contexts and waits. */
  lemma OwnerFrame(s: Vp, m: Mid, owner: Option<Tid>, busy: bool)
    requires Places(s, busy) && Contexts(s) && Waits(s) && m in s.locks
    ensures var s' := SetOwner(s, m, owner);
      Places(s', busy) && Contexts(s') && Waits(s')
  {
    var s' := SetOwner(s, m, owner);
    forall u | u in s'.threads
      ensures PlaceOk(s', u, busy) && ContextOk(s', u)
    {
      assert PlaceOk(s, u, busy) && ContextOk(s, u);
    }
  }

  lemma TryLockKeepsInv(s: Vp, m: Mid)
    requires AtCall(s) && m in s.locks
    ensures Inv(TryLockCall(s, m).0)
  {
    if s.locks[m].owner == None {
      TakeKeepsInv(s, m);
    }
  }

  lemma HandOffOwners(s: Vp, m: Mid, t: Tid)
    requires Owners(s) && Links(s) && m in s.locks && s.locks[m].owner == Some(s.current)
    requires s.current !in s.locks[m].queue
    requires t in s.locks[m].queue && t in s.threads && s.threads[t].state == LockWait
    ensures Owners(SetOwner(Wake(s, [t], ByHandOff), m, Some(t)))
  {
    var s' := SetOwner(Wake(s, [t], ByHandOff), m, Some(t));
    assert LockQueueOk(s, m);
    forall u | u in s'.threads
      ensures OwnerOk(s', u)
    {
      assert OwnerOk(s, u);
    }
  }

  lemma HandOffFacts(s: Vp, m: Mid, t: Tid)
    requires AtCall(s) && m in s.locks
    requires t in s.locks[m].queue && t in s.threads && s.threads[t].state == LockWait
    ensures Wakeable(s, [t]) && s.current !in s.locks[m].queue
  {
    assert LockQueueOk(s, m) && ContextOk(s, t);
  }

  lemma HandOffKeepsInv(s: Vp, m: Mid, t: Tid)
    requires AtCall(s) && m in s.locks && s.locks[m].owner == Some(s.current)
    requires t in s.locks[m].queue && t in s.threads && s.threads[t].state == LockWait
    ensures Inv(SetOwner(Wake(s, [t], ByHandOff), m, Some(t)))
  {
    HandOffFacts(s, m, t);
    HandOffGood(s, m, t);
    hide Good, Wakeable;
  }

  lemma HandOffGood(s: Vp, m: Mid, t: Tid)
    requires Good(s, true) && m in s.locks && s.locks[m].owner == Some(s.current) && Wakeable(s, [t])
    requires t in s.locks[m].queue && t in s.threads && s.threads[t].state == LockWait && s.current !in s.locks[m].queue
    ensures Good(SetOwner(Wake(s, [t], ByHandOff), m, Some(t)), true)
  {
    hide Places, Contexts, Links, Waits, Owners;
    var s1 := Wake(s, [t], ByHandOff);
    WakeKeepsPlaces(s, [t], ByHandOff, true);
    WakeKeepsContexts(s, [t], ByHandOff);
    WakeKeepsWaits(s, [t], ByHandOff);
    LinksFrame(s, s1);
    OwnerLinks(s1, m, Some(t));
    OwnerFrame(s1, m, Some(t), true);
    HandOffOwners(s, m, t);
  }

  lemma UnlockKeepsInv(s: Vp, m: Mid)
    requires AtCall(s) && m in s.locks
    ensures Inv(UnlockCall(s, m).0)
  {
    var lock := s.locks[m];
    if lock.owner == Some(s.current) {
      FirstIs(s.threads, lock.queue, LockWait);
      assert LockQueueOk(s, m);
      match First(s.threads, lock.queue, LockWait)
      case None => OwnerChange(s, m, None);
      case Some(t) => HandOffKeepsInv(s, m, t);
    }
  }

  // ----- creating objects

  lemma CreateKeepsInv(s: Vp, t: Tid, term: Option<Cid>)
    requires AtCall(s) && t !in s.threads && (term.Some? ==> term.value !in s.conds)
    ensures Inv(CreateCall(s, t, term).0)
  {
    var s' := CreateCall(s, t, term).0;
    NoDupAppend(s.runq, [t]);
    forall u | u in s'.threads
      ensures PlaceOk(s', u, true) && ContextOk(s', u) && WaitOk(s'.threads[u]) && OwnerOk(s', u)
    {
      assert u != t ==> PlaceOk(s, u, true) && ContextOk(s, u) && WaitOk(s.threads[u]) && OwnerOk(s, u);
    }
    CreateKeepsLinks(s, t, term);
  }

  lemma CreateKeepsLinks(s: Vp, t: Tid, term: Option<Cid>)
    requires Links(s) && Contexts(s) && t !in s.threads && (term.Some? ==> term.value !in s.conds)
    ensures Links(CreateCall(s, t, term).0)
  {
    var s' := CreateCall(s, t, term).0;
    forall c | c in s'.conds
      ensures CondQueueOk(s', c)
    {
      if c in s.conds {
        assert CondQueueOk(s, c);
      } else {
        assert forall u :: u in s.threads ==> ContextOk(s, u);
      }
    }
    forall m | m in s'.locks
      ensures LockQueueOk(s', m)
    {
      assert LockQueueOk(s, m);
    }
    assert forall u :: u in s.threads ==> ContextOk(s, u);
  }

  lemma NewCondKeepsInv(s: Vp, c: Cid)
    requires AtCall(s) && c !in s.conds
    ensures Inv(s.(conds := s.conds[c := []]))
  {
    var s' := s.(conds := s.conds[c := []]);
    forall u | u in s'.threads
      ensures PlaceOk(s', u, true) && ContextOk(s', u) && OwnerOk(s', u)
    {
      assert PlaceOk(s, u, true) && ContextOk(s, u) && OwnerOk(s, u);
    }
    forall d | d in s'.conds
      ensures CondQueueOk(s', d)
    {
      assert d != c ==> CondQueueOk(s, d);
    }
    forall m | m in s'.locks
      ensures LockQueueOk(s', m)
    {
      assert LockQueueOk(s, m);
    }
  }

  lemma NewLockKeepsInv(s: Vp, m: Mid)
    requires AtCall(s) && m !in s.locks
    ensures Inv(s.(locks := s.locks[m := Lock(None, [])]))
  {
    hide Grounded, Links;
    var s' := s.(locks := s.locks[m := Lock(None, [])]);
    forall u | u in s'.threads
      ensures PlaceOk(s', u, true) && ContextOk(s', u) && OwnerOk(s', u)
    {
      assert PlaceOk(s, u, true) && ContextOk(s, u) && OwnerOk(s, u);
    }
    NewLockKeepsLinks(s, m);
  }

  lemma NewLockKeepsLinks(s: Vp, m: Mid)
    requires Links(s) && Contexts(s) && m !in s.locks
    ensures Links(s.(locks := s.locks[m := Lock(None, [])]))
  {
    var s' := s.(locks := s.locks[m := Lock(None, [])]);
    forall d | d in s'.conds
      ensures CondQueueOk(s', d)
    {
      assert CondQueueOk(s, d);
    }
    forall n | n in s'.locks
      ensures LockQueueOk(s', n)
    {
      assert n != m ==> LockQueueOk(s, n);
      assert forall u :: u in s.threads ==> ContextOk(s, u);
    }
  }

  // ----- the end of a thread

  lemma GoneKeepsGood(s: Vp)
    requires Inv(s) && s.current != s.idle && (Me(s).inside == Nowhere || Me(s).inside == InExit)
    ensures Good(Gone(s), false)
  {
    var s' := Gone(s);
    assert PlaceOk(s, s.current, true) && ContextOk(s, s.current);
    forall u | u in s'.threads
      ensures PlaceOk(s', u, false) && WaitOk(s'.threads[u]) && OwnerOk(s', u)
    {
      assert PlaceOk(s, u, true) && WaitOk(s.threads[u]) && OwnerOk(s, u);
    }
    GoneKeepsContexts(s);
  }

  lemma GoneKeepsContexts(s: Vp)
    requires Inv(s) && s.current != s.idle && (Me(s).inside == Nowhere || Me(s).inside == InExit)
    ensures Contexts(Gone(s)) && Links(Gone(s))
  {
    var s' := Gone(s);
    forall u | u in s'.threads
      ensures ContextOk(s', u)
    {
      assert ContextOk(s, u);
      if s.threads[u].inside.InCond? {
        assert CondQueueOk(s, s.threads[u].inside.c);
      }
    }
    forall c | c in s'.conds
      ensures CondQueueOk(s', c)
    {
      assert CondQueueOk(s, c);
    }
    forall m | m in s'.locks
      ensures LockQueueOk(s', m)
    {
      assert LockQueueOk(s, m);
    }
  }

  lemma ExitKeepsInv(s: Vp)
    requires AtCall(s) && Grounded(s)
    ensures Inv(ExitCall(s).0)
  {
    hide Inv, Good;
    InvGrounded(s);
    assert Schedulable(s);
    hide Grounded;
    if Me(s).term == None {
      GoneKeepsGood(s);
      ScheduleKeepsInv(Gone(s));
    } else {
      var c := Me(s).term.value;
      var s' := Park(s, Zombie, InExit, None).(zombieq := s.zombieq + [s.current]);
      ParkKeepsGood(s, s', Zombie, InExit, None);
      SignalKeepsGood(s', c, false);
      ScheduleKeepsInv(Signal(s', c));
    }
  }

  /** st_thread_join moves the zombie it has waited for to the run queue. */
  lemma CollectKeepsInv(s: Vp, t: Tid)
    requires AtCall(s) && t in s.threads && s.threads[t].state == Zombie
    ensures Inv(Collect(s, t))
  {
    var s' := Collect(s, t);
    WithoutIs(s.zombieq, [t]);
    assert PlaceOk(s, t, true) && ContextOk(s, t);
    NoDupAppend(s.runq, [t]);
    forall u | u in s'.threads
      ensures PlaceOk(s', u, true) && ContextOk(s', u)
    {
      assert PlaceOk(s, u, true) && ContextOk(s, u);
    }
    CollectKeepsWaits(s, t);
  }

  lemma CollectKeepsWaits(s: Vp, t: Tid)
    requires Links(s) && Waits(s) && Owners(s) && t in s.threads
    requires s.threads[t].state == Zombie && s.threads[t].inside == InExit
    ensures Links(Collect(s, t)) && Waits(Collect(s, t)) && Owners(Collect(s, t))
  {
    var s' := Collect(s, t);
    forall u | u in s'.threads
      ensures WaitOk(s'.threads[u]) && OwnerOk(s', u)
    {
      assert WaitOk(s.threads[u]) && OwnerOk(s, u);
    }
    LinksFrame(s, s');
  }

  lemma JoinKeepsInv(s: Vp, t: Tid, first: bool)
    requires AtCall(s) && Grounded(s) && t in s.threads && t != s.idle
    ensures Inv(JoinCall(s, t, first).0)
  {
    hide Inv, Good;
    InvGrounded(s);
    assert Schedulable(s);
    hide Grounded;
    var th := s.threads[t];
    if th.term != None && s.current != t && !(first && s.conds[th.term.value] != []) {
      if th.state == Zombie {
        CollectKeepsInv(s, t);
      } else {
        CondWaitKeepsInv(s, th.term.value, None);
      }
    }
  }

  // ----- returning from a blocking call

  /** s' is s after the current thread has taken its link out and left the call. */
  ghost predicate HasReturned(s: Vp, s': Vp)
    requires s.current in s.threads && s.current in s'.threads
  {
    var me, th, th' := s.current, Me(s), s'.threads[s.current];
    && s' == WithMe(s, th').(ioq := s'.ioq, conds := s'.conds, locks := s'.locks)
    && th' == th.(inside := Nowhere, interrupted := th'.interrupted, timedOut := false)
    && s'.ioq == (if th.inside == InPoll then Without(s.ioq, [me]) else s.ioq)
    && s'.conds == (if th.inside.InCond? && th.inside.c in s.conds
                    then s.conds[th.inside.c := Without(s.conds[th.inside.c], [me])] else s.conds)
    && s'.locks == (if th.inside.InLock? && th.inside.m in s.locks
                    then s.locks[th.inside.m := s.locks[th.inside.m].(queue := Without(s.locks[th.inside.m].queue, [me]))]
                    else s.locks)
  }

  lemma ReturnKeepsPlaces(s: Vp, s': Vp)
    requires Inv(s) && s.current in s'.threads && HasReturned(s, s') && Me(s).inside != InExit
    ensures Places(s', true) && Contexts(s')
  {
    ReturnQueues(s, s');
    hide HasReturned, PlaceOk, ContextOk, Queues;
    forall u | u in s'.threads
      ensures PlaceOk(s', u, true) && ContextOk(s', u)
    {
      ReturnPlace(s, s', u);
    }
  }

  lemma ReturnQueues(s: Vp, s': Vp)
    requires s.current in s.threads && s.current in s'.threads && HasReturned(s, s') && Queues(s)
    ensures Queues(s') && s'.threads.Keys == s.threads.Keys && s'.current == s.current && s'.idle == s.idle
  {
    WithoutIs(s.ioq, [s.current]);
  }

  lemma ReturnPlace(s: Vp, s': Vp, u: Tid)
    requires s.current in s.threads && s.current in s'.threads && HasReturned(s, s') && Me(s).inside != InExit
    requires u in s.threads && PlaceOk(s, u, true) && ContextOk(s, u) && PlaceOk(s, s.current, true)
    ensures PlaceOk(s', u, true) && ContextOk(s', u)
  {
    WithoutIs(s.ioq, [s.current]);
  }

  lemma ReturnKeepsLinks(s: Vp, s': Vp)
    requires Inv(s) && s.current in s'.threads && HasReturned(s, s') && Me(s).inside != InExit
    ensures Links(s')
  {
    hide Contexts, Waits, Without;
    assert Links(s);
    hide Inv;
    forall c | c in s'.conds
      ensures CondQueueOk(s', c)
    {
      assert CondQueueOk(s, c);
      ReturnCondQueue(s, s', c);
    }
    forall m | m in s'.locks
      ensures LockQueueOk(s', m)
    {
      assert LockQueueOk(s, m);
      ReturnLockQueue(s, s', m);
    }
  }

  lemma ReturnCondQueue(s: Vp, s': Vp, c: Cid)
    requires s.current in s.threads && s.current in s'.threads && HasReturned(s, s')
    requires c in s.conds && c in s'.conds && CondQueueOk(s, c)
    ensures CondQueueOk(s', c)
  {
    WithoutIs(s.conds[c], [s.current]);
    assert forall t :: t in s.threads && t != s.current ==> s'.threads[t] == s.threads[t];
  }

  lemma ReturnLockQueue(s: Vp, s': Vp, m: Mid)
    requires s.current in s.threads && s.current in s'.threads && HasReturned(s, s')
    requires m in s.locks && m in s'.locks && LockQueueOk(s, m)
    ensures LockQueueOk(s', m)
  {
    WithoutIs(s.locks[m].queue, [s.current]);
    assert forall t :: t in s.threads && t != s.current ==> s'.threads[t] == s.threads[t];
  }

  lemma ReturnKeepsInv(s: Vp, s': Vp)
    requires Inv(s) && s.current in s'.threads && HasReturned(s, s') && Me(s).inside != InExit
    ensures Inv(s')
  {
    hide Places, Contexts, Links, Waits, Owners;
    ReturnKeepsPlaces(s, s');
    ReturnKeepsLinks(s, s');
    ReturnKeepsWaits(s, s');
  }

  lemma ReturnKeepsWaits(s: Vp, s': Vp)
    requires Inv(s) && s.current in s'.threads && HasReturned(s, s')
    ensures Waits(s') && Owners(s')
  {
    hide Contexts, Links, Without;
    forall u | u in s'.threads
      ensures WaitOk(s'.threads[u]) && OwnerOk(s', u)
    {
      assert WaitOk(s.threads[u]) && OwnerOk(s, u);
    }
  }

  lemma ResumeReturns(s: Vp)
    requires Grounded(s) && WaitOk(Me(s)) && Me(s).inside != Nowhere && Me(s).inside != InExit
    ensures s.current in ResumeCall(s).0.threads && HasReturned(s, ResumeCall(s).0)
  {
    hide Inv;
  }

  lemma ResumeKeepsInv(s: Vp)
    requires Inv(s) && Grounded(s) && Me(s).inside != Nowhere
    ensures Inv(ResumeCall(s).0)
  {
    assert WaitOk(Me(s));
    hide Inv, Good, HasReturned;
    if Me(s).inside == InExit {
      GoneKeepsGood(s);
      ScheduleKeepsInv(Gone(s));
    } else {
      ResumeReturns(s);
      ReturnKeepsInv(s, ResumeCall(s).0);
    }
  }

  // ----- the idle thread

  /**
   When the idle thread runs the run queue is empty, so every request on the I/O queue belongs
   to a thread in IO_WAIT, and dispatch cannot put a thread on the run queue twice.
   */
  lemma IdleSeesOnlyIoWait(s: Vp, t: Tid)
    requires Inv(s) && s.current == s.idle && t in s.ioq
    ensures s.runq == [] && t in s.threads && t != s.idle && s.threads[t].state == IoWait
  {
    assert PlaceOk(s, t, true) && ContextOk(s, t);
  }

  lemma DispatchKeepsGood(s: Vp, ready: set<Tid>)
    requires Inv(s) && s.current == s.idle
    ensures Good(Dispatch(s, Among(s.ioq, ready)), true)
  {
    var fired := Among(s.ioq, ready);
    AmongIs(s.ioq, ready);
    forall t | t in fired
      ensures t in s.threads && t != s.idle && s.threads[t].state == IoWait && s.threads[t].inside == InPoll
    {
      IdleSeesOnlyIoWait(s, t);
      assert ContextOk(s, t);
    }
    WakeKeepsGood(s, fired, ByIo, true);
    UnlinkKeepsGood(Wake(s, fired, ByIo), fired);
  }

  /** Requests of threads that are not in IO_WAIT any more leave the I/O queue. */
  lemma UnlinkKeepsGood(s: Vp, ts: seq<Tid>)
    requires Good(s, true) && forall t :: t in ts && t in s.threads ==> s.threads[t].state != IoWait
    ensures Good(s.(ioq := Without(s.ioq, ts)), true)
  {
    var s' := s.(ioq := Without(s.ioq, ts));
    WithoutIs(s.ioq, ts);
    forall u | u in s'.threads
      ensures PlaceOk(s', u, true) && ContextOk(s', u) && WaitOk(s'.threads[u]) && OwnerOk(s', u)
    {
      assert PlaceOk(s, u, true) && ContextOk(s, u) && WaitOk(s.threads[u]) && OwnerOk(s, u);
    }
    LinksFrame(s, s');
  }

  lemma TickKeepsGood(s: Vp, now: int)
    requires Good(s, true)
    ensures Good(s.(lastClock := now), true)
  {
    var s' := s.(lastClock := now);
    forall u | u in s'.threads
      ensures PlaceOk(s', u, true) && ContextOk(s', u) && WaitOk(s'.threads[u]) && OwnerOk(s', u)
    {
      assert PlaceOk(s, u, true) && ContextOk(s, u) && WaitOk(s.threads[u]) && OwnerOk(s, u);
    }
    LinksFrame(s, s');
  }

  lemma CheckClockKeepsGood(s: Vp, now: int, order: seq<Tid>)
    requires Good(s, true) && DueOrder(s.sleepq, now, order)
    ensures Good(CheckClock(s, now, order), true)
  {
    TickKeepsGood(s, now);
    var s' := s.(lastClock := now);
    forall t | t in order
      ensures t in s'.threads && t != s.idle && IsWait(s'.threads[t].state) && s'.threads[t].state != LockWait
      ensures !s'.threads[t].inside.InLock?
    {
      assert PlaceOk(s, t, true) && ContextOk(s, t);
    }
    WakeKeepsGood(s', order, ByClock, true);
  }

  lemma IdleParks(s: Vp)
    requires Good(s, true) && s.current == s.idle
    ensures Good(WithMe(s, Me(s).(state := Runnable)), false)
  {
    var s' := WithMe(s, Me(s).(state := Runnable));
    forall u | u in s'.threads
      ensures PlaceOk(s', u, false) && ContextOk(s', u) && WaitOk(s'.threads[u]) && OwnerOk(s', u)
    {
      assert PlaceOk(s, u, true) && ContextOk(s, u) && WaitOk(s.threads[u]) && OwnerOk(s, u);
    }
    LinksFrame(s, s');
  }

  /** The threads that dispatch and the clock wake are threads, so the round is defined. */
  lemma IdleDefined(s: Vp, ready: set<Tid>, now: int, order: seq<Tid>)
    requires Inv(s) && s.current == s.idle
    requires DueOrder(Dispatch(s, Among(s.ioq, ready)).sleepq, now, order)
    ensures Schedulable(s) && forall t :: t in Among(s.ioq, ready) + order ==> t in s.threads
  {
    AmongIs(s.ioq, ready);
  }

  lemma IdleEnds(s: Vp)
    requires Good(s, true) && s.current == s.idle
    ensures Schedulable(WithMe(s, Me(s).(state := Runnable)))
    ensures Inv(Schedule(WithMe(s, Me(s).(state := Runnable))))
  {
    IdleParks(s);
    ScheduleKeepsInv(WithMe(s, Me(s).(state := Runnable)));
  }

  lemma IdleKeepsInv(s: Vp, ready: set<Tid>, now: int, order: seq<Tid>)
    requires Inv(s) && s.current == s.idle
    requires DueOrder(Dispatch(s, Among(s.ioq, ready)).sleepq, now, order)
    ensures Schedulable(s) && forall t :: t in Among(s.ioq, ready) + order ==> t in s.threads
    ensures Inv(IdleCall(s, Among(s.ioq, ready), now, order).0)
  {
    IdleDefined(s, ready, now, order);
    DispatchKeepsGood(s, ready);
    var s1 := Dispatch(s, Among(s.ioq, ready));
    CheckClockKeepsGood(s1, now, order);
    IdleEnds(CheckClock(s1, now, order));
  }
}
