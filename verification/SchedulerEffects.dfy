/**
 What each call of State Threads does to its caller, to the other threads and to the queues, in every state of
 the scheduler (st-1.9/sched.c and sync.c).
 */
module SchedulerEffects {
  import opened ThreadStates
  import opened Options
  import opened Scheduler
  import opened SchedulerInvariant
  import opened SchedulerRuns

  // ----- the processor changes hands

  /** These threads have joined the run queue; its head has the processor, or the idle thread if it was empty. */
  ghost predicate TurnPasses(s: Vp, s': Vp, added: seq<Tid>) {
    && s'.idle == s.idle
    && if s.runq + added == [] then s'.current == s.idle && s'.runq == [] else [s'.current] + s'.runq == s.runq + added
  }

  /** Every other thread is as it was, but for the one that now runs. */
  ghost predicate OthersKeep(s: Vp, s': Vp) {
    forall t :: t in s.threads && t != s.current ==>
      t in s'.threads && s'.threads[t] == if t == s'.current then s.threads[t].(state := Running) else s.threads[t]
  }

  ghost predicate WaitsIn(th: Thread, th': Thread, st: RunState, inside: Inside, timeout: Option<int>) {
    && th'.state == st && th'.inside == inside && th'.onSleepq == timeout.Some?
    && th'.interrupted == th.interrupted && th'.timedOut == th.timedOut && th'.term == th.term
  }

  /** The caller waits in this call, until its timeout at the latest, and another thread has the processor. */
  ghost predicate Waits(s: Vp, s': Vp, st: RunState, inside: Inside, timeout: Option<int>)
    requires s.current in s.threads
  {
    && s'.threads.Keys == s.threads.Keys && TurnPasses(s, s', []) && OthersKeep(s, s')
    && WaitsIn(s.threads[s.current], s'.threads[s.current], st, inside, timeout)
    && s'.lastClock == s.lastClock && s'.zombieq == s.zombieq
    && s'.sleepq == if timeout.Some? then s.sleepq[s.current := s.lastClock + timeout.value] else s.sleepq
  }

  /** The call has returned at once and has only used up the caller's interrupt. */
  ghost predicate TurnedBack(s: Vp, s': Vp, r: Result)
    requires s.current in s.threads
  {
    && r == Error(EINTR) && s.current in s'.threads && !s'.threads[s.current].interrupted
    && s == s'.(threads := s'.threads[s.current := s'.threads[s.current].(interrupted := true)])
  }

  lemma CallerPlace(s: Vp)
    requires Inv(s) && s.current in s.threads
    ensures s.threads[s.current].state == Running && s.current !in s.runq && s.current !in s.zombieq && s.current !in s.sleepq
    ensures forall t :: t in s.runq ==> t != s.idle && t in s.threads
  {
    assert PlaceOk(s, s.current, true);
    forall t | t in s.runq
      ensures t != s.idle && t in s.threads
    {
      assert PlaceOk(s, t, true);
    }
  }

  lemma TurnedBackIs(s: Vp)
    requires s.current in s.threads && Me(s).interrupted
    ensures TurnedBack(s, WithMe(s, Me(s).(interrupted := false)), Error(EINTR))
  {
    assert s.threads[s.current := s.threads[s.current]] == s.threads;
  }

  /** s1 is s with the caller parked; then the next thread is chosen. */
  lemma ParkWaits(s: Vp, s1: Vp, st: RunState, inside: Inside, timeout: Option<int>)
    requires s.current in s.threads && s.idle in s.threads && s.current != s.idle && s.current !in s.runq
    requires forall t :: t in s.runq ==> t in s.threads
    requires s1 == Park(s, st, inside, timeout).(ioq := s1.ioq, conds := s1.conds, locks := s1.locks)
    ensures MaySchedule(s1) && Waits(s, Schedule(s1), st, inside, timeout)
    ensures Schedule(s1).ioq == s1.ioq && Schedule(s1).conds == s1.conds && Schedule(s1).locks == s1.locks
  {
    ParkIs(s, st, inside, timeout);
    hide Park;
    ScheduleTurn(s1);
    var s' := Schedule(s1);
    assert s'.current != s.current;
    assert s'.threads.Keys == s1.threads.Keys;
    hide Schedule, TurnPasses;
    forall t | t in s.threads
      ensures s'.threads[t] == if t == s'.current then s1.threads[t].(state := Running) else s1.threads[t]
    {
      ScheduleAt(s1, t);
    }
    TurnSame(s, s1, s');
  }

  lemma ParkIs(s: Vp, st: RunState, inside: Inside, timeout: Option<int>)
    requires s.current in s.threads
    ensures var s1, th := Park(s, st, inside, timeout), s.threads[s.current];
      && s1.threads == s.threads[s.current := th.(state := st, inside := inside, onSleepq := timeout.Some?, waker := NoOne)]
      && s1.runq == s.runq && s1.idle == s.idle && s1.lastClock == s.lastClock && s1.zombieq == s.zombieq
      && s1.sleepq == if timeout.Some? then s.sleepq[s.current := s.lastClock + timeout.value] else s.sleepq
  {
  }

  lemma ScheduleTurn(s: Vp)
    requires MaySchedule(s)
    ensures TurnPasses(s, Schedule(s), [])
  {
    assert s.runq + [] == s.runq;
  }

  lemma ScheduleAt(s: Vp, t: Tid)
    requires MaySchedule(s) && t in s.threads
    ensures var s' := Schedule(s);
      t in s'.threads && s'.threads[t] == if t == s'.current then s.threads[t].(state := Running) else s.threads[t]
  {
  }

  lemma TurnSame(s: Vp, s1: Vp, s': Vp)
    requires TurnPasses(s1, s', []) && s1.runq == s.runq && s1.idle == s.idle
    ensures TurnPasses(s, s', [])
  {
  }

  // ----- waiting

  lemma WaitEffect(s: Vp, c: Cid, timeout: Option<int>)
    requires Inv(s) && Grounded(s) && Enabled(s, DoWait(c, timeout))
    ensures var (s', r) := Next(s, DoWait(c, timeout));
      if Me(s).interrupted then TurnedBack(s, s', r)
      else
        && r == Switched && Waits(s, s', CondWait, InCond(c), timeout)
        && s'.conds == s.conds[c := s.conds[c] + [s.current]] && s'.ioq == s.ioq && s'.locks == s.locks
  {
    hide Inv;
    CallerPlace(s);
    if Me(s).interrupted {
      TurnedBackIs(s);
    } else {
      ParkWaits(s, Park(s, CondWait, InCond(c), timeout).(conds := s.conds[c := s.conds[c] + [s.current]]),
                CondWait, InCond(c), timeout);
    }
    hide Waits, Park, Schedule, TurnedBack, Grounded;
  }

  lemma SleepEffect(s: Vp, timeout: Option<int>)
    requires Inv(s) && Grounded(s) && Enabled(s, DoSleep(timeout))
    ensures var (s', r) := Next(s, DoSleep(timeout));
      if Me(s).interrupted then TurnedBack(s, s', r)
      else
        && r == Switched && Waits(s, s', if timeout.Some? then Sleeping else Suspended, InSleep, timeout)
        && s'.conds == s.conds && s'.ioq == s.ioq && s'.locks == s.locks
  {
    hide Inv;
    CallerPlace(s);
    if Me(s).interrupted {
      TurnedBackIs(s);
    } else {
      var st := if timeout.Some? then Sleeping else Suspended;
      ParkWaits(s, Park(s, st, InSleep, timeout), st, InSleep, timeout);
    }
    hide Waits, Park, Schedule, TurnedBack, Grounded;
  }

  /** added: the event system accepts the descriptors. */
  lemma PollEffect(s: Vp, added: bool, timeout: Option<int>)
    requires Inv(s) && Grounded(s) && Enabled(s, DoPoll(added, timeout))
    ensures var (s', r) := Next(s, DoPoll(added, timeout));
      if Me(s).interrupted then TurnedBack(s, s', r)
      else if !added then r == Error(EINVAL) && s' == s
      else
        && r == Switched && Waits(s, s', IoWait, InPoll, timeout)
        && s'.ioq == s.ioq + [s.current] && s'.conds == s.conds && s'.locks == s.locks
  {
    hide Inv;
    CallerPlace(s);
    if Me(s).interrupted {
      TurnedBackIs(s);
    } else if added {
      ParkWaits(s, Park(s, IoWait, InPoll, timeout).(ioq := s.ioq + [s.current]), IoWait, InPoll, timeout);
    }
    hide Waits, Park, Schedule, TurnedBack, Grounded;
  }

  // ----- mutexes

  /** The mutex has this owner now, and nothing else is different. */
  ghost predicate OnlyOwner(s: Vp, s': Vp, m: Mid, owner: Option<Tid>)
    requires m in s.locks
  {
    s' == s.(locks := s'.locks) && s'.locks.Keys == s.locks.Keys
    && forall x :: x in s.locks ==>
         s'.locks[x].queue == s.locks[x].queue && s'.locks[x].owner == if x == m then owner else s.locks[x].owner
  }

  lemma LockEffect(s: Vp, m: Mid)
    requires Inv(s) && Grounded(s) && Enabled(s, DoLock(m))
    ensures var (s', r) := Next(s, DoLock(m));
      if Me(s).interrupted then TurnedBack(s, s', r)
      else match s.locks[m].owner
        case None => r == Success && OnlyOwner(s, s', m, Some(s.current))
        case Some(owner) =>
          if owner == s.current then r == Error(EDEADLK) && s' == s
          else
            && r == Switched && Waits(s, s', LockWait, InLock(m), None)
            && s'.locks == s.locks[m := Lock(Some(owner), s.locks[m].queue + [s.current])]
            && s'.conds == s.conds && s'.ioq == s.ioq
  {
    hide Inv;
    CallerPlace(s);
    var lock := s.locks[m];
    if Me(s).interrupted {
      TurnedBackIs(s);
    } else if lock.owner.Some? && lock.owner != Some(s.current) {
      ParkWaits(s, Park(s, LockWait, InLock(m), None).(locks := s.locks[m := lock.(queue := lock.queue + [s.current])]),
                LockWait, InLock(m), None);
    }
    hide Waits, Park, Schedule, TurnedBack, Grounded;
  }

  /** st_mutex_trylock succeeds exactly for a mutex without owner, whatever interrupt is pending. */
  lemma TryLockEffect(s: Vp, m: Mid)
    requires Grounded(s) && Enabled(s, DoTryLock(m))
    ensures var (s', r) := Next(s, DoTryLock(m));
      if s.locks[m].owner.Some? then r == Error(EBUSY) && s' == s
      else r == Success && OnlyOwner(s, s', m, Some(s.current))
  {
  }

  /** st_mutex_unlock by anybody but the owner does nothing; see UnlockHandsOff for the owner. */
  lemma UnlockResult(s: Vp, m: Mid)
    requires Grounded(s) && Enabled(s, DoUnlock(m))
    ensures var (s', r) := Next(s, DoUnlock(m));
      if s.locks[m].owner == Some(s.current) then r == Success else r == Error(EPERM) && s' == s
  {
    hide Grounded, Wake, First;
    FirstIs(s.threads, s.locks[m].queue, LockWait);
  }

  // ----- waking

  /** Exactly this thread has been woken, and is at the end of the run queue. */
  ghost predicate OneWoken(s: Vp, s': Vp, t: Tid, w: Waker)
    requires t in s.threads
  {
    && t in s'.threads && WokenBy(s.threads[t], s'.threads[t], w) && s'.threads[t].state == Runnable
    && s'.runq == s.runq + [t] && s'.sleepq == s.sleepq - {t}
    && s' == s.(threads := s.threads[t := s'.threads[t]], runq := s'.runq, sleepq := s'.sleepq)
  }

  /** st_thread_interrupt: a waiting thread is woken; a running or runnable one keeps the interrupt for its next wait. */
  lemma InterruptEffect(s: Vp, t: Tid)
    requires Grounded(s) && Enabled(s, DoInterrupt(t))
    ensures var (s', r) := Next(s, DoInterrupt(t));
      var th, marked := s.threads[t], s.(threads := s.threads[t := s.threads[t].(interrupted := true)]);
      r == Success &&
      if th.state == Zombie then s' == s
      else if IsWait(th.state) then OneWoken(marked, s', t, ByInterrupt)
      else s' == marked
  {
    hide Grounded;
    var marked := s.(threads := s.threads[t := s.threads[t].(interrupted := true)]);
    WakeSingle(marked, t, ByInterrupt);
    hide Wake;
  }

  /** st_cond_signal and the signal of an exit: the earliest waiter, if there is one */
  ghost predicate Signalled(s: Vp, s': Vp, c: Cid)
    requires c in s.conds
  {
    var q := s.conds[c];
    if exists i :: 0 <= i < |q| && q[i] in s.threads && s.threads[q[i]].state == CondWait
    then exists i :: Earliest(s.threads, q, CondWait, i) && OneWoken(s, s', q[i], BySignal)
    else s' == s
  }

  lemma SignalDone(s: Vp, c: Cid)
    requires c in s.conds
    ensures Signalled(s, Signal(s, c), c)
  {
    var q := s.conds[c];
    FirstIs(s.threads, q, CondWait);
    match First(s.threads, q, CondWait)
    case None =>
    case Some(t) =>
      var i :| Earliest(s.threads, q, CondWait, i) && q[i] == t;
      WakeSingle(s, t, BySignal);
      hide Wake;
      assert OneWoken(s, Signal(s, c), q[i], BySignal);
  }

  lemma SignalEffect(s: Vp, c: Cid)
    requires Grounded(s) && Enabled(s, DoSignal(c))
    ensures Next(s, DoSignal(c)).1 == Success && Signalled(s, Next(s, DoSignal(c)).0, c)
  {
    SignalDone(s, c);
    hide Grounded, Signal, Signalled;
  }

  // ----- threads come and go

  /** st_thread_create: the new thread is the last to run, and can be joined if that was asked for. */
  lemma CreateEffect(s: Vp, t: Tid, term: Option<Cid>)
    requires Grounded(s) && Enabled(s, DoCreate(t, term))
    ensures var (s', r) := Next(s, DoCreate(t, term));
      && r == Success && s'.runq == s.runq + [t] && s'.current == s.current
      && t in s'.threads && s'.threads - {t} == s.threads
      && var th := s'.threads[t];
         && th.state == Runnable && th.inside == Nowhere && th.term == term && !th.interrupted && !th.timedOut && !th.onSleepq
         && (forall c :: c in s'.conds <==> c in s.conds || term == Some(c))
         && (forall c :: c in s'.conds ==> s'.conds[c] == if c in s.conds then s.conds[c] else [])
         && s'.locks == s.locks && s'.ioq == s.ioq && s'.sleepq == s.sleepq && s'.zombieq == s.zombieq
  {
    hide Grounded;
  }

  /** The state in which a joinable thread has become a zombie and nothing else has happened */
  ghost predicate BecameZombie(s: Vp, s1: Vp)
    requires s.current in s.threads
  {
    && s.current in s1.threads && s1 == s.(threads := s.threads[s.current := s1.threads[s.current]], zombieq := s1.zombieq)
    && s1.threads[s.current].state == Zombie && s1.threads[s.current].inside == InExit
    && s1.threads[s.current].term == s.threads[s.current].term && s1.zombieq == s.zombieq + [s.current]
  }

  /**
   st_thread_exit: a thread that cannot be joined is gone; another becomes a zombie and signals its termination.
   Then the processor passes on, which may go to the joiner that was woken.
   */
  lemma ExitEffect(s: Vp)
    requires Inv(s) && Grounded(s) && Enabled(s, DoExit)
    ensures var (s', r) := Next(s, DoExit);
      && r == Switched
      && match Me(s).term
         case None => s.current !in s'.threads && TurnPasses(s, s', []) && OthersKeep(s, s')
         case Some(c) =>
           c in s.conds && exists s1, s2 :: BecameZombie(s, s1) && c in s1.conds && Signalled(s1, s2, c) && Chosen(s2, s')
  {
    hide Inv, Next, Schedule, Signal, Gone;
    CallerPlace(s);
    ExitIs(s);
    assert s.current != s.idle && (Me(s).term.Some? ==> Me(s).term.value in s.conds);
    ExitSwitches(s);
    hide Grounded, Enabled;
    if Me(s).term == None {
      GoneIs(s);
      GoneTurn(s, Gone(s));
    } else {
      var c := Me(s).term.value;
      var s1 := Exited(s);
      SignalDone(s1, c);
      ScheduleChooses(Signal(s1, c));
      ExitedIs(s);
      hide Exited, Signalled, BecameZombie, Chosen;
    }
  }

  lemma ExitSwitches(s: Vp)
    requires Grounded(s) && Enabled(s, DoExit)
    ensures Next(s, DoExit).1 == Switched
  {
    hide Grounded, Schedule, Signal, Gone;
  }

  lemma ExitedIs(s: Vp)
    requires s.current in s.threads
    ensures BecameZombie(s, Exited(s))
  {
  }

  /** The processor passes on, and nothing else happens. */
  ghost predicate Chosen(s: Vp, s': Vp) {
    && TurnPasses(s, s', []) && s'.current in s.threads
    && s' == s.(threads := s.threads[s'.current := s.threads[s'.current].(state := Running)], runq := s'.runq, current := s'.current)
  }

  lemma ScheduleChooses(s: Vp)
    requires MaySchedule(s)
    ensures Chosen(s, Schedule(s))
  {
    ScheduleTurn(s);
  }

  lemma GoneTurn(s: Vp, s1: Vp)
    requires s.current in s.threads && s1.threads == s.threads - {s.current} && s1.runq == s.runq && s1.idle == s.idle
    requires MaySchedule(s1) && s.current !in s.runq && s.current != s.idle
    ensures var s' := Schedule(s1); s.current !in s'.threads && TurnPasses(s, s', []) && OthersKeep(s, s')
  {
    ScheduleTurn(s1);
    var s' := Schedule(s1);
    TurnSame(s, s1, s');
  }

  /**
   st_thread_join in every case: a thread that was not created joinable, the caller itself, a second joiner, an
   interrupt, a thread that has not exited yet, and a zombie, which is taken off its queue and runs once more to clean up.
   */
  lemma JoinEffect(s: Vp, t: Tid, first: bool)
    requires Inv(s) && Grounded(s) && Enabled(s, DoJoin(t, first))
    ensures var (s', r) := Next(s, DoJoin(t, first));
      match s.threads[t].term
      case None => r == Error(EINVAL) && s' == s
      case Some(c) =>
        c in s.conds &&
        if s.current == t then r == Error(EDEADLK) && s' == s
        else if first && s.conds[c] != [] then r == Error(EINVAL) && s' == s
        else if s.threads[t].state != Zombie then
          if Me(s).interrupted then TurnedBack(s, s', r)
          else r == Switched && Waits(s, s', CondWait, InCond(c), None) && s'.conds == s.conds[c := s.conds[c] + [s.current]]
        else
          && r == Success && s'.current == s.current && s'.runq == s.runq + [t] && LeftOut(s.zombieq, s'.zombieq, {t})
          && t in s'.threads && s'.threads[t].state == Runnable && s'.threads[t].inside == InExit
          && s'.threads - {t} == s.threads - {t}
  {
    hide Inv, Waits, TurnedBack, CondWaitCall, LeftOut;
    assert s.threads[t].term.Some? ==> s.threads[t].term.value in s.conds;
    if s.threads[t].state == Zombie {
      ZombieInside(s, t);
      CollectIs(s, t);
      hide Collect;
    } else if s.threads[t].term.Some? && s.current != t {
      WaitEffect(s, s.threads[t].term.value, None);
    }
    hide Grounded;
  }

  lemma CollectIs(s: Vp, t: Tid)
    requires t in s.threads
    ensures var s' := Collect(s, t);
      && s'.current == s.current && s'.runq == s.runq + [t] && LeftOut(s.zombieq, s'.zombieq, {t})
      && t in s'.threads && s'.threads[t].state == Runnable && s'.threads[t].inside == s.threads[t].inside
      && s'.threads - {t} == s.threads - {t}
  {
    WithoutLeaves(s.zombieq, [t], {t});
    hide Without, LeftOut;
  }

  lemma ZombieInside(s: Vp, t: Tid)
    requires Inv(s) && t in s.threads && s.threads[t].state == Zombie
    ensures s.threads[t].inside == InExit
  {
    assert ContextOk(s, t);
  }

  // ----- returning

  /** The caller is out of its call, without a pending interrupt; nothing else about threads is different. */
  ghost predicate Back(s: Vp, s': Vp)
    requires s.current in s.threads
  {
    && s'.current == s.current && s.current in s'.threads && s'.threads - {s.current} == s.threads - {s.current}
    && s'.threads[s.current].inside == Nowhere && !s'.threads[s.current].interrupted
    && s'.runq == s.runq && s'.sleepq == s.sleepq && s'.locks == s.locks && s'.conds == s.conds
  }

  /** st_usleep and st_poll report an interrupt exactly if there is one; a poll request leaves the I/O queue if it is on it. */
  lemma ResumeEffect(s: Vp)
    requires Grounded(s) && Enabled(s, DoResume) && (Me(s).inside == InSleep || Me(s).inside == InPoll)
    ensures var (s', r) := Next(s, DoResume);
      && r == (if Me(s).interrupted then Error(EINTR) else Success) && Back(s, s')
      && if Me(s).inside == InPoll then LeftOut(s.ioq, s'.ioq, {s.current}) else s'.ioq == s.ioq
  {
    hide Grounded;
    WithoutLeaves(s.ioq, [s.current], {s.current});
    hide Without, LeftOut;
  }

  /** A collected zombie is gone when it has run once more. */
  lemma CleanUpEffect(s: Vp)
    requires Inv(s) && Grounded(s) && Enabled(s, DoResume) && Me(s).inside == InExit
    ensures var (s', r) := Next(s, DoResume);
      r == Switched && s.current !in s'.threads && TurnPasses(s, s', []) && OthersKeep(s, s')
  {
    hide Inv;
    CallerPlace(s);
    GoneIs(s);
    assert s.current != s.idle;
    GoneTurn(s, Gone(s));
    hide Gone, Schedule, TurnPasses, OthersKeep;
  }

  // ----- the idle thread

  /** What a round of the idle thread makes of a thread */
  ghost predicate RoundLeaves(s: Vp, s': Vp, ready: set<Tid>, now: int, t: Tid)
    requires t in s.threads
  {
    && t in s'.threads
    && if t in s.ioq && t in ready then WokenBy(s.threads[t], s'.threads[t], ByIo) && t !in s'.sleepq
       else if t in s.sleepq && s.sleepq[t] <= now then WokenBy(s.threads[t], s'.threads[t], ByClock) && t !in s'.sleepq
       else
         && (t in s'.sleepq <==> t in s.sleepq) && (t in s'.sleepq ==> s'.sleepq[t] == s.sleepq[t])
         && s'.threads[t] == s.threads[t]
  }

  /** The sleepers that are due have been woken, in this order. */
  ghost predicate ClockDone(s: Vp, s': Vp, now: int, order: seq<Tid>) {
    && s'.runq == s.runq + order && s'.ioq == s.ioq && s'.lastClock == now && s'.threads.Keys == s.threads.Keys
    && s'.idle == s.idle
    && (forall t :: t in s.threads ==>
          if t in s.sleepq && s.sleepq[t] <= now then WokenBy(s.threads[t], s'.threads[t], ByClock)
          else s'.threads[t] == s.threads[t])
    && (forall t :: t in s'.sleepq <==> t in s.sleepq && s.sleepq[t] > now)
    && (forall t :: t in s'.sleepq ==> s'.sleepq[t] == s.sleepq[t])
  }

  lemma CheckClockDone(s: Vp, now: int, order: seq<Tid>)
    requires DueOrder(s.sleepq, now, order)
    ensures ClockDone(s, CheckClock(s, now, order), now, order)
  {
  }

  lemma IdleAlone(s: Vp)
    requires Inv(s) && s.current == s.idle
    ensures s.runq == []
  {
  }

  lemma RoundParts(s: Vp, ready: set<Tid>, now: int, order: seq<Tid>)
    requires Inv(s) && Enabled(s, DoIdle(ready, now, order))
    ensures var s1, s2 := Dispatch(s, Among(s.ioq, ready)), IdleRound(s, DoIdle(ready, now, order));
      && IoDone(s, s1, ready, Among(s.ioq, ready)) && ClockDone(s1, s2, now, order) && DueOrder(s1.sleepq, now, order)
      && s.runq == [] && s.current == s.idle
  {
    hide Inv, IoDone, ClockDone, DueOrder, Among;
    IdleAlone(s);
    DispatchDone(s, ready);
    CheckClockDone(Dispatch(s, Among(s.ioq, ready)), now, order);
    hide Dispatch, CheckClock;
  }

  lemma RoundThread(s: Vp, s1: Vp, s2: Vp, s': Vp, ready: set<Tid>, fired: seq<Tid>, now: int, order: seq<Tid>, t: Tid)
    requires IoDone(s, s1, ready, fired) && ClockDone(s1, s2, now, order) && t in s.threads
    requires t in s'.threads && s'.sleepq == s2.sleepq
    requires s'.threads[t] == s2.threads[t] || (t in fired + order && s'.threads[t] == s2.threads[t].(state := Running))
    requires t in fired ==> t in s.ioq && t in ready
    requires t in order ==> t in s1.sleepq && s1.sleepq[t] <= now
    ensures RoundLeaves(s, s', ready, now, t)
  {
    hide Picked, LeftOut;
  }

  /**
   A round of the idle thread: the threads whose requests fired are woken, in the order of the I/O queue, and their
   requests leave it; then the sleepers that are due, in the given order; nobody else is. The first of them has the
   processor, or the idle thread keeps it.
   */
  lemma IdleEffect(s: Vp, ready: set<Tid>, now: int, order: seq<Tid>) returns (fired: seq<Tid>)
    requires Inv(s) && Grounded(s) && Enabled(s, DoIdle(ready, now, order))
    ensures var s' := Next(s, DoIdle(ready, now, order)).0;
      && Picked(s.ioq, fired, ready) && LeftOut(s.ioq, s'.ioq, ready) && s'.lastClock == now
      && TurnPasses(s, s', fired + order) && s.runq == []
      && s'.threads.Keys == s.threads.Keys
      && forall t :: t in s.threads && t != s.idle ==> RoundLeaves(s, s', ready, now, t)
  {
    var step := DoIdle(ready, now, order);
    fired := Among(s.ioq, ready);
    hide Inv, Grounded, Enabled, Next, Schedule, Dispatch, IdleRound, RoundLeaves, Among, DueOrder, IoDone, ClockDone, Picked, LeftOut;
    RoundParts(s, ready, now, order);
    IdleIs(s, step);
    var s1, s2 := Dispatch(s, fired), IdleRound(s, step);
    var s3 := WithMe(s2, Me(s2).(state := Runnable));
    ScheduleFrom(s3);
    var s' := Next(s, step).0;
    IoQueues(s, s1, ready, fired);
    ClockQueues(s1, s2, now, order);
    assert s3.runq == fired + order;
    forall t | t in s.threads && t != s.idle
      ensures RoundLeaves(s, s', ready, now, t)
    {
      ScheduleAt(s3, t);
      RoundAt(s, s1, s2, s', ready, now, order, t);
    }
  }

  lemma RoundAt(s: Vp, s1: Vp, s2: Vp, s': Vp, ready: set<Tid>, now: int, order: seq<Tid>, t: Tid)
    requires IoDone(s, s1, ready, Among(s.ioq, ready)) && ClockDone(s1, s2, now, order) && DueOrder(s1.sleepq, now, order)
    requires t in s.threads && t in s2.threads && t in s'.threads && s'.sleepq == s2.sleepq
    requires s'.threads[t] == if t == s'.current then s2.threads[t].(state := Running) else s2.threads[t]
    requires t == s'.current ==> t in Among(s.ioq, ready) + order
    ensures RoundLeaves(s, s', ready, now, t)
  {
    AmongIs(s.ioq, ready);
    OrderAt(s1.sleepq, now, order, t);
    hide Among, IoDone, ClockDone, DueOrder, RoundLeaves;
    RoundThread(s, s1, s2, s', ready, Among(s.ioq, ready), now, order, t);
  }

  lemma OrderAt(sleepq: map<Tid, int>, now: int, order: seq<Tid>, t: Tid)
    requires DueOrder(sleepq, now, order)
    ensures t in order ==> t in sleepq && sleepq[t] <= now
  {
  }

  lemma IoQueues(s: Vp, s1: Vp, ready: set<Tid>, fired: seq<Tid>)
    requires IoDone(s, s1, ready, fired)
    ensures Picked(s.ioq, fired, ready) && LeftOut(s.ioq, s1.ioq, ready) && s1.runq == s.runq + fired
    ensures s1.threads.Keys == s.threads.Keys && s1.idle == s.idle
  {
  }

  lemma ClockQueues(s1: Vp, s2: Vp, now: int, order: seq<Tid>)
    requires ClockDone(s1, s2, now, order)
    ensures s2.runq == s1.runq + order && s2.ioq == s1.ioq && s2.lastClock == now && s2.threads.Keys == s1.threads.Keys
    ensures s2.idle == s1.idle
  {
  }

  lemma ScheduleFrom(s: Vp)
    requires MaySchedule(s)
    ensures var s' := Schedule(s);
      && s'.threads.Keys == s.threads.Keys && s'.ioq == s.ioq && s'.sleepq == s.sleepq && s'.lastClock == s.lastClock
      && s'.idle == s.idle && (s'.current == s.idle || s'.current in s.runq)
      && if s.runq == [] then s'.current == s.idle && s'.runq == [] else [s'.current] + s'.runq == s.runq
  {
  }
}
