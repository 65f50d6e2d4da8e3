/** Runs of the scheduler, and what its users are promised in every run. */
module SchedulerRuns {
  import opened ThreadStates
  import opened Options
  import opened Scheduler
  import opened SchedulerInvariant
  import opened SchedulerCalls

  /** st_init: the primordial thread runs, the idle thread waits for its turn outside the run queue. */
  function Initial(primordial: Tid, idle: Tid, now: int): Vp
    requires primordial != idle
  {
    var th := Thread(Running, false, false, false, Nowhere, None, NoOne);
    Vp(map[primordial := th, idle := th.(state := Runnable)], primordial, idle, [], [], [], map[], map[], map[], now)
  }

  lemma InitialInv(primordial: Tid, idle: Tid, now: int)
    requires primordial != idle
    ensures Inv(Initial(primordial, idle, now))
  {
    var s := Initial(primordial, idle, now);
    forall t | t in s.threads
      ensures PlaceOk(s, t, true) && ContextOk(s, t) && OwnerOk(s, t)
    {
    }
  }

  /** Which steps can come next. A thread named by its handle is a live thread. */
  ghost predicate Enabled(s: Vp, step: Step) {
    && s.current in s.threads
    && (step.IsCall() ==> s.current != s.idle && Me(s).inside == Nowhere)
    && match step {
         case DoInterrupt(t) => t in s.threads && t != s.idle
         case DoSignal(c) => c in s.conds
         case DoBroadcast(c) => c in s.conds
         case DoWait(c, _) => c in s.conds
         case DoSleep(_) => true
         case DoPoll(_, _) => true
         case DoLock(m) => m in s.locks
         case DoTryLock(m) => m in s.locks
         case DoUnlock(m) => m in s.locks
         case DoCreate(t, term) => t !in s.threads && (term.Some? ==> term.value !in s.conds)
         case DoExit => true
         case DoJoin(t, _) => t in s.threads && t != s.idle
         case DoNewCond(c) => c !in s.conds
         case DoNewLock(m) => m !in s.locks
         case DoResume => Me(s).inside != Nowhere
         case DoIdle(ready, now, order) =>
           s.current == s.idle && DueOrder(Dispatch(s, Among(s.ioq, ready)).sleepq, now, order)
       }
  }

  /** The effect of a step and what the call returns. */
  function Next(s: Vp, step: Step): (Vp, Result)
    requires Grounded(s) && Enabled(s, step)
  {
    match step
    case DoInterrupt(t) => (Interrupt(s, t), Success)
    case DoSignal(c) => (Signal(s, c), Success)
    case DoBroadcast(c) => (Broadcast(s, c), Success)
    case DoWait(c, timeout) => CondWaitCall(s, c, timeout)
    case DoSleep(timeout) => SleepCall(s, timeout)
    case DoPoll(added, timeout) => PollCall(s, added, timeout)
    case DoLock(m) => LockCall(s, m)
    case DoTryLock(m) => TryLockCall(s, m)
    case DoUnlock(m) => UnlockCall(s, m)
    case DoCreate(t, term) => CreateCall(s, t, term)
    case DoExit => ExitCall(s)
    case DoJoin(t, first) => JoinCall(s, t, first)
    case DoNewCond(c) => (s.(conds := s.conds[c := []]), Success)
    case DoNewLock(m) => (s.(locks := s.locks[m := Lock(None, [])]), Success)
    case DoResume => ResumeCall(s)
    case DoIdle(ready, now, order) =>
      AmongIs(s.ioq, ready);
      IdleCall(s, Among(s.ioq, ready), now, order)
  }

  lemma CallKeepsInv(s: Vp, step: Step)
    requires Inv(s) && Grounded(s) && Enabled(s, step)
    requires step.DoWait? || step.DoSleep? || step.DoPoll? || step.DoLock? || step.DoExit? || step.DoJoin?
    ensures Inv(Next(s, step).0)
  {
    hide Good;
    match step
    case DoWait(c, timeout) => CondWaitKeepsInv(s, c, timeout);
    case DoSleep(timeout) => SleepKeepsInv(s, timeout);
    case DoPoll(added, timeout) => PollKeepsInv(s, added, timeout);
    case DoLock(m) => LockKeepsInv(s, m);
    case DoExit => ExitKeepsInv(s);
    case DoJoin(t, first) => JoinKeepsInv(s, t, first);
  }

  lemma QuickCallKeepsInv(s: Vp, step: Step)
    requires Inv(s) && Grounded(s) && Enabled(s, step)
    requires step.DoTryLock? || step.DoUnlock? || step.DoCreate? || step.DoNewCond? || step.DoNewLock?
    ensures Inv(Next(s, step).0)
  {
    hide Good;
    match step
    case DoTryLock(m) => TryLockKeepsInv(s, m);
    case DoUnlock(m) => UnlockKeepsInv(s, m);
    case DoCreate(t, term) => CreateKeepsInv(s, t, term);
    case DoNewCond(c) => NewCondKeepsInv(s, c);
    case DoNewLock(m) => NewLockKeepsInv(s, m);
  }

  lemma WakingCallKeepsInv(s: Vp, step: Step)
    requires Inv(s) && Grounded(s) && Enabled(s, step)
    requires step.DoInterrupt? || step.DoSignal? || step.DoBroadcast?
    ensures Inv(Next(s, step).0)
  {
    hide Good;
    match step
    case DoInterrupt(t) => InterruptKeepsGood(s, t, true);
    case DoSignal(c) => SignalKeepsGood(s, c, true);
    case DoBroadcast(c) => BroadcastKeepsGood(s, c, true);
  }

  lemma SwitchKeepsInv(s: Vp, step: Step)
    requires Inv(s) && Grounded(s) && Enabled(s, step) && (step.DoResume? || step.DoIdle?)
    ensures Inv(Next(s, step).0)
  {
    hide Good, Inv;
    match step
    case DoResume => ResumeKeepsInv(s);
    case DoIdle(ready, now, order) => IdleKeepsInv(s, ready, now, order);
  }

  /** Every step keeps the invariant. */
  lemma StepKeepsInv(s: Vp, step: Step)
    requires Inv(s) && Enabled(s, step)
    ensures Grounded(s) && Inv(Next(s, step).0)
  {
    hide Good, Inv, Next, Enabled;
    InvGrounded(s);
    if step.DoResume? || step.DoIdle? {
      SwitchKeepsInv(s, step);
    } else if step.DoInterrupt? || step.DoSignal? || step.DoBroadcast? {
      WakingCallKeepsInv(s, step);
    } else if step.DoTryLock? || step.DoUnlock? || step.DoCreate? || step.DoNewCond? || step.DoNewLock? {
      QuickCallKeepsInv(s, step);
    } else {
      CallKeepsInv(s, step);
    }
  }

  // ----- whole runs

  /** The steps can be taken one after the other, starting in s. */
  ghost predicate CanRun(s: Vp, steps: seq<Step>)
    decreases |steps|
  {
    steps == [] || (Grounded(s) && Enabled(s, steps[0]) && CanRun(Next(s, steps[0]).0, steps[1..]))
  }

  ghost function After(s: Vp, steps: seq<Step>): Vp
    requires CanRun(s, steps)
    decreases |steps|
  {
    if steps == [] then s else After(Next(s, steps[0]).0, steps[1..])
  }

  lemma {:induction false} RunKeepsInv(s: Vp, steps: seq<Step>)
    requires Inv(s) && CanRun(s, steps)
    ensures Inv(After(s, steps))
    decreases |steps|
  {
    hide Inv;
    if steps != [] {
      StepKeepsInv(s, steps[0]);
      RunKeepsInv(Next(s, steps[0]).0, steps[1..]);
    }
  }

  /** How often a thread stands on a queue. */
  ghost function Times(q: seq<Tid>, t: Tid): nat {
    multiset(q)[t]
  }

  lemma {:induction false} TimesIs(q: seq<Tid>, t: Tid)
    requires NoDup(q)
    ensures Times(q, t) == if t in q then 1 else 0
  {
    if q != [] {
      assert q == [q[0]] + q[1..];
      assert multiset(q) == multiset{q[0]} + multiset(q[1..]);
      TimesIs(q[1..], t);
      assert q[0] !in q[1..];
    }
  }

  /**
   At every point of every run from st_init, a thread other than the idle thread is current
   and RUNNING, or once on the run queue and RUNNABLE, or once on the zombie queue and ZOMBIE,
   or in a wait state and on neither; and its sleep flag is set exactly when it is in the heap.
   */
  lemma OnePlaceInEveryRun(primordial: Tid, idle: Tid, start: int, steps: seq<Step>, t: Tid)
    requires primordial != idle && CanRun(Initial(primordial, idle, start), steps)
    requires t != idle && t in After(Initial(primordial, idle, start), steps).threads
    ensures var s := After(Initial(primordial, idle, start), steps);
      var st, onRunq, onZombieq := s.threads[t].state, Times(s.runq, t), Times(s.zombieq, t);
      && s.idle == idle
      && (|| (t == s.current && st == Running && onRunq == 0 && onZombieq == 0)
          || (t != s.current && st == Runnable && onRunq == 1 && onZombieq == 0)
          || (t != s.current && st == Zombie && onRunq == 0 && onZombieq == 1)
          || (t != s.current && IsWait(st) && onRunq == 0 && onZombieq == 0))
      && (s.threads[t].onSleepq <==> t in s.sleepq)
  {
    var s0 := Initial(primordial, idle, start);
    InitialInv(primordial, idle, start);
    RunKeepsInv(s0, steps);
    RunKeepsIdle(s0, steps);
    var s := After(s0, steps);
    assert PlaceOk(s, t, true);
    TimesIs(s.runq, t);
    TimesIs(s.zombieq, t);
  }

  lemma StepKeepsIdle(s: Vp, step: Step)
    requires Grounded(s) && Enabled(s, step)
    ensures Next(s, step).0.idle == s.idle
  {
    hide Grounded;
    if step.IsCall() && !step.DoExit? {
      CallKeepsIdle(s, step);
    } else if step.DoIdle? {
      AmongIs(s.ioq, step.ready);
    }
  }

  lemma CallKeepsIdle(s: Vp, step: Step)
    requires Grounded(s) && Enabled(s, step) && step.IsCall() && !step.DoExit?
    ensures Next(s, step).0.idle == s.idle
  {
    hide Grounded, Enabled;
    match step
    case DoInterrupt(_) =>
    case DoSignal(_) =>
    case DoBroadcast(_) =>
    case DoWait(_, _) =>
    case DoSleep(_) =>
    case DoPoll(_, _) =>
    case DoLock(_) =>
    case DoTryLock(_) =>
    case DoUnlock(_) =>
    case DoCreate(_, _) =>
    case DoJoin(_, _) =>
    case DoNewCond(_) =>
    case DoNewLock(_) =>
  }

  lemma {:induction false} RunKeepsIdle(s: Vp, steps: seq<Step>)
    requires CanRun(s, steps)
    ensures After(s, steps).idle == s.idle
    decreases |steps|
  {
    if steps != [] {
      StepKeepsIdle(s, steps[0]);
      RunKeepsIdle(Next(s, steps[0]).0, steps[1..]);
    }
  }

  // ----- the order of the run queue

  /** Threads join the run queue at its end; the processor goes to the thread at its head, or to the idle thread. */
  ghost predicate InTurn(s: Vp, s': Vp, added: seq<Tid>) {
    var q := s.runq + added;
    || (s'.current == s.current && s'.runq == q)
    || (if q == [] then s'.current == s.idle && s'.runq == [] else s'.current == q[0] && s'.runq == q[1..])
  }

  lemma ScheduleInTurn(s: Vp, s1: Vp, added: seq<Tid>)
    requires s1.idle in s1.threads && (s1.runq != [] ==> s1.runq[0] in s1.threads)
    requires s1.runq == s.runq + added && s1.idle == s.idle
    ensures InTurn(s, Schedule(s1), added)
  {
  }

  lemma WaitInTurn(s: Vp, step: Step)
    requires Grounded(s) && Enabled(s, step)
    requires step.DoWait? || step.DoSleep? || step.DoPoll? || step.DoLock? || step.DoJoin?
    ensures InTurn(s, Next(s, step).0, []) || InTurn(s, Next(s, step).0, [if step.DoJoin? then step.t else 0])
  {
    hide Grounded;
    assert s.runq + [] == s.runq;
  }

  lemma ExitInTurn(s: Vp) returns (added: seq<Tid>)
    requires Grounded(s) && Enabled(s, DoExit)
    ensures InTurn(s, Next(s, DoExit).0, added)
  {
    added := [];
    assert s.runq + [] == s.runq;
    if Me(s).term.Some? {
      var s1 := Park(s, Zombie, InExit, None).(zombieq := s.zombieq + [s.current]);
      var c := Me(s).term.value;
      SignalKeepsSchedulable(s1, c);
      FirstIs(s1.threads, s1.conds[c], CondWait);
      var first := First(s1.threads, s1.conds[c], CondWait);
      if first.Some? {
        added := [first.value];
      }
      ScheduleInTurn(s, Signal(s1, c), added);
    } else {
      ScheduleInTurn(s, Gone(s), []);
    }
  }

  lemma IdleInTurn(s: Vp, step: Step) returns (added: seq<Tid>)
    requires Grounded(s) && Enabled(s, step) && step.DoIdle?
    ensures InTurn(s, Next(s, step).0, added)
  {
    var fired := Among(s.ioq, step.ready);
    AmongIs(s.ioq, step.ready);
    added := fired + step.order;
    var s1 := CheckClock(Dispatch(s, fired), step.now, step.order);
    assert s1.runq == s.runq + fired + step.order == s.runq + added;
    ScheduleInTurn(s, WithMe(s1, Me(s1).(state := Runnable)), added);
  }

  lemma WakingInTurn(s: Vp, step: Step) returns (added: seq<Tid>)
    requires Grounded(s) && Enabled(s, step)
    requires step.DoInterrupt? || step.DoSignal? || step.DoBroadcast? || step.DoUnlock?
    ensures InTurn(s, Next(s, step).0, added)
  {
    hide Grounded;
    assert s.runq + [] == s.runq;
    match step
    case DoInterrupt(t) => added := if Next(s, step).0.runq == s.runq then [] else [t];
    case DoSignal(c) =>
      var w := First(s.threads, s.conds[c], CondWait);
      added := if w == None then [] else [w.value];
    case DoBroadcast(c) => added := Those(s.threads, s.conds[c], CondWait);
    case DoUnlock(m) =>
      var w := First(s.threads, s.locks[m].queue, LockWait);
      added := if s.locks[m].owner == Some(s.current) && w.Some? then [w.value] else [];
  }

  lemma QuickInTurn(s: Vp, step: Step)
    requires Grounded(s) && Enabled(s, step)
    requires step.DoTryLock? || step.DoCreate? || step.DoNewCond? || step.DoNewLock? || step.DoResume?
    ensures InTurn(s, Next(s, step).0, if step.DoCreate? then [step.t] else [])
  {
    assert s.runq + [] == s.runq;
    if step.DoResume? {
      hide Grounded;
    }
  }

  /** No step lets a runnable thread overtake another. */
  lemma StepInTurn(s: Vp, step: Step) returns (added: seq<Tid>)
    requires Grounded(s) && Enabled(s, step)
    ensures InTurn(s, Next(s, step).0, added)
  {
    hide Grounded, InTurn;
    if step.DoExit? {
      added := ExitInTurn(s);
    } else if step.DoIdle? {
      added := IdleInTurn(s, step);
    } else if step.DoWait? || step.DoSleep? || step.DoPoll? || step.DoLock? || step.DoJoin? {
      WaitInTurn(s, step);
      added := if InTurn(s, Next(s, step).0, []) then [] else [if step.DoJoin? then step.t else 0];
    } else if step.DoInterrupt? || step.DoSignal? || step.DoBroadcast? || step.DoUnlock? {
      added := WakingInTurn(s, step);
    } else {
      QuickInTurn(s, step);
      added := if step.DoCreate? then [step.t] else [];
    }
  }

  /** How often the processor changes hands in a run */
  ghost function Switches(s: Vp, steps: seq<Step>): nat
    requires CanRun(s, steps)
    decreases |steps|
  {
    if steps == [] then 0 else
      var s' := Next(s, steps[0]).0;
      (if s'.current == s.current && s.runq <= s'.runq then 0 else 1) + Switches(s', steps[1..])
  }

  /** In every run a runnable thread is at the head of the run queue after as many switches as it has threads before it. */
  lemma {:induction false} WaitsItsTurn(s: Vp, steps: seq<Step>, i: nat)
    requires CanRun(s, steps) && i < |s.runq| && Switches(s, steps) <= i
    ensures var t := After(s, steps);
      i - Switches(s, steps) < |t.runq| && t.runq[i - Switches(s, steps)] == s.runq[i]
    decreases |steps|
  {
    hide Grounded, Enabled, Next;
    if steps != [] {
      var s' := Next(s, steps[0]).0;
      var added := StepInTurn(s, steps[0]);
      if s'.current == s.current && s.runq <= s'.runq {
        WaitsItsTurn(s', steps[1..], i);
      } else {
        assert (s.runq + added)[1..][i - 1] == s.runq[i];
        WaitsItsTurn(s', steps[1..], i - 1);
      }
    }
  }

  lemma {:induction false} OneMore(s: Vp, steps: seq<Step>, last: Step)
    requires CanRun(s, steps + [last])
    ensures CanRun(s, steps) && Grounded(After(s, steps)) && Enabled(After(s, steps), last)
    ensures After(s, steps + [last]) == Next(After(s, steps), last).0
    ensures Switches(s, steps + [last]) == Switches(s, steps) + Switches(After(s, steps), [last])
    decreases |steps|
  {
    hide Grounded, Enabled, Next;
    var all := steps + [last];
    if steps == [] {
      assert all == [last] && all[1..] == [];
      assert After(s, steps) == s;
    } else {
      assert all[0] == steps[0] && all[1..] == steps[1..] + [last];
      OneMore(Next(s, steps[0]).0, steps[1..], last);
    }
  }

  /** ... and with the next switch it has the processor. */
  lemma GetsItsTurn(s: Vp, steps: seq<Step>, last: Step, i: nat)
    requires CanRun(s, steps + [last]) && i < |s.runq|
    requires CanRun(s, steps) && Switches(s, steps) == i && Switches(s, steps + [last]) == i + 1
    ensures After(s, steps + [last]).current == s.runq[i]
  {
    hide Grounded, Enabled, Next;
    OneMore(s, steps, last);
    WaitsItsTurn(s, steps, i);
    var t := After(s, steps);
    var added := StepInTurn(t, last);
    assert [last][1..] == [];
    assert t.runq <= t.runq + added;
  }

  // ----- mutexes

  /** In every run, st_mutex_lock and st_mutex_trylock return 0 only to the owner. */
  lemma LockReturnsToOwner(s: Vp, step: Step, m: Mid)
    requires Inv(s) && Grounded(s) && Enabled(s, step) && m in s.locks
    requires step == DoLock(m) || step == DoTryLock(m) || (step == DoResume && Me(s).inside == InLock(m))
    requires Next(s, step).1 == Success
    ensures var s' := Next(s, step).0; m in s'.locks && s'.locks[m].owner == Some(s.current) && s'.current == s.current
  {
    hide Grounded, Contexts, Links;
    assert OwnerOk(s, s.current) && PlaceOk(s, s.current, true);
    hide Inv;
  }

  /** EINTR from st_mutex_lock is never returned to a thread that has been given the mutex. */
  lemma OwnerIsNotTurnedAway(s: Vp, m: Mid)
    requires Inv(s) && Grounded(s) && Me(s).inside == InLock(m) && s.locks[m].owner == Some(s.current)
    ensures Next(s, DoResume).1 == Success && Me(Next(s, DoResume).0).interrupted == Me(s).interrupted
  {
  }

  /** Mutex m passes to the thread at place i of its queue, which goes to the end of the run queue; no other thread changes. */
  ghost predicate HandedTo(s: Vp, s': Vp, m: Mid, i: int)
    requires m in s.locks
  {
    var q := s.locks[m].queue;
    && Earliest(s.threads, q, LockWait, i)
    && s'.locks == s.locks[m := Lock(Some(q[i]), q)]
    && s'.runq == s.runq + [q[i]]
    && s'.threads == s.threads[q[i] := Roused(s.threads[q[i]], ByHandOff)]
  }

  /**
   st_mutex_unlock by the owner hands the mutex to the earliest waiter that is still in
   LOCK_WAIT; when there is none the mutex becomes free and nothing else changes.
   */
  lemma UnlockHandsOff(s: Vp, m: Mid)
    requires Grounded(s) && Enabled(s, DoUnlock(m)) && s.locks[m].owner == Some(s.current)
    ensures var s', q := Next(s, DoUnlock(m)).0, s.locks[m].queue;
      && ((exists i :: 0 <= i < |q| && q[i] in s.threads && s.threads[q[i]].state == LockWait) ==>
            exists i :: HandedTo(s, s', m, i))
      && ((forall i :: 0 <= i < |q| && q[i] in s.threads ==> s.threads[q[i]].state != LockWait) ==>
            s' == s.(locks := s.locks[m := Lock(None, q)]))
  {
    hide Grounded;
    var q := s.locks[m].queue;
    FirstIs(s.threads, q, LockWait);
    match First(s.threads, q, LockWait)
    case None =>
    case Some(t) =>
      var i :| Earliest(s.threads, q, LockWait, i) && q[i] == t;
      WakeSingle(s, t, ByHandOff);
      assert HandedTo(s, Next(s, DoUnlock(m)).0, m, i);
  }

  // ----- condition variables

  /** st_cond_signal wakes the earliest waiter still in COND_WAIT and no other; without one it does nothing. */
  lemma SignalWakesEarliest(s: Vp, c: Cid)
    requires c in s.conds
    ensures var s', q := Signal(s, c), s.conds[c];
      && ((exists i :: 0 <= i < |q| && q[i] in s.threads && s.threads[q[i]].state == CondWait) ==>
            exists i :: Earliest(s.threads, q, CondWait, i) && s'.runq == s.runq + [q[i]]
              && s'.threads == s.threads[q[i] := Roused(s.threads[q[i]], BySignal)])
      && ((forall i :: 0 <= i < |q| && q[i] in s.threads ==> s.threads[q[i]].state != CondWait) ==> s' == s)
  {
    var q := s.conds[c];
    FirstIs(s.threads, q, CondWait);
    match First(s.threads, q, CondWait)
    case None =>
    case Some(t) =>
      var i :| Earliest(s.threads, q, CondWait, i) && q[i] == t;
      WakeSingle(s, t, BySignal);
      assert Earliest(s.threads, q, CondWait, i) && Signal(s, c).runq == s.runq + [q[i]];
  }

  /** st_cond_broadcast wakes exactly the waiters still in COND_WAIT, in queue order. */
  lemma BroadcastWakesAll(s: Vp, c: Cid)
    requires Inv(s) && c in s.conds
    ensures var s', q, woken := Broadcast(s, c), s.conds[c], Those(s.threads, s.conds[c], CondWait);
      && s'.runq == s.runq + woken && NoDup(woken)
      && (forall t :: t in s.threads ==>
            t in s'.threads && s'.threads[t] ==
              if t in q && s.threads[t].state == CondWait then Roused(s.threads[t], BySignal) else s.threads[t])
  {
    assert CondQueueOk(s, c);
    ThoseNoDup(s.threads, s.conds[c], CondWait);
    ThoseAll(s.threads, s.conds[c], CondWait);
  }

  lemma {:induction false} ThoseAll(threads: map<Tid, Thread>, q: seq<Tid>, st: RunState)
    ensures forall t :: t in q && t in threads && threads[t].state == st ==> t in Those(threads, q, st)
  {
    if q != [] {
      ThoseAll(threads, q[1..], st);
      assert q == [q[0]] + q[1..];
    }
  }

  /** st_thread_join can return 0. */
  ghost predicate Joinable(s: Vp, t: Tid, first: bool)
    requires t in s.threads
  {
    && s.threads[t].term.Some? && s.threads[t].term.value in s.conds && t != s.current
    && (first ==> s.conds[s.threads[t].term.value] == [])
  }

  /** st_thread_join returns 0 exactly for a thread that has exited: it leaves the zombie queue and is runnable, to clean up. */
  lemma JoinCollects(s: Vp, t: Tid, first: bool)
    requires Inv(s) && Schedulable(s) && t in s.threads
    requires s.threads[t].term.Some? ==> s.threads[t].term.value in s.conds
    ensures JoinCall(s, t, first).1 == Success <==> Joinable(s, t, first) && s.threads[t].state == Zombie
    ensures var s' := JoinCall(s, t, first).0; JoinCall(s, t, first).1 == Success ==>
      && t in s.zombieq && t !in s'.zombieq && s'.runq == s.runq + [t]
      && s'.threads == s.threads[t := s.threads[t].(state := Runnable, waker := ByJoin)]
  {
    assert PlaceOk(s, t, true);
    WithoutIs(s.zombieq, [t]);
    hide Inv;
  }

  /** A join that fails at once changes nothing but a pending interrupt. */
  lemma JoinFails(s: Vp, t: Tid, first: bool)
    requires Schedulable(s) && t in s.threads
    requires s.threads[t].term.Some? ==> s.threads[t].term.value in s.conds
    requires JoinCall(s, t, first).1.Error?
    ensures JoinCall(s, t, first).0 == WithMe(s, Me(s).(interrupted := Me(s).interrupted && JoinCall(s, t, first).1 != Error(EINTR)))
  {
    assert WithMe(s, Me(s)) == s;
  }

  /** What in a step could wake thread t from its condition wait, by each of the three ways. */
  ghost predicate Cause(s: Vp, step: Step, t: Tid, w: Waker)
    requires s.current in s.threads && t in s.threads
  {
    match w
    case BySignal =>
      && s.threads[t].inside.InCond?
      && var c := s.threads[t].inside.c;
         step == DoSignal(c) || step == DoBroadcast(c) || (step == DoExit && Me(s).term == Some(c))
    case ByClock => step.DoIdle? && t in s.sleepq && s.sleepq[t] <= step.now
    case ByInterrupt => step == DoInterrupt(t)
    case _ => false
  }

  /** A thread after a step, as far as its condition wait is concerned. */
  ghost predicate Ended(s: Vp, step: Step, t: Tid, th': Thread)
    requires s.current in s.threads && t in s.threads
  {
    && (th'.state == Runnable || th'.state == Running) && th'.inside == s.threads[t].inside
    && Cause(s, step, t, th'.waker)
    && (th'.timedOut <==> th'.waker == ByClock)
  }

  /** What the invariant says about a thread in COND_WAIT. */
  ghost predicate InWait(s: Vp, t: Tid) {
    && s.current in s.threads && t in s.threads && t != s.current && t != s.idle && t !in s.runq && t !in s.ioq
    && s.threads[t].state == CondWait && s.threads[t].inside.InCond? && !s.threads[t].timedOut
    && forall c :: c in s.conds && t in s.conds[c] ==> s.threads[t].inside == InCond(c)
  }

  lemma InvInWait(s: Vp, t: Tid)
    requires Inv(s) && t in s.threads && s.threads[t].state == CondWait
    ensures InWait(s, t)
  {
    assert PlaceOk(s, t, true) && ContextOk(s, t) && WaitOk(s.threads[t]) && PlaceOk(s, s.idle, true);
    forall c | c in s.conds && t in s.conds[c]
      ensures s.threads[t].inside == InCond(c)
    {
      assert CondQueueOk(s, c);
    }
  }

  lemma SignalEnds(s: Vp, c: Cid, t: Tid)
    requires InWait(s, t) && c in s.conds
    ensures var s' := Signal(s, c); t in s'.threads && s'.idle == s.idle
    ensures var th' := Signal(s, c).threads[t];
      th' == s.threads[t] || (s.threads[t].inside == InCond(c) && th' == Roused(s.threads[t], BySignal))
  {
    FirstIs(s.threads, s.conds[c], CondWait);
  }

  // ----- what an exit does to the other threads

  /** The current thread has become a zombie. */
  function Exited(s: Vp): Vp
    requires s.current in s.threads
  {
    Park(s, Zombie, InExit, None).(zombieq := s.zombieq + [s.current])
  }

  ghost predicate MaySchedule(s: Vp) {
    s.idle in s.threads && (s.runq != [] ==> s.runq[0] in s.threads)
  }

  lemma ExitIs(s: Vp)
    requires Grounded(s) && Enabled(s, DoExit)
    ensures Me(s).term == None ==> MaySchedule(Gone(s)) && Next(s, DoExit).0 == Schedule(Gone(s))
    ensures Me(s).term.Some? ==>
      var s1, c := Exited(s), Me(s).term.value;
      c in s1.conds && MaySchedule(Signal(s1, c)) && Next(s, DoExit).0 == Schedule(Signal(s1, c))
  {
    hide Signal, Gone;
    if Me(s).term.Some? {
      SignalKeepsSchedulable(Exited(s), Me(s).term.value);
    }
    assert Me(s).term == None ==> MaySchedule(Gone(s)) by {
      GoneIs(s);
    }
  }

  lemma GoneIs(s: Vp)
    requires s.current in s.threads
    ensures Gone(s).idle == s.idle && Gone(s).runq == s.runq && Gone(s).threads == s.threads - {s.current}
  {
  }

  lemma SignalDoes(s: Vp, c: Cid, u: Tid)
    requires c in s.conds && u in s.threads
    ensures var s' := Signal(s, c);
      && u in s'.threads && s'.idle == s.idle
      && (|| (s'.threads[u] == s.threads[u] && (u in s'.runq ==> u in s.runq))
          || (s.threads[u].state == CondWait && u in s.conds[c] && s'.threads[u] == Roused(s.threads[u], BySignal)))
  {
    FirstIs(s.threads, s.conds[c], CondWait);
  }

  lemma ScheduleDoes(s: Vp, u: Tid)
    requires MaySchedule(s) && u in s.threads
    ensures u in Schedule(s).threads
    ensures Schedule(s).threads[u] == s.threads[u] ||
      (Schedule(s).threads[u] == s.threads[u].(state := Running) && (u in s.runq || u == s.idle))
  {
  }

  /** Another thread is as it was, has been chosen to run next, or is the joiner, which may also run next. */
  lemma ExitDoes(s: Vp, u: Tid)
    requires Grounded(s) && Enabled(s, DoExit) && u in s.threads && u != s.current
    ensures var s', woken := Next(s, DoExit).0, Roused(s.threads[u], BySignal);
      && u in s'.threads
      && (|| s'.threads[u] == s.threads[u]
          || (s'.threads[u] == s.threads[u].(state := Running) && (u in s.runq || u == s.idle))
          || (s.threads[u].state == CondWait && Me(s).term.Some? && Me(s).term.value in s.conds
              && u in s.conds[Me(s).term.value] && (s'.threads[u] == woken || s'.threads[u] == woken.(state := Running))))
  {
    ExitIs(s);
    hide Grounded, Enabled, Next, Schedule, Signal, Gone;
    if Me(s).term == None {
      GoneIs(s);
      ScheduleDoes(Gone(s), u);
    } else {
      var s1, c := Exited(s), Me(s).term.value;
      SignalDoes(s1, c, u);
      ScheduleDoes(Signal(s1, c), u);
    }
  }

  lemma ScheduleEnds(s: Vp, t: Tid)
    requires s.idle in s.threads && (s.runq != [] ==> s.runq[0] in s.threads) && t in s.threads && t != s.idle
    ensures t in Schedule(s).threads
    ensures Schedule(s).threads[t] == s.threads[t] ||
      (t in s.runq && Schedule(s).threads[t] == s.threads[t].(state := Running))
  {
  }

  lemma WakingEnds(s: Vp, step: Step, t: Tid)
    requires InWait(s, t) && Grounded(s) && Enabled(s, step)
    requires step.DoInterrupt? || step.DoSignal? || step.DoBroadcast?
    ensures var s' := Next(s, step).0;
      t in s'.threads && (s'.threads[t] == s.threads[t] || Ended(s, step, t, s'.threads[t]))
  {
    hide Grounded;
    match step
    case DoInterrupt(u) =>
    case DoSignal(c) => SignalEnds(s, c, t);
    case DoBroadcast(c) =>
  }

  lemma ExitEnds(s: Vp, t: Tid)
    requires InWait(s, t) && Grounded(s) && Enabled(s, DoExit)
    ensures var s' := Next(s, DoExit).0;
      t in s'.threads && (s'.threads[t] == s.threads[t] || Ended(s, DoExit, t, s'.threads[t]))
  {
    hide Grounded, Next;
    ExitDoes(s, t);
  }

  /** A round of the idle thread before it gives up the processor */
  function IdleRound(s: Vp, step: Step): Vp
    requires step.DoIdle?
  {
    CheckClock(Dispatch(s, Among(s.ioq, step.ready)), step.now, step.order)
  }

  lemma IdleIs(s: Vp, step: Step)
    requires Grounded(s) && Enabled(s, step) && step.DoIdle?
    ensures var s2 := IdleRound(s, step);
      && s.current == s.idle == s2.current && s.idle in s2.threads
      && MaySchedule(WithMe(s2, Me(s2).(state := Runnable)))
      && Next(s, step).0 == Schedule(WithMe(s2, Me(s2).(state := Runnable)))
  {
    AmongIs(s.ioq, step.ready);
    var s2 := IdleRound(s, step);
    assert s2.runq == s.runq + Among(s.ioq, step.ready) + step.order;
    hide Among, Schedule;
  }

  lemma IdleRoundAt(s: Vp, step: Step, t: Tid)
    requires step.DoIdle? && t in s.threads && t !in s.ioq
    ensures var s2 := IdleRound(s, step);
      && t in s2.threads && s2.threads[t] == (if t in step.order then Roused(s.threads[t], ByClock) else s.threads[t])
      && (t in s2.runq ==> t in s.runq + step.order) && s2.idle == s.idle
  {
    AmongIs(s.ioq, step.ready);
    hide Among;
  }

  lemma IdleOrder(s: Vp, step: Step, t: Tid)
    requires Enabled(s, step) && step.DoIdle? && t !in s.ioq
    ensures t in step.order <==> t in s.sleepq && s.sleepq[t] <= step.now
  {
    AmongIs(s.ioq, step.ready);
    hide Among;
  }

  /** What a round of the idle thread does to a thread that is not polling */
  lemma IdleDoes(s: Vp, step: Step, t: Tid)
    requires Grounded(s) && Enabled(s, step) && step.DoIdle? && t in s.threads && t != s.idle && t !in s.ioq
    ensures t in step.order <==> t in s.sleepq && s.sleepq[t] <= step.now
    ensures var s', th := Next(s, step).0, if t in step.order then Roused(s.threads[t], ByClock) else s.threads[t];
      t in s'.threads && (s'.threads[t] == th || (t in s.runq + step.order && s'.threads[t] == th.(state := Running)))
  {
    IdleIs(s, step);
    hide Grounded, Enabled, Next, Schedule, IdleRound;
    IdleOrder(s, step, t);
    IdleRoundAt(s, step, t);
    var s2 := IdleRound(s, step);
    ScheduleEnds(WithMe(s2, Me(s2).(state := Runnable)), t);
  }

  lemma IdleEndsWait(s: Vp, step: Step, t: Tid)
    requires InWait(s, t) && Grounded(s) && Enabled(s, step) && step.DoIdle?
    ensures var s' := Next(s, step).0;
      t in s'.threads && (s'.threads[t] == s.threads[t] || Ended(s, step, t, s'.threads[t]))
  {
    hide Grounded, Enabled, Next;
    IdleDoes(s, step, t);
  }

  /** A thread inside a condition wait, waiting or waiting over, that is not the current one. */
  ghost predicate Aside(s: Vp, t: Tid) {
    && s.current in s.threads && t in s.threads && t != s.current && t != s.idle && t !in s.ioq
    && s.threads[t].inside.InCond? && (s.threads[t].state == CondWait || s.threads[t].state == Runnable)
  }

  /** The thread is as it was, or it has been chosen to run next. */
  ghost predicate Untouched(s: Vp, s': Vp, t: Tid)
    requires t in s.threads
  {
    t in s'.threads &&
    (s'.threads[t] == s.threads[t] || (t in s.runq && s'.threads[t] == s.threads[t].(state := Running)))
  }

  lemma SwitchingLeavesAside(s: Vp, step: Step, t: Tid)
    requires Aside(s, t) && Grounded(s) && Enabled(s, step)
    requires step.DoWait? || step.DoSleep? || step.DoPoll? || step.DoLock?
    ensures Untouched(s, Next(s, step).0, t)
  {
  }

  lemma JoiningLeavesAside(s: Vp, step: Step, t: Tid)
    requires Aside(s, t) && Grounded(s) && Enabled(s, step) && step.DoJoin?
    ensures Untouched(s, Next(s, step).0, t)
  {
  }

  lemma ReturningLeavesAside(s: Vp, t: Tid)
    requires Aside(s, t) && Grounded(s) && Enabled(s, DoResume)
    ensures Untouched(s, Next(s, DoResume).0, t)
  {
  }

  lemma OthersLeaveAside(s: Vp, step: Step, t: Tid)
    requires Aside(s, t) && Grounded(s) && Enabled(s, step)
    requires step.DoTryLock? || step.DoUnlock? || step.DoCreate? || step.DoNewCond? || step.DoNewLock?
    ensures Untouched(s, Next(s, step).0, t)
  {
    if step.DoUnlock? {
      FirstIs(s.threads, s.locks[step.m].queue, LockWait);
    }
  }

  /** Only interrupts, signals, exits and the idle thread touch a thread inside a condition wait. */
  lemma LeftAside(s: Vp, step: Step, t: Tid)
    requires Aside(s, t) && Grounded(s) && Enabled(s, step)
    requires !step.DoInterrupt? && !step.DoSignal? && !step.DoBroadcast? && !step.DoExit? && !step.DoIdle?
    ensures Untouched(s, Next(s, step).0, t)
  {
    hide Aside, Grounded, Untouched;
    if step.DoWait? || step.DoSleep? || step.DoPoll? || step.DoLock? {
      SwitchingLeavesAside(s, step, t);
    } else if step.DoJoin? {
      JoiningLeavesAside(s, step, t);
    } else if step.DoResume? {
      ReturningLeavesAside(s, t);
    } else {
      OthersLeaveAside(s, step, t);
    }
  }

  /**
   Each condition wait leaves COND_WAIT by exactly one of a signal on its variable, the clock
   at or after its due time, or an interrupt of this very thread; and the timed-out flag is
   set exactly when it was the clock.
   */
  lemma LeavesCondWait(s: Vp, step: Step, t: Tid)
    requires Inv(s) && Grounded(s) && Enabled(s, step)
    requires t in s.threads && s.threads[t].state == CondWait
    ensures var s' := Next(s, step).0;
      t in s'.threads && (s'.threads[t] == s.threads[t] || Ended(s, step, t, s'.threads[t]))
  {
    InvInWait(s, t);
    assert Aside(s, t) && t !in s.runq;
    hide Inv, InWait, Grounded, Aside;
    if step.DoInterrupt? || step.DoSignal? || step.DoBroadcast? {
      WakingEnds(s, step, t);
    } else if step.DoExit? {
      ExitEnds(s, t);
    } else if step.DoIdle? {
      IdleEndsWait(s, step, t);
    } else {
      LeftAside(s, step, t);
    }
  }

  /** The wait is over but the thread has not run yet: nothing about how it ended changes any more. */
  ghost predicate SameEnd(s: Vp, s': Vp, t: Tid)
    requires t in s.threads
  {
    && t in s'.threads && (s'.threads[t].state == Runnable || s'.threads[t].state == Running)
    && s'.threads[t].inside == s.threads[t].inside
    && s'.threads[t].waker == s.threads[t].waker && s'.threads[t].timedOut == s.threads[t].timedOut
  }

  lemma WakingKeepsEnd(s: Vp, step: Step, t: Tid)
    requires Aside(s, t) && s.threads[t].state == Runnable && Grounded(s) && Enabled(s, step)
    requires step.DoInterrupt? || step.DoSignal? || step.DoBroadcast?
    ensures SameEnd(s, Next(s, step).0, t)
  {
    hide Grounded;
    match step
    case DoInterrupt(u) =>
    case DoSignal(c) => FirstIs(s.threads, s.conds[c], CondWait);
    case DoBroadcast(c) =>
  }

  lemma ExitKeepsEnd(s: Vp, t: Tid)
    requires Aside(s, t) && s.threads[t].state == Runnable && Grounded(s) && Enabled(s, DoExit)
    ensures SameEnd(s, Next(s, DoExit).0, t)
  {
    hide Grounded, Enabled, Next;
    ExitDoes(s, t);
  }

  lemma IdleKeepsEnd(s: Vp, step: Step, t: Tid)
    requires Aside(s, t) && s.threads[t].state == Runnable && t !in s.sleepq
    requires Grounded(s) && Enabled(s, step) && step.DoIdle?
    ensures SameEnd(s, Next(s, step).0, t)
  {
    hide Grounded, Enabled, Next;
    IdleDoes(s, step, t);
  }

  lemma EndAside(s: Vp, t: Tid)
    requires Inv(s) && t in s.threads && t != s.current && s.threads[t].inside.InCond? && s.threads[t].state != CondWait
    ensures Aside(s, t) && s.threads[t].state == Runnable && t !in s.sleepq
  {
    assert PlaceOk(s, t, true) && ContextOk(s, t);
  }

  lemma EndIsFinal(s: Vp, step: Step, t: Tid)
    requires Inv(s) && Grounded(s) && Enabled(s, step)
    requires t in s.threads && t != s.current && s.threads[t].inside.InCond? && s.threads[t].state != CondWait
    ensures SameEnd(s, Next(s, step).0, t)
  {
    hide Inv, Aside, Grounded, Next, Enabled;
    EndAside(s, t);
    if step.DoInterrupt? || step.DoSignal? || step.DoBroadcast? {
      WakingKeepsEnd(s, step, t);
    } else if step.DoExit? {
      ExitKeepsEnd(s, t);
    } else if step.DoIdle? {
      IdleKeepsEnd(s, step, t);
    } else {
      LeftAside(s, step, t);
    }
  }

  /** What st_cond_timedwait returns: ETIME or EINTR only after the clock or an interrupt, 0 only after a signal. */
  lemma CondWaitReturns(s: Vp)
    requires Inv(s) && Grounded(s) && Me(s).inside.InCond?
    ensures var (s', r) := ResumeCall(s);
      && (r == Success || r == Error(ETIME) || r == Error(EINTR))
      && (r == Error(ETIME) ==> Me(s).waker == ByClock)
      && (r == Error(EINTR) <==> Me(s).interrupted)
      && (r == Success ==> Me(s).waker == BySignal)
      && (Me(s).waker == ByClock && !Me(s).interrupted ==> r == Error(ETIME))
      && s'.current == s.current && s.current in s'.threads && Me(s').inside == Nowhere
      && !Me(s').timedOut && !Me(s').interrupted
      && Me(s).inside.c in s'.conds && s.current !in s'.conds[Me(s).inside.c]
  {
    assert WaitOk(Me(s)) && PlaceOk(s, s.current, true);
    WithoutIs(s.conds[Me(s).inside.c], [s.current]);
    hide Inv, Grounded;
  }
}
