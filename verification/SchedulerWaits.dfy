/**
 Whole runs of the scheduler, from where a thread begins to wait to where it has returned
 (st-1.9/sync.c, sched.c): condition waits, and joins.
 */
module SchedulerWaits {
  import opened ThreadStates
  import opened Options
  import opened Scheduler
  import opened SchedulerInvariant
  import opened SchedulerCalls
  import opened SchedulerRuns

  /** Up to its last state, thread t does not have the processor in the run. */
  ghost predicate WithoutTurn(s: Vp, steps: seq<Step>, t: Tid)
    requires CanRun(s, steps)
    decreases |steps|
  {
    steps == [] || (s.current != t && WithoutTurn(Next(s, steps[0]).0, steps[1..], t))
  }

  // ----- due times

  /** Only the current thread gets a due time. */
  ghost predicate DuesKept(s: Vp, s': Vp) {
    forall u :: u in s'.sleepq && u != s.current ==> u in s.sleepq && s'.sleepq[u] == s.sleepq[u]
  }

  lemma CallKeepsDues(s: Vp, step: Step)
    requires Grounded(s) && Enabled(s, step) && step.IsCall() && !step.DoExit?
    ensures DuesKept(s, Next(s, step).0)
  {
    hide Grounded, Enabled;
    match step
    case DoInterrupt(_) =>
    case DoSignal(_) =>
    case DoBroadcast(_) =>
    case DoWait(_, _) =>
    case DoSleep(_) =>
    case DoPoll(_, _) =>
    case DoLock(_) =>
    case DoTryLock(_) =>
    case DoUnlock(_) =>
    case DoCreate(_, _) =>
    case DoJoin(_, _) =>
    case DoNewCond(_) =>
    case DoNewLock(_) =>
  }

  lemma StepKeepsDues(s: Vp, step: Step)
    requires Grounded(s) && Enabled(s, step)
    ensures DuesKept(s, Next(s, step).0)
  {
    if step.IsCall() && !step.DoExit? {
      CallKeepsDues(s, step);
    } else if step.DoIdle? {
      AmongIs(s.ioq, step.ready);
    } else if step.DoExit? && Me(s).term.Some? {
      var s1 := Park(s, Zombie, InExit, None).(zombieq := s.zombieq + [s.current]);
      FirstIs(s1.threads, s1.conds[Me(s).term.value], CondWait);
    }
  }

  // ----- condition waits

  /** Thread t has been waiting on c since it parked, with this due time if it has a timeout. */
  ghost predicate WaitingOn(s: Vp, t: Tid, c: Cid, due: Option<int>) {
    && t in s.threads && s.threads[t].state == CondWait && s.threads[t].inside == InCond(c)
    && (t in s.sleepq <==> due.Some?) && (due.Some? ==> s.sleepq[t] == due.value)
  }

  /** What ended the wait, in state s and by this step. */
  ghost predicate EndedBy(s: Vp, step: Step, t: Tid, c: Cid, due: Option<int>, w: Waker) {
    && Grounded(s) && Enabled(s, step) && WaitingOn(s, t, c, due)
    && match w
       case BySignal => step == DoSignal(c) || step == DoBroadcast(c) || (step == DoExit && Me(s).term == Some(c))
       case ByClock => step.DoIdle? && due.Some? && due.value <= step.now
       case ByInterrupt => step == DoInterrupt(t)
       case _ => false
  }

  lemma StaysOrEnds(s: Vp, step: Step, t: Tid, c: Cid, due: Option<int>)
    requires Inv(s) && Grounded(s) && Enabled(s, step) && WaitingOn(s, t, c, due)
    ensures var s' := Next(s, step).0;
      || WaitingOn(s', t, c, due)
      || (t in s'.threads && s'.threads[t].state != CondWait && s'.threads[t].inside == InCond(c)
          && EndedBy(s, step, t, c, due, s'.threads[t].waker))
  {
    hide Inv, Next, Grounded, Enabled;
    var s' := Next(s, step).0;
    LeavesCondWait(s, step, t);
    StepKeepsDues(s, step);
    StepKeepsInv(s, step);
    WaiterFlagged(s, t);
    if s'.threads[t] == s.threads[t] {
      WaiterFlagged(s', t);
    }
  }

  lemma WaiterFlagged(s: Vp, t: Tid)
    requires Inv(s) && t in s.threads && s.threads[t].state == CondWait
    ensures t != s.current && (s.threads[t].onSleepq <==> t in s.sleepq)
  {
    assert PlaceOk(s, t, true);
  }

  /** Thread t is on its way back from a wait on c that was ended in this way. */
  ghost predicate Returning(s: Vp, t: Tid, c: Cid, w: Waker) {
    t in s.threads && s.threads[t].state != CondWait && s.threads[t].inside == InCond(c) && s.threads[t].waker == w
  }

  lemma {:induction false} RunReturning(s: Vp, steps: seq<Step>, t: Tid, c: Cid, w: Waker)
    requires Inv(s) && CanRun(s, steps) && WithoutTurn(s, steps, t) && Returning(s, t, c, w)
    ensures Returning(After(s, steps), t, c, w)
    decreases |steps|
  {
    hide Inv, Grounded, Enabled, Next;
    if steps != [] {
      StepKeepsInv(s, steps[0]);
      EndIsFinal(s, steps[0], t);
      RunReturning(Next(s, steps[0]).0, steps[1..], t, c, w);
    }
  }

  /** In a run that ends with the waiter's turn, one step ended its wait, and nothing ended it again. */
  lemma {:induction false} RunEndsWait(s: Vp, steps: seq<Step>, t: Tid, c: Cid, due: Option<int>) returns (k: nat)
    requires Inv(s) && CanRun(s, steps) && WithoutTurn(s, steps, t) && WaitingOn(s, t, c, due)
    requires After(s, steps).current == t
    ensures k < |steps| && CanRun(s, steps[..k])
    ensures t in After(s, steps).threads && Returning(After(s, steps), t, c, After(s, steps).threads[t].waker)
    ensures EndedBy(After(s, steps[..k]), steps[k], t, c, due, After(s, steps).threads[t].waker)
    decreases |steps|
  {
    hide Inv, Grounded, Enabled, Next, EndedBy;
    if steps == [] {
      WaiterFlagged(s, t);
    } else {
      var s' := Next(s, steps[0]).0;
      StepKeepsInv(s, steps[0]);
      StaysOrEnds(s, steps[0], t, c, due);
      if WaitingOn(s', t, c, due) {
        k := RunEndsWait(s', steps[1..], t, c, due);
        assert steps[..k + 1][0] == steps[0] && steps[..k + 1][1..] == steps[1..][..k];
        k := k + 1;
      } else {
        RunReturning(s', steps[1..], t, c, s'.threads[t].waker);
        k := 0;
      }
    }
  }

  lemma ParksOnCond(s: Vp, c: Cid, timeout: Option<int>)
    requires Inv(s) && Grounded(s) && Enabled(s, DoWait(c, timeout)) && Next(s, DoWait(c, timeout)).1 == Switched
    ensures var due := if timeout.Some? then Some(s.lastClock + timeout.value) else None;
      WaitingOn(Next(s, DoWait(c, timeout)).0, s.current, c, due)
    ensures Next(s, DoWait(c, timeout)).0.current != s.current
  {
    assert PlaceOk(s, s.current, true);
    hide Inv, Next, CondWaitCall;
    NextIs(s, DoWait(c, timeout));
    CondWaitParks(s, c, timeout);
  }

  lemma CondWaitParks(s: Vp, c: Cid, timeout: Option<int>)
    requires Schedulable(s) && c in s.conds && CondWaitCall(s, c, timeout).1 == Switched
    requires s.current !in s.runq && s.current != s.idle && s.current !in s.sleepq
    ensures var s', due := CondWaitCall(s, c, timeout).0, if timeout.Some? then Some(s.lastClock + timeout.value) else None;
      WaitingOn(s', s.current, c, due) && s'.current != s.current
  {
  }

  /**
   st_cond_timedwait from its park to its return, over any run in between: one step ended the wait, a signal
   or broadcast of this variable, the clock at or after the due time, or an interrupt of this thread; and
   apart from an interrupt, the result tells which.
   */
  lemma CondWaitRun(s: Vp, c: Cid, timeout: Option<int>, steps: seq<Step>) returns (k: nat, w: Waker)
    requires Inv(s) && Grounded(s) && Enabled(s, DoWait(c, timeout)) && Next(s, DoWait(c, timeout)).1 == Switched
    requires var s1 := Next(s, DoWait(c, timeout)).0;
      CanRun(s1, steps) && WithoutTurn(s1, steps, s.current) && After(s1, steps).current == s.current
    ensures var s1, due := Next(s, DoWait(c, timeout)).0, if timeout.Some? then Some(s.lastClock + timeout.value) else None;
      var e := After(s1, steps);
      && k < |steps| && CanRun(s1, steps[..k]) && EndedBy(After(s1, steps[..k]), steps[k], s.current, c, due, w)
      && Inv(e) && Grounded(e) && Me(e).inside == InCond(c)
      && var r := ResumeCall(e).1;
         && (r == Error(EINTR) <==> Me(e).interrupted)
         && (r == Error(ETIME) <==> !Me(e).interrupted && w == ByClock)
         && (r == Success <==> !Me(e).interrupted && w == BySignal)
         && (w == ByInterrupt ==> Me(e).interrupted)
  {
    hide Inv, Grounded, Next, EndedBy, Enabled, ResumeCall;
    var step := DoWait(c, timeout);
    var s1, due := Next(s, step).0, if timeout.Some? then Some(s.lastClock + timeout.value) else None;
    StepKeepsInv(s, step);
    ParksOnCond(s, c, timeout);
    RunKeepsInv(s1, steps);
    var e := After(s1, steps);
    InvGrounded(e);
    k := RunEndsWait(s1, steps, s.current, c, due);
    w := e.threads[s.current].waker;
    WaiterFlags(e);
    CondWaitReturns(e);
  }

  lemma WaiterFlags(s: Vp)
    requires Inv(s) && s.current in s.threads && Me(s).inside.InCond? && Me(s).state != CondWait
    ensures Me(s).waker == BySignal || Me(s).waker == ByClock || Me(s).waker == ByInterrupt
    ensures Me(s).waker == ByInterrupt ==> Me(s).interrupted
  {
    assert WaitOk(Me(s));
  }

  // ----- joins

  /** A thread that does not have the processor; a zombie is on no queue but its own. */
  ghost predicate Apart(s: Vp, u: Tid) {
    && s.current in s.threads && u in s.threads && u != s.current
    && (s.threads[u].state == Zombie ==> u != s.idle && u !in s.runq && u !in s.ioq && u !in s.sleepq)
  }

  /** The thread still exists, in the same call; if it was a zombie it is one. */
  ghost predicate Lasts(s: Vp, s': Vp, u: Tid)
    requires u in s.threads
  {
    && u in s'.threads && s'.threads[u].term == s.threads[u].term && s'.threads[u].inside == s.threads[u].inside
    && (s.threads[u].state == Zombie ==> s'.threads[u].state == Zombie)
  }

  lemma InvApart(s: Vp, u: Tid)
    requires Inv(s) && u in s.threads && u != s.current
    ensures Apart(s, u)
  {
    assert PlaceOk(s, u, true) && ContextOk(s, u);
  }

  lemma WakingLasts(s: Vp, step: Step, u: Tid)
    requires Apart(s, u) && Grounded(s) && Enabled(s, step)
    requires step.DoInterrupt? || step.DoSignal? || step.DoBroadcast?
    ensures Lasts(s, Next(s, step).0, u)
  {
    hide Grounded;
    if step.DoSignal? {
      SignalDoes(s, step.c, u);
      hide Signal;
    }
  }

  lemma UnlockLasts(s: Vp, m: Mid, u: Tid)
    requires Apart(s, u) && Grounded(s) && Enabled(s, DoUnlock(m))
    ensures Lasts(s, Next(s, DoUnlock(m)).0, u)
  {
    FirstIs(s.threads, s.locks[m].queue, LockWait);
    hide Grounded, First;
  }

  lemma ScheduleLasts(s: Vp, u: Tid)
    requires s.idle in s.threads && (s.runq != [] ==> s.runq[0] in s.threads) && u in s.threads
    requires s.threads[u].state == Zombie ==> u != s.idle && u !in s.runq
    ensures Lasts(s, Schedule(s), u)
  {
  }

  lemma SleepLasts(s: Vp, step: Step, u: Tid)
    requires Apart(s, u) && Grounded(s) && Enabled(s, step) && (step.DoSleep? || step.DoPoll?)
    ensures Lasts(s, Next(s, step).0, u)
  {
    hide Grounded;
  }

  lemma BlockLasts(s: Vp, step: Step, u: Tid)
    requires Apart(s, u) && Grounded(s) && Enabled(s, step) && (step.DoWait? || step.DoLock?)
    ensures Lasts(s, Next(s, step).0, u)
  {
    hide Grounded;
  }

  lemma QuickLasts(s: Vp, step: Step, u: Tid)
    requires Apart(s, u) && Grounded(s) && Enabled(s, step)
    requires step.DoTryLock? || step.DoCreate? || step.DoNewCond? || step.DoNewLock?
    ensures Lasts(s, Next(s, step).0, u)
  {
    hide Grounded;
  }

  lemma JoinLasts(s: Vp, step: Step, u: Tid)
    requires Apart(s, u) && Grounded(s) && Enabled(s, step) && step.DoJoin? && step.t != u
    ensures Lasts(s, Next(s, step).0, u)
  {
    hide Grounded;
  }

  lemma ExitLasts(s: Vp, u: Tid)
    requires Apart(s, u) && Grounded(s) && Enabled(s, DoExit)
    ensures Lasts(s, Next(s, DoExit).0, u)
  {
    hide Grounded, Enabled, Next;
    ExitDoes(s, u);
  }

  lemma ResumeLasts(s: Vp, u: Tid)
    requires Apart(s, u) && Grounded(s) && Enabled(s, DoResume)
    ensures Lasts(s, Next(s, DoResume).0, u)
  {
    if Me(s).inside == InExit {
      ScheduleLasts(Gone(s), u);
    }
  }

  lemma ScheduleKeepsCalls(s: Vp, u: Tid)
    requires s.idle in s.threads && (s.runq != [] ==> s.runq[0] in s.threads) && u in s.threads
    ensures var s' := Schedule(s);
      u in s'.threads && s'.threads[u].term == s.threads[u].term && s'.threads[u].inside == s.threads[u].inside
  {
  }

  lemma IdleKeepsCalls(s: Vp, step: Step, u: Tid)
    requires Grounded(s) && Enabled(s, step) && step.DoIdle? && u in s.threads
    ensures var s' := Next(s, step).0;
      u in s'.threads && s'.threads[u].term == s.threads[u].term && s'.threads[u].inside == s.threads[u].inside
  {
    IdleIs(s, step);
    hide Grounded, Enabled, Next, Wake, Schedule;
    var fired, s2 := Among(s.ioq, step.ready), IdleRound(s, step);
    WakeKeepsCalls(s, fired, ByIo, u);
    WakeKeepsCalls(Dispatch(s, fired).(lastClock := step.now), step.order, ByClock, u);
    ScheduleKeepsCalls(WithMe(s2, Me(s2).(state := Runnable)), u);
  }

  lemma WakeKeepsCalls(s: Vp, ts: seq<Tid>, w: Waker, u: Tid)
    requires u in s.threads
    ensures var s' := Wake(s, ts, w);
      u in s'.threads && s'.threads[u].term == s.threads[u].term && s'.threads[u].inside == s.threads[u].inside
  {
  }

  lemma IdleLasts(s: Vp, step: Step, u: Tid)
    requires Apart(s, u) && Grounded(s) && Enabled(s, step) && step.DoIdle?
    ensures Lasts(s, Next(s, step).0, u)
  {
    hide Grounded, Enabled, Next;
    IdleKeepsCalls(s, step, u);
    if s.threads[u].state == Zombie {
      IdleDoes(s, step, u);
    }
  }

  /** Only a join of this thread can bring it back from the zombie queue. */
  lemma OthersLast(s: Vp, step: Step, u: Tid)
    requires Apart(s, u) && Grounded(s) && Enabled(s, step) && !(step.DoJoin? && step.t == u)
    ensures Lasts(s, Next(s, step).0, u)
  {
    hide Apart, Grounded, Enabled, Next, Lasts;
    if step.DoInterrupt? || step.DoSignal? || step.DoBroadcast? {
      WakingLasts(s, step, u);
    } else if step.DoUnlock? {
      UnlockLasts(s, step.m, u);
    } else if step.DoSleep? || step.DoPoll? {
      SleepLasts(s, step, u);
    } else if step.DoWait? || step.DoLock? {
      BlockLasts(s, step, u);
    } else if step.DoJoin? {
      JoinLasts(s, step, u);
    } else if step.DoExit? {
      ExitLasts(s, u);
    } else if step.DoResume? {
      ResumeLasts(s, u);
    } else if step.DoIdle? {
      IdleLasts(s, step, u);
    } else {
      QuickLasts(s, step, u);
    }
  }

  /** A thread that can be joined on c: it has not exited, or it waits to be collected. */
  ghost predicate Awaited(s: Vp, t: Tid, c: Cid) {
    && t in s.threads && s.threads[t].term == Some(c)
    && (s.threads[t].state == Zombie || s.threads[t].inside != InExit)
  }

  /** The current thread after its own step: still there, and not inside an exit. */
  ghost predicate OwnLasts(s: Vp, s': Vp)
    requires s.current in s.threads
  {
    && s.current in s'.threads && s'.threads[s.current].term == Me(s).term
    && s'.threads[s.current].inside != InExit
  }

  lemma OwnWaitLasts(s: Vp, step: Step)
    requires Grounded(s) && Enabled(s, step) && Me(s).inside != InExit
    requires step.DoWait? || step.DoSleep? || step.DoPoll? || step.DoLock?
    ensures OwnLasts(s, Next(s, step).0)
  {
    hide Grounded;
  }

  lemma OwnJoinLasts(s: Vp, step: Step)
    requires Grounded(s) && Enabled(s, step) && Me(s).inside != InExit && step.DoJoin?
    ensures OwnLasts(s, Next(s, step).0)
  {
    hide Grounded;
  }

  lemma OwnWakingLasts(s: Vp, step: Step)
    requires Grounded(s) && Enabled(s, step) && Me(s).inside != InExit
    requires step.DoInterrupt? || step.DoSignal? || step.DoBroadcast? || step.DoUnlock?
    ensures OwnLasts(s, Next(s, step).0)
  {
    hide Grounded;
    match step
    case DoInterrupt(_) =>
    case DoSignal(d) => FirstIs(s.threads, s.conds[d], CondWait);
    case DoBroadcast(_) =>
    case DoUnlock(m) => FirstIs(s.threads, s.locks[m].queue, LockWait);
  }

  lemma OwnQuickLasts(s: Vp, step: Step)
    requires Grounded(s) && Enabled(s, step) && Me(s).inside != InExit
    requires step.DoTryLock? || step.DoCreate? || step.DoNewCond? || step.DoNewLock?
    ensures OwnLasts(s, Next(s, step).0)
  {
    hide Grounded;
  }

  lemma OwnResumeLasts(s: Vp)
    requires Grounded(s) && Enabled(s, DoResume) && Me(s).inside != InExit
    ensures OwnLasts(s, Next(s, DoResume).0)
  {
    hide Grounded;
  }

  lemma OwnIdleLasts(s: Vp, step: Step)
    requires Grounded(s) && Enabled(s, step) && Me(s).inside != InExit && step.DoIdle?
    ensures OwnLasts(s, Next(s, step).0)
  {
    IdleKeepsCalls(s, step, s.current);
  }

  lemma OwnStepLasts(s: Vp, step: Step)
    requires Grounded(s) && Enabled(s, step) && Me(s).inside != InExit && !step.DoExit?
    ensures OwnLasts(s, Next(s, step).0)
  {
    hide Grounded, Enabled, Next, OwnLasts;
    if step.DoInterrupt? || step.DoSignal? || step.DoBroadcast? || step.DoUnlock? {
      OwnWakingLasts(s, step);
    } else if step.DoWait? || step.DoSleep? || step.DoPoll? || step.DoLock? {
      OwnWaitLasts(s, step);
    } else if step.DoJoin? {
      OwnJoinLasts(s, step);
    } else if step.DoResume? {
      OwnResumeLasts(s);
    } else if step.DoIdle? {
      OwnIdleLasts(s, step);
    } else {
      OwnQuickLasts(s, step);
    }
  }

  lemma OwnExitAwaited(s: Vp, c: Cid)
    requires Inv(s) && Grounded(s) && Enabled(s, DoExit) && Awaited(s, s.current, c)
    ensures var s' := Next(s, DoExit).0; Awaited(s', s.current, c) && s'.threads[s.current].state == Zombie
  {
    assert s.current !in s.runq by {
      assert PlaceOk(s, s.current, true);
    }
    hide Inv;
    var s1 := Exited(s);
    ExitIs(s);
    hide Grounded, Enabled, Next, Schedule, Signal, Gone;
    SignalDoes(s1, c, s.current);
    ScheduleDoes(Signal(s1, c), s.current);
  }

  lemma StepKeepsAwaited(s: Vp, step: Step, t: Tid, c: Cid)
    requires Inv(s) && Grounded(s) && Enabled(s, step) && Awaited(s, t, c) && !(step.DoJoin? && step.t == t)
    ensures var s' := Next(s, step).0;
      Awaited(s', t, c) && (s.threads[t].state == Zombie || (t == s.current && step == DoExit) ==> s'.threads[t].state == Zombie)
  {
    hide Grounded, Enabled, Next;
    if t != s.current {
      InvApart(s, t);
      hide Inv;
      OthersLast(s, step, t);
    } else {
      assert s.threads[t].state == Running by {
        assert PlaceOk(s, t, true);
      }
      if step.DoExit? {
        OwnExitAwaited(s, c);
      } else {
        OwnStepLasts(s, step);
      }
    }
  }

  /** Nobody else signals the termination condition of t or joins it. */
  ghost predicate LeftAlone(steps: seq<Step>, t: Tid, c: Cid) {
    forall i :: 0 <= i < |steps| ==>
      steps[i] != DoSignal(c) && steps[i] != DoBroadcast(c) && !(steps[i].DoJoin? && steps[i].t == t)
  }

  lemma {:induction false} RunKeepsZombie(s: Vp, steps: seq<Step>, t: Tid, c: Cid)
    requires Inv(s) && CanRun(s, steps) && LeftAlone(steps, t, c) && Awaited(s, t, c) && s.threads[t].state == Zombie
    ensures Awaited(After(s, steps), t, c) && After(s, steps).threads[t].state == Zombie
    decreases |steps|
  {
    hide Inv, Grounded, Enabled, Next;
    if steps != [] {
      StepKeepsInv(s, steps[0]);
      StepKeepsAwaited(s, steps[0], t, c);
      RunKeepsZombie(Next(s, steps[0]).0, steps[1..], t, c);
    }
  }

  lemma SignalIsExit(s: Vp, step: Step, j: Tid, c: Cid)
    requires EndedBy(s, step, j, c, None, BySignal) && step != DoSignal(c) && step != DoBroadcast(c)
    ensures step == DoExit && s.current in s.threads && Me(s).term == Some(c)
  {
  }

  lemma TermIsOwn(s: Vp, t: Tid, c: Cid)
    requires Inv(s) && Awaited(s, t, c) && s.current in s.threads && Me(s).term == Some(c)
    ensures s.current == t
  {
  }

  /** A joiner has its turn again when the thread it waits for is a zombie, or it was interrupted. */
  lemma {:induction false} RunEndsJoin(s: Vp, steps: seq<Step>, j: Tid, t: Tid, c: Cid)
    requires Inv(s) && CanRun(s, steps) && WithoutTurn(s, steps, j) && After(s, steps).current == j
    requires WaitingOn(s, j, c, None) && Awaited(s, t, c) && LeftAlone(steps, t, c)
    ensures var e := After(s, steps);
      && j in e.threads && Returning(e, j, c, e.threads[j].waker) && e.threads[j].waker != ByClock
      && (e.threads[j].waker == BySignal ==> Awaited(e, t, c) && e.threads[t].state == Zombie)
    decreases |steps|
  {
    hide Inv, Grounded, Enabled, Next;
    if steps == [] {
      WaiterFlagged(s, j);
    } else {
      var s' := Next(s, steps[0]).0;
      StepKeepsInv(s, steps[0]);
      StaysOrEnds(s, steps[0], j, c, None);
      StepKeepsAwaited(s, steps[0], t, c);
      if WaitingOn(s', j, c, None) {
        RunEndsJoin(s', steps[1..], j, t, c);
      } else {
        RunReturning(s', steps[1..], j, c, s'.threads[j].waker);
        if s'.threads[j].waker == BySignal {
          assert steps[0] != DoSignal(c) && steps[0] != DoBroadcast(c);
          SignalIsExit(s, steps[0], j, c);
          TermIsOwn(s, t, c);
          RunKeepsZombie(s', steps[1..], t, c);
        }
      }
    }
  }

  /**
   st_thread_join over a run, for a joiner that has to wait: when it has its turn again the thread has exited and
   is collected in the next round, unless the joiner was interrupted.
   */
  lemma JoinRun(s: Vp, t: Tid, first: bool, steps: seq<Step>)
    requires Inv(s) && Grounded(s) && Enabled(s, DoJoin(t, first)) && Next(s, DoJoin(t, first)).1 == Switched
    requires s.threads[t].term.Some? && s.threads[t].inside != InExit
    requires LeftAlone(steps, t, s.threads[t].term.value)
    requires var s1 := Next(s, DoJoin(t, first)).0;
      CanRun(s1, steps) && WithoutTurn(s1, steps, s.current) && After(s1, steps).current == s.current
    ensures var e := After(Next(s, DoJoin(t, first)).0, steps);
      && Inv(e) && Grounded(e) && Me(e).inside.InCond?
      && var (e', r) := ResumeCall(e);
         && (r == Error(EINTR) <==> Me(e).interrupted)
         && (r != Error(EINTR) ==>
               && r == Success && Inv(e') && e'.current == s.current
               && t in e'.threads && e'.threads[t].state == Zombie && t in e'.zombieq
               && Schedulable(e') && e'.threads[t].term.Some? && e'.threads[t].term.value in e'.conds
               && JoinCall(e', t, false).1 == Success)
  {
    var step, c := DoJoin(t, first), s.threads[t].term.value;
    var s1 := Next(s, step).0;
    StepKeepsInv(s, step);
    JoinParks(s, t, first);
    RunKeepsInv(s1, steps);
    var e := After(s1, steps);
    InvGrounded(e);
    RunEndsJoin(s1, steps, s.current, t, c);
    WaiterFlags(e);
    CondWaitReturns(e);
    if !Me(e).interrupted {
      JoinEnds(e, t, c);
    }
  }

  /** A join that has to wait is a wait on the termination condition. */
  lemma JoinIsWait(s: Vp, t: Tid, first: bool)
    requires Schedulable(s) && t in s.threads && s.threads[t].term.Some? && s.threads[t].term.value in s.conds
    requires JoinCall(s, t, first).1 == Switched
    ensures t != s.current && JoinCall(s, t, first) == CondWaitCall(s, s.threads[t].term.value, None)
  {
    hide CondWaitCall;
  }

  lemma NextIs(s: Vp, step: Step)
    requires Grounded(s) && Enabled(s, step)
    ensures step.DoJoin? ==> Next(s, step) == JoinCall(s, step.t, step.first)
    ensures step.DoWait? ==> Next(s, step) == CondWaitCall(s, step.c, step.timeout)
    ensures step.DoResume? ==> Next(s, step) == ResumeCall(s)
  {
    hide JoinCall, CondWaitCall, ResumeCall;
  }

  lemma JoinParks(s: Vp, t: Tid, first: bool)
    requires Inv(s) && Grounded(s) && Enabled(s, DoJoin(t, first)) && Next(s, DoJoin(t, first)).1 == Switched
    requires s.threads[t].term.Some? && s.threads[t].inside != InExit
    ensures var s1 := Next(s, DoJoin(t, first)).0;
      WaitingOn(s1, s.current, s.threads[t].term.value, None) && Awaited(s1, t, s.threads[t].term.value)
  {
    var c := s.threads[t].term.value;
    hide Inv, JoinCall, CondWaitCall, Next;
    JoinerReady(s, t, first);
    hide Grounded, Enabled;
    NextIs(s, DoJoin(t, first));
    NextIs(s, DoWait(c, None));
    JoinIsWait(s, t, first);
    CondWaitParks(s, c, None);
    InvApart(s, t);
    OthersLast(s, DoWait(c, None), t);
  }

  lemma JoinerReady(s: Vp, t: Tid, first: bool)
    requires Inv(s) && Grounded(s) && Enabled(s, DoJoin(t, first)) && s.threads[t].term.Some?
    ensures Schedulable(s) && s.threads[t].term.value in s.conds && Enabled(s, DoWait(s.threads[t].term.value, None))
    ensures s.current !in s.runq && s.current != s.idle && s.current !in s.sleepq
  {
    assert PlaceOk(s, s.current, true);
  }

  lemma JoinEnds(e: Vp, t: Tid, c: Cid)
    requires Inv(e) && Grounded(e) && Me(e).inside == InCond(c) && Awaited(e, t, c) && e.threads[t].state == Zombie
    ensures var e' := ResumeCall(e).0;
      && Inv(e') && e'.current == e.current && t in e'.threads && e'.threads[t].state == Zombie
      && t in e'.zombieq && t != e'.current
      && Schedulable(e') && e'.threads[t].term == Some(c) && c in e'.conds && JoinCall(e', t, false).1 == Success
  {
    hide Inv, ResumeCall, Next, JoinCall;
    var e' := ResumeCall(e).0;
    hide Grounded;
    RunsNoZombie(e, t);
    NextIs(e, DoResume);
    CondWaitReturns(e);
    StepKeepsInv(e, DoResume);
    InvApart(e, t);
    OthersLast(e, DoResume, t);
    InvGrounded(e');
    ZombieReady(e', t, c);
  }

  lemma RunsNoZombie(s: Vp, t: Tid)
    requires Inv(s) && t in s.threads && s.threads[t].state == Zombie
    ensures t != s.current
  {
    assert PlaceOk(s, t, true);
  }

  lemma ZombieReady(s: Vp, t: Tid, c: Cid)
    requires Inv(s) && Grounded(s) && t in s.threads && s.threads[t].state == Zombie && s.threads[t].term == Some(c)
    requires t != s.current
    ensures t in s.zombieq && c in s.conds && Schedulable(s) && JoinCall(s, t, false).1 == Success
  {
    assert PlaceOk(s, t, true) && ContextOk(s, t);
    hide Inv, CondWaitCall;
  }
}
