/**
 The cooperative scheduler of State Threads (st-1.9/sched.c and sync.c) as a state machine.

 Exactly one thread runs at a time; it changes the shared state by calling the library and
 gives up the processor only inside `_ST_SWITCH_CONTEXT`. One `Step` is what happens between
 two library calls of the running thread, or between two switch points inside a call.
 */
module Scheduler {
  import opened Options
  import opened ThreadStates

  type Tid = nat  // a thread
  type Cid = nat  // a condition variable
  type Mid = nat  // a mutex

  /** Where a thread that was switched out continues: the library call it is inside of. */
  datatype Inside = Nowhere | InSleep | InPoll | InCond(c: Cid) | InLock(m: Mid) | InExit

  /** What ended a thread's last wait. A history variable: nothing in the code reads it. */
  datatype Waker = NoOne | BySignal | ByClock | ByInterrupt | ByHandOff | ByIo | ByJoin

  datatype Thread = Thread(
    state: RunState,
    interrupted: bool,     // _ST_FL_INTERRUPT
    timedOut: bool,        // _ST_FL_TIMEDOUT
    onSleepq: bool,        // _ST_FL_ON_SLEEPQ
    inside: Inside,
    term: Option<Cid>,     // the condition variable on which it is joined
    waker: Waker)

  datatype Lock = Lock(owner: Option<Tid>, queue: seq<Tid>)

  /**
   `sleepq` gives the due time of every thread in the timeout heap; module TimeoutHeap has
   the tree itself. A thread's poll request is on the I/O queue when the thread is in `ioq`.
   */
  datatype Vp = Vp(
    threads: map<Tid, Thread>,
    current: Tid,
    idle: Tid,
    runq: seq<Tid>,
    ioq: seq<Tid>,
    zombieq: seq<Tid>,
    sleepq: map<Tid, int>,
    conds: map<Cid, seq<Tid>>,
    locks: map<Mid, Lock>,
    lastClock: int)

  // ----- queues

  ghost predicate NoDup(q: seq<Tid>) {
    forall i, j :: 0 <= i < j < |q| ==> q[i] != q[j]
  }

  /** Taking the links of some threads out of a queue. */
  function Without(q: seq<Tid>, ts: seq<Tid>): (r: seq<Tid>) {
    if q == [] then []
    else if q[0] in ts then Without(q[1..], ts)
    else [q[0]] + Without(q[1..], ts)
  }

  lemma {:induction false} WithoutIs(q: seq<Tid>, ts: seq<Tid>)
    ensures forall x :: x in Without(q, ts) <==> x in q && x !in ts
    ensures NoDup(q) ==> NoDup(Without(q, ts))
  {
    if q != [] {
      WithoutIs(q[1..], ts);
      assert q == [q[0]] + q[1..];
      assert forall x :: x in q <==> x == q[0] || x in q[1..];
      if NoDup(q) {
        assert q[0] !in q[1..];
      }
    }
  }

  /** The members of a queue that are in the set, in queue order. */
  function Among(q: seq<Tid>, ready: set<Tid>): (r: seq<Tid>) {
    if q == [] then []
    else if q[0] in ready then [q[0]] + Among(q[1..], ready)
    else Among(q[1..], ready)
  }

  lemma {:induction false} AmongIs(q: seq<Tid>, ready: set<Tid>)
    ensures forall x :: x in Among(q, ready) <==> x in q && x in ready
    ensures NoDup(q) ==> NoDup(Among(q, ready))
  {
    if q != [] {
      AmongIs(q[1..], ready);
      assert q == [q[0]] + q[1..];
      assert forall x :: x in q <==> x == q[0] || x in q[1..];
      if NoDup(q) {
        assert q[0] !in q[1..];
      }
    }
  }

  lemma NoDupAppend(q: seq<Tid>, ts: seq<Tid>)
    requires NoDup(q) && NoDup(ts) && forall t :: t in ts ==> t !in q
    ensures NoDup(q + ts)
  {
    var r := q + ts;
    forall i, j | 0 <= i < j < |r|
      ensures r[i] != r[j]
    {
      if i < |q| <= j {
        assert r[i] in q && r[j] in ts;
      }
    }
  }

  /** The first thread of the queue that is in the given state: what the loops over wait queues look for. */
  function First(threads: map<Tid, Thread>, q: seq<Tid>, st: RunState): (r: Option<Tid>) {
    if q == [] then None
    else if q[0] in threads && threads[q[0]].state == st then Some(q[0])
    else First(threads, q[1..], st)
  }

  /** The thread at place i is in the given state and nobody before it is. */
  ghost predicate Earliest(threads: map<Tid, Thread>, q: seq<Tid>, st: RunState, i: int) {
    && 0 <= i < |q| && q[i] in threads && threads[q[i]].state == st
    && forall j :: 0 <= j < i && q[j] in threads ==> threads[q[j]].state != st
  }

  lemma {:induction false} FirstIs(threads: map<Tid, Thread>, q: seq<Tid>, st: RunState)
    ensures First(threads, q, st) == None <==> forall i :: 0 <= i < |q| && q[i] in threads ==> threads[q[i]].state != st
    ensures First(threads, q, st).Some? ==> exists i :: Earliest(threads, q, st, i) && q[i] == First(threads, q, st).value
  {
    if q != [] {
      var rest := q[1..];
      FirstIs(threads, rest, st);
      if q[0] in threads && threads[q[0]].state == st {
        assert Earliest(threads, q, st, 0);
      } else if First(threads, rest, st).Some? {
        var i :| Earliest(threads, rest, st, i) && rest[i] == First(threads, rest, st).value;
        assert Earliest(threads, q, st, i + 1) by {
          assert forall j :: 0 < j <= i + 1 ==> q[j] == rest[j - 1];
        }
      } else {
        assert forall j :: 0 < j < |q| ==> q[j] == rest[j - 1];
      }
    }
  }

  // ----- the moves the library is made of

  function Me(s: Vp): Thread
    requires s.current in s.threads
  {
    s.threads[s.current]
  }

  function WithMe(s: Vp, th: Thread): Vp {
    s.(threads := s.threads[s.current := th])
  }

  predicate IsWait(st: RunState) {
    st == IoWait || st == LockWait || st == CondWait || st == Sleeping || st == Suspended
  }

  /** A thread that is made runnable. The clock leaves a mark on a condition wait. */
  function Roused(th: Thread, w: Waker): Thread {
    th.(state := Runnable, onSleepq := false, waker := w,
        timedOut := th.timedOut || (w == ByClock && th.state == CondWait))
  }

  /** Take the threads off the sleep queue, make them runnable, put them at the end of the run queue. */
  function Wake(s: Vp, ts: seq<Tid>, w: Waker): Vp {
    s.(threads := map t | t in s.threads :: if t in ts then Roused(s.threads[t], w) else s.threads[t],
       runq := s.runq + ts,
       sleepq := s.sleepq - (set t | t in ts))
  }

  /** _st_vp_schedule: the head of the run queue, or the idle thread, becomes current. */
  function Schedule(s: Vp): Vp
    requires s.idle in s.threads && (s.runq != [] ==> s.runq[0] in s.threads)
  {
    var next := if s.runq != [] then s.runq[0] else s.idle;
    s.(threads := s.threads[next := s.threads[next].(state := Running)],
       runq := if s.runq != [] then s.runq[1..] else [],
       current := next)
  }

  /** The current thread stops running: its new state, the call it is inside of, and its timeout. */
  function Park(s: Vp, st: RunState, inside: Inside, timeout: Option<int>): Vp
    requires s.current in s.threads
  {
    var th := Me(s).(state := st, inside := inside, onSleepq := timeout.Some?, waker := NoOne);
    WithMe(s, th).(sleepq := if timeout.Some? then s.sleepq[s.current := s.lastClock + timeout.value] else s.sleepq)
  }

  /** The members of a wait queue that are in the given state, in queue order. */
  function Those(threads: map<Tid, Thread>, q: seq<Tid>, st: RunState): (r: seq<Tid>)
    ensures forall t :: t in r ==> t in q && t in threads && threads[t].state == st
  {
    if q == [] then []
    else if q[0] in threads && threads[q[0]].state == st then [q[0]] + Those(threads, q[1..], st)
    else Those(threads, q[1..], st)
  }

  lemma {:induction false} ThoseSplit(threads: map<Tid, Thread>, a: seq<Tid>, b: seq<Tid>, st: RunState)
    ensures Those(threads, a + b, st) == Those(threads, a, st) + Those(threads, b, st)
  {
    if a == [] {
      assert a + b == b;
    } else {
      assert (a + b)[1..] == a[1..] + b;
      ThoseSplit(threads, a[1..], b, st);
    }
  }

  /** Waking some threads and then others is waking all of them. */
  lemma WakeSplit(s: Vp, a: seq<Tid>, b: seq<Tid>, w: Waker)
    requires forall t :: t in b ==> t !in a
    ensures Wake(Wake(s, a, w), b, w) == Wake(s, a + b, w)
  {
    assert Wake(Wake(s, a, w), b, w).threads == Wake(s, a + b, w).threads;
    assert Wake(Wake(s, a, w), b, w).sleepq == Wake(s, a + b, w).sleepq;
  }

  lemma WakeNobody(s: Vp, w: Waker)
    ensures Wake(s, [], w) == s
  {
    assert Wake(s, [], w).threads == s.threads;
    assert Wake(s, [], w).sleepq == s.sleepq;
  }

  lemma WakeSingle(s: Vp, t: Tid, w: Waker)
    requires t in s.threads
    ensures Wake(s, [t], w) ==
      s.(threads := s.threads[t := Roused(s.threads[t], w)], runq := s.runq + [t], sleepq := s.sleepq - {t})
  {
    assert Wake(s, [t], w).threads == s.threads[t := Roused(s.threads[t], w)];
    assert (set x | x in [t]) == {t};
  }

  lemma WakeKeepsIoq(s: Vp, ts: seq<Tid>, w: Waker)
    ensures Wake(s, ts, w).ioq == s.ioq
  {
  }

  // ----- what becomes of queues and threads

  /** r is what the members of q that are in the set make up, in queue order. */
  ghost predicate Picked(q: seq<Tid>, r: seq<Tid>, chosen: set<Tid>) {
    if q == [] then r == []
    else if q[0] in chosen then r != [] && r[0] == q[0] && Picked(q[1..], r[1..], chosen)
    else Picked(q[1..], r, chosen)
  }

  /** r is what the other members make up, in queue order. */
  ghost predicate LeftOut(q: seq<Tid>, r: seq<Tid>, chosen: set<Tid>) {
    if q == [] then r == []
    else if q[0] in chosen then LeftOut(q[1..], r, chosen)
    else r != [] && r[0] == q[0] && LeftOut(q[1..], r[1..], chosen)
  }

  /** The thread was woken in this way: it is off the sleep queue and may run, and is otherwise as before. */
  ghost predicate WokenBy(th: Thread, th': Thread, w: Waker) {
    && (th'.state == Runnable || th'.state == Running) && th'.waker == w && !th'.onSleepq
    && th'.timedOut == (th.timedOut || (w == ByClock && th.state == CondWait))
    && th'.interrupted == th.interrupted && th'.inside == th.inside && th'.term == th.term
  }

  lemma {:induction false} AmongPicks(q: seq<Tid>, chosen: set<Tid>)
    ensures Picked(q, Among(q, chosen), chosen)
  {
    if q != [] {
      AmongPicks(q[1..], chosen);
      assert q[0] in chosen ==> Among(q, chosen)[1..] == Among(q[1..], chosen);
    }
  }

  lemma {:induction false} WithoutLeaves(q: seq<Tid>, ts: seq<Tid>, chosen: set<Tid>)
    requires forall t :: t in q ==> (t in ts <==> t in chosen)
    ensures LeftOut(q, Without(q, ts), chosen)
  {
    if q != [] {
      WithoutLeaves(q[1..], ts, chosen);
      assert q[0] !in chosen ==> Without(q, ts)[1..] == Without(q[1..], ts);
    }
  }

  // ----- the library calls

  datatype Result =
    | Success
    | Error(errno: Errno)
    | Switched  // the call has not returned: the thread was switched out inside it

  datatype Errno = EINTR | ETIME | EDEADLK | EPERM | EBUSY | EINVAL

  /** st_thread_interrupt */
  function Interrupt(s: Vp, t: Tid): Vp
    requires t in s.threads
  {
    var th := s.threads[t];
    if th.state == Zombie then s
    else
      var s' := s.(threads := s.threads[t := th.(interrupted := true)]);
      if th.state == Running || th.state == Runnable then s' else Wake(s', [t], ByInterrupt)
  }

  /** st_cond_signal */
  function Signal(s: Vp, c: Cid): Vp
    requires c in s.conds
  {
    FirstIs(s.threads, s.conds[c], CondWait);
    match First(s.threads, s.conds[c], CondWait)
    case None => s
    case Some(t) => Wake(s, [t], BySignal)
  }

  /** st_cond_broadcast */
  function Broadcast(s: Vp, c: Cid): Vp
    requires c in s.conds
  {
    Wake(s, Those(s.threads, s.conds[c], CondWait), BySignal)
  }

  /** Every blocking call first consumes a pending interrupt. */
  function Interrupted(s: Vp): (Vp, Result)
    requires s.current in s.threads
  {
    (WithMe(s, Me(s).(interrupted := false)), Error(EINTR))
  }

  ghost predicate Schedulable(s: Vp) {
    s.idle in s.threads && s.current in s.threads && forall t :: t in s.runq ==> t in s.threads
  }

  lemma SignalKeepsSchedulable(s: Vp, c: Cid)
    requires Schedulable(s) && c in s.conds
    ensures Schedulable(Signal(s, c))
  {
    FirstIs(s.threads, s.conds[c], CondWait);
  }

  /** st_cond_timedwait, up to the switch */
  function CondWaitCall(s: Vp, c: Cid, timeout: Option<int>): (Vp, Result)
    requires Schedulable(s) && c in s.conds
  {
    if Me(s).interrupted then Interrupted(s)
    else
      var s' := Park(s, CondWait, InCond(c), timeout);
      (Schedule(s'.(conds := s.conds[c := s.conds[c] + [s.current]])), Switched)
  }

  /** st_usleep, up to the switch; no timeout means suspended until interrupted */
  function SleepCall(s: Vp, timeout: Option<int>): (Vp, Result)
    requires Schedulable(s)
  {
    if Me(s).interrupted then Interrupted(s)
    else (Schedule(Park(s, if timeout.Some? then Sleeping else Suspended, InSleep, timeout)), Switched)
  }

  /** st_poll, up to the switch; `added` is whether pollset_add succeeds */
  function PollCall(s: Vp, added: bool, timeout: Option<int>): (Vp, Result)
    requires Schedulable(s)
  {
    if Me(s).interrupted then Interrupted(s)
    else if !added then (s, Error(EINVAL))
    else (Schedule(Park(s, IoWait, InPoll, timeout).(ioq := s.ioq + [s.current])), Switched)
  }

  function SetOwner(s: Vp, m: Mid, owner: Option<Tid>): Vp
    requires m in s.locks
  {
    s.(locks := s.locks[m := s.locks[m].(owner := owner)])
  }

  /** st_mutex_lock, up to the switch */
  function LockCall(s: Vp, m: Mid): (Vp, Result)
    requires Schedulable(s) && m in s.locks
  {
    var lock := s.locks[m];
    if Me(s).interrupted then Interrupted(s)
    else if lock.owner == None then (SetOwner(s, m, Some(s.current)), Success)
    else if lock.owner == Some(s.current) then (s, Error(EDEADLK))
    else
      var s' := Park(s, LockWait, InLock(m), None);
      (Schedule(s'.(locks := s.locks[m := lock.(queue := lock.queue + [s.current])])), Switched)
  }

  /** st_mutex_trylock */
  function TryLockCall(s: Vp, m: Mid): (Vp, Result)
    requires m in s.locks
  {
    if s.locks[m].owner != None then (s, Error(EBUSY))
    else (SetOwner(s, m, Some(s.current)), Success)
  }

  /** st_mutex_unlock: the mutex goes to the first waiter, or to nobody. */
  function UnlockCall(s: Vp, m: Mid): (Vp, Result)
    requires m in s.locks
  {
    var lock := s.locks[m];
    if lock.owner != Some(s.current) then (s, Error(EPERM))
    else
      FirstIs(s.threads, lock.queue, LockWait);
      match First(s.threads, lock.queue, LockWait)
      case None => (SetOwner(s, m, None), Success)
      case Some(t) => (SetOwner(Wake(s, [t], ByHandOff), m, Some(t)), Success)
  }

  /** st_thread_create, with its termination condition variable if it is joinable */
  function CreateCall(s: Vp, t: Tid, term: Option<Cid>): (Vp, Result) {
    (s.(threads := s.threads[t := Thread(Runnable, false, false, false, Nowhere, term, NoOne)],
        runq := s.runq + [t],
        conds := if term.Some? then s.conds[term.value := []] else s.conds), Success)
  }

  /** The current thread is no more; its condition variable goes with it unless somebody waits on it. */
  function Gone(s: Vp): Vp
    requires s.current in s.threads
  {
    var term := Me(s).term;
    s.(threads := s.threads - {s.current},
       conds := if term.Some? && term.value in s.conds && s.conds[term.value] == [] then s.conds - {term.value} else s.conds)
  }

  /** st_thread_exit, up to its (first) switch */
  function ExitCall(s: Vp): (Vp, Result)
    requires Schedulable(s) && s.current != s.idle && s.current !in s.runq
    requires Me(s).term.Some? ==> Me(s).term.value in s.conds
  {
    if Me(s).term == None then (Schedule(Gone(s)), Switched)
    else
      var s' := Park(s, Zombie, InExit, None).(zombieq := s.zombieq + [s.current]);
      SignalKeepsSchedulable(s', Me(s).term.value);
      (Schedule(Signal(s', Me(s).term.value)), Switched)
  }

  /** The target of a join leaves the zombie queue; when it runs again it cleans up. */
  function Collect(s: Vp, t: Tid): Vp
    requires t in s.threads
  {
    s.(threads := s.threads[t := s.threads[t].(state := Runnable, waker := ByJoin)],
       zombieq := Without(s.zombieq, [t]),
       runq := s.runq + [t])
  }

  /**
   One round of st_thread_join: the checks (in the first round only), then either the
   target is collected from the zombie queue or the caller waits on its condition variable.
   */
  function JoinCall(s: Vp, t: Tid, first: bool): (Vp, Result)
    requires Schedulable(s) && t in s.threads
    requires s.threads[t].term.Some? ==> s.threads[t].term.value in s.conds
  {
    var th := s.threads[t];
    if th.term == None then (s, Error(EINVAL))
    else if s.current == t then (s, Error(EDEADLK))
    else if first && s.conds[th.term.value] != [] then (s, Error(EINVAL))
    else if th.state != Zombie then CondWaitCall(s, th.term.value, None)
    else (Collect(s, t), Success)
  }

  /** The rest of a call after the thread that made it has been switched in again. */
  function ResumeCall(s: Vp): (Vp, Result)
    requires Schedulable(s) && Me(s).inside != Nowhere
    requires Me(s).inside.InCond? ==> Me(s).inside.c in s.conds
    requires Me(s).inside.InLock? ==> Me(s).inside.m in s.locks
    requires Me(s).inside.InExit? ==> s.current != s.idle && s.current !in s.runq
  {
    var me, th := s.current, Me(s);
    var out := th.(inside := Nowhere, interrupted := false);
    match th.inside
    case InSleep =>
      (WithMe(s, out), if th.interrupted then Error(EINTR) else Success)
    case InPoll =>
      (WithMe(s, out).(ioq := Without(s.ioq, [me])), if th.interrupted then Error(EINTR) else Success)
    case InCond(c) =>
      (WithMe(s, out.(timedOut := false)).(conds := s.conds[c := Without(s.conds[c], [me])]),
       if th.interrupted then Error(EINTR) else if th.timedOut then Error(ETIME) else Success)
    case InLock(m) =>
      var lock := s.locks[m];
      var s' := s.(locks := s.locks[m := lock.(queue := Without(lock.queue, [me]))]);
      if th.interrupted && lock.owner != Some(me) then (WithMe(s', out), Error(EINTR))
      else (WithMe(s', th.(inside := Nowhere)), Success)
    case InExit =>
      (Schedule(Gone(s)), Switched)
  }

  // ----- the idle thread

  /** The dispatch loop: the requests that fired leave the I/O queue, their threads become runnable. */
  function Dispatch(s: Vp, fired: seq<Tid>): Vp {
    Wake(s, fired, ByIo).(ioq := Without(s.ioq, fired))
  }

  /** The threads on the I/O queue that are in the set have been woken, in queue order; their requests have left it. */
  ghost predicate IoDone(s: Vp, s': Vp, ready: set<Tid>, fired: seq<Tid>) {
    && Picked(s.ioq, fired, ready) && LeftOut(s.ioq, s'.ioq, ready) && s'.runq == s.runq + fired
    && s'.threads.Keys == s.threads.Keys && s'.idle == s.idle && s'.current == s.current
    && (forall t :: t in s.threads ==>
          if t in s.ioq && t in ready then WokenBy(s.threads[t], s'.threads[t], ByIo) && t !in s'.sleepq
          else s'.threads[t] == s.threads[t])
    && (forall t :: t in s'.sleepq <==> t in s.sleepq && !(t in s.ioq && t in ready))
    && (forall t :: t in s'.sleepq ==> s'.sleepq[t] == s.sleepq[t])
  }

  lemma DispatchDone(s: Vp, ready: set<Tid>)
    ensures IoDone(s, Dispatch(s, Among(s.ioq, ready)), ready, Among(s.ioq, ready))
  {
    AmongIs(s.ioq, ready);
    AmongPicks(s.ioq, ready);
    WithoutLeaves(s.ioq, Among(s.ioq, ready), ready);
    hide Among, Without, Picked, LeftOut;
  }

  /** `order` lists exactly the sleepers that are due, the earliest first. */
  ghost predicate DueOrder(sleepq: map<Tid, int>, now: int, order: seq<Tid>) {
    && NoDup(order)
    && (forall t :: t in order <==> t in sleepq && sleepq[t] <= now)
    && (forall i, j :: 0 <= i < j < |order| && order[i] in sleepq && order[j] in sleepq ==>
          sleepq[order[i]] <= sleepq[order[j]])
  }

  /** _st_vp_check_clock */
  function CheckClock(s: Vp, now: int, order: seq<Tid>): Vp {
    Wake(s.(lastClock := now), order, ByClock)
  }

  /** One round of the idle thread's loop. */
  function IdleCall(s: Vp, fired: seq<Tid>, now: int, order: seq<Tid>): (Vp, Result)
    requires Schedulable(s) && s.current == s.idle
    requires forall t :: t in fired + order ==> t in s.threads
  {
    var s' := CheckClock(Dispatch(s, fired), now, order);
    assert forall t :: t in s'.runq ==> t in s.runq || t in fired + order;
    (Schedule(WithMe(s', Me(s').(state := Runnable))), Switched)
  }

  // ----- runs

  datatype Step =
    | DoInterrupt(t: Tid)
    | DoSignal(c: Cid)
    | DoBroadcast(c: Cid)
    | DoWait(c: Cid, timeout: Option<int>)
    | DoSleep(timeout: Option<int>)
    | DoPoll(added: bool, timeout: Option<int>)
    | DoLock(m: Mid)
    | DoTryLock(m: Mid)
    | DoUnlock(m: Mid)
    | DoCreate(t: Tid, term: Option<Cid>)
    | DoExit
    | DoJoin(t: Tid, first: bool)
    | DoNewCond(c: Cid)
    | DoNewLock(m: Mid)
    | DoResume
    | DoIdle(ready: set<Tid>, now: int, order: seq<Tid>)
  {
    /** Made by a thread that is running its own code, not from inside a library call. */
    predicate IsCall() {
      !DoResume? && !DoIdle?
    }
  }
}
