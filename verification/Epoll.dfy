/**
 The epoll backend of State Threads (st-1.9/event.c). It keeps, per descriptor, how many
 requests on the I/O queue ask for it, and keeps the kernel's interest set equal to the
 events with a positive count.
 */
module Epoll {
  import opened PollIndex

  /** The bits epoll_wait can report for a descriptor. */
  datatype Ready = Ready(rd: bool, wr: bool, ex: bool, err: bool, hup: bool)

  const QUIET := Ready(false, false, false, false, false)

  datatype FdData = FdData(counts: Counts, revents: Ready)

  datatype Op = Add | Mod | Del

  /**
   The backend's state: its own tables, the epoll set inside the kernel, and how many
   epoll_ctl calls have failed for a reason of the kernel's own.
   */
  datatype State = State(fdData: seq<FdData>, evtlistCnt: int, interest: map<int, Events>, faults: nat)

  /** `_ST_EPOLL_EVENTS(fd)` */
  function Watched(s: State, fd: int): Events {
    if 0 <= fd < |s.fdData| then Mask(s.fdData[fd].counts) else NONE
  }

  ghost function CountsOf(s: State, fd: int): Counts {
    if 0 <= fd < |s.fdData| then s.fdData[fd].counts else ZERO
  }

  ghost predicate Fired(s: State, fd: int) {
    0 <= fd < |s.fdData| && s.fdData[fd].revents != QUIET
  }

  /** The kernel watches the descriptor for exactly what is asked for. */
  ghost predicate Synced(s: State, fd: int) {
    if Watched(s, fd) == NONE then fd !in s.interest else fd in s.interest && s.interest[fd] == Watched(s, fd)
  }

  ghost predicate AllSynced(s: State) {
    s.evtlistCnt == |s.interest| && forall fd :: Synced(s, fd)
  }

  /** The counts are those of the given entries. */
  ghost predicate Indexes(s: State, ps: seq<PollFd>) {
    forall fd :: CountsOf(s, fd) == Tally(ps, fd)
  }

  ghost predicate AllQuiet(s: State) {
    forall fd :: !Fired(s, fd)
  }

  ghost predicate SameInterest(s: State, s': State, fd: int) {
    (fd in s'.interest <==> fd in s.interest) && (fd in s'.interest ==> s'.interest[fd] == s.interest[fd])
  }

  // ----- removing entries

  /** The entry has been counted. */
  ghost predicate Removable(s: State, pd: PollFd) {
    0 <= pd.fd < |s.fdData| && AtLeast(CountsOf(s, pd.fd), Ones(pd.events))
  }

  /**
   What removing entries does to the kernel's view of a descriptor: nothing while it is
   fired or asked for as before; otherwise the kernel is told, and unless it refuses or does
   not know the descriptor it then watches for exactly what is still asked for.
   */
  ghost predicate Tracked(s: State, s': State, fd: int) {
    && (Fired(s, fd) || Watched(s', fd) == Watched(s, fd) ==> SameInterest(s, s', fd))
    && (fd in s'.interest ==> fd in s.interest)
    && (fd in s.interest && fd !in s'.interest ==> Watched(s', fd) == NONE)
    && (!Fired(s, fd) && Watched(s', fd) != Watched(s, fd) && s'.faults == s.faults ==>
          (fd in s.interest || Watched(s', fd) == NONE ==> Synced(s', fd)))
  }

  /** The entries have been taken out of the counts, and the kernel has been told as far as it can be. */
  ghost predicate Removed(s: State, s': State, pds: seq<PollFd>) {
    && |s'.fdData| == |s.fdData| && s.faults <= s'.faults
    && (forall fd :: Fired(s', fd) <==> Fired(s, fd))
    && (forall fd :: 0 <= fd < |s.fdData| ==> s'.fdData[fd].revents == s.fdData[fd].revents)
    && (forall fd :: CountsOf(s', fd) == Minus(CountsOf(s, fd), Tally(pds, fd)))
    && s'.evtlistCnt - |s'.interest| == s.evtlistCnt - |s.interest|
    && (forall fd :: Tracked(s, s', fd))
  }

  lemma RemovedTracks(s0: State, s1: State, s2: State, a: seq<PollFd>, b: seq<PollFd>, fd: int)
    requires Removed(s0, s1, a) && Removed(s1, s2, b) && AtLeast(CountsOf(s2, fd), ZERO)
    ensures Tracked(s0, s2, fd)
  {
    hide Tally;
    TallyNotNegative(a, fd);
    TallyNotNegative(b, fd);
    assert Tracked(s0, s1, fd) && Tracked(s1, s2, fd);
  }

  /** Removing some entries and then others is removing all of them. */
  lemma RemovedTwice(s0: State, s1: State, s2: State, a: seq<PollFd>, b: seq<PollFd>)
    requires Removed(s0, s1, a) && Removed(s1, s2, b) && forall fd :: AtLeast(CountsOf(s2, fd), ZERO)
    ensures Removed(s0, s2, a + b)
  {
    hide Tally, Tracked;
    forall fd
      ensures CountsOf(s2, fd) == Minus(CountsOf(s0, fd), Tally(a + b, fd))
      ensures Tracked(s0, s2, fd)
    {
      TallySplit(a, b, fd);
      RemovedTracks(s0, s1, s2, a, b, fd);
    }
  }

  /** Removing one more entry. */
  lemma RemovedNext(s0: State, s1: State, s2: State, pds: seq<PollFd>, i: int)
    requires 0 <= i < |pds| && Removed(s0, s1, pds[..i]) && Removed(s1, s2, [pds[i]])
    requires forall fd :: AtLeast(CountsOf(s0, fd), Tally(pds, fd))
    ensures Removed(s0, s2, pds[..i + 1])
  {
    hide Tally, Tracked;
    assert pds[..i + 1] == pds[..i] + [pds[i]];
    forall fd
      ensures AtLeast(CountsOf(s2, fd), ZERO)
    {
      TallySplit(pds[..i + 1], pds[i + 1..], fd);
      assert pds[..i + 1] + pds[i + 1..] == pds;
      TallyNotNegative(pds[i + 1..], fd);
      TallySplit(pds[..i], [pds[i]], fd);
    }
    RemovedTwice(s0, s1, s2, pds[..i], [pds[i]]);
  }

  /** What could be removed at first can be removed when its turn comes. */
  lemma StillRemovable(s0: State, s1: State, pds: seq<PollFd>, i: int)
    requires 0 <= i < |pds| && Removed(s0, s1, pds[..i]) && Removable(s0, pds[i])
    requires forall fd :: AtLeast(CountsOf(s0, fd), Tally(pds, fd))
    ensures Removable(s1, pds[i])
  {
    hide Tally, Tracked;
    var fd := pds[i].fd;
    TallySplit(pds[..i], pds[i..], fd);
    assert pds[..i] + pds[i..] == pds;
    TallyHas(pds[i..], 0);
  }

  // ----- adding entries

  /** One more entry has been counted; nothing but its descriptor has changed. */
  ghost predicate Counted(s: State, s': State, pd: PollFd) {
    && 0 <= pd.fd < |s.fdData| && s.faults <= s'.faults
    && s'.fdData == s.fdData[pd.fd := s.fdData[pd.fd].(counts := Plus(CountsOf(s, pd.fd), Ones(pd.events)))]
    && (forall fd :: fd != pd.fd ==> SameInterest(s, s', fd))
  }

  lemma SyncedElsewhere(s: State, s': State, pd: PollFd, fd: int)
    requires Counted(s, s', pd) && Synced(s, fd) && fd != pd.fd
    ensures Synced(s', fd)
  {
    assert SameInterest(s, s', fd);
  }

  /** The kernel has been told about the new entry: it now watches for what is asked for. */
  lemma CountedSynced(s: State, s': State, pd: PollFd)
    requires Counted(s, s', pd) && AllSynced(s) && Synced(s', pd.fd) && s'.evtlistCnt == |s'.interest|
    ensures AllSynced(s')
  {
    hide Counted, Synced;
    forall fd | fd != pd.fd
      ensures Synced(s', fd)
    {
      SyncedElsewhere(s, s', pd, fd);
    }
  }

  /** Some entries have been added: they are counted, and a synced state is still synced. */
  ghost predicate Added(s: State, s': State, pds: seq<PollFd>) {
    && |s'.fdData| == |s.fdData| && s.faults <= s'.faults
    && (forall fd :: Fired(s', fd) ==> Fired(s, fd))
    && (forall fd :: CountsOf(s', fd) == Plus(CountsOf(s, fd), Tally(pds, fd)))
    && (AllSynced(s) ==> AllSynced(s') && s'.faults == s.faults)
  }

  lemma AddedNone(s: State)
    ensures Added(s, s, [])
  {
    hide AllSynced, Tally, Plus;
    forall fd
      ensures CountsOf(s, fd) == Plus(CountsOf(s, fd), Tally([], fd))
    {
      PlusNothing(CountsOf(s, fd), fd);
    }
  }

  lemma PlusNothing(c: Counts, fd: int)
    ensures Plus(c, Tally([], fd)) == c
  {
  }

  lemma CountedTally(s: State, s1: State, s2: State, pds: seq<PollFd>, i: int)
    requires 0 <= i < |pds| && Counted(s1, s2, pds[i])
    requires forall fd :: CountsOf(s1, fd) == Plus(CountsOf(s, fd), Tally(pds[..i], fd))
    ensures forall fd :: CountsOf(s2, fd) == Plus(CountsOf(s, fd), Tally(pds[..i + 1], fd))
    ensures forall fd :: Fired(s2, fd) <==> Fired(s1, fd)
  {
    hide Tally;
    forall fd
      ensures CountsOf(s2, fd) == Plus(CountsOf(s, fd), Tally(pds[..i + 1], fd))
    {
      TallyLast(pds, i, fd);
    }
  }

  /** The entries added so far can be removed again. */
  lemma AddedRemovable(s: State, s2: State, pds: seq<PollFd>)
    requires forall fd :: CountsOf(s2, fd) == Plus(CountsOf(s, fd), Tally(pds, fd))
    requires forall fd :: AtLeast(CountsOf(s, fd), ZERO)
    requires forall k :: 0 <= k < |pds| ==> 0 <= pds[k].fd < |s2.fdData|
    ensures forall fd :: AtLeast(CountsOf(s2, fd), Tally(pds, fd))
    ensures forall k :: 0 <= k < |pds| ==> Removable(s2, pds[k])
  {
    hide Tally;
    forall k | 0 <= k < |pds|
      ensures Removable(s2, pds[k])
    {
      TallyHas(pds, k);
    }
  }

  /** Masks grow when entries are added. */
  lemma MaskGrows(s: State, s': State, fd: int, c: Counts)
    requires CountsOf(s', fd) == Plus(CountsOf(s, fd), c) && AtLeast(CountsOf(s, fd), ZERO) && AtLeast(c, ZERO)
    ensures (Watched(s, fd).rd ==> Watched(s', fd).rd) && (Watched(s, fd).wr ==> Watched(s', fd).wr)
    ensures (Watched(s, fd).ex ==> Watched(s', fd).ex)
  {
  }

  /**
   The unrolling after a failed epoll_ctl, seen on one descriptor. Entries are taken out first
   to last, not last to first, and a descriptor may occur several times; still the kernel ends
   up watching for what is asked for, because the failed descriptor's mask is left smaller
   than the one the failed call had asked for.
   */
  lemma UnrolledSynced(s: State, s1: State, s2: State, s3: State, pds: seq<PollFd>, i: int, fd: int)
    requires 0 <= i < |pds| && Added(s, s1, pds[..i]) && AllSynced(s) && AllQuiet(s)
    requires Counted(s1, s2, pds[i]) && s2.interest == s1.interest
    requires Watched(s2, pds[i].fd) != Watched(s1, pds[i].fd)
    requires Removed(s2, s3, pds[..i + 1]) && s3.faults == s2.faults
    requires forall fd :: AtLeast(CountsOf(s, fd), ZERO)
    ensures Synced(s3, fd) && CountsOf(s3, fd) == CountsOf(s, fd)
  {
    hide Tally, Tracked, Synced, AllSynced, Plus;
    CountedTally(s, s1, s2, pds, i);
    assert Synced(s1, fd) by {
      AddedSynced(s, s1, pds[..i], fd);
    }
    assert Tracked(s2, s3, fd) && !Fired(s2, fd);
    TallyNotNegative(pds[..i], fd);
    TallyNotNegative(pds[..i + 1], fd);
    MaskGrows(s, s1, fd, Tally(pds[..i], fd));
    PlusMinus(CountsOf(s, fd), Tally(pds[..i + 1], fd));
    AddedNotNegative(s, s1, pds[..i], fd);
    CountedGrows(s1, s2, pds[i], fd);
    UnrolledAt(s, s1, s2, s3, fd);
  }

  lemma AddedSynced(s: State, s1: State, pds: seq<PollFd>, fd: int)
    requires Added(s, s1, pds) && AllSynced(s)
    ensures Synced(s1, fd)
  {
    hide Tally;
  }

  lemma PlusMinus(a: Counts, b: Counts)
    ensures Minus(Plus(a, b), b) == a
  {
  }

  lemma CountedGrows(s: State, s': State, pd: PollFd, fd: int)
    requires Counted(s, s', pd) && AtLeast(CountsOf(s, fd), ZERO)
    ensures (Watched(s, fd).rd ==> Watched(s', fd).rd) && (Watched(s, fd).wr ==> Watched(s', fd).wr)
    ensures (Watched(s, fd).ex ==> Watched(s', fd).ex)
  {
  }

  /** Masks only grow from s over s1 to s2, and s3 has the mask of s again. */
  lemma UnrolledAt(s: State, s1: State, s2: State, s3: State, fd: int)
    requires Synced(s1, fd) && s2.interest == s1.interest && Tracked(s2, s3, fd) && !Fired(s2, fd)
    requires s3.faults == s2.faults && Watched(s3, fd) == Watched(s, fd)
    requires (Watched(s, fd).rd ==> Watched(s1, fd).rd) && (Watched(s1, fd).rd ==> Watched(s2, fd).rd)
    requires (Watched(s, fd).wr ==> Watched(s1, fd).wr) && (Watched(s1, fd).wr ==> Watched(s2, fd).wr)
    requires (Watched(s, fd).ex ==> Watched(s1, fd).ex) && (Watched(s1, fd).ex ==> Watched(s2, fd).ex)
    ensures Synced(s3, fd)
  {
    hide Watched;
  }

  ghost predicate NoneNegative(s: State) {
    forall fd :: AtLeast(CountsOf(s, fd), ZERO)
  }

  ghost predicate Usable(pds: seq<PollFd>, size: nat) {
    forall k :: 0 <= k < |pds| ==> 0 <= pds[k].fd < size
  }

  /** What pollset_add promises; its comment says it in words. */
  ghost predicate AddOutcome(s: State, s': State, pds: seq<PollFd>, ok: bool) {
    && |s'.fdData| >= |s.fdData| && AllQuiet(s') && s.faults <= s'.faults
    && (ok ==> forall fd :: CountsOf(s', fd) == Plus(CountsOf(s, fd), Tally(pds, fd)))
    && (!ok ==> forall fd :: CountsOf(s', fd) == CountsOf(s, fd))
    && (ok ==> AllAcceptable(pds) && forall k :: 0 <= k < |pds| ==> pds[k].fd < |s'.fdData|)
    && (AllSynced(s) && s'.faults <= s.faults + 1 ==> AllSynced(s'))
    && (AllSynced(s) && s'.faults == s.faults ==> (ok <==> AllAcceptable(pds)))
  }

  /** What adding one entry does; ok is false when epoll_ctl failed. */
  ghost predicate AddStep(s: State, s': State, pd: PollFd, ok: bool) {
    && Counted(s, s', pd)
    && (ok && AllSynced(s) ==> AllSynced(s'))
    && (!ok ==> s'.interest == s.interest && s'.evtlistCnt == s.evtlistCnt && Watched(s', pd.fd) != Watched(s, pd.fd))
    && (AllSynced(s) ==> s'.faults == s.faults + (if ok then 0 else 1))
  }

  lemma CountedFirst(s: State, s': State, pd: PollFd)
    requires 0 <= pd.fd < |s.fdData|
    requires s' == s.(fdData := s.fdData[pd.fd := s.fdData[pd.fd].(counts := Plus(CountsOf(s, pd.fd), Ones(pd.events)))])
    ensures Counted(s, s', pd)
  {
  }

  /** The kernel need not be told. */
  lemma AddStepQuiet(s: State, s': State, pd: PollFd)
    requires Counted(s, s', pd) && s' == s.(fdData := s'.fdData) && Watched(s', pd.fd) == Watched(s, pd.fd)
    ensures AddStep(s, s', pd, true)
  {
    hide Counted;
    if AllSynced(s) {
      assert Synced(s, pd.fd);
      CountedSynced(s, s', pd);
    }
  }

  lemma CountedTold(s: State, s1: State, s2: State, pd: PollFd)
    requires Counted(s, s1, pd) && s1 == s.(fdData := s1.fdData)
    requires s2.fdData == s1.fdData && s.faults <= s2.faults && forall fd :: fd != pd.fd ==> SameInterest(s, s2, fd)
    ensures Counted(s, s2, pd)
  {
  }

  /** The kernel was told. */
  lemma AddStepTold(s: State, s1: State, s2: State, pd: PollFd, op: Op, done: bool, ok: bool)
    requires Counted(s, s1, pd) && s1 == s.(fdData := s1.fdData) && Watched(s1, pd.fd) != Watched(s, pd.fd)
    requires AtLeast(CountsOf(s, pd.fd), ZERO)
    requires op == (if Watched(s, pd.fd) != NONE then Mod else Add)
    requires ok == (done || (op == Add && pd.fd in s.interest))
    requires done ==> (op == Add) != (pd.fd in s.interest)
    requires s2 == s1.(interest := if done then s.interest[pd.fd := Watched(s1, pd.fd)] else s.interest,
                       evtlistCnt := if ok && op == Add then s.evtlistCnt + 1 else s.evtlistCnt, faults := s2.faults)
    requires s2.faults == s.faults + if (op == Add) != (pd.fd in s.interest) && !done then 1 else 0
    requires |s2.interest| == |s.interest| + if done && op == Add then 1 else 0
    ensures AddStep(s, s2, pd, ok)
  {
    CountedTold(s, s1, s2, pd);
    assert Watched(s1, pd.fd) != NONE by {
      CountedMask(s, s1, pd);
    }
    hide Counted;
    if AllSynced(s) {
      assert Synced(s, pd.fd);
      if ok {
        CountedSynced(s, s2, pd);
      }
    }
  }

  lemma CountedMask(s: State, s1: State, pd: PollFd)
    requires Counted(s, s1, pd) && AtLeast(CountsOf(s, pd.fd), ZERO) && Watched(s1, pd.fd) != Watched(s, pd.fd)
    ensures Watched(s1, pd.fd) != NONE
  {
  }

  class Backend {
    var fdData: seq<FdData>
    var evtlistCnt: int
    var interest: map<int, Events>
    var faults: nat
    var ioq: seq<Request>

    function View(): State
      reads this
    {
      State(fdData, evtlistCnt, interest, faults)
    }

    /** _st_epoll_init */
    constructor (hint: nat)
      requires hint > 0
      ensures |fdData| == hint && ioq == [] && Indexes(View(), []) && AllSynced(View()) && AllQuiet(View())
    {
      fdData := seq(hint, _ => FdData(ZERO, QUIET));
      evtlistCnt, interest, faults, ioq := 0, map[], 0, [];
    }

    /**
     epoll_ctl. Adding what is there and changing what is not there fail; anything else
     succeeds unless the kernel has a reason of its own.
     */
    method EpollCtl(op: Op, fd: int, events: Events) returns (ok: bool, eexist: bool)
      modifies this`interest, this`faults
      ensures (op == Add) == (fd in old(interest)) ==>
        !ok && eexist == (op == Add) && interest == old(interest) && faults == old(faults)
      ensures (op == Add) != (fd in old(interest)) ==>
        && !eexist && faults == old(faults) + (if ok then 0 else 1)
        && interest == (if !ok then old(interest) else if op == Del then old(interest) - {fd} else old(interest)[fd := events])
      ensures |interest| == old(|interest|) + (if !ok || op == Mod then 0 else if op == Add then 1 else -1)
    {
      var fault: bool := *;
      ok, eexist := false, op == Add && fd in interest;
      if (op == Add) != (fd in interest) {
        if fault {
          faults := faults + 1;
        } else {
          ok := true;
          ghost var keys := interest.Keys;
          interest := if op == Del then interest - {fd} else interest[fd := events];
          assert interest.Keys == if op == Del then keys - {fd} else keys + {fd};
        }
      }
    }

    /** The body of the second loop of _st_epoll_pollset_add; false is its `break`. */
    method AddOne(pd: PollFd) returns (ok: bool)
      requires 0 <= pd.fd < |fdData| && AtLeast(CountsOf(View(), pd.fd), ZERO)
      modifies this`fdData, this`interest, this`evtlistCnt, this`faults
      ensures AddStep(old(View()), View(), pd, ok)
    {
      hide AddStep, Counted, Plus, Ones, Mask, AtLeast, Watched;
      ghost var s := View();
      var fd := pd.fd;
      var oldEvents := Watched(View(), fd);
      fdData := fdData[fd := fdData[fd].(counts := Plus(fdData[fd].counts, Ones(pd.events)))];
      ghost var s1 := View();
      CountedFirst(s, s1, pd);
      var events := Watched(View(), fd);
      if events == oldEvents {
        AddStepQuiet(s, s1, pd);
        return true;
      }
      var op := if oldEvents != NONE then Mod else Add;
      var done, eexist := EpollCtl(op, fd, events);
      ok := done || (op == Add && eexist);
      if ok && op == Add {
        evtlistCnt := evtlistCnt + 1;
      }
      AddStepTold(s, s1, View(), pd, op, done, ok);
    }

    /** One round of _st_epoll_pollset_del. */
    method DelOne(pd: PollFd)
      requires Removable(View(), pd)
      modifies this`fdData, this`interest, this`evtlistCnt, this`faults
      ensures Removed(old(View()), View(), [pd])
    {
      ghost var s := View();
      var fd := pd.fd;
      var oldEvents := Watched(View(), fd);
      fdData := fdData[fd := fdData[fd].(counts := Minus(fdData[fd].counts, Ones(pd.events)))];
      var events := Watched(View(), fd);
      if events != oldEvents && fdData[fd].revents == QUIET {
        var op := if events != NONE then Mod else Del;
        var ok, _ := EpollCtl(op, fd, events);
        if ok && op == Del {
          evtlistCnt := evtlistCnt - 1;
        }
      }
      RemovedOne(s, View(), pd);
    }

    /** _st_epoll_pollset_del */
    method PollsetDel(pds: seq<PollFd>)
      requires forall fd :: AtLeast(CountsOf(View(), fd), Tally(pds, fd))
      requires forall k :: 0 <= k < |pds| ==> Removable(View(), pds[k])
      modifies this`fdData, this`interest, this`evtlistCnt, this`faults
      ensures Removed(old(View()), View(), pds)
    {
      hide Removed, Removable, Tally;
      ghost var s := View();
      RemovedNone(s);
      var i := 0;
      while i < |pds|
        invariant 0 <= i <= |pds| && Removed(s, View(), pds[..i])
      {
        StillRemovable(s, View(), pds, i);
        ghost var s1 := View();
        DelOne(pds[i]);
        RemovedNext(s, s1, View(), pds, i);
        i := i + 1;
      }
      assert pds[..i] == pds;
    }

    /** _st_epoll_fd_data_expand */
    method FdDataExpand(maxfd: int)
      requires |fdData| > 0
      modifies this`fdData
      ensures |fdData| > maxfd && Extended(old(View()), View())
    {
      var n := |fdData|;
      while maxfd >= n
        invariant n >= |fdData| && n > 0
        decreases maxfd - n
      {
        n := 2 * n;
      }
      fdData := fdData + seq(n - |fdData|, _ => FdData(ZERO, QUIET));
    }

    /** The checks up front: reject unusable entries, make room for the descriptors of the others. */
    method CheckEntries(pds: seq<PollFd>) returns (ok: bool)
      requires |fdData| > 0
      modifies this`fdData
      ensures ok <==> AllAcceptable(pds)
      ensures ok ==> forall k :: 0 <= k < |pds| ==> 0 <= pds[k].fd < |fdData|
      ensures Extended(old(View()), View())
    {
      var i := 0;
      while i < |pds|
        invariant 0 <= i <= |pds| && |fdData| > 0
        invariant forall k :: 0 <= k < i ==> Acceptable(pds[k]) && pds[k].fd < |fdData|
        invariant Extended(old(View()), View())
      {
        if !Acceptable(pds[i]) {
          return false;
        }
        if pds[i].fd >= |fdData| {
          FdDataExpand(pds[i].fd);
        }
        i := i + 1;
      }
      return true;
    }

    /** The loop that adds the entries; it stops after the entry for which epoll_ctl failed. */
    method AddEach(pds: seq<PollFd>) returns (n: nat, ok: bool)
      requires forall k :: 0 <= k < |pds| ==> 0 <= pds[k].fd < |fdData|
      requires forall fd :: AtLeast(CountsOf(View(), fd), ZERO)
      modifies this`fdData, this`interest, this`evtlistCnt, this`faults
      ensures ok ==> Added(old(View()), View(), pds)
      ensures !ok ==> 0 < n <= |pds| && |fdData| == old(|fdData|)
      ensures old(faults) <= faults
      ensures !ok ==> forall fd :: CountsOf(View(), fd) == Plus(CountsOf(old(View()), fd), Tally(pds[..n], fd))
      ensures !ok ==> forall fd :: Fired(View(), fd) ==> Fired(old(View()), fd)
      ensures !ok && AllSynced(old(View())) ==> StoppedAt(old(View()), View(), pds, n - 1)
      ensures AllSynced(old(View())) ==> faults == old(faults) + (if ok then 0 else 1)
    {
      hide Tally, AllSynced, Added, Counted, StoppedAt;
      ghost var s := View();
      AddedNone(s);
      n := 0;
      while n < |pds|
        invariant 0 <= n <= |pds| && Added(s, View(), pds[..n]) && |fdData| == |s.fdData| && s.faults <= faults
        invariant AllSynced(s) ==> AllSynced(View()) && faults == s.faults
      {
        ghost var s1 := View();
        AddedNotNegative(s, s1, pds[..n], pds[n].fd);
        ok := AddOne(pds[n]);
        CountedSize(s1, View(), pds[n]);
        n := n + 1;
        if !ok {
          AddedStops(s, s1, View(), pds, n - 1);
          return;
        }
        AddedNext(s, s1, View(), pds, n - 1);
      }
      assert pds[..n] == pds;
      ok := true;
    }

    /**
     _st_epoll_pollset_add. Success counts every entry; failure leaves every count as it was,
     even when epoll_ctl fails midway and descriptors are repeated. Starting synced, success
     ends synced, and so does a failure whose unrolling meets no further fault.
     */
    method PollsetAdd(pds: seq<PollFd>) returns (ok: bool)
      requires |fdData| > 0 && AllQuiet(View()) && NoneNegative(View())
      modifies this`fdData, this`interest, this`evtlistCnt, this`faults
      ensures AddOutcome(old(View()), View(), pds, ok)
    {
      ghost var s0 := View();
      var usable := CheckEntries(pds);
      ghost var s := View();
      ExtendedSame(s0, s);
      hide Tally, AllSynced, AddOutcome, Extended, Added, Removed, AllAcceptable;
      if !usable {
        RejectOutcome(s0, s, pds);
        return false;
      }
      var n;
      n, ok := AddEach(pds);
      if ok {
        SuccessOutcome(s0, s, View(), pds);
      } else {
        Unroll(pds, n, s0, s);
      }
    }

    /** Takes the entries added so far out again, first to last. */
    method Unroll(pds: seq<PollFd>, n: nat, ghost s0: State, ghost s: State)
      requires Extended(s0, s) && AllQuiet(s0) && NoneNegative(s0) && 0 < n <= |pds|
      requires |fdData| == |s.fdData| && s.faults <= faults && Usable(pds, |fdData|)
      requires forall fd :: CountsOf(View(), fd) == Plus(CountsOf(s, fd), Tally(pds[..n], fd))
      requires forall fd :: Fired(View(), fd) ==> Fired(s, fd)
      requires AllSynced(s) ==> StoppedAt(s, View(), pds, n - 1) && faults == s.faults + 1
      modifies this`fdData, this`interest, this`evtlistCnt, this`faults
      ensures AddOutcome(s0, View(), pds, false)
    {
      hide Tally, AllSynced, AddOutcome, Removed, StoppedAt, Plus;
      ghost var s2 := View();
      ExtendedSame(s0, s);
      hide Extended;
      AddedRemovable(s, s2, pds[..n]);
      PollsetDel(pds[..n]);
      FailOutcome(s0, s, s2, View(), pds, n - 1);
    }
  }

  lemma RejectOutcome(s0: State, s: State, pds: seq<PollFd>)
    requires Extended(s0, s) && AllQuiet(s0) && !AllAcceptable(pds)
    ensures AddOutcome(s0, s, pds, false)
  {
    ExtendedSame(s0, s);
    hide AllSynced;
  }

  lemma SuccessOutcome(s0: State, s: State, s': State, pds: seq<PollFd>)
    requires Extended(s0, s) && AllQuiet(s0) && Added(s, s', pds) && AllAcceptable(pds)
    requires forall k :: 0 <= k < |pds| ==> pds[k].fd < |s.fdData|
    ensures AddOutcome(s0, s', pds, true)
  {
    ExtendedSame(s0, s);
    hide AllSynced, Tally;
  }

  lemma FailCounts(s0: State, s: State, s2: State, s3: State, pds: seq<PollFd>, fd: int)
    requires CountsOf(s, fd) == CountsOf(s0, fd) && CountsOf(s2, fd) == Plus(CountsOf(s, fd), Tally(pds, fd))
    requires Removed(s2, s3, pds)
    ensures CountsOf(s3, fd) == CountsOf(s0, fd)
  {
    hide Tally, Tracked;
    assert CountsOf(s3, fd) == Minus(CountsOf(s2, fd), Tally(pds, fd));
  }

  lemma FailSynced(s0: State, s: State, s2: State, s3: State, pds: seq<PollFd>, i: int)
    requires AllSynced(s0) ==> AllSynced(s)
    requires AllQuiet(s) && 0 <= i < |pds| && NoneNegative(s) && s0.faults == s.faults
    requires AllSynced(s) ==> StoppedAt(s, s2, pds, i) && s2.faults == s.faults + 1
    requires Removed(s2, s3, pds[..i + 1])
    ensures AllSynced(s0) ==> s3.faults > s0.faults && (s3.faults == s0.faults + 1 ==> AllSynced(s3))
  {
    assert s2.faults <= s3.faults;
    hide Removed, AllSynced, StoppedAt, Tally;
    if AllSynced(s0) && s3.faults == s2.faults {
      StoppedUnrolled(s, s2, s3, pds, i);
    }
  }

  lemma FailOutcome(s0: State, s: State, s2: State, s3: State, pds: seq<PollFd>, i: int)
    requires Extended(s0, s) && AllQuiet(s0) && 0 <= i < |pds| && |s2.fdData| == |s.fdData| && s.faults <= s2.faults
    requires forall fd :: CountsOf(s2, fd) == Plus(CountsOf(s, fd), Tally(pds[..i + 1], fd))
    requires forall fd :: Fired(s2, fd) ==> Fired(s, fd)
    requires AllSynced(s) ==> StoppedAt(s, s2, pds, i) && s2.faults == s.faults + 1
    requires Removed(s2, s3, pds[..i + 1]) && NoneNegative(s0)
    ensures AddOutcome(s0, s3, pds, false)
  {
    ExtendedSame(s0, s);
    assert s0.faults == s.faults && |s0.fdData| <= |s.fdData|;
    hide AllSynced, Tally, Tracked, StoppedAt, Extended, Plus;
    FailSynced(s0, s, s2, s3, pds, i);
    forall fd
      ensures CountsOf(s3, fd) == CountsOf(s0, fd)
    {
      FailCounts(s0, s, s2, s3, pds[..i + 1], fd);
    }
  }

  lemma AddedNotNegative(s: State, s1: State, pds: seq<PollFd>, fd: int)
    requires Added(s, s1, pds) && AtLeast(CountsOf(s, fd), ZERO)
    ensures AtLeast(CountsOf(s1, fd), ZERO)
  {
    TallyNotNegative(pds, fd);
  }

  lemma AddedNext(s: State, s1: State, s2: State, pds: seq<PollFd>, i: int)
    requires 0 <= i < |pds| && Added(s, s1, pds[..i]) && Counted(s1, s2, pds[i])
    requires AllSynced(s) ==> AllSynced(s2) && s2.faults == s.faults
    ensures Added(s, s2, pds[..i + 1])
  {
    hide Tally, AllSynced, Counted;
    CountedTally(s, s1, s2, pds, i);
    CountedSize(s1, s2, pds[i]);
  }

  lemma CountedSize(s: State, s': State, pd: PollFd)
    requires Counted(s, s', pd)
    ensures |s'.fdData| == |s.fdData| && s.faults <= s'.faults
  {
  }

  lemma AddedStops(s: State, s1: State, s2: State, pds: seq<PollFd>, i: int)
    requires 0 <= i < |pds| && Added(s, s1, pds[..i]) && Counted(s1, s2, pds[i])
    requires s2.interest == s1.interest && s2.evtlistCnt == s1.evtlistCnt
    requires Watched(s2, pds[i].fd) != Watched(s1, pds[i].fd)
    ensures |s2.fdData| == |s.fdData| && StoppedAt(s, s2, pds, i)
    ensures forall fd :: CountsOf(s2, fd) == Plus(CountsOf(s, fd), Tally(pds[..i + 1], fd))
    ensures forall fd :: Fired(s2, fd) ==> Fired(s, fd)
  {
    hide Tally, AllSynced, Counted;
    CountedTally(s, s1, s2, pds, i);
    CountedSize(s1, s2, pds[i]);
  }

  /** The table has grown; the new descriptors are asked for by nobody. */
  ghost predicate Extended(s: State, s': State) {
    && s.fdData <= s'.fdData && s' == s.(fdData := s'.fdData)
    && forall fd :: |s.fdData| <= fd < |s'.fdData| ==> s'.fdData[fd] == FdData(ZERO, QUIET)
  }

  lemma ExtendedSame(s: State, s': State)
    requires Extended(s, s')
    ensures forall fd :: CountsOf(s', fd) == CountsOf(s, fd)
    ensures AllQuiet(s) ==> AllQuiet(s')
    ensures AllSynced(s) ==> AllSynced(s')
  {
    forall fd
      ensures (Fired(s', fd) <==> Fired(s, fd)) && (Synced(s', fd) <==> Synced(s, fd))
    {
      assert Watched(s', fd) == Watched(s, fd);
    }
  }

  /** Adding stopped at entry i because epoll_ctl failed there. */
  ghost predicate StoppedAt(s: State, s2: State, pds: seq<PollFd>, i: int) {
    0 <= i < |pds| && exists s1 ::
      && Added(s, s1, pds[..i]) && Counted(s1, s2, pds[i])
      && s2.interest == s1.interest && s2.evtlistCnt == s1.evtlistCnt
      && Watched(s2, pds[i].fd) != Watched(s1, pds[i].fd)
  }

  lemma StoppedUnrolled(s: State, s2: State, s3: State, pds: seq<PollFd>, i: int)
    requires AllSynced(s) && AllQuiet(s) && StoppedAt(s, s2, pds, i)
    requires Removed(s2, s3, pds[..i + 1]) && s3.faults == s2.faults
    requires forall fd :: AtLeast(CountsOf(s, fd), ZERO)
    ensures AllSynced(s3)
  {
    var s1 :|
      && Added(s, s1, pds[..i]) && Counted(s1, s2, pds[i])
      && s2.interest == s1.interest && s2.evtlistCnt == s1.evtlistCnt
      && Watched(s2, pds[i].fd) != Watched(s1, pds[i].fd);
    hide Tally, Synced, Counted, Tracked;
    forall fd
      ensures Synced(s3, fd)
    {
      UnrolledSynced(s, s1, s2, s3, pds, i, fd);
    }
  }

  /** One entry: only its descriptor is affected. */
  lemma RemovedOne(s: State, s': State, pd: PollFd)
    requires Removable(s, pd) && s.faults <= s'.faults
    requires s'.fdData == s.fdData[pd.fd := s.fdData[pd.fd].(counts := Minus(CountsOf(s, pd.fd), Ones(pd.events)))]
    requires forall fd :: fd != pd.fd ==> SameInterest(s, s', fd)
    requires s'.evtlistCnt - |s'.interest| == s.evtlistCnt - |s.interest|
    requires Tracked(s, s', pd.fd)
    ensures Removed(s, s', [pd])
  {
    hide Tally;
    forall fd
      ensures CountsOf(s', fd) == Minus(CountsOf(s, fd), Tally([pd], fd))
    {
      TallyOne(pd, fd);
    }
    forall fd | fd != pd.fd
      ensures Tracked(s, s', fd)
    {
      assert SameInterest(s, s', fd);
    }
  }

  lemma RemovedNone(s: State)
    ensures Removed(s, s, [])
  {
  }
}
