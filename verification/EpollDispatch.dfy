/** _st_epoll_dispatch: from the events the kernel reports to the threads that become runnable. */
module EpollDispatch {
  import opened PollIndex
  import opened Epoll

  datatype Event = Event(fd: int, ready: Ready)

  /** A request that leaves the I/O queue, with the `revents` written into its entries. */
  datatype Notice = Notice(thread: nat, revents: seq<Ready>)

  ghost predicate Reports(evts: seq<Event>, fd: int) {
    exists k :: 0 <= k < |evts| && evts[k].fd == fd
  }

  /** What epoll_wait returns: distinct descriptors of the epoll set, each with something it is watched for. */
  ghost predicate Plausible(s: State, evts: seq<Event>) {
    && (forall k :: 0 <= k < |evts| ==>
          var e := evts[k];
          && 0 <= e.fd < |s.fdData| && e.fd in s.interest && e.ready != QUIET
          && (e.ready.rd ==> s.interest[e.fd].rd) && (e.ready.wr ==> s.interest[e.fd].wr)
          && (e.ready.ex ==> s.interest[e.fd].ex))
    && (forall j, k :: 0 <= j < k < |evts| ==> evts[j].fd != evts[k].fd)
  }

  /** What is recorded for a reported descriptor: on an error also everything it is asked for. */
  function Recorded(s: State, e: Event): Ready {
    var w := Watched(s, e.fd);
    if e.ready.err || e.ready.hup
    then e.ready.(rd := e.ready.rd || w.rd, wr := e.ready.wr || w.wr, ex := e.ready.ex || w.ex)
    else e.ready
  }

  /** The `revents` of an entry, given what is recorded for its descriptor. */
  function Revents(pd: PollFd, r: Ready): Ready {
    if r == QUIET then QUIET
    else Ready(pd.events.rd && r.rd, pd.events.wr && r.wr, pd.events.ex && r.ex, r.err, r.hup)
  }

  function RecordOf(s: State, fd: int): Ready {
    if 0 <= fd < |s.fdData| then s.fdData[fd].revents else QUIET
  }

  /** Some entry of the request has something to report. */
  predicate Notified(s: State, req: Request) {
    exists k :: 0 <= k < |req.pds| && Revents(req.pds[k], RecordOf(s, req.pds[k].fd)) != QUIET
  }

  function NoticeOf(s: State, req: Request): Notice {
    Notice(req.thread, seq(|req.pds|, i requires 0 <= i < |req.pds| => Revents(req.pds[i], RecordOf(s, req.pds[i].fd))))
  }

  /** The requests that stay on the I/O queue. */
  function Kept(s: State, ioq: seq<Request>): seq<Request> {
    if ioq == [] then []
    else if Notified(s, ioq[0]) then Kept(s, ioq[1..])
    else [ioq[0]] + Kept(s, ioq[1..])
  }

  /** The requests that leave it, in queue order. */
  function Leaving(s: State, ioq: seq<Request>): seq<Request> {
    if ioq == [] then []
    else if Notified(s, ioq[0]) then [ioq[0]] + Leaving(s, ioq[1..])
    else Leaving(s, ioq[1..])
  }

  function Notices(s: State, reqs: seq<Request>): seq<Notice> {
    if reqs == [] then [] else [NoticeOf(s, reqs[0])] + Notices(s, reqs[1..])
  }

  /** Nobody is lost and nobody is doubled: each entry is either kept or leaves. */
  lemma {:induction false} EntriesPartition(s: State, ioq: seq<Request>, fd: int)
    ensures Tally(Entries(ioq), fd) == Plus(Tally(Entries(Kept(s, ioq)), fd), Tally(Entries(Leaving(s, ioq)), fd))
  {
    hide Tally, Entries, Kept, Leaving, Notified, Plus;
    PlusShuffle(ZERO, ZERO, ZERO);
    QueueEmpty(s);
    TallyEmpty();
    if ioq != [] {
      var q, rest := ioq[0], ioq[1..];
      QueueHead(s, ioq);
      EntriesPartition(s, rest, fd);
      TallyHead(q, rest, fd);
      TallyHead(q, Leaving(s, rest), fd);
      TallyHead(q, Kept(s, rest), fd);
      assert ioq == [q] + rest;
      PlusShuffle(Tally(q.pds, fd), Tally(Entries(Kept(s, rest)), fd), Tally(Entries(Leaving(s, rest)), fd));
    }
  }

  lemma QueueEmpty(s: State)
    ensures Kept(s, []) == [] && Leaving(s, []) == [] && Entries([]) == []
  {
  }

  lemma {:induction false} QueueHead(s: State, ioq: seq<Request>)
    requires ioq != []
    ensures Kept(s, ioq) == if Notified(s, ioq[0]) then Kept(s, ioq[1..]) else [ioq[0]] + Kept(s, ioq[1..])
    ensures Leaving(s, ioq) == if Notified(s, ioq[0]) then [ioq[0]] + Leaving(s, ioq[1..]) else Leaving(s, ioq[1..])
  {
  }

  /** The three loops of dispatch, as relations between states. */
  ghost predicate Marked(s: State, s': State, evts: seq<Event>) {
    && |s'.fdData| == |s.fdData| && s' == s.(fdData := s'.fdData)
    && (forall fd :: CountsOf(s', fd) == CountsOf(s, fd))
    && (forall k :: 0 <= k < |evts| ==> RecordOf(s', evts[k].fd) == Recorded(s, evts[k]))
    && (forall fd :: !Reports(evts, fd) ==> RecordOf(s', fd) == RecordOf(s, fd))
  }

  ghost predicate Settled(s: State, s': State, evts: seq<Event>) {
    && |s'.fdData| == |s.fdData| && s.faults <= s'.faults
    && s'.evtlistCnt - |s'.interest| == s.evtlistCnt - |s.interest|
    && (forall fd :: CountsOf(s', fd) == CountsOf(s, fd))
    && (forall fd :: RecordOf(s', fd) == if Reports(evts, fd) then QUIET else RecordOf(s, fd))
    && (forall fd :: !Reports(evts, fd) ==> SameInterest(s, s', fd))
    && (s'.faults == s.faults ==> forall fd :: Reports(evts, fd) && fd in s.interest ==> Synced(s', fd))
  }

  /**
   After dispatch the kernel's view is right again: descriptors that did not fire were kept
   right on the way, descriptors that fired are put right at the end.
   */
  lemma DispatchSyncs(s0: State, s1: State, s2: State, s3: State, gone: seq<PollFd>, evts: seq<Event>, fd: int)
    requires AllSynced(s0) && AllQuiet(s0) && Plausible(s0, evts) && Marked(s0, s1, evts)
    requires Removed(s1, s2, gone) && Settled(s2, s3, evts) && s3.faults == s0.faults
    requires AtLeast(CountsOf(s2, fd), ZERO)
    ensures Synced(s3, fd)
  {
    hide Tally;
    assert Synced(s0, fd) && Tracked(s1, s2, fd);
    assert Watched(s1, fd) == Watched(s0, fd) && Watched(s3, fd) == Watched(s2, fd);
    if Reports(evts, fd) {
      var k :| 0 <= k < |evts| && evts[k].fd == fd;
      assert RecordOf(s1, fd) == Recorded(s0, evts[k]);
    } else {
      assert !Fired(s0, fd);
      TallyNotNegative(gone, fd);
    }
  }

  // ----- the code

  /** Outside dispatch the counts are those of the I/O queue and no descriptor is marked as fired. */
  ghost predicate Valid(s: State, ioq: seq<Request>) {
    && |s.fdData| > 0 && Indexes(s, Entries(ioq)) && AllQuiet(s)
    && forall i :: 0 <= i < |ioq| ==> Fits(s, ioq[i])
  }

  /** The descriptors of the request have a place in the table. */
  ghost predicate Fits(s: State, req: Request) {
    forall k :: 0 <= k < |req.pds| ==> 0 <= req.pds[k].fd < |s.fdData|
  }

  /** The first part of st_poll: register the descriptors and put the request at the end of the I/O queue. */
  method Submit(b: Backend, req: Request) returns (ok: bool)
    requires Valid(b.View(), b.ioq)
    modifies b
    ensures b.ioq == (if ok then old(b.ioq) + [req] else old(b.ioq)) && Valid(b.View(), b.ioq)
    ensures AddOutcome(old(b.View()), b.View(), req.pds, ok)
  {
    ghost var s, q := b.View(), b.ioq;
    IndexNotNegative(s, Entries(q));
    ok := b.PollsetAdd(req.pds);
    hide Valid, AddOutcome;
    SubmitValid(s, b.View(), q, req, ok);
    if ok {
      b.ioq := b.ioq + [req];
    }
  }

  lemma SubmitValid(s: State, s': State, ioq: seq<Request>, req: Request, ok: bool)
    requires Valid(s, ioq) && AddOutcome(s, s', req.pds, ok)
    ensures Valid(s', if ok then ioq + [req] else ioq)
  {
    hide Tally, Entries, AllSynced, AllQuiet, CountsOf, Plus, Indexes;
    FitsMore(s, s', ioq);
    if ok {
      SubmitIndexes(s, s', ioq, req);
    } else {
      SameIndexes(s, s', Entries(ioq));
    }
  }

  lemma FitsMore(s: State, s': State, q: seq<Request>)
    requires |s.fdData| <= |s'.fdData| && forall i :: 0 <= i < |q| ==> Fits(s, q[i])
    ensures forall i :: 0 <= i < |q| ==> Fits(s', q[i])
  {
    forall i | 0 <= i < |q|
      ensures Fits(s', q[i])
    {
      assert Fits(s, q[i]);
    }
  }

  lemma SameIndexes(s: State, s': State, ps: seq<PollFd>)
    requires Indexes(s, ps) && forall fd :: CountsOf(s', fd) == CountsOf(s, fd)
    ensures Indexes(s', ps)
  {
    hide Tally;
  }

  lemma IndexNotNegative(s: State, ps: seq<PollFd>)
    requires Indexes(s, ps)
    ensures NoneNegative(s)
  {
    hide Tally;
    forall fd
      ensures AtLeast(CountsOf(s, fd), ZERO)
    {
      TallyNotNegative(ps, fd);
    }
  }

  lemma SubmitIndexes(s: State, s': State, ioq: seq<Request>, req: Request)
    requires Indexes(s, Entries(ioq))
    requires forall fd :: CountsOf(s', fd) == Plus(CountsOf(s, fd), Tally(req.pds, fd))
    ensures Indexes(s', Entries(ioq + [req]))
  {
    EntriesSplit(ioq, [req]);
    EntriesHead(req, []);
    QueueEmpty(s);
    assert [req] + [] == [req] && req.pds + [] == req.pds;
    hide Tally, Entries;
    forall fd
      ensures CountsOf(s', fd) == Tally(Entries(ioq + [req]), fd)
    {
      TallySplit(Entries(ioq), req.pds, fd);
    }
  }

  /** The last part of st_poll when its request is still on the queue: take it out again. */
  method Withdraw(b: Backend, i: nat)
    requires Valid(b.View(), b.ioq) && i < |b.ioq|
    modifies b
    ensures b.ioq == old(b.ioq)[..i] + old(b.ioq)[i + 1..] && Valid(b.View(), b.ioq)
    ensures AllSynced(old(b.View())) && b.faults == old(b.faults) ==> AllSynced(b.View())
  {
    ghost var s, q := b.View(), b.ioq;
    var req := b.ioq[i];
    b.ioq := b.ioq[..i] + b.ioq[i + 1..];
    RequestRemovable(s, q, i);
    hide Valid;
    b.PollsetDel(req.pds);
    WithdrawValid(s, b.View(), q, i);
  }

  lemma WithdrawValid(s: State, s': State, q: seq<Request>, i: nat)
    requires Valid(s, q) && i < |q| && Removed(s, s', q[i].pds)
    ensures Valid(s', q[..i] + q[i + 1..])
    ensures AllSynced(s) && s'.faults == s.faults ==> AllSynced(s')
  {
    hide Tally, Entries, Tracked, AllSynced;
    WithdrawIndexes(s, s', q, i);
    IndexNotNegative(s', Entries(q[..i] + q[i + 1..]));
    FitsMore(s, s', q);
    if AllSynced(s) && s'.faults == s.faults {
      RemovedSynced(s, s', q[i].pds);
    }
  }

  lemma RequestRemovable(s: State, q: seq<Request>, i: nat)
    requires Indexes(s, Entries(q)) && i < |q| && Fits(s, q[i])
    ensures forall fd :: AtLeast(CountsOf(s, fd), Tally(q[i].pds, fd))
    ensures forall k :: 0 <= k < |q[i].pds| ==> Removable(s, q[i].pds[k])
  {
    hide Tally, Entries;
    forall fd
      ensures AtLeast(CountsOf(s, fd), Tally(q[i].pds, fd))
    {
      TallyMiddle(q, i, fd);
      TallyNotNegative(Entries(q[..i] + q[i + 1..]), fd);
    }
    forall k | 0 <= k < |q[i].pds|
      ensures Removable(s, q[i].pds[k])
    {
      TallyHas(q[i].pds, k);
    }
  }

  lemma WithdrawIndexes(s: State, s': State, q: seq<Request>, i: nat)
    requires Indexes(s, Entries(q)) && i < |q| && Removed(s, s', q[i].pds)
    ensures Indexes(s', Entries(q[..i] + q[i + 1..]))
  {
    hide Tally, Entries, Tracked;
    forall fd
      ensures CountsOf(s', fd) == Tally(Entries(q[..i] + q[i + 1..]), fd)
    {
      TallyMiddle(q, i, fd);
    }
  }

  lemma RemovedSynced(s: State, s': State, pds: seq<PollFd>)
    requires AllSynced(s) && AllQuiet(s) && Removed(s, s', pds) && s'.faults == s.faults
    requires NoneNegative(s')
    ensures AllSynced(s')
  {
    hide Tally;
    forall fd
      ensures Synced(s', fd)
    {
      assert Synced(s, fd) && Tracked(s, s', fd) && !Fired(s, fd);
      TallyNotNegative(pds, fd);
    }
  }

  // ----- the three loops of dispatch

  lemma ReportsNext(evts: seq<Event>, i: nat, fd: int)
    requires i < |evts|
    ensures Reports(evts[..i + 1], fd) <==> Reports(evts[..i], fd) || evts[i].fd == fd
  {
    if Reports(evts[..i], fd) {
      var k :| 0 <= k < i && evts[..i][k].fd == fd;
      assert evts[..i + 1][k].fd == fd;
    }
    if evts[i].fd == fd {
      assert evts[..i + 1][i].fd == fd;
    }
    if Reports(evts[..i + 1], fd) {
      var k :| 0 <= k < i + 1 && evts[..i + 1][k].fd == fd;
      assert k < i ==> evts[..i][k].fd == fd;
    }
  }

  lemma MarkedNext(s: State, s1: State, s2: State, evts: seq<Event>, i: nat)
    requires Plausible(s, evts) && i < |evts| && Marked(s, s1, evts[..i])
    requires var e := evts[i];
      s2 == s1.(fdData := s1.fdData[e.fd := s1.fdData[e.fd].(revents := Recorded(s1, e))])
    ensures Marked(s, s2, evts[..i + 1])
  {
    hide Reports;
    var e := evts[i];
    assert CountsOf(s1, e.fd) == CountsOf(s, e.fd);
    var head := evts[..i + 1];
    forall k | 0 <= k < |head|
      ensures RecordOf(s2, head[k].fd) == Recorded(s, head[k])
    {
      assert k < i ==> evts[..i][k] == evts[k] && evts[k].fd != e.fd;
    }
    forall fd
      ensures CountsOf(s2, fd) == CountsOf(s, fd)
      ensures !Reports(evts[..i + 1], fd) ==> RecordOf(s2, fd) == RecordOf(s, fd)
    {
      ReportsNext(evts, i, fd);
      assert CountsOf(s1, fd) == CountsOf(s, fd);
    }
  }

  /** Record what the kernel reports. */
  method MarkFired(b: Backend, evts: seq<Event>)
    requires Plausible(b.View(), evts)
    modifies b`fdData
    ensures Marked(old(b.View()), b.View(), evts)
  {
    ghost var s := b.View();
    var i := 0;
    assert Marked(s, s, evts[..0]);
    while i < |evts|
      invariant 0 <= i <= |evts| && Marked(s, b.View(), evts[..i]) && |b.fdData| == |s.fdData|
    {
      hide Marked;
      var e := evts[i];
      ghost var s1 := b.View();
      b.fdData := b.fdData[e.fd := b.fdData[e.fd].(revents := Recorded(b.View(), e))];
      MarkedNext(s, s1, b.View(), evts, i);
      i := i + 1;
    }
    assert evts[..i] == evts;
  }

  /** One fired descriptor is put right. */
  ghost predicate SettledOne(s: State, s': State, fd: int) {
    && |s'.fdData| == |s.fdData| && s.faults <= s'.faults && 0 <= fd < |s.fdData|
    && s'.evtlistCnt - |s'.interest| == s.evtlistCnt - |s.interest|
    && s'.fdData == s.fdData[fd := s.fdData[fd].(revents := QUIET)]
    && (forall g :: g != fd ==> SameInterest(s, s', g))
    && (s'.faults == s.faults && fd in s.interest ==> Synced(s', fd))
  }

  lemma SettledAt(s: State, s1: State, s2: State, evts: seq<Event>, i: nat, fd: int)
    requires i < |evts| && Settled(s, s1, evts[..i]) && SettledOne(s1, s2, evts[i].fd)
    requires forall k :: 0 <= k < i ==> evts[k].fd != evts[i].fd
    ensures CountsOf(s2, fd) == CountsOf(s, fd)
    ensures RecordOf(s2, fd) == if Reports(evts[..i + 1], fd) then QUIET else RecordOf(s, fd)
    ensures !Reports(evts[..i + 1], fd) ==> SameInterest(s, s2, fd)
    ensures s2.faults == s.faults && Reports(evts[..i + 1], fd) && fd in s.interest ==> Synced(s2, fd)
  {
    ReportsNext(evts, i, fd);
    assert RecordOf(s1, fd) == if Reports(evts[..i], fd) then QUIET else RecordOf(s, fd);
    assert CountsOf(s1, fd) == CountsOf(s, fd);
    if fd == evts[i].fd {
      assert !Reports(evts[..i], fd);
      assert SameInterest(s, s1, fd);
    } else {
      assert SameInterest(s1, s2, fd);
      hide Reports;
    }
  }

  lemma SettledNext(s: State, s1: State, s2: State, evts: seq<Event>, i: nat)
    requires i < |evts| && Settled(s, s1, evts[..i]) && SettledOne(s1, s2, evts[i].fd)
    requires forall k :: 0 <= k < i ==> evts[k].fd != evts[i].fd
    ensures Settled(s, s2, evts[..i + 1])
  {
    hide Reports, Synced, SameInterest, RecordOf, CountsOf;
    forall fd
      ensures CountsOf(s2, fd) == CountsOf(s, fd)
      ensures RecordOf(s2, fd) == if Reports(evts[..i + 1], fd) then QUIET else RecordOf(s, fd)
      ensures !Reports(evts[..i + 1], fd) ==> SameInterest(s, s2, fd)
      ensures s2.faults == s.faults && Reports(evts[..i + 1], fd) && fd in s.interest ==> Synced(s2, fd)
    {
      SettledAt(s, s1, s2, evts, i, fd);
    }
  }

  method SettleOne(b: Backend, fd: int)
    requires 0 <= fd < |b.fdData|
    modifies b`fdData, b`interest, b`evtlistCnt, b`faults
    ensures SettledOne(old(b.View()), b.View(), fd)
  {
    b.fdData := b.fdData[fd := b.fdData[fd].(revents := QUIET)];
    var events := Watched(b.View(), fd);
    var op := if events != NONE then Mod else Del;
    var ok, _ := b.EpollCtl(op, fd, events);
    if ok && op == Del {
      b.evtlistCnt := b.evtlistCnt - 1;
    }
  }

  /** Delete or modify the descriptors that fired. */
  method Settle(b: Backend, evts: seq<Event>)
    requires forall k :: 0 <= k < |evts| ==> 0 <= evts[k].fd < |b.fdData|
    requires forall j, k :: 0 <= j < k < |evts| ==> evts[j].fd != evts[k].fd
    modifies b`fdData, b`interest, b`evtlistCnt, b`faults
    ensures Settled(old(b.View()), b.View(), evts)
  {
    ghost var s := b.View();
    var i := 0;
    assert Settled(s, s, evts[..0]);
    while i < |evts|
      invariant 0 <= i <= |evts| && Settled(s, b.View(), evts[..i]) && |b.fdData| == |s.fdData|
    {
      hide Settled;
      ghost var s1 := b.View();
      SettleOne(b, evts[i].fd);
      SettledNext(s, s1, b.View(), evts, i);
      i := i + 1;
    }
    assert evts[..i] == evts;
  }

  /** The loop over the entries of one request: write their `revents`, see whether there is any. */
  method Inspect(b: Backend, req: Request) returns (notify: bool, revents: seq<Ready>)
    ensures notify == Notified(b.View(), req) && revents == NoticeOf(b.View(), req).revents
  {
    notify, revents := false, [];
    var i := 0;
    while i < |req.pds|
      invariant 0 <= i <= |req.pds| && |revents| == i
      invariant forall k :: 0 <= k < i ==> revents[k] == Revents(req.pds[k], RecordOf(b.View(), req.pds[k].fd))
      invariant notify <==> exists k :: 0 <= k < i && Revents(req.pds[k], RecordOf(b.View(), req.pds[k].fd)) != QUIET
    {
      var r := Revents(req.pds[i], RecordOf(b.View(), req.pds[i].fd));
      revents := revents + [r];
      if r != QUIET {
        notify := true;
      }
      i := i + 1;
    }
  }

  lemma SameRecords(s: State, s': State, gone: seq<PollFd>, req: Request)
    requires Removed(s, s', gone)
    ensures Notified(s', req) == Notified(s, req) && NoticeOf(s', req) == NoticeOf(s, req)
  {
    hide Tally, Tracked;
    assert forall fd :: RecordOf(s', fd) == RecordOf(s, fd);
  }

  /** A request that leaves the queue in its turn is still fully counted. */
  lemma LeavingRemovable(s: State, s': State, q: seq<Request>, gone: seq<Request>, req: Request, rest: seq<Request>)
    requires Indexes(s, Entries(q)) && Leaving(s, q) == gone + [req] + rest
    requires Removed(s, s', Entries(gone)) && Fits(s, req)
    ensures forall fd :: AtLeast(CountsOf(s', fd), Tally(req.pds, fd))
    ensures forall k :: 0 <= k < |req.pds| ==> Removable(s', req.pds[k])
  {
    hide Tally, Entries, Leaving, Kept, Tracked;
    forall fd
      ensures AtLeast(CountsOf(s', fd), Tally(req.pds, fd))
    {
      EntriesPartition(s, q, fd);
      TallyNotNegative(Entries(Kept(s, q)), fd);
      TallyNotNegative(Entries(rest), fd);
      assert gone + [req] + rest == gone + ([req] + rest);
      TallyOfTwo(gone, [req] + rest, fd);
      TallyHead(req, rest, fd);
    }
    forall k | 0 <= k < |req.pds|
      ensures Removable(s', req.pds[k])
    {
      TallyHas(req.pds, k);
    }
  }

  lemma LeavingRemoved(s: State, s1: State, s2: State, gone: seq<Request>, req: Request)
    requires Removed(s, s1, Entries(gone)) && Removed(s1, s2, req.pds)
    requires forall fd :: AtLeast(CountsOf(s1, fd), Tally(req.pds, fd))
    ensures Removed(s, s2, Entries(gone + [req]))
  {
    hide Tally, Tracked;
    EntriesSplit(gone, [req]);
    EntriesHead(req, []);
    assert [req] + [] == [req] && req.pds + [] == req.pds;
    hide Entries;
    RemovedTwice(s, s1, s2, Entries(gone), req.pds);
  }

  /** The queue has been worked off up to place i. */
  ghost predicate Progress(s: State, q: seq<Request>, i: int, kept: seq<Request>, gone: seq<Request>, notices: seq<Notice>) {
    && 0 <= i <= |q|
    && kept + Kept(s, q[i..]) == Kept(s, q)
    && gone + Leaving(s, q[i..]) == Leaving(s, q)
    && notices + Notices(s, Leaving(s, q[i..])) == Notices(s, Leaving(s, q))
  }

  lemma ProgressStart(s: State, q: seq<Request>)
    ensures Progress(s, q, 0, [], [], [])
  {
    hide Kept, Leaving, Notices;
    assert q[0..] == q;
  }

  lemma ProgressEnd(s: State, q: seq<Request>, kept: seq<Request>, gone: seq<Request>, notices: seq<Notice>)
    requires Progress(s, q, |q|, kept, gone, notices)
    ensures kept == Kept(s, q) && gone == Leaving(s, q) && notices == Notices(s, Leaving(s, q))
  {
    assert q[|q|..] == [];
    QueueEmpty(s);
    NoticesNone(s);
    hide Kept, Leaving, Notices;
  }

  lemma ProgressNext(s: State, q: seq<Request>, i: int, kept: seq<Request>, gone: seq<Request>, notices: seq<Notice>)
    requires Progress(s, q, i, kept, gone, notices) && i < |q|
    ensures Notified(s, q[i]) ==>
      && Progress(s, q, i + 1, kept, gone + [q[i]], notices + [NoticeOf(s, q[i])])
      && Leaving(s, q) == gone + [q[i]] + Leaving(s, q[i + 1..])
    ensures !Notified(s, q[i]) ==> Progress(s, q, i + 1, kept + [q[i]], gone, notices)
  {
    hide Notified, Kept, Leaving, Notices, NoticeOf;
    QueueHead(s, q[i..]);
    assert q[i..][0] == q[i] && q[i..][1..] == q[i + 1..];
    NoticesHead(s, q[i], Leaving(s, q[i + 1..]));
  }

  /** One request leaves the queue. */
  method Release(b: Backend, req: Request, ghost s: State, ghost gone: seq<Request>, ghost rest: seq<Request>)
    requires Indexes(s, Entries(b.ioq)) && Leaving(s, b.ioq) == gone + [req] + rest && Fits(s, req)
    requires Removed(s, b.View(), Entries(gone))
    modifies b`fdData, b`interest, b`evtlistCnt, b`faults
    ensures Removed(s, b.View(), Entries(gone + [req]))
  {
    hide Tally, Entries, Removed, Leaving, Indexes, Fits, Removable;
    LeavingRemovable(s, b.View(), b.ioq, gone, req, rest);
    ghost var s1 := b.View();
    b.PollsetDel(req.pds);
    LeavingRemoved(s, s1, b.View(), gone, req);
  }

  /** The loop over the I/O queue: requests with something to report leave it, the others stay in order. */
  method NotifyAll(b: Backend) returns (notices: seq<Notice>)
    requires Indexes(b.View(), Entries(b.ioq)) && forall i :: 0 <= i < |b.ioq| ==> Fits(b.View(), b.ioq[i])
    modifies b
    ensures var s, q := old(b.View()), old(b.ioq);
      && b.ioq == Kept(s, q) && notices == Notices(s, Leaving(s, q))
      && Removed(s, b.View(), Entries(Leaving(s, q)))
  {
    ghost var s := b.View();
    var q := b.ioq;
    var kept: seq<Request> := [];
    ghost var gone: seq<Request> := [];
    notices := [];
    var i := 0;
    NothingGone(s);
    ProgressStart(s, q);
    hide Tally, Entries, Removed, Notified, Leaving, Kept, Notices, Indexes, Progress, Fits;
    while i < |q|
      invariant 0 <= i <= |q| && b.ioq == q && Progress(s, q, i, kept, gone, notices)
      invariant Removed(s, b.View(), Entries(gone))
    {
      ProgressNext(s, q, i, kept, gone, notices);
      SameRecords(s, b.View(), Entries(gone), q[i]);
      var notify, revents := Inspect(b, q[i]);
      if notify {
        Release(b, q[i], s, gone, Leaving(s, q[i + 1..]));
        gone := gone + [q[i]];
        notices := notices + [Notice(q[i].thread, revents)];
      } else {
        kept := kept + [q[i]];
      }
      i := i + 1;
    }
    ProgressEnd(s, q, kept, gone, notices);
    b.ioq := kept;
  }

  lemma NothingGone(s: State)
    ensures Removed(s, s, Entries([]))
  {
    RemovedNone(s);
  }

  lemma NoticesNone(s: State)
    ensures Notices(s, []) == []
  {
  }

  lemma {:induction false} NoticesHead(s: State, req: Request, rest: seq<Request>)
    ensures Notices(s, [req] + rest) == [NoticeOf(s, req)] + Notices(s, rest)
  {
    assert ([req] + rest)[1..] == rest;
  }

  lemma DispatchValid(s0: State, s1: State, s2: State, s3: State, q: seq<Request>, evts: seq<Event>)
    requires Valid(s0, q) && Plausible(s0, evts) && Marked(s0, s1, evts)
    requires Removed(s1, s2, Entries(Leaving(s1, q))) && Settled(s2, s3, evts)
    ensures Valid(s3, Kept(s1, q))
    ensures AllSynced(s0) && s3.faults == s0.faults ==> AllSynced(s3)
  {
    hide Tally, Entries, Leaving, Kept, Tracked, AllSynced, Synced, SameInterest;
    forall fd
      ensures CountsOf(s3, fd) == Tally(Entries(Kept(s1, q)), fd)
      ensures AtLeast(CountsOf(s2, fd), ZERO) && !Fired(s3, fd)
    {
      assert CountsOf(s0, fd) == Tally(Entries(q), fd);
      EntriesPartition(s1, q, fd);
      TallyNotNegative(Entries(Kept(s1, q)), fd);
      NoneFired(s0, s1, s2, s3, Entries(Leaving(s1, q)), evts, fd);
    }
    KeptFits(s0, s3, s1, q);
    if AllSynced(s0) && s3.faults == s0.faults {
      DispatchSynced(s0, s1, s2, s3, q, evts);
    }
  }

  lemma NoneFired(s0: State, s1: State, s2: State, s3: State, gone: seq<PollFd>, evts: seq<Event>, fd: int)
    requires AllQuiet(s0) && Marked(s0, s1, evts) && Removed(s1, s2, gone) && Settled(s2, s3, evts)
    ensures !Fired(s3, fd)
  {
    hide Tally, Tracked, Synced, SameInterest, Reports;
    assert !Fired(s0, fd);
    assert RecordOf(s3, fd) == if Reports(evts, fd) then QUIET else RecordOf(s2, fd);
    assert RecordOf(s2, fd) == RecordOf(s1, fd);
    assert !Reports(evts, fd) ==> RecordOf(s1, fd) == RecordOf(s0, fd);
  }

  lemma {:induction false} KeptFits(s: State, s': State, seen: State, q: seq<Request>)
    requires |s'.fdData| == |s.fdData| && forall i :: 0 <= i < |q| ==> Fits(s, q[i])
    ensures forall i :: 0 <= i < |Kept(seen, q)| ==> Fits(s', Kept(seen, q)[i])
  {
    hide Notified, Fits;
    if q != [] {
      assert Fits(s, q[0]);
      FitsSame(s, s', q[0]);
      KeptFits(s, s', seen, q[1..]);
    }
  }

  lemma FitsSame(s: State, s': State, req: Request)
    requires |s'.fdData| == |s.fdData| && Fits(s, req)
    ensures Fits(s', req)
  {
  }

  lemma DispatchSynced(s0: State, s1: State, s2: State, s3: State, q: seq<Request>, evts: seq<Event>)
    requires AllSynced(s0) && AllQuiet(s0) && Plausible(s0, evts) && Marked(s0, s1, evts)
    requires Removed(s1, s2, Entries(Leaving(s1, q))) && Settled(s2, s3, evts) && s3.faults == s0.faults
    requires NoneNegative(s2)
    ensures AllSynced(s3)
  {
    assert s3.evtlistCnt == |s3.interest|;
    hide Tally, Entries, Leaving, Tracked, Synced, Marked, Removed, Settled, Plausible;
    forall fd
      ensures Synced(s3, fd)
    {
      DispatchSyncs(s0, s1, s2, s3, Entries(Leaving(s1, q)), evts, fd);
    }
  }

  // ----- what the threads are told, event by event

  /** What is to be written into an entry whose descriptor has these events */
  ghost predicate Told(r: Ready, asked: Events, e: Ready) {
    && (r.rd <==> asked.rd && (e.rd || e.err || e.hup))
    && (r.wr <==> asked.wr && (e.wr || e.err || e.hup))
    && (r.ex <==> asked.ex && (e.ex || e.err || e.hup))
    && (r.err <==> e.err) && (r.hup <==> e.hup)
  }

  /** The event is one that the entry is told about. */
  ghost predicate Concerns(e: Event, pd: PollFd) {
    && e.fd == pd.fd
    && (e.ready.err || e.ready.hup || (pd.events.rd && e.ready.rd) || (pd.events.wr && e.ready.wr) || (pd.events.ex && e.ready.ex))
  }

  ghost predicate ConcernsSome(evts: seq<Event>, req: Request) {
    exists i, k :: 0 <= i < |req.pds| && 0 <= k < |evts| && Concerns(evts[k], req.pds[i])
  }

  /** Entry i is told the events of its descriptor, and nothing if there are none. */
  ghost predicate ToldAt(revents: seq<Ready>, req: Request, evts: seq<Event>, i: int)
    requires 0 <= i < |req.pds| == |revents|
  {
    if Reports(evts, req.pds[i].fd)
    then forall k :: 0 <= k < |evts| && evts[k].fd == req.pds[i].fd ==> Told(revents[i], req.pds[i].events, evts[k].ready)
    else !revents[i].rd && !revents[i].wr && !revents[i].ex && !revents[i].err && !revents[i].hup
  }

  ghost predicate Tells(n: Notice, req: Request, evts: seq<Event>) {
    n.thread == req.thread && |n.revents| == |req.pds| && forall i :: 0 <= i < |req.pds| ==> ToldAt(n.revents, req, evts, i)
  }

  /** In queue order, the requests that an event concerns get their notices and the others are left. */
  ghost predicate Delivered(q: seq<Request>, evts: seq<Event>, notices: seq<Notice>, rest: seq<Request>) {
    if q == [] then notices == [] && rest == []
    else if ConcernsSome(evts, q[0]) then
      notices != [] && Tells(notices[0], q[0], evts) && Delivered(q[1..], evts, notices[1..], rest)
    else
      rest != [] && rest[0] == q[0] && Delivered(q[1..], evts, notices, rest[1..])
  }

  /** What a queued request asks for is watched for. */
  lemma AskedIsWatched(s: State, q: seq<Request>, i: nat, j: nat)
    requires Indexes(s, Entries(q)) && i < |q| && Fits(s, q[i]) && j < |q[i].pds|
    ensures var w, asked := Watched(s, q[i].pds[j].fd), q[i].pds[j].events;
      (asked.rd ==> w.rd) && (asked.wr ==> w.wr) && (asked.ex ==> w.ex)
  {
    RequestRemovable(s, q, i);
    hide Indexes, Entries, Tally;
    assert Removable(s, q[i].pds[j]);
  }

  /** One entry: what is recorded for its descriptor and masked for it is what it is to be told. */
  lemma RecordTells(s0: State, s1: State, pd: PollFd, evts: seq<Event>, k: nat)
    requires Marked(s0, s1, evts) && Plausible(s0, evts) && k < |evts| && evts[k].fd == pd.fd
    requires var w := Watched(s0, pd.fd);
      (pd.events.rd ==> w.rd) && (pd.events.wr ==> w.wr) && (pd.events.ex ==> w.ex)
    ensures var r := Revents(pd, RecordOf(s1, pd.fd));
      Told(r, pd.events, evts[k].ready) && (r != QUIET <==> Concerns(evts[k], pd))
  {
    assert RecordOf(s1, evts[k].fd) == Recorded(s0, evts[k]);
  }

  lemma NoRecord(s0: State, s1: State, pd: PollFd, evts: seq<Event>)
    requires Marked(s0, s1, evts) && AllQuiet(s0) && !Reports(evts, pd.fd)
    ensures Revents(pd, RecordOf(s1, pd.fd)) == QUIET
  {
    assert !Fired(s0, pd.fd);
  }

  /** One request of the queue */
  lemma NoticeTells(s0: State, s1: State, q: seq<Request>, evts: seq<Event>, n: nat)
    requires Valid(s0, q) && Plausible(s0, evts) && Marked(s0, s1, evts) && n < |q|
    ensures Tells(NoticeOf(s1, q[n]), q[n], evts)
    ensures Notified(s1, q[n]) <==> ConcernsSome(evts, q[n])
  {
    var req := q[n];
    assert Fits(s0, req);
    assert Indexes(s0, Entries(q)) && AllQuiet(s0);
    hide Valid, Indexes, Entries, AllQuiet, Marked, Plausible, Told, Concerns, Fits, Revents, RecordOf, Watched;
    var told := NoticeOf(s1, req).revents;
    forall i | 0 <= i < |req.pds|
      ensures ToldAt(told, req, evts, i)
      ensures told[i] != QUIET <==> exists k :: 0 <= k < |evts| && Concerns(evts[k], req.pds[i])
    {
      EntryTells(s0, s1, q, evts, n, i);
    }
    assert Notified(s1, req) <==> exists i :: 0 <= i < |req.pds| && told[i] != QUIET by {
      assert forall i :: 0 <= i < |req.pds| ==> told[i] == Revents(req.pds[i], RecordOf(s1, req.pds[i].fd));
    }
  }

  lemma EntryTells(s0: State, s1: State, q: seq<Request>, evts: seq<Event>, n: nat, i: nat)
    requires Indexes(s0, Entries(q)) && AllQuiet(s0) && Plausible(s0, evts) && Marked(s0, s1, evts)
    requires n < |q| && Fits(s0, q[n]) && i < |q[n].pds|
    ensures var told := NoticeOf(s1, q[n]).revents;
      && ToldAt(told, q[n], evts, i)
      && (told[i] != QUIET <==> exists k :: 0 <= k < |evts| && Concerns(evts[k], q[n].pds[i]))
  {
    var pd := q[n].pds[i];
    AskedIsWatched(s0, q, n, i);
    hide Indexes, Entries, AllQuiet, Marked, Plausible, Told, Fits, Revents, RecordOf, Watched;
    forall k | 0 <= k < |evts| && evts[k].fd == pd.fd
      ensures var r := Revents(pd, RecordOf(s1, pd.fd));
        Told(r, pd.events, evts[k].ready) && (r != QUIET <==> Concerns(evts[k], pd))
    {
      RecordTells(s0, s1, pd, evts, k);
    }
    if !Reports(evts, pd.fd) {
      NoRecord(s0, s1, pd, evts);
    }
  }

  /** The queue from place n on */
  lemma {:induction false} DeliveredFrom(s0: State, s1: State, q: seq<Request>, evts: seq<Event>, n: nat)
    requires Valid(s0, q) && Plausible(s0, evts) && Marked(s0, s1, evts) && n <= |q|
    ensures Delivered(q[n..], evts, Notices(s1, Leaving(s1, q[n..])), Kept(s1, q[n..]))
    decreases |q| - n
  {
    hide Valid, Plausible, Marked, Notified, ConcernsSome, Tells, NoticeOf;
    if n < |q| {
      NoticeTells(s0, s1, q, evts, n);
      DeliveredFrom(s0, s1, q, evts, n + 1);
      assert q[n..][1..] == q[n + 1..];
      QueueHead(s1, q[n..]);
      var more := Leaving(s1, q[n + 1..]);
      NoticesHead(s1, q[n], more);
      assert ([NoticeOf(s1, q[n])] + Notices(s1, more))[1..] == Notices(s1, more);
      assert ([q[n]] + Kept(s1, q[n + 1..]))[1..] == Kept(s1, q[n + 1..]);
    }
  }

  /**
   _st_epoll_dispatch, given what epoll_wait reports. Exactly the requests with something to
   report leave the I/O queue, in queue order; the counts are those of what is left; and if
   the kernel refused nothing it watches for exactly what is left.
   */
  method Dispatch(b: Backend, evts: seq<Event>) returns (notices: seq<Notice>, ghost seen: State)
    requires Valid(b.View(), b.ioq) && Plausible(b.View(), evts)
    modifies b
    ensures Marked(old(b.View()), seen, evts)
    ensures b.ioq == Kept(seen, old(b.ioq)) && notices == Notices(seen, Leaving(seen, old(b.ioq)))
    ensures Delivered(old(b.ioq), evts, notices, b.ioq)
    ensures Valid(b.View(), b.ioq)
    ensures AllSynced(old(b.View())) && b.faults == old(b.faults) ==> AllSynced(b.View())
  {
    ghost var s0, q := b.View(), b.ioq;
    MarkFired(b, evts);
    seen := b.View();
    MarkedReady(s0, seen, q, evts);
    hide Valid, Kept, Leaving, Notices, AllSynced;
    notices := NotifyAll(b);
    ghost var s2 := b.View();
    SettleReady(s0, seen, s2, q, evts);
    hide Marked, Removed, Plausible;
    Settle(b, evts);
    hide Settled, Delivered;
    DispatchValid(s0, seen, s2, b.View(), q, evts);
    DeliveredFrom(s0, seen, q, evts, 0);
    assert q[0..] == q;
  }

  lemma MarkedReady(s0: State, s1: State, q: seq<Request>, evts: seq<Event>)
    requires Valid(s0, q) && Marked(s0, s1, evts)
    ensures Indexes(s1, Entries(q)) && forall i :: 0 <= i < |q| ==> Fits(s1, q[i])
  {
    hide Tally, Entries;
    FitsMore(s0, s1, q);
  }

  lemma SettleReady(s0: State, s1: State, s2: State, q: seq<Request>, evts: seq<Event>)
    requires Plausible(s0, evts) && Marked(s0, s1, evts) && Removed(s1, s2, Entries(Leaving(s1, q)))
    ensures forall k :: 0 <= k < |evts| ==> 0 <= evts[k].fd < |s2.fdData|
    ensures forall j, k :: 0 <= j < k < |evts| ==> evts[j].fd != evts[k].fd
  {
    hide Tally, Entries, Leaving, Tracked;
  }

  // ----- every reported descriptor reaches a thread

  /** When index and kernel agree, no report is in vain: some entry of some request is told about it. */
  lemma {:induction false} ReportReachesRequest(s: State, ioq: seq<Request>, e: Event) returns (i: int, j: int)
    requires AllSynced(s) && Indexes(s, Entries(ioq)) && Plausible(s, [e])
    ensures 0 <= i < |ioq| && 0 <= j < |ioq[i].pds| && Concerns(e, ioq[i].pds[j])
  {
    assert [e][0] == e;
    assert Synced(s, e.fd);
    assert CountsOf(s, e.fd) == Tally(Entries(ioq), e.fd);
    hide Tally, Entries, Synced, AllSynced;
    var n;
    if e.ready.err || e.ready.hup {
      n := TallyFrom(Entries(ioq), e.fd);
    } else {
      n := TallyWanted(Entries(ioq), e.fd, Events(e.ready.rd, e.ready.wr, e.ready.ex));
    }
    i, j := EntryOf(ioq, n);
  }

  // ----- what the kernel watches for

  lemma WatchedIsWanted(s: State, q: seq<Request>, fd: int, want: Events)
    requires Valid(s, q)
    ensures Overlap(Watched(s, fd), want) <==> Wanted(q, fd, want)
  {
    assert CountsOf(s, fd) == Tally(Entries(q), fd);
    hide Tally, Entries, Wanted;
    WantedExact(q, fd, want);
  }

  /** In step with the index, the kernel watches each descriptor for exactly the events that queued requests ask for. */
  lemma InterestExact(s: State, q: seq<Request>, fd: int)
    requires Valid(s, q) && AllSynced(s)
    ensures fd in s.interest <==> Wanted(q, fd, Events(true, true, true))
    ensures fd in s.interest ==>
      && (s.interest[fd].rd <==> Wanted(q, fd, Events(true, false, false)))
      && (s.interest[fd].wr <==> Wanted(q, fd, Events(false, true, false)))
      && (s.interest[fd].ex <==> Wanted(q, fd, Events(false, false, true)))
  {
    assert Synced(s, fd);
    hide Valid, AllSynced, Wanted, Watched;
    WatchedIsWanted(s, q, fd, Events(true, true, true));
    WatchedIsWanted(s, q, fd, Events(true, false, false));
    WatchedIsWanted(s, q, fd, Events(false, true, false));
    WatchedIsWanted(s, q, fd, Events(false, false, true));
  }
}
