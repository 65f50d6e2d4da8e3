/**
 The select backend of State Threads (st-1.9/event.c): reference counts per descriptor, three
 descriptor sets and the highest descriptor, kept as an index over the I/O queue.
 */
module Select {
  import opened PollIndex

  const FD_SETSIZE := 1024

  datatype State = State(counts: seq<Counts>, rd: set<int>, wr: set<int>, ex: set<int>, maxfd: int)

  /** The counts of a descriptor are those of the entries, and its set bits are on when they are positive. */
  ghost predicate FdOk(s: State, ps: seq<PollFd>, fd: int)
    requires 0 <= fd < |s.counts|
  {
    && s.counts[fd] == Tally(ps, fd)
    && (fd in s.rd <==> s.counts[fd].rd > 0) && (fd in s.wr <==> s.counts[fd].wr > 0) && (fd in s.ex <==> s.counts[fd].ex > 0)
  }

  ghost predicate Indexes(s: State, ps: seq<PollFd>) {
    |s.counts| == FD_SETSIZE && forall fd :: 0 <= fd < FD_SETSIZE ==> FdOk(s, ps, fd)
  }

  /** What the backend accepts */
  predicate Usable(pd: PollFd) {
    Acceptable(pd) && pd.fd < FD_SETSIZE
  }

  ghost predicate AllUsable(ps: seq<PollFd>) {
    forall k :: 0 <= k < |ps| ==> Usable(ps[k])
  }

  ghost predicate Below(ps: seq<PollFd>, m: int) {
    forall k :: 0 <= k < |ps| ==> ps[k].fd <= m
  }

  ghost predicate EachRequest(q: seq<Request>, maxfd: int) {
    forall i :: 0 <= i < |q| ==> AllUsable(q[i].pds) && Below(q[i].pds, maxfd)
  }

  ghost predicate Valid(s: State, q: seq<Request>) {
    Indexes(s, Entries(q)) && EachRequest(q, s.maxfd)
  }

  // ----- one entry more or less

  function Set(s: set<int>, fd: int, on: bool): set<int> {
    if on then s + {fd} else s - {fd}
  }

  ghost predicate Changed(s: State, t: State, fd: int, now: Counts) {
    && |t.counts| == |s.counts| && 0 <= fd < |s.counts| && t.counts == s.counts[fd := now]
    && t.rd == Set(s.rd, fd, now.rd > 0) && t.wr == Set(s.wr, fd, now.wr > 0) && t.ex == Set(s.ex, fd, now.ex > 0)
  }

  lemma ChangedIndexes(s: State, t: State, ps: seq<PollFd>, qs: seq<PollFd>, fd: int, now: Counts)
    requires Indexes(s, ps) && Changed(s, t, fd, now) && now == Tally(qs, fd)
    requires forall x :: x != fd ==> Tally(qs, x) == Tally(ps, x)
    ensures Indexes(t, qs)
  {
    hide Tally;
    forall x | 0 <= x < FD_SETSIZE
      ensures FdOk(t, qs, x)
    {
      assert FdOk(s, ps, x);
    }
  }

  /** Requests may be exchanged for others with the same entries in all. */
  lemma SameTally(s: State, ps: seq<PollFd>, qs: seq<PollFd>)
    requires Indexes(s, ps) && forall fd :: Tally(qs, fd) == Tally(ps, fd)
    ensures Indexes(s, qs)
  {
    hide Tally;
    forall x | 0 <= x < FD_SETSIZE
      ensures FdOk(s, qs, x)
    {
      assert FdOk(s, ps, x);
    }
  }

  lemma AddedTally(ps: seq<PollFd>, pds: seq<PollFd>, i: nat, fd: int)
    requires i < |pds|
    ensures Tally(ps + pds[..i + 1], fd) ==
      Plus(Tally(ps + pds[..i], fd), if pds[i].fd == fd then Ones(pds[i].events) else ZERO)
  {
    hide Tally, Plus;
    TallySplit(ps, pds[..i + 1], fd);
    TallySplit(ps, pds[..i], fd);
    TallyLast(pds, i, fd);
    PlusShuffle(Tally(ps, fd), Tally(pds[..i], fd), if pds[i].fd == fd then Ones(pds[i].events) else ZERO);
  }

  lemma RemovedTally(ps: seq<PollFd>, pds: seq<PollFd>, i: nat, fd: int)
    requires i < |pds|
    ensures Tally(ps + pds[i..], fd) ==
      Plus(Tally(ps + pds[i + 1..], fd), if pds[i].fd == fd then Ones(pds[i].events) else ZERO)
  {
    hide Tally, Plus;
    var one := if pds[i].fd == fd then Ones(pds[i].events) else ZERO;
    TallySplit(ps, pds[i..], fd);
    TallySplit(ps, pds[i + 1..], fd);
    TallyFirst(pds, i, fd);
    PlusShuffle(Tally(ps, fd), one, Tally(pds[i + 1..], fd));
    PlusSwap(one, Tally(ps + pds[i + 1..], fd));
  }

  // ----- what select reports

  /** The sets that select leaves, the descriptors that fcntl finds bad after EBADF, or nothing to do */
  datatype Report = Ready(rd: set<int>, wr: set<int>, ex: set<int>) | Bad(fds: set<int>) | Nothing

  datatype Revents = Revents(rd: bool, wr: bool, ex: bool, nval: bool)

  const QUIET := Revents(false, false, false, false)

  function ReventsOf(r: Report, pd: PollFd): Revents {
    match r
    case Ready(rd, wr, ex) => Revents(pd.events.rd && pd.fd in rd, pd.events.wr && pd.fd in wr, pd.events.ex && pd.fd in ex, false)
    case Bad(fds) => if pd.events != NONE && pd.fd in fds then Revents(false, false, false, true) else QUIET
    case Nothing => QUIET
  }

  /** Some entry of the request has something to report. */
  predicate Notified(r: Report, req: Request) {
    exists k :: 0 <= k < |req.pds| && ReventsOf(r, req.pds[k]) != QUIET
  }

  /** A request that leaves the I/O queue, with the `revents` written into its entries */
  datatype Notice = Notice(thread: nat, revents: seq<Revents>)

  function NoticeOf(r: Report, req: Request): Notice {
    Notice(req.thread, seq(|req.pds|, i requires 0 <= i < |req.pds| => ReventsOf(r, req.pds[i])))
  }

  /** The requests that stay, and the notices of those that leave, in queue order */
  function Kept(r: Report, q: seq<Request>): seq<Request> {
    if q == [] then [] else
      Kept(r, q[..|q| - 1]) + if Notified(r, q[|q| - 1]) then [] else [q[|q| - 1]]
  }

  function Notices(r: Report, q: seq<Request>): seq<Notice> {
    if q == [] then [] else
      Notices(r, q[..|q| - 1]) + if Notified(r, q[|q| - 1]) then [NoticeOf(r, q[|q| - 1])] else []
  }

  // ----- what the threads are told, event by event

  /** What is to be written into an entry that asks for these events of this descriptor */
  ghost predicate Told(x: Revents, asked: Events, fd: int, r: Report) {
    && (x.rd <==> asked.rd && r.Ready? && fd in r.rd)
    && (x.wr <==> asked.wr && r.Ready? && fd in r.wr)
    && (x.ex <==> asked.ex && r.Ready? && fd in r.ex)
    && (x.nval <==> r.Bad? && fd in r.fds)
  }

  /** There is something to tell the entry. */
  ghost predicate Concerns(r: Report, pd: PollFd) {
    match r
    case Ready(rd, wr, ex) =>
      (pd.events.rd && pd.fd in rd) || (pd.events.wr && pd.fd in wr) || (pd.events.ex && pd.fd in ex)
    case Bad(fds) => pd.fd in fds
    case Nothing => false
  }

  ghost predicate ConcernsSome(r: Report, req: Request) {
    exists i :: 0 <= i < |req.pds| && Concerns(r, req.pds[i])
  }

  ghost predicate Tells(n: Notice, req: Request, r: Report) {
    && n.thread == req.thread && |n.revents| == |req.pds|
    && forall i :: 0 <= i < |req.pds| ==> Told(n.revents[i], req.pds[i].events, req.pds[i].fd, r)
  }

  /** In queue order, the requests that the report concerns get their notices and the others are left. */
  ghost predicate Delivered(q: seq<Request>, r: Report, notices: seq<Notice>, rest: seq<Request>) {
    if q == [] then notices == [] && rest == []
    else
      var n, m, l := |q| - 1, |notices| - 1, |rest| - 1;
      if ConcernsSome(r, q[n]) then
        m >= 0 && Tells(notices[m], q[n], r) && Delivered(q[..n], r, notices[..m], rest)
      else
        l >= 0 && rest[l] == q[n] && Delivered(q[..n], r, notices, rest[..l])
  }

  lemma EntryTells(r: Report, pd: PollFd)
    requires Usable(pd)
    ensures Told(ReventsOf(r, pd), pd.events, pd.fd, r) && (ReventsOf(r, pd) != QUIET <==> Concerns(r, pd))
  {
  }

  lemma NoticeTells(r: Report, req: Request)
    requires AllUsable(req.pds)
    ensures Tells(NoticeOf(r, req), req, r) && (Notified(r, req) <==> ConcernsSome(r, req))
  {
    forall i | 0 <= i < |req.pds|
      ensures Told(ReventsOf(r, req.pds[i]), req.pds[i].events, req.pds[i].fd, r)
      ensures ReventsOf(r, req.pds[i]) != QUIET <==> Concerns(r, req.pds[i])
    {
      EntryTells(r, req.pds[i]);
    }
    hide ReventsOf, Told, Concerns;
  }

  lemma {:induction false} AllDelivered(r: Report, q: seq<Request>)
    requires forall j :: 0 <= j < |q| ==> AllUsable(q[j].pds)
    ensures Delivered(q, r, Notices(r, q), Kept(r, q))
  {
    hide Notified, ConcernsSome, Tells, NoticeOf, AllUsable;
    if q != [] {
      var n := |q| - 1;
      AllDelivered(r, q[..n]);
      NoticeTells(r, q[n]);
      var notices, rest := Notices(r, q[..n]), Kept(r, q[..n]);
      assert (notices + [NoticeOf(r, q[n])])[..|notices|] == notices && (rest + [q[n]])[..|rest|] == rest;
      assert notices + [] == notices && rest + [] == rest;
    }
  }

  lemma NextInQueue(r: Report, q: seq<Request>, i: nat)
    requires i < |q|
    ensures Kept(r, q[..i + 1]) == Kept(r, q[..i]) + if Notified(r, q[i]) then [] else [q[i]]
    ensures Notices(r, q[..i + 1]) == Notices(r, q[..i]) + if Notified(r, q[i]) then [NoticeOf(r, q[i])] else []
  {
    assert q[..i + 1][..i] == q[..i];
  }

  lemma NothingNotified(q: seq<Request>)
    ensures Kept(Nothing, q) == q && Notices(Nothing, q) == []
  {
    if q != [] {
      NothingNotified(q[..|q| - 1]);
      assert q == q[..|q| - 1] + [q[|q| - 1]];
    }
  }

  class Backend {
    var counts: seq<Counts>
    var rd: set<int>
    var wr: set<int>
    var ex: set<int>
    var maxfd: int
    var ioq: seq<Request>

    function View(): State
      reads this
    {
      State(counts, rd, wr, ex, maxfd)
    }

    /** _st_select_init */
    constructor ()
      ensures Valid(View(), ioq) && ioq == []
    {
      counts := seq(FD_SETSIZE, _ => ZERO);
      rd, wr, ex, maxfd, ioq := {}, {}, {}, -1, [];
    }

    /** One round of the second loop of _st_select_pollset_add */
    method AddOne(pd: PollFd)
      requires 0 <= pd.fd < |counts| && AtLeast(counts[pd.fd], ZERO)
      requires (pd.fd in rd <==> counts[pd.fd].rd > 0) && (pd.fd in wr <==> counts[pd.fd].wr > 0)
      requires pd.fd in ex <==> counts[pd.fd].ex > 0
      modifies this`counts, this`rd, this`wr, this`ex, this`maxfd
      ensures Changed(old(View()), View(), pd.fd, Plus(old(counts)[pd.fd], Ones(pd.events)))
      ensures maxfd == if old(maxfd) < pd.fd then pd.fd else old(maxfd)
    {
      var fd := pd.fd;
      if pd.events.rd {
        rd := rd + {fd};
        counts := counts[fd := counts[fd].(rd := counts[fd].rd + 1)];
      }
      if pd.events.wr {
        wr := wr + {fd};
        counts := counts[fd := counts[fd].(wr := counts[fd].wr + 1)];
      }
      if pd.events.ex {
        ex := ex + {fd};
        counts := counts[fd := counts[fd].(ex := counts[fd].ex + 1)];
      }
      if maxfd < fd {
        maxfd := fd;
      }
    }

    /** One round of _st_select_pollset_del */
    method DelOne(pd: PollFd)
      requires 0 <= pd.fd < |counts| && AtLeast(counts[pd.fd], Ones(pd.events))
      requires (pd.fd in rd <==> counts[pd.fd].rd > 0) && (pd.fd in wr <==> counts[pd.fd].wr > 0)
      requires pd.fd in ex <==> counts[pd.fd].ex > 0
      modifies this`counts, this`rd, this`wr, this`ex
      ensures Changed(old(View()), View(), pd.fd, Minus(old(counts)[pd.fd], Ones(pd.events)))
    {
      var fd := pd.fd;
      if pd.events.rd {
        counts := counts[fd := counts[fd].(rd := counts[fd].rd - 1)];
        if counts[fd].rd == 0 {
          rd := rd - {fd};
        }
      }
      if pd.events.wr {
        counts := counts[fd := counts[fd].(wr := counts[fd].wr - 1)];
        if counts[fd].wr == 0 {
          wr := wr - {fd};
        }
      }
      if pd.events.ex {
        counts := counts[fd := counts[fd].(ex := counts[fd].ex - 1)];
        if counts[fd].ex == 0 {
          ex := ex - {fd};
        }
      }
    }

    /** _st_select_pollset_add: all entries are counted, or one of them is unusable and nothing changes. */
    method PollsetAdd(pds: seq<PollFd>, ghost ps: seq<PollFd>) returns (ok: bool)
      requires Indexes(View(), ps)
      modifies this`counts, this`rd, this`wr, this`ex, this`maxfd
      ensures ok <==> AllUsable(pds)
      ensures ok ==> Indexes(View(), ps + pds) && old(maxfd) <= maxfd && Below(pds, maxfd)
      ensures !ok ==> View() == old(View())
    {
      hide Tally, Indexes;
      var i := 0;
      while i < |pds|
        invariant 0 <= i <= |pds| && forall k :: 0 <= k < i ==> Usable(pds[k])
      {
        if !Usable(pds[i]) {
          return false;
        }
        i := i + 1;
      }
      i := 0;
      assert ps + pds[..0] == ps;
      while i < |pds|
        invariant 0 <= i <= |pds| && Indexes(View(), ps + pds[..i])
        invariant old(maxfd) <= maxfd && forall k :: 0 <= k < i ==> pds[k].fd <= maxfd
      {
        ghost var s := View();
        IndexedAt(s, ps + pds[..i], pds[i].fd);
        AddOne(pds[i]);
        AddIndexes(s, View(), ps, pds, i);
        i := i + 1;
      }
      assert pds[..i] == pds;
      ok := true;
    }

    /** _st_select_pollset_del */
    method PollsetDel(pds: seq<PollFd>, ghost ps: seq<PollFd>)
      requires Indexes(View(), ps + pds) && AllUsable(pds)
      modifies this`counts, this`rd, this`wr, this`ex
      ensures Indexes(View(), ps)
    {
      hide Tally, Indexes;
      var i := 0;
      assert pds[0..] == pds;
      while i < |pds|
        invariant 0 <= i <= |pds| && Indexes(View(), ps + pds[i..])
      {
        ghost var s := View();
        IndexedAt(s, ps + pds[i..], pds[i].fd);
        RemovedTally(ps, pds, i, pds[i].fd);
        TallyNotNegative(ps + pds[i + 1..], pds[i].fd);
        DelOne(pds[i]);
        DelIndexes(s, View(), ps, pds, i);
        i := i + 1;
      }
      assert ps + pds[i..] == ps;
    }

    /** The first part of st_poll */
    method Submit(req: Request) returns (ok: bool)
      requires Valid(View(), ioq)
      modifies this
      ensures Valid(View(), ioq) && (ok <==> AllUsable(req.pds))
      ensures ioq == if ok then old(ioq) + [req] else old(ioq)
      ensures !ok ==> View() == old(View())
    {
      hide Entries, Tally, Indexes;
      ok := PollsetAdd(req.pds, Entries(ioq));
      if ok {
        EntriesLast(ioq, req);
        ioq := ioq + [req];
      }
    }

    /** The last part of st_poll, when its request is still on the I/O queue */
    method Withdraw(i: nat)
      requires Valid(View(), ioq) && i < |ioq|
      modifies this
      ensures Valid(View(), ioq) && ioq == old(ioq)[..i] + old(ioq)[i + 1..] && maxfd == old(maxfd)
    {
      hide Entries, Tally, Indexes;
      var req := ioq[i];
      ghost var rest := ioq[..i] + ioq[i + 1..];
      TakeOut(View(), ioq, i);
      ioq := ioq[..i] + ioq[i + 1..];
      PollsetDel(req.pds, Entries(rest));
    }

    /** The loop over the entries of one request: their `revents`, whether there is any, and the highest descriptor */
    method Inspect(r: Report, req: Request) returns (notify: bool, revents: seq<Revents>, highest: int)
      requires AllUsable(req.pds)
      ensures notify == Notified(r, req) && revents == NoticeOf(r, req).revents
      ensures Below(req.pds, highest)
    {
      notify, revents, highest := false, [], -1;
      var i := 0;
      while i < |req.pds|
        invariant 0 <= i <= |req.pds| && |revents| == i
        invariant forall k :: 0 <= k < i ==> revents[k] == ReventsOf(r, req.pds[k])
        invariant notify <==> exists k :: 0 <= k < i && ReventsOf(r, req.pds[k]) != QUIET
        invariant forall k :: 0 <= k < i ==> req.pds[k].fd <= highest
      {
        var e := ReventsOf(r, req.pds[i]);
        revents := revents + [e];
        if e != QUIET {
          notify := true;
        }
        if req.pds[i].fd > highest {
          highest := req.pds[i].fd;
        }
        i := i + 1;
      }
    }

    /** One request of the I/O queue: it leaves, with a notice, or it stays. */
    method SweepOne(r: Report, q: seq<Request>, i: nat, kept: seq<Request>)
      returns (now: seq<Request>, notice: seq<Notice>)
      requires i < |q| && Indexes(View(), Entries(kept + q[i..])) && EachRequest(kept, maxfd) && AllUsable(q[i].pds)
      modifies this`counts, this`rd, this`wr, this`ex, this`maxfd
      ensures Indexes(View(), Entries(now + q[i + 1..])) && EachRequest(now, maxfd)
      ensures now == kept + if Notified(r, q[i]) then [] else [q[i]]
      ensures notice == if Notified(r, q[i]) then [NoticeOf(r, q[i])] else []
    {
      hide Entries, Tally, Indexes, Notified, AllUsable, Below, EachRequest;
      var notify, revents, highest := Inspect(r, q[i]);
      if notify {
        TakeOutNext(View(), kept, q, i);
        PollsetDel(q[i].pds, Entries(kept + q[i + 1..]));
        return kept, [Notice(q[i].thread, revents)];
      }
      ghost var s := View();
      StillBelow(kept, q[i], maxfd, highest);
      if maxfd < highest {
        maxfd := highest;
      }
      assert kept + [q[i]] + q[i + 1..] == kept + q[i..];
      now, notice := kept + [q[i]], [];
      MaxfdUnindexed(s, maxfd, Entries(now + q[i + 1..]));
    }

    /**
     The loop over the I/O queue in _st_select_dispatch and in _st_select_find_bad_fd: requests with something
     to report leave it, the others stay and their descriptors determine maxfd again.
     */
    method Sweep(r: Report) returns (notices: seq<Notice>)
      requires Valid(View(), ioq)
      modifies this
      ensures Valid(View(), ioq)
      ensures ioq == Kept(r, old(ioq)) && notices == Notices(r, old(ioq))
      ensures Delivered(old(ioq), r, notices, ioq)
    {
      var q := ioq;
      var kept: seq<Request> := [];
      notices := [];
      SweepStart(r, View(), q);
      AllDelivered(r, q);
      hide Delivered, Entries, Tally, Indexes, Notified, AllUsable, Below, Kept, Notices, NoticeOf, EachRequest;
      maxfd := -1;
      var i := 0;
      while i < |q|
        invariant 0 <= i <= |q| && kept == Kept(r, q[..i]) && notices == Notices(r, q[..i])
        invariant Indexes(View(), Entries(kept + q[i..])) && EachRequest(kept, maxfd)
        invariant forall j :: 0 <= j < |q| ==> AllUsable(q[j].pds)
      {
        NextInQueue(r, q, i);
        var notice;
        kept, notice := SweepOne(r, q, i, kept);
        notices := notices + notice;
        i := i + 1;
      }
      assert q[..i] == q && kept + q[i..] == kept;
      ioq := kept;
    }

    /** _st_select_dispatch, given the result of select */
    method Dispatch(r: Report) returns (notices: seq<Notice>)
      requires Valid(View(), ioq)
      modifies this
      ensures Valid(View(), ioq)
      ensures ioq == Kept(r, old(ioq)) && notices == Notices(r, old(ioq))
      ensures Delivered(old(ioq), r, notices, ioq)
    {
      if r.Nothing? {
        NothingNotified(ioq);
        NothingDelivered(View(), ioq);
        return [];
      }
      notices := Sweep(r);
    }
  }

  lemma NothingDelivered(s: State, q: seq<Request>)
    requires Valid(s, q)
    ensures Delivered(q, Nothing, Notices(Nothing, q), Kept(Nothing, q))
  {
    SweepStart(Nothing, s, q);
    AllDelivered(Nothing, q);
  }

  lemma SweepStart(r: Report, s: State, q: seq<Request>)
    requires Valid(s, q)
    ensures Kept(r, q[..0]) == [] && Notices(r, q[..0]) == [] && EachRequest([], -1)
    ensures Indexes(s.(maxfd := -1), Entries([] + q[0..])) && forall j :: 0 <= j < |q| ==> AllUsable(q[j].pds)
  {
    assert [] + q[0..] == q;
    MaxfdUnindexed(s, -1, Entries(q));
  }

  lemma TakeOutNext(s: State, kept: seq<Request>, q: seq<Request>, i: nat)
    requires i < |q| && Indexes(s, Entries(kept + q[i..]))
    ensures Indexes(s, Entries(kept + q[i + 1..]) + q[i].pds)
  {
    hide Indexes, Entries;
    var all := kept + q[i..];
    TakeOut(s, all, |kept|);
    assert all[..|kept|] + all[|kept| + 1..] == kept + q[i + 1..];
  }

  lemma MaxfdUnindexed(s: State, m: int, ps: seq<PollFd>)
    requires Indexes(s, ps)
    ensures Indexes(s.(maxfd := m), ps)
  {
    hide Tally;
    forall fd | 0 <= fd < FD_SETSIZE
      ensures FdOk(s.(maxfd := m), ps, fd)
    {
      assert FdOk(s, ps, fd);
    }
  }

  lemma StillBelow(kept: seq<Request>, req: Request, maxfd: int, highest: int)
    requires EachRequest(kept, maxfd) && AllUsable(req.pds) && Below(req.pds, highest)
    ensures EachRequest(kept + [req], if maxfd < highest then highest else maxfd)
  {
  }

  lemma IndexedAt(s: State, ps: seq<PollFd>, fd: int)
    requires Indexes(s, ps) && 0 <= fd < FD_SETSIZE
    ensures |s.counts| == FD_SETSIZE && FdOk(s, ps, fd) && AtLeast(s.counts[fd], ZERO)
  {
    TallyNotNegative(ps, fd);
  }

  lemma AddIndexes(s: State, t: State, ps: seq<PollFd>, pds: seq<PollFd>, i: nat)
    requires i < |pds| && Indexes(s, ps + pds[..i]) && 0 <= pds[i].fd < FD_SETSIZE
    requires Changed(s, t, pds[i].fd, Plus(s.counts[pds[i].fd], Ones(pds[i].events)))
    ensures Indexes(t, ps + pds[..i + 1])
  {
    hide Tally;
    IndexedAt(s, ps + pds[..i], pds[i].fd);
    forall fd
      ensures fd != pds[i].fd ==> Tally(ps + pds[..i + 1], fd) == Tally(ps + pds[..i], fd)
    {
      AddedTally(ps, pds, i, fd);
    }
    AddedTally(ps, pds, i, pds[i].fd);
    hide Indexes;
    ChangedIndexes(s, t, ps + pds[..i], ps + pds[..i + 1], pds[i].fd, Plus(s.counts[pds[i].fd], Ones(pds[i].events)));
  }

  lemma DelIndexes(s: State, t: State, ps: seq<PollFd>, pds: seq<PollFd>, i: nat)
    requires i < |pds| && Indexes(s, ps + pds[i..]) && 0 <= pds[i].fd < FD_SETSIZE
    requires Changed(s, t, pds[i].fd, Minus(s.counts[pds[i].fd], Ones(pds[i].events)))
    ensures Indexes(t, ps + pds[i + 1..])
  {
    hide Tally;
    IndexedAt(s, ps + pds[i..], pds[i].fd);
    forall fd
      ensures fd != pds[i].fd ==> Tally(ps + pds[i + 1..], fd) == Tally(ps + pds[i..], fd)
    {
      RemovedTally(ps, pds, i, fd);
    }
    RemovedTally(ps, pds, i, pds[i].fd);
    hide Indexes;
    ChangedIndexes(s, t, ps + pds[i..], ps + pds[i + 1..], pds[i].fd, Minus(s.counts[pds[i].fd], Ones(pds[i].events)));
  }

  lemma EntriesLast(q: seq<Request>, req: Request)
    ensures Entries(q + [req]) == Entries(q) + req.pds
  {
    EntriesSplit(q, [req]);
    EntriesHead(req, []);
    assert [req] + [] == [req] && req.pds + [] == req.pds;
  }

  /** A request's entries can be seen as the last ones. */
  lemma TakeOut(s: State, q: seq<Request>, i: nat)
    requires Indexes(s, Entries(q)) && i < |q|
    ensures Indexes(s, Entries(q[..i] + q[i + 1..]) + q[i].pds)
  {
    hide Tally, Entries;
    var rest := Entries(q[..i] + q[i + 1..]);
    forall fd
      ensures Tally(rest + q[i].pds, fd) == Tally(Entries(q), fd)
    {
      TallyMiddle(q, i, fd);
      TallySplit(rest, q[i].pds, fd);
    }
    SameTally(s, Entries(q), rest + q[i].pds);
  }

  // ----- what select is asked for

  /** Each of the sets has exactly the descriptors for which a queued request asks for its event. */
  lemma SetsExact(s: State, q: seq<Request>, fd: int)
    requires Valid(s, q) && 0 <= fd < FD_SETSIZE
    ensures fd in s.rd <==> Wanted(q, fd, Events(true, false, false))
    ensures fd in s.wr <==> Wanted(q, fd, Events(false, true, false))
    ensures fd in s.ex <==> Wanted(q, fd, Events(false, false, true))
  {
    assert FdOk(s, Entries(q), fd);
    hide Tally, Entries, Wanted, EachRequest;
    TallyNotNegative(Entries(q), fd);
    WantedExact(q, fd, Events(true, false, false));
    WantedExact(q, fd, Events(false, true, false));
    WantedExact(q, fd, Events(false, false, true));
  }
}
