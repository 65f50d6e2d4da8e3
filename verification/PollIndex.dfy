/**
 Poll requests and the per-descriptor counts that the event backends of State Threads keep
 as an index over the I/O queue (st-1.9/event.c).
 */
module PollIndex {

  /** POLLIN, POLLOUT, POLLPRI */
  datatype Events = Events(rd: bool, wr: bool, ex: bool)

  const NONE := Events(false, false, false)

  /** A descriptor to watch. `other` stands for event bits outside POLLIN, POLLOUT and POLLPRI. */
  datatype PollFd = PollFd(fd: int, events: Events, other: bool)

  /** One entry of the I/O queue: the thread inside st_poll and what it polls for. */
  datatype Request = Request(thread: nat, pds: seq<PollFd>)

  /** How many requests for reading, writing and exceptions there are. */
  datatype Counts = Counts(rd: int, wr: int, ex: int)

  const ZERO := Counts(0, 0, 0)

  function Plus(a: Counts, b: Counts): Counts {
    Counts(a.rd + b.rd, a.wr + b.wr, a.ex + b.ex)
  }

  function Minus(a: Counts, b: Counts): Counts {
    Counts(a.rd - b.rd, a.wr - b.wr, a.ex - b.ex)
  }

  /** The counts a single entry stands for. */
  function Ones(e: Events): Counts {
    Counts(if e.rd then 1 else 0, if e.wr then 1 else 0, if e.ex then 1 else 0)
  }

  /** The events with a count that is not zero. */
  function Mask(c: Counts): Events {
    Events(c.rd != 0, c.wr != 0, c.ex != 0)
  }

  predicate AtLeast(a: Counts, b: Counts) {
    a.rd >= b.rd && a.wr >= b.wr && a.ex >= b.ex
  }

  /** What pollset_add accepts, apart from limits on the descriptor. */
  predicate Acceptable(pd: PollFd) {
    pd.fd >= 0 && pd.events != NONE && !pd.other
  }

  ghost predicate AllAcceptable(pds: seq<PollFd>) {
    forall k :: 0 <= k < |pds| ==> Acceptable(pds[k])
  }

  /** How often each event of the descriptor is asked for. */
  ghost function Tally(pds: seq<PollFd>, fd: int): Counts {
    if pds == [] then ZERO
    else Plus(if pds[0].fd == fd then Ones(pds[0].events) else ZERO, Tally(pds[1..], fd))
  }

  /** All the entries of all the requests. */
  ghost function Entries(ioq: seq<Request>): seq<PollFd> {
    if ioq == [] then [] else ioq[0].pds + Entries(ioq[1..])
  }

  lemma {:induction false} TallySplit(a: seq<PollFd>, b: seq<PollFd>, fd: int)
    ensures Tally(a + b, fd) == Plus(Tally(a, fd), Tally(b, fd))
  {
    if a == [] {
      assert a + b == b;
    } else {
      assert (a + b)[1..] == a[1..] + b;
      TallySplit(a[1..], b, fd);
    }
  }

  lemma TallyEmpty()
    ensures forall fd :: Tally([], fd) == ZERO
  {
  }

  lemma {:induction false} TallyFirst(pds: seq<PollFd>, i: int, fd: int)
    requires 0 <= i < |pds|
    ensures Tally(pds[i..], fd) == Plus(if pds[i].fd == fd then Ones(pds[i].events) else ZERO, Tally(pds[i + 1..], fd))
  {
    assert pds[i..][1..] == pds[i + 1..];
  }

  lemma {:induction false} TallyOne(pd: PollFd, fd: int)
    ensures Tally([pd], fd) == if pd.fd == fd then Ones(pd.events) else ZERO
  {
    assert [pd][1..] == [];
  }

  lemma TallyLast(pds: seq<PollFd>, i: int, fd: int)
    requires 0 <= i < |pds|
    ensures Tally(pds[..i + 1], fd) == Plus(Tally(pds[..i], fd), if pds[i].fd == fd then Ones(pds[i].events) else ZERO)
  {
    hide Tally;
    assert pds[..i + 1] == pds[..i] + [pds[i]];
    TallySplit(pds[..i], [pds[i]], fd);
    TallyOne(pds[i], fd);
  }

  lemma {:induction false} TallyNotNegative(pds: seq<PollFd>, fd: int)
    ensures AtLeast(Tally(pds, fd), ZERO)
  {
    if pds != [] {
      TallyNotNegative(pds[1..], fd);
    }
  }

  /** An entry counts for its descriptor. */
  lemma {:induction false} TallyHas(pds: seq<PollFd>, k: int)
    requires 0 <= k < |pds|
    ensures AtLeast(Tally(pds, pds[k].fd), Ones(pds[k].events))
  {
    TallyNotNegative(pds[1..], pds[k].fd);
    if k > 0 {
      TallyHas(pds[1..], k - 1);
    }
  }

  /** What is asked for is asked for by somebody. */
  lemma {:induction false} TallyFrom(pds: seq<PollFd>, fd: int) returns (k: int)
    requires Mask(Tally(pds, fd)) != NONE
    ensures 0 <= k < |pds| && pds[k].fd == fd
  {
    if pds[0].fd == fd {
      k := 0;
    } else {
      k := TallyFrom(pds[1..], fd);
      k := k + 1;
    }
  }

  lemma {:induction false} EntriesSplit(a: seq<Request>, b: seq<Request>)
    ensures Entries(a + b) == Entries(a) + Entries(b)
  {
    if a == [] {
      assert a + b == b;
    } else {
      assert (a + b)[1..] == a[1..] + b;
      EntriesSplit(a[1..], b);
    }
  }

  lemma PlusShuffle(a: Counts, b: Counts, c: Counts)
    ensures Plus(a, Plus(b, c)) == Plus(b, Plus(a, c)) && Plus(a, Plus(b, c)) == Plus(Plus(a, b), c)
    ensures Plus(ZERO, a) == a && Plus(a, ZERO) == a
  {
  }

  lemma PlusSwap(a: Counts, b: Counts)
    ensures Plus(a, b) == Plus(b, a)
  {
  }

  lemma {:induction false} EntriesHead(q: Request, rest: seq<Request>)
    ensures Entries([q] + rest) == q.pds + Entries(rest)
  {
    assert ([q] + rest)[1..] == rest;
  }

  lemma {:induction false} TallyHead(q: Request, rest: seq<Request>, fd: int)
    ensures Tally(Entries([q] + rest), fd) == Plus(Tally(q.pds, fd), Tally(Entries(rest), fd))
  {
    EntriesHead(q, rest);
    hide Tally;
    TallySplit(q.pds, Entries(rest), fd);
  }

  lemma TallyOfTwo(a: seq<Request>, b: seq<Request>, fd: int)
    ensures Tally(Entries(a + b), fd) == Plus(Tally(Entries(a), fd), Tally(Entries(b), fd))
  {
    hide Tally, Entries;
    EntriesSplit(a, b);
    TallySplit(Entries(a), Entries(b), fd);
  }

  lemma {:induction false} TallyMiddle(q: seq<Request>, i: nat, fd: int)
    requires i < |q|
    ensures Tally(Entries(q), fd) == Plus(Tally(Entries(q[..i] + q[i + 1..]), fd), Tally(q[i].pds, fd))
  {
    hide Tally, Entries, Plus;
    var a, b := q[..i], q[i + 1..];
    assert q == a + ([q[i]] + b);
    TallyOfTwo(a, [q[i]] + b, fd);
    TallyHead(q[i], b, fd);
    TallyOfTwo(a, b, fd);
    PlusShuffle(Tally(Entries(a), fd), Tally(q[i].pds, fd), Tally(Entries(b), fd));
    PlusSwap(Tally(Entries(a + b), fd), Tally(q[i].pds, fd));
  }

  // ----- what is asked for

  predicate Overlap(a: Events, b: Events) {
    (a.rd && b.rd) || (a.wr && b.wr) || (a.ex && b.ex)
  }

  /** Some queued request asks for one of these events of the descriptor. */
  ghost predicate Wanted(q: seq<Request>, fd: int, want: Events) {
    exists i, j :: 0 <= i < |q| && 0 <= j < |q[i].pds| && q[i].pds[j].fd == fd && Overlap(q[i].pds[j].events, want)
  }

  lemma {:induction false} TallyWanted(pds: seq<PollFd>, fd: int, want: Events) returns (k: int)
    requires Overlap(Mask(Tally(pds, fd)), want)
    ensures 0 <= k < |pds| && pds[k].fd == fd && Overlap(pds[k].events, want)
  {
    if pds[0].fd == fd && Overlap(pds[0].events, want) {
      k := 0;
    } else {
      k := TallyWanted(pds[1..], fd, want);
      k := k + 1;
    }
  }

  lemma {:induction false} EntryOf(ioq: seq<Request>, k: int) returns (i: int, j: int)
    requires 0 <= k < |Entries(ioq)|
    ensures 0 <= i < |ioq| && 0 <= j < |ioq[i].pds| && ioq[i].pds[j] == Entries(ioq)[k]
  {
    if k < |ioq[0].pds| {
      i, j := 0, k;
    } else {
      i, j := EntryOf(ioq[1..], k - |ioq[0].pds|);
      i := i + 1;
    }
  }

  /** The events with a count are exactly those that some queued request asks for. */
  lemma WantedExact(q: seq<Request>, fd: int, want: Events)
    ensures Overlap(Mask(Tally(Entries(q), fd)), want) <==> Wanted(q, fd, want)
  {
    hide Tally, Entries;
    if Overlap(Mask(Tally(Entries(q), fd)), want) {
      var k := TallyWanted(Entries(q), fd, want);
      var i, j := EntryOf(q, k);
    }
    if Wanted(q, fd, want) {
      var i, j :| 0 <= i < |q| && 0 <= j < |q[i].pds| && q[i].pds[j].fd == fd && Overlap(q[i].pds[j].events, want);
      TallyMiddle(q, i, fd);
      TallyHas(q[i].pds, j);
      TallyNotNegative(Entries(q[..i] + q[i + 1..]), fd);
    }
  }
}
