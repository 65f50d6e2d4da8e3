/**
 The query engine of c-ares: sending, retrying on other servers, timeouts, server errors and
 answers (c-ares/ares_send.c, ares_process.c). Opening and writing to sockets may fail at any time.
 */
module AresEngine {
  import opened Options
  import opened AresState
  import opened AresInvariant
  import opened AresProgress

  const HFIXEDSZ := 12
  const PACKETSZ := 512
  const FORMERR := 1
  const SERVFAIL := 2
  const NOTIMP := 4
  const REFUSED := 5

  datatype Answer = Answer(length: int, id: nat, truncated: bool, rcode: nat)

  /** A request that was handed to the system, or queued on a connection */
  datatype Handover = Handover(key: Key, server: nat, tcp: bool)

  /** History: how many calls to open or to write to a socket have failed, and the requests handed over */
  datatype Io = Io(failures: nat, handed: seq<Handover>)

  /** Exactly one request is handed over if the query is still active: to the server that it then waits for. */
  ghost predicate HandedOver(a: Io, b: Io, k: Key, t: State) {
    b.handed == a.handed + if k in t.queries then [Handover(k, t.queries[k].server, t.queries[k].usingTcp)] else []
  }

  /** What the system does with queued requests: takes the first ones, none for now, or reports an error. */
  datatype Taken = Taken(requests: nat) | NotNow | Lost

  /** History only grows. */
  ghost predicate Later(a: Io, b: Io) {
    a.failures <= b.failures && a.handed <= b.handed
  }

  lemma HandedLater(a: Io, b: Io, k: Key, t: State)
    requires HandedOver(a, b, k, t) && a.failures <= b.failures
    ensures Later(a, b)
  {
  }

  /** From this handover on, every query that was sent again since s0 was handed to the server it now waits for. */
  ghost predicate Covered(s0: State, t: State, from: nat, io: Io) {
    from <= |io.handed| && forall k :: k in s0.queries && k in t.queries && t.queries[k].sends != s0.queries[k].sends ==>
      Handover(k, t.queries[k].server, t.queries[k].usingTcp) in io.handed[from..]
  }

  lemma CoveredStart(s: State, io: Io)
    ensures Covered(s, s, |io.handed|, io)
  {
  }

  lemma CoveredStep(s0: State, s: State, t: State, k: Key, from: nat, a: Io, b: Io)
    requires Covered(s0, s, from, a) && HandedOver(a, b, k, t) && t.queries - {k} == s.queries - {k}
    ensures Covered(s0, t, from, b)
  {
    assert a.handed[from..] <= b.handed[from..];
    forall x | x in s0.queries && x in t.queries && t.queries[x].sends != s0.queries[x].sends
      ensures Handover(x, t.queries[x].server, t.queries[x].usingTcp) in b.handed[from..]
    {
      if x == k {
        assert b.handed[from..][|a.handed| - from] == Handover(k, t.queries[k].server, t.queries[k].usingTcp);
      } else {
        assert x in t.queries - {k} && x in s.queries && t.queries[x] == s.queries[x];
        var i :| 0 <= i < |a.handed[from..]| && a.handed[from..][i] == Handover(x, s.queries[x].server, s.queries[x].usingTcp);
        assert b.handed[from..][i] == a.handed[from..][i];
      }
    }
  }

  /** Two calls, the second of which sends every query again that it changes */
  lemma CoveredThen(s0: State, s: State, t: State, from: nat, a: Io, b: Io)
    requires Covered(s0, s, from, a) && Covered(s, t, |a.handed|, b) && Later(a, b)
    requires t.queries.Keys <= s.queries.Keys
    requires forall k :: k in s.queries ==> Untouched(s, t, k) || (k in t.queries ==> t.queries[k].sends != s.queries[k].sends)
    ensures Covered(s0, t, from, b)
  {
    forall k | k in s0.queries && k in t.queries && t.queries[k].sends != s0.queries[k].sends
      ensures Handover(k, t.queries[k].server, t.queries[k].usingTcp) in b.handed[from..]
    {
      var h := Handover(k, t.queries[k].server, t.queries[k].usingTcp);
      if Untouched(s, t, k) {
        var i :| 0 <= i < |a.handed[from..]| && a.handed[from..][i] == h;
        assert b.handed[from..][i] == a.handed[from + i];
      } else {
        var i :| 0 <= i < |b.handed[|a.handed|..]| && b.handed[|a.handed|..][i] == h;
        assert b.handed[from..][|a.handed| - from + i] == h;
      }
    }
  }

  lemma EvictedCovered(c: Config, s0: State, s: State, t: State, w: nat, now: Time, from: nat, a: Io, b: Io)
    requires Covered(s0, s, from, a) && Covered(s, t, |a.handed|, b) && Later(a, b) && Evicted(c, s, t, w, now)
    ensures Covered(s0, t, from, b)
  {
    hide Covered;
    CoveredThen(s0, s, t, from, a, b);
  }

  /** A query left active is as it was, or was sent again; those on a broken server, of the first n, were sent again. */
  ghost predicate Recovered(s: State, t: State, n: nat) {
    forall k :: k in s.queries && k in t.queries ==>
      (Untouched(s, t, k) && !OnBroken(s, s.queries[k], n)) || t.queries[k].sends > s.queries[k].sends
  }

  /** The query is on a broken server, one of the first n. */
  predicate OnBroken(s: State, q: Query, n: nat) {
    q.server < n && q.server < |s.servers| && s.servers[q.server].broken
  }

  /** While queries are left, the broken servers from n on are still broken. */
  ghost predicate StillBroken(s: State, t: State, n: nat) {
    |t.servers| == |s.servers| &&
    (t.queries == map[] || forall i :: n <= i < |s.servers| && s.servers[i].broken ==> t.servers[i].broken)
  }

  lemma RecoveredStart(s: State)
    ensures Recovered(s, s, 0) && StillBroken(s, s, 0)
  {
  }

  lemma RecoveredPass(s0: State, s: State, i: nat)
    requires Recovered(s0, s, i) && StillBroken(s0, s, i) && i < |s.servers| && !s.servers[i].broken
    ensures Recovered(s0, s, i + 1) && StillBroken(s0, s, i + 1)
  {
  }

  lemma RecoveredStep(c: Config, s0: State, s: State, t: State, i: nat, now: Time)
    requires Recovered(s0, s, i) && StillBroken(s0, s, i) && Evicted(c, s, t, i, now) && BreaksNoneBut(s, t, i)
    ensures Recovered(s0, t, i + 1) && StillBroken(s0, t, i + 1)
  {
    forall k | k in s0.queries && k in t.queries
      ensures (Untouched(s0, t, k) && !OnBroken(s0, s0.queries[k], i + 1)) || t.queries[k].sends > s0.queries[k].sends
    {
      assert k in s.queries;
    }
    assert s.queries == map[] ==> t.queries == map[];
  }

  lemma CoveredSame(s0: State, s: State, t: State, from: nat, io: Io)
    requires Covered(s0, s, from, io) && t.queries == s.queries
    ensures Covered(s0, t, from, io)
  {
  }

  lemma AsideQueries(s: State, t: State, k: Key, now: Time)
    requires k in s.queries && Moved(s, t, k, now)
    ensures t.queries - {k} == s.queries - {k}
  {
  }

  // ----- changes of fields

  function Skipped(c: Config, q: Query, i: nat): Query
    requires i < |q.skip|
  {
    if c.nservers > 1 then q.(skip := q.skip[i := true]) else q
  }

  function OpenTcp(s: State, i: nat): State
    requires i < |s.servers|
  {
    s.(servers := s.servers[i := s.servers[i].(tcpOpen := true, generation := s.generation + 1)],
       generation := s.generation + 1)
  }

  function OpenUdp(s: State, i: nat): State
    requires i < |s.servers|
  {
    s.(servers := s.servers[i := s.servers[i].(udpOpen := true)])
  }

  /** The query's bytes are queued on the server's connection. */
  function Enqueue(s: State, i: nat, k: Key): State
    requires i < |s.servers|
  {
    s.(servers := s.servers[i := s.servers[i].(sendq := s.servers[i].sendq + [Some(k)])])
  }

  /** advance_tcp_send_queue has dropped the first requests of a server's queue. */
  function Flush(s: State, i: nat, dropped: nat): State
    requires i < |s.servers| && dropped <= |s.servers[i].sendq|
  {
    s.(servers := s.servers[i := s.servers[i].(sendq := s.servers[i].sendq[dropped..])])
  }

  // ----- one query on the move

  ghost predicate SkipsMore(q: seq<bool>, r: seq<bool>) {
    |q| == |r| && forall i :: 0 <= i < |q| && q[i] ==> r[i]
  }

  /** The steps before a query is linked again: its try fields and the servers' sockets. */
  ghost predicate Touched(s: State, t: State, k: Key) {
    && k in s.queries && k in t.queries
    && t == s.(queries := s.queries[k := t.queries[k]], servers := t.servers, generation := t.generation)
    && SameJob(s.queries[k], t.queries[k]) && t.generation >= s.generation
  }

  /** Only the server, the counts and the per-server notes of a query have changed. */
  ghost predicate SameJob(q: Query, r: Query) {
    && r.qid == q.qid && r.timeouts == q.timeouts && r.status == q.status && r.usingTcp == q.usingTcp
    && r.upgraded == q.upgraded && r.fellBack == q.fellBack && r.tryCount >= q.tryCount && r.sends >= q.sends
    && SkipsMore(q.skip, r.skip)
  }

  lemma TouchedThenTouched(s: State, t: State, u: State, k: Key)
    requires Touched(s, t, k) && Touched(t, u, k)
    ensures Touched(s, u, k)
  {
    assert s.queries[k := t.queries[k]][k := u.queries[k]] == s.queries[k := u.queries[k]];
  }

  lemma TouchedThenAside(s: State, t: State, u: State, k: Key)
    requires Touched(s, t, k) && Aside(t, u, k)
    ensures Aside(s, u, k)
  {
    assert t.queries - {k} == s.queries - {k};
    assert TimeMoved(s, u, k) by {
      assert forall b :: 0 <= b < |s.byTimeout| ==> Rebucketed(t.byTimeout[b], u.byTimeout[b], k);
    }
  }

  lemma TouchedThenMoved(s: State, t: State, u: State, k: Key, now: Time)
    requires Touched(s, t, k) && Moved(t, u, k, now)
    ensures Moved(s, u, k, now)
  {
    hide Aside;
    TouchedThenAside(s, t, u, k);
  }

  lemma TouchedThenEnded(s: State, t: State, u: State, k: Key, now: Time)
    requires Touched(s, t, k) && Aside(t, u, k) && k !in u.queries
    requires u.log == t.log + [CallOf(k, t.queries[k], t.queries[k].status)]
    ensures Moved(s, u, k, now)
  {
    hide Aside;
    TouchedThenAside(s, t, u, k);
  }

  /** The query is now on a server that it was not told to skip. */
  ghost predicate Spared(q: Query, r: Query) {
    r.server < |q.skip| && !q.skip[r.server]
  }

  lemma TouchedKeeps(c: Config, s: State, t: State, w: nat, k: Key)
    requires InvBut(c, s, w, {k}) && Touched(s, t, k) && SameLists(s.servers, t.servers) && Connections(t)
    ensures InvBut(c, t, w, {k})
  {
    hide InvBut;
    var s1 := s.(servers := t.servers, generation := t.generation);
    Parts(c, s, w, {k});
    ConnectionsPart(c, s, w, {k});
    TouchedConnections(s, t, k);
    hide Connections, Sound;
    ServersKeep(c, s, w, {k}, t.servers, t.generation);
    SetKeeps(c, s1, w, k, t.queries[k]);
  }

  lemma TouchedConnections(s: State, t: State, k: Key)
    requires Connections(s) && Connections(t) && Touched(s, t, k) && |t.servers| == |s.servers|
    ensures Connections(s.(servers := t.servers, generation := t.generation)) && NoLater(t.queries[k].gen, t.generation)
  {
    var s1 := s.(servers := t.servers, generation := t.generation);
    forall x | x in s.queries
      ensures NoLater(s.queries[x].gen, t.generation)
    {
      assert NoLater(s.queries[x].gen, s.generation);
    }
    forall i, j | 0 <= i < |t.servers| && 0 <= j < |t.servers[i].sendq|
      ensures OwnerActive(s1, i, j)
    {
      assert OwnerActive(t, i, j);
    }
  }

  lemma Parts(c: Config, s: State, w: nat, flux: set<Key>)
    requires InvBut(c, s, w, flux)
    ensures Shape(c, s) && Sound(c, s, flux)
  {
  }

  /** The query is between being taken up and being linked again. */
  ghost predicate Loose(c: Config, s: State, w: nat, k: Key, now: Time) {
    && InvBut(c, s, w, {k}) && k in s.queries
    && Sane(c) && ClockOk(s, now)
  }

  /** Room for one more call of ares__send_query */
  ghost predicate MayBeSent(c: Config, q: Query) {
    Budget(c, q.(sends := q.sends + 1))
  }

  lemma TouchedLoose(c: Config, s: State, t: State, w: nat, k: Key, now: Time)
    requires Loose(c, s, w, k, now) && Touched(s, t, k) && SameLists(s.servers, t.servers) && Connections(t)
    ensures Loose(c, t, w, k, now)
  {
    hide InvBut;
    TouchedKeeps(c, s, t, w, k);
  }

  lemma WriteConnections(s: State, t: State, i: nat, k: Key)
    requires Connections(s) && k in s.queries && s.queries.Keys <= t.queries.Keys && i < |s.servers| == |t.servers|
    requires forall j :: 0 <= j < |s.servers| && j != i ==> t.servers[j] == s.servers[j]
    requires t.servers[i].sendq == s.servers[i].sendq || t.servers[i].sendq == s.servers[i].sendq + [Some(k)]
    requires s.generation <= t.generation
    requires t.servers[i].generation == s.servers[i].generation || 0 < t.servers[i].generation <= t.generation
    requires k in t.queries && t.queries == s.queries[k := t.queries[k]]
    requires t.queries[k].gen == s.queries[k].gen || (i < |s.queries[k].gen| && t.servers[i].generation <= t.generation
      && t.queries[k].gen == s.queries[k].gen[i := t.servers[i].generation])
    ensures Connections(t)
  {
    forall x | x in t.queries
      ensures NoLater(t.queries[x].gen, t.generation)
    {
      assert NoLater(s.queries[x].gen, s.generation);
    }
    forall x, j | 0 <= x < |t.servers| && 0 <= j < |t.servers[x].sendq|
      ensures OwnerActive(t, x, j)
    {
      assert j < |s.servers[x].sendq| ==> OwnerActive(s, x, j);
    }
  }

  /** At most the sockets and the queue of server i have changed, and what the query notes about server i. */
  ghost predicate Written(s: State, t: State, k: Key, i: nat, ok: bool)
    requires k in s.queries && k in t.queries && i < |s.servers|
  {
    && |t.servers| == |s.servers| && t.servers[i].broken == s.servers[i].broken
    && (forall j :: 0 <= j < |s.servers| && j != i ==> t.servers[j] == s.servers[j])
    && |t.queries[k].gen| == |s.queries[k].gen| && t.queries[k] == s.queries[k].(gen := t.queries[k].gen)
    && (forall j :: 0 <= j < |s.queries[k].gen| && (j != i || !ok) ==> t.queries[k].gen[j] == s.queries[k].gen[j])
  }

  /** The request is queued on the server's connection, which is noted for the query. */
  function QueueOn(s: State, i: nat, k: Key): State
    requires i < |s.servers| && k in s.queries && |s.queries[k].gen| == |s.servers|
  {
    var t := Enqueue(s, i, k);
    SetQuery(t, k, t.queries[k].(gen := t.queries[k].gen[i := t.servers[i].generation]))
  }

  lemma NotWritten(s: State, k: Key, i: nat)
    requires k in s.queries && i < |s.servers|
    ensures Touched(s, s, k) && Written(s, s, k, i, false)
  {
    AlwaysSkipsMore(s.queries[k].skip);
    assert s.queries == s.queries[k := s.queries[k]];
  }

  lemma TcpWritten(c: Config, s: State, w: nat, k: Key, i: nat, now: Time)
    requires Loose(c, s, w, k, now) && i < |s.servers| && |s.queries[k].gen| == |s.servers|
    ensures var t := QueueOn(if s.servers[i].tcpOpen then s else OpenTcp(s, i), i, k);
      && Loose(c, t, w, k, now) && Touched(s, t, k) && Written(s, t, k, i, true)
      && t.servers[i].tcpOpen && t.servers[i].sendq == s.servers[i].sendq + [Some(k)] && t.queries[k].gen[i] == t.servers[i].generation
      && (if s.servers[i].tcpOpen then t.queries[k].gen[i] == s.servers[i].generation
          else t.queries[k].gen[i] > s.generation)
  {
    hide InvBut, SkipsMore, ClockOk, Sane, Connections;
    var t := QueueOn(if s.servers[i].tcpOpen then s else OpenTcp(s, i), i, k);
    AlwaysSkipsMore(s.queries[k].skip);
    ConnectionsPart(c, s, w, {k});
    GenerationAt(s, i);
    WriteConnections(s, t, i, k);
    TouchedLoose(c, s, t, w, k, now);
  }

  lemma GenerationAt(s: State, i: nat)
    requires Connections(s) && i < |s.servers|
    ensures 0 < s.servers[i].generation <= s.generation
  {
  }

  /** The query has been sent, at least once, and waits as long as its number of tries says. */
  ghost predicate Sent(c: Config, q: Query, r: Query, now: Time) {
    && r.sends > q.sends && c.nservers > 0
    && var ms := Backoff(c.timeout, r.tryCount / c.nservers);
       ms > 0 && r.timeout == TimeAdd(now, ms)
  }

  /** Servers that the query was told to skip and that are shut stay so, apart perhaps from one. */
  ghost predicate StaysShut(q: Query, s: State, t: State, apart: int) {
    |t.servers| == |s.servers| &&
    forall i :: 0 <= i < |s.servers| && i < |q.skip| && q.skip[i] && i != apart && Shut(s.servers[i]) ==> Shut(t.servers[i])
  }

  lemma StaysShutThen(q: Query, m: Query, s: State, t: State, u: State, apart: int)
    requires SkipsMore(q.skip, m.skip) && StaysShut(q, s, t, apart) && StaysShut(m, t, u, -1)
    ensures StaysShut(q, s, u, apart)
  {
  }

  /** The server the query is on is not about to be closed, and its TCP connection is one it was not sent over before. */
  ghost predicate Landed(q: Query, r: Query, t: State) {
    && r.server < |t.servers| && !t.servers[r.server].broken
    && (r.usingTcp ==> r.server < |q.gen| && r.server < |r.gen| && r.gen[r.server] != q.gen[r.server])
  }

  /** What next_server achieves for a query that is still active */
  ghost predicate Placed(c: Config, q: Query, r: Query, t: State, now: Time) {
    Spared(q, r) && Sent(c, q, r, now) && Landed(q, r, t)
  }

  /** The query was sent to the server it was on. */
  ghost predicate Direct(c: Config, s: State, q: Query, r: Query, t: State, now: Time) {
    && Sent(c, q, r, now) && r.server == q.server < |s.servers| == |t.servers|
    && t.servers[r.server].broken == s.servers[r.server].broken
    && (r.usingTcp ==>
          r.server < |r.gen| && (r.gen[r.server] == s.servers[r.server].generation || r.gen[r.server] > s.generation))
  }

  ghost predicate SameConnections(v: Server, w: Server) {
    w == v.(queries := w.queries)
  }

  /** The query has its new timeout, and nothing else about it or the servers' connections has changed. */
  ghost predicate Armed(c: Config, s: State, t: State, k: Key, now: Time)
    requires k in s.queries && k in t.queries
  {
    && c.nservers > 0 && |t.servers| == |s.servers|
    && (forall i :: 0 <= i < |s.servers| ==> SameConnections(s.servers[i], t.servers[i]))
    && var ms := Backoff(c.timeout, s.queries[k].tryCount / c.nservers);
       ms > 0 && t.queries[k] == s.queries[k].(timeout := TimeAdd(now, ms))
  }

  lemma BusyQuiet(c: Config, s: State, w: nat, k: Key)
    requires InvBut(c, s, w, {}) && k in s.queries
    ensures Quiet(c, s)
  {
  }

  lemma ArmArms(c: Config, s: State, k: Key, now: Time)
    requires k in s.queries && c.nservers > 0 && |s.byTimeout| == TIMEOUT_TABLE_SIZE && s.queries[k].server < |s.servers|
    requires Backoff(c.timeout, s.queries[k].tryCount / c.nservers) > 0
    ensures var t := Arm(s, k, now, Backoff(c.timeout, s.queries[k].tryCount / c.nservers));
      k in t.queries && Armed(c, s, t, k, now)
  {
    hide Backoff;
  }

  /** s0, then one more send counted, then the request handed over, then the new timeout */
  lemma DirectFrom(c: Config, s0: State, s1: State, s2: State, t: State, k: Key, now: Time)
    requires k in s0.queries && s0.queries[k].server < |s0.servers|
    requires s1 == SetQuery(s0, k, s0.queries[k].(sends := s0.queries[k].sends + 1))
    requires k in s2.queries && Written(s1, s2, k, s0.queries[k].server, true)
    requires s0.queries[k].server < |s2.queries[k].gen|
    requires var i := s0.queries[k].server; s0.queries[k].usingTcp ==>
      s2.queries[k].gen[i] == s0.servers[i].generation || s2.queries[k].gen[i] > s0.generation
    requires k in t.queries && Armed(c, s2, t, k, now)
    ensures Direct(c, s0, s0.queries[k], t.queries[k], t, now)
  {
  }

  lemma PlacedBefore(c: Config, q: Query, m: Query, r: Query, t: State, now: Time)
    requires SameJob(q, m) && m.gen == q.gen && Placed(c, m, r, t, now)
    ensures Placed(c, q, r, t, now)
  {
  }

  /** Sent to a server that next_server chose */
  lemma DirectPlaced(c: Config, s: State, q: Query, m: Query, r: Query, t: State, now: Time)
    requires Direct(c, s, m, r, t, now) && SameJob(q, m) && m.gen == q.gen && NoLater(m.gen, s.generation)
    requires r.usingTcp == m.usingTcp && m.server < |m.skip| && |m.gen| == |s.servers|
    requires !s.servers[m.server].broken && !m.skip[m.server]
    requires !(m.usingTcp && m.gen[m.server] == s.servers[m.server].generation)
    ensures Placed(c, q, r, t, now)
  {
  }

  /** q was within its budget; in r one more try is counted but not yet used. */
  ghost predicate Counted(c: Config, q: Query, r: Query) {
    q.tryCount < r.tryCount <= AtLeastOne(Attempts(c)) && Budget(c, r.(tryCount := r.tryCount - 1))
  }

  lemma Adjusted(c: Config, s: State, t: State, w: nat, k: Key, now: Time)
    requires Loose(c, s, w, k, now) && k in t.queries && t == SetQuery(s, k, t.queries[k])
    requires SameJob(s.queries[k], t.queries[k]) && t.queries[k].gen == s.queries[k].gen
    ensures Loose(c, t, w, k, now) && Touched(s, t, k)
  {
    hide InvBut, SkipsMore;
    ConnectionsPart(c, s, w, {k});
    ConnectionsFrame(s, t);
    TouchedLoose(c, s, t, w, k, now);
  }

  /** The search has passed the attempts before the one counted now; the query is still on the server of the last one. */
  ghost predicate Seeking(s: State, q: Query, m: Query) {
    |s.servers| > 0 && m.tryCount > q.tryCount && m.server == ServerOf(|s.servers|, q, m.tryCount - 1) && NoneOpen(s, q, m.tryCount)
  }

  /** next_server has not found a server yet: only the query's server and its count of tries have changed. */
  ghost predicate Searching(c: Config, s0: State, s: State, w: nat, k: Key, now: Time)
    requires k in s.queries
  {
    && Loose(c, s, w, k, now) && Touched(s0, s, k) && s.servers == s0.servers
    && s.queries[k] == s0.queries[k].(tryCount := s.queries[k].tryCount, server := s.queries[k].server)
    && |s.queries[k].skip| == |s.queries[k].gen| == c.nservers == |s0.servers|
    && Counted(c, s0.queries[k], s.queries[k]) && Seeking(s0, s0.queries[k], s.queries[k])
  }

  lemma SearchStarts(c: Config, s0: State, s: State, w: nat, k: Key, now: Time)
    requires Loose(c, s, w, k, now) && Touched(s0, s, k) && s.servers == s0.servers
    requires s.queries[k] == s0.queries[k].(tryCount := s0.queries[k].tryCount + 1) && Budget(c, s0.queries[k])
    ensures Searching(c, s0, s, w, k, now)
  {
    Parts(c, s, w, {k});
    SeekingStart(s0, s0.queries[k], s.queries[k]);
  }

  lemma SearchParts(c: Config, s0: State, s: State, w: nat, k: Key, now: Time)
    requires k in s.queries && Searching(c, s0, s, w, k, now)
    ensures Loose(c, s, w, k, now) && Touched(s0, s, k) && s.servers == s0.servers && |s.servers| == c.nservers > 0
    ensures s.queries[k] == s0.queries[k].(tryCount := s.queries[k].tryCount, server := s.queries[k].server)
    ensures |s.queries[k].skip| == |s.queries[k].gen| == c.nservers
    ensures Counted(c, s0.queries[k], s.queries[k]) && Seeking(s0, s0.queries[k], s.queries[k])
    ensures s.queries[k].sends <= AtLeastOne(Attempts(c)) + 2 && NoneOpen(s0, s0.queries[k], s.queries[k].tryCount)
  {
    hide Open;
  }

  /** The new query's first attempt was made, on the server that was chosen last before; it has no server to skip. */
  ghost predicate FirstSent(s: State, k: Key, t: State) {
    && k in t.queries && t.queries[k].server == s.lastServer && t.queries[k].tryCount == 0
    && forall i :: 0 <= i < |t.queries[k].skip| ==> !t.queries[k].skip[i]
  }

  lemma TimedOutAside(s: State, t: State, k: Key, now: Time)
    requires k in s.queries && Moved(SetQuery(s, k, TimeoutOf(s.queries[k])), t, k, now)
    ensures t.queries - {k} == s.queries - {k}
  {
    assert SetQuery(s, k, TimeoutOf(s.queries[k])).queries - {k} == s.queries - {k};
  }

  lemma SeekingStart(s: State, q: Query, m: Query)
    requires |s.servers| > 0 && q.server < |s.servers| && m.tryCount == q.tryCount + 1 && m.server == q.server
    ensures Seeking(s, q, m)
  {
  }

  /** The next server is the one of the attempt; if it cannot be used, the search has passed the attempt. */
  lemma SeekingOn(s: State, q: Query, m: Query, n: Query)
    requires Seeking(s, q, m) && n.server == (m.server + 1) % |s.servers| && n.tryCount == m.tryCount
    ensures n.server == ServerOf(|s.servers|, q, m.tryCount)
    ensures !Open(s, q, m.tryCount) ==> NoneOpen(s, q, m.tryCount + 1)
  {
    hide Open;
    NextServerOf(|s.servers|, q, m.tryCount - 1);
  }

  lemma SeekingFound(c: Config, s: State, q: Query, m: Query, k: Key, t: State)
    requires |s.servers| > 0 && NoneOpen(s, q, m.tryCount) && q.tryCount < m.tryCount < c.nservers * c.tries
    requires Open(s, q, m.tryCount) && m.server == ServerOf(|s.servers|, q, m.tryCount) && StaysOn(m, k, t)
    ensures TakesFirstOpen(c, s, q, k, t)
  {
    hide Open;
  }

  lemma SeekingEnded(c: Config, s: State, q: Query, m: Query, k: Key, t: State)
    requires NoneOpen(s, q, m.tryCount) && m.tryCount >= c.nservers * c.tries && k !in t.queries
    ensures TakesFirstOpen(c, s, q, k, t)
  {
    hide Open;
  }

  lemma ChosenStaysShut(s0: State, s2: State, s: State, k: Key)
    requires Touched(s0, s2, k) && s2.servers == s0.servers
    requires var q := s2.queries[k]; q.server < |q.skip| && !q.skip[q.server] && StaysShut(q, s2, s, q.server)
    ensures StaysShut(s0.queries[k], s0, s, -1)
  {
  }

  lemma AllStayShut(q: Query, s: State, t: State)
    requires |t.servers| == |s.servers| && forall i :: 0 <= i < |s.servers| && Shut(s.servers[i]) ==> Shut(t.servers[i])
    ensures StaysShut(q, s, t, -1)
  {
  }

  lemma WrittenStaysShut(s0: State, s1: State, s2: State, k: Key, ok: bool)
    requires k in s0.queries && k in s1.queries && s1.servers == s0.servers && s0.queries[k].server < |s0.servers|
    requires k in s2.queries && Written(s1, s2, k, s0.queries[k].server, ok)
    ensures StaysShut(s0.queries[k], s0, s2, s0.queries[k].server)
  {
  }

  /** No server is newly broken, unless a query has ended; while queries are left, no other server's connection is mended. */
  ghost predicate BreaksNoneBut(s: State, t: State, w: int) {
    && |t.servers| == |s.servers| && t.queries.Keys <= s.queries.Keys
    && (t.queries.Keys == s.queries.Keys ==> forall i :: 0 <= i < |s.servers| && t.servers[i].broken ==> s.servers[i].broken)
    && (t.queries == map[] || forall i :: 0 <= i < |s.servers| && i != w && s.servers[i].broken ==> t.servers[i].broken)
  }

  ghost predicate BreaksNone(s: State, t: State) {
    BreaksNoneBut(s, t, -1)
  }

  lemma BreaksNoneThen(s: State, t: State, u: State)
    requires BreaksNone(s, t) && BreaksNone(t, u)
    ensures BreaksNone(s, u)
  {
    assert t.queries.Keys == {} ==> u.queries.Keys == {};
  }

  lemma TouchedBreaksNone(s: State, t: State, k: Key)
    requires Touched(s, t, k) && t.servers == s.servers
    ensures BreaksNone(s, t)
  {
  }

  lemma WrittenBreaksNone(s: State, t: State, k: Key, i: nat, ok: bool)
    requires Touched(s, t, k) && i < |s.servers| && Written(s, t, k, i, ok)
    ensures BreaksNone(s, t)
  {
  }

  lemma ArmedBreaksNone(c: Config, s: State, t: State, k: Key, now: Time)
    requires Aside(s, t, k) && k in s.queries && k in t.queries && Armed(c, s, t, k, now)
    ensures BreaksNone(s, t)
  {
    hide Backoff;
    assert t.queries.Keys == (t.queries - {k}).Keys + {k};
    assert s.queries.Keys == (s.queries - {k}).Keys + {k};
  }

  lemma EndedBreaksNone(c: Config, s: State, t: State, w: nat, k: Key, failed: bool)
    requires InvBut(c, t, w, {}) && Breaks(s, t, k, failed)
    requires Aside(s, t, k) && k in s.queries && k !in t.queries
    ensures BreaksNone(s, t)
  {
    if t.queries != map[] {
      var x :| x in t.queries;
      assert x in t.all;
    }
    assert t.queries.Keys == (t.queries - {k}).Keys;
    assert s.queries.Keys == (s.queries - {k}).Keys + {k};
  }

  lemma BreaksNoneSelf(s: State)
    ensures BreaksNone(s, s)
  {
  }

  lemma SetBreaksNone(s: State, t: State, k: Key)
    requires k in s.queries && k in t.queries && t == SetQuery(s, k, t.queries[k])
    ensures BreaksNone(s, t)
  {
  }

  lemma CloseUnbreaks(s: State, t: State, u: State, w: nat)
    requires w < |s.servers| && t == Steal(CloseServer(s, w), w) && BreaksNone(t, u)
    ensures BreaksNoneBut(s, u, w) && (u.queries.Keys == s.queries.Keys ==> !u.servers[w].broken)
  {
  }

  lemma ArmedStaysShut(q: Query, s0: State, s: State, t: State, apart: int)
    requires StaysShut(q, s0, s, apart) && |t.servers| == |s.servers|
    requires forall i :: 0 <= i < |s.servers| ==> SameConnections(s.servers[i], t.servers[i])
    ensures StaysShut(q, s0, t, apart)
  {
  }

  /** next_server after its call of ares__send_query */
  lemma SendPlaced(c: Config, s0: State, s2: State, s: State, w: nat, k: Key, now: Time)
    requires Touched(s0, s2, k) && InvBut(c, s2, w, {k}) && Moved(s2, s, k, now) && s2.queries[k].gen == s0.queries[k].gen
    requires var q := s2.queries[k];
      && q.server < |q.skip| && |q.gen| == |s2.servers| && q.server < |s2.servers|
      && !s2.servers[q.server].broken && !q.skip[q.server]
      && !(q.usingTcp && q.gen[q.server] == s2.servers[q.server].generation)
    requires k in s.queries ==>
      Direct(c, s2, s2.queries[k], s.queries[k], s, now) || Placed(c, s2.queries[k], s.queries[k], s, now)
    ensures Moved(s0, s, k, now)
    ensures k in s.queries ==> Placed(c, s0.queries[k], s.queries[k], s, now)
  {
    hide InvBut, Aside, Placed, Direct, SkipsMore;
    TouchedThenMoved(s0, s2, s, k, now);
    if k in s.queries {
      if Placed(c, s2.queries[k], s.queries[k], s, now) {
        PlacedBefore(c, s0.queries[k], s2.queries[k], s.queries[k], s, now);
      } else {
        assert NoLater(s2.queries[k].gen, s2.generation) by {
          ConnectionsPart(c, s2, w, {k});
        }
        DirectPlaced(c, s2, s0.queries[k], s2.queries[k], s.queries[k], s, now);
      }
    }
  }

  class Channel {
    const c: Config
    const ednspsz: int
    var s: State
    ghost var io: Io              // history
    ghost var taken: seq<Taken>   // history: what the calls of write_tcp_data found

    /** What holds between API calls */
    ghost predicate Valid()
      reads this
    {
      Sane(c) && Inv(c, s)
    }

    constructor (c: Config, ednspsz: int, edns: bool, now: Time)
      requires Sane(c) && now.sec >= 0
      ensures Valid() && this.c == c && this.ednspsz == ednspsz
      ensures io == Io(0, []) && taken == [] && s.queries == map[] && s.log == [] && s.last == now.sec && s.edns == edns
      ensures |s.servers| == c.nservers == s.generation
      ensures forall i :: 0 <= i < c.nservers ==> Shut(s.servers[i]) && s.servers[i].generation == i + 1
    {
      this.c := c;
      this.ednspsz := ednspsz;
      s := State(map[], [], seq(QID_TABLE_SIZE, b => []), seq(TIMEOUT_TABLE_SIZE, b => []), [],
                 seq(c.nservers, i => Server(false, false, false, i + 1, [], [])), edns, 0, now.sec, c.nservers, 0, []);
      io, taken := Io(0, []), [];
    }

    method EndQuery(k: Key, status: Status, ghost w: nat)
      requires InvBut(c, s, w, {k}) && k in s.queries && s.queries[k].sends <= AtLeastOne(Attempts(c)) + 2
      requires Earned(c, CallOf(k, s.queries[k], status))
      modifies this`s
      ensures s == End(c, old(s), k, status)
      ensures InvBut(c, s, w, {}) && Aside(old(s), s, k) && k !in s.queries
      ensures s.log == old(s).log + [CallOf(k, old(s).queries[k], status)]
      ensures Disowned(s, k) && Breaks(old(s), s, k, status != Success) && Quiet(c, s)
      ensures forall i :: 0 <= i < |s.servers| && Shut(old(s).servers[i]) ==> Shut(s.servers[i])
    {
      forall i | 0 <= i < |s.servers| && Shut(s.servers[i]) {
        EndKeepsShut(c, s, k, status, i);
      }
      EndBreaks(c, s, k, status);
      EndSettles(c, s, w, k, status);
      s := End(c, s, k, status);
    }

    method SkipServer(k: Key, i: nat, ghost w: nat, ghost now: Time)
      requires Loose(c, s, w, k, now) && |s.queries[k].skip| == c.nservers && i < c.nservers
      modifies this`s
      ensures Loose(c, s, w, k, now) && Touched(old(s), s, k) && s.servers == old(s).servers
      ensures s.queries[k] == Skipped(c, old(s).queries[k], i)
    {
      hide InvBut, Shape, Connections, Sane;
      ghost var s0 := s;
      s := SetQuery(s, k, Skipped(c, s.queries[k], i));
      ConnectionsPart(c, s0, w, {k});
      ConnectionsFrame(s0, s);
      TouchedLoose(c, s0, s, w, k, now);
    }

    method CountTry(k: Key, ghost w: nat, ghost now: Time)
      requires Loose(c, s, w, k, now)
      modifies this`s
      ensures Loose(c, s, w, k, now) && Touched(old(s), s, k) && s.servers == old(s).servers
      ensures s.queries[k] == old(s).queries[k].(tryCount := old(s).queries[k].tryCount + 1)
    {
      hide InvBut, SkipsMore, ClockOk, Sane;
      ghost var s0 := s;
      AlwaysSkipsMore(s.queries[k].skip);
      s := SetQuery(s, k, s.queries[k].(tryCount := s.queries[k].tryCount + 1));
      Adjusted(c, s0, s, w, k, now);
    }

    method CountSend(k: Key, ghost w: nat, ghost now: Time)
      requires Loose(c, s, w, k, now)
      modifies this`s
      ensures s == SetQuery(old(s), k, old(s).queries[k].(sends := old(s).queries[k].sends + 1))
      ensures Loose(c, s, w, k, now) && Touched(old(s), s, k)
    {
      hide InvBut, SkipsMore, ClockOk, Sane;
      ghost var s0 := s;
      AlwaysSkipsMore(s.queries[k].skip);
      s := SetQuery(s, k, s.queries[k].(sends := s.queries[k].sends + 1));
      Adjusted(c, s0, s, w, k, now);
    }

    method Rotate(k: Key, ghost w: nat, ghost now: Time) returns (i: nat)
      requires Loose(c, s, w, k, now) && c.nservers > 0
      modifies this`s
      ensures Loose(c, s, w, k, now) && Touched(old(s), s, k) && s.servers == old(s).servers
      ensures i == (old(s).queries[k].server + 1) % c.nservers
      ensures s.queries[k] == old(s).queries[k].(server := i)
    {
      hide InvBut, SkipsMore, ClockOk, Sane;
      ghost var s0 := s;
      AlwaysSkipsMore(s.queries[k].skip);
      i := (s.queries[k].server + 1) % c.nservers;
      s := SetQuery(s, k, s.queries[k].(server := i));
      Adjusted(c, s0, s, w, k, now);
    }

    /** Sends the query to the next usable server, or ends it when all attempts are used up. */
    method NextServer(k: Key, now: Time, ghost w: nat)
      requires Loose(c, s, w, k, now) && Budget(c, s.queries[k])
      modifies this`s, this`io
      ensures io.failures >= old(io).failures && HandedOver(old(io), io, k, s)
      ensures InvBut(c, s, w, {}) && Quiet(c, s) && Moved(old(s), s, k, now)
      ensures k in s.queries ==> Placed(c, old(s).queries[k], s.queries[k], s, now)
      ensures io.failures == old(io).failures ==> TakesFirstOpen(c, old(s), old(s).queries[k], k, s)
      ensures StaysShut(old(s).queries[k], old(s), s, -1) && BreaksNone(old(s), s)
      decreases AtLeastOne(Attempts(c)) - s.queries[k].tryCount, 0
    {
      hide InvBut, Aside, SkipsMore, ClockOk, Sane, Outcome, Placed, Direct, StaysShut, BreaksNone, TimeMoved;
      ghost var s0 := s;
      CountTry(k, w, now);
      SearchStarts(c, s0, s, w, k, now);
      hide Touched, Seeking, Counted, Searching, TakesFirstOpen;
      while s.queries[k].tryCount < Attempts(c)
        invariant k in s.queries && Searching(c, s0, s, w, k, now) && io == old(io)
        decreases Attempts(c) - s.queries[k].tryCount
      {
        var done := TryNext(k, now, w, s0);
        if done {
          return;
        }
      }
      SearchParts(c, s0, s, w, k, now);
      ghost var s1 := s;
      EndTried(k, w, now, s0);
      SeekingEnded(c, s0, s0.queries[k], s1.queries[k], k, s);
    }

    /** One attempt of next_server: the query is sent if the next server may be used, or the attempt is over. */
    method TryNext(k: Key, now: Time, ghost w: nat, ghost s0: State) returns (done: bool)
      requires k in s.queries && Searching(c, s0, s, w, k, now) && s.queries[k].tryCount < Attempts(c)
      modifies this`s, this`io
      ensures io.failures >= old(io).failures && (if done then HandedOver(old(io), io, k, s) else io == old(io))
      ensures !done ==>
        k in s.queries && Searching(c, s0, s, w, k, now) && s.queries[k].tryCount == old(s).queries[k].tryCount + 1
      ensures done ==> InvBut(c, s, w, {}) && Quiet(c, s) && k in s0.queries && Moved(s0, s, k, now)
      ensures done && k in s.queries ==> Placed(c, s0.queries[k], s.queries[k], s, now)
      ensures done ==> StaysShut(s0.queries[k], s0, s, -1) && BreaksNone(s0, s)
      ensures done && io.failures == old(io).failures ==> TakesFirstOpen(c, s0, s0.queries[k], k, s)
      decreases AtLeastOne(Attempts(c)) - s.queries[k].tryCount, 4
    {
      hide InvBut, Aside, ClockOk, Sane, Outcome, Placed, Direct, StaysShut, BreaksNone, TimeMoved, TakesFirstOpen, Moved;
      ghost var s1 := s;
      SearchParts(c, s0, s1, w, k, now);
      var i := Rotate(k, w, now);
      TouchedThenTouched(s0, s1, s, k);
      SeekingOn(s0, s0.queries[k], s1.queries[k], s.queries[k]);
      var q := s.queries[k];
      if !s.servers[i].broken && !q.skip[i] && !(q.usingTcp && q.gen[i] == s.servers[i].generation) {
        SendChosen(k, now, w, s0);
        if io.failures == old(io).failures {
          SeekingFound(c, s0, s0.queries[k], q, k, s);
        }
        return true;
      }
      ghost var s2 := s;
      CountTry(k, w, now);
      TouchedThenTouched(s0, s2, s, k);
      done := false;
    }

    /** The query goes to the server that was found for it. */
    method SendChosen(k: Key, now: Time, ghost w: nat, ghost s0: State)
      requires Loose(c, s, w, k, now) && MayBeSent(c, s.queries[k])
      requires Touched(s0, s, k) && s.servers == s0.servers && s.queries[k].gen == s0.queries[k].gen
      requires var q := s.queries[k];
        && q.server < |q.skip| && |q.gen| == |s.servers| && q.server < |s.servers|
        && !s.servers[q.server].broken && !q.skip[q.server]
        && !(q.usingTcp && q.gen[q.server] == s.servers[q.server].generation)
      modifies this`s, this`io
      ensures io.failures >= old(io).failures && HandedOver(old(io), io, k, s)
      ensures InvBut(c, s, w, {}) && Quiet(c, s) && Moved(s0, s, k, now)
      ensures k in s.queries ==> Placed(c, s0.queries[k], s.queries[k], s, now)
      ensures io.failures == old(io).failures ==> StaysOn(old(s).queries[k], k, s)
      ensures StaysShut(s0.queries[k], s0, s, -1) && BreaksNone(s0, s)
      decreases AtLeastOne(Attempts(c)) - s.queries[k].tryCount, 3
    {
      hide InvBut, Aside, SkipsMore, ClockOk, Sane, Outcome, Placed, Direct, StaysShut, BreaksNone, TimeMoved;
      ghost var s2 := s;
      SendQuery(k, now, w);
      SendPlaced(c, s0, s2, s, w, k, now);
      ChosenStaysShut(s0, s2, s, k);
      TouchedBreaksNone(s0, s2, k);
      BreaksNoneThen(s0, s2, s);
    }

    /** All attempts are used up. */
    method EndTried(k: Key, ghost w: nat, ghost now: Time, ghost s0: State)
      requires Loose(c, s, w, k, now) && s.queries[k].sends <= AtLeastOne(Attempts(c)) + 2
      requires s.queries[k].tryCount >= Attempts(c)
      requires Touched(s0, s, k) && s.servers == s0.servers
      modifies this`s
      ensures InvBut(c, s, w, {}) && Quiet(c, s) && Moved(s0, s, k, now) && k !in s.queries
      ensures StaysShut(s0.queries[k], s0, s, -1) && BreaksNone(s0, s)
    {
      hide InvBut, Aside, SkipsMore, ClockOk, Sane, Outcome, StaysShut, BreaksNone, TimeMoved;
      ghost var s3 := s;
      EndQuery(k, s.queries[k].status, w);
      TouchedThenEnded(s0, s3, s, k, now);
      TouchedBreaksNone(s0, s3, k);
      EndedBreaksNone(c, s3, s, w, k, s3.queries[k].status != Success);
      BreaksNoneThen(s0, s3, s);
      AllStayShut(s0.queries[k], s0, s);
    }

    /** Gives up on the server the query is on. */
    method GiveUp(k: Key, now: Time, ghost w: nat)
      requires Loose(c, s, w, k, now) && Budget(c, s.queries[k])
      modifies this`s, this`io
      ensures io.failures >= old(io).failures && HandedOver(old(io), io, k, s)
      ensures InvBut(c, s, w, {}) && Quiet(c, s) && Moved(old(s), s, k, now)
      ensures k in s.queries ==> Placed(c, old(s).queries[k], s.queries[k], s, now)
      ensures StaysShut(old(s).queries[k], old(s), s, -1) && BreaksNone(old(s), s)
      decreases AtLeastOne(Attempts(c)) - s.queries[k].tryCount, 1
    {
      hide InvBut, Aside, SkipsMore, BreaksNone;
      ghost var s0 := s;
      SkipServer(k, s.queries[k].server, w, now);
      ghost var s1 := s;
      NextServer(k, now, w);
      TouchedThenMoved(s0, s1, s, k, now);
      TouchedBreaksNone(s0, s1, k);
      BreaksNoneThen(s0, s1, s);
      if k in s.queries {
        PlacedBefore(c, s0.queries[k], s1.queries[k], s.queries[k], s, now);
      }
      StaysShutThen(s0.queries[k], s1.queries[k], s0, s1, s, -1);
    }

    /** A call to open a socket or to write to it, which may fail */
    method SocketCall() returns (ok: bool)
      modifies this`io
      ensures io == old(io).(failures := old(io).failures + if ok then 0 else 1)
    {
      ok := *;
      io := io.(failures := io.failures + if ok then 0 else 1);
    }

    /** The TCP half of ares__send_query: the server's connection is opened if need be and the request queued. */
    method WriteTcp(k: Key, i: nat, ghost w: nat, ghost now: Time) returns (ok: bool)
      requires Loose(c, s, w, k, now) && i < |s.servers| && |s.queries[k].gen| == |s.servers|
      modifies this`s, this`io
      ensures io == if ok then old(io).(handed := old(io).handed + [Handover(k, i, true)])
        else old(io).(failures := old(io).failures + 1)
      ensures Loose(c, s, w, k, now) && Touched(old(s), s, k) && Written(old(s), s, k, i, ok)
      ensures ok ==> s.servers[i].tcpOpen && s.servers[i].sendq == old(s).servers[i].sendq + [Some(k)]
      ensures ok ==> s.queries[k].gen[i] == s.servers[i].generation
      ensures ok && old(s).servers[i].tcpOpen ==> s.queries[k].gen[i] == old(s).servers[i].generation
      ensures ok && !old(s).servers[i].tcpOpen ==> s.queries[k].gen[i] > old(s).generation
    {
      hide InvBut, SkipsMore, ClockOk, Sane, Connections, Touched, Written;
      ghost var s0 := s;
      ok := true;
      if !s.servers[i].tcpOpen {
        ok := SocketCall();
        if !ok {
          NotWritten(s, k, i);
          return;
        }
        s := OpenTcp(s, i);
      }
      s := QueueOn(s, i, k);
      io := io.(handed := io.handed + [Handover(k, i, true)]);
      TcpWritten(c, s0, w, k, i, now);
    }

    /** The UDP half: the server's socket is opened if need be and the request written. */
    method WriteUdp(k: Key, i: nat, ghost w: nat, ghost now: Time) returns (ok: bool)
      requires Loose(c, s, w, k, now) && i < |s.servers| && |s.queries[k].gen| == |s.servers|
      modifies this`s, this`io
      ensures io == if ok then old(io).(handed := old(io).handed + [Handover(k, i, false)])
        else old(io).(failures := old(io).failures + 1)
      ensures Loose(c, s, w, k, now) && Touched(old(s), s, k) && Written(old(s), s, k, i, ok)
      ensures s.queries[k] == old(s).queries[k] && (ok ==> s.servers[i].udpOpen)
    {
      hide InvBut, SkipsMore, ClockOk, Sane, Connections;
      ghost var s0 := s;
      AlwaysSkipsMore(s.queries[k].skip);
      ConnectionsPart(c, s, w, {k});
      GenerationAt(s, i);
      ok := true;
      if !s.servers[i].udpOpen {
        ok := SocketCall();
        if !ok {
          return;
        }
        s := OpenUdp(s, i);
      }
      WriteConnections(s0, s, i, k);
      TouchedLoose(c, s0, s, w, k, now);
      ok := SocketCall();
      io := if ok then io.(handed := io.handed + [Handover(k, i, false)]) else io;
    }

    /** Hands the query over to the server it is on; false if a socket call fails. */
    method Write(k: Key, i: nat, ghost w: nat, ghost now: Time) returns (ok: bool)
      requires Loose(c, s, w, k, now) && i < |s.servers| && |s.queries[k].gen| == |s.servers|
      modifies this`s, this`io
      ensures io == if ok then old(io).(handed := old(io).handed + [Handover(k, i, old(s).queries[k].usingTcp)])
        else old(io).(failures := old(io).failures + 1)
      ensures Loose(c, s, w, k, now) && Touched(old(s), s, k) && Written(old(s), s, k, i, ok)
      ensures ok && s.queries[k].usingTcp ==>
        s.servers[i].tcpOpen && s.servers[i].sendq == old(s).servers[i].sendq + [Some(k)]
      ensures ok && s.queries[k].usingTcp ==>
        s.queries[k].gen[i] == old(s).servers[i].generation || s.queries[k].gen[i] > old(s).generation
      ensures ok && !s.queries[k].usingTcp ==> s.servers[i].udpOpen
    {
      hide InvBut, SkipsMore, ClockOk, Sane, Connections;
      if s.queries[k].usingTcp {
        ok := WriteTcp(k, i, w, now);
      } else {
        ok := WriteUdp(k, i, w, now);
      }
    }

    /** The end of ares__send_query: the query waits for an answer, longer after each round over the servers. */
    method ArmQuery(k: Key, now: Time, ghost w: nat)
      requires Loose(c, s, w, k, now) && Budget(c, s.queries[k])
      modifies this`s
      ensures InvBut(c, s, w, {}) && Quiet(c, s) && Moved(old(s), s, k, now) && k in s.queries && Armed(c, old(s), s, k, now)
    {
      hide InvBut, Moved, Backoff, Pow2, Arm, Armed;
      var ms := Backoff(c.timeout, s.queries[k].tryCount / c.nservers);
      BackoffFits(c.timeout, s.queries[k].tryCount / c.nservers);
      Parts(c, s, w, {k});
      ArmSettles(c, s, w, k, now, ms);
      ArmArms(c, s, k, now);
      s := Arm(s, k, now, ms);
      BusyQuiet(c, s, w, k);
    }

    /** ares__send_query */
    method SendQuery(k: Key, now: Time, ghost w: nat)
      requires Loose(c, s, w, k, now) && MayBeSent(c, s.queries[k])
      modifies this`s, this`io
      ensures io.failures >= old(io).failures && HandedOver(old(io), io, k, s)
      ensures InvBut(c, s, w, {}) && Quiet(c, s) && Moved(old(s), s, k, now)
      ensures k in s.queries ==>
        || Direct(c, old(s), old(s).queries[k], s.queries[k], s, now)
        || Placed(c, old(s).queries[k], s.queries[k], s, now)
      ensures io.failures == old(io).failures ==> StaysOn(old(s).queries[k], k, s)
      ensures StaysShut(old(s).queries[k], old(s), s, old(s).queries[k].server) && BreaksNone(old(s), s)
      decreases AtLeastOne(Attempts(c)) - s.queries[k].tryCount, 2
    {
      hide InvBut, Aside, SkipsMore, ClockOk, Placed, Outcome, Direct, Sane, StaysShut, BreaksNone, Quiet, Sent, Earned, Shut;
      ghost var s0 := s;
      Parts(c, s, w, {k});
      var i := s.queries[k].server;
      CountSend(k, w, now);
      ghost var s1 := s;
      var ok := Write(k, i, w, now);
      TouchedThenTouched(s0, s1, s, k);
      ghost var s2 := s;
      WrittenStaysShut(s0, s1, s2, k, ok);
      TouchedBreaksNone(s0, s1, k);
      WrittenBreaksNone(s1, s2, k, i, ok);
      BreaksNoneThen(s0, s1, s2);
      if ok {
        ArmQuery(k, now, w);
        DirectFrom(c, s0, s1, s2, s, k, now);
        ArmedStaysShut(s0.queries[k], s0, s2, s, i);
        ArmedBreaksNone(c, s2, s, k, now);
      } else {
        assert s2.queries[k].gen == s0.queries[k].gen;
        GiveUp(k, now, w);
        if k in s.queries {
          PlacedBefore(c, s0.queries[k], s2.queries[k], s.queries[k], s, now);
        }
        StaysShutThen(s0.queries[k], s2.queries[k], s0, s2, s, i);
      }
      BreaksNoneThen(s0, s2, s);
      TouchedThenMoved(s0, s2, s, k, now);
    }

    /** The query is now in flux: it is about to be sent again. */
    method TakeUp(k: Key, q: Query, ghost w: nat)
      requires InvBut(c, s, w, {}) && k in s.queries && q.qid == s.queries[k].qid && (s.edns ==> !q.fellBack)
      requires q.gen == s.queries[k].gen
      modifies this`s
      ensures s == SetQuery(old(s), k, q) && InvBut(c, s, w, {k})
    {
      Unsettle(c, s, w, k);
      SetKeeps(c, s, w, k, q);
      s := SetQuery(s, k, q);
    }

    /** The query leaves its server for the next one that it may use. */
    method MoveOn(k: Key, q: Query, now: Time)
      requires Sane(c) && Inv(c, s) && ClockOk(s, now) && k in s.queries && q.qid == s.queries[k].qid
      requires (s.edns ==> !q.fellBack) && Budget(c, q) && q.gen == s.queries[k].gen
      modifies this`s, this`io
      ensures io.failures >= old(io).failures && HandedOver(old(io), io, k, s)
      ensures Inv(c, s) && Moved(SetQuery(old(s), k, q), s, k, now)
      ensures io.failures == old(io).failures ==> TakesFirstOpen(c, SetQuery(old(s), k, q), q, k, s)
      ensures k in s.queries ==> Placed(c, q, s.queries[k], s, now)
    {
      hide InvBut, Moved, Placed, TakesFirstOpen;
      TakeUp(k, q, 0);
      ghost var s1 := s;
      NextServer(k, now, 0);
      MovedRest(s1, s, k, now);
    }

    /** One query of a timeout bucket is found expired. */
    method TimeOutQuery(k: Key, now: Time)
      requires Sane(c) && ClockOk(s, now) && Inv(c, s) && k in s.queries
      modifies this`s, this`io
      ensures io.failures >= old(io).failures && HandedOver(old(io), io, k, s)
      ensures Inv(c, s)
      ensures Moved(SetQuery(old(s), k, TimeoutOf(old(s).queries[k])), s, k, now)
      ensures io.failures == old(io).failures ==>
        TakesFirstOpen(c, SetQuery(old(s), k, TimeoutOf(old(s).queries[k])), TimeoutOf(old(s).queries[k]), k, s)
      ensures k in s.queries ==> Placed(c, old(s).queries[k], s.queries[k], s, now)
    {
      hide InvBut, Moved;
      Parts(c, s, 0, {});
      MoveOn(k, TimeoutOf(s.queries[k]), now);
    }

    /** The inner loop of process_timeouts: one bucket, for the queries due in second t. */
    method SweepBucket(t: nat, now: Time, ghost s0: State, ghost from: nat)
      requires Sane(c) && ClockOk(s, now) && Inv(c, s)
      requires SweptBefore(s, t, now) && Progress(s0, s, now) && Covered(s0, s, from, io)
      modifies this`s, this`io
      ensures io.failures >= old(io).failures
      ensures ClockOk(s, now) && Inv(c, s)
      ensures SweptBefore(s, t + 1, now) && Progress(s0, s, now) && Covered(s0, s, from, io)
    {
      hide InvBut, Moved, Progress, SweptBefore, Pending, Covered, HandedOver;
      var b := t % TIMEOUT_TABLE_SIZE;
      PendingStart(c, s, 0, t, now);
      Parts(c, s, 0, {});
      var p: nat := 0;  // the position of the node looked at
      while p < |s.byTimeout[b]|
        invariant io.failures >= old(io).failures && Covered(s0, s, from, io)
        invariant |s.byTimeout| == TIMEOUT_TABLE_SIZE && p <= |s.byTimeout[b]|
        invariant Inv(c, s) && ClockOk(s, now) && Pending(s, t, p, now) && Progress(s0, s, now)
        decreases ExpiredKeys(s, now), |s.byTimeout[b]| - p
      {
        var k := s.byTimeout[b][p];
        InBucket(c, s, b, k);
        if s.queries[k].timeout.sec != 0 && TimedOut(now, s.queries[k].timeout) {
          ghost var s1 := s;
          var length := |s.byTimeout[b]|;
          ghost var io1 := io;
          TimeOutQuery(k, now);
          TimedOutAside(s1, s, k, now);
          CoveredStep(s0, s1, s, k, from, io1, io);
          PendingMoved(s1, s, t, p, now);
          ProgressStep(s0, s1, s, k, now);
          ProgressClock(s0, s1, s, now);
          p := After(length, |s.byTimeout[b]|, p);
        } else {
          PendingPass(s, t, p, now);
          p := p + 1;
        }
      }
      PendingEnd(s, t, now);
    }

    /** process_timeouts */
    method ProcessTimeouts(now: Time)
      requires Valid() && ClockOk(s, now)
      modifies this`s, this`io
      ensures io.failures >= old(io).failures
      ensures Valid() && s.last == now.sec
      ensures Swept(old(s), s, now) && Covered(old(s), s, |old(io).handed|, io)
    {
      hide InvBut, Progress, SweptBefore, Covered;
      ghost var s0, from := s, |io.handed|;
      CoveredStart(s, io);
      var t := s.last;
      SweepStart(c, s, now);
      while t <= now.sec
        invariant io.failures >= old(io).failures && Covered(s0, s, from, io)
        invariant 0 <= t <= now.sec + 1 && Inv(c, s) && ClockOk(s, now)
        invariant SweptBefore(s, t, now) && Progress(s0, s, now)
      {
        SweepBucket(t, now, s0, from);
        t := t + 1;
      }
      SweepDone(c, s0, s, 0, now);
      CoveredSame(s0, s, s.(last := now.sec), from, io);
      s := s.(last := now.sec);
    }

    method AdvanceStolen(k: Key, w: nat, now: Time, ghost s0: State, ghost from: nat)
      requires Sane(c) && ClockOk(s, now) && InvBut(c, s, w, {}) && w < c.nservers
      requires s.stolen != [] && k == s.stolen[0] && Evicting(c, s0, s, w, now) && Covered(s0, s, from, io)
      modifies this`s, this`io
      ensures Later(old(io), io) && Covered(s0, s, from, io)
      ensures ClockOk(s, now) && InvBut(c, s, w, {}) && Quiet(c, s)
      ensures s.stolen == old(s).stolen[1..] && Evicting(c, s0, s, w, now)
      ensures |s.servers| == |old(s).servers| && BreaksNone(old(s), s)
      ensures c.nservers > 1 && w < |s.servers| && Shut(old(s).servers[w]) ==> Shut(s.servers[w])
    {
      hide InvBut, Moved, Evicting, BreaksNone, Covered, HandedOver, Later;
      ghost var s1 := s;
      StolenOnServer(c, s, w, k);
      assert s.queries[k].server == w; // the first assertion of handle_error
      TakeUp(k, Skipped(c, s.queries[k], w), w);
      ghost var s2, io1 := s, io;
      NextServer(k, now, w);
      HandedLater(io1, io, k, s);
      AsideQueries(s2, s, k, now);
      assert s2.queries - {k} == s1.queries - {k};
      CoveredStep(s0, s1, s, k, from, io1, io);
      SetBreaksNone(s1, s2, k);
      BreaksNoneThen(s1, s2, s);
      EvictStep(c, s0, s1, s2, s, w, now);
      EvictClock(c, s0, s1, s, w, now);
    }

    /** handle_error: every query on server w moves on, and none is left in the temporary list. */
    method HandleError(w: nat, now: Time)
      requires Valid() && ClockOk(s, now) && w < c.nservers
      modifies this`s, this`io
      ensures Later(old(io), io)
      ensures Valid() && ClockOk(s, now)
      ensures Evicted(c, old(s), s, w, now) && Covered(old(s), s, |old(io).handed|, io)
      ensures BreaksNoneBut(old(s), s, w) && (s.queries.Keys == old(s).queries.Keys ==> !s.servers[w].broken)
      ensures c.nservers > 1 ==> Shut(s.servers[w]) && forall k :: k !in s.servers[w].queries
    {
      hide InvBut, Evicting, Evicted, BreaksNone, BreaksNoneBut, Covered;
      ghost var s0, from := s, |io.handed|;
      CoveredStart(s, io);
      Parts(c, s, 0, {});
      CloseKeeps(c, s, w);
      s := CloseServer(s, w);
      StealKeeps(c, s, w);
      s := Steal(s, w);
      CoveredSame(s0, s0, s, from, io);
      EvictStart(c, s0, s, w, now);
      ghost var s1 := s;
      BreaksNoneSelf(s1);
      var node := if s.stolen == [] then None else Some(s.stolen[0]);
      while node.Some?
        invariant Later(old(io), io) && Covered(s0, s, from, io)
        invariant ClockOk(s, now) && InvBut(c, s, w, {}) && Quiet(c, s) && Evicting(c, s0, s, w, now)
        invariant node == if s.stolen == [] then None else Some(s.stolen[0])
        invariant |s.servers| == c.nservers && (c.nservers > 1 ==> Shut(s.servers[w]))
        invariant BreaksNone(s1, s)
        decreases |s.stolen|
      {
        var k := node.value;
        node := if |s.stolen| == 1 then None else Some(s.stolen[1]);
        ghost var s2 := s;
        AdvanceStolen(k, w, now, s0, from);
        BreaksNoneThen(s1, s2, s);
      }
      assert s.stolen == []; // the second assertion of handle_error
      StolenEmpty(c, s, w);
      CloseUnbreaks(s0, s1, s, w);
      EvictEnd(c, s0, s, w, now);
      if c.nservers > 1 {
        Parts(c, s, 0, {});
        ServerEmptied(c, s0, s, w, now);
      }
    }

    /** What the system does with the requests queued on a server's connection */
    method OfferQueue(i: nat) returns (r: Taken)
      requires i < |s.servers|
      modifies this`taken
      ensures taken == old(taken) + [r] && (r.Taken? ==> r.requests <= |s.servers[i].sendq|)
    {
      r := *;
      if r.Taken? && r.requests > |s.servers[i].sendq| {
        r := NotNow;
      }
      taken := taken + [r];
    }

    /**
     write_tcp_data for a server whose connection is ready for writing: the queue is offered to the system once,
     and the requests it takes leave the front of the queue; if the connection has failed, so has the server.
     */
    method WriteData(i: nat, now: Time)
      requires Valid() && ClockOk(s, now) && i < c.nservers
      modifies this`s, this`io, this`taken
      ensures Later(old(io), io)
      ensures Valid() && ClockOk(s, now)
      ensures var v := old(s).servers[i];
        if v.sendq == [] || !v.tcpOpen || v.broken then s == old(s) && taken == old(taken)
        else exists r :: taken == old(taken) + [r] && match r
          case Taken(n) => n <= |v.sendq| && s == Flush(old(s), i, n)
          case NotNow => s == old(s)
          case Lost => Evicted(c, old(s), s, i, now) && Covered(old(s), s, |old(io).handed|, io)
    {
      hide InvBut, Evicted, Covered;
      Parts(c, s, 0, {});
      var v := s.servers[i];
      if v.sendq == [] || !v.tcpOpen || v.broken {
        return;
      }
      var r := OfferQueue(i);
      match r
      case Taken(n) =>
        FlushKeeps(c, s, i, n);
        s := Flush(s, i, n);
      case NotNow =>
      case Lost =>
        HandleError(i, now);
    }

    /** process_broken_connections: every query that was on a broken server is sent again, or ends. */
    method ProcessBrokenConnections(now: Time)
      requires Valid() && ClockOk(s, now)
      modifies this`s, this`io
      ensures Later(old(io), io)
      ensures Valid() && ClockOk(s, now) && s.queries.Keys <= old(s).queries.Keys
      ensures Recovered(old(s), s, c.nservers) && Covered(old(s), s, |old(io).handed|, io)
      ensures s.queries.Keys == old(s).queries.Keys ==> forall i :: 0 <= i < |s.servers| ==> !s.servers[i].broken
    {
      hide InvBut, Evicted, Quiet, Covered, Recovered, StillBroken;
      ghost var s0, from := s, |io.handed|;
      Parts(c, s, 0, {});
      CoveredStart(s, io);
      RecoveredStart(s);
      var i := 0;
      while i < c.nservers
        invariant Later(old(io), io) && Covered(s0, s, from, io)
        invariant 0 <= i <= c.nservers == |s.servers| && Valid() && ClockOk(s, now) && s.queries.Keys <= s0.queries.Keys
        invariant Recovered(s0, s, i) && StillBroken(s0, s, i)
        invariant s.queries.Keys == s0.queries.Keys ==> forall j :: 0 <= j < i ==> !s.servers[j].broken
      {
        ghost var s1, io1 := s, io;
        if s.servers[i].broken {
          HandleError(i, now);
          EvictedCovered(c, s0, s1, s, i, now, from, io1, io);
          RecoveredStep(c, s0, s1, s, i, now);
        } else {
          RecoveredPass(s0, s, i);
        }
        i := i + 1;
      }
    }

    /** ares_send, for a request of this length and id */
    method Send(qlen: int, qid: nat, now: Time) returns (k: Key)
      requires Valid() && ClockOk(s, now)
      modifies this`s, this`io
      ensures io.failures >= old(io).failures
      ensures Valid() && k == old(s).count && s.count == k + 1
      ensures OnlyConcerns(old(s), s, k)
      ensures if qlen < HFIXEDSZ || qlen >= 0x10000 then CalledBack(old(s), s, k, BadQuery, 0)
        else if c.nservers < 1 then CalledBack(old(s), s, k, ServFail, 0)
        else if k in s.queries then
          && s.queries[k].qid == qid && !TimedOut(now, s.queries[k].timeout)
          && (s.queries[k].usingTcp <==> c.usevc || qlen > (if old(s).edns then ednspsz else PACKETSZ))
        else CalledBack(old(s), s, k, ConnRefused, 0)
      ensures HFIXEDSZ <= qlen < 0x10000 && c.nservers > 0 && io.failures == old(io).failures ==> FirstSent(old(s), k, s)
      ensures HFIXEDSZ <= qlen < 0x10000 && c.nservers > 0 ==>
        s.lastServer == if c.rotate then (old(s).lastServer + 1) % c.nservers else old(s).lastServer
    {
      hide Inv, OnlyConcerns, CalledBack, ClockOk;
      k := s.count;
      if qlen < HFIXEDSZ || qlen >= 0x10000 {
        RefuseKeeps(c, s, BadQuery);
        s := Refuse(s, BadQuery);
      } else if c.nservers < 1 {
        RefuseKeeps(c, s, ServFail);
        s := Refuse(s, ServFail);
      } else {
        Launch(qid, c.usevc || qlen > (if s.edns then ednspsz else PACKETSZ), now);
      }
    }

    /** A new query is registered and sent for the first time. */
    method Launch(qid: nat, usingTcp: bool, now: Time)
      requires Valid() && ClockOk(s, now) && c.nservers > 0
      modifies this`s, this`io
      ensures io.failures >= old(io).failures && HandedOver(old(io), io, old(s).count, s)
      ensures Valid() && s.count == old(s).count + 1 && OnlyConcerns(old(s), s, old(s).count)
      ensures var k := old(s).count;
        if k in s.queries then
          s.queries[k].qid == qid && s.queries[k].usingTcp == usingTcp && !TimedOut(now, s.queries[k].timeout)
        else CalledBack(old(s), s, k, ConnRefused, 0)
      ensures io.failures == old(io).failures ==> FirstSent(old(s), old(s).count, s)
      ensures s.lastServer == if c.rotate then (old(s).lastServer + 1) % c.nservers else old(s).lastServer
    {
      hide InvBut, Moved, OnlyConcerns, CalledBack, Sent;
      ghost var s0 := s;
      var k := s.count;
      Parts(c, s, 0, {});
      CreateKeeps(c, s, qid, usingTcp);
      NotYet(c, s);
      s := Create(c, s, NewQuery(c, s, qid, usingTcp));
      ghost var s1 := s;
      assert s1.queries - {k} == s0.queries - {k};
      SendQuery(k, now, 0);
      MovedConcerns(s0, s1, s, k, now);
      MovedRest(s1, s, k, now);
    }

    /** The lookup of process_answer in the bucket of an id; same tells for which queries the questions agree. */
    method FindQuery(id: nat, same: Key -> bool) returns (r: Option<Key>)
      requires Valid()
      ensures r == FirstMatch(s.all, Matching(s, id, same))
    {
      ghost var ok := Matching(s, id, same);
      hide Inv;
      var b := id % QID_TABLE_SIZE;
      BucketMembers(c, s, b);
      BucketSearch(s.queries, s.all, b, ok);
      var p := 0;
      while p < |s.byQid[b]|
        invariant p <= |s.byQid[b]|
        invariant FirstMatch(s.byQid[b], ok) == FirstMatch(s.byQid[b][p..], ok)
      {
        var k := s.byQid[b][p];
        assert k in s.byQid[b];
        if s.queries[k].qid == id && same(k) {
          return Some(k);
        }
        assert s.byQid[b][p..][1..] == s.byQid[b][p + 1..];
        p := p + 1;
      }
      return None;
    }

    /** process_answer for a query that was found */
    method HandleAnswer(a: Answer, k: Key, server: nat, tcp: bool, now: Time)
      requires Valid() && ClockOk(s, now) && k in s.queries && server < c.nservers
      modifies this`s, this`io
      ensures io.failures >= old(io).failures
      ensures Valid() && ClockOk(s, now)
      ensures Answered(c, ednspsz, old(s), s, a, k, server, tcp, now, io.failures > old(io).failures)
    {
      hide Inv, Moved, Aside, OnlyConcerns, SentAgain, TurnedAway, ClockOk;
      var packetsz := if s.edns then ednspsz else PACKETSZ;
      if s.edns && (a.rcode == NOTIMP || a.rcode == FORMERR || a.rcode == SERVFAIL) {
        FallBack(k, now);
      } else if (a.truncated || a.length > packetsz) && !tcp && !c.igntc {
        if !s.queries[k].usingTcp {
          Upgrade(k, now);
        }
      } else if !c.nocheckresp && (a.rcode == SERVFAIL || a.rcode == NOTIMP || a.rcode == REFUSED) {
        Refused(k, server, now);
      } else {
        Accept(k, now);
      }
    }

    /** The server does not understand EDNS: it is switched off, and the query is sent again without it. */
    method FallBack(k: Key, now: Time)
      requires Valid() && ClockOk(s, now) && k in s.queries && s.edns
      modifies this`s, this`io
      ensures io.failures >= old(io).failures && HandedOver(old(io), io, k, s)
      ensures Valid() && ClockOk(s, now) && !s.edns && SentAgain(old(s), s, k, now, io.failures > old(io).failures)
      ensures k in s.queries ==> s.queries[k].fellBack
    {
      hide InvBut, Moved, Aside, OnlyConcerns;
      ghost var s0 := s;
      Parts(c, s, 0, {});
      var q := s.queries[k].(fellBack := true);
      NoEdnsKeeps(c, s, 0, {});
      s := s.(edns := false);
      ghost var s1 := SetQuery(s, k, q);
      assert s1.queries - {k} == s0.queries - {k};
      Resend(k, q, now);
      MovedConcerns(s0, s1, s, k, now);
      MovedRest(s1, s, k, now);
    }

    /** A truncated answer: the query is sent again over TCP. */
    method Upgrade(k: Key, now: Time)
      requires Valid() && ClockOk(s, now) && k in s.queries && !s.queries[k].usingTcp
      modifies this`s, this`io
      ensures io.failures >= old(io).failures && HandedOver(old(io), io, k, s)
      ensures Valid() && ClockOk(s, now) && s.edns == old(s).edns && SentAgain(old(s), s, k, now, io.failures > old(io).failures)
      ensures k in s.queries ==> s.queries[k].usingTcp
    {
      hide InvBut, Moved, Aside, OnlyConcerns;
      ghost var s0 := s;
      Parts(c, s, 0, {});
      var q := s.queries[k].(usingTcp := true, upgraded := true);
      ghost var s1 := SetQuery(s, k, q);
      assert s1.queries - {k} == s0.queries - {k};
      Resend(k, q, now);
      MovedConcerns(s0, s1, s, k, now);
      MovedRest(s1, s, k, now);
    }

    /** The answer is the query's result. */
    method Accept(k: Key, ghost now: Time)
      requires Valid() && ClockOk(s, now) && k in s.queries
      modifies this`s
      ensures Valid() && ClockOk(s, now) && s.edns == old(s).edns && s.queries == old(s).queries - {k}
      ensures s.log == old(s).log + [CallOf(k, old(s).queries[k], Success)]
    {
      hide InvBut, Aside;
      ghost var s0 := s;
      Parts(c, s, 0, {});
      Unsettle(c, s, 0, k);
      EndQuery(k, Success, 0);
      AsideStolen(s0, s, k);
    }

    /** The query is sent to its server once more, in another form. */
    method Resend(k: Key, q: Query, now: Time)
      requires Valid() && ClockOk(s, now) && k in s.queries && q.qid == s.queries[k].qid && (s.edns ==> !q.fellBack)
      requires MayBeSent(c, q) && q.gen == s.queries[k].gen
      modifies this`s, this`io
      ensures io.failures >= old(io).failures && HandedOver(old(io), io, k, s)
      ensures Valid() && ClockOk(s, now) && Moved(SetQuery(old(s), k, q), s, k, now)
      ensures io.failures == old(io).failures ==> StaysOn(q, k, s)
    {
      hide InvBut, Moved;
      TakeUp(k, q, 0);
      ghost var s1 := s;
      SendQuery(k, now, 0);
      MovedRest(s1, s, k, now);
    }

    /** A server answered that it cannot serve the query. */
    method Refused(k: Key, server: nat, now: Time)
      requires Valid() && ClockOk(s, now) && k in s.queries && server < c.nservers
      modifies this`s, this`io
      ensures io.failures >= old(io).failures
      ensures Valid() && ClockOk(s, now) && s.edns == old(s).edns
      ensures TurnedAway(c, old(s), s, k, server, now, io.failures > old(io).failures)
    {
      hide InvBut, Moved, OnlyConcerns, Sent, Landed, StaysShut, CalledBack, Quiet, Shut, TakesFirstOpen;
      ghost var s0 := s;
      Parts(c, s, 0, {});
      var q := Skipped(c, s.queries[k], server);
      if q.server == server {
        ghost var s1 := SetQuery(s, k, q);
        assert s1.queries - {k} == s0.queries - {k};
        MoveOn(k, q, now);
        MovedConcerns(s0, s1, s, k, now);
        MovedRest(s1, s, k, now);
      } else {
        s := SetQuery(s, k, q);
        SkipSettles(c, s0, k, q);
        assert OnlyConcerns(s0, s, k) by {
          SetConcerns(s0, k, q);
        }
      }
    }

    /** process_answer: an answer that came from a server, over TCP or UDP */
    method ProcessAnswer(a: Answer, same: Key -> bool, server: nat, tcp: bool, now: Time)
      requires Valid() && ClockOk(s, now) && server < c.nservers
      modifies this`s, this`io
      ensures io.failures >= old(io).failures
      ensures Valid() && ClockOk(s, now)
      ensures match FirstMatch(old(s).all, Matching(old(s), a.id, same))
        case None => s == old(s)
        case Some(k) =>
          if a.length < HFIXEDSZ then s == old(s)
          else k in old(s).queries && Answered(c, ednspsz, old(s), s, a, k, server, tcp, now, io.failures > old(io).failures)
    {
      hide Inv, Answered;
      FirstMatchIs(s.all, Matching(s, a.id, same));
      if a.length < HFIXEDSZ {
        return;
      }
      var found := FindQuery(a.id, same);
      if found.Some? {
        HandleAnswer(a, found.value, server, tcp, now);
      }
    }
  }

  /** A query that can go elsewhere does, unless socket calls failed; one that has run out of servers fails. */
  ghost predicate TurnedAway(c: Config, s: State, t: State, k: Key, server: nat, now: Time, failed: bool)
    requires k in s.queries
  {
    && OnlyConcerns(s, t, k)
    && if s.queries[k].server == server then
         && (!failed && server < |s.queries[k].skip| ==>
               var q := Skipped(c, s.queries[k], server); TakesFirstOpen(c, SetQuery(s, k, q), q, k, t))
         && (if k in t.queries then !TimedOut(now, t.queries[k].timeout) && (c.nservers > 1 ==> t.queries[k].server != server)
          else CalledBack(s, t, k, s.queries[k].status, s.queries[k].timeouts))
       else
         k in t.queries && t.log == s.log && server < |s.queries[k].skip| && t.queries[k] == Skipped(c, s.queries[k], server)
  }

  /** Sent again in another form and to the same server, unless socket calls failed; or at its end */
  ghost predicate SentAgain(s: State, t: State, k: Key, now: Time, failed: bool)
    requires k in s.queries
  {
    && OnlyConcerns(s, t, k) && (!failed ==> StaysOn(s.queries[k], k, t))
    && if k in t.queries then t.log == s.log && !TimedOut(now, t.queries[k].timeout)
       else CalledBack(s, t, k, s.queries[k].status, s.queries[k].timeouts)
  }

  /** What an answer to query k does. */
  ghost predicate Answered(
    c: Config, ednspsz: int, s: State, t: State, a: Answer, k: Key, server: nat, tcp: bool, now: Time, failed: bool)
    requires k in s.queries
  {
    var packetsz := if s.edns then ednspsz else PACKETSZ;
    if s.edns && a.rcode in {NOTIMP, FORMERR, SERVFAIL} then
      !t.edns && SentAgain(s, t, k, now, failed) && (k in t.queries ==> t.queries[k].fellBack)
    else
      t.edns == s.edns &&
      if (a.truncated || a.length > packetsz) && !tcp && !c.igntc then
        if s.queries[k].usingTcp then t == s
        else SentAgain(s, t, k, now, failed) && (k in t.queries ==> t.queries[k].usingTcp)
      else if !c.nocheckresp && a.rcode in {SERVFAIL, NOTIMP, REFUSED} then
        TurnedAway(c, s, t, k, server, now, failed)
      else
        && t.queries == s.queries - {k}
        && t.log == s.log + [CallOf(k, s.queries[k], Success)]
  }

  lemma SetConcerns(s: State, k: Key, q: Query)
    requires k in s.queries
    ensures OnlyConcerns(s, SetQuery(s, k, q), k)
  {
  }

  /** Noting a server to skip does not move the query. */
  lemma SkipSettles(c: Config, s: State, k: Key, q: Query)
    requires Inv(c, s) && k in s.queries && q == s.queries[k].(skip := q.skip) && |q.skip| == c.nservers
    ensures Inv(c, SetQuery(s, k, q))
  {
    var t := SetQuery(s, k, q);
    SetKeepsRegistered(s, k, q);
    assert TimeIndex(t, {}) by {
      forall b, x | 0 <= b < |s.byTimeout| ensures InTime(t, b, x) {
        assert InTime(s, b, x);
      }
    }
    assert ServerIndex(t, 0, {}) by {
      forall i, x | 0 <= i < |s.servers| ensures InServer(t, i, x) {
        assert InServer(s, i, x);
      }
    }
    assert Sound(c, t, {}) && Ledger(c, t);
    ConnectionsFrame(s, t);
  }

  lemma AsideStolen(s: State, t: State, k: Key)
    requires Aside(s, t, k) && s.stolen == []
    ensures t.stolen == [] && t.last == s.last && t.edns == s.edns && (k !in t.queries ==> t.queries == s.queries - {k})
  {
    if k !in t.queries {
      assert t.queries == t.queries - {k};
    }
  }

  lemma MovedRest(s: State, t: State, k: Key, now: Time)
    requires k in s.queries && Moved(s, t, k, now) && s.stolen == []
    ensures t.stolen == [] && t.count == s.count && t.last == s.last && t.edns == s.edns && t.lastServer == s.lastServer
    ensures k in t.queries ==> t.queries[k].qid == s.queries[k].qid
    ensures k in t.queries ==> t.queries[k].fellBack == s.queries[k].fellBack
    ensures k in t.queries ==> t.queries[k].usingTcp == s.queries[k].usingTcp
  {
  }

  lemma NotYet(c: Config, s: State)
    requires Inv(c, s)
    ensures s.count !in s.queries
  {
  }

  lemma BucketMembers(c: Config, s: State, b: nat)
    requires Inv(c, s) && b < QID_TABLE_SIZE
    ensures |s.byQid| == QID_TABLE_SIZE && s.byQid[b] == BucketOf(s.queries, s.all, b)
    ensures forall k :: k in s.byQid[b] ==> k in s.queries
  {
    BucketIs(s.queries, s.all, b);
  }

  lemma StolenOnServer(c: Config, s: State, w: nat, k: Key)
    requires InvBut(c, s, w, {}) && k in s.stolen
    ensures k in s.queries && s.queries[k].server == w && Budget(c, s.queries[k]) && NoDup(s.stolen)
    ensures s.edns ==> !s.queries[k].fellBack
  {
  }

  lemma EvictClock(c: Config, s: State, t: State, u: State, w: nat, now: Time)
    requires Evicting(c, s, t, w, now) && Evicting(c, s, u, w, now)
    ensures t.last == u.last
  {
  }

  lemma CloseKeeps(c: Config, s: State, w: nat)
    requires Inv(c, s) && w < |s.servers|
    ensures Inv(c, CloseServer(s, w))
  {
    hide InvBut;
    var t := CloseServer(s, w);
    ConnectionsPart(c, s, 0, {});
    CloseConnections(s, t);
    ServersKeep(c, s, 0, {}, t.servers, t.generation);
    assert t == s.(servers := t.servers, generation := t.generation);
  }

  lemma FlushKeeps(c: Config, s: State, i: nat, dropped: nat)
    requires Inv(c, s) && i < |s.servers| && dropped <= |s.servers[i].sendq| && s.servers[i].tcpOpen
    ensures Inv(c, Flush(s, i, dropped))
  {
    hide InvBut;
    var t := Flush(s, i, dropped);
    ConnectionsPart(c, s, 0, {});
    FlushConnections(s, i, dropped);
    ServersKeep(c, s, 0, {}, t.servers, t.generation);
    assert t == s.(servers := t.servers, generation := t.generation);
  }

  lemma FlushConnections(s: State, i: nat, dropped: nat)
    requires Connections(s) && i < |s.servers| && dropped <= |s.servers[i].sendq|
    ensures Connections(Flush(s, i, dropped))
  {
    var t := Flush(s, i, dropped);
    forall x, j | 0 <= x < |t.servers| && 0 <= j < |t.servers[x].sendq|
      ensures OwnerActive(t, x, j)
    {
      assert OwnerActive(s, x, if x == i then j + dropped else j);
    }
  }

  /** A new query has not been sent over any connection, and the servers' first connections are no exception. */
  lemma NewQueryUnsent(c: Config, s: State, qid: nat, usingTcp: bool, i: nat)
    requires Inv(c, s) && i < c.nservers
    ensures i < |s.servers| && i < |NewQuery(c, s, qid, usingTcp).gen|
    ensures NewQuery(c, s, qid, usingTcp).gen[i] != s.servers[i].generation
  {
    Parts(c, s, 0, {});
    ConnectionsPart(c, s, 0, {});
  }

  lemma EvictStart(c: Config, s: State, t: State, w: nat, now: Time)
    requires w < |s.servers| && t == Steal(CloseServer(s, w), w)
    requires forall k :: k in t.stolen <==> k in s.queries && s.queries[k].server == w
    ensures Evicting(c, s, t, w, now)
  {
  }

  lemma EvictEnd(c: Config, s: State, t: State, w: nat, now: Time)
    requires Evicting(c, s, t, w, now) && t.stolen == []
    ensures Evicted(c, s, t, w, now)
  {
  }

  lemma SweepStart(c: Config, s: State, now: Time)
    requires Inv(c, s)
    ensures s.last >= 0 && SweptBefore(s, s.last, now) && Progress(s, s, now)
  {
  }

  lemma InBucket(c: Config, s: State, b: nat, k: Key)
    requires Inv(c, s) && b < |s.byTimeout| && k in s.byTimeout[b]
    ensures k in s.queries && NoDup(s.byTimeout[b])
  {
    assert InTime(s, b, k);
  }

  lemma ProgressClock(s: State, t: State, u: State, now: Time)
    requires Progress(s, t, now) && Progress(s, u, now)
    ensures t.last == u.last
  {
  }

  lemma AlwaysSkipsMore(q: seq<bool>)
    ensures SkipsMore(q, q)
  {
  }
}
