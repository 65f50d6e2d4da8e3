/**
 The state of a c-ares channel and the single moves its query engine makes
 (c-ares/ares_process.c, ares_send.c, ares__close_sockets.c).

 Every query is linked in four lists; module AresList has the pointers. Here a list is the
 sequence of the queries in it, in list order, so inserting before the head appends.
 */
module AresState {
  import opened Options

  type Key = nat  // a query object

  datatype Time = Time(sec: int, usec: int)

  datatype Status = Success | Timeout | ConnRefused | BadQuery | ServFail

  datatype Query = Query(
    qid: nat,
    timeout: Time,
    tryCount: nat,
    server: nat,
    skip: seq<bool>,        // server_info[i].skip_server
    gen: seq<int>,          // server_info[i].tcp_connection_generation
    usingTcp: bool,
    status: Status,         // error_status
    timeouts: nat,
    sends: nat,             // history: how often ares__send_query was called for it
    upgraded: bool,         // history: it was moved to TCP after a truncated answer
    fellBack: bool)         // history: it was re-sent without EDNS

  datatype Server = Server(
    broken: bool,
    tcpOpen: bool,
    udpOpen: bool,
    generation: int,
    queries: seq<Key>,            // queries_to_server
    sendq: seq<Option<Key>>)      // owner_query of each queued send request

  /** A call of a query's callback, with what is known of the query at that moment. */
  datatype Call = Call(key: Key, status: Status, timeouts: nat, sends: nat, tries: nat)

  function CallOf(k: Key, q: Query, status: Status): Call {
    Call(k, status, q.timeouts, q.sends, q.tryCount)
  }

  datatype Config = Config(
    nservers: nat, tries: int, timeout: int,
    usevc: bool, igntc: bool, nocheckresp: bool, stayopen: bool, rotate: bool)

  const QID_TABLE_SIZE := 2048
  const TIMEOUT_TABLE_SIZE := 1024

  datatype State = State(
    queries: map<Key, Query>,     // the query objects that are allocated
    all: seq<Key>,
    byQid: seq<seq<Key>>,
    byTimeout: seq<seq<Key>>,
    stolen: seq<Key>,             // the temporary list of handle_error
    servers: seq<Server>,
    edns: bool,                   // ARES_FLAG_EDNS is set
    lastServer: nat,
    last: int,                    // last_timeout_processed
    generation: int,
    count: nat,                   // history: the number of calls of ares_send
    log: seq<Call>)               // history: the callbacks made so far

  // ----- time

  /** now is exactly check time or later (ares__timedout) */
  predicate TimedOut(now: Time, check: Time) {
    var secs := now.sec - check.sec;
    if secs > 0 then true else if secs < 0 then false else now.usec - check.usec >= 0
  }

  function TimeAdd(now: Time, ms: nat): Time {
    var t := Time(now.sec + ms / 1000, now.usec + (ms % 1000) * 1000);
    if t.usec >= 1000000 then Time(t.sec + 1, t.usec - 1000000) else t
  }

  predicate Proper(t: Time) {
    0 <= t.usec < 1000000
  }

  function Micros(t: Time): int {
    t.sec * 1000000 + t.usec
  }

  /** timeadd adds exactly that many milliseconds; later is later; ares__timedout compares instants. */
  lemma TimeAddExact(now: Time, ms: nat)
    requires Proper(now)
    ensures Proper(TimeAdd(now, ms)) && Micros(TimeAdd(now, ms)) == Micros(now) + 1000 * ms
    ensures now.sec <= TimeAdd(now, ms).sec
    ensures ms > 0 ==> !TimedOut(now, TimeAdd(now, ms))
  {
  }

  lemma TimedOutIsOrder(now: Time, check: Time)
    requires Proper(now) && Proper(check)
    ensures TimedOut(now, check) <==> Micros(check) <= Micros(now)
  {
  }

  function Pow2(n: nat): (p: nat)
    ensures p > 0
  {
    if n == 0 then 1 else 2 * Pow2(n - 1)
  }

  /** The timeout doubled once per round over the servers, unless an int would overflow. */
  function Backoff(timeout: int, shift: nat): int {
    if shift <= 31 && timeout >= 0 && timeout / Pow2(31 - shift) == 0 then timeout * Pow2(shift) else timeout
  }

  lemma {:induction false} Pow2Sum(a: nat, b: nat)
    ensures Pow2(a + b) == Pow2(a) * Pow2(b)
  {
    if a > 0 {
      Pow2Sum(a - 1, b);
      assert Pow2(a + b) == 2 * Pow2(a - 1 + b);
    }
  }

  lemma ScaledBelow(t: nat, a: nat, b: nat)
    requires t < a && b > 0
    ensures t * b < a * b
  {
  }

  lemma BelowIfNoQuotient(t: nat, p: nat)
    requires p > 0 && t / p == 0
    ensures t < p
  {
  }

  /** The shift never overflows a 32-bit int, and a positive timeout stays positive. */
  lemma BackoffFits(timeout: int, shift: nat)
    requires 0 < timeout < Pow2(31)
    ensures 0 < Backoff(timeout, shift) < Pow2(31)
  {
    if shift <= 31 && timeout / Pow2(31 - shift) == 0 {
      BelowIfNoQuotient(timeout, Pow2(31 - shift));
      ScaledBelow(timeout, Pow2(31 - shift), Pow2(shift));
      Pow2Sum(31 - shift, shift);
      ScaledBelow(0, timeout, Pow2(shift));
    }
  }

  // ----- lists

  ghost predicate NoDup(q: seq<Key>) {
    forall i, j :: 0 <= i < j < |q| ==> q[i] != q[j]
  }

  /** Taking a query's node out of a list it may be in. */
  function Drop(q: seq<Key>, k: Key): (r: seq<Key>) {
    if q == [] then [] else if q[0] == k then Drop(q[1..], k) else [q[0]] + Drop(q[1..], k)
  }

  lemma {:induction false} DropIs(q: seq<Key>, k: Key)
    ensures forall x :: x in Drop(q, k) <==> x in q && x != k
    ensures NoDup(q) ==> NoDup(Drop(q, k))
  {
    if q != [] {
      DropIs(q[1..], k);
      assert q == [q[0]] + q[1..];
      if NoDup(q) {
        assert q[0] !in q[1..];
      }
    }
  }

  lemma {:induction false} DropAbsent(q: seq<Key>, k: Key)
    requires k !in q
    ensures Drop(q, k) == q
  {
    if q != [] {
      DropAbsent(q[1..], k);
    }
  }

  lemma {:induction false} DropSplit(a: seq<Key>, b: seq<Key>, k: Key)
    ensures Drop(a + b, k) == Drop(a, k) + Drop(b, k)
  {
    if a == [] {
      assert a + b == b;
    } else {
      assert (a + b)[1..] == a[1..] + b;
      DropSplit(a[1..], b, k);
    }
  }

  /** Taking a node out of whichever bucket it is in. */
  function DropAll(bs: seq<seq<Key>>, k: Key): (r: seq<seq<Key>>)
    ensures |r| == |bs| && forall b :: 0 <= b < |bs| ==> r[b] == Drop(bs[b], k)
  {
    seq(|bs|, b requires 0 <= b < |bs| => Drop(bs[b], k))
  }

  function DropServers(servers: seq<Server>, k: Key): (r: seq<Server>)
    ensures |r| == |servers|
    ensures forall i :: 0 <= i < |servers| ==> r[i] == servers[i].(queries := Drop(servers[i].queries, k))
  {
    seq(|servers|, i requires 0 <= i < |servers| => servers[i].(queries := Drop(servers[i].queries, k)))
  }

  // ----- moves

  function SetQuery(s: State, k: Key, q: Query): State {
    s.(queries := s.queries[k := q])
  }

  /** The bucket of a second of time. Times of queries are positive. */
  function TimeBucket(t: Time): nat {
    (if t.sec < 0 then 0 else t.sec) % TIMEOUT_TABLE_SIZE
  }

  /** The end of ares__send_query: the query waits for an answer until its timeout. */
  function Arm(s: State, k: Key, now: Time, ms: nat): State
    requires k in s.queries && |s.byTimeout| == TIMEOUT_TABLE_SIZE && s.queries[k].server < |s.servers|
  {
    var q := s.queries[k].(timeout := TimeAdd(now, ms));
    var b, i := TimeBucket(q.timeout), q.server;
    var buckets, servers := DropAll(s.byTimeout, k), DropServers(s.servers, k);
    SetQuery(s, k, q).(
      byTimeout := buckets[b := buckets[b] + [k]],
      stolen := Drop(s.stolen, k),
      servers := servers[i := servers[i].(queries := servers[i].queries + [k])])
  }

  /** ares__close_sockets for one server */
  function CloseServer(s: State, i: nat): State
    requires i < |s.servers|
  {
    var v := s.servers[i];
    var g := if v.tcpOpen then s.generation + 1 else s.generation;
    s.(servers := s.servers[i := Server(false, false, false, if v.tcpOpen then g else v.generation, v.queries, [])],
       generation := g)
  }

  function CloseFrom(s: State, i: nat): (r: State)
    requires i <= |s.servers|
    ensures |r.servers| == |s.servers|
    ensures forall j :: 0 <= j < |s.servers| ==> r.servers[j].queries == s.servers[j].queries
    ensures forall j :: 0 <= j < |s.servers| ==> r.servers[j].sendq == s.servers[j].sendq || r.servers[j].sendq == []
    ensures r.generation >= s.generation
    ensures forall j :: 0 <= j < |s.servers| ==>
      r.servers[j].generation == s.servers[j].generation || s.generation < r.servers[j].generation <= r.generation
    ensures r == s.(servers := r.servers, generation := r.generation)
    decreases |s.servers| - i
  {
    if i == |s.servers| then s else CloseFrom(CloseServer(s, i), i + 1)
  }

  function ClearOwner(q: seq<Option<Key>>, k: Key): (r: seq<Option<Key>>)
    ensures |r| == |q|
  {
    seq(|q|, i requires 0 <= i < |q| => if q[i] == Some(k) then None else q[i])
  }

  /** The scan of the send queues in end_query: a queued request of a failed query breaks its connection. */
  function Disown(servers: seq<Server>, k: Key, failed: bool): (r: seq<Server>)
    ensures |r| == |servers| && forall i :: 0 <= i < |servers| ==> r[i].queries == servers[i].queries
  {
    seq(|servers|, i requires 0 <= i < |servers| =>
      servers[i].(broken := servers[i].broken || (failed && Some(k) in servers[i].sendq),
                  sendq := ClearOwner(servers[i].sendq, k)))
  }

  /** ares__free_query: out of all four lists */
  function Free(s: State, k: Key): State {
    s.(queries := s.queries - {k},
       all := Drop(s.all, k),
       byQid := DropAll(s.byQid, k),
       byTimeout := DropAll(s.byTimeout, k),
       stolen := Drop(s.stolen, k),
       servers := DropServers(s.servers, k))
  }

  /** end_query */
  function End(c: Config, s: State, k: Key, status: Status): State
    requires k in s.queries
  {
    var q := s.queries[k];
    var s1 := s.(servers := Disown(s.servers, k, status != Success), log := s.log + [CallOf(k, q, status)]);
    var s2 := Free(s1, k);
    if !c.stayopen && s2.all == [] then CloseFrom(s2, 0) else s2
  }

  // ----- which server is next

  /** The server of a query's attempt number j: the servers are taken in turn. */
  function ServerOf(n: nat, q: Query, j: nat): nat
    requires n > 0 && j >= q.tryCount
  {
    (q.server + (j - q.tryCount)) % n
  }

  /** At attempt j the query may be sent: its server is not broken, not to be skipped, and not reached over a connection used before. */
  ghost predicate Open(s: State, q: Query, j: nat)
    requires j >= q.tryCount
  {
    |s.servers| > 0 &&
    var i := ServerOf(|s.servers|, q, j);
    && !s.servers[i].broken && i < |q.skip| && !q.skip[i]
    && (q.usingTcp ==> i < |q.gen| && q.gen[i] != s.servers[i].generation)
  }

  /** No attempt after the last one and before j is open. */
  ghost predicate NoneOpen(s: State, q: Query, j: int) {
    forall i: nat :: q.tryCount < i < j ==> !Open(s, q, i)
  }

  /** The query has been sent in this attempt, on the server it was on. */
  ghost predicate StaysOn(q: Query, k: Key, t: State) {
    k in t.queries && t.queries[k].tryCount == q.tryCount && t.queries[k].server == q.server && t.queries[k].skip == q.skip
  }

  /** The first open attempt has been made; without one, the query has come to its end. */
  ghost predicate TakesFirstOpen(c: Config, s: State, q: Query, k: Key, t: State) {
    && (forall j: nat :: q.tryCount < j < c.nservers * c.tries && Open(s, q, j) && NoneOpen(s, q, j) ==>
          k in t.queries && t.queries[k].tryCount == j && t.queries[k].server == ServerOf(|s.servers|, q, j))
    && (NoneOpen(s, q, c.nservers * c.tries) ==> k !in t.queries)
  }

  lemma NextServerOf(n: nat, q: Query, j: nat)
    requires n > 0 && j >= q.tryCount
    ensures (ServerOf(n, q, j) + 1) % n == ServerOf(n, q, j + 1)
  {
    TurnOn(q.server + (j - q.tryCount), n);
  }

  lemma TurnOn(a: nat, n: nat)
    requires n > 0
    ensures (a % n + 1) % n == (a + 1) % n
  {
    var d, m := a / n, a % n;
    assert a == d * n + m;
    OneOn(a, d, m, n);
    if m + 1 < n {
      RemainderIs(m + 1, 0, m + 1, n);
    } else {
      RemainderIs(n, 1, 0, n);
    }
  }

  lemma OneOn(a: nat, d: nat, m: nat, n: nat)
    requires m < n && a == d * n + m
    ensures (a + 1) % n == if m + 1 < n then m + 1 else 0
  {
    if m + 1 < n {
      RemainderIs(a + 1, d, m + 1, n);
    } else {
      assert a + 1 == (d + 1) * n;
      RemainderIs(a + 1, d + 1, 0, n);
    }
  }

  lemma RemainderIs(a: nat, d: nat, m: nat, n: nat)
    requires m < n && a == d * n + m
    ensures a % n == m
  {
    var q, r := a / n, a % n;
    assert a == q * n + r;
    if q > d {
      AtLeastFactor(q - d, n);
    } else if q < d {
      AtLeastFactor(d - q, n);
    }
  }

  lemma AtLeastFactor(x: nat, n: nat)
    requires x > 0
    ensures x * n >= n
  {
  }

  // ----- doubling

  function Doubled(timeout: int, n: nat): int {
    if n == 0 then timeout else 2 * Doubled(timeout, n - 1)
  }

  lemma {:induction false} DoubledIs(timeout: int, n: nat)
    ensures Doubled(timeout, n) == timeout * Pow2(n)
  {
    if n > 0 {
      DoubledIs(timeout, n - 1);
    }
  }

  lemma PowerOf31()
    ensures Pow2(31) == 0x8000_0000
  {
    assert Pow2(4) == 16;
    Pow2Sum(4, 4);
    Pow2Sum(8, 8);
    Pow2Sum(16, 8);
    Pow2Sum(24, 4);
    Pow2Sum(28, 3);
    assert Pow2(3) == 8;
  }

  lemma BelowTimes(t: nat, p: nat, q: nat)
    requires p > 0 && q > 0
    ensures t / p == 0 <==> t * q < p * q
  {
    if t / p == 0 {
      BelowIfNoQuotient(t, p);
      ScaledBelow(t, p, q);
    } else if t >= p {
      assert (t - p) * q >= 0;
      assert t * q == p * q + (t - p) * q;
    }
  }

  /** The configured timeout, doubled once per round over the servers; where that exceeds an int, not doubled at all. */
  lemma BackoffIs(timeout: int, rounds: nat)
    requires 0 < timeout < 0x8000_0000
    ensures Backoff(timeout, rounds) == if Doubled(timeout, rounds) < 0x8000_0000 then Doubled(timeout, rounds) else timeout
  {
    hide Pow2;
    PowerOf31();
    DoubledIs(timeout, rounds);
    if rounds <= 31 {
      Pow2Sum(31 - rounds, rounds);
      BelowTimes(timeout, Pow2(31 - rounds), Pow2(rounds));
    } else {
      Pow2Sum(31, rounds - 31);
      AtLeastFactor(Pow2(rounds - 31), Pow2(31));
      AtLeastFactor(timeout, Pow2(rounds));
    }
  }
}
