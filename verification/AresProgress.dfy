/**
 What the sweeps over the queries of a c-ares channel achieve: process_timeouts over the timeout
 buckets, handle_error over one server's list, and process_answer's lookup (c-ares/ares_process.c).
 */
module AresProgress {
  import opened Options
  import opened AresState
  import opened AresInvariant

  predicate Expired(q: Query, now: Time) {
    q.timeout.sec != 0 && TimedOut(now, q.timeout)
  }

  function ExpiredKeys(s: State, now: Time): set<Key> {
    set k | k in s.queries && Expired(s.queries[k], now)
  }

  ghost predicate Untouched(s: State, t: State, k: Key) {
    k in s.queries && k in t.queries && t.queries[k] == s.queries[k]
  }

  /** Between s and t the callback of k was made with this outcome. */
  ghost predicate CalledBack(s: State, t: State, k: Key, status: Status, timeouts: nat) {
    exists i :: |s.log| <= i < |t.log| && t.log[i].key == k && t.log[i].status == status && t.log[i].timeouts == timeouts
  }

  /** One more timeout was counted for k, and it was sent again, or ended with ARES_ETIMEOUT. */
  ghost predicate Advanced(s: State, t: State, k: Key, now: Time) {
    k in s.queries &&
    if k in t.queries then
      var r := t.queries[k];
      && !TimedOut(now, r.timeout) && r.timeouts == s.queries[k].timeouts + 1 && r.status == Timeout
      && r.sends > s.queries[k].sends
    else
      CalledBack(s, t, k, Timeout, s.queries[k].timeouts + 1)
  }

  ghost predicate Grown(s: State, t: State) {
    && t.queries.Keys <= s.queries.Keys
    && |s.log| <= |t.log| && t.log[..|s.log|] == s.log
    && t.last == s.last && t.count == s.count && t.edns == s.edns && t.lastServer == s.lastServer
  }

  ghost predicate Progress(s: State, t: State, now: Time) {
    && Grown(s, t)
    && forall k :: k in s.queries ==> Untouched(s, t, k) || (Expired(s.queries[k], now) && Advanced(s, t, k, now))
  }

  /** The queries that a scan of all queries finds expired, and no others, have been advanced. */
  ghost predicate Swept(s: State, t: State, now: Time) {
    && t.queries.Keys <= s.queries.Keys
    && (forall k :: k in s.queries ==> if Expired(s.queries[k], now) then Advanced(s, t, k, now) else Untouched(s, t, k))
    && (forall k :: k in t.queries ==> !TimedOut(now, t.queries[k].timeout))
  }

  function TimeoutOf(q: Query): Query {
    q.(status := Timeout, timeouts := q.timeouts + 1)
  }

  lemma GrownMore(s: State, t: State, u: State, k: Key, now: Time)
    requires Grown(s, t) && k in t.queries && Moved(t, u, k, now)
    ensures Grown(s, u)
    ensures forall x :: x != k && x in t.queries ==> Untouched(t, u, x)
    ensures forall x :: x != k && x in u.queries ==> x in t.queries
    ensures forall i :: 0 <= i < |t.log| ==> i < |u.log| && u.log[i] == t.log[i]
  {
    forall x | x != k
      ensures x in u.queries <==> x in t.queries
      ensures x in t.queries ==> u.queries[x] == t.queries[x]
    {
      assert x in u.queries - {k} <==> x in t.queries - {k};
      if x in t.queries {
        assert (u.queries - {k})[x] == (t.queries - {k})[x];
      }
    }
    assert t.log == u.log[..|t.log|];
    assert u.log[..|s.log|] == s.log;
  }

  lemma CalledBackStill(s: State, t: State, u: State, k: Key, status: Status, timeouts: nat)
    requires CalledBack(s, t, k, status, timeouts)
    requires forall i :: 0 <= i < |t.log| ==> i < |u.log| && u.log[i] == t.log[i]
    ensures CalledBack(s, u, k, status, timeouts)
  {
    var i :| |s.log| <= i < |t.log| && t.log[i].key == k && t.log[i].status == status && t.log[i].timeouts == timeouts;
    assert u.log[i] == t.log[i];
  }

  lemma ProgressStep(s: State, t: State, u: State, k: Key, now: Time)
    requires Progress(s, t, now) && k in t.queries && Expired(t.queries[k], now)
    requires Moved(SetQuery(t, k, TimeoutOf(t.queries[k])), u, k, now)
    requires k in u.queries ==> u.queries[k].sends > t.queries[k].sends
    ensures Progress(s, u, now)
  {
    var t1 := SetQuery(t, k, TimeoutOf(t.queries[k]));
    assert Untouched(s, t, k);
    GrownMore(s, t1, u, k, now);
    forall x | x in s.queries
      ensures Untouched(s, u, x) || (Expired(s.queries[x], now) && Advanced(s, u, x, now))
    {
      if x == k {
        if k !in u.queries {
          assert u.log[|t.log|].key == k;
          assert CalledBack(s, u, k, Timeout, s.queries[k].timeouts + 1);
        }
      } else if !Untouched(s, t, x) {
        if x in t.queries {
          assert Untouched(t1, u, x);
        } else {
          CalledBackStill(s, t1, u, x, Timeout, s.queries[x].timeouts + 1);
        }
      } else {
        assert Untouched(t1, u, x);
      }
    }
  }

  // ----- the walk over the timeout buckets

  /** No expired query was due before second t. */
  ghost predicate SweptBefore(s: State, t: int, now: Time) {
    forall k :: k in s.queries && Expired(s.queries[k], now) ==> s.queries[k].timeout.sec >= t
  }

  /** ... and those due in second t are from position p of its bucket on. */
  ghost predicate Pending(s: State, t: int, p: nat, now: Time) {
    && t >= 0 && |s.byTimeout| == TIMEOUT_TABLE_SIZE
    && p <= |s.byTimeout[t % TIMEOUT_TABLE_SIZE]|
    && forall k :: k in s.queries && Expired(s.queries[k], now) ==>
         s.queries[k].timeout.sec > t || k in s.byTimeout[t % TIMEOUT_TABLE_SIZE][p..]
  }

  lemma PendingStart(c: Config, s: State, w: nat, t: nat, now: Time)
    requires InvBut(c, s, w, {}) && SweptBefore(s, t, now)
    ensures Pending(s, t, 0, now)
  {
    var b := t % TIMEOUT_TABLE_SIZE;
    forall k | k in s.queries && Expired(s.queries[k], now) && s.queries[k].timeout.sec <= t
      ensures k in s.byTimeout[b][0..]
    {
      assert InTime(s, b, k);
      assert s.byTimeout[b][0..] == s.byTimeout[b];
    }
  }

  lemma PendingEnd(s: State, t: int, now: Time)
    requires t >= 0 && |s.byTimeout| == TIMEOUT_TABLE_SIZE
    requires Pending(s, t, |s.byTimeout[t % TIMEOUT_TABLE_SIZE]|, now)
    ensures SweptBefore(s, t + 1, now)
  {
  }

  lemma PendingPass(s: State, t: int, p: nat, now: Time)
    requires Pending(s, t, p, now) && p < |s.byTimeout[t % TIMEOUT_TABLE_SIZE]|
    requires var k := s.byTimeout[t % TIMEOUT_TABLE_SIZE][p]; k in s.queries && !Expired(s.queries[k], now)
    ensures Pending(s, t, p + 1, now)
  {
    var q := s.byTimeout[t % TIMEOUT_TABLE_SIZE];
    assert q[p..] == [q[p]] + q[p + 1..];
  }

  lemma {:induction false} DropAt(q: seq<Key>, p: nat)
    requires NoDup(q) && p < |q|
    ensures Drop(q, q[p]) == q[..p] + q[p + 1..]
  {
    var k := q[p];
    assert q == q[..p] + ([k] + q[p + 1..]);
    DropSplit(q[..p], [k] + q[p + 1..], k);
    DropAbsent(q[..p], k);
    assert ([k] + q[p + 1..])[1..] == q[p + 1..];
    DropAbsent(q[p + 1..], k);
  }

  /** The position after the node of an advanced query, whose successor was noted before. */
  function After(n: nat, m: nat, p: nat): nat {
    if p + 1 == n then m else p
  }

  lemma RebucketedAt(q: seq<Key>, r: seq<Key>, p: nat)
    requires NoDup(q) && p < |q| && Rebucketed(q, r, q[p])
    ensures After(|q|, |r|, p) <= |r|
    ensures forall x :: x in q[p..] && x != q[p] ==> x in r[After(|q|, |r|, p)..]
  {
    DropAt(q, p);
    var tail := if r == Drop(q, q[p]) then [] else [q[p]];
    assert r == q[..p] + (q[p + 1..] + tail);
    assert q[p..] == [q[p]] + q[p + 1..];
    if p + 1 < |q| {
      assert r[p..] == q[p + 1..] + tail;
    }
  }

  lemma PendingMoved(s: State, u: State, t: int, p: nat, now: Time)
    requires Pending(s, t, p, now) && p < |s.byTimeout[t % TIMEOUT_TABLE_SIZE]|
    requires NoDup(s.byTimeout[t % TIMEOUT_TABLE_SIZE])
    requires var k := s.byTimeout[t % TIMEOUT_TABLE_SIZE][p];
      k in s.queries && Expired(s.queries[k], now) && Moved(SetQuery(s, k, TimeoutOf(s.queries[k])), u, k, now)
    ensures |u.byTimeout| == |s.byTimeout|
    ensures Pending(u, t, After(|s.byTimeout[t % TIMEOUT_TABLE_SIZE]|, |u.byTimeout[t % TIMEOUT_TABLE_SIZE]|, p), now)
    ensures ExpiredKeys(u, now) < ExpiredKeys(s, now)
  {
    var b := t % TIMEOUT_TABLE_SIZE;
    var k := s.byTimeout[b][p];
    var s1 := SetQuery(s, k, TimeoutOf(s.queries[k]));
    GrownMore(s1, s1, u, k, now);
    assert Rebucketed(s1.byTimeout[b], u.byTimeout[b], k);
    RebucketedAt(s.byTimeout[b], u.byTimeout[b], p);
    forall x | x in u.queries && Expired(u.queries[x], now)
      ensures x != k && x in s.queries && u.queries[x] == s.queries[x]
    {
      assert x != k;
      assert Untouched(s1, u, x);
    }
    assert k in ExpiredKeys(s, now) && k !in ExpiredKeys(u, now);
  }

  lemma SweepDone(c: Config, s: State, t: State, w: nat, now: Time)
    requires InvBut(c, t, w, {}) && Progress(s, t, now) && SweptBefore(t, now.sec + 1, now)
    ensures Swept(s, t, now)
    ensures InvBut(c, t.(last := now.sec), w, {}) || now.sec < 0
  {
    hide Advanced, Registered, Ledger, Shape;
    assert forall k :: k in t.queries ==> Due(t, t.queries[k]);
    forall k | k in s.queries
      ensures if Expired(s.queries[k], now) then Advanced(s, t, k, now) else Untouched(s, t, k)
    {
      if Untouched(s, t, k) {
        assert !Expired(t.queries[k], now);
      }
    }
    if now.sec >= 0 {
      LastKeeps(c, t, w, now.sec);
    }
  }

  lemma LastKeeps(c: Config, s: State, w: nat, last: nat)
    requires InvBut(c, s, w, {}) && forall k :: k in s.queries ==> s.queries[k].timeout.sec >= last
    ensures InvBut(c, s.(last := last), w, {})
  {
    var t := s.(last := last);
    assert TimeIndex(t, {}) by {
      forall b, x | 0 <= b < |s.byTimeout| ensures InTime(t, b, x) {
        assert InTime(s, b, x);
      }
    }
    assert ServerIndex(t, w, {}) by {
      forall i, x | 0 <= i < |s.servers| ensures InServer(t, i, x) {
        assert InServer(s, i, x);
      }
    }
    assert Registered(t) && Ledger(c, t) && Sound(c, t, {});
    ConnectionsFrame(s, t);
  }

  // ----- the walk over a failed server's queries

  /** k has left the failed server: it ended, or it was sent again and waits, on another server if there is one. */
  ghost predicate LeftServer(c: Config, s: State, t: State, k: Key, w: nat, now: Time) {
    k in s.queries &&
    if k in t.queries then
      && !TimedOut(now, t.queries[k].timeout) && t.queries[k].sends > s.queries[k].sends
      && (c.nservers > 1 ==> t.queries[k].server != w)
    else
      CalledBack(s, t, k, s.queries[k].status, s.queries[k].timeouts)
  }

  /** Queries that were on server w and are no longer in the stolen list have left it. */
  ghost predicate Evicting(c: Config, s: State, t: State, w: nat, now: Time) {
    && Grown(s, t)
    && forall k :: k in s.queries ==>
         if s.queries[k].server == w && k !in t.stolen then LeftServer(c, s, t, k, w, now) else Untouched(s, t, k)
  }

  /** The result of handle_error */
  ghost predicate Evicted(c: Config, s: State, t: State, w: nat, now: Time) {
    && t.queries.Keys <= s.queries.Keys
    && forall k :: k in s.queries ==>
         if s.queries[k].server == w then LeftServer(c, s, t, k, w, now) else Untouched(s, t, k)
  }

  function Steal(s: State, w: nat): State
    requires w < |s.servers|
  {
    s.(stolen := s.servers[w].queries, servers := s.servers[w := s.servers[w].(queries := s.stolen)])
  }

  lemma StealServers(s: State, w: nat)
    requires ServerIndex(s, 0, {}) && s.stolen == [] && w < |s.servers|
    ensures ServerIndex(Steal(s, w), w, {})
    ensures forall k :: k in Steal(s, w).stolen <==> k in s.queries && s.queries[k].server == w
  {
    var t := Steal(s, w);
    forall k
      ensures k in t.stolen <==> k in s.queries && s.queries[k].server == w
    {
      assert InServer(s, w, k);
    }
    forall i, x | 0 <= i < |s.servers|
      ensures InServer(t, i, x)
    {
      assert InServer(s, i, x);
    }
  }

  lemma StealKeeps(c: Config, s: State, w: nat)
    requires Inv(c, s) && w < |s.servers|
    ensures InvBut(c, Steal(s, w), w, {})
    ensures forall k :: k in Steal(s, w).stolen <==> k in s.queries && s.queries[k].server == w
  {
    var t := Steal(s, w);
    StealServers(s, w);
    hide ServerIndex;
    assert TimeIndex(t, {}) by {
      forall b, x | 0 <= b < |s.byTimeout| ensures InTime(t, b, x) {
        assert InTime(s, b, x);
      }
    }
    assert Registered(t) && Ledger(c, t) && Sound(c, t, {});
    ConnectionsFrame(s, t);
  }

  lemma StolenEmpty(c: Config, s: State, w: nat)
    requires InvBut(c, s, w, {}) && s.stolen == [] && Quiet(c, s)
    ensures Inv(c, s)
  {
    assert ServerIndex(s, 0, {}) by {
      assert forall i, x :: 0 <= i < |s.servers| && x !in {} ==> InServer(s, i, x);
    }
  }

  lemma StolenNext(t: State, u: State)
    requires t.stolen != [] && NoDup(t.stolen) && u.stolen == Drop(t.stolen, t.stolen[0])
    ensures u.stolen == t.stolen[1..] && t.stolen[0] !in u.stolen
    ensures forall x :: x != t.stolen[0] ==> (x in u.stolen <==> x in t.stolen)
  {
    DropAt(t.stolen, 0);
    DropIs(t.stolen, t.stolen[0]);
    assert t.stolen[1..] == t.stolen[..0] + t.stolen[0 + 1..];
  }

  /** k was taken from the stolen list and sent elsewhere, or ended. */
  ghost predicate EvictedOne(c: Config, t: State, t1: State, u: State, k: Key, w: nat, now: Time) {
    && k in t.queries && t.queries[k].server == w && k in t1.queries
    && t1 == SetQuery(t, k, t1.queries[k]) && Moved(t1, u, k, now)
    && t1.queries[k].status == t.queries[k].status && t1.queries[k].timeouts == t.queries[k].timeouts
    && (k in u.queries ==> u.queries[k].sends > t.queries[k].sends && (c.nservers > 1 ==> u.queries[k].server != w))
  }

  lemma EvictSelf(c: Config, s: State, t: State, t1: State, u: State, k: Key, w: nat, now: Time)
    requires Grown(s, t) && Untouched(s, t, k) && EvictedOne(c, t, t1, u, k, w, now)
    ensures LeftServer(c, s, u, k, w, now)
  {
    if k !in u.queries {
      assert u.log[|t.log|].key == k;
    }
  }

  lemma EvictStep(c: Config, s: State, t: State, t1: State, u: State, w: nat, now: Time)
    requires Evicting(c, s, t, w, now) && t.stolen != [] && NoDup(t.stolen)
    requires EvictedOne(c, t, t1, u, t.stolen[0], w, now)
    ensures Evicting(c, s, u, w, now)
    ensures u.stolen == t.stolen[1..]
  {
    var k := t.stolen[0];
    assert Grown(s, t1);
    GrownMore(s, t1, u, k, now);
    StolenNext(t, u);
    assert k in s.queries && Untouched(s, t, k);
    EvictSelf(c, s, t, t1, u, k, w, now);
    hide Grown, Moved, NoDup;
    forall x | x in s.queries && x != k
      ensures if s.queries[x].server == w && x !in u.stolen then LeftServer(c, s, u, x, w, now) else Untouched(s, u, x)
    {
      if x in t.queries {
        assert Untouched(t1, u, x);
      } else {
        CalledBackStill(s, t1, u, x, s.queries[x].status, s.queries[x].timeouts);
      }
    }
  }

  /** With other servers to go to, a failed server is left without queries. */
  lemma ServerEmptied(c: Config, s: State, t: State, w: nat, now: Time)
    requires Inv(c, t) && Evicted(c, s, t, w, now) && c.nservers > 1 && w < |t.servers|
    ensures forall k :: k !in t.servers[w].queries
  {
    forall k
      ensures k !in t.servers[w].queries
    {
      assert InServer(t, w, k);
      assert k in t.queries ==> k in s.queries;
    }
  }

  // ----- finding the query an answer is for

  function FirstMatch(q: seq<Key>, ok: Key -> bool): (r: Option<Key>) {
    if q == [] then None else if ok(q[0]) then Some(q[0]) else FirstMatch(q[1..], ok)
  }

  /** The queries with this id, and the question that same tells of. */
  function Matching(s: State, id: nat, same: Key -> bool): Key -> bool {
    k => k in s.queries && s.queries[k].qid == id && same(k)
  }

  lemma {:induction false} FirstMatchIs(q: seq<Key>, ok: Key -> bool)
    ensures match FirstMatch(q, ok)
      case None => forall k :: k in q ==> !ok(k)
      case Some(k) => exists i :: 0 <= i < |q| && q[i] == k && ok(k) && forall j :: 0 <= j < i ==> !ok(q[j])
  {
    if q != [] && !ok(q[0]) {
      FirstMatchIs(q[1..], ok);
      match FirstMatch(q[1..], ok)
      case None =>
        assert q == [q[0]] + q[1..];
      case Some(k) =>
        var i :| 0 <= i < |q[1..]| && q[1..][i] == k && ok(k) && forall j :: 0 <= j < i ==> !ok(q[1..][j]);
        assert q[i + 1] == k && forall j :: 0 <= j < i + 1 ==> !ok(q[j]) by {
          forall j | 0 <= j < i + 1 ensures !ok(q[j]) {
            if j > 0 {
              assert q[j] == q[1..][j - 1];
            }
          }
        }
    }
  }

  /** A search of the id's bucket finds what a search of all queries would find. */
  lemma {:induction false} BucketSearch(m: map<Key, Query>, q: seq<Key>, b: nat, ok: Key -> bool)
    requires forall k :: k in q && ok(k) ==> k in m && m[k].qid % QID_TABLE_SIZE == b
    ensures FirstMatch(BucketOf(m, q, b), ok) == FirstMatch(q, ok)
  {
    if q != [] {
      assert q[0] in q && forall k :: k in q[1..] ==> k in q;
      BucketSearch(m, q[1..], b, ok);
      if q[0] in m && m[q[0]].qid % QID_TABLE_SIZE == b {
        assert ([q[0]] + BucketOf(m, q[1..], b))[1..] == BucketOf(m, q[1..], b);
      } else {
        assert [] + BucketOf(m, q[1..], b) == BucketOf(m, q[1..], b);
      }
    }
  }

  // ----- a new query

  function NewQuery(c: Config, s: State, qid: nat, usingTcp: bool): Query {
    Query(qid, Time(0, 0), 0, s.lastServer, seq(c.nservers, i => false), seq(c.nservers, i => 0), usingTcp,
          ConnRefused, 0, 0, false, false)
  }

  /** ares_send up to the first ares__send_query */
  function Create(c: Config, s: State, q: Query): State
    requires |s.byQid| == QID_TABLE_SIZE
  {
    var k, b := s.count, q.qid % QID_TABLE_SIZE;
    s.(queries := s.queries[k := q],
       all := s.all + [k],
       byQid := s.byQid[b := s.byQid[b] + [k]],
       lastServer := if c.rotate && c.nservers > 0 then (s.lastServer + 1) % c.nservers else s.lastServer,
       count := k + 1)
  }

  lemma CreateRegistered(c: Config, s: State, q: Query)
    requires Registered(s) && s.count !in s.queries && |s.byQid| == QID_TABLE_SIZE
    ensures Registered(Create(c, s, q))
  {
    var t, k := Create(c, s, q), s.count;
    assert k !in s.all;
    forall b | 0 <= b < |s.byQid|
      ensures t.byQid[b] == BucketOf(t.queries, t.all, b)
    {
      assert forall x :: x in s.all ==> SameQid(s.queries, t.queries, x);
      BucketSame(s.queries, t.queries, s.all, b);
      BucketSplit(t.queries, s.all, [k], b);
      assert [k][1..] == [];
    }
  }

  lemma CreateLedger(c: Config, s: State, q: Query)
    requires Ledger(c, s) && |s.byQid| == QID_TABLE_SIZE
    ensures Ledger(c, Create(c, s, q))
  {
  }

  lemma CreateIndexes(c: Config, s: State, q: Query)
    requires |s.byQid| == QID_TABLE_SIZE && TimeIndex(s, {}) && ServerIndex(s, 0, {})
    ensures TimeIndex(Create(c, s, q), {s.count}) && ServerIndex(Create(c, s, q), 0, {s.count})
  {
    var t, k := Create(c, s, q), s.count;
    assert TimeIndex(t, {k}) by {
      forall b, x | 0 <= b < |s.byTimeout| && x !in {k} ensures InTime(t, b, x) {
        assert InTime(s, b, x);
      }
    }
    assert ServerIndex(t, 0, {k}) by {
      forall i, x | 0 <= i < |s.servers| && x !in {k} ensures InServer(t, i, x) {
        assert InServer(s, i, x);
      }
    }
  }

  lemma CreateConnections(c: Config, s: State, q: Query)
    requires |s.byQid| == QID_TABLE_SIZE && Connections(s) && s.count !in s.queries && NoLater(q.gen, s.generation)
    ensures Connections(Create(c, s, q))
  {
    ConnectionsFrame(s, Create(c, s, q));
  }

  lemma CreateKeeps(c: Config, s: State, qid: nat, usingTcp: bool)
    requires Inv(c, s) && c.nservers > 0
    ensures var t := Create(c, s, NewQuery(c, s, qid, usingTcp));
      InvBut(c, t, 0, {s.count}) && Budget(c, t.queries[s.count].(sends := 1))
  {
    var q := NewQuery(c, s, qid, usingTcp);
    assert s.count !in s.queries;
    assert NoLater(q.gen, s.generation);
    hide Registered, Ledger, TimeIndex, ServerIndex, Connections, NoLater;
    CreateRegistered(c, s, q);
    CreateLedger(c, s, q);
    CreateIndexes(c, s, q);
    CreateConnections(c, s, q);
    assert Sound(c, Create(c, s, q), {s.count});
  }

  /** A call of ares_send that makes its callback at once */
  function Refuse(s: State, status: Status): State {
    s.(count := s.count + 1, log := s.log + [Call(s.count, status, 0, 0, 0)])
  }

  lemma RefuseLedger(c: Config, s: State, status: Status)
    requires Ledger(c, s) && (status == BadQuery || status == ServFail)
    ensures Ledger(c, Refuse(s, status))
  {
    assert s.count !in Ids(s.log);
    assert Ids(Refuse(s, status).log) == Ids(s.log) + [s.count];
  }

  lemma RefuseKeeps(c: Config, s: State, status: Status)
    requires Inv(c, s) && (status == BadQuery || status == ServFail)
    ensures Inv(c, Refuse(s, status))
    ensures OnlyConcerns(s, Refuse(s, status), s.count) && CalledBack(s, Refuse(s, status), s.count, status, 0)
  {
    assert Refuse(s, status).log[|s.log|].key == s.count;
    var t := Refuse(s, status);
    RefuseLedger(c, s, status);
    hide Ledger;
    assert Registered(t);
    assert TimeIndex(t, {}) by {
      forall b, x | 0 <= b < |s.byTimeout| ensures InTime(t, b, x) {
        assert InTime(s, b, x);
      }
    }
    assert ServerIndex(t, 0, {}) by {
      forall i, x | 0 <= i < |s.servers| ensures InServer(t, i, x) {
        assert InServer(s, i, x);
      }
    }
    assert Sound(c, t, {});
    ConnectionsFrame(s, t);
  }

  lemma NoEdnsKeeps(c: Config, s: State, w: nat, flux: set<Key>)
    requires InvBut(c, s, w, flux)
    ensures InvBut(c, s.(edns := false), w, flux)
  {
    var t := s.(edns := false);
    assert TimeIndex(t, flux) by {
      forall b, x | 0 <= b < |s.byTimeout| && x !in flux ensures InTime(t, b, x) {
        assert InTime(s, b, x);
      }
    }
    assert ServerIndex(t, w, flux) by {
      forall i, x | 0 <= i < |s.servers| && x !in flux ensures InServer(t, i, x) {
        assert InServer(s, i, x);
      }
    }
    assert Registered(t) && Ledger(c, t) && Sound(c, t, flux);
    ConnectionsFrame(s, t);
  }

  /** All queries but k are as before, and only k's callback may have been made. */
  ghost predicate OnlyConcerns(s: State, t: State, k: Key) {
    && (forall x :: x in s.queries && x != k ==> Untouched(s, t, x))
    && (forall x :: x in t.queries && x != k ==> x in s.queries)
    && |s.log| <= |t.log| && t.log[..|s.log|] == s.log
    && (forall i :: |s.log| <= i < |t.log| ==> t.log[i].key == k)
  }

  lemma MovedConcerns(s: State, s1: State, t: State, k: Key, now: Time)
    requires s1.queries - {k} == s.queries - {k} && s1.log == s.log && k in s1.queries && Moved(s1, t, k, now)
    ensures OnlyConcerns(s, t, k) && |t.log| <= |s.log| + 1
    ensures k in t.queries ==> t.log == s.log && !TimedOut(now, t.queries[k].timeout)
    ensures k !in t.queries ==> CalledBack(s, t, k, s1.queries[k].status, s1.queries[k].timeouts)
  {
    forall x | x != k
      ensures x in s.queries <==> x in t.queries
      ensures x in s.queries ==> t.queries[x] == s.queries[x]
    {
      assert x in t.queries - {k} <==> x in s.queries - {k};
      if x in s.queries {
        assert (t.queries - {k})[x] == (s.queries - {k})[x];
      }
    }
    if k !in t.queries {
      assert t.log[|s.log|].key == k;
    }
  }
}
