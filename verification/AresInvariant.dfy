/**
 How the four lists of a c-ares channel agree, and that each move of the query engine
 keeps them in agreement (c-ares/ares_process.c, ares_send.c).
 */
module AresInvariant {
  import opened Options
  import opened AresState

  function Attempts(c: Config): int {
    c.nservers * c.tries
  }

  function AtLeastOne(n: int): (m: nat)
    ensures m >= 1 && m >= n && (m == 1 || m == n)
  {
    if n < 1 then 1 else n
  }

  function One(b: bool): nat {
    if b then 1 else 0
  }

  // ----- the invariant

  /** The queries of q whose id falls in bucket b of queries_by_qid. */
  function BucketOf(m: map<Key, Query>, q: seq<Key>, b: nat): seq<Key> {
    if q == [] then [] else
      (if q[0] in m && m[q[0]].qid % QID_TABLE_SIZE == b then [q[0]] else []) + BucketOf(m, q[1..], b)
  }

  ghost predicate Shape(c: Config, s: State) {
    |s.byQid| == QID_TABLE_SIZE && |s.byTimeout| == TIMEOUT_TABLE_SIZE && |s.servers| == c.nservers
  }

  ghost predicate Registered(s: State) {
    && NoDup(s.all)
    && (forall k :: k in s.all <==> k in s.queries)
    && (forall b :: 0 <= b < |s.byQid| ==> s.byQid[b] == BucketOf(s.queries, s.all, b))
  }

  ghost predicate InTime(s: State, b: nat, k: Key)
    requires b < |s.byTimeout|
  {
    k in s.byTimeout[b] <==> k in s.queries && TimeBucket(s.queries[k].timeout) == b
  }

  ghost predicate TimeIndex(s: State, flux: set<Key>) {
    && (forall b :: 0 <= b < |s.byTimeout| ==> NoDup(s.byTimeout[b]))
    && (forall b, k :: 0 <= b < |s.byTimeout| && k !in flux ==> InTime(s, b, k))
  }

  ghost predicate InServer(s: State, i: nat, k: Key)
    requires i < |s.servers|
  {
    k in s.servers[i].queries <==> k in s.queries && s.queries[k].server == i && k !in s.stolen
  }

  /** Every query is in the list of its server, or in the list handle_error took from server w. */
  ghost predicate ServerIndex(s: State, w: nat, flux: set<Key>) {
    && (forall i :: 0 <= i < |s.servers| ==> NoDup(s.servers[i].queries))
    && (forall i, k :: 0 <= i < |s.servers| && k !in flux ==> InServer(s, i, k))
    && NoDup(s.stolen)
    && (forall k :: k in s.stolen && k !in flux ==> k in s.queries && s.queries[k].server == w)
  }

  /** How often the query was sent is bounded by its tries, one TCP upgrade and one EDNS fallback. */
  ghost predicate Budget(c: Config, q: Query) {
    && q.server < c.nservers && |q.skip| == |q.gen| == c.nservers
    && q.tryCount < AtLeastOne(Attempts(c))
    && q.sends <= 1 + q.tryCount + One(q.upgraded) + One(q.fellBack)
    && (q.upgraded ==> q.usingTcp)
    && (q.status == Timeout || q.status == ConnRefused)
  }

  ghost predicate Due(s: State, q: Query) {
    Proper(q.timeout) && q.timeout.sec > 0 && q.timeout.sec >= s.last
  }

  ghost predicate Sound(c: Config, s: State, flux: set<Key>) {
    && (forall k :: k in s.queries && k !in flux ==> Budget(c, s.queries[k]) && Due(s, s.queries[k]))
    && (s.edns ==> forall k :: k in s.queries ==> !s.queries[k].fellBack)
    && (s.servers != [] ==> s.lastServer < |s.servers|)
    && s.last >= 0
  }

  function Ids(log: seq<Call>): (r: seq<Key>)
    ensures |r| == |log| && forall i :: 0 <= i < |log| ==> r[i] == log[i].key
  {
    seq(|log|, i requires 0 <= i < |log| => log[i].key)
  }

  /** Every call of ares_send is still active, or has had its callback, exactly once. */
  ghost predicate Ledger(c: Config, s: State) {
    && NoDup(Ids(s.log))
    && (forall k :: k in s.queries ==> k < s.count && k !in Ids(s.log))
    && (forall k :: k in Ids(s.log) ==> k < s.count)
    && (forall k: Key :: k < s.count ==> k in s.queries || k in Ids(s.log))
    && (forall i :: 0 <= i < |s.log| ==> s.log[i].sends <= AtLeastOne(Attempts(c)) + 2 && Earned(c, s.log[i]))
  }

  /** A query fails for want of a server only when every server has had all its attempts. */
  ghost predicate Earned(c: Config, call: Call) {
    call.status == Timeout || call.status == ConnRefused ==> call.tries >= c.nservers * c.tries
  }

  /** The request queued at place j of server i points into the buffer of an active query, or has its own. */
  ghost predicate OwnerActive(s: State, i: nat, j: nat)
    requires i < |s.servers| && j < |s.servers[i].sendq|
  {
    s.servers[i].sendq[j].Some? ==> s.servers[i].sendq[j].value in s.queries
  }

  ghost predicate NoDangling(s: State) {
    forall i, j :: 0 <= i < |s.servers| && 0 <= j < |s.servers[i].sendq| ==> OwnerActive(s, i, j)
  }

  ghost predicate NoLater(gen: seq<int>, g: int) {
    forall i :: 0 <= i < |gen| ==> gen[i] <= g
  }

  /** Connections are numbered from 1, and none has a number that is still to be given out. */
  ghost predicate Generations(s: State) {
    && s.generation >= 0
    && (forall i :: 0 <= i < |s.servers| ==> 0 < s.servers[i].generation <= s.generation)
    && (forall k :: k in s.queries ==> NoLater(s.queries[k].gen, s.generation))
  }

  ghost predicate Connections(s: State) {
    NoDangling(s) && Generations(s)
  }

  /** The agreement, except for how the queries in flux are linked by timeout and server. */
  ghost predicate InvBut(c: Config, s: State, w: nat, flux: set<Key>) {
    && Shape(c, s) && Registered(s) && TimeIndex(s, flux) && ServerIndex(s, w, flux) && Sound(c, s, flux) && Ledger(c, s)
    && Connections(s)
  }

  /** A server whose connections are closed and that has nothing to send */
  predicate Shut(v: Server) {
    !v.broken && !v.tcpOpen && !v.udpOpen && v.sendq == []
  }

  /** Unless they are to stay open, sockets are open only while there are queries. */
  ghost predicate Quiet(c: Config, s: State) {
    !c.stayopen && s.all == [] ==> forall i :: 0 <= i < |s.servers| ==> Shut(s.servers[i])
  }

  /** The agreement that holds between API calls. */
  ghost predicate Inv(c: Config, s: State) {
    InvBut(c, s, 0, {}) && s.stolen == [] && Quiet(c, s)
  }

  ghost predicate Sane(c: Config) {
    0 < c.timeout < Pow2(31)
  }

  ghost predicate ClockOk(s: State, now: Time) {
    Proper(now) && now.sec > 0 && now.sec >= s.last
  }

  // ----- what a move of one query may change

  ghost predicate Rebucketed(was: seq<Key>, now: seq<Key>, k: Key) {
    now == Drop(was, k) || now == Drop(was, k) + [k]
  }

  ghost predicate TimeMoved(s: State, t: State, k: Key) {
    |t.byTimeout| == |s.byTimeout| && forall b :: 0 <= b < |s.byTimeout| ==> Rebucketed(s.byTimeout[b], t.byTimeout[b], k)
  }

  /** Everything but query k keeps its fields and its place among the others. */
  ghost predicate Aside(s: State, t: State, k: Key) {
    && t.queries - {k} == s.queries - {k}
    && t.stolen == Drop(s.stolen, k)
    && t.last == s.last && t.count == s.count && t.edns == s.edns && t.lastServer == s.lastServer
    && TimeMoved(s, t, k)
  }

  /** k was sent again and waits until after now, or it ended, was freed and had its callback. */
  ghost predicate Outcome(s: State, t: State, k: Key, now: Time)
    requires k in s.queries
  {
    var q := s.queries[k];
    if k in t.queries then
      var r := t.queries[k];
      && !TimedOut(now, r.timeout) && t.log == s.log
      && r.qid == q.qid && r.timeouts == q.timeouts && r.status == q.status && r.usingTcp == q.usingTcp
      && r.upgraded == q.upgraded && r.fellBack == q.fellBack && r.tryCount >= q.tryCount && r.sends >= q.sends
    else
      |t.log| == |s.log| + 1 && t.log[..|s.log|] == s.log
      && t.log[|s.log|].key == k && t.log[|s.log|].status == q.status && t.log[|s.log|].timeouts == q.timeouts
  }

  ghost predicate Moved(s: State, t: State, k: Key, now: Time)
    requires k in s.queries
  {
    Aside(s, t, k) && Outcome(s, t, k, now)
  }

  // ----- filtering

  lemma {:induction false} BucketIs(m: map<Key, Query>, q: seq<Key>, b: nat)
    ensures forall k :: k in BucketOf(m, q, b) <==> k in q && k in m && m[k].qid % QID_TABLE_SIZE == b
    ensures NoDup(q) ==> NoDup(BucketOf(m, q, b))
  {
    if q != [] {
      BucketIs(m, q[1..], b);
      assert q == [q[0]] + q[1..];
      if NoDup(q) {
        assert q[0] !in q[1..];
      }
    }
  }

  ghost predicate SameQid(m: map<Key, Query>, n: map<Key, Query>, k: Key) {
    (k in m <==> k in n) && (k in m ==> m[k].qid == n[k].qid)
  }

  lemma {:induction false} BucketSame(m: map<Key, Query>, n: map<Key, Query>, q: seq<Key>, b: nat)
    requires forall k :: k in q ==> SameQid(m, n, k)
    ensures BucketOf(m, q, b) == BucketOf(n, q, b)
  {
    if q != [] {
      assert q[0] in q && forall k :: k in q[1..] ==> k in q;
      BucketSame(m, n, q[1..], b);
    }
  }

  lemma {:induction false} BucketSplit(m: map<Key, Query>, p: seq<Key>, q: seq<Key>, b: nat)
    ensures BucketOf(m, p + q, b) == BucketOf(m, p, b) + BucketOf(m, q, b)
  {
    if p == [] {
      assert p + q == q;
    } else {
      assert (p + q)[1..] == p[1..] + q;
      BucketSplit(m, p[1..], q, b);
    }
  }

  lemma {:induction false} BucketDrop(m: map<Key, Query>, q: seq<Key>, k: Key, b: nat)
    ensures Drop(BucketOf(m, q, b), k) == BucketOf(m - {k}, Drop(q, k), b)
  {
    if q != [] {
      BucketDrop(m, q[1..], k, b);
      var hd := if q[0] in m && m[q[0]].qid % QID_TABLE_SIZE == b then [q[0]] else [];
      DropSplit(hd, BucketOf(m, q[1..], b), k);
      if q[0] != k {
        assert ([q[0]] + Drop(q[1..], k))[1..] == Drop(q[1..], k);
      }
    }
  }

  // ----- each part of the invariant under a single move

  lemma SetKeepsRegistered(s: State, k: Key, q: Query)
    requires Registered(s) && k in s.queries && q.qid == s.queries[k].qid
    ensures Registered(SetQuery(s, k, q))
  {
    var t := SetQuery(s, k, q);
    forall b | 0 <= b < |s.byQid|
      ensures t.byQid[b] == BucketOf(t.queries, t.all, b)
    {
      assert forall x :: x in s.all ==> SameQid(s.queries, t.queries, x);
      BucketSame(s.queries, t.queries, s.all, b);
    }
  }

  lemma FreeKeepsRegistered(s: State, k: Key)
    requires Registered(s) && k in s.queries
    ensures Registered(Free(s, k))
  {
    var t := Free(s, k);
    DropIs(s.all, k);
    forall b | 0 <= b < |s.byQid|
      ensures t.byQid[b] == BucketOf(t.queries, t.all, b)
    {
      BucketDrop(s.queries, s.all, k, b);
    }
  }

  lemma FreeKeepsTimes(s: State, k: Key, flux: set<Key>)
    requires TimeIndex(s, flux + {k})
    ensures TimeIndex(Free(s, k), flux) && TimeMoved(s, Free(s, k), k)
  {
    forall b | 0 <= b < |s.byTimeout| {
      DropIs(s.byTimeout[b], k);
    }
    forall b, x | 0 <= b < |s.byTimeout| && x !in flux
      ensures InTime(Free(s, k), b, x)
    {
      assert x != k ==> InTime(s, b, x);
      DropIs(s.byTimeout[b], k);
    }
  }

  lemma FreeKeepsServers(s: State, w: nat, k: Key, flux: set<Key>)
    requires ServerIndex(s, w, flux + {k})
    ensures ServerIndex(Free(s, k), w, flux)
  {
    DropIs(s.stolen, k);
    forall i | 0 <= i < |s.servers| {
      DropIs(s.servers[i].queries, k);
    }
    forall i, x | 0 <= i < |s.servers| && x !in flux
      ensures InServer(Free(s, k), i, x)
    {
      assert x != k ==> InServer(s, i, x);
      DropIs(s.servers[i].queries, k);
    }
  }

  lemma RejoinIs(q: seq<Key>, k: Key)
    requires NoDup(q)
    ensures NoDup(Drop(q, k)) && NoDup(Drop(q, k) + [k])
  {
    DropIs(q, k);
    assert k !in Drop(q, k);
  }

  lemma ArmKeepsTimes(s: State, k: Key, now: Time, ms: nat)
    requires k in s.queries && |s.byTimeout| == TIMEOUT_TABLE_SIZE && s.queries[k].server < |s.servers|
    requires TimeIndex(s, {k})
    ensures TimeIndex(Arm(s, k, now, ms), {}) && TimeMoved(s, Arm(s, k, now, ms), k)
  {
    var t := Arm(s, k, now, ms);
    forall b | 0 <= b < |s.byTimeout|
      ensures NoDup(t.byTimeout[b])
    {
      RejoinIs(s.byTimeout[b], k);
    }
    forall b, x | 0 <= b < |s.byTimeout|
      ensures InTime(t, b, x)
    {
      assert x != k ==> InTime(s, b, x);
      DropIs(s.byTimeout[b], k);
    }
  }

  lemma ArmKeepsServers(s: State, w: nat, k: Key, now: Time, ms: nat)
    requires k in s.queries && |s.byTimeout| == TIMEOUT_TABLE_SIZE && s.queries[k].server < |s.servers|
    requires ServerIndex(s, w, {k})
    ensures ServerIndex(Arm(s, k, now, ms), w, {})
  {
    var t := Arm(s, k, now, ms);
    DropIs(s.stolen, k);
    forall i | 0 <= i < |s.servers|
      ensures NoDup(t.servers[i].queries)
    {
      RejoinIs(s.servers[i].queries, k);
    }
    forall i, x | 0 <= i < |s.servers|
      ensures InServer(t, i, x)
    {
      assert x != k ==> InServer(s, i, x);
      DropIs(s.servers[i].queries, k);
    }
  }

  // ----- the moves

  /** Between its first step and its end, one query at a time is in flux. */
  lemma Unsettle(c: Config, s: State, w: nat, k: Key)
    requires InvBut(c, s, w, {})
    ensures InvBut(c, s, w, {k})
  {
    hide Shape, Registered, Ledger, Connections;
    assert TimeIndex(s, {k});
    assert ServerIndex(s, w, {k});
    assert Sound(c, s, {k});
  }

  /** Changing the fields of a query in flux. */
  lemma SetKeeps(c: Config, s: State, w: nat, k: Key, q: Query)
    requires InvBut(c, s, w, {k}) && k in s.queries
    requires q.qid == s.queries[k].qid && (s.edns ==> !q.fellBack)
    requires q.gen == s.queries[k].gen || NoLater(q.gen, s.generation)
    ensures InvBut(c, SetQuery(s, k, q), w, {k})
  {
    var t := SetQuery(s, k, q);
    SetKeepsRegistered(s, k, q);
    assert TimeIndex(t, {k}) by {
      forall b, x | 0 <= b < |s.byTimeout| && x !in {k}
        ensures InTime(t, b, x)
      {
        assert InTime(s, b, x);
      }
    }
    assert ServerIndex(t, w, {k}) by {
      forall i, x | 0 <= i < |s.servers| && x !in {k}
        ensures InServer(t, i, x)
      {
        assert InServer(s, i, x);
      }
    }
    assert Sound(c, t, {k});
    assert Ledger(c, t);
    ConnectionsFrame(s, t);
  }

  lemma ConnectionsFrame(s: State, t: State)
    requires Connections(s) && s.queries.Keys <= t.queries.Keys && s.generation <= t.generation
    requires |t.servers| == |s.servers| && forall i :: 0 <= i < |s.servers| ==> t.servers[i].sendq == s.servers[i].sendq
    requires forall i :: 0 <= i < |s.servers| ==>
      t.servers[i].generation == s.servers[i].generation || 0 < t.servers[i].generation <= t.generation
    requires forall k :: k in t.queries ==>
      (k in s.queries && t.queries[k].gen == s.queries[k].gen) || NoLater(t.queries[k].gen, t.generation)
    ensures Connections(t)
  {
    forall k | k in t.queries
      ensures NoLater(t.queries[k].gen, t.generation)
    {
      assert k in s.queries ==> NoLater(s.queries[k].gen, s.generation);
    }
    forall i, j | 0 <= i < |t.servers| && 0 <= j < |t.servers[i].sendq|
      ensures OwnerActive(t, i, j)
    {
      assert OwnerActive(s, i, j);
    }
  }

  ghost predicate SameLists(a: seq<Server>, b: seq<Server>) {
    |a| == |b| && forall i :: 0 <= i < |a| ==> a[i].queries == b[i].queries
  }

  /** Sockets, broken flags and send queues are not part of the agreement. */
  lemma ServersKeep(c: Config, s: State, w: nat, flux: set<Key>, servers: seq<Server>, g: int)
    requires InvBut(c, s, w, flux) && SameLists(s.servers, servers)
    requires Connections(s.(servers := servers, generation := g))
    ensures InvBut(c, s.(servers := servers, generation := g), w, flux)
  {
    var t := s.(servers := servers, generation := g);
    assert TimeIndex(t, flux) by {
      forall b, x | 0 <= b < |s.byTimeout| && x !in flux
        ensures InTime(t, b, x)
      {
        assert InTime(s, b, x);
      }
    }
    assert ServerIndex(t, w, flux) by {
      forall i, x | 0 <= i < |s.servers| && x !in flux
        ensures InServer(t, i, x)
      {
        assert InServer(s, i, x);
      }
    }
    assert Registered(t) && Ledger(c, t) && Sound(c, t, flux);
  }

  /** A query that was sent is linked where its new timeout and server say. */
  lemma ArmSettles(c: Config, s: State, w: nat, k: Key, now: Time, ms: nat)
    requires InvBut(c, s, w, {k}) && k in s.queries && Budget(c, s.queries[k])
    requires ClockOk(s, now) && ms > 0
    ensures InvBut(c, Arm(s, k, now, ms), w, {})
    ensures Moved(s, Arm(s, k, now, ms), k, now)
  {
    ArmSound(c, s, k, now, ms);
    var t := Arm(s, k, now, ms);
    assert Connections(t) by {
      ConnectionsFrame(s, t);
    }
    hide Sound, Connections, Ledger, Outcome, TimeMoved;
    ArmKeepsTimes(s, k, now, ms);
    ArmKeepsServers(s, w, k, now, ms);
    SetKeepsRegistered(s, k, t.queries[k]);
    assert t.queries - {k} == s.queries - {k};
    hide TimeIndex, ServerIndex, Registered, NoDup;
  }

  lemma ArmSound(c: Config, s: State, k: Key, now: Time, ms: nat)
    requires k in s.queries && Budget(c, s.queries[k]) && |s.byTimeout| == TIMEOUT_TABLE_SIZE && s.queries[k].server < |s.servers|
    requires Sound(c, s, {k}) && Ledger(c, s) && ClockOk(s, now) && ms > 0
    ensures Sound(c, Arm(s, k, now, ms), {}) && Ledger(c, Arm(s, k, now, ms)) && Outcome(s, Arm(s, k, now, ms), k, now)
  {
    TimeAddExact(now, ms);
  }

  lemma LogOnce(c: Config, s: State, t: State, k: Key, call: Call)
    requires Ledger(c, s) && k in s.queries && call.key == k && call.sends <= AtLeastOne(Attempts(c)) + 2 && Earned(c, call)
    requires t.log == s.log + [call] && t.queries == s.queries - {k} && t.count == s.count
    ensures Ledger(c, t)
  {
    assert Ids(t.log) == Ids(s.log) + [k];
  }

  lemma LogAside(s: State, w: nat, flux: set<Key>, log: seq<Call>)
    requires TimeIndex(s, flux) && ServerIndex(s, w, flux)
    ensures TimeIndex(s.(log := log), flux) && ServerIndex(s.(log := log), w, flux)
  {
    var t := s.(log := log);
    forall b, x | 0 <= b < |s.byTimeout| && x !in flux
      ensures InTime(t, b, x)
    {
      assert InTime(s, b, x);
    }
    forall i, x | 0 <= i < |s.servers| && x !in flux
      ensures InServer(t, i, x)
    {
      assert InServer(s, i, x);
    }
  }

  lemma FreeSettles(c: Config, s: State, w: nat, k: Key, call: Call)
    requires InvBut(c, s, w, {k}) && k in s.queries && Disowned(s, k)
    requires call.key == k && call.sends <= AtLeastOne(Attempts(c)) + 2 && Earned(c, call)
    ensures InvBut(c, Free(s.(log := s.log + [call]), k), w, {})
    ensures Aside(s, Free(s.(log := s.log + [call]), k), k)
  {
    var s1 := s.(log := s.log + [call]);
    var t := Free(s1, k);
    ConnectionsFrame(s, s1);
    FreeConnections(s1, k);
    hide Connections;
    assert {} + {k} == {k};
    LogAside(s, w, {k}, s1.log);
    FreeKeepsTimes(s1, k, {});
    FreeKeepsServers(s1, w, k, {});
    FreeKeepsRegistered(s1, k);
    LogOnce(c, s, t, k, call);
    assert t.queries - {k} == s.queries - {k};
    hide TimeIndex, ServerIndex, Registered, Ledger;
    assert Sound(c, t, {});
  }

  /** No queued request points into the query's buffer. */
  ghost predicate Disowned(s: State, k: Key) {
    forall i, j :: 0 <= i < |s.servers| && 0 <= j < |s.servers[i].sendq| ==> s.servers[i].sendq[j] != Some(k)
  }

  lemma FreeConnections(s: State, k: Key)
    requires Connections(s) && Disowned(s, k)
    ensures Connections(Free(s, k))
  {
    var t := Free(s, k);
    forall i, j | 0 <= i < |t.servers| && 0 <= j < |t.servers[i].sendq|
      ensures OwnerActive(t, i, j)
    {
      assert OwnerActive(s, i, j);
    }
  }

  lemma DisownConnections(s: State, k: Key, failed: bool)
    requires Connections(s)
    ensures var t := s.(servers := Disown(s.servers, k, failed)); Connections(t) && Disowned(t, k)
  {
    var t := s.(servers := Disown(s.servers, k, failed));
    forall i, j | 0 <= i < |t.servers| && 0 <= j < |t.servers[i].sendq|
      ensures OwnerActive(t, i, j) && t.servers[i].sendq[j] != Some(k)
    {
      assert OwnerActive(s, i, j);
    }
  }

  lemma CloseConnections(s: State, t: State)
    requires Connections(s) && t == s.(servers := t.servers, generation := t.generation) && |t.servers| == |s.servers|
    requires forall i :: 0 <= i < |s.servers| ==> t.servers[i].sendq == s.servers[i].sendq || t.servers[i].sendq == []
    requires s.generation <= t.generation && forall i :: 0 <= i < |s.servers| ==>
      t.servers[i].generation == s.servers[i].generation || s.generation < t.servers[i].generation <= t.generation
    ensures Connections(t)
  {
    forall k | k in t.queries
      ensures NoLater(t.queries[k].gen, t.generation)
    {
      assert NoLater(s.queries[k].gen, s.generation);
    }
    forall i, j | 0 <= i < |t.servers| && 0 <= j < |t.servers[i].sendq|
      ensures OwnerActive(t, i, j)
    {
      assert OwnerActive(s, i, j);
    }
  }

  /** An ended query is in no list, and its callback has been called. */
  lemma EndSettles(c: Config, s: State, w: nat, k: Key, status: Status)
    requires InvBut(c, s, w, {k}) && k in s.queries && s.queries[k].sends <= AtLeastOne(Attempts(c)) + 2
    requires Earned(c, CallOf(k, s.queries[k], status))
    ensures InvBut(c, End(c, s, k, status), w, {})
    ensures Aside(s, End(c, s, k, status), k) && k !in End(c, s, k, status).queries
    ensures Disowned(End(c, s, k, status), k)
    ensures End(c, s, k, status).log == s.log + [CallOf(k, s.queries[k], status)]
  {
    hide InvBut, Aside, Connections, Disowned;
    var t := End(c, s, k, status);
    var call := CallOf(k, s.queries[k], status);
    var s1 := s.(servers := Disown(s.servers, k, status != Success));
    assert Connections(s1) && Disowned(s1, k) by {
      ConnectionsPart(c, s, w, {k});
      DisownConnections(s, k, status != Success);
    }
    ServersKeep(c, s, w, {k}, s1.servers, s.generation);
    assert s1 == s.(servers := s1.servers, generation := s.generation);
    FreeSettles(c, s1, w, k, call);
    var s2 := Free(s1.(log := s1.log + [call]), k);
    ConnectionsPart(c, s2, w, {});
    CloseConnections(s2, t);
    ServersKeep(c, s2, w, {}, t.servers, t.generation);
    assert t == s2.(servers := t.servers, generation := t.generation);
    AsideAgain(s, s1, s2, t, k);
    GoneDisowned(t, k);
  }

  lemma GoneDisowned(s: State, k: Key)
    requires Connections(s) && k !in s.queries
    ensures Disowned(s, k)
  {
    forall i, j | 0 <= i < |s.servers| && 0 <= j < |s.servers[i].sendq|
      ensures s.servers[i].sendq[j] != Some(k)
    {
      assert OwnerActive(s, i, j);
    }
  }

  lemma ConnectionsPart(c: Config, s: State, w: nat, flux: set<Key>)
    requires InvBut(c, s, w, flux)
    ensures Connections(s)
  {
  }

  lemma EndKeepsShut(c: Config, s: State, k: Key, status: Status, i: nat)
    requires k in s.queries && i < |s.servers| && Shut(s.servers[i])
    ensures |End(c, s, k, status).servers| == |s.servers| && Shut(End(c, s, k, status).servers[i])
  {
    var s1 := s.(servers := Disown(s.servers, k, status != Success), log := s.log + [CallOf(k, s.queries[k], status)]);
    CloseFromKeepsShut(Free(s1, k), 0, i);
  }

  /** A queued request of a failed query breaks its connection, so that no part of it is followed by other requests. */
  ghost predicate Breaks(s: State, t: State, k: Key, failed: bool) {
    |t.servers| == |s.servers| && forall i :: 0 <= i < |s.servers| ==>
      (t.all == [] && Shut(t.servers[i])) || t.servers[i].broken == (s.servers[i].broken || (failed && Some(k) in s.servers[i].sendq))
  }

  lemma EndBreaks(c: Config, s: State, k: Key, status: Status)
    requires k in s.queries
    ensures Breaks(s, End(c, s, k, status), k, status != Success) && Quiet(c, End(c, s, k, status))
  {
    var s1 := s.(servers := Disown(s.servers, k, status != Success), log := s.log + [CallOf(k, s.queries[k], status)]);
    var s2 := Free(s1, k);
    forall i | 0 <= i < |s.servers|
      ensures Shut(CloseFrom(s2, 0).servers[i])
    {
      CloseFromShuts(s2, 0, i);
    }
  }

  lemma {:induction false} CloseFromShuts(s: State, from: nat, i: nat)
    requires from <= i < |s.servers|
    ensures Shut(CloseFrom(s, from).servers[i])
    decreases |s.servers| - from
  {
    if from == i {
      CloseFromKeepsShut(CloseServer(s, from), from + 1, i);
    } else {
      CloseFromShuts(CloseServer(s, from), from + 1, i);
    }
  }

  lemma {:induction false} CloseFromKeepsShut(s: State, from: nat, i: nat)
    requires from <= |s.servers| && i < |s.servers| && Shut(s.servers[i])
    ensures Shut(CloseFrom(s, from).servers[i])
    decreases |s.servers| - from
  {
    if from < |s.servers| {
      CloseFromKeepsShut(CloseServer(s, from), from + 1, i);
    }
  }

  lemma AsideAgain(s: State, s1: State, t1: State, t: State, k: Key)
    requires Aside(s1, t1, k)
    requires s1 == s.(servers := s1.servers) && t == t1.(servers := t.servers, generation := t.generation)
    ensures Aside(s, t, k)
  {
    assert forall b :: 0 <= b < |s.byTimeout| ==> Rebucketed(s1.byTimeout[b], t1.byTimeout[b], k);
  }

  // ----- what the invariant says

  ghost predicate OnceIn(q: seq<Key>, k: Key) {
    exists i :: 0 <= i < |q| && q[i] == k && forall j :: 0 <= j < |q| && j != i ==> q[j] != k
  }

  lemma NoDupOnce(q: seq<Key>, k: Key)
    requires NoDup(q) && k in q
    ensures OnceIn(q, k)
  {
    var i :| 0 <= i < |q| && q[i] == k;
    assert forall j :: 0 <= j < |q| && j != i ==> q[j] != k;
  }

  /** Between calls every active query is linked once in each kind of list, and only there. */
  lemma LinkedOnce(c: Config, s: State, k: Key)
    requires Inv(c, s) && k in s.queries
    ensures OnceIn(s.all, k)
    ensures forall b :: 0 <= b < QID_TABLE_SIZE ==>
      if b == s.queries[k].qid % QID_TABLE_SIZE then OnceIn(s.byQid[b], k) else k !in s.byQid[b]
    ensures forall b :: 0 <= b < TIMEOUT_TABLE_SIZE ==>
      if b == s.queries[k].timeout.sec % TIMEOUT_TABLE_SIZE then OnceIn(s.byTimeout[b], k) else k !in s.byTimeout[b]
    ensures s.queries[k].server < c.nservers
    ensures forall i :: 0 <= i < c.nservers ==>
      if i == s.queries[k].server then OnceIn(s.servers[i].queries, k) else k !in s.servers[i].queries
  {
    hide OnceIn;
    NoDupOnce(s.all, k);
    forall b | 0 <= b < QID_TABLE_SIZE
      ensures if b == s.queries[k].qid % QID_TABLE_SIZE then OnceIn(s.byQid[b], k) else k !in s.byQid[b]
    {
      BucketIs(s.queries, s.all, b);
      if k in s.byQid[b] {
        NoDupOnce(s.byQid[b], k);
      }
    }
    forall b | 0 <= b < TIMEOUT_TABLE_SIZE
      ensures if b == s.queries[k].timeout.sec % TIMEOUT_TABLE_SIZE then OnceIn(s.byTimeout[b], k) else k !in s.byTimeout[b]
    {
      assert InTime(s, b, k);
      if k in s.byTimeout[b] {
        NoDupOnce(s.byTimeout[b], k);
      }
    }
    forall i | 0 <= i < c.nservers
      ensures if i == s.queries[k].server then OnceIn(s.servers[i].queries, k) else k !in s.servers[i].queries
    {
      assert InServer(s, i, k);
      if k in s.servers[i].queries {
        NoDupOnce(s.servers[i].queries, k);
      }
    }
  }

  /** Nothing else is in a list: an entry of any list is an active query. */
  lemma NothingElseLinked(c: Config, s: State, k: Key)
    requires Inv(c, s) && k !in s.queries
    ensures k !in s.all
    ensures forall b :: 0 <= b < QID_TABLE_SIZE ==> k !in s.byQid[b]
    ensures forall b :: 0 <= b < TIMEOUT_TABLE_SIZE ==> k !in s.byTimeout[b]
    ensures forall i :: 0 <= i < c.nservers ==> k !in s.servers[i].queries
  {
    forall b | 0 <= b < QID_TABLE_SIZE
      ensures k !in s.byQid[b]
    {
      BucketIs(s.queries, s.all, b);
    }
    forall b | 0 <= b < TIMEOUT_TABLE_SIZE
      ensures k !in s.byTimeout[b]
    {
      assert InTime(s, b, k);
    }
    forall i | 0 <= i < c.nservers
      ensures k !in s.servers[i].queries
    {
      assert InServer(s, i, k);
    }
  }

  /**
   A query gets its callback once, when it stops being active, and ares__send_query was called for
   it at most max(1, nservers * tries) + 2 times.
   */
  lemma CalledBackOnce(c: Config, s: State, k: Key)
    requires Inv(c, s) && k < s.count
    ensures k in s.queries ==> k !in Ids(s.log)
    ensures k !in s.queries ==> OnceIn(Ids(s.log), k)
    ensures k in s.queries ==> s.queries[k].sends <= AtLeastOne(c.nservers * c.tries) + 2
    ensures forall i :: 0 <= i < |s.log| && s.log[i].key == k ==>
      && s.log[i].sends <= AtLeastOne(c.nservers * c.tries) + 2
      && (s.log[i].status == Timeout || s.log[i].status == ConnRefused ==> s.log[i].tries >= c.nservers * c.tries)
  {
    assert forall i :: 0 <= i < |s.log| ==> Earned(c, s.log[i]);
    hide OnceIn;
    if k !in s.queries {
      NoDupOnce(Ids(s.log), k);
    }
  }
}
