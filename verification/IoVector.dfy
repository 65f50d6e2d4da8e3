/**
 Vectored writes of State Threads (st-1.9/io.c): whatever part of a request the system accepts
 each time, no byte is lost, repeated or reordered.
 */
module IoVector {
  import opened Octets

  const LOCAL_MAXIOV := 16

  /** What a system call returned: bytes accepted, or one of the errors that are told apart */
  datatype Outcome = Accepted(n: nat) | Interrupted | NotReady | Failed

  /** A system call for writing: what had been sent before it, and the bytes it offers */
  datatype Offer = Offer(sent: seq<Byte>, bytes: seq<Byte>)

  datatype Log = Log(sent: seq<Byte>, offers: seq<Offer>, refusals: nat, calls: nat)

  /**
   A file descriptor; calls is how many more system calls the run that is looked at makes. History: the calls made
   so far, and how often one of them failed or the wait for the socket did.
   */
  class Socket {
    ghost var sent: seq<Byte>
    ghost var offers: seq<Offer>
    ghost var refusals: nat
    var calls: nat

    ghost function Now(): Log
      reads this
    {
      Log(sent, offers, refusals, calls)
    }

    constructor (calls: nat)
      ensures Now() == Log([], [], 0, calls)
    {
      this.calls := calls;
      sent, offers, refusals := [], [], 0;
    }

    /** write or writev: the system accepts some of the bytes, from the first on. */
    method Write(ghost bytes: seq<Byte>, length: nat) returns (r: Outcome)
      requires calls > 0 && length == |bytes|
      modifies this
      ensures calls == old(calls) - 1 && offers == old(offers) + [Offer(old(sent), bytes)]
      ensures r.Accepted? ==> r.n <= |bytes| && sent == old(sent) + bytes[..r.n]
      ensures !r.Accepted? ==> sent == old(sent)
      ensures refusals == if r == Failed then old(refusals) + 1 else old(refusals)
    {
      calls := calls - 1;
      offers := offers + [Offer(sent, bytes)];
      var accepts: bool, n: nat, error: bool, busy: bool := *, *, *, *;
      if accepts {
        n := if n <= length then n else length;
        sent := sent + bytes[..n];
        return Accepted(n);
      }
      r := if error then Failed else if busy then NotReady else Interrupted;
      refusals := if error then refusals + 1 else refusals;
    }

    /** st_netfd_poll: waits until the socket becomes writable; false after a timeout or an interrupt. */
    method Poll() returns (ready: bool)
      modifies this`refusals
      ensures refusals == if ready then old(refusals) else old(refusals) + 1
    {
      ready := *;
      refusals := if ready then refusals else refusals + 1;
    }
  }

  /** Each call from this one on has offered exactly the bytes that had not been sent then. */
  ghost predicate Offered(offers: seq<Offer>, from: nat, before: seq<Byte>, all: seq<Byte>) {
    from <= |offers| && forall i :: from <= i < |offers| ==> Conserved(before, offers[i].sent, all, offers[i].bytes)
  }

  /** From a to b nothing was refused, each call has offered all that was left, and this is left now. */
  ghost predicate OnCourse(a: Log, b: Log, all: seq<Byte>, left: seq<Byte>) {
    && a.offers <= b.offers && |b.offers| + b.calls == |a.offers| + a.calls && b.refusals == a.refusals
    && Offered(b.offers, |a.offers|, a.sent, all) && Conserved(a.sent, b.sent, all, left)
  }

  /**
   How a function that writes all these bytes ends: with -1 exactly if something was refused; otherwise with total and
   all bytes sent, unless the run of calls that is looked at is over.
   */
  ghost predicate Written(a: Log, b: Log, all: seq<Byte>, r: Result, total: int) {
    && a.offers <= b.offers && |b.offers| + b.calls == |a.offers| + a.calls && b.refusals >= a.refusals
    && Offered(b.offers, |a.offers|, a.sent, all) && (exists left :: Conserved(a.sent, b.sent, all, left))
    && if b.refusals > a.refusals then r == Returned(-1)
       else (r == Returned(total) && b.sent == a.sent + all) || (r == Unfinished && b.calls == 0)
  }

  lemma CourseStart(a: Log, all: seq<Byte>)
    ensures OnCourse(a, a, all, all)
  {
  }

  /** One more call that offered all that was left, and what the system accepted of it */
  lemma CourseCall(a: Log, b: Log, c: Log, all: seq<Byte>, left: seq<Byte>, n: nat)
    requires OnCourse(a, b, all, left) && n <= |left| && b.calls > 0
    requires c == Log(b.sent + left[..n], b.offers + [Offer(b.sent, left)], b.refusals, b.calls - 1)
    ensures OnCourse(a, c, all, left[n..])
  {
    ConservedMore(a.sent, b.sent, all, left, n);
  }

  lemma CourseRefused(a: Log, b: Log, c: Log, all: seq<Byte>, left: seq<Byte>, total: int)
    requires OnCourse(a, b, all, left) && c == b.(refusals := b.refusals + 1)
    ensures Written(a, c, all, Returned(-1), total)
  {
  }

  lemma CourseCut(a: Log, b: Log, all: seq<Byte>, left: seq<Byte>, total: int)
    requires OnCourse(a, b, all, left) && b.calls == 0
    ensures Written(a, b, all, Unfinished, total)
  {
  }

  lemma CourseDone(a: Log, b: Log, all: seq<Byte>, total: int)
    requires OnCourse(a, b, all, [])
    ensures Written(a, b, all, Returned(total), total)
  {
    ConservedAll(a.sent, b.sent, all, []);
  }

  /** Writing what is left by another function */
  lemma CourseHanded(a: Log, b: Log, c: Log, all: seq<Byte>, left: seq<Byte>, r: Result, part: int, total: int)
    requires OnCourse(a, b, all, left) && Written(b, c, left, r, part) && part >= 0
    ensures Written(a, c, all, if r.Unfinished? then r else Returned(if r.value == part then total else -1), total)
  {
    OfferedTail(b.offers, c.offers, |a.offers|, a.sent, b.sent, all, left);
    var rest :| Conserved(b.sent, c.sent, left, rest);
    ConservedInside(a.sent, b.sent, c.sent, all, left, rest);
    if c.sent == b.sent + left {
      ConservedMore(a.sent, b.sent, all, left, |left|);
      assert left[..|left|] == left;
      ConservedAll(a.sent, c.sent, all, left[|left|..]);
    }
  }

  /** The run so far: nothing can be said yet, or the function returned this value. */
  datatype Result = Unfinished | Returned(value: int)

  function Size(parts: seq<seq<Byte>>): nat {
    if parts == [] then 0 else |parts[0]| + Size(parts[1..])
  }

  lemma {:induction false} SizeIs(parts: seq<seq<Byte>>)
    ensures Size(parts) == |Flat(parts)|
  {
    if parts != [] {
      SizeIs(parts[1..]);
    }
  }

  lemma {:induction false} FlatSplit(a: seq<seq<Byte>>, b: seq<seq<Byte>>)
    ensures Flat(a + b) == Flat(a) + Flat(b)
  {
    if a == [] {
      assert a + b == b;
    } else {
      assert (a + b)[1..] == a[1..] + b;
      FlatSplit(a[1..], b);
    }
  }

  /** What was sent and what the vectors still describe make up the original bytes. */
  ghost predicate Conserved(before: seq<Byte>, sent: seq<Byte>, all: seq<Byte>, left: seq<Byte>) {
    |before| <= |sent| && sent[..|before|] == before && sent[|before|..] + left == all
  }

  lemma ConservedMore(before: seq<Byte>, sent: seq<Byte>, all: seq<Byte>, left: seq<Byte>, n: nat)
    requires Conserved(before, sent, all, left) && n <= |left|
    ensures Conserved(before, sent + left[..n], all, left[n..])
  {
    var now := sent + left[..n];
    assert now[..|before|] == before;
    assert now[|before|..] == sent[|before|..] + left[..n];
    assert left == left[..n] + left[n..];
  }

  lemma ConservedAll(before: seq<Byte>, sent: seq<Byte>, all: seq<Byte>, left: seq<Byte>)
    requires Conserved(before, sent, all, left) && left == []
    ensures sent == before + all
  {
    assert sent == sent[..|before|] + sent[|before|..];
  }

  // ----- st_writev_resid

  /** The caller's vectors, advanced in place: iov points at position at, and size are left. */
  class Vectors {
    const iov: array<seq<Byte>>
    var at: nat

    constructor (iov: array<seq<Byte>>)
      ensures this.iov == iov && at == 0
    {
      this.iov := iov;
      at := 0;
    }

    ghost predicate Valid()
      reads this
    {
      at <= iov.Length
    }

    /** The vectors not done yet */
    ghost function Left(): seq<seq<Byte>>
      reads this, iov
      requires Valid()
    {
      iov[at..]
    }

    method LengthLeft() returns (n: nat)
      requires Valid()
      ensures n == |Flat(Left())|
    {
      n := Size(iov[at..]);
      SizeIs(iov[at..]);
    }

    /** Moves past n bytes that were accepted. */
    method Consume(count: nat)
      requires Valid() && count <= |Flat(Left())| && Left() != []
      modifies this, iov
      ensures Valid() && Flat(Left()) == old(Flat(Left()))[count..]
    {
      hide Flat;
      var n := count;
      ghost var all := Flat(Left());
      while n >= |iov[at]|
        invariant at < iov.Length && 0 <= n <= |Flat(Left())| && Flat(Left())[n..] == all[count..]
        decreases iov.Length - at
      {
        ghost var parts := Left();
        FlatDrop(parts, n);
        n := n - |iov[at]|;
        iov[at] := [];
        at := at + 1;
        assert Left() == parts[1..];
        EmptyFlat(Left());
        if n == 0 {
          break;
        }
      }
      if at == iov.Length {
        return;
      }
      ghost var parts := Left();
      FlatWithin(parts, n);
      iov[at] := iov[at][n..];
      assert Left() == [parts[0][n..]] + parts[1..];
    }
  }

  lemma EmptyFlat(parts: seq<seq<Byte>>)
    ensures parts == [] ==> Flat(parts) == []
  {
  }

  lemma FlatWithin(parts: seq<seq<Byte>>, n: nat)
    requires parts != [] && n <= |parts[0]|
    ensures n <= |Flat(parts)| && Flat([parts[0][n..]] + parts[1..]) == Flat(parts)[n..]
  {
    assert ([parts[0][n..]] + parts[1..])[1..] == parts[1..];
  }

  /** One more call, and what came of it */
  lemma CourseTried(a: Log, b: Log, c: Log, all: seq<Byte>, left: seq<Byte>, outcome: Outcome, total: int)
    requires OnCourse(a, b, all, left) && b.calls > 0
    requires c.offers == b.offers + [Offer(b.sent, left)] && c.calls == b.calls - 1
    requires c.refusals == if outcome == Failed then b.refusals + 1 else b.refusals
    requires if outcome.Accepted? then outcome.n <= |left| && c.sent == b.sent + left[..outcome.n] else c.sent == b.sent
    ensures outcome.Accepted? ==> OnCourse(a, c, all, left[outcome.n..])
    ensures outcome.Interrupted? || outcome.NotReady? ==> OnCourse(a, c, all, left)
    ensures outcome.Failed? ==> Written(a, c, all, Returned(-1), total)
  {
    hide OnCourse, Written;
    if outcome.Accepted? {
      CourseCall(a, b, c, all, left, outcome.n);
    } else {
      var d := c.(refusals := b.refusals);
      assert b.sent + left[..0] == b.sent && left[0..] == left;
      CourseCall(a, b, d, all, left, 0);
      if outcome.Failed? {
        CourseRefused(a, d, c, all, left, total);
      }
    }
  }

  /** A system call that offers all that is left */
  method Push(fd: Socket, length: nat, ghost a: Log, ghost all: seq<Byte>, ghost left: seq<Byte>, ghost total: int)
    returns (r: Outcome)
    requires fd.calls > 0 && length == |left| && OnCourse(a, fd.Now(), all, left)
    modifies fd
    ensures fd.calls == old(fd.calls) - 1 && (r.Accepted? ==> r.n <= length)
    ensures r.Accepted? ==> OnCourse(a, fd.Now(), all, left[r.n..])
    ensures r.Interrupted? || r.NotReady? ==> OnCourse(a, fd.Now(), all, left)
    ensures r.Failed? ==> Written(a, fd.Now(), all, Returned(-1), total) && fd.sent == old(fd.sent)
  {
    hide OnCourse, Written;
    ghost var b := fd.Now();
    r := fd.Write(left, length);
    CourseTried(a, b, fd.Now(), all, left, r, total);
  }

  /** Waits until the socket becomes writable. */
  method Wait(fd: Socket, ghost a: Log, ghost all: seq<Byte>, ghost left: seq<Byte>, ghost total: int) returns (ready: bool)
    requires OnCourse(a, fd.Now(), all, left)
    modifies fd
    ensures fd.calls == old(fd.calls) && fd.sent == old(fd.sent)
    ensures if ready then OnCourse(a, fd.Now(), all, left) else Written(a, fd.Now(), all, Returned(-1), total)
  {
    hide OnCourse, Written;
    ghost var b := fd.Now();
    ready := fd.Poll();
    if !ready {
      CourseRefused(a, b, fd.Now(), all, left, total);
    }
  }

  /**
   st_writev_resid: 0 if every byte was accepted, -1 if the system refused; in any case the vectors describe what
   is left.
   */
  method WritevResid(fd: Socket, v: Vectors) returns (r: Result)
    requires v.Valid()
    modifies fd, v, v.iov
    ensures v.Valid() && Conserved(old(fd.sent), fd.sent, old(Flat(v.Left())), Flat(v.Left()))
    ensures Written(old(fd.Now()), fd.Now(), old(Flat(v.Left())), r, 0)
  {
    ghost var a, all := fd.Now(), Flat(v.Left());
    hide Flat, Size, Conserved, OnCourse, Written;
    CourseStart(a, all);
    while v.at < v.iov.Length
      invariant v.Valid() && OnCourse(a, fd.Now(), all, Flat(v.Left()))
      decreases fd.calls
    {
      ghost var left := Flat(v.Left());
      CourseLeft(a, fd.Now(), all, left);
      if fd.calls == 0 {
        CourseCut(a, fd.Now(), all, left, 0);
        return Unfinished;
      }
      var length := v.LengthLeft();
      var outcome := Push(fd, length, a, all, left, 0);
      match outcome {
        case Accepted(n) =>
          v.Consume(n);
          if v.at == v.iov.Length {
            break;
          }
        case Interrupted => continue;
        case Failed => return Returned(-1);
        case NotReady =>
      }
      CourseLeft(a, fd.Now(), all, Flat(v.Left()));
      var ready := Wait(fd, a, all, Flat(v.Left()), 0);
      if !ready {
        return Returned(-1);
      }
    }
    EmptyFlat(v.Left());
    CourseLeft(a, fd.Now(), all, Flat(v.Left()));
    CourseDone(a, fd.Now(), all, 0);
    r := Returned(0);
  }

  lemma CourseLeft(a: Log, b: Log, all: seq<Byte>, left: seq<Byte>)
    requires OnCourse(a, b, all, left)
    ensures Conserved(a.sent, b.sent, all, left)
  {
  }

  // ----- st_write

  /** st_write: the number of bytes if all were accepted, -1 if the system refused; in any case a prefix was sent. */
  method StWrite(fd: Socket, bytes: seq<Byte>) returns (r: Result)
    modifies fd
    ensures Written(old(fd.Now()), fd.Now(), bytes, r, |bytes|)
  {
    var iov := new seq<Byte>[1](i => bytes);
    var v := new Vectors(iov);
    OneFlat(v.Left(), bytes);
    r := WritevResid(fd, v);
    if r == Returned(0) {
      r := Returned(|bytes|);
    }
  }

  lemma OneFlat(parts: seq<seq<Byte>>, bytes: seq<Byte>)
    requires |parts| == 1 && parts[0] == bytes
    ensures Flat(parts) == bytes
  {
    assert parts[1..] == [];
  }

  // ----- st_writev

  lemma {:induction false} FlatPrefix(parts: seq<seq<Byte>>, i: nat, j: nat)
    requires i <= j <= |parts|
    ensures |Flat(parts[..i])| <= |Flat(parts[..j])|
  {
    assert parts[..j] == parts[..i] + parts[i..j];
    FlatSplit(parts[..i], parts[i..j]);
  }

  /** The vector in which byte n is, and its position there */
  method FindUnwritten(iov: seq<seq<Byte>>, written: nat) returns (index: nat, n: nat)
    requires written < |Flat(iov)|
    ensures index < |iov| && n < |iov[index]| && written == |Flat(iov[..index])| + n
  {
    index, n := 0, written;
    assert iov[..0] == [];
    while n >= |iov[index]|
      invariant index < |iov| && written == |Flat(iov[..index])| + n
      decreases |iov| - index
    {
      NextPrefix(iov, index);
      assert index + 1 < |iov| by {
        assert iov[..|iov|] == iov;
      }
      n := n - |iov[index]|;
      index := index + 1;
    }
  }

  lemma NextPrefix(parts: seq<seq<Byte>>, i: nat)
    requires i < |parts|
    ensures Flat(parts[..i + 1]) == Flat(parts[..i]) + parts[i]
  {
    assert parts[..i + 1] == parts[..i] + [parts[i]];
    FlatLast(parts[..i], parts[i]);
  }

  /** The vectors from byte n of vector index on */
  function Remaining(iov: seq<seq<Byte>>, index: nat, n: nat): seq<seq<Byte>>
    requires index < |iov| && n <= |iov[index]|
  {
    [iov[index][n..]] + iov[index + 1..]
  }

  lemma RemainingIs(iov: seq<seq<Byte>>, index: nat, n: nat)
    requires index < |iov| && n <= |iov[index]|
    ensures |Flat(iov[..index])| + n <= |Flat(iov)|
    ensures Flat(Remaining(iov, index, n)) == Flat(iov)[|Flat(iov[..index])| + n..]
  {
    assert iov == iov[..index] + iov[index..];
    FlatSplit(iov[..index], iov[index..]);
    FlatWithin(iov[index..], n);
    assert iov[index..][1..] == iov[index + 1..];
  }

  /** Writes the remaining vectors into the space chosen for them. */
  method Rebuild(iov: seq<seq<Byte>>, first: nat, n: nat, tmp: array<seq<Byte>>) returns (count: nat)
    requires first < |iov| && n < |iov[first]| && |iov| - first <= tmp.Length
    modifies tmp
    ensures count == |iov| - first && tmp[..count] == Remaining(iov, first, n)
  {
    tmp[0] := iov[first][n..];
    var index := first + 1;
    count := 1;
    while index < |iov|
      invariant first < index <= |iov| && count == index - first
      invariant tmp[..count] == Remaining(iov, first, n)[..count]
    {
      tmp[count] := iov[index];
      count, index := count + 1, index + 1;
    }
  }

  method TotalSize(iov: seq<seq<Byte>>) returns (nbyte: nat)
    ensures nbyte == |Flat(iov)|
  {
    nbyte := 0;
    var index := 0;
    assert iov[..0] == [];
    while index < |iov|
      invariant index <= |iov| && nbyte == |Flat(iov[..index])|
    {
      NextPrefix(iov, index);
      nbyte := nbyte + |iov[index]|;
      index := index + 1;
    }
    assert iov[..index] == iov;
  }

  /** The vectors in use: the caller's at first, then those in the space taken at the first partial write */
  ghost predicate InUse(iov: seq<seq<Byte>>, tmp: array?<seq<Byte>>, count: nat, cur: seq<seq<Byte>>)
    reads if tmp == null then {} else {tmp}
  {
    if tmp == null then cur == iov && count == |iov| else count <= tmp.Length && cur == tmp[..count]
  }

  /** The space has room for all vectors from the first one that was not written then. */
  ghost predicate Roomy(iov: seq<seq<Byte>>, tmp: array?<seq<Byte>>, written: nat) {
    tmp != null ==> exists first :: 0 <= first <= |iov| && |Flat(iov[..first])| <= written && |iov| - first <= tmp.Length
  }

  lemma StaysRoomy(iov: seq<seq<Byte>>, tmp: array<seq<Byte>>, written: nat, index: nat, n: nat)
    requires Roomy(iov, tmp, written) && index < |iov| && n < |iov[index]| && written <= |Flat(iov[..index])| + n
    ensures |iov| - index <= tmp.Length
  {
    var first :| 0 <= first <= |iov| && |Flat(iov[..first])| <= written && |iov| - first <= tmp.Length;
    if index < first {
      NextPrefix(iov, index);
      FlatPrefix(iov, index + 1, first);
    }
  }

  /**
   st_writev: the total with every byte sent once and in order, or -1 exactly if the system refused, and then a prefix
   was sent. Every call offers all that is left, and the vectors in use never outgrow their space.
   */
  method Writev(fd: Socket, iov: seq<seq<Byte>>) returns (r: Result)
    modifies fd
    ensures Written(old(fd.Now()), fd.Now(), Flat(iov), r, |Flat(iov)|)
  {
    hide Flat, Conserved, Roomy, OnCourse, Written, InUse;
    ghost var a := fd.Now();
    var nbyte := TotalSize(iov);
    var nleft := nbyte;
    var tmp: array?<seq<Byte>> := null;
    var count: nat := |iov|;
    ghost var all, cur := Flat(iov), iov;
    assert all[0..] == all;
    CourseStart(a, all);
    RoomyStart(iov);
    AllInUse(iov);
    while nleft > 0
      invariant 0 <= nleft <= nbyte == |all| && (tmp != null ==> fresh(tmp))
      invariant InUse(iov, tmp, count, cur) && Flat(cur) == all[nbyte - nleft..]
      invariant OnCourse(a, fd.Now(), all, Flat(cur)) && Roomy(iov, tmp, nbyte - nleft)
      decreases fd.calls
    {
      ghost var left := Flat(cur);
      if fd.calls == 0 {
        CourseCut(a, fd.Now(), all, left, nbyte);
        return Unfinished;
      }
      if count == 1 {
        r := WriteLast(fd, iov, tmp, cur, nleft, nbyte, a, all);
        return;
      }
      var outcome := Push(fd, nleft, a, all, left, nbyte);
      match outcome {
        case Accepted(accepted) =>
          if accepted == nleft {
            assert left[accepted..] == [];
            CourseDone(a, fd.Now(), all, nbyte);
            return Returned(nbyte);
          }
          ghost var written := nbyte - nleft;
          nleft := nleft - accepted;
          assert left[accepted..] == all[nbyte - nleft..];
          tmp, count, cur := Advance(iov, tmp, written, nbyte - nleft);
        case Interrupted => continue;
        case Failed => return Returned(-1);
        case NotReady =>
      }
      var ready := Wait(fd, a, all, Flat(cur), nbyte);
      if !ready {
        return Returned(-1);
      }
    }
    CourseDone(a, fd.Now(), all, nbyte);
    r := Returned(nbyte);
  }

  /** After a partial write: the vectors from the first byte not written on */
  method Advance(iov: seq<seq<Byte>>, tmp: array?<seq<Byte>>, ghost before: nat, written: nat)
    returns (space: array<seq<Byte>>, count: nat, ghost cur: seq<seq<Byte>>)
    requires Roomy(iov, tmp, before) && before <= written < |Flat(iov)|
    modifies if tmp == null then {} else {tmp}
    ensures space == tmp || fresh(space)
    ensures InUse(iov, space, count, cur) && Roomy(iov, space, written)
    ensures Flat(cur) == Flat(iov)[written..]
  {
    hide Flat;
    var index, n := FindUnwritten(iov, written);
    if tmp == null {
      space := new seq<Byte>[if |iov| - index <= LOCAL_MAXIOV then LOCAL_MAXIOV else |iov| - index];
    } else {
      space := tmp;
      StaysRoomy(iov, tmp, before, index, n);
      RoomyLater(iov, tmp, before, written);
    }
    count := Rebuild(iov, index, n, space);
    cur := Remaining(iov, index, n);
    RemainingIs(iov, index, n);
  }

  lemma ConservedStart(before: seq<Byte>, all: seq<Byte>)
    ensures Conserved(before, before, all, all)
  {
  }

  lemma AllInUse(iov: seq<seq<Byte>>)
    ensures InUse(iov, null, |iov|, iov)
  {
  }

  /** The one vector that is left is written by st_write. */
  method WriteLast(
    fd: Socket, iov: seq<seq<Byte>>, tmp: array?<seq<Byte>>, ghost cur: seq<seq<Byte>>, nleft: nat, nbyte: nat,
    ghost a: Log, ghost all: seq<Byte>) returns (r: Result)
    requires InUse(iov, tmp, 1, cur) && |Flat(cur)| == nleft && OnCourse(a, fd.Now(), all, Flat(cur))
    modifies fd
    ensures Written(a, fd.Now(), all, r, nbyte)
  {
    hide Flat, OnCourse, Written;
    var bytes := if tmp == null then iov[0] else tmp[0];
    OneFlat(cur, bytes);
    ghost var b := fd.Now();
    r := StWrite(fd, bytes);
    CourseHanded(a, b, fd.Now(), all, bytes, r, nleft, nbyte);
    if r.Returned? {
      r := Returned(if r.value == nleft then nbyte else -1);
    }
  }

  lemma RoomyStart(iov: seq<seq<Byte>>)
    ensures Roomy(iov, null, 0)
  {
  }

  lemma RoomyLater(iov: seq<seq<Byte>>, tmp: array<seq<Byte>>, written: nat, later: nat)
    requires Roomy(iov, tmp, written) && written <= later
    ensures Roomy(iov, tmp, later)
  {
    var first :| 0 <= first <= |iov| && |Flat(iov[..first])| <= written && |iov| - first <= tmp.Length;
  }

  /** The calls of st_write offer what is left of the whole. */
  lemma OfferedTail(
    offers: seq<Offer>, now: seq<Offer>, from: nat, before: seq<Byte>, mid: seq<Byte>, all: seq<Byte>, left: seq<Byte>)
    requires Offered(offers, from, before, all) && Conserved(before, mid, all, left)
    requires offers <= now && Offered(now, |offers|, mid, left)
    ensures Offered(now, from, before, all)
  {
    forall i | from <= i < |now|
      ensures Conserved(before, now[i].sent, all, now[i].bytes)
    {
      if i < |offers| {
        assert now[i] == offers[i];
      } else {
        ConservedInside(before, mid, now[i].sent, all, left, now[i].bytes);
      }
    }
  }

  lemma ConservedInside(before: seq<Byte>, mid: seq<Byte>, sent: seq<Byte>, all: seq<Byte>, left: seq<Byte>, rest: seq<Byte>)
    requires Conserved(before, mid, all, left) && Conserved(mid, sent, left, rest)
    ensures Conserved(before, sent, all, rest)
  {
    assert sent[..|before|] == sent[..|mid|][..|before|];
    assert sent[|before|..] == sent[..|mid|][|before|..] + sent[|mid|..];
  }
}
