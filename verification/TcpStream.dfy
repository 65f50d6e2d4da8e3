/**
 DNS messages on a TCP connection of c-ares: the two-byte length before each message
 (RFC 1035 section 4.2.2; c-ares/ares_send.c), the reassembly of messages from whatever pieces
 recv returns, and the queue of bytes still to be sent (c-ares/ares_process.c).
 */
module TcpStream {
  import opened Octets

  // ----- framing

  /** The buffer ares_send builds: the length and the message */
  function Prefixed(m: seq<Byte>): (f: seq<Byte>)
    requires |m| < 0x10000
    ensures |f| == |m| + 2
  {
    [|m| / 256, |m| % 256] + m
  }

  function LengthOf(high: int, low: int): nat
    requires 0 <= high < 256 && 0 <= low < 256
  {
    high * 256 + low
  }

  /** A whole message is at the start of s. A length of zero can never be got past: nothing is left to read then. */
  predicate Complete(s: seq<Byte>) {
    |s| >= 2 && 0 < LengthOf(s[0], s[1]) <= |s| - 2
  }

  /** The messages in a stream */
  function Frames(s: seq<Byte>): seq<seq<Byte>> {
    if !Complete(s) then [] else [s[2..2 + LengthOf(s[0], s[1])]] + Frames(s[2 + LengthOf(s[0], s[1])..])
  }

  /** The bytes after them */
  function Rest(s: seq<Byte>): seq<Byte> {
    if !Complete(s) then s else Rest(s[2 + LengthOf(s[0], s[1])..])
  }

  function Stream(ms: seq<seq<Byte>>): seq<Byte>
    requires forall i :: 0 <= i < |ms| ==> |ms[i]| < 0x10000
  {
    if ms == [] then [] else Prefixed(ms[0]) + Stream(ms[1..])
  }

  /** The length comes first, most significant byte first; a reader takes the first message to have that length. */
  lemma LengthFirst(m: seq<Byte>, s: seq<Byte>)
    requires |m| < 0x10000
    ensures NumberAt(Prefixed(m), 0) == |m| && Prefixed(m)[2..] == m
    ensures Complete(s) ==> Frames(s) != [] && Frames(s)[0] == s[2..2 + NumberAt(s, 0)]
    ensures Complete(s) <==> |s| >= 2 && 0 < NumberAt(s, 0) <= |s| - 2
  {
    assert Prefixed(m)[2..] == m;
  }

  /** A message of 258 bytes has the length 1, 2. */
  lemma LengthExample(m: seq<Byte>)
    requires |m| == 258
    ensures Prefixed(m) == [1, 2] + m && Frames([1, 2] + m) == [m]
  {
    assert ([1, 2] + m)[2..] == m;
    OneFrame([1, 2] + m);
  }

  lemma FirstFrame(m: seq<Byte>, s: seq<Byte>)
    requires 0 < |m| < 0x10000
    ensures Frames(Prefixed(m) + s) == [m] + Frames(s) && Rest(Prefixed(m) + s) == Rest(s)
  {
    var t := Prefixed(m) + s;
    assert t[2..2 + |m|] == m;
    assert t[2 + |m|..] == s;
  }

  /** Reading a stream of non-empty messages gives the messages, up to one that is still incomplete. */
  lemma {:induction false} FramesOfStream(ms: seq<seq<Byte>>, more: seq<Byte>)
    requires forall i :: 0 <= i < |ms| ==> 0 < |ms[i]| < 0x10000
    requires !Complete(more)
    ensures Frames(Stream(ms) + more) == ms && Rest(Stream(ms) + more) == more
  {
    if ms == [] {
      assert Stream(ms) + more == more;
    } else {
      FramesOfStream(ms[1..], more);
      FirstFrame(ms[0], Stream(ms[1..]) + more);
      hide Frames, Rest, Prefixed;
      assert Stream(ms) + more == Prefixed(ms[0]) + (Stream(ms[1..]) + more);
      assert ms == [ms[0]] + ms[1..];
    }
  }

  function FrameEnd(s: seq<Byte>): nat
    requires |s| >= 2
  {
    2 + LengthOf(s[0], s[1])
  }

  lemma FrameStep(s: seq<Byte>)
    requires Complete(s)
    ensures Frames(s) == [s[2..FrameEnd(s)]] + Frames(s[FrameEnd(s)..]) && Rest(s) == Rest(s[FrameEnd(s)..])
  {
  }

  /** What is read later only adds to what was read before. */
  lemma {:induction false} FramesExtend(s: seq<Byte>, more: seq<Byte>)
    ensures Frames(s + more) == Frames(s) + Frames(Rest(s) + more)
    ensures Rest(s + more) == Rest(Rest(s) + more)
    decreases |s|
  {
    hide Frames, Rest;
    if Complete(s) {
      var n := FrameEnd(s);
      FrameStep(s);
      FrameStep(s + more);
      FramesExtend(s[n..], more);
      assert (s + more)[2..n] == s[2..n];
      assert (s + more)[n..] == s[n..] + more;
    } else {
      NoFrame(s);
    }
  }

  lemma OneFrame(s: seq<Byte>)
    requires Complete(s) && |s| == FrameEnd(s)
    ensures Frames(s) == [s[2..]] && Rest(s) == []
  {
    hide Frames, Rest;
    var n := FrameEnd(s);
    FrameStep(s);
    NoFrame(s[n..]);
    assert s[n..] == [] && s[2..n] == s[2..];
  }

  lemma NoFrame(s: seq<Byte>)
    requires !Complete(s)
    ensures Frames(s) == [] && Rest(s) == s
  {
  }

  // ----- reading

  /** The part of a server's state that read_tcp_data uses, and what it handed to process_answer. */
  class Reader {
    const lenbuf: array<Byte>
    var lenbufPos: nat
    var length: nat
    var buffer: array<Byte>
    var bufferPos: nat
    var answers: seq<seq<Byte>>
    ghost var received: seq<Byte>   // all bytes of this connection so far

    /** The bytes that are buffered */
    ghost function Pending(): seq<Byte>
      reads this, lenbuf, buffer
      requires lenbufPos <= lenbuf.Length && bufferPos <= buffer.Length
    {
      if lenbufPos < 2 then lenbuf[..lenbufPos] else lenbuf[..] + buffer[..bufferPos]
    }

    ghost predicate Valid()
      reads this, lenbuf, buffer
    {
      && lenbuf.Length == 2 && lenbufPos <= 2 && bufferPos <= buffer.Length && lenbuf != buffer
      && (lenbufPos == 2 ==> length == LengthOf(lenbuf[0], lenbuf[1]) == buffer.Length && (length > 0 ==> bufferPos < length))
      && answers == Frames(received) && Pending() == Rest(received)
    }

    constructor ()
      ensures Valid() && fresh(lenbuf) && fresh(buffer) && received == [] && answers == []
    {
      lenbuf := new Byte[2];
      buffer := new Byte[0];
      lenbufPos, length, bufferPos, answers, received := 0, 0, 0, [], [];
    }

    /** How many bytes recv is asked for */
    function Wanted(): nat
      reads this
      requires lenbufPos <= 2 && (lenbufPos == 2 ==> bufferPos <= length)
    {
      if lenbufPos != 2 then 2 - lenbufPos else length - bufferPos
    }

    /**
     read_tcp_data when recv returned these bytes, at least one and at most as many as asked for. However
     the stream is cut, the messages handed on are those in the bytes received so far.
     */
    method Receive(chunk: seq<Byte>)
      requires Valid() && 0 < |chunk| <= Wanted()
      modifies this, lenbuf, buffer
      ensures Valid() && received == old(received) + chunk
      ensures answers == Frames(old(received) + chunk)
      ensures buffer == old(buffer) || fresh(buffer)
    {
      hide Frames, Rest;
      FramesExtend(received, chunk);
      if lenbufPos != 2 {
        ReceiveLength(chunk);
        assert lenbufPos == 2 ==> Pending()[0] == lenbuf[0] && Pending()[1] == lenbuf[1];
        NoFrame(Pending());
      } else {
        ReceiveData(chunk);
        ghost var whole := Pending();
        assert whole[0] == lenbuf[0] && whole[1] == lenbuf[1] && whole[2..] == buffer[..bufferPos];
        if bufferPos == length {
          OneFrame(whole);
          assert buffer[..] == buffer[..bufferPos];
          answers := answers + [buffer[..]];
          lenbufPos := 0;
          bufferPos := 0;
        } else {
          NoFrame(whole);
        }
      }
      received := received + chunk;
    }

    /** The bytes and counts, apart from what they mean */
    ghost predicate Sized()
      reads this, lenbuf
    {
      && lenbuf.Length == 2 && lenbufPos <= 2 && bufferPos <= buffer.Length && lenbuf != buffer
      && (lenbufPos == 2 ==> length == LengthOf(lenbuf[0], lenbuf[1]) == buffer.Length)
    }

    /** Reading (the rest of) the length word */
    method ReceiveLength(chunk: seq<Byte>)
      requires Sized() && lenbufPos < 2 && 0 < |chunk| <= 2 - lenbufPos
      modifies this`lenbufPos, this`length, this`buffer, this`bufferPos, lenbuf
      ensures Sized() && Pending() == old(Pending()) + chunk && (lenbufPos == 2 ==> bufferPos == 0)
      ensures buffer == old(buffer) || fresh(buffer)
    {
      forall i | 0 <= i < |chunk| {
        lenbuf[lenbufPos + i] := chunk[i];
      }
      lenbufPos := lenbufPos + |chunk|;
      if lenbufPos == 2 {
        length := LengthOf(lenbuf[0], lenbuf[1]);
        buffer := new Byte[length];
        bufferPos := 0;
      }
    }

    /** Reading data into the allocated buffer */
    method ReceiveData(chunk: seq<Byte>)
      requires Sized() && lenbufPos == 2 && 0 < |chunk| <= length - bufferPos
      modifies this`bufferPos, buffer
      ensures Sized() && Pending() == old(Pending()) + chunk && bufferPos == old(bufferPos) + |chunk|
    {
      forall i | 0 <= i < |chunk| {
        buffer[bufferPos + i] := chunk[i];
      }
      bufferPos := bufferPos + |chunk|;
    }

    /** A length of zero leaves nothing to ask for, so recv returns 0 and the connection is given up. */
    lemma StuckOnEmptyMessage()
      requires Valid()
      ensures Wanted() == 0 <==> lenbufPos == 2 && length == 0
      ensures Wanted() == 0 <==> |Rest(received)| >= 2 && LengthOf(Rest(received)[0], Rest(received)[1]) == 0
    {
      if lenbufPos == 2 {
        assert Pending()[0] == lenbuf[0] && Pending()[1] == lenbuf[1];
      }
    }
  }

  /** The reader after a length of zero: nothing is asked for any more. */
  method ReadZeroLength() returns (r: Reader)
    ensures fresh(r) && r.Valid() && r.received == [0, 0] && r.Wanted() == 0
  {
    r := new Reader();
    r.Receive([0, 0]);
    assert [] + [0, 0] == [0, 0];
    NoFrame([0, 0]);
    r.StuckOnEmptyMessage();
  }

  // ----- sending

  /** A send_request: the bytes of it that are not sent yet */
  class Request {
    var data: seq<Byte>
    var next: Request?

    constructor (data: seq<Byte>)
      ensures this.data == data && next == null
    {
      this.data := data;
      next := null;
    }
  }

  function After(nodes: seq<Request>, i: nat): Request? {
    if i + 1 < |nodes| then nodes[i + 1] else null
  }

  ghost predicate Distinct(nodes: seq<Request>) {
    forall i, j :: 0 <= i < j < |nodes| ==> nodes[i] != nodes[j]
  }

  /** The request at place i has these bytes left and is followed by the next one. */
  ghost predicate Holds(nodes: seq<Request>, i: nat, bytes: seq<Byte>)
    requires i < |nodes|
    reads nodes[i]
  {
    nodes[i].data == bytes && nodes[i].next == After(nodes, i)
  }

  lemma AfterLast(nodes: seq<Request>, r: Request)
    ensures forall i :: 0 <= i < |nodes| ==>
      After(nodes + [r], i) == if i + 1 < |nodes| then After(nodes, i) else r
    ensures After(nodes + [r], |nodes|) == null
  {
  }

  /** A server's send queue, from qhead to qtail */
  class SendQueue {
    var qhead: Request?
    var qtail: Request?
    ghost var nodes: seq<Request>
    ghost var parts: seq<seq<Byte>>   // the bytes of each request

    ghost predicate Valid()
      reads this, nodes
    {
      && |parts| == |nodes|
      && Distinct(nodes) && (forall i :: 0 <= i < |nodes| ==> Holds(nodes, i, parts[i]))
      && if nodes == [] then qhead == null && qtail == null else qhead == nodes[0] && qtail == nodes[|nodes| - 1]
    }

    /** The bytes queued, in order */
    ghost function Queued(): seq<Byte>
      reads this
    {
      Flat(parts)
    }

    constructor ()
      ensures Valid() && Queued() == []
    {
      qhead, qtail, nodes, parts := null, null, [], [];
    }

    /** The part of ares__send_query that queues a request */
    method Enqueue(data: seq<Byte>)
      requires Valid()
      modifies this, nodes
      ensures Valid() && Queued() == old(Queued()) + data
      ensures forall n :: n in nodes ==> n in old(nodes) || fresh(n)
    {
      hide Flat;
      ghost var was := nodes;
      var request := new Request(data);
      assert request !in was;
      var tail := qtail;
      if tail != null {
        tail.next := request;
      } else {
        qhead := request;
      }
      qtail := request;
      FlatLast(parts, data);
      ghost var before := parts;
      nodes, parts := was + [request], before + [data];
      AfterLast(was, request);
      forall i | 0 <= i < |was|
        ensures Holds(nodes, i, parts[i])
      {
        assert old(Holds(was, i, before[i]));
        assert i + 1 < |was| ==> was[i] != was[|was| - 1];
      }
    }

    /** Takes the first request off the queue; tells whether the queue is then empty. */
    method DropFirst() returns (empty: bool)
      requires Valid() && nodes != []
      modifies this
      ensures Valid() && nodes == old(nodes)[1..] && parts == old(parts)[1..]
      ensures empty <==> parts == []
    {
      var request: Request := qhead;
      assert Holds(nodes, 0, parts[0]);
      qhead := request.next;
      ghost var was, before := nodes, parts;
      nodes, parts := was[1..], before[1..];
      forall i | 0 <= i < |nodes|
        ensures Holds(nodes, i, parts[i])
      {
        assert Holds(was, i + 1, before[i + 1]);
      }
      if qhead == null {
        qtail := null;
      }
      empty := qhead == null;
    }

    method FirstLength() returns (n: nat)
      requires Valid() && parts != []
      ensures n == |parts[0]| && |nodes| == |parts|
    {
      assert Holds(nodes, 0, parts[0]);
      n := |qhead.data|;
    }

    /** Marks the first bytes of the first request as sent. */
    method Trim(n: nat)
      requires Valid() && nodes != [] && n < |parts[0]|
      modifies this, nodes
      ensures Valid() && nodes == old(nodes) && parts == [old(parts)[0][n..]] + old(parts)[1..]
    {
      var request: Request := qhead;
      assert Holds(nodes, 0, parts[0]);
      request.data := request.data[n..];
      ghost var before := parts;
      parts := [before[0][n..]] + before[1..];
      forall i | 0 < i < |nodes|
        ensures Holds(nodes, i, parts[i])
      {
        assert old(Holds(nodes, i, before[i])) && nodes[i] != nodes[0];
      }
    }

    /** advance_tcp_send_queue: exactly the first n bytes queued are dropped. */
    method Advance(n: nat)
      requires Valid() && n <= |Queued()|
      modifies this, nodes
      ensures Valid() && Queued() == old(Queued())[n..]
      ensures exists dropped :: 0 <= dropped <= |old(nodes)| && nodes == old(nodes)[dropped..]
    {
      hide Flat, Valid;
      var left: nat := n;
      ghost var all, dropped: nat := Queued(), 0;
      FlatNone(parts);
      while left > 0
        invariant Valid() && dropped <= |old(nodes)| && nodes == old(nodes)[dropped..]
        invariant left <= |Queued()| && Queued()[left..] == all[n..]
        decreases |nodes|, left
      {
        FlatNone(parts);
        FlatDrop(parts, left);
        var length := FirstLength();
        if left >= length {
          left := left - length;
          var empty := DropFirst();
          dropped := dropped + 1;
          if empty {
            FlatNone(parts);
            break;
          }
        } else {
          Trim(left);
          left := 0;
        }
      }
      assert Queued()[0..] == Queued();
    }
  }
}
