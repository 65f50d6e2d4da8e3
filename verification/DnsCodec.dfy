/**
 The DNS name codec of c-ares: building a query message (ares_create_query.c) and expanding a
 name of a message in two passes, one that measures and checks, and one that writes
 (ares_expand_name.c). The message of a query is written to an array of the size the source allocates.
 */
module DnsCodec {
  import opened Options
  import opened Octets
  import opened DnsNames
  import opened DnsMessage

  const HFIXEDSZ := 12
  const QFIXEDSZ := 4
  const EDNSFIXEDSZ := 11
  const T_OPT := 41

  /** Writes the next byte. */
  method Put(s: array<Byte>, q: nat, b: Byte) returns (next: nat)
    requires q < s.Length
    modifies s
    ensures next == q + 1 && s[..next] == old(s[..q]) + [b]
  {
    s[q] := b;
    next := q + 1;
  }

  // ----- expanding

  /** name_length: the length of the expansion, or -1. A start at or past the end of the message is refused. */
  method NameLength(m: seq<Byte>, start: nat) returns (n: int)
    ensures n == match Walk(m, start, 0) case None => -1 case Some(ls) => |Text(ls)|
  {
    if start >= |m| {
      return -1;
    }
    hide Walk, Dotted, Text, Escape, Target, Measuring;
    n := 0;
    var p: nat, indir: nat := start, 0;
    MeasureStart(m, start);
    while m[p] != 0
      invariant p < |m| && indir <= MAX_INDIRS && indir <= |m| && n >= 0
      invariant Measuring(m, start, p, indir, n)
      decreases MAX_INDIRS - indir, |m| - p
    {
      MeasureStep(m, start, p, indir, n);
      if Pointer(m[p]) {
        if p + 1 >= |m| {
          return -1;
        }
        var offset := Target(m, p);
        if offset >= |m| {
          return -1;
        }
        p := offset;
        indir := indir + 1;
        if indir > |m| || indir > MAX_INDIRS {
          return -1;
        }
      } else if m[p] < 0x40 {
        var offset: nat := m[p];
        if p + offset + 1 >= |m| {
          return -1;
        }
        var length := LabelLength(m, p + 1, offset);
        n := n + length + 1;
        p := p + 1 + offset;
      } else {
        return -1;
      }
    }
    MeasureEnd(m, start, p, indir, n);
    n := if n != 0 then n - 1 else n;
  }

  /** The length of the label's text */
  method LabelLength(m: seq<Byte>, start: nat, length: nat) returns (n: nat)
    requires start + length <= |m|
    ensures n == |Escape(m[start..start + length])|
  {
    hide Escape;
    n := 0;
    var p, offset := start, length;
    EscapeNothing(m[start..p]);
    while offset > 0
      invariant 0 <= offset <= length && p == start + length - offset
      invariant n == |Escape(m[start..p])|
    {
      EscapeNext(m, start, p, start + length);
      n := n + (if m[p] == DOT || m[p] == BACKSLASH then 2 else 1);
      offset := offset - 1;
      p := p + 1;
    }
  }

  /** The walk from start is at p, and n bytes of text have been counted before. */
  ghost predicate Measuring(m: seq<Byte>, start: nat, p: nat, indir: nat, n: int) {
    indir <= MAX_INDIRS &&
    match Walk(m, p, indir)
    case None => Walk(m, start, 0) == None
    case Some(ls) => Walk(m, start, 0).Some? && |Dotted(Walk(m, start, 0).value)| == n + |Dotted(ls)|
  }

  lemma MeasureStart(m: seq<Byte>, start: nat)
    ensures Measuring(m, start, start, 0, 0)
  {
  }

  /** What the byte at p means for the walk */
  lemma MeasureStep(m: seq<Byte>, start: nat, p: nat, indir: nat, n: int)
    requires Measuring(m, start, p, indir, n) && p < |m| && m[p] != 0 && indir <= |m|
    ensures Pointer(m[p]) ==>
      if p + 1 >= |m| || Target(m, p) >= |m| || indir + 1 > |m| || indir + 1 > MAX_INDIRS then Walk(m, start, 0) == None
      else Measuring(m, start, Target(m, p), indir + 1, n)
    ensures !Pointer(m[p]) && (m[p] >= 0x40 || p + m[p] + 1 >= |m|) ==> Walk(m, start, 0) == None
    ensures m[p] < 0x40 && p + m[p] + 1 < |m| ==>
      Measuring(m, start, p + 1 + m[p], indir, n + |Escape(m[p + 1..p + 1 + m[p]])| + 1)
  {
    if m[p] < 0x40 && p + m[p] + 1 < |m| {
      var l: Label := m[p + 1..p + 1 + m[p]];
      match Walk(m, p + m[p] + 1, indir)
      case None =>
      case Some(ls) => assert ([l] + ls)[1..] == ls;
    }
  }

  lemma MeasureEnd(m: seq<Byte>, start: nat, p: nat, indir: nat, n: int)
    requires Measuring(m, start, p, indir, n) && p < |m| && m[p] == 0
    ensures Walk(m, start, 0).Some?
    ensures |Text(Walk(m, start, 0).value)| == if n == 0 then 0 else n - 1
  {
    LengthOfText(Walk(m, start, 0).value);
  }

  lemma LengthOfText(ls: seq<Label>)
    ensures |Text(ls)| == if |Dotted(ls)| == 0 then 0 else |Dotted(ls)| - 1
    ensures |Dotted(ls)| == 0 <==> ls == []
  {
    if ls != [] {
      DottedIsText(ls);
    }
  }

  datatype Expansion =
    | BadName
    | Name(buffer: array<Byte>, enclen: int)

  /**
   ares_expand_name: a name that can be read is expanded to its text and a terminating zero, which fill
   the buffer sized by the first pass; enclen stays in the message.
   */
  method ExpandName(m: seq<Byte>, start: nat) returns (r: Expansion)
    ensures match Walk(m, start, 0)
      case None => r.BadName?
      case Some(ls) =>
        && r.Name? && r.buffer[..] == Text(ls) + [0]
        && r.enclen == EncLen(m, start) && start + r.enclen <= |m|
  {
    var nlen := NameLength(m, start);
    if nlen < 0 {
      return BadName;
    }
    ghost var ls := Walk(m, start, 0).value;
    LengthOfText(ls);
    EncLenInside(m, start, 0);
    var s := new Byte[nlen + 1];
    if nlen == 0 {
      s[0] := 0;
      EmptyText(m, start, 0);
      return Name(s, if Pointer(m[start]) then 2 else 1);
    }
    var enclen := WriteText(m, start, s);
    r := Name(s, enclen);
  }

  /** The second pass, without checks */
  method WriteText(m: seq<Byte>, start: nat, s: array<Byte>) returns (enclen: int)
    requires Walk(m, start, 0).Some? && Walk(m, start, 0).value != []
    requires s.Length == |Text(Walk(m, start, 0).value)| + 1
    modifies s
    ensures s[..] == Text(Walk(m, start, 0).value) + [0]
    ensures enclen == EncLen(m, start)
  {
    hide Walk, EncLen, Text, Reading, Target, Escape;
    var p: nat, q: nat, indir := start, 0, false;
    enclen := 0;
    ghost var hops: nat, out: seq<Byte> := 0, [];
    ReadStart(m, start);
    while m[p] != 0
      invariant p < |m| && hops <= MAX_INDIRS && q <= s.Length && s[..q] == out
      invariant Reading(m, start, p, hops, out, indir, enclen)
      decreases MAX_INDIRS - hops, |m| - p
    {
      if Pointer(m[p]) {
        ReadPointer(m, start, p, hops, out, indir, enclen);
        if !indir {
          enclen := p + 2 - start;
          indir := true;
        }
        p := Target(m, p);
        hops := hops + 1;
      } else {
        ReadLabel(m, start, p, hops, out, indir, enclen);
        var len: nat := m[p];
        out := out + Escape(m[p + 1..p + 1 + len]) + [DOT];
        q := WriteLabel(m, p + 1, len, s, q);
        p := p + 1 + len;
      }
    }
    ReadEnd(m, start, p, hops, out, indir, enclen);
    if !indir {
      enclen := p + 1 - start;
    }
    s[q - 1] := 0;
  }

  /**
   The walk from start is at p; the labels before p are in out, the rest is still to come. From the
   first pointer on, enclen is known.
   */
  ghost predicate Reading(m: seq<Byte>, start: nat, p: nat, hops: nat, out: seq<Byte>, indir: bool, enclen: int) {
    && p < |m| && hops <= MAX_INDIRS && Walk(m, p, hops).Some? && Walk(m, start, 0).Some?
    && Dotted(Walk(m, start, 0).value) == out + Dotted(Walk(m, p, hops).value)
    && if indir then enclen == EncLen(m, start) else start <= p && EncLen(m, start) == p - start + EncLen(m, p)
  }

  lemma ReadStart(m: seq<Byte>, start: nat)
    requires Walk(m, start, 0).Some?
    ensures start < |m| && Reading(m, start, start, 0, [], false, 0)
  {
  }

  lemma ReadPointer(m: seq<Byte>, start: nat, p: nat, hops: nat, out: seq<Byte>, indir: bool, enclen: int)
    requires Reading(m, start, p, hops, out, indir, enclen) && Pointer(m[p])
    ensures p + 1 < |m| && Target(m, p) < |m| && hops + 1 <= MAX_INDIRS
    ensures Reading(m, start, Target(m, p), hops + 1, out, true, if indir then enclen else p + 2 - start)
  {
  }

  lemma ReadLabel(m: seq<Byte>, start: nat, p: nat, hops: nat, out: seq<Byte>, indir: bool, enclen: int)
    requires Reading(m, start, p, hops, out, indir, enclen) && m[p] != 0 && !Pointer(m[p])
    ensures p + 1 + m[p] < |m|
    ensures var now := out + Escape(m[p + 1..p + 1 + m[p]]) + [DOT];
      && Reading(m, start, p + 1 + m[p], hops, now, indir, enclen)
      && |now| <= |Text(Walk(m, start, 0).value)| + 1
  {
    var l: Label, rest := m[p + 1..p + 1 + m[p]], Walk(m, p + 1 + m[p], hops).value;
    LengthOfText(Walk(m, start, 0).value);
    assert ([l] + rest)[1..] == rest;
    assert Walk(m, p, hops).value == [l] + rest;
    var d := Dotted(rest);
    assert Dotted([l] + rest) == Escape(l) + [DOT] + d;
    hide Walk, Dotted, Escape;
    var e := Escape(l);
    Regroup(out, e + [DOT], d);
    Regroup(out, e, [DOT]);
  }

  lemma ReadEnd(m: seq<Byte>, start: nat, p: nat, hops: nat, out: seq<Byte>, indir: bool, enclen: int)
    requires Reading(m, start, p, hops, out, indir, enclen) && m[p] == 0 && Walk(m, start, 0).value != []
    ensures out == Text(Walk(m, start, 0).value) + [DOT]
    ensures EncLen(m, start) == if indir then enclen else p + 1 - start
  {
    DottedIsText(Walk(m, start, 0).value);
  }

  lemma EscapeNothing(l: seq<Byte>)
    requires l == []
    ensures Escape(l) == []
  {
  }

  lemma EscapeNext(m: seq<Byte>, start: nat, p: nat, end: nat)
    requires start <= p < end <= |m|
    ensures Escape(m[start..p + 1]) == Escape(m[start..p]) + if Special(m[p]) then [BACKSLASH, m[p]] else [m[p]]
    ensures |Escape(m[start..p + 1])| <= |Escape(m[start..end])|
  {
    EscapeLast(m[start..p], m[p]);
    assert m[start..p] + [m[p]] == m[start..p + 1];
    EscapeSplit(m[start..p + 1], m[p + 1..end]);
    assert m[start..p + 1] + m[p + 1..end] == m[start..end];
  }

  /** The label of this length at start, with escapes, and a period */
  method WriteLabel(m: seq<Byte>, start: nat, length: nat, s: array<Byte>, at: nat) returns (q: nat)
    requires start + length <= |m| && at + |Escape(m[start..start + length])| < s.Length
    modifies s
    ensures q == at + |Escape(m[start..start + length])| + 1
    ensures s[..q] == old(s[..at]) + Escape(m[start..start + length]) + [DOT]
  {
    hide Escape;
    q := CopyLabel(m, start, length, s, at);
    q := Put(s, q, DOT);
  }

  method CopyLabel(m: seq<Byte>, start: nat, length: nat, s: array<Byte>, at: nat) returns (q: nat)
    requires start + length <= |m| && at + |Escape(m[start..start + length])| <= s.Length
    modifies s
    ensures q == at + |Escape(m[start..start + length])|
    ensures s[..q] == old(s[..at]) + Escape(m[start..start + length])
  {
    hide Escape;
    q := at;
    var p, len := start, length;
    assert Escape(m[start..p]) == [] by {
      EscapeNothing(m[start..p]);
    }
    while len > 0
      invariant 0 <= len <= length && p == start + length - len
      invariant q == at + |Escape(m[start..p])| <= s.Length
      invariant s[..q] == old(s[..at]) + Escape(m[start..p])
    {
      EscapeNext(m, start, p, start + length);
      if m[p] == DOT || m[p] == BACKSLASH {
        q := Put(s, q, BACKSLASH);
      }
      q := Put(s, q, m[p]);
      len := len - 1;
      p := p + 1;
    }
  }

  /** Only the root has an empty text; at p it takes two bytes if there is a pointer, else one. */
  lemma EmptyText(m: seq<Byte>, p: nat, indir: nat)
    requires indir <= MAX_INDIRS && Walk(m, p, indir).Some? && |Text(Walk(m, p, indir).value)| == 0
    ensures EncLen(m, p) == if Pointer(m[p]) then 2 else 1
    ensures Text(Walk(m, p, indir).value) == []
  {
    LengthOfText(Walk(m, p, indir).value);
  }

  // ----- building a query

  /** A 16-bit value in network byte order */
  function Two(v: int): (w: seq<Byte>)
    ensures |w| == 2
  {
    [(v / 256) % 256, v % 256]
  }

  function Header(id: int, rd: bool, edns: bool): (h: seq<Byte>)
    ensures |h| == HFIXEDSZ
  {
    Two(id) + [if rd then 1 else 0, 0, 0, 1, 0, 0, 0, 0, 0, if edns then 1 else 0]
  }

  function Opt(maxUdpSize: int): (o: seq<Byte>)
    ensures |o| == if maxUdpSize == 0 then 0 else EDNSFIXEDSZ
  {
    if maxUdpSize == 0 then [] else [0] + Two(T_OPT) + Two(maxUdpSize) + [0, 0, 0, 0, 0, 0]
  }

  /** A query for the name with these labels */
  function Message(ls: seq<Label>, class_: int, type_: int, id: int, rd: bool, maxUdpSize: int): seq<Byte> {
    Header(id, rd, maxUdpSize != 0) + Wire(ls) + (Two(type_) + Two(class_) + Opt(maxUdpSize))
  }

  function Lower(b: Byte): Byte {
    if 65 <= b <= 90 then b + 32 else b
  }

  /** t ends with end, in upper or lower case. */
  predicate EndsWith(t: seq<Byte>, end: seq<Byte>) {
    |end| <= |t| && forall i :: 0 <= i < |end| ==> Lower(t[|t| - |end| + i]) == Lower(end[i])
  }

  const ONION: seq<Byte> := [46, 111, 110, 105, 111, 110]

  predicate IsOnion(t: seq<Byte>) {
    EndsWith(t, ONION) || EndsWith(t, ONION + [DOT])
  }

  /** The text "." is the root. */
  function Named(t: seq<Byte>): seq<Byte> {
    if t == [DOT] then [] else t
  }

  /** The result of ares_create_query as a value: the message, or None when the name is refused. */
  function Encoded(name: seq<Byte>, class_: int, type_: int, id: int, rd: bool, maxUdpSize: int): Option<seq<Byte>> {
    if IsOnion(name) then None else match LabelsOf(Named(name))
      case None => None
      case Some(ls) =>
        if |Wire(ls)| > MAXCDNAME then None else Some(Message(ls, class_, type_, id, rd, maxUdpSize))
  }

  datatype Built = NotFound | Rejected | Built(buf: array<Byte>, length: nat)

  function AllocatedSize(name: seq<Byte>, maxUdpSize: int): nat {
    |name| + 2 + HFIXEDSZ + QFIXEDSZ + if maxUdpSize != 0 then EDNSFIXEDSZ else 0
  }

  /** ares_create_query; a name is what comes before the terminating zero. */
  method CreateQuery(name: seq<Byte>, class_: int, type_: int, id: int, rd: bool, maxUdpSize: int) returns (r: Built)
    requires 0 !in name
    ensures if IsOnion(name) then r.NotFound? else match Encoded(name, class_, type_, id, rd, maxUdpSize)
      case None => r.Rejected?
      case Some(m) =>
        && r.Built? && r.buf.Length == AllocatedSize(name, maxUdpSize)
        && r.length <= r.buf.Length && r.buf[..r.length] == m
    ensures r.Built? <==>
      !IsOnion(name) && LabelsOf(Named(name)).Some? && |Wire(LabelsOf(Named(name)).value)| <= 255
    ensures r.Built? ==> Asks(r.buf[..r.length], LabelsOf(Named(name)).value, class_, type_, id, rd, maxUdpSize)
  {
    hide Asks;
    if IsOnion(name) {
      return NotFound;
    }
    var buf := new Byte[AllocatedSize(name, maxUdpSize)];
    WriteHeader(buf, id, rd, maxUdpSize != 0);
    var ok, q := WriteName(Named(name), buf, HFIXEDSZ);
    if !ok {
      return Rejected;
    }
    ghost var ls := LabelsOf(Named(name)).value;
    hide LabelsOf, Body, Header, Two, Opt, IsOnion;
    q := Put(buf, q, 0);
    q := WriteTwo(buf, q, type_);
    q := WriteTwo(buf, q, class_);
    if maxUdpSize != 0 {
      q := WriteOpt(buf, q, maxUdpSize);
    }
    assert buf[..q] == Message(ls, class_, type_, id, rd, maxUdpSize) by {
      hide Wire;
      assert maxUdpSize == 0 ==> Opt(maxUdpSize) == [];
      Assemble(Header(id, rd, maxUdpSize != 0), Body(ls), Two(type_), Two(class_), Opt(maxUdpSize));
      assert Wire(ls) == Body(ls) + [0] by {
        WireIs(ls);
      }
    }
    if q > MAXCDNAME + HFIXEDSZ + QFIXEDSZ + if maxUdpSize != 0 then EDNSFIXEDSZ else 0 {
      return Rejected;
    }
    LabelsNonEmpty(Named(name));
    MessageAsks(ls, class_, type_, id, rd, maxUdpSize);
    return Built(buf, q);
  }

  lemma WireReadsBack(h: seq<Byte>, ls: seq<Label>, t: seq<Byte>)
    requires NonEmpty(ls) && |h| == 12
    ensures var m := h + Wire(ls) + t; Walk(m, 12, 0) == Some(ls) && EncLen(m, 12) == |Wire(ls)|
  {
    WireRoundTrip(h, ls, t);
  }

  /** What is built is what a receiver reads. */
  lemma MessageAsks(ls: seq<Label>, class_: int, type_: int, id: int, rd: bool, maxUdpSize: int)
    requires NonEmpty(ls)
    ensures Asks(Message(ls, class_, type_, id, rd, maxUdpSize), ls, class_, type_, id, rd, maxUdpSize)
  {
    var h, w, t, c, o := Header(id, rd, maxUdpSize != 0), Wire(ls), Two(type_), Two(class_), Opt(maxUdpSize);
    Regrouped(h, w, t, c, o);
    WireReadsBack(h, ls, t + c + o);
    HeaderReads(id, rd, maxUdpSize != 0, w + (t + c + o));
    QuestionReads(h + w, type_, class_, o);
    if maxUdpSize != 0 {
      OptReads(h + w + t + c, maxUdpSize);
    }
    hide Header, Wire, Two, Walk, EncLen, Opt, StartsQuery, EndsQuestion, EndsWithOpt;
  }

  lemma Regrouped(h: seq<Byte>, w: seq<Byte>, t: seq<Byte>, c: seq<Byte>, o: seq<Byte>)
    ensures h + w + (t + c + o) == h + (w + (t + c + o)) && h + w + (t + c + o) == h + w + t + c + o
  {
  }

  lemma HeaderReads(id: int, rd: bool, edns: bool, rest: seq<Byte>)
    ensures StartsQuery(Header(id, rd, edns) + rest, id, rd, if edns then 1 else 0)
  {
    TwoIs(id);
    var h := Header(id, rd, edns);
    var m := h + rest;
    assert forall i :: 0 <= i < 12 ==> m[i] == h[i];
  }

  lemma QuestionReads(pre: seq<Byte>, type_: int, class_: int, rest: seq<Byte>)
    ensures EndsQuestion(pre + Two(type_) + Two(class_) + rest, |pre|, type_, class_)
  {
    TwoIs(type_);
    TwoIs(class_);
    var t, c := Two(type_), Two(class_);
    var m := pre + t + c + rest;
    assert m[|pre|] == t[0] && m[|pre| + 1] == t[1] && m[|pre| + 2] == c[0] && m[|pre| + 3] == c[1];
  }

  lemma OptReads(pre: seq<Byte>, size: int)
    requires size != 0
    ensures EndsWithOpt(pre + Opt(size), |pre|, size)
  {
    TwoIs(size);
    var o := Opt(size);
    var m := pre + o;
    assert forall i :: 0 <= i < 11 ==> m[|pre| + i] == o[i];
    forall i | |pre| + 5 <= i < |m|
      ensures m[i] == 0
    {
      assert m[i] == o[i - |pre|];
    }
  }

  lemma TwoIs(v: int)
    ensures var high: int, low: int := Two(v)[0], Two(v)[1]; 256 * high + low == v % 0x10000
  {
  }

  /** Names under onion are told by their end, in upper or lower case, with or without a final period. */
  lemma OnionEnds(t: seq<Byte>)
    ensures IsOnion(t + Ascii(".oNion")) && IsOnion(t + Ascii(".ONION."))
    ensures IsOnion(t) ==> t != [] && (t[|t| - 1] == '.' as int || t[|t| - 1] == 'n' as int || t[|t| - 1] == 'N' as int)
  {
    EndsIs(t, Ascii(".oNion"), ONION);
    EndsIs(t, Ascii(".ONION."), ONION + [DOT]);
    LastIs(t, ONION);
    LastIs(t, ONION + [DOT]);
    hide EndsWith;
  }

  lemma LastIs(t: seq<Byte>, end: seq<Byte>)
    requires end != []
    ensures EndsWith(t, end) ==> t != [] && Lower(t[|t| - 1]) == Lower(end[|end| - 1])
  {
    if EndsWith(t, end) {
      assert Lower(t[|t| - |end| + (|end| - 1)]) == Lower(end[|end| - 1]);
    }
  }

  lemma EndsIs(t: seq<Byte>, a: seq<Byte>, end: seq<Byte>)
    requires |a| == |end| && forall i :: 0 <= i < |a| ==> Lower(a[i]) == Lower(end[i])
    ensures EndsWith(t + a, end)
  {
  }

  lemma Assemble(h: seq<Byte>, b: seq<Byte>, t: seq<Byte>, c: seq<Byte>, o: seq<Byte>)
    ensures h + b + [0] + t + c + o == h + (b + [0]) + (t + c + o)
  {
  }

  lemma WireIs(ls: seq<Label>)
    ensures Wire(ls) == Body(ls) + [0]
  {
  }

  method WriteTwo(buf: array<Byte>, at: nat, v: int) returns (q: nat)
    requires at + 2 <= buf.Length
    modifies buf
    ensures q == at + 2 && buf[..q] == old(buf[..at]) + Two(v)
  {
    buf[at] := (v / 256) % 256;
    buf[at + 1] := v % 256;
    q := at + 2;
  }

  method WriteHeader(buf: array<Byte>, id: int, rd: bool, edns: bool)
    requires HFIXEDSZ <= buf.Length
    modifies buf
    ensures buf[..HFIXEDSZ] == Header(id, rd, edns)
  {
    forall i | 0 <= i < HFIXEDSZ {
      buf[i] := 0;
    }
    buf[0], buf[1] := (id / 256) % 256, id % 256;
    if rd {
      buf[2] := 1;
    }
    buf[5] := 1;
    if edns {
      buf[11] := 1;
    }
  }

  method WriteOpt(buf: array<Byte>, at: nat, maxUdpSize: int) returns (q: nat)
    requires at + EDNSFIXEDSZ <= buf.Length && maxUdpSize != 0
    modifies buf
    ensures q == at + EDNSFIXEDSZ && buf[..q] == old(buf[..at]) + Opt(maxUdpSize)
  {
    forall i | at <= i < at + EDNSFIXEDSZ {
      buf[i] := 0;
    }
    buf[at + 1], buf[at + 2] := 0, T_OPT;
    buf[at + 3], buf[at + 4] := (maxUdpSize / 256) % 256, maxUdpSize % 256;
    q := at + EDNSFIXEDSZ;
  }

  /** The labels of the name, without the final zero; the buffer keeps room for that. */
  method WriteName(t: seq<Byte>, buf: array<Byte>, at: nat) returns (ok: bool, q: nat)
    requires 0 !in t && at + |t| + 2 <= buf.Length
    modifies buf
    ensures ok <==> LabelsOf(t).Some?
    ensures ok ==> at <= q <= at + |t| + 1 && buf[..q] == old(buf[..at]) + Body(LabelsOf(t).value)
  {
    hide LabelsOf, LabelAt, RestAt, Body, Encoding;
    q := at;
    var n := 0;
    ghost var done: seq<Byte> := [];
    EncodeStart(t);
    while n < |t|
      invariant n <= |t| && at <= q && q + |t| - n <= at + |t|
      invariant Encoding(t, n, done) && buf[..q] == old(buf[..at]) + done
    {
      if t[n] == DOT {
        EncodeFails(t, n, done);
        return false, q;
      }
      var p, len := CountLabel(t, n);
      if len > MAXLABEL {
        EncodeFails(t, n, done);
        return false, q;
      }
      EncodeStep(t, n, p, done);
      ghost var n0 := n;
      q := Put(buf, q, len);
      q := CopyUnescaped(t, n, p, buf, q);
      Regroup(old(buf[..at]), done, [len] + LabelAt(t[n0..]));
      Regroup(old(buf[..at]) + done, [len], LabelAt(t[n0..]));
      if p == |t| {
        return true, q;
      }
      n := p + 1;
      done := done + ([len] + LabelAt(t[n0..]));
    }
    ok := true;
    EncodeEnd(t, n, done);
  }

  /** The body of the whole text's labels is what is done and that of the labels from n on. */
  ghost predicate Encoding(t: seq<Byte>, n: nat, done: seq<Byte>) {
    n <= |t| &&
    match LabelsOf(t[n..])
    case None => LabelsOf(t) == None
    case Some(ls) => LabelsOf(t).Some? && Body(LabelsOf(t).value) == done + Body(ls)
  }

  lemma EncodeStart(t: seq<Byte>)
    ensures Encoding(t, 0, [])
  {
    assert t[0..] == t;
    if LabelsOf(t).Some? {
      assert [] + Body(LabelsOf(t).value) == Body(LabelsOf(t).value);
    }
  }

  lemma EncodeEnd(t: seq<Byte>, n: nat, done: seq<Byte>)
    requires Encoding(t, n, done) && n == |t|
    ensures LabelsOf(t).Some? && Body(LabelsOf(t).value) == done
  {
    assert done + [] == done;
  }

  lemma EncodeFails(t: seq<Byte>, n: nat, done: seq<Byte>)
    requires Encoding(t, n, done) && n < |t| && (t[n] == DOT || |LabelAt(t[n..])| > MAXLABEL)
    ensures LabelsOf(t) == None
  {
  }

  lemma EncodeStep(t: seq<Byte>, n: nat, p: nat, done: seq<Byte>)
    requires Encoding(t, n, done) && n < p <= |t| && t[n] != DOT
    requires |LabelAt(t[n..])| <= MAXLABEL && RestAt(t[n..]) == t[p..]
    ensures var now := done + ([|LabelAt(t[n..])|] + LabelAt(t[n..]));
      if p == |t| then LabelsOf(t).Some? && Body(LabelsOf(t).value) == now else Encoding(t, p + 1, now)
  {
    var l: Label := LabelAt(t[n..]);
    if p == |t| {
      BodyLast([], l);
      assert [] + [l] == [l];
      assert Body([l]) == [|l|] + l;
    } else {
      assert RestAt(t[n..])[1..] == t[p + 1..];
      match LabelsOf(t[p + 1..])
      case None =>
      case Some(ls) =>
        assert ([l] + ls)[1..] == ls;
        assert Body([l] + ls) == [|l|] + l + Body(ls);
        Regroup(done, [|l|] + l, Body(ls));
    }
  }

  lemma ScanStep(t: seq<Byte>, p: nat)
    requires p < |t| && t[p] != DOT
    ensures var next := if t[p] == BACKSLASH && p + 1 < |t| then p + 1 else p;
      LabelAt(t[p..]) == [t[next]] + LabelAt(t[next + 1..]) && RestAt(t[p..]) == RestAt(t[next + 1..])
  {
    assert t[p..][1..] == t[p + 1..];
    if t[p] == BACKSLASH && p + 1 < |t| {
      assert t[p..][2..] == t[p + 2..];
    }
  }

  method CountLabel(t: seq<Byte>, n: nat) returns (p: nat, len: nat)
    requires n < |t| && t[n] != DOT
    ensures n < p <= |t| && (p < |t| ==> t[p] == DOT)
    ensures len == |LabelAt(t[n..])| && len <= p - n && RestAt(t[n..]) == t[p..]
  {
    hide LabelAt, RestAt;
    p, len := n, 0;
    while p < |t| && t[p] != DOT
      invariant n <= p <= |t| && len <= p - n && (p == n ==> t[p] != DOT)
      invariant len + |LabelAt(t[p..])| == |LabelAt(t[n..])| && RestAt(t[p..]) == RestAt(t[n..])
      decreases |t| - p
    {
      ScanStep(t, p);
      if t[p] == BACKSLASH && p + 1 < |t| {
        p := p + 1;
      }
      len := len + 1;
      p := p + 1;
    }
    ScanEnd(t, p);
  }

  method CopyUnescaped(t: seq<Byte>, n: nat, end: nat, buf: array<Byte>, at: nat) returns (q: nat)
    requires n < end <= |t| && RestAt(t[n..]) == t[end..] && at + |LabelAt(t[n..])| <= buf.Length
    modifies buf
    ensures q == at + |LabelAt(t[n..])| && buf[..q] == old(buf[..at]) + LabelAt(t[n..])
  {
    hide LabelAt, RestAt;
    q := at;
    var p := n;
    ghost var done: seq<Byte> := [];
    assert done + LabelAt(t[p..]) == LabelAt(t[n..]);
    while p < |t| && t[p] != DOT
      invariant n <= p <= |t| && q == at + |done|
      invariant done + LabelAt(t[p..]) == LabelAt(t[n..])
      invariant buf[..q] == old(buf[..at]) + done
      decreases |t| - p
    {
      ScanStep(t, p);
      if t[p] == BACKSLASH && p + 1 < |t| {
        p := p + 1;
      }
      Regroup(done, [t[p]], LabelAt(t[p + 1..]));
      Regroup(old(buf[..at]), done, [t[p]]);
      q := Put(buf, q, t[p]);
      done := done + [t[p]];
      p := p + 1;
    }
    ScanEnd(t, p);
    assert done + [] == done;
  }

  lemma ScanEnd(t: seq<Byte>, p: nat)
    requires p <= |t| && (p < |t| ==> t[p] == DOT)
    ensures LabelAt(t[p..]) == [] && RestAt(t[p..]) == t[p..]
  {
  }

  // ----- the two together

  ghost predicate NoZero(ls: seq<Label>) {
    forall i :: 0 <= i < |ls| ==> 0 !in ls[i]
  }

  lemma {:induction false} EscapeNoZero(l: seq<Byte>)
    requires 0 !in l
    ensures 0 !in Escape(l)
  {
    if l != [] {
      EscapeNoZero(l[1..]);
    }
  }

  lemma {:induction false} TextNoZero(ls: seq<Label>)
    requires NoZero(ls)
    ensures 0 !in Text(ls)
  {
    if ls != [] {
      EscapeNoZero(ls[0]);
      TextNoZero(ls[1..]);
    }
  }

  lemma TextNotDot(ls: seq<Label>)
    requires NonEmpty(ls)
    ensures Named(Text(ls)) == Text(ls)
  {
    if ls != [] {
      EscapeStart(ls[0]);
    }
  }

  /** A name's escaped text can be encoded, and is what is read back after the header. */
  lemma EncodeThenExpand(ls: seq<Label>, class_: int, type_: int, id: int, rd: bool, maxUdpSize: int)
    requires NonEmpty(ls) && NoZero(ls) && |Wire(ls)| <= MAXCDNAME && !IsOnion(Text(ls))
    ensures 0 !in Text(ls)
    ensures var m := Encoded(Text(ls), class_, type_, id, rd, maxUdpSize);
      m.Some? && Walk(m.value, HFIXEDSZ, 0) == Some(ls) && EncLen(m.value, HFIXEDSZ) == |Wire(ls)|
  {
    TextNoZero(ls);
    TextNotDot(ls);
    TextRoundTrip(ls);
    WireRoundTrip(Header(id, rd, maxUdpSize != 0), ls, Two(type_) + Two(class_) + Opt(maxUdpSize));
  }

  /** Any accepted spelling of a name is read back as that name's escaped text, whose encoding is the same. */
  lemma ExpandIsCanonical(name: seq<Byte>, class_: int, type_: int, id: int, rd: bool, maxUdpSize: int)
    requires Encoded(name, class_, type_, id, rd, maxUdpSize).Some?
    ensures var m, ls := Encoded(name, class_, type_, id, rd, maxUdpSize).value, LabelsOf(Named(name)).value;
      && Walk(m, HFIXEDSZ, 0) == Some(ls) && EncLen(m, HFIXEDSZ) == |Wire(ls)|
      && (!IsOnion(Text(ls)) ==> Encoded(Text(ls), class_, type_, id, rd, maxUdpSize) == Some(m))
  {
    var ls := LabelsOf(Named(name)).value;
    LabelsNonEmpty(Named(name));
    TextNotDot(ls);
    TextRoundTrip(ls);
    WireRoundTrip(Header(id, rd, maxUdpSize != 0), ls, Two(type_) + Two(class_) + Opt(maxUdpSize));
  }
}
