/**
 The text forms of IPv6 addresses (RFC 4291 section 2.2): what inet_ntop6 prints, what
 inet_net_pton_ipv6 accepts, and that the second undoes the first
 (c-ares/inet_ntop.c, inet_net_pton.c).
 */
module Ipv6Text {
  import opened Options
  import opened Octets

  type Word = x: int | 0 <= x < 0x10000

  // ----- addresses

  /** The two bytes of each word, most significant first */
  function Bytes(ws: seq<Word>): (bs: seq<Byte>)
    ensures |bs| == 2 * |ws|
  {
    if ws == [] then [] else [ws[0] / 256, ws[0] % 256] + Bytes(ws[1..])
  }

  lemma {:induction false} BytesSplit(a: seq<Word>, b: seq<Word>)
    ensures Bytes(a + b) == Bytes(a) + Bytes(b)
  {
    if a == [] {
      assert a + b == b;
    } else {
      assert (a + b)[1..] == a[1..] + b;
      BytesSplit(a[1..], b);
    }
  }

  function WordAt(high: int, low: int): Word
    requires 0 <= high < 256 && 0 <= low < 256
  {
    high * 256 + low
  }

  function WordsOf(bs: seq<Byte>): (ws: seq<Word>)
    requires |bs| % 2 == 0
    ensures |ws| == |bs| / 2
    ensures forall i :: 0 <= i < |ws| ==> ws[i] == WordAt(bs[2 * i], bs[2 * i + 1])
  {
    if bs == [] then [] else [WordAt(bs[0], bs[1])] + WordsOf(bs[2..])
  }

  lemma {:induction false} BytesOfWords(bs: seq<Byte>)
    requires |bs| % 2 == 0
    ensures Bytes(WordsOf(bs)) == bs
    decreases |bs|
  {
    if bs != [] {
      BytesOfWords(bs[2..]);
      assert bs == [bs[0], bs[1]] + bs[2..];
      assert WordsOf(bs)[1..] == WordsOf(bs[2..]);
    }
  }

  function Zeros(n: nat): (z: seq<Byte>)
    ensures |z| == n && forall i :: 0 <= i < n ==> z[i] == 0
  {
    seq(n, i => 0)
  }

  lemma {:induction false} BytesOfZeros(ws: seq<Word>)
    requires forall i :: 0 <= i < |ws| ==> ws[i] == 0
    ensures Bytes(ws) == Zeros(2 * |ws|)
  {
    if ws != [] {
      BytesOfZeros(ws[1..]);
    }
  }

  // ----- numbers

  function DigitChar(d: nat): char
    requires d < 16
  {
    "0123456789abcdef"[d]
  }

  function HexValue(c: char): (r: Option<nat>)
    ensures r.Some? ==> r.value < 16
  {
    if '0' <= c <= '9' then Some((c - '0') as int)
    else if 'a' <= c <= 'f' then Some((c - 'a') as int + 10)
    else if 'A' <= c <= 'F' then Some((c - 'A') as int + 10)
    else None
  }

  function DecValue(c: char): (r: Option<nat>)
    ensures r.Some? ==> r.value < 10
  {
    if '0' <= c <= '9' then Some((c - '0') as int) else None
  }

  /** Without leading zeros */
  function Digits(x: nat, base: nat): string
    requires 2 <= base <= 16
  {
    if x < base then [DigitChar(x)] else Digits(x / base, base) + [DigitChar(x % base)]
  }

  lemma DigitCharIs(d: nat)
    requires d < 16
    ensures HexValue(DigitChar(d)) == Some(d) && (d < 10 ==> DecValue(DigitChar(d)) == Some(d))
  {
  }

  lemma WordDigits(x: Word)
    ensures 1 <= |Digits(x, 16)| <= 4 && HexValue(Digits(x, 16)[0]).Some?
  {
    DigitStart(x, 16);
    assert |Digits(x / 16 / 16 / 16, 16)| == 1;
    assert |Digits(x / 16 / 16, 16)| <= 2;
    assert |Digits(x / 16, 16)| <= 3;
  }

  lemma ByteDigits(x: Byte)
    ensures 1 <= |Digits(x, 10)| <= 3
  {
    assert |Digits(x / 10 / 10, 10)| == 1;
    assert |Digits(x / 10, 10)| <= 2;
  }

  lemma {:induction false} DigitStart(x: nat, base: nat)
    requires 2 <= base <= 16
    ensures |Digits(x, base)| >= 1 && HexValue(Digits(x, base)[0]).Some?
  {
    if x < base {
      DigitCharIs(x);
    } else {
      DigitStart(x / base, base);
    }
  }

  // ----- printing

  /** Words i to j in hexadecimal, separated by colons */
  function Groups(ws: seq<Word>, i: nat, j: nat): string
    requires i <= j <= |ws|
    decreases j - i
  {
    if i == j then ""
    else if i + 1 == j then Digits(ws[i], 16)
    else Digits(ws[i], 16) + ":" + Groups(ws, i + 1, j)
  }

  function Dotted(a: Byte, b: Byte, c: Byte, d: Byte): string {
    Digits(a, 10) + "." + Digits(b, 10) + "." + Digits(c, 10) + "." + Digits(d, 10)
  }

  function DottedWords(v: Word, w: Word): string {
    Dotted(v / 256, v % 256, w / 256, w % 256)
  }

  /** A run of zero words */
  datatype Run = NoRun | Run(base: nat, len: nat)

  ghost predicate IsRun(ws: seq<Word>, base: nat, len: nat) {
    base + len <= |ws| && forall i :: base <= i < base + len ==> ws[i] == 0
  }

  ghost predicate ZeroRun(ws: seq<Word>, r: Run) {
    r.Run? ==> r.len >= 2 && IsRun(ws, r.base, r.len)
  }

  /** No run is longer, and no earlier one is as long; NoRun when none has two words. */
  ghost predicate Longest(ws: seq<Word>, r: Run) {
    && ZeroRun(ws, r)
    && forall b: nat, n: nat :: IsRun(ws, b, n) && n >= 2 ==> r.Run? && n <= r.len && (n == r.len ==> r.base <= b)
  }

  /** The text with the run written as "::", and an embedded IPv4 address at the end where that form applies. */
  function Form(ws: seq<Word>, r: Run): string
    requires |ws| == 8 && (r.Run? ==> r.base + r.len <= 8)
  {
    match r
    case NoRun => Groups(ws, 0, 8)
    case Run(b, n) =>
      if b == 0 && n == 6 then "::" + DottedWords(ws[6], ws[7])
      else if b == 0 && n == 5 && ws[5] == 0xffff then "::" + Digits(ws[5], 16) + ":" + DottedWords(ws[6], ws[7])
      else Groups(ws, 0, b) + "::" + Groups(ws, b + n, 8)
  }

  // ----- parsing

  /** getbits: the number of bits after a slash */
  function GetBits(t: string, val: nat, n: nat): (r: Option<nat>)
    requires val <= 128
    ensures r.Some? ==> r.value <= 128
  {
    if t == "" then (if n == 0 then None else Some(val))
    else match DecValue(t[0])
      case None => None
      case Some(d) =>
        if n != 0 && val == 0 then None
        else if val * 10 + d > 128 then None
        else GetBits(t[1..], val * 10 + d, n + 1)
  }

  datatype V4 = V4(bytes: seq<Byte>, bits: Option<nat>)

  /** getv4: up to four octets, and a number of bits if there is a slash */
  function GetV4(t: string, out: seq<Byte>, val: Byte, n: nat): (r: Option<V4>)
    requires |out| <= 4
    ensures r.Some? ==> |r.value.bytes| <= 4 && (r.value.bits.Some? ==> r.value.bits.value <= 128)
  {
    if t == "" then (if n == 0 || |out| > 3 then None else Some(V4(out + [val], None)))
    else match DecValue(t[0])
      case Some(d) =>
        if n != 0 && val == 0 then None
        else if val * 10 + d > 255 then None
        else GetV4(t[1..], out, val * 10 + d, n + 1)
      case None =>
        if t[0] == '.' || t[0] == '/' then
          if |out| > 3 then None
          else if t[0] == '/' then
            match GetBits(t[1..], 0, 0)
            case None => None
            case Some(bits) => Some(V4(out + [val], Some(bits)))
          else GetV4(t[1..], out + [val], 0, 0)
        else None
  }

  /** The variables of the parser's loop; token is the text from the last colon on. */
  datatype Scanner = Scanner(out: seq<Byte>, colon: Option<nat>, saw: bool, val: nat, digits: nat, token: string)

  datatype Scanned =
    | Malformed                // ENOENT
    | TooManyGroups            // the source returns 0 here
    | Scanned(out: seq<Byte>, colon: Option<nat>, saw: bool, val: nat, bits: Option<nat>, ipv4: bool)

  function Four(bytes: seq<Byte>): seq<Byte>
    requires |bytes| <= 4
  {
    bytes + Zeros(4 - |bytes|)
  }

  function Scan(t: string, s: Scanner): Scanned
    decreases |t|
  {
    if t == "" then Scanned(s.out, s.colon, s.saw, s.val, None, false)
    else match HexValue(t[0])
      case Some(d) =>
        if s.digits + 1 > 4 then Malformed
        else Scan(t[1..], s.(val := s.val * 16 + d, digits := s.digits + 1, saw := true))
      case None =>
        if t[0] == ':' then
          if !s.saw then
            if s.colon.Some? then Malformed
            else Scan(t[1..], s.(colon := Some(|s.out|), token := t[1..]))
          else if t[1..] == "" then Malformed
          else if |s.out| + 2 > 16 then TooManyGroups
          else Scan(t[1..], Scanner(s.out + [(s.val / 256) % 256, s.val % 256], s.colon, false, 0, 0, t[1..]))
        else if t[0] == '.' && |s.out| + 4 <= 16 && GetV4(s.token, [], 0, 0).Some? then
          var v := GetV4(s.token, [], 0, 0).value;
          Scanned(s.out + Four(v.bytes), s.colon, false, s.val, v.bits, true)
        else if t[0] == '/' && GetBits(t[1..], 0, 0).Some? then
          Scanned(s.out, s.colon, s.saw, s.val, GetBits(t[1..], 0, 0), false)
        else Malformed
  }

  datatype Parsed =
    | NotFound                 // ENOENT
    | Zero                     // the source returns 0 without an address
    | TooSmall                 // EMSGSIZE
    | Unspecified              // the shift for "::" would not stay in the temporary buffer
    | Address(bits: nat, bytes: seq<Byte>)

  /** The number of bytes that a prefix of this many bits is written with */
  function Extent(bits: nat, ipv4: bool): (n: nat)
    requires bits <= 128
    ensures 4 <= n <= 16
  {
    if ipv4 then 16 else if (bits + 15) / 16 < 2 then 4 else 2 * ((bits + 15) / 16)
  }

  /** What follows the loop: the last group, the gap for "::", the length checks */
  function Finish(s: Scanned, size: nat): Parsed
    requires s.Scanned? ==> |s.out| <= 16 && (s.colon.Some? ==> s.colon.value <= |s.out|)
    requires s.Scanned? && s.bits.Some? ==> s.bits.value <= 128
  {
    match s
    case Malformed => NotFound
    case TooManyGroups => Zero
    case Scanned(out0, colon, saw, val, bits0, ipv4) =>
      if saw && |out0| + 2 > 16 then NotFound
      else
        var out := if saw then out0 + [(val / 256) % 256, val % 256] else out0;
        var bits := if bits0.None? then 128 else bits0.value;
        var end := Extent(bits, ipv4);
        var count := (bits + 7) / 8;
        if colon.Some? then
          if |out| == end then NotFound
          else if |out| - colon.value > end then Unspecified
          else if count > size then TooSmall
          else Address(bits, Shift(out + Zeros(16 - |out|), colon.value, |out| - colon.value, end, 1)[..count])
        else if |out| != end then NotFound
        else if count > size then TooSmall
        else Address(bits, out[..count])
  }

  /** The shift as the source makes it, byte by byte, from the last one */
  function Shift(buf: seq<Byte>, colon: nat, n: nat, end: nat, i: nat): (r: seq<Byte>)
    requires |buf| == 16 && colon + n <= 16 && n <= end <= 16 && 1 <= i <= n + 1
    ensures |r| == 16
    decreases n + 1 - i
  {
    if i > n then buf else Shift(buf[end - i := buf[colon + n - i]][colon + n - i := 0], colon, n, end, i + 1)
  }

  // ----- parsing what was printed

  /** inet_net_pton_ipv6 on a text: a leading colon must be followed by another, and is skipped. */
  function Parse(t: string, size: nat): Parsed {
    if t != "" && t[0] == ':' then
      if |t| < 2 || t[1] != ':' then NotFound else ScanAll(t[1..], size)
    else ScanAll(t, size)
  }

  function ScanAll(t: string, size: nat): Parsed {
    ScanFits(t, Scanner([], None, false, 0, 0, t));
    Finish(Scan(t, Scanner([], None, false, 0, 0, t)), size)
  }

  /** The scan never writes past the buffer, and the gap is inside what was written. */
  lemma {:induction false} ScanFits(t: string, s: Scanner)
    requires |s.out| <= 16 && (s.colon.Some? ==> s.colon.value <= |s.out|)
    ensures var r := Scan(t, s); r.Scanned? ==>
      |r.out| <= 16 && (r.colon.Some? ==> r.colon.value <= |r.out|) && (r.bits.Some? ==> r.bits.value <= 128)
    decreases |t|
  {
    if t != "" {
      match HexValue(t[0])
      case Some(d) =>
        if s.digits + 1 <= 4 {
          ScanFits(t[1..], s.(val := s.val * 16 + d, digits := s.digits + 1, saw := true));
        }
      case None =>
        if t[0] == ':' {
          if !s.saw {
            if s.colon.None? {
              ScanFits(t[1..], s.(colon := Some(|s.out|), token := t[1..]));
            }
          } else if t[1..] != "" && |s.out| + 2 <= 16 {
            ScanFits(t[1..], Scanner(s.out + [(s.val / 256) % 256, s.val % 256], s.colon, false, 0, 0, t[1..]));
          }
        }
    }
  }

  lemma Regroup(a: string, b: string, c: string)
    ensures a + b + c == a + (b + c)
  {
  }

  /** One step of the scan, at a digit, at a colon and elsewhere */
  lemma AtDigit(t: string, s: Scanner)
    requires t != "" && HexValue(t[0]).Some?
    ensures Scan(t, s) == if s.digits + 1 > 4 then Malformed
      else Scan(t[1..], s.(val := s.val * 16 + HexValue(t[0]).value, digits := s.digits + 1, saw := true))
  {
    hide HexValue, GetV4, GetBits, Four;
  }

  lemma AtColon(t: string, s: Scanner)
    requires t != "" && t[0] == ':'
    ensures Scan(t, s) ==
      if !s.saw then
        (if s.colon.Some? then Malformed else Scan(t[1..], s.(colon := Some(|s.out|), token := t[1..])))
      else if t[1..] == "" then Malformed
      else if |s.out| + 2 > 16 then TooManyGroups
      else Scan(t[1..], Scanner(s.out + [(s.val / 256) % 256, s.val % 256], s.colon, false, 0, 0, t[1..]))
  {
    ColonIsNoDigit();
    hide HexValue, GetV4, GetBits, Four;
  }

  lemma AtOther(t: string, s: Scanner)
    requires t != "" && t[0] != ':' && HexValue(t[0]).None?
    ensures Scan(t, s) ==
      if t[0] == '.' && |s.out| + 4 <= 16 && GetV4(s.token, [], 0, 0).Some? then
        var v := GetV4(s.token, [], 0, 0).value;
        Scanned(s.out + Four(v.bytes), s.colon, false, s.val, v.bits, true)
      else if t[0] == '/' && GetBits(t[1..], 0, 0).Some? then
        Scanned(s.out, s.colon, s.saw, s.val, GetBits(t[1..], 0, 0), false)
      else Malformed
  {
    hide HexValue, GetV4, GetBits, Four;
  }

  lemma ScanDigit(d: nat, rest: string, s: Scanner)
    requires d < 16 && s.digits < 4
    ensures Scan([DigitChar(d)] + rest, s) == Scan(rest, s.(val := s.val * 16 + d, digits := s.digits + 1, saw := true))
  {
    hide Scan, HexValue, DecValue, DigitChar;
    DigitCharIs(d);
    AtDigit([DigitChar(d)] + rest, s);
    assert ([DigitChar(d)] + rest)[1..] == rest;
  }

  /** Scanning a printed number leaves its value. */
  lemma {:induction false} ScanNumber(x: nat, rest: string, s: Scanner)
    requires |Digits(x, 16)| <= 4 && s.digits == 0 && s.val == 0
    ensures Scan(Digits(x, 16) + rest, s) == Scan(rest, s.(val := x, digits := |Digits(x, 16)|, saw := true))
    decreases x
  {
    hide Scan;
    if x < 16 {
      ScanDigit(x, rest, s);
    } else {
      var last := [DigitChar(x % 16)];
      ScanNumber(x / 16, last + rest, s);
      Regroup(Digits(x / 16, 16), last, rest);
      ScanDigit(x % 16, rest, s.(val := x / 16, digits := |Digits(x / 16, 16)|, saw := true));
    }
  }

  lemma ColonIsNoDigit()
    ensures HexValue(':') == None
  {
  }

  lemma ScanColon(rest: string, s: Scanner)
    requires s.saw && rest != "" && |s.out| + 2 <= 16 && s.val < 0x10000
    ensures Scan(":" + rest, s) == Scan(rest, Scanner(s.out + [s.val / 256, s.val % 256], s.colon, false, 0, 0, rest))
  {
    hide Scan;
    AtColon(":" + rest, s);
    assert (":" + rest)[1..] == rest;
  }

  lemma ScanGap(rest: string, s: Scanner)
    requires !s.saw && s.colon.None?
    ensures Scan(":" + rest, s) == Scan(rest, s.(colon := Some(|s.out|), token := rest))
  {
    hide Scan;
    AtColon(":" + rest, s);
    assert (":" + rest)[1..] == rest;
  }

  /** At the start of a group */
  predicate Fresh(s: Scanner, t: string) {
    !s.saw && s.val == 0 && s.digits == 0 && s.token == t
  }

  /** Scanning printed groups writes all but the last, which is still pending. */
  lemma {:induction false} ScanGroups(ws: seq<Word>, i: nat, j: nat, rest: string, s: Scanner)
    requires i < j <= |ws| && |s.out| + 2 * (j - i - 1) <= 16 && Fresh(s, Groups(ws, i, j) + rest)
    ensures Scan(Groups(ws, i, j) + rest, s) ==
      Scan(rest, Scanner(s.out + Bytes(ws[i..j - 1]), s.colon, true, ws[j - 1], |Digits(ws[j - 1], 16)|,
                         Digits(ws[j - 1], 16) + rest))
    decreases j - i
  {
    hide Scan, Digits, Bytes, HexValue, Groups;
    GroupsFirst(ws, i, j);
    WordDigits(ws[i]);
    if i + 1 == j {
      ScanNumber(ws[i], rest, s);
      BytesNone(ws[i..j - 1]);
      assert s.out + Bytes(ws[i..j - 1]) == s.out;
    } else {
      GroupsStart(ws, i + 1, j);
      var next := Groups(ws, i + 1, j) + rest;
      assert Groups(ws, i, j) + rest == Digits(ws[i], 16) + ":" + next;
      ScanGroup(ws[i], next, s);
      ScanGroups(ws, i + 1, j, rest, Scanner(s.out + [ws[i] / 256, ws[i] % 256], s.colon, false, 0, 0, next));
      BytesNext(s.out, ws, i, j - 1);
    }
  }

  lemma GroupsFirst(ws: seq<Word>, i: nat, j: nat)
    requires i < j <= |ws|
    ensures Groups(ws, i, j) == if i + 1 == j then Digits(ws[i], 16) else Digits(ws[i], 16) + ":" + Groups(ws, i + 1, j)
  {
  }

  lemma BytesNone(ws: seq<Word>)
    requires ws == []
    ensures Bytes(ws) == []
  {
  }

  lemma BytesNext(out: seq<Byte>, ws: seq<Word>, i: nat, j: nat)
    requires i < j <= |ws|
    ensures out + [ws[i] / 256, ws[i] % 256] + Bytes(ws[i + 1..j]) == out + Bytes(ws[i..j])
  {
    assert ws[i..j][1..] == ws[i + 1..j];
  }

  lemma ScanGroup(w: Word, next: string, s: Scanner)
    requires Fresh(s, Digits(w, 16) + ":" + next) && |s.out| + 2 <= 16 && next != ""
    ensures Scan(Digits(w, 16) + ":" + next, s) == Scan(next, Scanner(s.out + [w / 256, w % 256], s.colon, false, 0, 0, next))
  {
    WordDigits(w);
    var d := Digits(w, 16);
    hide Scan, Digits;
    Regroup(d, ":", next);
    ScanNumber(w, ":" + next, s);
    ScanColon(next, s.(val := w, digits := |d|, saw := true));
  }

  lemma GroupsStart(ws: seq<Word>, i: nat, j: nat)
    requires i < j <= |ws|
    ensures Groups(ws, i, j) != "" && HexValue(Groups(ws, i, j)[0]).Some? && Groups(ws, i, j)[0] != ':'
  {
    WordDigits(ws[i]);
  }

  // ----- embedded IPv4 addresses

  lemma V4Digit(d: nat, rest: string, out: seq<Byte>, val: Byte, n: nat)
    requires d < 10 && |out| <= 4 && (n == 0 || val != 0) && val * 10 + d < 256
    ensures GetV4([DigitChar(d)] + rest, out, val, n) == GetV4(rest, out, val * 10 + d, n + 1)
  {
    DigitCharIs(d);
    assert ([DigitChar(d)] + rest)[1..] == rest;
  }

  lemma {:induction false} V4Number(x: Byte, rest: string, out: seq<Byte>)
    requires |out| <= 4
    ensures GetV4(Digits(x, 10) + rest, out, 0, 0) == GetV4(rest, out, x, |Digits(x, 10)|)
    decreases x
  {
    hide GetV4;
    if x < 10 {
      V4Digit(x, rest, out, 0, 0);
    } else {
      var last := [DigitChar(x % 10)];
      V4Number(x / 10, last + rest, out);
      Regroup(Digits(x / 10, 10), last, rest);
      V4Digit(x % 10, rest, out, x / 10, |Digits(x / 10, 10)|);
    }
  }

  lemma V4Dot(rest: string, out: seq<Byte>, val: Byte, n: nat)
    requires |out| <= 3
    ensures GetV4("." + rest, out, val, n) == GetV4(rest, out + [val], 0, 0)
  {
    assert ("." + rest)[1..] == rest;
  }

  lemma V4End(out: seq<Byte>, val: Byte, n: nat)
    requires |out| <= 3 && n > 0
    ensures GetV4("", out, val, n) == Some(V4(out + [val], None))
  {
  }

  /** getv4 undoes inet_ntop4. */
  lemma V4RoundTrip(a: Byte, b: Byte, c: Byte, d: Byte)
    ensures GetV4(Dotted(a, b, c, d), [], 0, 0) == Some(V4([a, b, c, d], None))
  {
    hide GetV4, Digits;
    var da, db, dc, dd := Digits(a, 10), Digits(b, 10), Digits(c, 10), Digits(d, 10);
    ByteDigits(a); ByteDigits(b); ByteDigits(c); ByteDigits(d);
    var t3 := dd + "";
    var t2 := dc + ("." + t3);
    var t1 := db + ("." + t2);
    assert Dotted(a, b, c, d) == da + ("." + t1);
    assert [] + [a] == [a] && [a] + [b] == [a, b] && [a, b] + [c] == [a, b, c] && [a, b, c] + [d] == [a, b, c, d];
    assert t3 == dd && dd + "" == dd;
    V4Number(a, "." + t1, []);
    V4Dot(t1, [], a, |da|);
    V4Number(b, "." + t2, [a]);
    V4Dot(t2, [a], b, |db|);
    V4Number(c, "." + t3, [a, b]);
    V4Dot(t3, [a, b], c, |dc|);
    V4Number(d, "", [a, b, c]);
    V4End([a, b, c], d, |dd|);
  }

  /** Scanning a printed IPv4 address at the end */
  lemma ScanV4(a: Byte, b: Byte, c: Byte, d: Byte, s: Scanner)
    requires Fresh(s, Dotted(a, b, c, d)) && |s.out| + 4 <= 16
    ensures Scan(Dotted(a, b, c, d), s) == Scanned(s.out + [a, b, c, d], s.colon, false, Misread(a), None, true)
  {
    hide Digits, GetV4, Scan, Misread;
    V4RoundTrip(a, b, c, d);
    ByteDigits(a);
    var rest := Digits(b, 10) + "." + Digits(c, 10) + "." + Digits(d, 10);
    assert Dotted(a, b, c, d) == Digits(a, 10) + ("." + rest);
    ScanOctet(a, "." + rest, s);
    ScanDot(rest, s.(val := Misread(a), digits := |Digits(a, 10)|, saw := true), [a, b, c, d]);
  }

  lemma ScanDot(rest: string, s: Scanner, bytes: seq<Byte>)
    requires |s.out| + 4 <= 16 && |bytes| == 4 && GetV4(s.token, [], 0, 0) == Some(V4(bytes, None))
    ensures Scan("." + rest, s) == Scanned(s.out + bytes, s.colon, false, s.val, None, true)
  {
    hide Scan, GetV4;
    AtOther("." + rest, s);
    assert Four(bytes) == bytes;
  }

  /** A decimal number read as a hexadecimal one */
  function Misread(x: nat): nat {
    if x < 10 then x else Misread(x / 10) * 16 + x % 10
  }

  /** The first octet has been scanned as a hexadecimal number when the first period is met. */
  lemma {:induction false} ScanOctet(x: nat, rest: string, s: Scanner)
    requires |Digits(x, 10)| <= 4 && s.digits == 0 && s.val == 0
    ensures Scan(Digits(x, 10) + rest, s) == Scan(rest, s.(val := Misread(x), digits := |Digits(x, 10)|, saw := true))
    decreases x
  {
    hide Scan;
    if x < 10 {
      ScanDigit(x, rest, s);
    } else {
      var last := [DigitChar(x % 10)];
      ScanOctet(x / 10, last + rest, s);
      Regroup(Digits(x / 10, 10), last, rest);
      ScanDigit(x % 10, rest, s.(val := Misread(x / 10), digits := |Digits(x / 10, 10)|, saw := true));
    }
  }

  // ----- the round trip

  /** The shift as one step: the bytes from colon on go to the end, and zeros take the gap. */
  function Parted(out: seq<Byte>, k: nat, end: nat): seq<Byte>
    requires k <= |out| <= end <= 16
  {
    out[..|out| - k] + Zeros(end - |out|) + out[|out| - k..] + Zeros(16 - end)
  }

  lemma {:induction false} ShiftParts(out: seq<Byte>, colon: nat, n: nat, end: nat, i: nat)
    requires colon + n == |out| < end <= 16 && 1 <= i <= n + 1
    ensures Shift(Parted(out, i - 1, end), colon, n, end, i) == Parted(out, n, end)
    decreases n + 1 - i
  {
    if i <= n {
      var buf := Parted(out, i - 1, end);
      assert buf[end - i := buf[colon + n - i]][colon + n - i := 0] == Parted(out, i, end);
      ShiftParts(out, colon, n, end, i + 1);
    }
  }

  lemma ShiftOpens(out: seq<Byte>, colon: nat)
    requires colon <= |out| < 16
    ensures Shift(out + Zeros(16 - |out|), colon, |out| - colon, 16, 1) == out[..colon] + Zeros(16 - |out|) + out[colon..]
  {
    assert out + Zeros(16 - |out|) == Parted(out, 0, 16);
    ShiftParts(out, colon, |out| - colon, 16, 1);
  }

  /** A complete address without a prefix length is accepted whole. */
  lemma FinishWhole(out: seq<Byte>, colon: Option<nat>, val: nat, ipv4: bool, size: nat)
    requires |out| <= 16 && size >= 16 && (colon.None? ==> |out| == 16)
    requires colon.Some? ==> colon.value <= |out| < 16
    ensures Finish(Scanned(out, colon, false, val, None, ipv4), size) ==
      Address(128, if colon.None? then out else out[..colon.value] + Zeros(16 - |out|) + out[colon.value..])
  {
    if colon.Some? {
      ShiftOpens(out, colon.value);
    }
  }

  lemma FinishPending(out: seq<Byte>, colon: Option<nat>, val: Word, size: nat)
    requires |out| <= 14
    requires colon.Some? ==> colon.value <= |out|
    ensures Finish(Scanned(out, colon, true, val, None, false), size) ==
      Finish(Scanned(out + [val / 256, val % 256], colon, false, val, None, false), size)
  {
    hide Shift, Extent;
  }

  /** Words without a run: all eight groups are there. */
  lemma ParseFull(ws: seq<Word>, size: nat)
    requires |ws| == 8 && size >= 16
    ensures Parse(Groups(ws, 0, 8), size) == Address(128, Bytes(ws))
  {
    hide Scan, Finish, Groups, Digits, Bytes, Parse;
    var t := Groups(ws, 0, 8);
    GroupsStart(ws, 0, 8);
    assert t + "" == t;
    ParsePlain(t, size);
    ScanGroups(ws, 0, 8, "", Start(t));
    LastGroup(ws, 0, 8, [], None, size);
    assert [] + Bytes(ws[0..7]) == Bytes(ws[0..7]);
    assert ws[0..8] == ws && [] + Bytes(ws) == Bytes(ws);
    EndOfScan(Scanner(Bytes(ws[0..7]), None, true, ws[7], |Digits(ws[7], 16)|, Digits(ws[7], 16) + ""));
    FinishWhole(Bytes(ws), None, ws[7], false, size);
  }

  lemma EndOfScan(s: Scanner)
    ensures Scan("", s) == Scanned(s.out, s.colon, s.saw, s.val, None, false)
  {
  }

  /** The pending group is written after the loop. */
  lemma LastGroup(ws: seq<Word>, i: nat, j: nat, before: seq<Byte>, colon: Option<nat>, size: nat)
    requires i < j <= |ws| && |before| + 2 * (j - i) <= 16 && (colon.Some? ==> colon.value <= |before|)
    ensures Finish(Scanned(before + Bytes(ws[i..j - 1]), colon, true, ws[j - 1], None, false), size) ==
      Finish(Scanned(before + Bytes(ws[i..j]), colon, false, ws[j - 1], None, false), size)
  {
    var out, w := before + Bytes(ws[i..j - 1]), ws[j - 1];
    FinishPending(out, colon, w, size);
    assert ws[i..j] == ws[i..j - 1] + [w];
    BytesSplit(ws[i..j - 1], [w]);
    BytesNone([w][1..]);
    assert Bytes([w]) == [w / 256, w % 256] + [];
    assert out + [w / 256, w % 256] == before + Bytes(ws[i..j]);
  }

  /** After the gap: the groups from k on, if there are any. */
  lemma ScanTail(ws: seq<Word>, k: nat, out: seq<Byte>, size: nat)
    requires |ws| == 8 && k <= 8 && size >= 16 && |out| + 2 * (8 - k) < 16
    ensures var t := Groups(ws, k, 8);
      var r := Scan(t, Scanner(out, Some(|out|), false, 0, 0, t));
      && (r.Scanned? ==> |r.out| <= 16 && (r.colon.Some? ==> r.colon.value <= |r.out|))
      && (r.Scanned? ==> r.bits == None)
      && Finish(r, size) == Address(128, out + Zeros(2 * k - |out|) + Bytes(ws[k..]))
  {
    hide Scan, Finish, Groups, Digits, Bytes;
    var t := Groups(ws, k, 8);
    var s := Scanner(out, Some(|out|), false, 0, 0, t);
    var all := out + Bytes(ws[k..]);
    assert all[..|out|] == out && all[|out|..] == Bytes(ws[k..]);
    FinishWhole(all, Some(|out|), if k == 8 then 0 else ws[7], false, size);
    if k == 8 {
      GroupsNone(ws);
      BytesNone(ws[k..]);
      assert all == out;
      EndOfScan(s);
    } else {
      assert ws[k..8] == ws[k..];
      assert t + "" == t;
      ScanGroups(ws, k, 8, "", s);
      EndOfScan(Scanner(out + Bytes(ws[k..7]), Some(|out|), true, ws[7], |Digits(ws[7], 16)|, Digits(ws[7], 16) + ""));
      LastGroup(ws, k, 8, out, Some(|out|), size);
    }
  }

  lemma GroupsNone(ws: seq<Word>)
    requires |ws| == 8
    ensures Groups(ws, 8, 8) == ""
  {
  }

  function Start(t: string): Scanner {
    Scanner([], None, false, 0, 0, t)
  }

  lemma ParsePlain(t: string, size: nat)
    requires t != "" && t[0] != ':'
    ensures var r := Scan(t, Start(t));
      && (r.Scanned? ==> |r.out| <= 16 && (r.colon.Some? ==> r.colon.value <= |r.out|))
      && (r.Scanned? && r.bits.Some? ==> r.bits.value <= 128)
      && Parse(t, size) == Finish(r, size)
  {
    ScanFits(t, Start(t));
    hide Scan, Finish;
  }

  lemma ParseLeading(t: string, size: nat)
    ensures var r := Scan(t, Start(t).(colon := Some(0)));
      && (r.Scanned? ==> |r.out| <= 16 && (r.colon.Some? ==> r.colon.value <= |r.out|))
      && (r.Scanned? && r.bits.Some? ==> r.bits.value <= 128)
      && Parse("::" + t, size) == Finish(r, size)
  {
    ScanFits(t, Start(t).(colon := Some(0)));
    ScanFits(":" + t, Start(":" + t));
    ScanGap(t, Start(":" + t));
    hide Scan, Finish;
    assert ("::" + t)[1..] == ":" + t;
  }

  lemma ScanToGap(ws: seq<Word>, b: nat, tail: string)
    requires |ws| == 8 && 0 < b <= 7
    ensures var t := Groups(ws, 0, b) + ("::" + tail);
      Scan(t, Start(t)) == Scan(tail, Scanner(Bytes(ws[..b]), Some(2 * b), false, 0, 0, tail))
  {
    hide Scan, Groups, Digits, Bytes;
    var t := Groups(ws, 0, b) + ("::" + tail);
    ScanGroups(ws, 0, b, "::" + tail, Start(t));
    var out, w := Bytes(ws[0..b - 1]), ws[b - 1];
    assert [] + out == out;
    assert "::" + tail == ":" + (":" + tail);
    ScanColon(":" + tail, Scanner(out, None, true, w, |Digits(w, 16)|, Digits(w, 16) + ("::" + tail)));
    BytesLast(ws, b);
    ScanGap(tail, Scanner(Bytes(ws[..b]), None, false, 0, 0, ":" + tail));
  }

  lemma ParseGapFirst(ws: seq<Word>, n: nat, size: nat)
    requires |ws| == 8 && 1 <= n <= 8 && size >= 16
    ensures Parse("::" + Groups(ws, n, 8), size) == Address(128, [] + Zeros(2 * n) + Bytes(ws[n..]))
  {
    hide Scan, Finish, Groups, Bytes, Parse;
    ScanTail(ws, n, [], size);
    ParseLeading(Groups(ws, n, 8), size);
  }

  lemma ParseGapLater(ws: seq<Word>, b: nat, n: nat, size: nat)
    requires |ws| == 8 && n >= 1 && b > 0 && b + n <= 8 && size >= 16
    ensures Parse(Groups(ws, 0, b) + ("::" + Groups(ws, b + n, 8)), size) ==
      Address(128, Bytes(ws[..b]) + Zeros(2 * (b + n) - 2 * b) + Bytes(ws[b + n..]))
  {
    hide Scan, Finish, Groups, Bytes, Parse;
    var tail := Groups(ws, b + n, 8);
    GroupsStart(ws, 0, b);
    ScanTail(ws, b + n, Bytes(ws[..b]), size);
    ScanToGap(ws, b, tail);
    ParsePlain(Groups(ws, 0, b) + ("::" + tail), size);
  }

  /** Words with a run of zeros written as "::", wherever it is. */
  lemma ParseGap(ws: seq<Word>, b: nat, n: nat, size: nat)
    requires |ws| == 8 && n >= 1 && IsRun(ws, b, n) && size >= 16
    ensures Parse(Groups(ws, 0, b) + "::" + Groups(ws, b + n, 8), size) == Address(128, Bytes(ws))
  {
    hide Parse, Bytes;
    GapBytes(ws, b, n);
    if b == 0 {
      ParseGapFirst(ws, n, size);
      BytesNone(ws[..0]);
      assert Groups(ws, 0, 0) + "::" + Groups(ws, n, 8) == "::" + Groups(ws, n, 8);
    } else {
      ParseGapLater(ws, b, n, size);
      Regroup(Groups(ws, 0, b), "::", Groups(ws, b + n, 8));
    }
  }

  lemma BytesLast(ws: seq<Word>, b: nat)
    requires 0 < b <= |ws|
    ensures Bytes(ws[0..b - 1]) + [ws[b - 1] / 256, ws[b - 1] % 256] == Bytes(ws[..b])
  {
    assert ws[..b] == ws[0..b - 1] + [ws[b - 1]];
    BytesSplit(ws[0..b - 1], [ws[b - 1]]);
    BytesNone([ws[b - 1]][1..]);
    assert Bytes([ws[b - 1]]) == [ws[b - 1] / 256, ws[b - 1] % 256] + [];
  }

  lemma GapBytes(ws: seq<Word>, b: nat, n: nat)
    requires IsRun(ws, b, n)
    ensures Bytes(ws[..b]) + Zeros(2 * (b + n) - 2 * b) + Bytes(ws[b + n..]) == Bytes(ws)
  {
    assert ws == ws[..b] + ws[b..b + n] + ws[b + n..];
    BytesSplit(ws[..b] + ws[b..b + n], ws[b + n..]);
    BytesSplit(ws[..b], ws[b..b + n]);
    BytesOfZeros(ws[b..b + n]);
  }

  /** The forms that end in an IPv4 address, without and with the group before it */
  lemma ParseEmbedded(ws: seq<Word>, size: nat)
    requires |ws| == 8 && size >= 16 && IsRun(ws, 0, 6)
    ensures Parse("::" + DottedWords(ws[6], ws[7]), size) == Address(128, Bytes(ws))
  {
    hide Scan, Finish, Digits, DottedWords, Parse, Misread, Bytes;
    var v4 := DottedWords(ws[6], ws[7]);
    ScanV4Words(ws[6], ws[7], Start(v4).(colon := Some(0)));
    ParseLeading(v4, size);
    var tail: seq<Byte> := [ws[6] / 256, ws[6] % 256, ws[7] / 256, ws[7] % 256];
    assert [] + tail == tail;
    FinishWhole(tail, Some(0), Misread(ws[6] / 256), true, size);
    EmbeddedBytes(ws, []);
  }

  lemma ParseMarked(ws: seq<Word>, size: nat)
    requires |ws| == 8 && size >= 16 && IsRun(ws, 0, 5)
    ensures Parse("::" + (Digits(ws[5], 16) + ":" + DottedWords(ws[6], ws[7])), size) == Address(128, Bytes(ws))
  {
    hide Scan, Finish, Digits, DottedWords, Parse, Misread, Bytes;
    ScanMarked(ws[5], ws[6], ws[7]);
    ParseLeading(Digits(ws[5], 16) + ":" + DottedWords(ws[6], ws[7]), size);
    var mid: seq<Byte>, tail: seq<Byte> := [ws[5] / 256, ws[5] % 256], [ws[6] / 256, ws[6] % 256, ws[7] / 256, ws[7] % 256];
    FinishWhole(mid + tail, Some(0), Misread(ws[6] / 256), true, size);
    EmbeddedBytes(ws, mid);
  }

  lemma ScanV4Words(v: Word, w: Word, s: Scanner)
    requires Fresh(s, DottedWords(v, w)) && |s.out| + 4 <= 16
    ensures Scan(DottedWords(v, w), s) ==
      Scanned(s.out + [v / 256, v % 256, w / 256, w % 256], s.colon, false, Misread(v / 256), None, true)
  {
    hide Scan, Dotted, Misread;
    ScanV4(v / 256, v % 256, w / 256, w % 256, s);
  }

  lemma ScanMarked(u: Word, v: Word, w: Word)
    ensures var t := Digits(u, 16) + ":" + DottedWords(v, w);
      Scan(t, Start(t).(colon := Some(0))) ==
      Scanned([u / 256, u % 256] + [v / 256, v % 256, w / 256, w % 256], Some(0), false, Misread(v / 256), None, true)
  {
    var v4 := DottedWords(v, w);
    assert v4 != "" by {
      DigitStart(v / 256, 10);
    }
    hide Scan, Digits, DottedWords, Misread;
    ScanGroup(u, v4, Start(Digits(u, 16) + ":" + v4).(colon := Some(0)));
    assert [] + [u / 256, u % 256] == [u / 256, u % 256];
    ScanV4Words(v, w, Scanner([u / 256, u % 256], Some(0), false, 0, 0, v4));
  }

  lemma EmbeddedBytes(ws: seq<Word>, mid: seq<Byte>)
    requires |ws| == 8 && IsRun(ws, 0, if mid == [] then 6 else 5)
    requires mid != [] ==> mid == [ws[5] / 256, ws[5] % 256]
    ensures var out := mid + [ws[6] / 256, ws[6] % 256, ws[7] / 256, ws[7] % 256];
      out[..0] + Zeros(16 - |out|) + out[0..] == Bytes(ws)
  {
    GapBytes(ws, 0, if mid == [] then 6 else 5);
    BytesNone(ws[..0]);
    BytesNext([], ws, 7, 8);
    BytesNone(ws[8..8]);
    BytesNext([], ws, 6, 8);
    BytesNext([], ws, 5, 8);
    assert ws[5..8] == ws[5..] && ws[6..8] == ws[6..];
  }

  /** Parsing what is printed for an address gives the address, wherever the "::" is put. */
  lemma RoundTrip(ws: seq<Word>, r: Run, size: nat)
    requires |ws| == 8 && ZeroRun(ws, r) && size >= 16
    ensures Parse(Form(ws, r), size) == Address(128, Bytes(ws))
  {
    hide Parse;
    match r
    case NoRun => ParseFull(ws, size);
    case Run(b, n) =>
      if b == 0 && n == 6 {
        ParseEmbedded(ws, size);
      } else if b == 0 && n == 5 && ws[5] == 0xffff {
        ParseMarked(ws, size);
        assert "::" + Digits(ws[5], 16) + ":" + DottedWords(ws[6], ws[7])
            == "::" + (Digits(ws[5], 16) + ":" + DottedWords(ws[6], ws[7]));
      } else {
        ParseGap(ws, b, n, size);
      }
  }

  /** For every 16-byte address: what inet_ntop6 prints is parsed to 128 bits and the same bytes. */
  lemma AddressRoundTrip(src: seq<Byte>, r: Run, size: nat)
    requires |src| == 16 && Longest(WordsOf(src), r) && size >= 16
    ensures Parse(Form(WordsOf(src), r), size) == Address(128, src)
  {
    hide Parse, Form;
    RoundTrip(WordsOf(src), r, size);
    BytesOfWords(src);
  }

  // ----- the parser without a prefix length

  lemma {:induction false} V4NoSlash(t: string, out: seq<Byte>, val: Byte, n: nat)
    requires |out| <= 4 && '/' !in t
    ensures GetV4(t, out, val, n).Some? ==> GetV4(t, out, val, n).value.bits.None?
    decreases |t|
  {
    if t != "" {
      assert forall c :: c in t[1..] ==> c in t;
      match DecValue(t[0])
      case Some(d) =>
        if val * 10 + d <= 255 {
          V4NoSlash(t[1..], out, val * 10 + d, n + 1);
        }
      case None =>
        assert t[0] != '/';
        if |out| <= 3 {
          V4NoSlash(t[1..], out + [val], 0, 0);
        }
    }
  }

  lemma {:induction false} ScanNoSlash(t: string, s: Scanner)
    requires '/' !in t && '/' !in s.token
    ensures Scan(t, s).Scanned? ==> Scan(t, s).bits.None?
    decreases |t|
  {
    if t != "" {
      assert forall c :: c in t[1..] ==> c in t;
      match HexValue(t[0])
      case Some(d) =>
        if s.digits + 1 <= 4 {
          ScanNoSlash(t[1..], s.(val := s.val * 16 + d, digits := s.digits + 1, saw := true));
        }
      case None =>
        assert t[0] != '/';
        if t[0] == ':' {
          if !s.saw {
            ScanNoSlash(t[1..], s.(colon := Some(|s.out|), token := t[1..]));
          } else if t[1..] != "" && |s.out| + 2 <= 16 {
            ScanNoSlash(t[1..], Scanner(s.out + [(s.val / 256) % 256, s.val % 256], s.colon, false, 0, 0, t[1..]));
          }
        } else {
          V4NoSlash(s.token, [], 0, 0);
        }
    }
  }

  lemma FinishNoBits(r: Scanned, size: nat)
    requires r.Scanned? ==> |r.out| <= 16 && (r.colon.Some? ==> r.colon.value <= |r.out|) && r.bits.None?
    ensures Finish(r, size) != Unspecified
    ensures Finish(r, size).Address? ==> Finish(r, size).bits == 128 && |Finish(r, size).bytes| == 16
  {
  }

  lemma ScanAllWhole(t: string, size: nat)
    requires '/' !in t
    ensures ScanAll(t, size) != Unspecified
    ensures ScanAll(t, size).Address? ==> ScanAll(t, size).bits == 128 && |ScanAll(t, size).bytes| == 16
  {
    hide Scan, Finish;
    ScanNoSlash(t, Start(t));
    ScanFits(t, Start(t));
    FinishNoBits(Scan(t, Start(t)), size);
  }

  /** Without a slash the shift stays in the buffer, and only whole addresses are accepted. */
  lemma NoPrefixLength(t: string, size: nat)
    requires '/' !in t
    ensures Parse(t, size) != Unspecified
    ensures Parse(t, size).Address? ==> Parse(t, size).bits == 128 && |Parse(t, size).bytes| == 16
  {
    hide ScanAll;
    ScanAllWhole(t, size);
    if t != "" {
      assert forall c :: c in t[1..] ==> c in t;
      ScanAllWhole(t[1..], size);
    }
  }

  // ----- the size of the text

  lemma {:induction false} GroupsFit(ws: seq<Word>, i: nat, j: nat)
    requires i <= j <= |ws|
    ensures |Groups(ws, i, j)| <= if i == j then 0 else 5 * (j - i) - 1
    decreases j - i
  {
    if i < j {
      WordDigits(ws[i]);
      GroupsFit(ws, i + 1, j);
    }
  }

  lemma DottedFits(v: Word, w: Word)
    ensures |DottedWords(v, w)| <= 15
  {
    hide Digits;
    ByteDigits(v / 256);
    ByteDigits(v % 256);
    ByteDigits(w / 256);
    ByteDigits(w % 256);
  }

  /** A printed address and its terminating zero fit in the 46 bytes of the temporary buffer. */
  lemma FormFits(ws: seq<Word>, r: Run)
    requires |ws| == 8 && ZeroRun(ws, r)
    ensures |Form(ws, r)| + 1 <= 46
  {
    hide Groups, Digits, DottedWords;
    GroupsFit(ws, 0, 8);
    DottedFits(ws[6], ws[7]);
    WordDigits(ws[5]);
    if r.Run? {
      GroupsFit(ws, 0, r.base);
      GroupsFit(ws, r.base + r.len, 8);
    }
  }

  // ----- the text as the printing loop builds it

  /** What is printed before word i */
  function Prefix(ws: seq<Word>, r: Run, i: nat): string
    requires |ws| == 8 && (r.Run? ==> r.base + r.len <= 8) && i <= 8
  {
    if r.NoRun? || i <= r.base then Groups(ws, 0, i)
    else if i <= r.base + r.len then Groups(ws, 0, r.base) + ":"
    else Groups(ws, 0, r.base) + "::" + Groups(ws, r.base + r.len, i)
  }

  lemma {:induction false} GroupsLast(ws: seq<Word>, i: nat, j: nat)
    requires i <= j < |ws|
    ensures Groups(ws, i, j + 1) == if i == j then Digits(ws[j], 16) else Groups(ws, i, j) + ":" + Digits(ws[j], 16)
    decreases j - i
  {
    hide Digits;
    if i < j {
      GroupsLast(ws, i + 1, j);
      var d, e := Digits(ws[i], 16), Digits(ws[j], 16);
      assert Groups(ws, i, j + 1) == d + ":" + Groups(ws, i + 1, j + 1);
      if i + 1 < j {
        var mid := Groups(ws, i + 1, j);
        assert Groups(ws, i, j) == d + ":" + mid;
        hide Groups;
        Regroup(d + ":", mid + ":", e);
        Regroup(d + ":", mid, ":");
      } else {
        assert Groups(ws, i, j) == d;
      }
    }
  }

  lemma PrefixInRun(ws: seq<Word>, r: Run, i: nat)
    requires |ws| == 8 && r.Run? && r.base + r.len <= 8 && r.base <= i < r.base + r.len
    ensures Prefix(ws, r, i + 1) == if i == r.base then Prefix(ws, r, i) + ":" else Prefix(ws, r, i)
  {
  }

  lemma PrefixGroup(ws: seq<Word>, r: Run, i: nat)
    requires |ws| == 8 && i < 8 && (r.Run? ==> r.base + r.len <= 8 && r.len > 0 && !(r.base <= i < r.base + r.len))
    ensures Prefix(ws, r, i + 1) == (if i != 0 then Prefix(ws, r, i) + ":" else Prefix(ws, r, i)) + Digits(ws[i], 16)
  {
    hide Digits;
    if r.Run? && r.base + r.len <= i {
      GroupsLast(ws, r.base + r.len, i);
      var first, d := Groups(ws, 0, r.base), Digits(ws[i], 16);
      hide Groups;
      if i == r.base + r.len {
        assert first + "::" + d == first + ":" + ":" + d;
      } else {
        var mid := Groups(ws, r.base + r.len, i);
        Regroup(first + "::", mid + ":", d);
        Regroup(first + "::", mid, ":");
      }
    } else {
      GroupsLast(ws, 0, i);
    }
  }

  /** Where the loop stops: with the IPv4 form, or after the last word. */
  lemma PrefixEmbedded(ws: seq<Word>, r: Run)
    requires |ws| == 8 && r.Run? && r.base == 0 && (r.len == 6 || (r.len == 5 && ws[5] == 0xffff))
    ensures Form(ws, r) == Prefix(ws, r, 6) + ":" + DottedWords(ws[6], ws[7])
  {
  }

  lemma PrefixWhole(ws: seq<Word>, r: Run)
    requires |ws| == 8 && (r.Run? ==> r.base + r.len <= 8 && r.len >= 2)
    requires !(r.Run? && r.base == 0 && (r.len == 6 || (r.len == 5 && ws[5] == 0xffff)))
    ensures Form(ws, r) == if r.Run? && r.base + r.len == 8 then Prefix(ws, r, 8) + ":" else Prefix(ws, r, 8)
  {
    if r.Run? && r.base + r.len == 8 {
      assert Groups(ws, 8, 8) == "";
      assert Groups(ws, 0, r.base) + "::" + "" == Groups(ws, 0, r.base) + ":" + ":";
    }
  }

  lemma PrefixFits(ws: seq<Word>, r: Run, i: nat)
    requires |ws| == 8 && (r.Run? ==> r.base + r.len <= 8 && r.len >= 2) && i <= 8
    ensures |Prefix(ws, r, i)| <= 5 * i + 1
    ensures r.Run? && r.base == 0 && i == 6 && r.len >= 5 ==> |Prefix(ws, r, 6)| <= 6
    ensures i == 8 ==> |Prefix(ws, r, 8)| <= 39
  {
    hide Groups;
    GroupsFit(ws, 0, i);
    if r.Run? {
      GroupsFit(ws, 0, r.base);
      if r.base + r.len <= i {
        GroupsFit(ws, r.base + r.len, i);
      }
    }
  }
}
