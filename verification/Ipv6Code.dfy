/**
 inet_ntop6 and inet_net_pton_ipv6 on their buffers (c-ares/inet_ntop.c, inet_net_pton.c),
 proved to print the form of module Ipv6Text with the leftmost longest run of zeros as "::",
 and to accept exactly what its Parse accepts.
 */
module Ipv6Code {
  import opened Options
  import opened Octets
  import opened Ipv6Text
  import opened Ipv6Limits

  // ----- printing

  method PutText(buf: array<char>, tp: nat, t: string) returns (next: nat)
    requires tp + |t| <= buf.Length
    modifies buf
    ensures next == tp + |t| && buf[..next] == old(buf[..tp]) + t
  {
    forall i | 0 <= i < |t| {
      buf[tp + i] := t[i];
    }
    next := tp + |t|;
  }

  /** inet_ntop4: false if the text and its zero do not fit */
  method Ntop4(src: seq<Byte>, dst: array<char>, at: nat, size: nat) returns (ok: bool, next: nat)
    requires |src| == 4 && at + size <= dst.Length
    modifies dst
    ensures ok <==> |Dotted(src[0], src[1], src[2], src[3])| < size
    ensures ok ==> next == at + |Dotted(src[0], src[1], src[2], src[3])|
    ensures ok ==> dst[..next] == old(dst[..at]) + Dotted(src[0], src[1], src[2], src[3])
    ensures !ok ==> next == at && dst[..] == old(dst[..])
  {
    var t := Dotted(src[0], src[1], src[2], src[3]);
    if |t| >= size {
      return false, at;
    }
    next := PutText(dst, at, t);
    ok := true;
  }

  /** Word j when the first i bytes have been copied */
  function Filled(src: seq<Byte>, i: nat, j: nat): int
    requires |src| == 16 && j < 8
  {
    var high: int, low: int := src[2 * j], src[2 * j + 1];
    if 2 * j + 1 < i then high * 256 + low else if 2 * j < i then high * 256 else 0
  }

  method WordsFromBytes(src: seq<Byte>) returns (words: array<int>)
    requires |src| == 16
    ensures fresh(words) && words.Length == 8 && forall i :: 0 <= i < 8 ==> words[i] == WordsOf(src)[i]
  {
    words := new int[8](i => 0);
    var i := 0;
    while i < 16
      invariant 0 <= i <= 16
      invariant forall j :: 0 <= j < 8 ==> words[j] == Filled(src, i, j)
    {
      words[i / 2] := words[i / 2] + src[i] * (if i % 2 == 0 then 256 else 1);
      i := i + 1;
    }
  }

  /** Of the runs that end at k or before, r is the longest, and the leftmost such. */
  ghost predicate LongestUpTo(ws: seq<Word>, base: int, len: int, k: nat) {
    && (base >= 0 ==> len >= 1 && base + len <= k && IsRun(ws, base, len))
    && forall b: nat, n: nat :: IsRun(ws, b, n) && n >= 1 && b + n <= k ==> base >= 0 && n <= len && (n == len ==> base <= b)
  }

  /** The run that has reached k, if any, started after a word that is not zero. */
  ghost predicate Current(ws: seq<Word>, base: int, len: int, k: nat) {
    k <= |ws| &&
    if base >= 0 then base + len == k && len >= 1 && IsRun(ws, base, len) && (base > 0 ==> ws[base - 1] != 0)
    else k > 0 ==> ws[k - 1] != 0
  }

  lemma CurrentEnds(ws: seq<Word>, best: int, bestLen: int, base: int, len: int, k: nat)
    requires Current(ws, base, len, k) && base >= 0 && best >= -1 && LongestUpTo(ws, best, bestLen, base)
    ensures if best == -1 || len > bestLen then LongestUpTo(ws, base, len, k) else LongestUpTo(ws, best, bestLen, k)
  {
    forall b: nat, n: nat | IsRun(ws, b, n) && n >= 1 && b + n <= k
      ensures if best == -1 || len > bestLen then n <= len && (n == len ==> base <= b)
        else n <= bestLen && (n == bestLen ==> best <= b)
    {
      if b + n > base && b < base {
        assert false;
      }
    }
  }

  lemma RunsPassNonZero(ws: seq<Word>, best: int, bestLen: int, k: nat)
    requires LongestUpTo(ws, best, bestLen, k) && k < |ws| && ws[k] != 0
    ensures LongestUpTo(ws, best, bestLen, k + 1)
  {
    forall b: nat, n: nat | IsRun(ws, b, n) && n >= 1 && b + n <= k + 1
      ensures b + n <= k
    {
    }
  }

  /** The leftmost longest run of at least two zero words; base is -1 if there is none. */
  method LongestRun(words: array<int>, ghost ws: seq<Word>) returns (bestBase: int, bestLen: int)
    requires words.Length == |ws| == 8 && forall i :: 0 <= i < 8 ==> words[i] == ws[i]
    ensures bestBase == -1 || (0 <= bestBase && 2 <= bestLen && bestBase + bestLen <= 8)
    ensures Longest(ws, if bestBase == -1 then NoRun else Run(bestBase, bestLen))
  {
    bestBase, bestLen := -1, 0;
    var curBase, curLen := -1, 0;
    var i := 0;
    while i < 8
      invariant 0 <= i <= 8 && bestBase >= -1 && curBase >= -1
      invariant Current(ws, curBase, curLen, i)
      invariant LongestUpTo(ws, bestBase, bestLen, if curBase >= 0 then curBase else i)
    {
      if words[i] == 0 {
        if curBase == -1 {
          curBase, curLen := i, 1;
        } else {
          curLen := curLen + 1;
        }
      } else {
        if curBase != -1 {
          CurrentEnds(ws, bestBase, bestLen, curBase, curLen, i);
          if bestBase == -1 || curLen > bestLen {
            bestBase, bestLen := curBase, curLen;
          }
          curBase := -1;
        }
        RunsPassNonZero(ws, bestBase, bestLen, i);
      }
      i := i + 1;
    }
    if curBase != -1 {
      CurrentEnds(ws, bestBase, bestLen, curBase, curLen, i);
      if bestBase == -1 || curLen > bestLen {
        bestBase, bestLen := curBase, curLen;
      }
    }
    if bestBase != -1 && bestLen < 2 {
      bestBase := -1;
    }
  }

  /** inet_ntop6: the text and its zero are copied to dst if they fit in size bytes. */
  method Ntop6(src: seq<Byte>, dst: array<char>, size: nat) returns (ok: bool, ghost r: Run)
    requires |src| == 16 && size <= dst.Length
    modifies dst
    ensures Longest(WordsOf(src), r)
    ensures ok <==> |Form(WordsOf(src), r)| + 1 <= size
    ensures ok ==> var t := Form(WordsOf(src), r); dst[..|t| + 1] == t + [0 as char]
    ensures !ok ==> dst[..] == old(dst[..])
  {
    hide Form;
    var words := WordsFromBytes(src);
    ghost var ws := WordsOf(src);
    var bestBase, bestLen := LongestRun(words, ws);
    r := if bestBase == -1 then NoRun else Run(bestBase, bestLen);
    var tmp := new char[46];
    var tp := PrintWords(src, words, bestBase, bestLen, tmp, r);
    FormFits(ws, r);
    tmp[tp] := 0 as char;
    tp := tp + 1;
    if tp > size {
      return false, r;
    }
    forall i | 0 <= i < tp {
      dst[i] := tmp[i];
    }
    ok := true;
    assert dst[..tp] == tmp[..tp];
  }

  /** The loop of inet_ntop6 that formats the words, and the colon for a run at the end */
  method PrintWords(src: seq<Byte>, words: array<int>, bestBase: int, bestLen: int, tmp: array<char>, ghost r: Run)
    returns (tp: nat)
    requires |src| == 16 && words.Length == 8 && tmp.Length == 46
    requires forall i :: 0 <= i < 8 ==> words[i] == WordsOf(src)[i]
    requires bestBase == -1 || (bestBase >= 0 && bestLen >= 0)
    requires r == if bestBase == -1 then NoRun else Run(bestBase, bestLen)
    requires ZeroRun(WordsOf(src), r)
    modifies tmp
    ensures tp < tmp.Length && tmp[..tp] == Form(WordsOf(src), r)
  {
    hide Form, Prefix, Digits, Dotted, DottedWords;
    ghost var ws := WordsOf(src);
    FormFits(ws, r);
    tp := 0;
    assert Prefix(ws, r, 0) == "" by {
      PrefixStart(ws, r);
    }
    var i := 0;
    var embedded := false;
    var word5, word7 := words[5], words[7];
    while i < 8 && !embedded
      invariant 0 <= i <= 8
      invariant if embedded then i == 6 && bestBase == 0 && (bestLen == 6 || (bestLen == 5 && ws[5] == 0xffff))
          && tp < 46 && tmp[..tp] == Form(ws, r)
        else tp == |Prefix(ws, r, i)| < 46 && tmp[..tp] == Prefix(ws, r, i)
      invariant bestBase == 0 && (bestLen == 6 || (bestLen == 5 && ws[5] == 0xffff)) ==> i <= 6
      decreases 8 - i, !embedded
    {
      PrefixFits(ws, r, i);
      if bestBase != -1 && bestBase <= i < bestBase + bestLen {
        PrefixInRun(ws, r, i);
        if i == bestBase {
          tp := PutText(tmp, tp, ":");
        }
        i := i + 1;
      } else {
        if i != 0 {
          tp := PutText(tmp, tp, ":");
        }
        if i == 6 && bestBase == 0
          && (bestLen == 6 || (bestLen == 7 && word7 != 0x0001) || (bestLen == 5 && word5 == 0xffff)) {
          PrefixEmbedded(ws, r);
          DottedFits(ws[6], ws[7]);
          EmbeddedText(src);
          var ok;
          ok, tp := Ntop4(src[12..16], tmp, tp, tmp.Length - tp);
          embedded := true;
        } else {
          PrefixGroup(ws, r, i);
          WordDigits(ws[i]);
          tp := PutText(tmp, tp, Digits(words[i], 16));
          PrefixFits(ws, r, i + 1);
          i := i + 1;
        }
      }
    }
    if !embedded {
      PrefixFits(ws, r, 8);
      PrefixWhole(ws, r);
    }
    if bestBase != -1 && bestBase + bestLen == 8 {
      tp := PutText(tmp, tp, ":");
    }
  }

  lemma PrefixStart(ws: seq<Word>, r: Run)
    requires |ws| == 8 && (r.Run? ==> r.base + r.len <= 8)
    ensures Prefix(ws, r, 0) == ""
  {
  }

  lemma EmbeddedText(src: seq<Byte>)
    requires |src| == 16
    ensures DottedWords(WordsOf(src)[6], WordsOf(src)[7]) == Dotted(src[12], src[13], src[14], src[15])
  {
    hide Dotted;
    assert WordsOf(src)[6] == WordAt(src[2 * 6], src[2 * 6 + 1]);
    assert WordsOf(src)[7] == WordAt(src[2 * 7], src[2 * 7 + 1]);
  }

  // ----- parsing

  /** getbits */
  method ReadBits(src: string, at: nat) returns (r: Option<nat>)
    requires at <= |src|
    ensures r == GetBits(src[at..], 0, 0)
  {
    var val: nat, n: nat, p := 0, 0, at;
    while p < |src|
      invariant at <= p <= |src| && val <= 128
      invariant GetBits(src[p..], val, n) == GetBits(src[at..], 0, 0)
    {
      assert src[p..][1..] == src[p + 1..];
      var d := DecValue(src[p]);
      if d.None? {
        return None;
      }
      if n != 0 && val == 0 {
        return None;
      }
      n := n + 1;
      if val * 10 + d.value > 128 {
        return None;
      }
      val := val * 10 + d.value;
      p := p + 1;
    }
    r := if n == 0 then None else Some(val);
  }

  /** getv4: the octets are written from dst[to] on */
  method ReadV4(src: string, at: nat, dst: array<Byte>, to: nat) returns (ok: bool, bits: Option<nat>)
    requires at <= |src| && to + 4 <= dst.Length && (forall i :: to <= i < to + 4 ==> dst[i] == 0)
    modifies dst
    ensures dst[..to] == old(dst[..to]) && dst[to + 4..] == old(dst[to + 4..])
    ensures ok <==> GetV4(src[at..], [], 0, 0).Some?
    ensures ok ==> var v := GetV4(src[at..], [], 0, 0).value; dst[to..to + 4] == Four(v.bytes) && bits == v.bits
  {
    var val: nat, n: nat, p, q := 0, 0, at, to;
    bits := None;
    ok := false;
    assert dst[to..q] == [];
    while p < |src|
      invariant at <= p <= |src| && val <= 255 && to <= q <= to + 4
      invariant dst[..to] == old(dst[..to]) && dst[to + 4..] == old(dst[to + 4..])
      invariant forall i :: q <= i < to + 4 ==> dst[i] == 0
      invariant GetV4(src[p..], dst[to..q], val, n) == GetV4(src[at..], [], 0, 0)
    {
      assert src[p..][1..] == src[p + 1..];
      var ch := src[p];
      var d := DecValue(ch);
      if d.Some? {
        if n != 0 && val == 0 {
          return false, None;
        }
        n := n + 1;
        if val * 10 + d.value > 255 {
          return false, None;
        }
        val := val * 10 + d.value;
      } else if ch == '.' || ch == '/' {
        if q - to > 3 {
          return false, None;
        }
        q := PutOctet(dst, to, q, val);
        if ch == '/' {
          bits := ReadBits(src, p + 1);
          if bits.Some? {
            FourIs(dst, to, q);
          }
          return bits.Some?, bits;
        }
        val, n := 0, 0;
      } else {
        return false, None;
      }
      p := p + 1;
    }
    if n == 0 || q - to > 3 {
      return false, None;
    }
    q := PutOctet(dst, to, q, val);
    FourIs(dst, to, q);
    ok := true;
  }

  method PutOctet(dst: array<Byte>, to: nat, q: nat, val: Byte) returns (next: nat)
    requires to <= q < to + 4 <= dst.Length && (forall i :: q <= i < to + 4 ==> dst[i] == 0)
    modifies dst
    ensures next == q + 1 && dst[to..next] == old(dst[to..q]) + [val]
    ensures dst[..to] == old(dst[..to]) && dst[to + 4..] == old(dst[to + 4..])
    ensures forall i :: next <= i < to + 4 ==> dst[i] == 0
  {
    dst[q] := val;
    next := q + 1;
  }

  lemma FourIs(dst: array<Byte>, to: nat, q: nat)
    requires to <= q <= to + 4 <= dst.Length && forall i :: q <= i < to + 4 ==> dst[i] == 0
    ensures dst[to..to + 4] == Four(dst[to..q])
  {
  }

  /** All of inet_net_pton_ipv6 but the copy to dst */
  method ParseText(src: string, size: nat) returns (r: Parsed)
    ensures r == Parse(src, size)
  {
    var at: nat := 0;
    if src != "" && src[0] == ':' {
      at := 1;
      if |src| < 2 || src[1] != ':' {
        return NotFound;
      }
    }
    ScanFits(src[at..], Start(src[at..]));
    ParseIs(src, at, size);
    hide Scan, Parse, Finish;
    var tmp := new Byte[16](i => 0);
    var s, tp := ScanText(src, at, tmp);
    r := Complete(s, tmp, tp, size);
  }

  /**
   inet_net_pton_ipv6: the address is written to dst, which has size bytes. For the texts of IsOverfull the
   source goes on to write before its temporary buffer; for all others the result is the source's.
   */
  method Pton6(src: string, dst: array<Byte>, size: nat) returns (r: Parsed)
    requires size <= dst.Length
    modifies dst
    ensures r == Parse(src, size)
    ensures r.Unspecified? <==> IsOverfull(src)
    ensures r.Zero? <==> HasNineGroups(src)
    ensures r.Address? ==> |r.bytes| <= size && dst[..|r.bytes|] == r.bytes
    ensures !r.Address? ==> dst[..] == old(dst[..])
  {
    ParseOverfull(src, size);
    ParseNine(src, size);
    AddressFits(src, size);
    hide Parse, IsOverfull, HasNineGroups;
    r := ParseText(src, size);
    if r.Address? {
      var n := |r.bytes|;
      forall i | 0 <= i < n {
        dst[i] := r.bytes[i];
      }
      assert dst[..n] == r.bytes;
    }
  }

  lemma FinishFits(s: Scanned, size: nat)
    requires s.Scanned? ==> |s.out| <= 16 && (s.colon.Some? ==> s.colon.value <= |s.out|)
    requires s.Scanned? && s.bits.Some? ==> s.bits.value <= 128
    ensures Finish(s, size).Address? ==> |Finish(s, size).bytes| <= size
  {
    hide Shift;
  }

  lemma AddressFits(src: string, size: nat)
    ensures Parse(src, size).Address? ==> |Parse(src, size).bytes| <= size
  {
    hide Scan, Finish;
    ScanFits(src, Start(src));
    FinishFits(Scan(src, Start(src)), size);
    if src != "" {
      ScanFits(src[1..], Start(src[1..]));
      FinishFits(Scan(src[1..], Start(src[1..])), size);
    }
  }

  ghost predicate ZeroFrom(buf: seq<Byte>, k: nat) {
    k <= |buf| == 16 && forall i :: k <= i < 16 ==> buf[i] == 0
  }

  /** The loop over the text: what has been read is in the first tp bytes of tmp, and the rest is zero. */
  method ScanText(src: string, at: nat, tmp: array<Byte>) returns (s: Scanned, tp: nat)
    requires at <= |src| && tmp.Length == 16 && ZeroFrom(tmp[..], 0)
    modifies tmp
    ensures s == Scan(src[at..], Start(src[at..]))
    ensures s.Scanned? ==> tp <= 16 && s.out == tmp[..tp] && ZeroFrom(tmp[..], tp)
  {
    hide Scan, ZeroFrom, HexValue, GetV4, GetBits;
    var colon: Option<nat>, saw, val: nat, digits: nat := None, false, 0, 0;
    var p, token := at, at;
    tp := 0;
    assert tmp[..0] == [];
    while p < |src|
      invariant at <= token <= p <= |src| && tp <= 16
      invariant ZeroFrom(tmp[..], tp)
      invariant Scan(src[p..], Scanner(tmp[..tp], colon, saw, val, digits, src[token..])) == Scan(src[at..], Start(src[at..]))
    {
      assert src[p..][1..] == src[p + 1..];
      var ch := src[p];
      var d := HexValue(ch);
      ghost var state := Scanner(tmp[..tp], colon, saw, val, digits, src[token..]);
      if d.Some? {
        AtDigit(src[p..], state);
        val := val * 16 + d.value;
        digits := digits + 1;
        if digits > 4 {
          return Malformed, tp;
        }
        saw := true;
        p := p + 1;
      } else if ch == ':' {
        AtColon(src[p..], state);
        token := p + 1;
        if !saw {
          if colon.Some? {
            return Malformed, tp;
          }
          colon := Some(tp);
        } else {
          if p + 1 == |src| {
            return Malformed, tp;
          }
          if tp + 2 > 16 {
            return TooManyGroups, tp;
          }
          tp := PutGroup(tmp, tp, val);
          saw, digits, val := false, 0, 0;
        }
        p := p + 1;
      } else {
        AtOther(src[p..], state);
        if ch == '.' && tp + 4 <= 16 {
          var ok, bits := PutV4(src, token, tmp, tp);
          if ok {
            tp := tp + 4;
            return Scanned(tmp[..tp], colon, false, val, bits, true), tp;
          }
        } else if ch == '/' {
          var bits := ReadBits(src, p + 1);
          if bits.Some? {
            return Scanned(tmp[..tp], colon, saw, val, bits, false), tp;
          }
        }
        return Malformed, tp;
      }
    }
    s := Scanned(tmp[..tp], colon, saw, val, None, false);
    assert src[p..] == "";
    EndOfScan(Scanner(tmp[..tp], colon, saw, val, digits, src[token..]));
  }

  /** getv4 at the end of what was read */
  method PutV4(src: string, token: nat, tmp: array<Byte>, tp: nat) returns (ok: bool, bits: Option<nat>)
    requires token <= |src| && tmp.Length == 16 && tp + 4 <= 16 && ZeroFrom(tmp[..], tp)
    modifies tmp
    ensures ok <==> GetV4(src[token..], [], 0, 0).Some?
    ensures ok ==> bits == GetV4(src[token..], [], 0, 0).value.bits && ZeroFrom(tmp[..], tp + 4)
    ensures ok ==> tmp[..tp + 4] == old(tmp[..tp]) + Four(GetV4(src[token..], [], 0, 0).value.bytes)
  {
    assert forall i :: tp <= i < 16 ==> tmp[i] == tmp[..][i];
    ok, bits := ReadV4(src, token, tmp, tp);
    assert tmp[..tp + 4] == tmp[..tp] + tmp[tp..tp + 4];
    assert forall i :: tp + 4 <= i < 16 ==> tmp[i] == tmp[tp + 4..][i - (tp + 4)];
    assert forall i :: tp + 4 <= i < 16 ==> tmp[i] == old(tmp[i]) by {
      assert forall i :: tp + 4 <= i < 16 ==> old(tmp[i]) == old(tmp[tp + 4..])[i - (tp + 4)];
    }
  }

  method PutGroup(tmp: array<Byte>, tp: nat, val: nat) returns (next: nat)
    requires tmp.Length == 16 && tp + 2 <= 16 && ZeroFrom(tmp[..], tp)
    modifies tmp
    ensures next == tp + 2 && tmp[..next] == old(tmp[..tp]) + [(val / 256) % 256, val % 256] && ZeroFrom(tmp[..], next)
  {
    tmp[tp] := (val / 256) % 256;
    tmp[tp + 1] := val % 256;
    next := tp + 2;
    assert forall i :: next <= i < 16 ==> tmp[..][i] == old(tmp[..])[i];
  }

  /** What follows the loop */
  method Complete(s: Scanned, tmp: array<Byte>, at: nat, size: nat) returns (r: Parsed)
    requires tmp.Length == 16
    requires s.Scanned? ==> at <= 16 && s.out == tmp[..at] && ZeroFrom(tmp[..], at)
    requires s.Scanned? ==> (s.colon.Some? ==> s.colon.value <= |s.out|) && (s.bits.Some? ==> s.bits.value <= 128)
    modifies tmp
    ensures r == Finish(s, size)
  {
    if s.Malformed? {
      return NotFound;
    }
    if s.TooManyGroups? {
      return Zero;
    }
    hide Finish, ZeroFrom;
    var tp := at;
    LastPending(s, size);
    if s.saw {
      if tp + 2 > 16 {
        return NotFound;
      }
      tp := PutGroup(tmp, tp, s.val);
    }
    r := Place(s.(out := tmp[..tp], saw := false), tmp, tp, size);
  }

  lemma LastPending(s: Scanned, size: nat)
    requires s.Scanned? && |s.out| <= 16 && (s.colon.Some? ==> s.colon.value <= |s.out|)
    requires s.bits.Some? ==> s.bits.value <= 128
    ensures s.saw ==> Finish(s, size) == if |s.out| + 2 > 16 then NotFound
      else Finish(s.(out := s.out + [(s.val / 256) % 256, s.val % 256], saw := false), size)
  {
    hide Shift;
  }

  /** Opens the gap for "::" and checks that the address is complete. */
  method Place(s: Scanned, tmp: array<Byte>, at: nat, size: nat) returns (r: Parsed)
    requires tmp.Length == 16 && s.Scanned? && !s.saw
    requires at <= 16 && s.out == tmp[..at] && ZeroFrom(tmp[..], at)
    requires (s.colon.Some? ==> s.colon.value <= |s.out|) && (s.bits.Some? ==> s.bits.value <= 128)
    modifies tmp
    ensures r == Finish(s, size)
  {
    hide Shift, Finish, Extent, ZeroFrom;
    var tp := at;
    var bits := if s.bits.None? then 128 else s.bits.value;
    var words := (bits + 15) / 16;
    if words < 2 {
      words := 2;
    }
    if s.ipv4 {
      words := 8;
    }
    var end := 2 * words;
    ExtentIs(bits, s.ipv4);
    FinishIs(s, bits, end, size);
    if s.colon.Some? {
      var colon := s.colon.value;
      if tp == end {
        return NotFound;
      }
      ZerosFill(tmp[..], tp);
      var inside := MoveUp(tmp, colon, tp - colon, end);
      if !inside {
        return Unspecified;
      }
      tp := end;
    }
    if tp != end {
      return NotFound;
    }
    var count := (bits + 7) / 8;
    if count > size {
      return TooSmall;
    }
    r := Address(bits, tmp[..count]);
    assert s.colon.None? ==> tmp[..count] == s.out[..count];
  }

  lemma ExtentIs(bits: nat, ipv4: bool)
    requires bits <= 128
    ensures Extent(bits, ipv4) == if ipv4 then 16 else if (bits + 15) / 16 < 2 then 4 else 2 * ((bits + 15) / 16)
  {
  }

  lemma ZerosFill(buf: seq<Byte>, tp: nat)
    requires ZeroFrom(buf, tp)
    ensures buf == buf[..tp] + Zeros(16 - tp)
  {
  }

  lemma FinishIs(s: Scanned, bits: nat, end: nat, size: nat)
    requires s.Scanned? && !s.saw && |s.out| <= 16 && (s.colon.Some? ==> s.colon.value <= |s.out|)
    requires bits <= 128 && bits == (if s.bits.None? then 128 else s.bits.value) && end == Extent(bits, s.ipv4)
    ensures Finish(s, size) ==
      if s.colon.Some? && |s.out| != end then
        if |s.out| - s.colon.value > end then Unspecified
        else if (bits + 7) / 8 > size then TooSmall
        else Address(bits, Shifted(s.out, s.colon.value, end)[..(bits + 7) / 8])
      else if s.colon.Some? || |s.out| != end then NotFound
      else if (bits + 7) / 8 > size then TooSmall
      else Address(bits, s.out[..(bits + 7) / 8])
  {
    hide Shift, Extent;
  }

  function Shifted(out: seq<Byte>, colon: nat, end: nat): (r: seq<Byte>)
    requires colon <= |out| <= 16 && |out| - colon <= end <= 16
    ensures |r| == 16
  {
    Shift(out + Zeros(16 - |out|), colon, |out| - colon, end, 1)
  }

  /** The shift for "::", made by hand because the regions may overlap; it stops where a byte would fall before the buffer. */
  method MoveUp(tmp: array<Byte>, colon: nat, n: nat, end: nat) returns (inside: bool)
    requires tmp.Length == 16 && colon + n <= 16 && end <= 16
    modifies tmp
    ensures inside <==> n <= end
    ensures inside ==> tmp[..] == Shift(old(tmp[..]), colon, n, end, 1)
  {
    var i := 1;
    while i <= n
      invariant 1 <= i <= n + 1 && i <= end + 1
      invariant n <= end ==> Shift(tmp[..], colon, n, end, i) == Shift(old(tmp[..]), colon, n, end, 1)
    {
      if i > end {
        return false; // the source has no such test
      }
      ghost var was := tmp[..];
      tmp[end - i] := tmp[colon + n - i];
      tmp[colon + n - i] := 0;
      assert tmp[..] == was[end - i := was[colon + n - i]][colon + n - i := 0];
      i := i + 1;
    }
    inside := true;
  }

  lemma ParseIs(src: string, at: nat, size: nat)
    requires if src != "" && src[0] == ':' then at == 1 && |src| >= 2 && src[1] == ':' else at == 0
    ensures var r := Scan(src[at..], Start(src[at..]));
      && (r.Scanned? ==> |r.out| <= 16 && (r.colon.Some? ==> r.colon.value <= |r.out|))
      && (r.Scanned? && r.bits.Some? ==> r.bits.value <= 128)
      && Parse(src, size) == Finish(r, size)
  {
    ScanFits(src[at..], Start(src[at..]));
    assert src[0..] == src;
    hide Scan, Finish;
  }
}
