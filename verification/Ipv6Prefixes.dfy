/**
 Texts of IPv6 addresses and networks that are written out: groups with a prefix length
 (RFC 4291 section 2.3), letters in either case, and the texts of some known addresses
 (c-ares/inet_net_pton.c, inet_ntop.c).
 */
module Ipv6Prefixes {
  import opened Options
  import opened Octets
  import opened Ipv6Text
  import opened Ipv6Limits

  /** How many groups stand before a prefix length: enough for its bits, and at least two */
  function GroupsFor(n: nat): nat {
    if n <= 32 then 2 else (n + 15) / 16
  }

  lemma ScanSlash(t: string, s: Scanner, n: nat)
    requires n <= 128 && t == Digits(n, 10)
    ensures Scan("/" + t, s) == Scanned(s.out, s.colon, s.saw, s.val, Some(n), false)
  {
    hide Scan, GetBits, Digits;
    AtOther("/" + t, s);
    BitsExactly(t, n);
    assert ("/" + t)[1..] == t;
  }

  lemma FinishPrefix(out: seq<Byte>, w: Word, n: nat, size: nat)
    requires |out| <= 14 && |out| % 2 == 0 && n <= 128
    ensures Finish(Scanned(out, None, true, w, Some(n), false), size) ==
      if |out| + 2 != 2 * GroupsFor(n) then NotFound
      else if size < (n + 7) / 8 then TooSmall
      else Address(n, (out + [w / 256, w % 256])[..(n + 7) / 8])
  {
  }

  /**
   Groups and a prefix length are a network exactly when there are as many groups as the length calls for;
   the bytes are the first ones of the groups, as many as hold the prefix.
   */
  lemma PrefixedGroups(ws: seq<Word>, n: nat, size: nat)
    requires 1 <= |ws| <= 8 && n <= 128
    ensures Parse(Groups(ws, 0, |ws|) + ("/" + Digits(n, 10)), size) ==
      if |ws| != GroupsFor(n) then NotFound
      else if size < (n + 7) / 8 then TooSmall
      else Address(n, Bytes(ws)[..(n + 7) / 8])
  {
    hide Scan, Finish, Groups, Digits, Bytes, Parse;
    var bits := Digits(n, 10);
    var t, g := Groups(ws, 0, |ws|) + ("/" + bits), |ws|;
    var out, w := Bytes(ws[0..g - 1]), ws[g - 1];
    GroupsStart(ws, 0, g);
    ParsePlain(t, size);
    ScanGroups(ws, 0, g, "/" + bits, Start(t));
    assert [] + out == out;
    ScanSlash(bits, Scanner(out, None, true, w, |Digits(w, 16)|, Digits(w, 16) + ("/" + bits)), n);
    FinishPrefix(out, w, n, size);
    BytesLast(ws, g);
    assert ws[..g] == ws;
  }

  // ----- capital letters

  /** The same text, but for the case of the letters a to f */
  predicate SameLetters(t: string, u: string) {
    |t| == |u| && forall i :: 0 <= i < |t| ==> SameLetter(t[i], u[i])
  }

  predicate SameLetter(a: char, b: char) {
    || a == b
    || ('a' <= a <= 'f' && 'A' <= b <= 'F' && a - 'a' == b - 'A')
    || ('A' <= a <= 'F' && 'a' <= b <= 'f' && a - 'A' == b - 'a')
  }

  lemma SameValue(a: char, b: char)
    requires SameLetter(a, b)
    ensures HexValue(a) == HexValue(b) && DecValue(a) == DecValue(b)
    ensures a == b || HexValue(a).Some?
    ensures a == b || (DecValue(a).None? && a !in "./:" && b !in "./:")
  {
  }

  lemma {:induction false} BitsCase(t: string, u: string, val: nat, n: nat)
    requires SameLetters(t, u) && val <= 128
    ensures GetBits(t, val, n) == GetBits(u, val, n)
  {
    if t != "" {
      SameValue(t[0], u[0]);
      hide HexValue, SameLetter;
      if DecValue(t[0]).Some? && val * 10 + DecValue(t[0]).value <= 128 {
        BitsCase(t[1..], u[1..], val * 10 + DecValue(t[0]).value, n + 1);
      }
    }
  }

  lemma {:induction false} V4Case(t: string, u: string, out: seq<Byte>, val: Byte, n: nat)
    requires SameLetters(t, u) && |out| <= 4
    ensures GetV4(t, out, val, n) == GetV4(u, out, val, n)
    decreases |t|
  {
    if t != "" {
      SameValue(t[0], u[0]);
      hide HexValue, SameLetter;
      BitsCase(t[1..], u[1..], 0, 0);
      match DecValue(t[0])
      case Some(d) =>
        if val * 10 + d <= 255 {
          V4Case(t[1..], u[1..], out, val * 10 + d, n + 1);
        }
      case None =>
        if |out| <= 3 {
          V4Case(t[1..], u[1..], out + [val], 0, 0);
        }
    }
  }

  lemma {:induction false} ScanCase(t: string, u: string, s: Scanner, r: Scanner)
    requires SameLetters(t, u) && SameLetters(s.token, r.token) && r == s.(token := r.token)
    ensures Scan(t, s) == Scan(u, r)
    decreases |t|
  {
    if t == "" {
      EndOfScan(s);
      EndOfScan(r);
    } else {
      SameValue(t[0], u[0]);
      hide Scan, HexValue, DecValue, GetV4, GetBits, SameLetter;
      var t1, u1 := t[1..], u[1..];
      if HexValue(t[0]).Some? {
        var d := HexValue(t[0]).value;
        AtDigit(t, s);
        AtDigit(u, r);
        ScanCase(t1, u1, s.(val := s.val * 16 + d, digits := s.digits + 1, saw := true),
                 r.(val := s.val * 16 + d, digits := s.digits + 1, saw := true));
      } else if t[0] == ':' {
        AtColon(t, s);
        AtColon(u, r);
        var word := [(s.val / 256) % 256, s.val % 256];
        ScanCase(t1, u1, s.(colon := Some(|s.out|), token := t1), r.(colon := Some(|s.out|), token := u1));
        ScanCase(t1, u1, Scanner(s.out + word, s.colon, false, 0, 0, t1), Scanner(s.out + word, s.colon, false, 0, 0, u1));
      } else {
        AtOther(t, s);
        AtOther(u, r);
        V4Case(s.token, r.token, [], 0, 0);
        BitsCase(t1, u1, 0, 0);
      }
    }
  }

  /** Letters may be written either way. */
  lemma CaseDoesNotMatter(t: string, u: string, size: nat)
    requires SameLetters(t, u)
    ensures Parse(t, size) == Parse(u, size)
  {
    ScanCase(t, u, Start(t), Start(u));
    if t != "" {
      ScanCase(t[1..], u[1..], Start(t[1..]), Start(u[1..]));
    }
    if |t| > 1 {
      SameValue(t[0], u[0]);
      SameValue(t[1], u[1]);
    }
    ScanFits(t, Start(t));
    if t != "" {
      ScanFits(t[1..], Start(t[1..]));
    }
    hide Scan, Finish, HexValue;
  }

  // ----- known addresses

  lemma DocumentationDigits()
    ensures Digits(0x2001, 16) == "2001" && Digits(0xdb8, 16) == "db8" && Digits(0xab, 16) == "ab" && Digits(1, 16) == "1"
  {
  }

  lemma DocumentationForm()
    ensures Form([0x2001, 0xdb8, 0, 0, 0, 0, 0xab, 1], Run(2, 4)) == "2001:db8::ab:1"
  {
    hide Digits, Groups;
    var ws: seq<Word> := [0x2001, 0xdb8, 0, 0, 0, 0, 0xab, 1];
    DocumentationDigits();
    GroupsFirst(ws, 0, 2);
    GroupsFirst(ws, 1, 2);
    GroupsFirst(ws, 6, 8);
    GroupsFirst(ws, 7, 8);
    assert Groups(ws, 0, 2) == "2001" + ":" + "db8";
    assert Groups(ws, 6, 8) == "ab" + ":" + "1";
    assert Form(ws, Run(2, 4)) == Groups(ws, 0, 2) + "::" + Groups(ws, 6, 8);
  }

  /** Each word stands for two bytes, the more significant one first. */
  lemma {:induction false} BytesAt(ws: seq<Word>, i: nat)
    requires i < |ws|
    ensures Bytes(ws)[2 * i] == ws[i] / 256 && Bytes(ws)[2 * i + 1] == ws[i] % 256
  {
    if i > 0 {
      BytesAt(ws[1..], i - 1);
    }
  }

  lemma DocumentationBytes()
    ensures Bytes([0x2001, 0xdb8, 0, 0, 0, 0, 0xab, 1]) == [0x20, 1, 0xd, 0xb8, 0, 0, 0, 0, 0, 0, 0, 0, 0, 0xab, 0, 1]
  {
    hide Bytes;
    var ws: seq<Word> := [0x2001, 0xdb8, 0, 0, 0, 0, 0xab, 1];
    BytesAt(ws, 0);
    BytesAt(ws, 1);
    BytesAt(ws, 2);
    BytesAt(ws, 3);
    BytesAt(ws, 4);
    BytesAt(ws, 5);
    BytesAt(ws, 6);
    BytesAt(ws, 7);
  }

  /** An address of the range for documentation, read in capital letters */
  lemma DocumentationAddress(size: nat)
    requires size >= 16
    ensures Parse("2001:DB8::AB:1", size) == Address(128, [0x20, 1, 0xd, 0xb8, 0, 0, 0, 0, 0, 0, 0, 0, 0, 0xab, 0, 1])
  {
    hide Parse, Form, Bytes;
    var ws: seq<Word> := [0x2001, 0xdb8, 0, 0, 0, 0, 0xab, 1];
    DocumentationForm();
    DocumentationBytes();
    RoundTrip(ws, Run(2, 4), size);
    CaseDoesNotMatter("2001:DB8::AB:1", "2001:db8::ab:1", size);
  }

  /** An IPv4 address in IPv6 form */
  lemma MappedForm()
    ensures Form([0, 0, 0, 0, 0, 0xffff, 0xc000, 0x201], Run(0, 5)) == "::ffff:192.0.2.1"
  {
    MarkDigits();
    DottedExample();
    hide DottedWords, Digits;
  }

  lemma MarkDigits()
    ensures Digits(0xffff, 16) == "ffff"
  {
  }

  lemma DottedDigits()
    ensures Digits(192, 10) == "192" && Digits(0, 10) == "0" && Digits(2, 10) == "2" && Digits(1, 10) == "1"
  {
  }

  lemma DottedExample()
    ensures DottedWords(0xc000, 0x201) == "192.0.2.1"
  {
    hide Digits;
    DottedDigits();
  }
}
