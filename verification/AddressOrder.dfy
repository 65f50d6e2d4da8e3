/**
 Destination address selection of c-ares (RFC 6724 section 6; c-ares/ares__sortaddrinfo.c): the
 tables it ranks addresses by, the comparison it sorts with, and the relinking of the sorted list.
 */
module AddressOrder {

  type In6 = s: seq<bv8> | |s| == 16 witness seq(16, _ => 0)
  type In4 = s: seq<bv8> | |s| == 4 witness seq(4, _ => 0)

  datatype Address = V4(b: In4) | V6(s: In6) | OtherFamily

  // ----- kinds of IPv6 addresses

  predicate ZeroTo(s: In6, n: nat)
    requires n <= 16
  {
    forall i :: 0 <= i < n ==> s[i] == 0
  }

  predicate Multicast(s: In6) { s[0] == 0xff }

  predicate Loopback(s: In6) { ZeroTo(s, 15) && s[15] == 1 }

  predicate LinkLocal(s: In6) { s[0] == 0xfe && s[1] & 0xc0 == 0x80 }

  predicate SiteLocal(s: In6) { s[0] == 0xfe && s[1] & 0xc0 == 0xc0 }

  predicate V4Mapped(s: In6) { ZeroTo(s, 10) && s[10] == 0xff && s[11] == 0xff }

  predicate V4Compatible(s: In6) { ZeroTo(s, 12) && !ZeroTo(s, 16) && !Loopback(s) }

  predicate SixToFour(s: In6) { s[0] == 0x20 && s[1] == 0x02 }

  predicate Teredo(s: In6) { s[0] == 0x20 && s[1] == 0x01 && s[2] == 0 && s[3] == 0 }

  predicate UniqueLocal(s: In6) { s[0] & 0xfe == 0xfc }

  predicate SixBone(s: In6) { s[0] == 0x3f && s[1] == 0xfe }

  // ----- ranks

  function Scope(a: Address): int {
    match a
    case V6(s) =>
      if Multicast(s) then (s[1] & 0x0f) as int
      else if Loopback(s) || LinkLocal(s) then 0x02
      else if SiteLocal(s) then 0x05
      else 0x0e
    case V4(b) => if b[0] == 127 || (b[0] == 169 && b[1] == 254) then 0x02 else 0x0e
    case OtherFamily => 0x01
  }

  function LabelOf(a: Address): int {
    match a
    case V4(_) => 4
    case V6(s) =>
      if Loopback(s) then 0
      else if V4Mapped(s) then 4
      else if SixToFour(s) then 2
      else if Teredo(s) then 5
      else if UniqueLocal(s) then 13
      else if V4Compatible(s) then 3
      else if SiteLocal(s) then 11
      else if SixBone(s) then 12
      else 1
    case OtherFamily => 1
  }

  function Precedence(a: Address): int {
    match a
    case V4(_) => 35
    case V6(s) =>
      if Loopback(s) then 50
      else if V4Mapped(s) then 35
      else if SixToFour(s) then 30
      else if Teredo(s) then 5
      else if UniqueLocal(s) then 3
      else if V4Compatible(s) || SiteLocal(s) || SixBone(s) then 1
      else 40
    case OtherFamily => 1
  }

  // ----- the policy table of RFC 6724 section 2.1

  datatype Policy = Policy(prefix: seq<bv8>, length: nat, precedence: int, tag: int)

  /** The first bits of an address, as many as the policy's length, are those of its prefix. */
  predicate Covers(p: Policy, s: In6)
    requires p.length <= 128 && |p.prefix| == (p.length + 7) / 8
  {
    && (forall i :: 0 <= i < p.length / 8 ==> s[i] == p.prefix[i])
    && (p.length % 8 != 0 ==>
          s[p.length / 8] >> (8 - p.length % 8) == p.prefix[p.length / 8] >> (8 - p.length % 8))
  }

  function Zeros(n: nat): (z: seq<bv8>)
    ensures |z| == n && forall i :: 0 <= i < n ==> z[i] == 0
  {
    seq(n, _ => 0)
  }

  /** From the longest prefix to the shortest */
  function Table(): (t: seq<Policy>)
    ensures forall i :: 0 <= i < |t| ==> t[i].length <= 128 && |t[i].prefix| == (t[i].length + 7) / 8
    ensures |t| == 9 && t[8].length == 0
  {
    [ Policy(Zeros(15) + [1], 128, 50, 0),
      Policy(Zeros(10) + [0xff, 0xff], 96, 35, 4),
      Policy(Zeros(12), 96, 1, 3),
      Policy([0x20, 0x01, 0, 0], 32, 5, 5),
      Policy([0x20, 0x02], 16, 30, 2),
      Policy([0x3f, 0xfe], 16, 1, 12),
      Policy([0xfe, 0xc0], 10, 1, 11),
      Policy([0xfc], 7, 3, 13),
      Policy([], 0, 40, 1) ]
  }

  /** The policy with the longest prefix that covers the address */
  ghost predicate Applies(p: Policy, s: In6) {
    exists i :: 0 <= i < |Table()| && Table()[i] == p && Covers(p, s)
      && forall j :: 0 <= j < |Table()| && Covers(Table()[j], s) ==> Table()[j].length <= p.length
  }

  lemma LongCovers(s: In6)
    ensures Covers(Table()[0], s) <==> Loopback(s)
    ensures Covers(Table()[1], s) <==> V4Mapped(s)
    ensures Covers(Table()[2], s) <==> ZeroTo(s, 12)
  {
    assert Covers(Table()[0], s) ==> s[15] == Table()[0].prefix[15];
    assert Covers(Table()[1], s) ==> s[10] == Table()[1].prefix[10] && s[11] == Table()[1].prefix[11];
    assert forall i :: 0 <= i < 15 ==> Table()[0].prefix[i] == 0;
    assert forall i :: 0 <= i < 10 ==> Table()[1].prefix[i] == 0;
    assert Covers(Table()[0], s) ==> forall i :: 0 <= i < 15 ==> s[i] == Table()[0].prefix[i];
    assert Covers(Table()[1], s) ==> forall i :: 0 <= i < 10 ==> s[i] == Table()[1].prefix[i];
    assert Covers(Table()[2], s) ==> forall i :: 0 <= i < 12 ==> s[i] == Table()[2].prefix[i];
  }

  lemma ShortCovers(s: In6)
    ensures Covers(Table()[3], s) <==> Teredo(s)
    ensures Covers(Table()[4], s) <==> SixToFour(s)
    ensures Covers(Table()[5], s) <==> SixBone(s)
    ensures Covers(Table()[8], s)
  {
    assert Covers(Table()[3], s) ==> forall i :: 0 <= i < 4 ==> s[i] == Table()[3].prefix[i];
    assert Covers(Table()[4], s) ==> forall i :: 0 <= i < 2 ==> s[i] == Table()[4].prefix[i];
    assert Covers(Table()[5], s) ==> forall i :: 0 <= i < 2 ==> s[i] == Table()[5].prefix[i];
  }

  lemma TopBits(b: bv8)
    ensures b >> 6 == 0xc0 >> 6 <==> b & 0xc0 == 0xc0
    ensures b >> 1 == 0xfc >> 1 <==> b & 0xfe == 0xfc
  {
  }

  lemma OddCovers(s: In6)
    ensures Covers(Table()[6], s) <==> SiteLocal(s)
    ensures Covers(Table()[7], s) <==> UniqueLocal(s)
  {
    TopBits(s[1]);
    TopBits(s[0]);
    assert Covers(Table()[6], s) ==> s[0] == Table()[6].prefix[0];
  }

  /** Label and precedence are those of the policy table, for every address but the unspecified one. */
  lemma RanksFollowPolicy(s: In6, p: Policy)
    requires Applies(p, s)
    ensures LabelOf(V6(s)) == p.tag && Precedence(V6(s)) == p.precedence <==> !ZeroTo(s, 16)
  {
    LongCovers(s);
    ShortCovers(s);
    OddCovers(s);
    hide Covers;
    var i :| 0 <= i < |Table()| && Table()[i] == p && Covers(p, s)
      && forall j :: 0 <= j < |Table()| && Covers(Table()[j], s) ==> Table()[j].length <= p.length;
  }

  /** Entry i covers the address and no entry before it does. */
  ghost predicate FirstCover(s: In6, i: nat) {
    i < |Table()| && Covers(Table()[i], s) && forall j :: 0 <= j < i ==> !Covers(Table()[j], s)
  }

  lemma FirstCoverFrom(s: In6, i: nat) returns (k: nat)
    requires i < |Table()| && forall j :: 0 <= j < i ==> !Covers(Table()[j], s)
    ensures FirstCover(s, k)
    decreases |Table()| - i
  {
    if Covers(Table()[i], s) {
      k := i;
    } else {
      if i == 8 {
        ShortCovers(s);
      }
      k := FirstCoverFrom(s, i + 1);
    }
  }

  lemma TableFalls(i: nat, j: nat)
    requires i <= j < |Table()|
    ensures Table()[j].length <= Table()[i].length
  {
  }

  /** The table has an entry for every address. */
  lemma EveryAddressHasPolicy(s: In6)
    ensures exists p :: Applies(p, s)
  {
    var i := FirstCoverFrom(s, 0);
    forall j | 0 <= j < |Table()| && Covers(Table()[j], s)
      ensures Table()[j].length <= Table()[i].length
    {
      TableFalls(i, j);
    }
    assert Applies(Table()[i], s);
  }

  /** The address for which they are not: the table says label 3 and precedence 1, the code says 1 and 40. */
  lemma UnspecifiedAddressDisagrees(s: In6)
    requires ZeroTo(s, 16)
    ensures LabelOf(V6(s)) == 1 && Precedence(V6(s)) == 40
    ensures exists p :: Applies(p, s) && p.tag == 3 && p.precedence == 1
  {
    EveryAddressHasPolicy(s);
    var p :| Applies(p, s);
    ZeroPolicy(s, p);
  }

  lemma ZeroPolicy(s: In6, p: Policy)
    requires ZeroTo(s, 16) && Applies(p, s)
    ensures p.tag == 3 && p.precedence == 1
  {
    LongCovers(s);
    ShortCovers(s);
    OddCovers(s);
    hide Covers;
  }

  // ----- scopes

  const LINK_LOCAL := Policy([0xfe, 0x80], 10, 0, 0)
  const MULTICAST := Policy([0xff], 8, 0, 0)

  lemma ScopeCovers(s: In6)
    ensures Covers(MULTICAST, s) <==> Multicast(s)
    ensures Covers(LINK_LOCAL, s) <==> LinkLocal(s)
  {
    TopBitsLinkLocal(s[1]);
    assert Covers(MULTICAST, s) ==> s[0] == MULTICAST.prefix[0];
    assert Covers(LINK_LOCAL, s) ==> s[0] == LINK_LOCAL.prefix[0];
  }

  /** The scope of an IPv6 address, by the prefixes of RFC 4291 section 2.4; the policy table has two of them. */
  lemma ScopeFollowsPrefixes(s: In6)
    ensures Scope(V6(s)) ==
      if Covers(MULTICAST, s) then (s[1] & 0x0f) as int
      else if Covers(Table()[0], s) || Covers(LINK_LOCAL, s) then 0x02
      else if Covers(Table()[6], s) then 0x05
      else 0x0e
  {
    hide Covers, Multicast, LinkLocal, SiteLocal, Loopback;
    LongCovers(s);
    OddCovers(s);
    ScopeCovers(s);
  }

  lemma TopBitsLinkLocal(b: bv8)
    ensures b >> 6 == 0x80 >> 6 <==> b & 0xc0 == 0x80
  {
  }

  /** An IPv4 address as a number */
  function Value(b: In4): int {
    b[0] as int * 0x1000000 + b[1] as int * 0x10000 + b[2] as int * 0x100 + b[3] as int
  }

  /** 127.0.0.0/8 and 169.254.0.0/16 have link-local scope, all other IPv4 addresses global scope. */
  lemma ScopeOfV4(b: In4)
    ensures Scope(V4(b)) ==
      if 0x7f000000 <= Value(b) <= 0x7fffffff || 0xa9fe0000 <= Value(b) <= 0xa9feffff then 0x02 else 0x0e
  {
    var b0, b1, b2, b3 := b[0] as int, b[1] as int, b[2] as int, b[3] as int;
    assert b0 == 127 <==> b[0] == 127;
    assert b0 == 169 <==> b[0] == 169;
    assert b1 == 254 <==> b[1] == 254;
    assert 0 <= b0 < 256 && 0 <= b1 < 256 && 0 <= b2 < 256 && 0 <= b3 < 256;
  }

  // ----- matching prefixes

  /** Bit k of an address, from the most significant one on */
  function Bit(b: bv8, j: nat): bv8
    requires j < 8
  {
    (b >> (7 - j)) & 1
  }

  /** Bit 0 is the most significant one. */
  lemma BitMasks(b: bv8)
    ensures Bit(b, 0) != 0 <==> b & 0x80 != 0
    ensures Bit(b, 1) != 0 <==> b & 0x40 != 0
    ensures Bit(b, 2) != 0 <==> b & 0x20 != 0
    ensures Bit(b, 3) != 0 <==> b & 0x10 != 0
    ensures Bit(b, 4) != 0 <==> b & 0x08 != 0
    ensures Bit(b, 5) != 0 <==> b & 0x04 != 0
    ensures Bit(b, 6) != 0 <==> b & 0x02 != 0
    ensures Bit(b, 7) != 0 <==> b & 0x01 != 0
  {
  }

  function BitOf(s: In6, k: nat): bv8
    requires k < 128
  {
    Bit(s[k / 8], k % 8)
  }

  ghost predicate CommonBits(a: In6, b: In6, n: nat) {
    && n <= 128 && (forall k :: 0 <= k < n ==> BitOf(a, k) == BitOf(b, k))
    && (n < 128 ==> BitOf(a, n) != BitOf(b, n))
  }

  lemma CommonBitsUnique(a: In6, b: In6, n: nat, m: nat)
    requires CommonBits(a, b, n) && CommonBits(a, b, m)
    ensures n == m
  {
    hide BitOf;
  }

  lemma XorBit(a: bv8, b: bv8, j: nat)
    requires j < 8
    ensures ((a ^ b) << j) & 0x80 != 0 <==> Bit(a, j) != Bit(b, j)
  {
    match j {
      case 0 =>
      case 1 =>
      case 2 =>
      case 3 =>
      case 4 =>
      case 5 =>
      case 6 =>
      case 7 =>
    }
  }

  lemma SameBits(a: bv8, b: bv8)
    requires forall j :: 0 <= j < 8 ==> Bit(a, j) == Bit(b, j)
    ensures a == b
  {
    assert Bit(a, 0) == Bit(b, 0) && Bit(a, 1) == Bit(b, 1) && Bit(a, 2) == Bit(b, 2) && Bit(a, 3) == Bit(b, 3);
    assert Bit(a, 4) == Bit(b, 4) && Bit(a, 5) == Bit(b, 5) && Bit(a, 6) == Bit(b, 6) && Bit(a, 7) == Bit(b, 7);
  }

  /** The loop over the bits of two bytes that differ */
  method FirstDifference(a: bv8, b: bv8) returns (j: nat)
    requires a != b
    ensures j < 8 && Bit(a, j) != Bit(b, j) && forall k :: 0 <= k < j ==> Bit(a, k) == Bit(b, k)
  {
    hide Bit;
    var x := a ^ b;
    j := 0;
    ShiftNone(x);
    while j < 8
      invariant j <= 8 && x == (a ^ b) << j
      invariant forall k :: 0 <= k < j ==> Bit(a, k) == Bit(b, k)
    {
      XorBit(a, b, j);
      if x & 0x80 != 0 {
        return;
      }
      ShiftNext(a ^ b, j);
      x := x << 1;
      j := j + 1;
    }
    SameBits(a, b);
    assert false;
  }

  lemma ShiftNone(x: bv8)
    ensures x << 0 == x
  {
  }

  /** common_prefix_len: the number of leading bits that agree */
  method CommonPrefixLen(a: In6, b: In6) returns (n: nat)
    ensures CommonBits(a, b, n) && n == Prefix(a, b)
  {
    hide Bit, Prefix;
    var i := 0;
    while i < 16
      invariant 0 <= i <= 16 && forall k :: 0 <= k < 8 * i ==> BitOf(a, k) == BitOf(b, k)
    {
      if a[i] != b[i] {
        var j := FirstDifference(a[i], b[i]);
        PrefixIs(a, b);
        CommonBitsUnique(a, b, 8 * i + j, Prefix(a, b));
        return 8 * i + j;
      }
      i := i + 1;
    }
    PrefixIs(a, b);
    CommonBitsUnique(a, b, 128, Prefix(a, b));
    return 128;
  }

  /** The same as a function, for the comparison */
  function Prefix(a: In6, b: In6): nat {
    PrefixFrom(a, b, 0)
  }

  function PrefixFrom(a: In6, b: In6, k: nat): nat
    requires k <= 128
    decreases 128 - k
  {
    if k < 128 && BitOf(a, k) == BitOf(b, k) then PrefixFrom(a, b, k + 1) else k
  }

  lemma {:induction false} PrefixFromIs(a: In6, b: In6, k: nat)
    requires k <= 128 && forall i :: 0 <= i < k ==> BitOf(a, i) == BitOf(b, i)
    ensures CommonBits(a, b, PrefixFrom(a, b, k))
    decreases 128 - k
  {
    hide BitOf;
    if k < 128 && BitOf(a, k) == BitOf(b, k) {
      PrefixFromIs(a, b, k + 1);
    }
  }

  lemma PrefixIs(a: In6, b: In6)
    ensures CommonBits(a, b, Prefix(a, b))
  {
    hide BitOf;
    PrefixFromIs(a, b, 0);
  }

  lemma ShiftNext(x: bv8, j: nat)
    requires j < 8
    ensures (x << j) << 1 == x << (j + 1)
  {
    match j {
      case 0 =>
      case 1 =>
      case 2 =>
      case 3 =>
      case 4 =>
      case 5 =>
      case 6 =>
      case 7 =>
    }
  }

  // ----- the comparison

  /** A destination with the source address found for it; order is its place in the original list. */
  datatype Elem = Elem(dst: Address, hasSrc: bool, src: Address, order: int)

  function Flag(b: bool): int {
    if b then 1 else 0
  }

  /** rfc6724_compare */
  function Compare(a: Elem, b: Elem): int {
    var scopeMatchA, scopeMatchB := Scope(a.src) == Scope(a.dst), Scope(b.src) == Scope(b.dst);
    var labelMatchA, labelMatchB := LabelOf(a.src) == LabelOf(a.dst), LabelOf(b.src) == LabelOf(b.dst);
    if a.hasSrc != b.hasSrc then Flag(b.hasSrc) - Flag(a.hasSrc)
    else if scopeMatchA != scopeMatchB then Flag(scopeMatchB) - Flag(scopeMatchA)
    else if labelMatchA != labelMatchB then Flag(labelMatchB) - Flag(labelMatchA)
    else if Precedence(a.dst) != Precedence(b.dst) then Precedence(b.dst) - Precedence(a.dst)
    else if Scope(a.dst) != Scope(b.dst) then Scope(a.dst) - Scope(b.dst)
    else if a.hasSrc && a.dst.V6? && b.hasSrc && b.dst.V6? && PrefixLen(a) != PrefixLen(b) then PrefixLen(b) - PrefixLen(a)
    else a.order - b.order
  }

  /** How much of an IPv6 destination its source address matches; the source has the family of the destination. */
  function PrefixLen(e: Elem): int {
    if e.src.V6? && e.dst.V6? then Prefix(e.src.s, e.dst.s) else 0
  }

  predicate Before(a: Elem, b: Elem) {
    Compare(a, b) < 0
  }

  // ----- what it orders by

  /** Rules 1, 2, 5, 6 and 8, as numbers: the smaller the better */
  function Rank(e: Elem): seq<int> {
    [ 1 - Flag(e.hasSrc), 1 - Flag(Scope(e.src) == Scope(e.dst)), 1 - Flag(LabelOf(e.src) == LabelOf(e.dst)),
      -Precedence(e.dst), Scope(e.dst) ]
  }

  /** The first difference decides. */
  predicate LexBefore(a: seq<int>, b: seq<int>)
    requires |a| == |b|
  {
    a != [] && (a[0] < b[0] || (a[0] == b[0] && LexBefore(a[1..], b[1..])))
  }

  /** Rule 9 concerns this element. */
  predicate Rule9(e: Elem) {
    e.hasSrc && e.dst.V6?
  }

  /** What decides when the ranks are the same: rule 9 between two that it concerns, then the original order */
  predicate TieBefore(a: Elem, b: Elem) {
    if Rule9(a) && Rule9(b) && PrefixLen(a) != PrefixLen(b) then PrefixLen(a) > PrefixLen(b) else a.order < b.order
  }

  /** The comparison is: ranks first, lexicographically, then ties. */
  lemma BeforeIs(a: Elem, b: Elem)
    ensures Before(a, b) <==> LexBefore(Rank(a), Rank(b)) || (Rank(a) == Rank(b) && TieBefore(a, b))
  {
    hide Scope, LabelOf, Precedence, PrefixLen;
    var x, y := Rank(a), Rank(b);
    assert x[1..][1..] == x[2..] && x[2..][1..] == x[3..] && x[3..][1..] == x[4..] && x[4..][1..] == [];
    assert y[1..][1..] == y[2..] && y[2..][1..] == y[3..] && y[3..][1..] == y[4..] && y[4..][1..] == [];
    assert LexBefore(x, y) <==> x[0] < y[0] || (x[0] == y[0] && LexBefore(x[1..], y[1..]));
    assert LexBefore(x[1..], y[1..]) <==> x[1] < y[1] || (x[1] == y[1] && LexBefore(x[2..], y[2..]));
    assert LexBefore(x[2..], y[2..]) <==> x[2] < y[2] || (x[2] == y[2] && LexBefore(x[3..], y[3..]));
    assert LexBefore(x[3..], y[3..]) <==> x[3] < y[3] || (x[3] == y[3] && LexBefore(x[4..], y[4..]));
    assert LexBefore(x[4..], y[4..]) <==> x[4] < y[4];
    assert x == y <==> x[0] == y[0] && x[1] == y[1] && x[2] == y[2] && x[3] == y[3] && x[4] == y[4];
  }

  lemma {:induction false} LexTrichotomy(a: seq<int>, b: seq<int>)
    requires |a| == |b|
    ensures LexBefore(a, b) || a == b || LexBefore(b, a)
    ensures !(LexBefore(a, b) && LexBefore(b, a)) && (a == b ==> !LexBefore(a, b))
  {
    if a != [] {
      LexTrichotomy(a[1..], b[1..]);
      assert a[0] == b[0] && a[1..] == b[1..] ==> a == b by {
        assert a == [a[0]] + a[1..] && b == [b[0]] + b[1..];
      }
    }
  }

  lemma {:induction false} LexTransitive(a: seq<int>, b: seq<int>, c: seq<int>)
    requires |a| == |b| == |c| && LexBefore(a, b) && LexBefore(b, c)
    ensures LexBefore(a, c)
  {
    if a[0] == b[0] == c[0] {
      LexTransitive(a[1..], b[1..], c[1..]);
    }
  }

  /** Two elements with different places in the original list are always ordered, one way only. */
  lemma BeforeTotal(a: Elem, b: Elem)
    requires a.order != b.order
    ensures Before(a, b) <==> !Before(b, a)
    ensures (Compare(a, b) < 0 <==> Compare(b, a) > 0) && Compare(a, b) != 0
  {
    hide Scope, LabelOf, Precedence, PrefixLen;
  }

  lemma BeforeIrreflexive(a: Elem)
    ensures !Before(a, a)
  {
    hide Scope, LabelOf, Precedence, PrefixLen;
  }

  /** y comes before z and z before x in the original list, but rule 9, which does not concern z, puts x before y. */
  predicate Crossed(x: Elem, y: Elem, z: Elem) {
    && Rank(x) == Rank(y) == Rank(z)
    && Rule9(x) && Rule9(y) && !Rule9(z)
    && PrefixLen(x) > PrefixLen(y) && y.order < z.order < x.order
  }

  predicate Cycle(a: Elem, b: Elem, c: Elem) {
    Before(a, b) && Before(b, c) && Before(c, a)
  }

  /** The order has a cycle of three exactly where an address of another family stands between two IPv6 ones. */
  lemma CycleExactly(a: Elem, b: Elem, c: Elem)
    requires a.order != b.order && b.order != c.order && a.order != c.order
    ensures Cycle(a, b, c) <==> Crossed(a, b, c) || Crossed(b, c, a) || Crossed(c, a, b)
  {
    hide Before, Rank, PrefixLen;
    BeforeIs(a, b);
    BeforeIs(b, c);
    BeforeIs(c, a);
    if Cycle(a, b, c) {
      SameRanks(a, b, c);
    }
    RankRefl(a);
  }

  lemma RankRefl(a: Elem)
    ensures !LexBefore(Rank(a), Rank(a))
  {
    LexTrichotomy(Rank(a), Rank(a));
  }

  lemma SameRanks(a: Elem, b: Elem, c: Elem)
    requires Cycle(a, b, c)
    ensures Rank(a) == Rank(b) == Rank(c)
  {
    hide Before, Rank;
    BeforeIs(a, b);
    BeforeIs(b, c);
    BeforeIs(c, a);
    var x, y, z := Rank(a), Rank(b), Rank(c);
    RankSize(a);
    RankSize(b);
    RankSize(c);
    LexTrichotomy(x, y);
    LexTrichotomy(y, z);
    LexTrichotomy(z, x);
    if LexBefore(x, y) && LexBefore(y, z) {
      LexTransitive(x, y, z);
    }
    if LexBefore(y, z) && LexBefore(z, x) {
      LexTransitive(y, z, x);
    }
    if LexBefore(z, x) && LexBefore(x, y) {
      LexTransitive(z, x, y);
    }
  }

  lemma RankSize(a: Elem)
    ensures |Rank(a)| == 5
  {
  }

  predicate OneFamily(a: Elem, b: Elem) {
    a.dst.V6? <==> b.dst.V6?
  }

  /** Among destinations of one family the comparison is transitive, hence a strict total order. */
  lemma BeforeTransitive(a: Elem, b: Elem, c: Elem)
    requires a.order != b.order && b.order != c.order && a.order != c.order
    requires OneFamily(a, b) && OneFamily(b, c)
    requires Before(a, b) && Before(b, c)
    ensures Before(a, c)
  {
    hide Before, Rank, PrefixLen;
    if !Before(a, c) {
      BeforeTotal(a, c);
      CycleExactly(a, b, c);
      RankHasSrc(a, b);
      RankHasSrc(b, c);
    }
  }

  lemma RankHasSrc(a: Elem, b: Elem)
    ensures Rank(a) == Rank(b) ==> a.hasSrc == b.hasSrc
  {
    hide Scope, LabelOf, Precedence;
    assert Rank(a)[0] == 1 - Flag(a.hasSrc) && Rank(b)[0] == 1 - Flag(b.hasSrc);
  }

  function Mapped(first: bv8): (s: In6)
    ensures V4Mapped(s) && s[12] == first
  {
    Zeros(10) + [0xff, 0xff, first, 0, 0, 1]
  }

  lemma MappedRanks(s: In6)
    requires V4Mapped(s)
    ensures Scope(V6(s)) == 0x0e && LabelOf(V6(s)) == 4 && Precedence(V6(s)) == 35
  {
    assert s[10] != 0 && s[0] == 0;
  }

  lemma PrefixToSelf(s: In6)
    ensures Prefix(s, s) == 128
  {
    hide BitOf, Prefix;
    PrefixIs(s, s);
  }

  lemma PrefixStops(a: In6, b: In6)
    requires Bit(a[12], 0) != Bit(b[12], 0)
    ensures Prefix(a, b) < 128
  {
    hide Bit, Prefix;
    PrefixIs(a, b);
    assert BitOf(a, 96) != BitOf(b, 96);
  }

  /** With families mixed there are cycles: two mapped IPv4 addresses and an IPv4 address between them. */
  lemma MixedFamiliesCycle() returns (a: Elem, b: Elem, c: Elem)
    ensures a.order == 0 && b.order == 1 && c.order == 2 && Cycle(c, a, b)
  {
    var near, far, four := Mapped(10), Mapped(200), [10, 0, 0, 1];
    a, b, c := Elem(V6(far), true, V6(near), 0), Elem(V4(four), true, V4(four), 1), Elem(V6(near), true, V6(near), 2);
    FirstBits();
    hide Cycle, Crossed, Mapped, Bit;
    CrossedMapped(near, far, four);
    CycleExactly(c, a, b);
  }

  lemma FirstBits()
    ensures Bit(10, 0) != Bit(200, 0)
  {
  }

  lemma CrossedMapped(near: In6, far: In6, four: In4)
    requires V4Mapped(near) && V4Mapped(far) && four[0] == 10 && Bit(near[12], 0) != Bit(far[12], 0)
    ensures Crossed(Elem(V6(near), true, V6(near), 2), Elem(V6(far), true, V6(near), 0), Elem(V4(four), true, V4(four), 1))
  {
    hide Scope, LabelOf, Precedence, Prefix, V4Mapped, Bit;
    PrefixToSelf(near);
    PrefixStops(near, far);
    MappedRanks(near);
    MappedRanks(far);
    PlainV4(four);
  }

  lemma PlainV4(b: In4)
    requires b[0] == 10
    ensures Scope(V4(b)) == 0x0e && LabelOf(V4(b)) == 4 && Precedence(V4(b)) == 35
  {
  }

  // ----- examples, after those of RFC 6724 section 10.2

  /** 2001:db8:n::m */
  function Documented(n: bv8, m: bv8): (s: In6)
    ensures s[0] == 0x20 && s[1] == 0x01 && s[2] == 0x0d && s[5] == n && s[15] == m
  {
    [0x20, 0x01, 0x0d, 0xb8, 0, n, 0, 0, 0, 0, 0, 0, 0, 0, 0, m]
  }

  /** fe80::m */
  function Local(m: bv8): (s: In6)
    ensures s[0] == 0xfe && s[1] == 0x80 && s[15] == m
  {
    [0xfe, 0x80, 0, 0, 0, 0, 0, 0, 0, 0, 0, 0, 0, 0, 0, m]
  }

  lemma DocumentedRanks(s: In6)
    requires s[0] == 0x20 && s[1] == 0x01 && s[2] == 0x0d
    ensures Scope(V6(s)) == 0x0e && LabelOf(V6(s)) == 1 && Precedence(V6(s)) == 40
  {
    assert s[0] & 0xfe != 0xfc;
  }

  lemma LocalRanks(s: In6)
    requires s[0] == 0xfe && s[1] == 0x80
    ensures Scope(V6(s)) == 0x02 && LabelOf(V6(s)) == 1 && Precedence(V6(s)) == 40
  {
    assert s[0] & 0xfe != 0xfc && s[1] & 0xc0 == 0x80;
  }

  lemma LocalV4(b: In4)
    requires b[0] == 169 && b[1] == 254
    ensures Scope(V4(b)) == 0x02
  {
  }

  /** First an address that has a source, wherever the two stand in the list */
  lemma ExampleSource(i: int, j: int)
    ensures Before(Elem(V6(Documented(1, 1)), true, V6(Documented(1, 2)), i), Elem(V6(Documented(1, 1)), false, OtherFamily, j))
  {
    hide Scope, LabelOf, Precedence, Prefix, Documented;
  }

  /** Then the address whose source has the same scope, of whichever family it is */
  lemma ExampleScopes(i: int, j: int)
    ensures Before(Elem(V6(Documented(1, 1)), true, V6(Documented(1, 2)), i), Elem(V4([10, 51, 100, 121]), true, V4([169, 254, 13, 78]), j))
    ensures Before(Elem(V4([10, 51, 100, 121]), true, V4([10, 51, 100, 117]), i), Elem(V6(Documented(1, 1)), true, V6(Local(1)), j))
  {
    DocumentedRanks(Documented(1, 1));
    DocumentedRanks(Documented(1, 2));
    LocalRanks(Local(1));
    PlainV4([10, 51, 100, 121]);
    PlainV4([10, 51, 100, 117]);
    LocalV4([169, 254, 13, 78]);
    hide Scope, LabelOf, Precedence, Prefix, Documented, Local;
  }

  /** Then the one of higher precedence */
  lemma ExamplePrecedence(i: int, j: int)
    ensures Before(Elem(V6(Documented(1, 1)), true, V6(Documented(1, 2)), i), Elem(V4([10, 1, 2, 3]), true, V4([10, 1, 2, 4]), j))
  {
    DocumentedRanks(Documented(1, 1));
    DocumentedRanks(Documented(1, 2));
    PlainV4([10, 1, 2, 3]);
    PlainV4([10, 1, 2, 4]);
    hide Scope, LabelOf, Precedence, Prefix, Documented;
  }

  /** Then the one of smaller scope */
  lemma ExampleSmaller(i: int, j: int)
    ensures Before(Elem(V6(Local(1)), true, V6(Local(2)), i), Elem(V6(Documented(1, 1)), true, V6(Documented(1, 2)), j))
  {
    DocumentedRanks(Documented(1, 1));
    DocumentedRanks(Documented(1, 2));
    LocalRanks(Local(1));
    LocalRanks(Local(2));
    hide Scope, LabelOf, Precedence, Prefix, Documented, Local;
  }

  /** Then the one that shares more bits with its source */
  lemma ExamplePrefix(i: int, j: int)
    ensures Before(Elem(V6(Documented(1, 1)), true, V6(Documented(1, 1)), i), Elem(V6(Documented(1, 1)), true, V6(Documented(2, 1)), j))
  {
    DocumentedRanks(Documented(1, 1));
    DocumentedRanks(Documented(2, 1));
    PrefixToSelf(Documented(1, 1));
    FifthDiffers(Documented(2, 1), Documented(1, 1));
    hide Scope, LabelOf, Precedence, Prefix, Documented;
  }

  lemma FifthDiffers(a: In6, b: In6)
    requires a[5] == 2 && b[5] == 1
    ensures Prefix(a, b) < 128
  {
    hide Prefix;
    PrefixIs(a, b);
    assert Bit(2, 6) != Bit(1, 6);
    assert BitOf(a, 46) != BitOf(b, 46);
  }
}
