/**
 The texts for which inet_net_pton_ipv6 neither gives an address nor an error
 (c-ares/inet_net_pton.c): exactly those whose shift for "::" would leave the buffer, and
 exactly those for which 0 is returned.
 */
module Ipv6Limits {
  import opened Options
  import opened Octets
  import opened Ipv6Text

  // ----- texts of groups

  /** One to four hexadecimal digits */
  predicate Group(g: string) {
    1 <= |g| <= 4 && AllHex(g)
  }

  predicate AllHex(g: string) {
    forall i :: 0 <= i < |g| ==> HexValue(g[i]).Some?
  }

  predicate EachGroup(gs: seq<string>) {
    forall i :: 0 <= i < |gs| ==> Group(gs[i])
  }

  /** The groups, each with a colon after it */
  function Closed(gs: seq<string>): string {
    if gs == [] then "" else gs[0] + ":" + Closed(gs[1..])
  }

  function HexNumber(g: string, val: nat): nat
    requires AllHex(g)
  {
    if g == "" then val else HexNumber(g[1..], val * 16 + HexValue(g[0]).value)
  }

  function GroupBytes(gs: seq<string>): (bs: seq<Byte>)
    requires EachGroup(gs)
    ensures |bs| == 2 * |gs|
  {
    if gs == [] then [] else
      var v := HexNumber(gs[0], 0);
      [(v / 256) % 256, v % 256] + GroupBytes(gs[1..])
  }

  lemma {:induction false} ScanHex(g: string, rest: string, s: Scanner)
    requires AllHex(g) && s.digits + |g| <= 4
    ensures Scan(g + rest, s) ==
      Scan(rest, s.(val := HexNumber(g, s.val), digits := s.digits + |g|, saw := s.saw || g != ""))
  {
    hide Scan, HexValue;
    if g == "" {
      assert g + rest == rest;
    } else {
      AtDigit(g + rest, s);
      assert (g + rest)[1..] == g[1..] + rest;
      ScanHex(g[1..], rest, s.(val := s.val * 16 + HexValue(g[0]).value, digits := s.digits + 1, saw := true));
    }
  }

  /** At the start of a group, apart from the token */
  predicate Ready(s: Scanner) {
    !s.saw && s.val == 0 && s.digits == 0
  }

  function AfterClosed(gs: seq<string>, rest: string, s: Scanner): Scanner
    requires EachGroup(gs)
  {
    if gs == [] then s else Scanner(s.out + GroupBytes(gs), s.colon, false, 0, 0, rest)
  }

  lemma ScanOneClosed(g: string, rest: string, s: Scanner)
    requires Group(g) && Ready(s) && rest != ""
    ensures Scan(g + ":" + rest, s) == if |s.out| + 2 > 16 then TooManyGroups else Scan(rest, AfterClosed([g], rest, s))
  {
    hide Scan, HexNumber, Group;
    assert AllHex(g) && 1 <= |g| <= 4 by {
      GroupIs(g);
    }
    Regroup(g, ":", rest);
    ScanHex(g, ":" + rest, s);
    AtColon(":" + rest, s.(val := HexNumber(g, 0), digits := |g|, saw := true));
    assert (":" + rest)[1..] == rest;
    BytesOfOne(g);
  }

  lemma BytesOfOne(g: string)
    requires Group(g)
    ensures EachGroup([g]) && GroupBytes([g]) == [(HexNumber(g, 0) / 256) % 256, HexNumber(g, 0) % 256]
  {
    hide HexNumber, Group;
    assert [g][1..] == [];
  }

  lemma GroupIs(g: string)
    requires Group(g)
    ensures AllHex(g) && 1 <= |g| <= 4
  {
  }

  /** Closed groups are written one after the other while there is room. */
  lemma {:induction false} ScanClosed(gs: seq<string>, rest: string, s: Scanner)
    requires EachGroup(gs) && Ready(s) && rest != "" && |s.out| + 2 * |gs| <= 16
    ensures Scan(Closed(gs) + rest, s) == Scan(rest, AfterClosed(gs, rest, s))
    decreases |gs|
  {
    hide Scan, Group, HexNumber;
    if gs == [] {
      assert Closed(gs) + rest == rest;
    } else {
      var g, more := gs[0], Closed(gs[1..]) + rest;
      assert Closed(gs) + rest == g + ":" + more;
      ScanOneClosed(g, more, s);
      ScanClosed(gs[1..], rest, AfterClosed([g], more, s));
      AfterTwice(gs, rest, s);
    }
  }

  lemma AfterTwice(gs: seq<string>, rest: string, s: Scanner)
    requires gs != [] && EachGroup(gs) && Ready(s)
    ensures AfterClosed(gs[1..], rest, AfterClosed([gs[0]], Closed(gs[1..]) + rest, s)) == AfterClosed(gs, rest, s)
  {
    hide Group, HexNumber;
    assert [gs[0]][1..] == [];
    assert s.out + GroupBytes([gs[0]]) + GroupBytes(gs[1..]) == s.out + GroupBytes(gs);
    if gs[1..] == [] {
      assert Closed([]) + rest == rest;
      assert s.out + GroupBytes([gs[0]]) == s.out + GroupBytes(gs);
    }
  }

  /** A closed group that finds eight written before it ends the parse. */
  lemma ScanTooMany(gs: seq<string>, rest: string, s: Scanner)
    requires EachGroup(gs) && Ready(s) && rest != "" && |s.out| % 2 == 0 && |s.out| <= 16 < |s.out| + 2 * |gs|
    ensures Scan(Closed(gs) + rest, s) == TooManyGroups
  {
    hide Scan, Group, GroupBytes;
    var m := (16 - |s.out|) / 2;
    var g, more := gs[m], Closed(gs[m + 1..]) + rest;
    ClosedSplit(gs, m);
    assert Closed(gs) + rest == Closed(gs[..m]) + (g + ":" + more);
    ScanClosed(gs[..m], g + ":" + more, s);
    ScanOneClosed(g, more, AfterClosed(gs[..m], g + ":" + more, s));
  }

  lemma {:induction false} ClosedSplit(gs: seq<string>, m: nat)
    requires m < |gs|
    ensures Closed(gs) == Closed(gs[..m]) + (gs[m] + ":" + Closed(gs[m + 1..]))
  {
    if m == 0 {
      assert Closed(gs[..0]) == "";
    } else {
      ClosedSplit(gs[1..], m - 1);
      assert gs[1..][..m - 1] == gs[1..m] && gs[..m][1..] == gs[1..m];
      assert gs[1..][m - 1 + 1..] == gs[m + 1..];
    }
  }

  // ----- splitting a text into its groups

  /** The hexadecimal digits at the start of a text */
  function HexPrefix(t: string): (g: string)
    ensures |g| <= |t| && t == g + t[|g|..] && AllHex(g)
    ensures |g| < |t| ==> HexValue(t[|g|]).None?
  {
    if t == "" || HexValue(t[0]).None? then "" else [t[0]] + HexPrefix(t[1..])
  }

  /** A group with a colon after it stands at the start, and the colon is not the last character. */
  predicate StartsClosed(t: string) {
    var g := HexPrefix(t);
    Group(g) && |t| > |g| + 1 && t[|g|] == ':'
  }

  /** The closed groups at the start of a text, and the text after them */
  function ClosedGroups(t: string): seq<string>
    decreases |t|
  {
    if StartsClosed(t) then [HexPrefix(t)] + ClosedGroups(t[|HexPrefix(t)| + 1..]) else []
  }

  function AfterGroups(t: string): (r: string)
    ensures |r| <= |t|
    decreases |t|
  {
    if StartsClosed(t) then AfterGroups(t[|HexPrefix(t)| + 1..]) else t
  }

  lemma SplitStep(t: string)
    requires StartsClosed(t)
    ensures var g, more := HexPrefix(t), t[|HexPrefix(t)| + 1..];
      ClosedGroups(t) == [g] + ClosedGroups(more) && AfterGroups(t) == AfterGroups(more)
  {
    hide HexPrefix, Group;
  }

  lemma SplitText(t: string)
    requires StartsClosed(t)
    ensures var g, more := HexPrefix(t), t[|HexPrefix(t)| + 1..];
      t == g + ":" + more && more != "" && Group(g)
  {
    hide Group, AllHex, HexValue;
    var g, more := HexPrefix(t), t[|HexPrefix(t)| + 1..];
    assert t[|g|..] == ":" + more;
    Regroup(g, ":", more);
    hide HexPrefix;
  }

  lemma SplitStop(t: string)
    requires !StartsClosed(t)
    ensures ClosedGroups(t) == [] && AfterGroups(t) == t
  {
  }

  lemma {:induction false} SplitIs(t: string)
    ensures EachGroup(ClosedGroups(t)) && t == Closed(ClosedGroups(t)) + AfterGroups(t)
    ensures !StartsClosed(AfterGroups(t)) && (t != "" ==> AfterGroups(t) != "")
    decreases |t|
  {
    hide ClosedGroups, AfterGroups, Closed, Group, HexPrefix;
    if StartsClosed(t) {
      SplitStep(t);
      SplitText(t);
      var g, more := HexPrefix(t), t[|HexPrefix(t)| + 1..];
      SplitIs(more);
      ClosedOf([g] + ClosedGroups(more));
      assert ([g] + ClosedGroups(more))[1..] == ClosedGroups(more);
      Regroup(g + ":", Closed(ClosedGroups(more)), AfterGroups(more));
    } else {
      SplitStop(t);
      ClosedOf([]);
      assert t == "" + t;
    }
  }

  lemma ClosedOf(gs: seq<string>)
    ensures gs == [] ==> Closed(gs) == ""
    ensures gs != [] ==> Closed(gs) == gs[0] + ":" + Closed(gs[1..])
  {
  }

  /** Scanning a text passes its closed groups, or finds too many of them. */
  lemma ScanGroupsOf(t: string, s: Scanner)
    requires Ready(s) && t != "" && |s.out| % 2 == 0 && |s.out| <= 16
    ensures EachGroup(ClosedGroups(t))
    ensures Scan(t, s) ==
      if |s.out| + 2 * |ClosedGroups(t)| > 16 then TooManyGroups
      else Scan(AfterGroups(t), AfterClosed(ClosedGroups(t), AfterGroups(t), s))
  {
    hide Scan, Closed, ClosedGroups, AfterGroups, Group, AfterClosed;
    SplitIs(t);
    if |s.out| + 2 * |ClosedGroups(t)| > 16 {
      ScanTooMany(ClosedGroups(t), AfterGroups(t), s);
    } else {
      ScanClosed(ClosedGroups(t), AfterGroups(t), s);
    }
  }

  /** What can follow: a last group and a slash, another end, or something malformed. */
  lemma ScanTailOf(t: string, s: Scanner)
    requires Ready(s) && t != "" && !StartsClosed(t) && (t[0] == ':' ==> s.colon.Some?)
    ensures var g, r := HexPrefix(t), Scan(t, s);
      if |g| <= 4 && |t| > |g| && t[|g|] == '/' && GetBits(t[|g| + 1..], 0, 0).Some?
      then r == Scanned(s.out, s.colon, g != "", HexNumber(g, 0), GetBits(t[|g| + 1..], 0, 0), false)
      else r.Malformed? || (r.Scanned? && (r.bits.None? || r.ipv4))
  {
    hide Scan, GetBits, GetV4, Four, HexValue, HexNumber;
    var g := HexPrefix(t);
    if |g| > 4 {
      FiveDigits(g, t, s);
    } else {
      var rest := t[|g|..];
      ScanHex(g, rest, s);
      var s1 := s.(val := HexNumber(g, 0), digits := |g|, saw := g != "");
      if rest == "" {
        EndOfScan(s1);
      } else if rest[0] == ':' {
        AtColon(rest, s1);
      } else {
        AtOther(rest, s1);
        assert rest[1..] == t[|g| + 1..];
      }
    }
  }

  lemma FiveDigits(g: string, t: string, s: Scanner)
    requires AllHex(g) && |g| > 4 && |g| <= |t| && g == t[..|g|] && s.digits == 0
    ensures Scan(t, s) == Malformed
  {
    hide Scan, HexValue, HexNumber;
    assert t == t[..4] + t[4..];
    assert AllHex(t[..4]) by {
      assert forall i :: 0 <= i < 4 ==> t[..4][i] == g[i];
    }
    ScanHex(t[..4], t[4..], s);
    assert t[4..][0] == g[4];
    AtDigit(t[4..], s.(val := HexNumber(t[..4], s.val), digits := 4, saw := true));
  }

  // ----- prefix lengths

  lemma {:induction false} BitsOfNumber(x: nat, rest: string)
    requires x <= 128
    ensures GetBits(Digits(x, 10) + rest, 0, 0) == GetBits(rest, x, |Digits(x, 10)|)
    decreases x
  {
    hide GetBits;
    if x < 10 {
      BitsDigit(x, rest, 0, 0);
    } else {
      var last := [DigitChar(x % 10)];
      BitsOfNumber(x / 10, last + rest);
      Regroup(Digits(x / 10, 10), last, rest);
      BitsDigit(x % 10, rest, x / 10, |Digits(x / 10, 10)|);
    }
  }

  lemma BitsDigit(d: nat, rest: string, val: nat, n: nat)
    requires d < 10 && val * 10 + d <= 128 && (n == 0 || val != 0)
    ensures GetBits([DigitChar(d)] + rest, val, n) == GetBits(rest, val * 10 + d, n + 1)
  {
    DigitCharIs(d);
    assert ([DigitChar(d)] + rest)[1..] == rest;
  }

  lemma DecDigit(c: char)
    requires DecValue(c).Some?
    ensures c == DigitChar(DecValue(c).value)
  {
  }

  lemma BitsStep(t: string, val: nat, n: nat)
    requires val <= 128 && t != "" && GetBits(t, val, n).Some?
    ensures DecValue(t[0]).Some? && (n == 0 || val != 0) && val * 10 + DecValue(t[0]).value <= 128
    ensures GetBits(t, val, n) == GetBits(t[1..], val * 10 + DecValue(t[0]).value, n + 1)
  {
  }

  lemma DigitsMore(val: nat, d: nat)
    requires d < 10
    ensures val > 0 ==> Digits(val * 10 + d, 10) == Digits(val, 10) + [DigitChar(d)]
    ensures Digits(d, 10) == [DigitChar(d)]
  {
    assert (val * 10 + d) / 10 == val && (val * 10 + d) % 10 == d;
  }

  /** What was read before is nothing, or the number val. */
  predicate Seen(seen: string, val: nat) {
    val <= 128 && if seen == "" then val == 0 else seen == Digits(val, 10)
  }

  lemma BitsNext(seen: string, t: string, val: nat)
    requires Seen(seen, val) && t != "" && GetBits(t, val, |seen|).Some?
    ensures var next := val * 10 + DecValue(t[0]).value;
      && DecValue(t[0]).Some? && Seen(seen + [t[0]], next)
      && GetBits(t[1..], next, |seen + [t[0]]|) == GetBits(t, val, |seen|)
  {
    hide GetBits, Digits, DigitChar, DecValue;
    BitsStep(t, val, |seen|);
    DecDigit(t[0]);
    DigitsMore(val, DecValue(t[0]).value);
    assert seen == "" ==> seen + [t[0]] == [t[0]];
  }

  /** Together with what was read before, the text spells the number that is read. */
  lemma {:induction false} BitsSpelled(seen: string, t: string, val: nat, x: nat)
    requires Seen(seen, val) && GetBits(t, val, |seen|) == Some(x) && (seen == "" ==> t != "")
    ensures x <= 128 && seen + t == Digits(x, 10)
    decreases |t|
  {
    if t == "" {
      assert seen + t == seen;
    } else {
      hide GetBits, DecValue, Seen;
      BitsNext(seen, t, val);
      BitsSpelled(seen + [t[0]], t[1..], val * 10 + DecValue(t[0]).value, x);
      assert t == [t[0]] + t[1..];
      Regroup(seen, [t[0]], t[1..]);
    }
  }

  /** A prefix length is a number up to 128 as it is printed. */
  lemma BitsExactly(t: string, n: nat)
    ensures GetBits(t, 0, 0) == Some(n) <==> n <= 128 && t == Digits(n, 10)
  {
    if GetBits(t, 0, 0) == Some(n) {
      assert t != "";
      BitsSpelled("", t, 0, n);
      assert "" + t == t;
    }
    if n <= 128 && t == Digits(n, 10) {
      BitsOfNumber(n, "");
      assert Digits(n, 10) + "" == t;
      DigitStart(n, 10);
    }
  }

  // ----- exactly when

  function GroupCount(g: string): nat {
    if g == "" then 0 else 1
  }

  /** How many groups a prefix of this many bits leaves room for */
  function Room(n: nat): nat {
    if (n + 15) / 16 < 2 then 2 else (n + 15) / 16
  }

  /** Groups a, "::", groups b and perhaps a last group g, a slash and n: at most eight groups, too many after the gap for n. */
  ghost predicate Overfull(t: string, a: seq<string>, b: seq<string>, g: string, n: nat) {
    && EachGroup(a) && EachGroup(b) && (g == "" || Group(g)) && n <= 128
    && |a| + |b| + GroupCount(g) <= 8 && |b| + GroupCount(g) > Room(n)
    && t == (if a == [] then ":" else "") + (Closed(a) + (":" + (Closed(b) + (g + ("/" + Digits(n, 10))))))
  }

  /** The same, computed from the text that is scanned: a last group, a slash and a number */
  predicate TailOverfull(w: string, before: nat, after: nat) {
    var g := HexPrefix(w);
    && |g| <= 4 && |w| > |g| && w[|g|] == '/' && before + after + GroupCount(g) <= 8
    && exists n :: 0 <= n <= 128 && w[|g| + 1..] == Digits(n, 10) && after + GroupCount(g) > Room(n)
  }

  predicate GapOverfull(u: string) {
    var a, r := ClosedGroups(u), AfterGroups(u);
    r != "" && r[0] == ':' && TailOverfull(AfterGroups(r[1..]), |a|, |ClosedGroups(r[1..])|)
  }

  /** Only a text that begins with two colons, or with none, is scanned. */
  predicate IsOverfull(t: string) {
    if t != "" && t[0] == ':' then |t| >= 2 && t[1] == ':' && GapOverfull(t[1..]) else GapOverfull(t)
  }

  lemma FinishUnspecified(r: Scanned, size: nat)
    requires r.Scanned? ==> |r.out| <= 16 && (r.colon.Some? ==> r.colon.value <= |r.out|)
    requires r.Scanned? && r.bits.Some? ==> r.bits.value <= 128
    ensures Finish(r, size) == Unspecified <==>
      && r.Scanned? && r.colon.Some? && r.bits.Some? && !r.ipv4
      && var total := |r.out| + if r.saw then 2 else 0;
         total <= 16 && total - r.colon.value > 2 * Room(r.bits.value)
  {
    hide Shift;
  }

  /** The state in which the rest of a text is scanned after its groups and its gap */
  lemma AfterGap(u: string) returns (s: Scanner)
    requires var r := AfterGroups(u); r != "" && r[0] == ':' && |ClosedGroups(u)| <= 8
    ensures Ready(s) && |s.out| == 2 * |ClosedGroups(u)| && s.colon == Some(|s.out|)
    ensures Scan(u, Start(u)) == Scan(AfterGroups(u)[1..], s)
  {
    hide Scan, ClosedGroups;
    var r := AfterGroups(u);
    ScanGroupsOf(u, Start(u));
    var s1 := AfterClosed(ClosedGroups(u), r, Start(u));
    AtColon(r, s1);
    s := s1.(colon := Some(|s1.out|), token := r[1..]);
  }

  /** How a scan can end that does not find too many groups */
  lemma ScanWithoutGap(u: string)
    requires u != "" && |ClosedGroups(u)| <= 8 && (AfterGroups(u) == "" || AfterGroups(u)[0] != ':')
    ensures var r := Scan(u, Start(u)); r.Malformed? || (r.Scanned? && (r.colon.None? || r.bits.None? || r.ipv4))
  {
    hide Scan, ClosedGroups, GetBits;
    SplitIs(u);
    ScanGroupsOf(u, Start(u));
    ScanTailOf(AfterGroups(u), AfterClosed(ClosedGroups(u), AfterGroups(u), Start(u)));
  }

  lemma TailUnspecified(w: string, s: Scanner, before: nat, after: nat, size: nat)
    requires w != "" && !StartsClosed(w) && Ready(s)
    requires |s.out| == 2 * (before + after) <= 16 && s.colon == Some(2 * before)
    ensures var r := Scan(w, s);
      && (r.Scanned? ==> |r.out| <= 16 && (r.colon.Some? ==> r.colon.value <= |r.out|))
      && (r.Scanned? && r.bits.Some? ==> r.bits.value <= 128)
      && (Finish(r, size) == Unspecified <==> TailOverfull(w, before, after))
  {
    hide Scan, Finish, GetBits, Digits, HexPrefix, StartsClosed;
    ScanFits(w, s);
    FinishUnspecified(Scan(w, s), size);
    ScanTailOf(w, s);
    PrefixLengths(w[|HexPrefix(w)|..]);
  }

  lemma ScannedOverfull(u: string, size: nat)
    requires u != ""
    ensures var r := Scan(u, Start(u));
      && (r.Scanned? ==> |r.out| <= 16 && (r.colon.Some? ==> r.colon.value <= |r.out|))
      && (r.Scanned? && r.bits.Some? ==> r.bits.value <= 128)
      && (Finish(r, size) == Unspecified <==> GapOverfull(u))
  {
    hide Scan, Finish, ClosedGroups, AfterGroups, TailOverfull, StartsClosed, Closed;
    ScanFits(u, Start(u));
    FinishUnspecified(Scan(u, Start(u)), size);
    ScanGroupsOf(u, Start(u));
    SplitIs(u);
    var a, r := ClosedGroups(u), AfterGroups(u);
    if r[0] == ':' {
      TailCount(AfterGroups(r[1..]), |a|, |ClosedGroups(r[1..])|);
      if |a| <= 8 {
        OverfullAfterGap(u, size);
      }
    } else if |a| <= 8 {
      ScanWithoutGap(u);
    }
  }

  lemma TailCount(w: string, before: nat, after: nat)
    ensures TailOverfull(w, before, after) ==> before + after <= 8
    ensures !TailOverfull("", before, after)
  {
  }

  lemma OverfullAfterGap(u: string, size: nat)
    requires var r := AfterGroups(u); r != "" && r[0] == ':' && |ClosedGroups(u)| <= 8
    ensures var r := Scan(u, Start(u));
      && (r.Scanned? ==> |r.out| <= 16 && (r.colon.Some? ==> r.colon.value <= |r.out|))
      && (r.Scanned? && r.bits.Some? ==> r.bits.value <= 128)
      && (Finish(r, size) == Unspecified <==> GapOverfull(u))
  {
    hide Scan, Finish, ClosedGroups, AfterGroups, TailOverfull, StartsClosed, Closed;
    var s := AfterGap(u);
    var v := AfterGroups(u)[1..];
    var na, b, w := |ClosedGroups(u)|, ClosedGroups(v), AfterGroups(v);
    ScanFits(u, Start(u));
    FinishUnspecified(Scan(u, Start(u)), size);
    TailCount(w, na, |b|);
    if v == "" {
      EndOfScan(s);
      TailCount("", na, |b|);
      assert w == "" by {
        NothingSplit();
      }
    } else {
      ScanGroupsOf(v, s);
      SplitIs(v);
      if na + |b| <= 8 {
        TailUnspecified(w, AfterClosed(b, w, s), na, |b|, size);
      }
    }
  }

  lemma NothingSplit()
    ensures ClosedGroups("") == [] && AfterGroups("") == ""
  {
  }

  lemma PrefixLengths(t: string)
    ensures t != "" ==> forall n: nat :: GetBits(t[1..], 0, 0) == Some(n) <==> n <= 128 && t[1..] == Digits(n, 10)
  {
    if t != "" {
      forall n: nat ensures GetBits(t[1..], 0, 0) == Some(n) <==> n <= 128 && t[1..] == Digits(n, 10) {
        BitsExactly(t[1..], n);
      }
    }
  }

  lemma ParseOverfull(t: string, size: nat)
    ensures Parse(t, size) == Unspecified <==> IsOverfull(t)
  {
    hide Scan, Finish, GapOverfull;
    if t != "" && t[0] == ':' {
      if |t| >= 2 && t[1] == ':' {
        ScannedOverfull(t[1..], size);
      }
    } else if t != "" {
      ScannedOverfull(t, size);
    } else {
      NoGapInNothing();
      EndOfScan(Start(t));
      FinishUnspecified(Scan(t, Start(t)), size);
    }
  }

  lemma NoGapInNothing()
    ensures !GapOverfull("")
  {
    SplitIs("");
  }

  lemma TailSplit(w: string, before: nat, after: nat) returns (g: string, n: nat)
    requires TailOverfull(w, before, after)
    ensures (g == "" || Group(g)) && n <= 128 && w == g + ("/" + Digits(n, 10))
    ensures before + after + GroupCount(g) <= 8 && after + GroupCount(g) > Room(n)
  {
    hide Digits, HexValue, Group, AllHex;
    g := HexPrefix(w);
    n :| 0 <= n <= 128 && w[|g| + 1..] == Digits(n, 10) && after + GroupCount(g) > Room(n);
    ShortGroup(g);
    assert w[|g|..] == "/" + w[|g| + 1..];
  }

  lemma OverfullSplit(t: string) returns (a: seq<string>, b: seq<string>, g: string, n: nat)
    requires IsOverfull(t)
    ensures Overfull(t, a, b, g, n)
  {
    NoGapInNothing();
    hide ClosedGroups, AfterGroups, Digits, Closed, Group, TailOverfull, StartsClosed;
    var u := if t[0] == ':' then t[1..] else t;
    var r := AfterGroups(u);
    SplitIs(u);
    SplitIs(r[1..]);
    a, b := ClosedGroups(u), ClosedGroups(r[1..]);
    g, n := TailSplit(AfterGroups(r[1..]), |a|, |b|);
    assert r == ":" + r[1..];
    LeadingColon(t, u, a);
  }

  lemma ShortGroup(g: string)
    requires AllHex(g) && |g| <= 4
    ensures g == "" || Group(g)
  {
  }

  /** A text with a closed group at its start does not begin with a colon. */
  lemma LeadingColon(t: string, u: string, a: seq<string>)
    requires t != "" && u == (if t[0] == ':' then t[1..] else t) && u != "" && a == ClosedGroups(u)
    requires t[0] == ':' ==> u[0] == ':'
    requires t[0] != ':' ==> AfterGroups(u) == "" || AfterGroups(u)[0] == ':'
    ensures t == (if a == [] then ":" else "") + u
  {
    ColonIsNoDigit();
  }

  lemma OverfullIs(t: string, a: seq<string>, b: seq<string>, g: string, n: nat, size: nat)
    requires Overfull(t, a, b, g, n)
    ensures Parse(t, size) == Unspecified
  {
    hide Scan, Finish, Digits, Closed, Group, GroupBytes, GetBits, HexNumber;
    var end := "/" + Digits(n, 10);
    var v := Closed(b) + (g + end);
    var u := Closed(a) + (":" + v);
    var s0 := Start(u);
    ScanClosed(a, ":" + v, s0);
    var s1 := AfterClosed(a, ":" + v, s0);
    AtColon(":" + v, s1);
    assert (":" + v)[1..] == v;
    var s2 := s1.(colon := Some(|s1.out|), token := v);
    ScanClosed(b, g + end, s2);
    var s3 := AfterClosed(b, g + end, s2);
    if g != "" {
      GroupIs(g);
    }
    ScanHex(g, end, s3);
    BitsExactly(Digits(n, 10), n);
    assert end[1..] == Digits(n, 10);
    AtOther(end, s3.(val := HexNumber(g, 0), digits := |g|, saw := g != ""));
    FinishUnspecified(Scan(u, s0), size);
    ScanFits(u, s0);
    if a == [] {
      ClosedOf(a);
      assert "" + (":" + v) == ":" + v;
      assert t == ":" + u && t[1..] == u && t[1] == ':';
    } else {
      ClosedStart(a);
      assert t == u && t[0] == Closed(a)[0];
    }
  }

  lemma ClosedStart(a: seq<string>)
    requires a != [] && EachGroup(a)
    ensures Closed(a) != "" && Closed(a)[0] != ':'
  {
    ColonIsNoDigit();
    assert Group(a[0]) && HexValue(a[0][0]).Some?;
  }

  /**
   The shift for "::" would not stay in the buffer exactly for the texts of groups with a gap and a prefix length
   that has no room for the groups after the gap; which texts these are can be computed from the text.
   */
  lemma UnspecifiedExactly(t: string, size: nat)
    ensures Parse(t, size) == Unspecified <==> exists a, b, g, n: nat :: Overfull(t, a, b, g, n)
    ensures Parse(t, size) == Unspecified <==> IsOverfull(t)
  {
    hide Parse, IsOverfull, Overfull;
    ParseOverfull(t, size);
    if IsOverfull(t) {
      var a, b, g, n := OverfullSplit(t);
    }
    if exists a, b, g, n: nat :: Overfull(t, a, b, g, n) {
      var a, b, g, n: nat :| Overfull(t, a, b, g, n);
      OverfullIs(t, a, b, g, n, size);
    }
  }

  /** For instance three groups after the gap, when the prefix length leaves room for two */
  lemma UnspecifiedHappens()
    ensures Parse("::1:2:3/2", 16) == Unspecified
  {
    ThreeGroups();
    assert Digits(2, 10) == "2";
    hide Parse, Group, Digits, Closed;
    ClosedOf(["1", "2"]);
    ClosedOf(["2"]);
    ClosedOf([]);
    assert ["1", "2"][1..] == ["2"] && ["2"][1..] == [];
    assert Closed(["1", "2"]) == "1:2:";
    OverfullIs("::1:2:3/2", [], ["1", "2"], "3", 2, 16);
  }

  lemma ThreeGroups()
    ensures Group("1") && Group("2") && Group("3")
  {
  }

  // ----- exactly when 0 is returned

  /** Nine groups with a colon after each, perhaps with a gap before some of them, and then more text */
  ghost predicate NineGroups(t: string, a: seq<string>, gap: bool, b: seq<string>, rest: string) {
    && EachGroup(a) && EachGroup(b) && |a| + |b| == 9 && (gap <==> b != []) && rest != ""
    && t == (if a == [] then ":" else "") + (Closed(a) + ((if gap then ":" else "") + (Closed(b) + rest)))
  }

  /** The same, computed from the text that is scanned */
  predicate HasNine(u: string) {
    var a, r := ClosedGroups(u), AfterGroups(u);
    |a| > 8 || (r != "" && r[0] == ':' && |a| + |ClosedGroups(r[1..])| > 8)
  }

  predicate HasNineGroups(t: string) {
    if t != "" && t[0] == ':' then |t| >= 2 && t[1] == ':' && HasNine(t[1..]) else HasNine(t)
  }

  lemma ScannedNine(u: string)
    requires u != ""
    ensures Scan(u, Start(u)) == TooManyGroups <==> HasNine(u)
  {
    hide Scan, ClosedGroups, AfterGroups, StartsClosed, Closed;
    ScanGroupsOf(u, Start(u));
    SplitIs(u);
    if |ClosedGroups(u)| <= 8 {
      if AfterGroups(u)[0] == ':' {
        NineAfterGap(u);
      } else {
        ScanWithoutGap(u);
      }
    }
  }

  lemma NineAfterGap(u: string)
    requires var r := AfterGroups(u); r != "" && r[0] == ':' && |ClosedGroups(u)| <= 8
    ensures Scan(u, Start(u)) == TooManyGroups <==> |ClosedGroups(u)| + |ClosedGroups(AfterGroups(u)[1..])| > 8
  {
    hide Scan, ClosedGroups, AfterGroups, StartsClosed, Closed, GetBits;
    var s := AfterGap(u);
    var v := AfterGroups(u)[1..];
    if v == "" {
      EndOfScan(s);
      NothingSplit();
    } else {
      ScanGroupsOf(v, s);
      SplitIs(v);
      if |ClosedGroups(u)| + |ClosedGroups(v)| <= 8 {
        ScanTailOf(AfterGroups(v), AfterClosed(ClosedGroups(v), AfterGroups(v), s));
      }
    }
  }

  lemma FinishZero(r: Scanned, size: nat)
    requires r.Scanned? ==> |r.out| <= 16 && (r.colon.Some? ==> r.colon.value <= |r.out|)
    requires r.Scanned? && r.bits.Some? ==> r.bits.value <= 128
    ensures Finish(r, size) == Zero <==> r == TooManyGroups
  {
    hide Shift;
  }

  lemma ParseNine(t: string, size: nat)
    ensures Parse(t, size) == Zero <==> HasNineGroups(t)
  {
    hide Scan, Finish, HasNine;
    var u := if t != "" && t[0] == ':' then t[1..] else t;
    ScanFits(u, Start(u));
    FinishZero(Scan(u, Start(u)), size);
    if u != "" {
      ScannedNine(u);
    } else {
      EndOfScan(Start(u));
      NotNine();
    }
  }

  lemma NotNine()
    ensures !HasNine("")
  {
    SplitIs("");
  }

  lemma NineSplit(t: string) returns (a: seq<string>, gap: bool, b: seq<string>, rest: string)
    requires HasNineGroups(t)
    ensures NineGroups(t, a, gap, b, rest)
  {
    NotNine();
    hide ClosedGroups, AfterGroups, Closed, Group, NineGroups, StartsClosed;
    var u := if t[0] == ':' then t[1..] else t;
    SplitIs(u);
    gap := |ClosedGroups(u)| <= 8;
    if gap {
      a, b, rest := NineWithGap(t, u);
    } else {
      a, rest := NineWithoutGap(t, u);
      b := [];
    }
  }

  lemma NineWithoutGap(t: string, u: string) returns (a: seq<string>, rest: string)
    requires t != "" && u == (if t[0] == ':' then t[1..] else t) && (t[0] == ':' ==> u != "" && u[0] == ':')
    requires |ClosedGroups(u)| > 8
    ensures NineGroups(t, a, false, [], rest)
  {
    hide ClosedGroups, AfterGroups, Closed, Group, StartsClosed;
    SplitIs(u);
    var all, r := ClosedGroups(u), AfterGroups(u);
    ClosedParts(all, 9);
    a, rest := all[..9], Closed(all[9..]) + r;
    ClosedOf([]);
    NoLeadingColon(t, u);
    Regroup(Closed(a), Closed(all[9..]), r);
    assert "" + ("" + rest) == rest && "" + (Closed(a) + rest) == Closed(a) + rest;
  }

  lemma NineWithGap(t: string, u: string) returns (a: seq<string>, b: seq<string>, rest: string)
    requires t != "" && u == (if t[0] == ':' then t[1..] else t) && (t[0] == ':' ==> u != "" && u[0] == ':')
    requires |ClosedGroups(u)| <= 8 && HasNine(u)
    ensures NineGroups(t, a, true, b, rest)
  {
    hide ClosedGroups, AfterGroups, Closed, Group, StartsClosed;
    SplitIs(u);
    var v := AfterGroups(u)[1..];
    SplitIs(v);
    var more := ClosedGroups(v);
    var m := 9 - |ClosedGroups(u)|;
    ClosedParts(more, m);
    a, b, rest := ClosedGroups(u), more[..m], Closed(more[m..]) + AfterGroups(v);
    assert rest != "" by {
      NothingSplit();
    }
    Regroup(Closed(b), Closed(more[m..]), AfterGroups(v));
    assert AfterGroups(u) == ":" + v;
    LeadingColon(t, u, a);
  }

  lemma NoLeadingColon(t: string, u: string)
    requires t != "" && u == (if t[0] == ':' then t[1..] else t) && ClosedGroups(u) != []
    requires t[0] == ':' ==> u != "" && u[0] == ':'
    ensures t == u
  {
    ColonIsNoDigit();
  }

  lemma {:induction false} ClosedParts(gs: seq<string>, m: nat)
    requires m <= |gs|
    ensures Closed(gs) == Closed(gs[..m]) + Closed(gs[m..])
  {
    if m == 0 {
      assert gs[0..] == gs && Closed(gs[..0]) == "";
    } else {
      ClosedParts(gs[1..], m - 1);
      assert gs[1..][..m - 1] == gs[1..m] && gs[..m][1..] == gs[1..m];
      assert gs[1..][m - 1..] == gs[m..];
    }
  }

  lemma NineIs(t: string, a: seq<string>, gap: bool, b: seq<string>, rest: string, size: nat)
    requires NineGroups(t, a, gap, b, rest)
    ensures Parse(t, size) == Zero
  {
    hide Scan, Finish, Closed, Group, GroupBytes;
    var v := Closed(b) + rest;
    var u := Closed(a) + ((if gap then ":" else "") + v);
    if gap {
      ScanClosed(a, ":" + v, Start(u));
      var s1 := AfterClosed(a, ":" + v, Start(u));
      AtColon(":" + v, s1);
      assert (":" + v)[1..] == v;
      ScanTooMany(b, rest, s1.(colon := Some(|s1.out|), token := v));
    } else {
      ClosedOf(b);
      assert "" + v == rest;
      ScanTooMany(a, rest, Start(u));
    }
    FinishZero(TooManyGroups, size);
    if a == [] {
      ClosedOf(a);
      assert u == ":" + v && t[1..] == u && t[1] == ':';
    } else {
      ClosedStart(a);
      assert t == u && t[0] == Closed(a)[0];
    }
  }

  /** 0 is returned exactly when a ninth group has a colon after it that does not end the text. */
  lemma ZeroExactly(t: string, size: nat)
    ensures Parse(t, size) == Zero <==> exists a, gap, b, rest :: NineGroups(t, a, gap, b, rest)
    ensures Parse(t, size) == Zero <==> HasNineGroups(t)
  {
    hide Parse, HasNineGroups, NineGroups;
    ParseNine(t, size);
    if HasNineGroups(t) {
      var a, gap, b, rest := NineSplit(t);
    }
    if exists a, gap, b, rest :: NineGroups(t, a, gap, b, rest) {
      var a, gap, b, rest :| NineGroups(t, a, gap, b, rest);
      NineIs(t, a, gap, b, rest, size);
    }
  }

  lemma ZeroHappens()
    ensures Parse("1:2:3:4:5:6:7:8:9:a", 16) == Zero
  {
    var a := ["1", "2", "3"] + ["4", "5", "6"] + ["7", "8", "9"];
    DigitsAreGroups();
    hide Parse, Group, Closed;
    ClosedSum(["1", "2", "3"] + ["4", "5", "6"], ["7", "8", "9"]);
    ClosedSum(["1", "2", "3"], ["4", "5", "6"]);
    ClosedThree("1", "2", "3");
    ClosedThree("4", "5", "6");
    ClosedThree("7", "8", "9");
    ClosedOf([]);
    var t := "1:2:3:4:5:6:7:8:9:a";
    assert Closed(a) == "1:2:3:4:5:6:7:8:9:";
    assert t == "" + (Closed(a) + ("" + ("" + "a")));
    NineIs(t, a, false, [], "a", 16);
  }

  lemma DigitsAreGroups()
    ensures EachGroup(["1", "2", "3"] + ["4", "5", "6"] + ["7", "8", "9"])
  {
  }

  lemma ClosedSum(a: seq<string>, b: seq<string>)
    ensures Closed(a + b) == Closed(a) + Closed(b)
  {
    ClosedParts(a + b, |a|);
    assert (a + b)[..|a|] == a && (a + b)[|a|..] == b;
    hide Closed;
  }

  lemma ClosedThree(a: string, b: string, c: string)
    ensures Closed([a, b, c]) == a + ":" + (b + ":" + (c + ":"))
  {
    hide Closed;
    assert [a, b, c][1..] == [b, c] && [b, c][1..] == [c] && [c][1..] == [];
    ClosedOf([a, b, c]);
    ClosedOf([b, c]);
    ClosedOf([c]);
    ClosedOf([]);
    assert c + ":" + "" == c + ":";
  }

}
