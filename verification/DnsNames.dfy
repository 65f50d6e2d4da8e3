/**
 Domain names as lists of labels: their wire form (RFC 1035 section 3.1), with compression
 pointers (section 4.1.4), and their text form with escapes, and how the three relate.
 */
module DnsNames {
  import opened Options
  import opened Octets

  const MAXLABEL := 63
  const MAXCDNAME := 255
  const MAX_INDIRS := 50
  const DOT: Byte := 46
  const BACKSLASH: Byte := 92

  type Label = l: seq<Byte> | |l| <= MAXLABEL witness []

  // ----- wire form

  function Body(ls: seq<Label>): seq<Byte> {
    if ls == [] then [] else [|ls[0]|] + ls[0] + Body(ls[1..])
  }

  function Wire(ls: seq<Label>): (w: seq<Byte>)
    ensures |w| == |Body(ls)| + 1
  {
    Body(ls) + [0]
  }

  lemma {:induction false} BodySplit(a: seq<Label>, b: seq<Label>)
    ensures Body(a + b) == Body(a) + Body(b)
  {
    if a == [] {
      assert a + b == b;
    } else {
      assert (a + b)[1..] == a[1..] + b;
      BodySplit(a[1..], b);
    }
  }

  lemma BodyLast(a: seq<Label>, l: Label)
    ensures Body(a + [l]) == Body(a) + [|l|] + l
  {
    BodySplit(a, [l]);
    assert [l][1..] == [];
  }

  // ----- text form

  predicate Special(b: Byte) {
    b == DOT || b == BACKSLASH
  }

  /** Periods and backslashes of a label are escaped in its text. */
  function Escape(l: seq<Byte>): seq<Byte> {
    if l == [] then [] else (if Special(l[0]) then [BACKSLASH, l[0]] else [l[0]]) + Escape(l[1..])
  }

  lemma {:induction false} EscapeSplit(a: seq<Byte>, b: seq<Byte>)
    ensures Escape(a + b) == Escape(a) + Escape(b)
  {
    if a == [] {
      assert a + b == b;
    } else {
      assert (a + b)[1..] == a[1..] + b;
      EscapeSplit(a[1..], b);
    }
  }

  lemma EscapeLast(l: seq<Byte>, b: Byte)
    ensures Escape(l + [b]) == Escape(l) + if Special(b) then [BACKSLASH, b] else [b]
  {
    EscapeSplit(l, [b]);
    assert [b][1..] == [];
  }

  /** Every label followed by a period */
  function Dotted(ls: seq<Label>): seq<Byte> {
    if ls == [] then [] else Escape(ls[0]) + [DOT] + Dotted(ls[1..])
  }

  /** The text of a name: its labels joined by periods. The root is the empty text. */
  function Text(ls: seq<Label>): seq<Byte> {
    if ls == [] then [] else if |ls| == 1 then Escape(ls[0]) else Escape(ls[0]) + [DOT] + Text(ls[1..])
  }

  lemma {:induction false} DottedIsText(ls: seq<Label>)
    requires ls != []
    ensures Dotted(ls) == Text(ls) + [DOT]
  {
    if |ls| == 1 {
      assert Dotted(ls[1..]) == [];
    } else {
      DottedIsText(ls[1..]);
      assert Escape(ls[0]) + [DOT] + (Text(ls[1..]) + [DOT]) == Escape(ls[0]) + [DOT] + Text(ls[1..]) + [DOT];
    }
  }

  // ----- reading text

  /** The unescaped bytes up to the first unescaped period, or the end. */
  function LabelAt(t: seq<Byte>): (l: seq<Byte>)
    ensures |l| + |RestAt(t)| <= |t|
  {
    if t == [] || t[0] == DOT then []
    else if t[0] == BACKSLASH && |t| > 1 then [t[1]] + LabelAt(t[2..])
    else [t[0]] + LabelAt(t[1..])
  }

  /** What follows them */
  function RestAt(t: seq<Byte>): (r: seq<Byte>)
    ensures |r| <= |t| && (r != [] ==> r[0] == DOT)
    ensures t != [] && t[0] != DOT ==> |r| < |t|
  {
    if t == [] || t[0] == DOT then t
    else if t[0] == BACKSLASH && |t| > 1 then RestAt(t[2..])
    else RestAt(t[1..])
  }

  /** The labels of a text, unless one is empty or too long. One period at the end is allowed. */
  function LabelsOf(t: seq<Byte>): (r: Option<seq<Label>>)
    decreases |t|
  {
    if t == [] then Some([])
    else if t[0] == DOT || |LabelAt(t)| > MAXLABEL then None
    else if RestAt(t) == [] then Some([LabelAt(t)])
    else match LabelsOf(RestAt(t)[1..])
      case None => None
      case Some(ls) => Some([LabelAt(t)] + ls)
  }

  predicate NonEmpty(ls: seq<Label>) {
    forall i :: 0 <= i < |ls| ==> ls[i] != []
  }

  lemma {:induction false} LabelsNonEmpty(t: seq<Byte>)
    ensures LabelsOf(t).Some? ==> NonEmpty(LabelsOf(t).value)
    decreases |t|
  {
    if t != [] && t[0] != DOT && RestAt(t) != [] {
      LabelsNonEmpty(RestAt(t)[1..]);
    }
  }

  lemma ReadPlain(b: Byte, t: seq<Byte>)
    requires !Special(b)
    ensures LabelAt([b] + t) == [b] + LabelAt(t) && RestAt([b] + t) == RestAt(t)
  {
    assert ([b] + t)[1..] == t;
  }

  lemma ReadSpecial(b: Byte, t: seq<Byte>)
    ensures LabelAt([BACKSLASH, b] + t) == [b] + LabelAt(t) && RestAt([BACKSLASH, b] + t) == RestAt(t)
  {
    assert ([BACKSLASH, b] + t)[2..] == t;
  }

  lemma {:induction false} ReadEscaped(l: seq<Byte>, rest: seq<Byte>)
    requires rest == [] || rest[0] == DOT
    ensures LabelAt(Escape(l) + rest) == l && RestAt(Escape(l) + rest) == rest
  {
    if l == [] {
      assert Escape(l) + rest == rest;
    } else {
      ReadEscaped(l[1..], rest);
      hide LabelAt, RestAt;
      var b, tail := l[0], Escape(l[1..]);
      var t := tail + rest;
      assert l == [b] + l[1..];
      if Special(b) {
        ReadSpecial(b, t);
        assert Escape(l) == [BACKSLASH, b] + tail;
        Regroup([BACKSLASH, b], tail, rest);
      } else {
        ReadPlain(b, t);
        assert Escape(l) == [b] + tail;
        Regroup([b], tail, rest);
      }
    }
  }

  lemma Regroup(a: seq<Byte>, b: seq<Byte>, c: seq<Byte>)
    ensures a + b + c == a + (b + c)
  {
  }

  lemma EscapeStart(l: seq<Byte>)
    requires l != []
    ensures Escape(l) != [] && Escape(l)[0] != DOT
  {
  }

  lemma ReadFirst(l: Label, t: seq<Byte>)
    requires l != []
    ensures LabelsOf(Escape(l)) == Some([l])
    ensures LabelsOf(t).Some? ==> LabelsOf(Escape(l) + [DOT] + t) == Some([l] + LabelsOf(t).value)
  {
    EscapeStart(l);
    ReadEscaped(l, []);
    assert Escape(l) + [] == Escape(l);
    ReadEscaped(l, [DOT] + t);
    assert Escape(l) + ([DOT] + t) == Escape(l) + [DOT] + t;
    assert ([DOT] + t)[1..] == t;
  }

  /** Reading a name's text gives its labels, with and without a period at the end. */
  lemma {:induction false} TextRoundTrip(ls: seq<Label>)
    requires NonEmpty(ls)
    ensures LabelsOf(Text(ls)) == Some(ls)
    ensures LabelsOf(Dotted(ls)) == Some(ls)
  {
    if ls != [] {
      assert ls == [ls[0]] + ls[1..];
      assert |ls| == 1 ==> ls == [ls[0]];
      TextRoundTrip(ls[1..]);
      ReadFirst(ls[0], Text(ls[1..]));
      ReadFirst(ls[0], Dotted(ls[1..]));
    }
  }

  // ----- reading a message

  predicate Pointer(b: Byte) {
    b >= 0xc0
  }

  function Target(m: seq<Byte>, p: nat): nat
    requires p + 1 < |m| && Pointer(m[p])
  {
    var high: int := m[p];
    (high - 0xc0) * 256 + m[p + 1]
  }

  /** The labels found at p, when indir pointers have been followed before. */
  function Walk(m: seq<Byte>, p: nat, indir: nat): Option<seq<Label>>
    requires indir <= MAX_INDIRS
    decreases MAX_INDIRS - indir, |m| - p
  {
    if p >= |m| then None
    else if m[p] == 0 then Some([])
    else if Pointer(m[p]) then
      if p + 1 >= |m| || Target(m, p) >= |m| || indir + 1 > |m| || indir + 1 > MAX_INDIRS then None
      else Walk(m, Target(m, p), indir + 1)
    else if m[p] > MAXLABEL || p + m[p] + 1 >= |m| then None
    else match Walk(m, p + m[p] + 1, indir)
      case None => None
      case Some(ls) => Some([m[p + 1..p + 1 + m[p]]] + ls)
  }

  /** The lowest fourteen bits of two bytes */
  function Offset(high: nat, low: nat): nat {
    (high % 64) * 256 + low
  }

  /**
   Sections 3.1 and 4.1.4: the name at p has these labels and follows this number of pointers. A pointer has
   its two highest bits set; the other fourteen are an offset in the message.
   */
  predicate Spells(m: seq<Byte>, p: nat, ls: seq<Label>, hops: nat)
    decreases hops, |ls|
  {
    p < |m| &&
    if m[p] == 0 then ls == [] && hops == 0
    else if m[p] / 64 == 3 then p + 1 < |m| && hops > 0 && Spells(m, Offset(m[p], m[p + 1]), ls, hops - 1)
    else
      && m[p] / 64 == 0 && p + 1 + m[p] <= |m|
      && ls != [] && ls[0] == m[p + 1..p + 1 + m[p]] && Spells(m, p + 1 + m[p], ls[1..], hops)
  }

  /** At most 50 pointers are followed, and no more than the message has bytes. */
  function Limit(m: seq<Byte>): nat {
    if |m| < 50 then |m| else 50
  }

  lemma {:induction false} WalkSpells(m: seq<Byte>, p: nat, indir: nat) returns (hops: nat)
    requires indir <= Limit(m) && Walk(m, p, indir).Some?
    ensures indir + hops <= Limit(m) && Spells(m, p, Walk(m, p, indir).value, hops)
    decreases MAX_INDIRS - indir, |m| - p
  {
    if m[p] == 0 {
      hops := 0;
    } else if Pointer(m[p]) {
      hops := WalkSpells(m, Target(m, p), indir + 1);
      hops := hops + 1;
    } else {
      hops := WalkSpells(m, p + m[p] + 1, indir);
    }
  }

  lemma {:induction false} SpellsWalk(m: seq<Byte>, p: nat, indir: nat, ls: seq<Label>, hops: nat)
    requires Spells(m, p, ls, hops) && indir + hops <= Limit(m)
    ensures Walk(m, p, indir) == Some(ls)
    decreases hops, |ls|
  {
    if m[p] == 0 {
    } else if Pointer(m[p]) {
      assert Target(m, p) == Offset(m[p], m[p + 1]);
      SpellsWalk(m, Target(m, p), indir + 1, ls, hops - 1);
    } else {
      SpellsWalk(m, p + 1 + m[p], indir, ls[1..], hops);
      assert ls == [ls[0]] + ls[1..];
    }
  }

  ghost predicate Readable(m: seq<Byte>, p: nat, ls: seq<Label>) {
    exists hops :: 0 <= hops <= Limit(m) && Spells(m, p, ls, hops)
  }

  /** A name is accepted exactly when it is well formed and follows few enough pointers; then its labels are read. */
  lemma WalkExact(m: seq<Byte>, p: nat, ls: seq<Label>)
    ensures Walk(m, p, 0) == Some(ls) <==> Readable(m, p, ls)
  {
    if Walk(m, p, 0) == Some(ls) {
      var hops := WalkSpells(m, p, 0);
    }
    if Readable(m, p, ls) {
      var hops :| 0 <= hops <= Limit(m) && Spells(m, p, ls, hops);
      SpellsWalk(m, p, 0, ls, hops);
    }
  }

  /** The bytes the name takes at p itself: up to and including its first pointer, or its zero. */
  function EncLen(m: seq<Byte>, p: nat): nat
    decreases |m| - p
  {
    if p >= |m| || m[p] == 0 then 1 else if Pointer(m[p]) then 2 else m[p] + 1 + EncLen(m, p + m[p] + 1)
  }

  lemma {:induction false} EncLenInside(m: seq<Byte>, p: nat, indir: nat)
    requires indir <= MAX_INDIRS && Walk(m, p, indir).Some?
    ensures p + EncLen(m, p) <= |m|
    decreases |m| - p
  {
    if m[p] != 0 && !Pointer(m[p]) {
      EncLenInside(m, p + m[p] + 1, indir);
    }
  }

  /** A name written out in full is read back, wherever it stands in a message. */
  lemma {:induction false} WireRoundTrip(pre: seq<Byte>, ls: seq<Label>, post: seq<Byte>)
    requires NonEmpty(ls)
    ensures Walk(pre + Wire(ls) + post, |pre|, 0) == Some(ls)
    ensures EncLen(pre + Wire(ls) + post, |pre|) == |Wire(ls)|
    decreases |ls|
  {
    var m := pre + Wire(ls) + post;
    if ls != [] {
      var pre1 := pre + [|ls[0]|] + ls[0];
      WireRoundTrip(pre1, ls[1..], post);
      assert m == pre1 + Wire(ls[1..]) + post;
      assert m[|pre| + 1..|pre| + 1 + |ls[0]|] == ls[0];
      assert ls == [ls[0]] + ls[1..];
    }
  }

  function Prefixed(ls: seq<Label>, rest: Option<seq<Label>>): Option<seq<Label>> {
    match rest
    case None => None
    case Some(more) => Some(ls + more)
  }

  lemma WalkLabel(m: seq<Byte>, p: nat, l: Label)
    requires p + 1 + |l| < |m| && m[p] == |l| > 0 && m[p + 1..p + 1 + |l|] == l
    ensures Walk(m, p, 0) == Prefixed([l], Walk(m, p + 1 + |l|, 0))
    ensures EncLen(m, p) == |l| + 1 + EncLen(m, p + 1 + |l|)
  {
  }

  lemma WalkPointer(m: seq<Byte>, p: nat)
    requires p + 1 < |m| && m[p] >= 192
    ensures var target := Offset(m[p], m[p + 1]);
      Walk(m, p, 0) == if target < |m| then Walk(m, target, 1) else None
    ensures EncLen(m, p) == 2
  {
    assert Target(m, p) == Offset(m[p], m[p + 1]);
  }

  /** A name that ends with a pointer takes up the pointer's two bytes and has the labels found there as well. */
  lemma {:induction false} CompressedName(pre: seq<Byte>, ls: seq<Label>, high: Byte, low: Byte, post: seq<Byte>)
    requires NonEmpty(ls) && high >= 192
    ensures var m := pre + Body(ls) + [high, low] + post;
      && EncLen(m, |pre|) == |Body(ls)| + 2
      && Walk(m, |pre|, 0) == Prefixed(ls, if Offset(high, low) < |m| then Walk(m, Offset(high, low), 1) else None)
    decreases |ls|
  {
    var m := pre + Body(ls) + [high, low] + post;
    hide Walk, EncLen;
    if ls == [] {
      assert m[|pre|] == high && m[|pre| + 1] == low;
      WalkPointer(m, |pre|);
      PrefixedTwice([], [], Walk(m, |pre|, 0));
    } else {
      var l := ls[0];
      var pre1 := pre + [|l|] + l;
      CompressedName(pre1, ls[1..], high, low, post);
      assert m == pre1 + Body(ls[1..]) + [high, low] + post;
      assert m[|pre| + 1..|pre| + 1 + |l|] == l;
      WalkLabel(m, |pre|, l);
      assert ls == [l] + ls[1..];
      PrefixedTwice([l], ls[1..], if Offset(high, low) < |m| then Walk(m, Offset(high, low), 1) else None);
    }
  }

  lemma PrefixedTwice(a: seq<Label>, b: seq<Label>, rest: Option<seq<Label>>)
    ensures Prefixed(a, Prefixed(b, rest)) == Prefixed(a + b, rest)
    ensures Prefixed([], rest) == rest
  {
    if rest.Some? {
      assert a + (b + rest.value) == a + b + rest.value;
      assert [] + rest.value == rest.value;
    }
  }

  // ----- characters

  function Ascii(s: string): (t: seq<Byte>)
    ensures |t| == |s| && forall i :: 0 <= i < |s| ==> t[i] == s[i] as int % 256
  {
    seq(|s|, i requires 0 <= i < |s| => s[i] as int % 256)
  }

  /** A text without periods and backslashes is one label, of at most 63 bytes. */
  lemma {:induction false} PlainLabel(t: seq<Byte>)
    requires t != [] && '.' as int !in t && '\\' as int !in t
    ensures LabelsOf(t) == if |t| <= 63 then Some([t]) else None
  {
    PlainLabelAt(t);
  }

  lemma {:induction false} PlainLabelAt(t: seq<Byte>)
    requires '.' as int !in t && '\\' as int !in t
    ensures LabelAt(t) == t && RestAt(t) == []
  {
    if t != [] {
      PlainLabelAt(t[1..]);
      assert t == [t[0]] + t[1..];
    }
  }

  /** For instance the labels "a.b" and "\c" */
  lemma TextExample()
    ensures Text([Ascii("a.b"), Ascii("\\c")]) == Ascii("a\\.b.\\\\c")
  {
    var a, b: Label := Ascii("a.b"), Ascii("\\c");
    assert Escape(a) == Ascii("a\\.b") by {
      assert a == [97, 46, 98] && a[1..] == [46, 98] && a[2..] == [98] && a[3..] == [];
      assert a[1..][1..] == a[2..] && a[2..][1..] == a[3..];
    }
    assert Escape(b) == Ascii("\\\\c") by {
      assert b == [92, 99] && b[1..] == [99] && b[2..] == [];
      assert b[1..][1..] == b[2..];
    }
    var ls: seq<Label> := [a, b];
    assert ls[1..] == [b];
  }
}
