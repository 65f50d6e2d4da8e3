/** Bytes and sequences of buffers. */
module Octets {

  type Byte = x: int | 0 <= x < 256

  /** The 16-bit number at p, most significant byte first */
  function NumberAt(m: seq<Byte>, p: nat): nat
    requires p + 2 <= |m|
  {
    var high: int, low: int := m[p], m[p + 1];
    256 * high + low
  }

  /** The bytes of some buffers, one after the other */
  function Flat(parts: seq<seq<Byte>>): seq<Byte> {
    if parts == [] then [] else parts[0] + Flat(parts[1..])
  }

  lemma FlatNone(parts: seq<seq<Byte>>)
    ensures parts == [] ==> Flat(parts) == []
  {
  }

  lemma {:induction false} FlatLast(parts: seq<seq<Byte>>, p: seq<Byte>)
    ensures Flat(parts + [p]) == Flat(parts) + p
  {
    if parts != [] {
      assert (parts + [p])[1..] == parts[1..] + [p];
      FlatLast(parts[1..], p);
    } else {
      assert (parts + [p])[1..] == [];
    }
  }

  /** Dropping bytes from the first part, or a whole part and then more, drops them from the whole. */
  lemma FlatDrop(parts: seq<seq<Byte>>, n: nat)
    requires parts != [] && n <= |Flat(parts)|
    ensures n >= |parts[0]| ==> n - |parts[0]| <= |Flat(parts[1..])|
    ensures n >= |parts[0]| ==> Flat(parts[1..])[n - |parts[0]|..] == Flat(parts)[n..]
    ensures n < |parts[0]| ==> Flat([parts[0][n..]] + parts[1..]) == Flat(parts)[n..]
  {
    if n < |parts[0]| {
      assert ([parts[0][n..]] + parts[1..])[1..] == parts[1..];
    }
  }
}
