/**
 What a receiver finds in a query message (RFC 1035 section 4.1, RFC 6891 section 6.1), read byte by byte
 from the offsets given there.
 */
module DnsMessage {
  import opened Options
  import opened Octets
  import opened DnsNames

  /** A standard query with this identifier, for one question, with this many additional records */
  predicate StartsQuery(m: seq<Byte>, id: int, rd: bool, additional: nat) {
    && |m| >= 12 && NumberAt(m, 0) == id % 0x10000
    && m[2] == (if rd then 1 else 0) && m[3] == 0
    && NumberAt(m, 4) == 1 && NumberAt(m, 6) == 0 && NumberAt(m, 8) == 0 && NumberAt(m, 10) == additional
  }

  /** At q the question ends with this type and class. */
  predicate EndsQuestion(m: seq<Byte>, q: nat, type_: int, class_: int) {
    q + 4 <= |m| && NumberAt(m, q) == type_ % 0x10000 && NumberAt(m, q + 2) == class_ % 0x10000
  }

  /** At q stands an OPT record that offers this size, and the message ends with it. */
  predicate EndsWithOpt(m: seq<Byte>, q: nat, size: int) {
    && |m| == q + 11 && m[q] == 0 && NumberAt(m, q + 1) == 41 && NumberAt(m, q + 3) == size % 0x10000
    && forall i :: q + 5 <= i < |m| ==> m[i] == 0
  }

  /** The message asks for this name, class and type, with an OPT record if a size is given. */
  predicate Asks(m: seq<Byte>, ls: seq<Label>, class_: int, type_: int, id: int, rd: bool, size: int) {
    && StartsQuery(m, id, rd, if size != 0 then 1 else 0)
    && Walk(m, 12, 0) == Some(ls)
    && var q := 12 + EncLen(m, 12);
       EndsQuestion(m, q, type_, class_) && if size != 0 then EndsWithOpt(m, q + 4, size) else |m| == q + 4
  }
}
