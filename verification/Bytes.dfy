/** Bytes, optional results and the growable byte buffer the codec writes into. */
module Bytes {

  /** An unsigned 8-bit value, the unit of every SysEx buffer. */
  type Byte = b: int | 0 <= b < 256

  /** The outcome of a decoder: a failure carries no detail. */
  datatype Option<+T> = None | Some(value: T)

  /** Recognises the literal `t` at the front of `input` and yields what follows it. */
  function Tag(t: seq<Byte>, input: seq<Byte>): (r: Option<seq<Byte>>)
    ensures r.Some? <==> t <= input
    ensures r.Some? ==> input == t + r.value
  {
    if |t| <= |input| && input[..|t|] == t then Some(input[|t|..]) else None
  }

  /** A growable byte vector that is filled in place by pushing and extending. */
  class ByteVec {
    var elems: seq<Byte>

    constructor ()
      ensures elems == []
    {
      elems := [];
    }

    /** A vector that starts out holding the literal `s`. */
    constructor From(s: seq<Byte>)
      ensures elems == s
    {
      elems := s;
    }

    method Push(b: Byte)
      modifies this
      ensures elems == old(elems) + [b]
    {
      elems := elems + [b];
    }

    method Extend(s: seq<Byte>)
      modifies this
      ensures elems == old(elems) + s
    {
      elems := elems + s;
    }
  }
}
