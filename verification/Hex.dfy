/** Lowercase hexadecimal text for byte buffers, two digits per byte, most significant first. */
module Hex {
  import opened Bytes

  predicate IsHexDigit(c: char) {
    ('0' <= c <= '9') || ('a' <= c <= 'f')
  }

  /** The value of a lowercase hexadecimal digit. */
  function DigitValue(c: char): (n: int)
    requires IsHexDigit(c)
    ensures 0 <= n < 16
  {
    if c <= '9' then c as int - '0' as int else c as int - 'a' as int + 10
  }

  /** The lowercase digit of a nibble. */
  function Digit(n: int): (c: char)
    requires 0 <= n < 16
    ensures IsHexDigit(c) && DigitValue(c) == n
  {
    if n < 10 then ('0' as int + n) as char else ('a' as int + n - 10) as char
  }

  /** The hexadecimal text of `s`: every byte becomes its high and its low digit. */
  function Encode(s: seq<Byte>): (r: string)
    ensures |r| == 2 * |s|
    ensures forall k :: 0 <= k < |r| ==> IsHexDigit(r[k])
  {
    if s == [] then "" else [Digit(s[0] / 16), Digit(s[0] % 16)] + Encode(s[1..])
  }

  /** Reading the text back: a string of an even number of hex digits gives its bytes. */
  function Decode(t: string): (r: Option<seq<Byte>>)
    ensures r.Some? ==> 2 * |r.value| == |t|
    decreases |t|
  {
    if t == [] then Some([])
    else if |t| < 2 || !IsHexDigit(t[0]) || !IsHexDigit(t[1]) then None
    else match Decode(t[2..])
      case None => None
      case Some(rest) => Some([16 * DigitValue(t[0]) + DigitValue(t[1])] + rest)
  }

  /** The hexadecimal text is lossless: decoding it gives back the bytes. */
  lemma {:induction false} DecodeEncode(s: seq<Byte>)
    ensures Decode(Encode(s)) == Some(s)
  {
    if s != [] {
      var t := Encode(s);
      assert t[2..] == Encode(s[1..]);
      DecodeEncode(s[1..]);
      assert t[0] == Digit(s[0] / 16) && t[1] == Digit(s[0] % 16);
      assert [s[0]] + s[1..] == s;
    }
  }

  /** Distinct buffers have distinct hexadecimal texts. */
  lemma EncodeInjective(a: seq<Byte>, b: seq<Byte>)
    requires Encode(a) == Encode(b)
    ensures a == b
  {
    DecodeEncode(a);
    DecodeEncode(b);
  }
}
