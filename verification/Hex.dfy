/**
 * Lower-case hexadecimal text of a byte string, the form in which the
 * reset token is handed out (`crypto.randomBytes(32).toString('hex')`).
 * The random bytes themselves are a parameter of the model.
 */
module Hex {

  newtype byte = x: int | 0 <= x < 256

  predicate IsHexDigit(c: char) {
    '0' <= c <= '9' || 'a' <= c <= 'f'
  }

  predicate IsHexText(s: string) {
    forall i :: 0 <= i < |s| ==> IsHexDigit(s[i])
  }

  /** The digit that stands for a nibble. */
  function DigitChar(n: int): (c: char)
    requires 0 <= n < 16
    ensures IsHexDigit(c)
  {
    if n < 10 then ('0' as int + n) as char else ('a' as int + n - 10) as char
  }

  /** The nibble a digit stands for; inverse of DigitChar. */
  function DigitValue(c: char): (n: int)
    requires IsHexDigit(c)
    ensures 0 <= n < 16 && DigitChar(n) == c
  {
    if c <= '9' then c as int - '0' as int else c as int - 'a' as int + 10
  }

  /** Two digits per byte, high nibble first. */
  function Encode(bytes: seq<byte>): (s: string)
    ensures |s| == 2 * |bytes|
    ensures IsHexText(s)
  {
    if bytes == [] then []
    else [DigitChar(bytes[0] as int / 16), DigitChar(bytes[0] as int % 16)] + Encode(bytes[1..])
  }

  /** Reads back the bytes of an even-length hexadecimal text. */
  function Decode(s: string): (bytes: seq<byte>)
    requires |s| % 2 == 0 && IsHexText(s)
    ensures |bytes| == |s| / 2
  {
    if s == [] then []
    else [(16 * DigitValue(s[0]) + DigitValue(s[1])) as byte] + Decode(s[2..])
  }

  /** Encoding loses nothing: the bytes can be read back from the text. */
  lemma {:induction false} DecodeEncode(bytes: seq<byte>)
    ensures Decode(Encode(bytes)) == bytes
  {
    if bytes != [] {
      var s := Encode(bytes);
      var b := bytes[0] as int;
      assert s[2..] == Encode(bytes[1..]);
      assert DigitValue(s[0]) == b / 16 && DigitValue(s[1]) == b % 16;
      DecodeEncode(bytes[1..]);
    }
  }

  /** Distinct random byte strings give distinct tokens. */
  lemma EncodeInjective(a: seq<byte>, b: seq<byte>)
    requires Encode(a) == Encode(b)
    ensures a == b
  {
    DecodeEncode(a);
    DecodeEncode(b);
  }
}
