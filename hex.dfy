/**
 * Bytes and their hexadecimal text form: `buf.toString('hex')` and
 * `Buffer.from(s, 'hex')` as Node.js defines them.
 */
module Hex {

  newtype byte = x: int | 0 <= x < 256

  /** The digits `toString('hex')` writes: `0-9` and lower-case `a-f`. */
  predicate IsLowerHexDigit(c: char) {
    '0' <= c <= '9' || 'a' <= c <= 'f'
  }

  predicate IsLowerHex(s: string) {
    forall i :: 0 <= i < |s| ==> IsLowerHexDigit(s[i])
  }

  /** Characters `Buffer.from(s, 'hex')` accepts as a digit: either case. */
  predicate IsHexChar(c: char) {
    '0' <= c <= '9' || 'a' <= c <= 'f' || 'A' <= c <= 'F'
  }

  function Nibble(c: char): (n: int)
    requires IsHexChar(c)
    ensures 0 <= n < 16
  {
    if '0' <= c <= '9' then c as int - '0' as int
    else if 'a' <= c <= 'f' then c as int - 'a' as int + 10
    else c as int - 'A' as int + 10
  }

  /** The digit `toString('hex')` writes for a nibble. */
  function DigitChar(n: int): (c: char)
    requires 0 <= n < 16
    ensures IsLowerHexDigit(c)
  {
    if n < 10 then ('0' as int + n) as char else ('a' as int + n - 10) as char
  }

  /** `buf.toString('hex')`: two lower-case digits per byte, high nibble first. */
  function Encode(bs: seq<byte>): (s: string)
    ensures |s| == 2 * |bs|
    ensures IsLowerHex(s)
  {
    if bs == [] then ""
    else [DigitChar(bs[0] as int / 16), DigitChar(bs[0] as int % 16)] + Encode(bs[1..])
  }

  /**
   * `Buffer.from(s, 'hex')`: decodes digit pairs from the left and stops at the first
   * pair holding a non-digit; a trailing odd digit is dropped. It never throws.
   */
  function Decode(s: string): (bs: seq<byte>)
    ensures |bs| <= |s| / 2
  {
    if |s| < 2 || !IsHexChar(s[0]) || !IsHexChar(s[1]) then []
    else [(Nibble(s[0]) * 16 + Nibble(s[1])) as byte] + Decode(s[2..])
  }

  lemma DigitNibble(n: int)
    requires 0 <= n < 16
    ensures IsHexChar(DigitChar(n)) && Nibble(DigitChar(n)) == n
  {
  }

  /** The two digits `Encode` writes for a byte read back as that byte. */
  lemma ByteDigits(b: byte)
    ensures IsHexChar(DigitChar(b as int / 16)) && IsHexChar(DigitChar(b as int % 16))
    ensures Nibble(DigitChar(b as int / 16)) * 16 + Nibble(DigitChar(b as int % 16)) == b as int
  {
    DigitNibble(b as int / 16);
    DigitNibble(b as int % 16);
  }

  /** One step of `Decode` on a leading digit pair. */
  lemma DecodePair(hi: char, lo: char, rest: string)
    requires IsHexChar(hi) && IsHexChar(lo)
    ensures Decode([hi, lo] + rest) == [(Nibble(hi) * 16 + Nibble(lo)) as byte] + Decode(rest)
  {
    assert ([hi, lo] + rest)[2..] == rest;
  }

  /** Decoding undoes encoding. */
  lemma {:induction false} DecodeEncode(bs: seq<byte>)
    ensures Decode(Encode(bs)) == bs
  {
    if bs != [] {
      var b := bs[0];
      var hi, lo := DigitChar(b as int / 16), DigitChar(b as int % 16);
      var rest := Encode(bs[1..]);
      assert Encode(bs) == [hi, lo] + rest;
      ByteDigits(b);
      DecodePair(hi, lo, rest);
      DecodeEncode(bs[1..]);
      assert [b] + bs[1..] == bs;
    }
  }

  /** Distinct byte strings have distinct encodings. */
  lemma EncodeInjective(a: seq<byte>, b: seq<byte>)
    requires Encode(a) == Encode(b)
    ensures a == b
  {
    DecodeEncode(a);
    DecodeEncode(b);
  }

  /** A `.` never occurs in hexadecimal text, so it can serve as a separator. */
  lemma DotNotInEncode(bs: seq<byte>)
    ensures '.' !in Encode(bs)
  {
    var s := Encode(bs);
    forall i | 0 <= i < |s|
      ensures s[i] != '.'
    {
      assert IsLowerHexDigit(s[i]);
    }
  }
}
