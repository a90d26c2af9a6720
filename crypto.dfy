/**
 * Stand-ins for Node's `crypto` module as the user model uses it. Key derivation
 * (`pbkdf2Sync`) and the random source (`randomBytes`) stay abstract: the first is a
 * function value supplied by the caller, the second a byte sequence supplied per call.
 * What is modelled exactly is `Buffer.prototype.toString('hex')`.
 */
module Crypto {
  import opened Wrappers

  type byte = x: int | 0 <= x < 256

  /**
   * `crypto.pbkdf2Sync(password, salt, 10000, 512, 'sha512')`: deterministic in its two
   * arguments; `None` stands for a call that throws.
   */
  type Pbkdf2 = (string, string) -> Option<seq<byte>>

  /** One of `0123456789abcdef`. */
  predicate IsHexDigit(c: char) {
    '0' <= c <= '9' || 'a' <= c <= 'f'
  }

  /** The lower-case hexadecimal digit of a value below 16. */
  function HexDigit(v: int): (c: char)
    requires 0 <= v < 16
    ensures IsHexDigit(c)
  {
    if v < 10 then ('0' as int + v) as char else ('a' as int + v - 10) as char
  }

  /** The two lower-case hexadecimal digits of one byte, high nibble first. */
  function HexOfByte(b: byte): (s: string)
    ensures |s| == 2 && IsHexDigit(s[0]) && IsHexDigit(s[1])
  {
    [HexDigit(b / 16), HexDigit(b % 16)]
  }

  /** `buffer.toString('hex')`: two lower-case hexadecimal digits per byte. */
  function HexEncode(bytes: seq<byte>): (s: string)
    ensures |s| == 2 * |bytes|
    ensures forall i :: 0 <= i < |s| ==> IsHexDigit(s[i])
  {
    if bytes == [] then "" else HexOfByte(bytes[0]) + HexEncode(bytes[1..])
  }

  /** The value of one hexadecimal digit; the inverse of `HexDigit`. */
  function DigitValue(c: char): (v: int)
    requires IsHexDigit(c)
    ensures 0 <= v < 16 && HexDigit(v) == c
  {
    if c <= '9' then c as int - '0' as int else c as int - 'a' as int + 10
  }

  /** Reads back what `HexEncode` writes. */
  function HexDecode(s: string): (bytes: seq<byte>)
    requires |s| % 2 == 0
    requires forall i :: 0 <= i < |s| ==> IsHexDigit(s[i])
    ensures |bytes| == |s| / 2
  {
    if s == "" then [] else [(DigitValue(s[0]) * 16 + DigitValue(s[1])) as byte] + HexDecode(s[2..])
  }

  lemma ByteRoundTrip(b: byte)
    ensures var h := HexOfByte(b); (DigitValue(h[0]) * 16 + DigitValue(h[1])) as byte == b
  {
    var hi, lo := b / 16, b % 16;
    assert DigitValue(HexDigit(hi)) == hi;
    assert DigitValue(HexDigit(lo)) == lo;
  }

  lemma {:induction false} HexRoundTrip(bytes: seq<byte>)
    ensures HexDecode(HexEncode(bytes)) == bytes
  {
    if bytes != [] {
      var s := HexEncode(bytes);
      assert s[..2] == HexOfByte(bytes[0]);
      assert s[2..] == HexEncode(bytes[1..]);
      ByteRoundTrip(bytes[0]);
      HexRoundTrip(bytes[1..]);
    }
  }

  /** Distinct byte strings have distinct hex forms. */
  lemma HexEncodeInjective(a: seq<byte>, b: seq<byte>)
    requires HexEncode(a) == HexEncode(b)
    ensures a == b
  {
    HexRoundTrip(a);
    HexRoundTrip(b);
  }

  /**
   * `makeSalt()`: `crypto.randomBytes(16).toString('hex')`, with the 16 random bytes
   * given as an argument.
   */
  function MakeSalt(random: seq<byte>): (salt: string)
    requires |random| == 16
    ensures |salt| == 32
    ensures forall i :: 0 <= i < |salt| ==> IsHexDigit(salt[i])
    ensures HexDecode(salt) == random
  {
    HexRoundTrip(random);
    HexEncode(random)
  }
}
