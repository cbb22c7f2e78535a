/** Lowercase hexadecimal encoding of a byte string, as produced by
    `digest('hex')`, together with its inverse. */
module Hex {

  import opened Values

  type byte = x: int | 0 <= x < 256

  const Digits: string := "0123456789abcdef"

  /** The lowercase hex digit for a value in 0..15. */
  function DigitChar(d: int): (c: char)
    requires 0 <= d < 16
    ensures DigitValue(c) == d
  {
    Digits[d]
  }

  /** The value of a lowercase hex digit, or -1 for any other character
      (upper-case digits are not produced by `digest('hex')`). */
  function DigitValue(c: char): int
  {
    if '0' <= c <= '9' then c as int - '0' as int
    else if 'a' <= c <= 'f' then c as int - 'a' as int + 10
    else -1
  }

  /** Two lowercase hex digits per byte, most significant first. */
  function Encode(bytes: seq<byte>): (s: string)
    ensures |s| == 2 * |bytes|
    ensures forall i :: 0 <= i < |s| ==> 0 <= DigitValue(s[i]) < 16
  {
    if bytes == [] then ""
    else [DigitChar(bytes[0] / 16), DigitChar(bytes[0] % 16)] + Encode(bytes[1..])
  }

  /** Reads a lowercase hex string back into bytes; fails on odd length or
      on a character outside `Digits`. */
  function Decode(s: string): Option<seq<byte>>
  {
    if s == [] then Some([])
    else if |s| == 1 then None
    else
      var hi, lo := DigitValue(s[0]), DigitValue(s[1]);
      if hi < 0 || lo < 0 then None
      else match Decode(s[2..])
        case None => None
        case Some(rest) => Some([(hi * 16 + lo) as byte] + rest)
  }

  /** One byte survives its two digits. */
  lemma ByteDigits(b: byte)
    ensures DigitValue(DigitChar(b / 16)) * 16 + DigitValue(DigitChar(b % 16)) == b
  {
  }

  /** Decoding undoes encoding. */
  lemma {:induction false} DecodeEncode(bytes: seq<byte>)
    ensures Decode(Encode(bytes)) == Some(bytes)
  {
    if bytes != [] {
      var b := bytes[0];
      DecodeEncode(bytes[1..]);
      ByteDigits(b);
      DecodePair(DigitChar(b / 16), DigitChar(b % 16), Encode(bytes[1..]), bytes[1..]);
      assert [DigitChar(b / 16), DigitChar(b % 16)] + Encode(bytes[1..]) == Encode(bytes);
      assert [b] + bytes[1..] == bytes;
    }
  }

  /** Decoding reads two digits, then the rest. */
  lemma DecodePair(hi: char, lo: char, t: string, rest: seq<byte>)
    requires 0 <= DigitValue(hi) < 16 && 0 <= DigitValue(lo) < 16
    requires Decode(t) == Some(rest)
    ensures Decode([hi, lo] + t) == Some([(DigitValue(hi) * 16 + DigitValue(lo)) as byte] + rest)
  {
    var s := [hi, lo] + t;
    assert s[0] == hi && s[1] == lo && s[2..] == t;
  }

  /** Hence two digests encode to the same string only if they are equal:
      comparing hex strings is comparing digests. */
  lemma EncodeInjective(a: seq<byte>, b: seq<byte>)
    ensures Encode(a) == Encode(b) <==> a == b
  {
    if Encode(a) == Encode(b) {
      DecodeEncode(a);
      DecodeEncode(b);
    }
  }
}
