/** Base16 as Node's `Buffer` does it: `toString("hex")` writes two lower-case
    digits per byte; `Buffer.from(s, "hex")` reads digit pairs and stops at
    the first pair that is not two hexadecimal digits (a trailing odd digit is
    dropped). */
module Hex {

  type byte = x: int | 0 <= x < 256

  const LowerDigits: string := "0123456789abcdef"

  predicate IsHexDigit(c: char)
  {
    ('0' <= c <= '9') || ('a' <= c <= 'f') || ('A' <= c <= 'F')
  }

  /** `/^[0-9a-fA-F]+$/.test(s)` */
  predicate IsHexString(s: string)
  {
    |s| > 0 && forall i :: 0 <= i < |s| ==> IsHexDigit(s[i])
  }

  function DigitValue(c: char): (v: nat)
    requires IsHexDigit(c)
    ensures v < 16
  {
    if '0' <= c <= '9' then c as int - '0' as int
    else if 'a' <= c <= 'f' then c as int - 'a' as int + 10
    else c as int - 'A' as int + 10
  }

  lemma DigitValueOfLower(d: nat)
    requires d < 16
    ensures IsHexDigit(LowerDigits[d]) && DigitValue(LowerDigits[d]) == d
  {
  }

  /** `buf.toString("hex")` */
  function Encode(bs: seq<byte>): (s: string)
    ensures |s| == 2 * |bs|
    ensures forall i :: 0 <= i < |s| ==> IsHexDigit(s[i]) && s[i] != ':'
  {
    if bs == [] then ""
    else [LowerDigits[bs[0] / 16], LowerDigits[bs[0] % 16]] + Encode(bs[1..])
  }

  /** `Buffer.from(s, "hex")` */
  function Decode(s: string): (bs: seq<byte>)
    ensures |bs| <= |s| / 2
  {
    if |s| < 2 || !IsHexDigit(s[0]) || !IsHexDigit(s[1]) then []
    else [DigitValue(s[0]) * 16 + DigitValue(s[1])] + Decode(s[2..])
  }

  lemma {:induction false} DecodeEncode(bs: seq<byte>)
    ensures Decode(Encode(bs)) == bs
  {
    if bs != [] {
      var b := bs[0];
      DigitValueOfLower(b / 16);
      DigitValueOfLower(b % 16);
      var s := Encode(bs);
      assert s == [LowerDigits[b / 16], LowerDigits[b % 16]] + Encode(bs[1..]);
      assert s[2..] == Encode(bs[1..]);
      DecodeEncode(bs[1..]);
    }
  }

  /** A string of hexadecimal digits of even length decodes completely: the
      64-digit secrets the encryptor accepts become 32-byte keys. */
  lemma {:induction false} DecodeLength(s: string)
    requires |s| % 2 == 0
    requires forall i :: 0 <= i < |s| ==> IsHexDigit(s[i])
    ensures |Decode(s)| == |s| / 2
  {
    if |s| >= 2 {
      DecodeLength(s[2..]);
    }
  }
}
