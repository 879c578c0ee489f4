/**
 * Hex text and bytes, as Node's Buffer does them: `toString("hex")` spells
 * each byte as two lower-case digits; `Buffer.from(s, "hex")` reads digit
 * pairs from the left and stops at the first pair that is not two hex digits
 * (a trailing odd digit is dropped) instead of failing.
 */
module Hex {

  type byte = x: int | 0 <= x < 256

  predicate IsHexDigit(ch: char) {
    '0' <= ch <= '9' || 'a' <= ch <= 'f' || 'A' <= ch <= 'F'
  }

  function DigitValue(ch: char): (d: nat)
    requires IsHexDigit(ch)
    ensures d < 16
  {
    if '0' <= ch <= '9' then ch as int - '0' as int
    else if 'a' <= ch <= 'f' then ch as int - 'a' as int + 10
    else ch as int - 'A' as int + 10
  }

  function HexChar(d: nat): (ch: char)
    requires d < 16
    ensures IsHexDigit(ch) && DigitValue(ch) == d
  {
    "0123456789abcdef"[d]
  }

  /** `buffer.toString("hex")`. */
  function HexEncode(bytes: seq<byte>): (s: string)
    ensures |s| == 2 * |bytes|
    ensures forall i :: 0 <= i < |s| ==> IsHexDigit(s[i])
  {
    if |bytes| == 0 then ""
    else [HexChar(bytes[0] / 16), HexChar(bytes[0] % 16)] + HexEncode(bytes[1..])
  }

  /** `Buffer.from(s, "hex")`. */
  function HexDecode(s: string): (bytes: seq<byte>)
    ensures 2 * |bytes| <= |s|
  {
    if |s| < 2 || !IsHexDigit(s[0]) || !IsHexDigit(s[1]) then []
    else [DigitValue(s[0]) * 16 + DigitValue(s[1])] + HexDecode(s[2..])
  }

  /** Decoding undoes encoding. */
  lemma {:induction false} DecodeEncode(bytes: seq<byte>)
    ensures HexDecode(HexEncode(bytes)) == bytes
  {
    if |bytes| > 0 {
      var s := HexEncode(bytes);
      assert s[2..] == HexEncode(bytes[1..]);
      DecodeEncode(bytes[1..]);
    }
  }

  /** Encoding is one-to-one. */
  lemma EncodeInjective(a: seq<byte>, b: seq<byte>)
    requires HexEncode(a) == HexEncode(b)
    ensures a == b
  {
    DecodeEncode(a);
    DecodeEncode(b);
  }

  /** At least `n` bytes decode exactly when the first `2n` characters are all hex digits. */
  lemma {:induction false} DecodedLength(s: string, n: nat)
    ensures |HexDecode(s)| >= n <==> (2 * n <= |s| && forall i :: 0 <= i < 2 * n ==> IsHexDigit(s[i]))
    decreases n
  {
    if n > 0 && |s| >= 2 && IsHexDigit(s[0]) && IsHexDigit(s[1]) {
      DecodedLength(s[2..], n - 1);
      assert forall i :: 2 <= i < 2 * n && i < |s| ==> s[i] == s[2..][i - 2];
    }
  }

  /** Only the first `2n` characters matter for the first `n` bytes. */
  lemma {:induction false} DecodePrefix(s: string, n: nat)
    requires 2 * n <= |s|
    requires |HexDecode(s)| >= n
    ensures HexDecode(s)[..n] == HexDecode(s[..2 * n])
    decreases n
  {
    if n > 0 {
      DecodePrefix(s[2..], n - 1);
      assert s[..2 * n][2..] == s[2..][..2 * (n - 1)];
    }
  }
}
