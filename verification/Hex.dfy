/** Bytes, hexadecimal text and little-endian integers, as Node's Buffer reads and writes them. */
module Hex {
  import opened Outcomes
  import opened Text

  type byte = b: int | 0 <= b < 256

  function DigitOf(n: nat): char
    requires n < 16
  {
    if n < 10 then ('0' as int + n) as char else ('a' as int + n - 10) as char
  }

  predicate IsLowerHexDigit(c: char) {
    '0' <= c <= '9' || 'a' <= c <= 'f'
  }

  predicate IsHexDigit(c: char) {
    IsLowerHexDigit(c) || 'A' <= c <= 'F'
  }

  predicate IsLowerHex(s: string) {
    forall i | 0 <= i < |s| :: IsLowerHexDigit(s[i])
  }

  function ValueOf(c: char): (n: nat)
    requires IsHexDigit(c)
    ensures n < 16
    ensures IsLowerHexDigit(c) ==> DigitOf(n) == c
  {
    if c <= '9' then c as int - '0' as int
    else if c <= 'F' then c as int - 'A' as int + 10
    else c as int - 'a' as int + 10
  }

  function LowerChar(c: char): char {
    if 'A' <= c <= 'Z' then (c as int + 32) as char else c
  }

  /** `s.toLowerCase()` on the letters that matter for hexadecimal text. */
  function Lower(s: string): (r: string)
    ensures |r| == |s| && forall i | 0 <= i < |s| :: r[i] == LowerChar(s[i])
  {
    if s == "" then "" else [LowerChar(s[0])] + Lower(s[1..])
  }

  /** `Buffer.from(bytes).toString("hex")`. */
  function HexOf(bytes: seq<byte>): (s: string)
    ensures |s| == 2 * |bytes| && IsLowerHex(s)
  {
    if bytes == [] then "" else [DigitOf(bytes[0] / 16), DigitOf(bytes[0] % 16)] + HexOf(bytes[1..])
  }

  /** `Buffer.from(s, "hex")`: decoding stops at the first pair that is not hexadecimal. */
  function BytesOf(s: string): seq<byte> {
    if |s| < 2 || !IsHexDigit(s[0]) || !IsHexDigit(s[1]) then []
    else
      var b: byte := 16 * ValueOf(s[0]) + ValueOf(s[1]);
      [b] + BytesOf(s[2..])
  }

  lemma {:induction false} HexRoundTrip(bytes: seq<byte>)
    ensures BytesOf(HexOf(bytes)) == bytes
  {
    if bytes != [] {
      HexRoundTrip(bytes[1..]);
      assert HexOf(bytes)[2..] == HexOf(bytes[1..]);
    }
  }

  lemma {:induction false} BytesRoundTrip(s: string)
    requires IsLowerHex(s) && |s| % 2 == 0
    ensures HexOf(BytesOf(s)) == s && 2 * |BytesOf(s)| == |s|
    decreases |s|
  {
    if |s| >= 2 {
      BytesRoundTrip(s[2..]);
      var b := BytesOf(s)[0];
      assert b / 16 == ValueOf(s[0]) && b % 16 == ValueOf(s[1]);
      assert BytesOf(s)[1..] == BytesOf(s[2..]);
      assert s == [s[0], s[1]] + s[2..];
    }
  }

  /** `Buffer.readBigUInt64LE` on eight bytes; the definition serves any length. */
  function LittleEndian(bytes: seq<byte>): nat {
    if bytes == [] then 0 else bytes[0] + 256 * LittleEndian(bytes[1..])
  }

  /** The lowest `k` bytes of a number, the lowest first. */
  function LowBytes(n: nat, k: nat): seq<byte> {
    if k == 0 then [] else [n % 256] + LowBytes(n / 256, k - 1)
  }

  /** A number read from bytes has exactly these bytes. */
  lemma {:induction false} LittleEndianRoundTrip(bytes: seq<byte>)
    ensures LowBytes(LittleEndian(bytes), |bytes|) == bytes
  {
    if bytes != [] {
      LittleEndianRoundTrip(bytes[1..]);
    }
  }
}
