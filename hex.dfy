/**
 * Base16 as the capability table uses it (section 8 of RFC 4648): every byte
 * becomes two lowercase hexadecimal digits, most significant first; decoding
 * accepts either case, and fails on an odd length or a non-hexadecimal digit.
 */
module Base16 {
  import opened Wrappers

  type byte = x: int | 0 <= x < 256

  const DIGITS: string := "0123456789abcdef"

  /** A lowercase hexadecimal digit. */
  predicate IsLowerHex(c: char)
  {
    '0' <= c <= '9' || 'a' <= c <= 'f'
  }

  /** The lowercase digit for a nibble. */
  function Digit(n: int): (c: char)
    requires 0 <= n < 16
    ensures IsLowerHex(c) && c == DIGITS[n]
  {
    if n < 10 then ('0' as int + n) as char else ('a' as int + n - 10) as char
  }

  /** The value of a hexadecimal digit of either case, if it is one. */
  function DigitValue(c: char): (r: Option<int>)
    ensures r.Some? ==> 0 <= r.value < 16
    ensures r.Some? <==> IsLowerHex(c) || 'A' <= c <= 'F'
  {
    if '0' <= c <= '9' then Some(c as int - '0' as int)
    else if 'a' <= c <= 'f' then Some(c as int - 'a' as int + 10)
    else if 'A' <= c <= 'F' then Some(c as int - 'A' as int + 10)
    else None
  }

  /** Every lowercase digit reads back as the nibble it was written for. */
  lemma DigitRoundTrip(n: int)
    requires 0 <= n < 16
    ensures DigitValue(Digit(n)) == Some(n)
  {
  }

  /** A byte is its high nibble times sixteen plus its low nibble, and nothing else is. */
  lemma NibbleSplit(hi: int, lo: int)
    requires 0 <= hi < 16 && 0 <= lo < 16
    ensures (hi * 16 + lo) / 16 == hi && (hi * 16 + lo) % 16 == lo
  {
  }

  /** '%02x' for every byte, concatenated. */
  function HexEncode(b: seq<byte>): (s: string)
    ensures |s| == 2 * |b|
    ensures forall i :: 0 <= i < |s| ==> IsLowerHex(s[i])
  {
    if |b| == 0 then ""
    else [Digit(b[0] / 16), Digit(b[0] % 16)] + HexEncode(b[1..])
  }

  /** The inverse of HexEncode on text of either case; None when the text is not base16. */
  function HexDecode(s: string): (r: Option<seq<byte>>)
    ensures r.Some? ==> |r.value| * 2 == |s|
    ensures |s| % 2 == 1 ==> r.None?
  {
    if |s| == 0 then Some([])
    else if |s| == 1 then None
    else
      match (DigitValue(s[0]), DigitValue(s[1]), HexDecode(s[2..]))
      case (Some(hi), Some(lo), Some(rest)) => Some([hi * 16 + lo] + rest)
      case _ => None
  }

  /** Every character of the text is ASCII (a code point below 128). */
  predicate IsAscii(s: string)
  {
    forall i :: 0 <= i < |s| ==> (s[i] as int) < 128
  }

  /** Only ASCII text can be base16: a character outside ASCII is never a digit. */
  lemma {:induction false} DecodableIsAscii(s: string)
    ensures HexDecode(s).Some? ==> IsAscii(s)
  {
    if |s| >= 2 && HexDecode(s).Some? {
      DecodableIsAscii(s[2..]);
      assert forall i :: 2 <= i < |s| ==> s[i] == s[2..][i - 2];
    }
  }

  /** Decoding what was encoded gives the bytes back. */
  lemma {:induction false} DecodeEncode(b: seq<byte>)
    ensures HexDecode(HexEncode(b)) == Some(b)
  {
    if |b| > 0 {
      var s := HexEncode(b);
      NibbleSplit(b[0] / 16, b[0] % 16);
      DigitRoundTrip(b[0] / 16);
      DigitRoundTrip(b[0] % 16);
      assert s[2..] == HexEncode(b[1..]);
      DecodeEncode(b[1..]);
      assert [b[0]] + b[1..] == b;
    }
  }

  /** ASCII lower-casing of one character. */
  function LowerChar(c: char): char
  {
    if 'A' <= c <= 'Z' then (c as int + 32) as char else c
  }

  /** ASCII lower-casing of a text. */
  function Lower(s: string): (r: string)
    ensures |r| == |s|
  {
    if |s| == 0 then "" else [LowerChar(s[0])] + Lower(s[1..])
  }

  /** A digit of either case is written back as its lowercase form. */
  lemma DigitOfValue(c: char)
    requires DigitValue(c).Some?
    ensures Digit(DigitValue(c).value) == LowerChar(c)
  {
  }

  /**
   * Whatever decodes, re-encodes to the same text in lowercase: the encoding is
   * the only base16 text of its bytes, up to case.
   */
  lemma {:induction false} EncodeDecode(s: string)
    requires HexDecode(s).Some?
    ensures HexEncode(HexDecode(s).value) == Lower(s)
  {
    if |s| > 0 {
      var hi, lo := DigitValue(s[0]).value, DigitValue(s[1]).value;
      var rest := HexDecode(s[2..]).value;
      EncodeDecode(s[2..]);
      var v := hi * 16 + lo;
      NibbleSplit(hi, lo);
      DigitOfValue(s[0]);
      DigitOfValue(s[1]);
      var b := HexDecode(s).value;
      assert b == [v] + rest;
      assert b[0] == v && b[1..] == rest;
      assert HexEncode(b) == [Digit(hi), Digit(lo)] + HexEncode(rest);
      assert s[1..][1..] == s[2..];
      assert Lower(s) == [LowerChar(s[0]), LowerChar(s[1])] + Lower(s[2..]);
    }
  }
}
