/** Hexadecimal encoding of bytes as index.js writes it: each byte goes through
    `b.toString(16).padStart(2, '0')` and the pieces are joined. Decoding reads
    the digits back two at a time, in either case, so that it also inverts the
    upper-cased segment that ends up in the key. */
module Hex {
  import opened Ascii
  import opened Results

  /** One element of a `Uint8Array`. */
  type Byte = b: int | 0 <= b < 256

  /** The digit `Number.prototype.toString(16)` uses for a value below 16. */
  function Digit(n: nat): (c: char)
    requires n < 16
    ensures IsLowerHexDigit(c)
  {
    if n < 10 then ('0' as int + n) as char else ('a' as int + (n - 10)) as char
  }

  /** The value of a hexadecimal digit of either case; `None` for any other character. */
  function DigitValue(c: char): (r: Option<nat>)
    ensures r.Some? <==> IsHexDigit(c)
    ensures r.Some? ==> r.value < 16
  {
    if '0' <= c <= '9' then Some(c as int - '0' as int)
    else if 'a' <= c <= 'f' then Some(c as int - 'a' as int + 10)
    else if 'A' <= c <= 'F' then Some(c as int - 'A' as int + 10)
    else None
  }

  /** Every digit is read back as the value it was written for, in either case. */
  lemma DigitRoundTrip(n: nat)
    requires n < 16
    ensures DigitValue(Digit(n)) == Some(n)
    ensures DigitValue(UpperChar(Digit(n))) == Some(n)
    ensures IsUpperHexDigit(UpperChar(Digit(n)))
  {
  }

  /** A digit read as `n` upper-cases to the upper-cased digit written for `n`. */
  lemma DigitValueUpper(c: char, n: nat)
    requires DigitValue(c) == Some(n)
    ensures n < 16 && UpperChar(c) == UpperChar(Digit(n))
  {
  }

  /** The number a base-16 numeral denotes, most significant digit first. */
  function HexValue(s: string): nat
    requires AllHex(s)
    decreases |s|
  {
    if s == [] then 0
    else HexValue(s[..|s| - 1]) * 16 + DigitValue(s[|s| - 1]).value
  }

  /** `n.toString(16)` for a non-negative integer: the shortest base-16 numeral
      that denotes `n`, most significant digit first, in lower case. */
  function ToHexString(n: nat): (s: string)
    ensures 1 <= |s|
    ensures forall i :: 0 <= i < |s| ==> IsLowerHexDigit(s[i])
    ensures HexValue(s) == n
    ensures |s| > 1 ==> s[0] != '0'
    ensures n < 16 <==> |s| == 1
    decreases n
  {
    if n < 16 then
      DigitRoundTrip(n);
      assert [Digit(n)][..0] == [];
      [Digit(n)]
    else
      var high := ToHexString(n / 16);
      var s := high + [Digit(n % 16)];
      assert s[..|s| - 1] == high;
      DigitRoundTrip(n % 16);
      s
  }

  /** `s.padStart(width, fill)` with a one-character fill string. */
  function PadStart(s: string, width: nat, fill: char): (r: string)
    ensures |s| >= width ==> r == s
    ensures |s| < width ==> |r| == width
    ensures r[|r| - |s|..] == s
    ensures forall i :: 0 <= i < |r| - |s| ==> r[i] == fill
  {
    if |s| >= width then s else seq(width - |s|, _ => fill) + s
  }

  /** `b.toString(16).padStart(2, '0')` for one byte (index.js:36). */
  function ByteToHex(b: Byte): (r: string)
    ensures r == [Digit(b / 16), Digit(b % 16)]
  {
    var digits := ToHexString(b);
    if b < 16 then
      assert digits == [Digit(b)];
      PadStart(digits, 2, '0')
    else
      assert digits == ToHexString(b / 16) + [Digit(b % 16)];
      assert ToHexString(b / 16) == [Digit(b / 16)];
      PadStart(digits, 2, '0')
  }

  /** The bytes mapped through `ByteToHex` and joined with `''` (index.js:35-37). */
  function EncodeHex(bs: seq<Byte>): (r: string)
    ensures |r| == 2 * |bs|
    ensures forall i :: 0 <= i < |r| ==> IsLowerHexDigit(r[i])
  {
    if bs == [] then [] else ByteToHex(bs[0]) + EncodeHex(bs[1..])
  }

  /** Reads a string two digits at a time, high nibble first; `None` when the
      length is odd or a character is not a hexadecimal digit. */
  function DecodeHex(s: string): (r: Option<seq<Byte>>)
    ensures r.Some? ==> |s| == 2 * |r.value|
    ensures r.Some? ==> AllHex(s)
    decreases |s|
  {
    if |s| == 0 then Some([])
    else if |s| == 1 then None
    else
      match (DigitValue(s[0]), DigitValue(s[1]), DecodeHex(s[2..]))
      case (Some(hi), Some(lo), Some(rest)) =>
        assert forall i :: 2 <= i < |s| ==> s[i] == s[2..][i - 2];
        Some([hi * 16 + lo] + rest)
      case _ => None
  }

  /** Encoding a byte then a sequence is the same as encoding them together. */
  lemma EncodeHexCons(b: Byte, bs: seq<Byte>)
    ensures EncodeHex([b] + bs) == [Digit(b / 16), Digit(b % 16)] + EncodeHex(bs)
  {
  }

  /** A byte is its high nibble times 16 plus its low nibble. */
  lemma NibbleSplit(b: Byte)
    ensures b / 16 < 16 && b % 16 < 16
    ensures (b / 16) * 16 + b % 16 == b
  {
  }

  /** Two nibbles joined into a byte split back into the same nibbles. */
  lemma NibbleJoin(hi: nat, lo: nat)
    requires hi < 16 && lo < 16
    ensures 0 <= hi * 16 + lo < 256
    ensures (hi * 16 + lo) / 16 == hi && (hi * 16 + lo) % 16 == lo
  {
  }

  /** A string of two or more characters is its first two characters followed by the rest. */
  lemma SplitTwo(s: string)
    requires |s| >= 2
    ensures s == [s[0], s[1]] + s[2..]
  {
  }

  /** Unfolds one step of `DecodeHex` on a string that starts with two digits. */
  lemma DecodeHexStep(c0: char, c1: char, rest: string, tail: seq<Byte>, b: Byte)
    requires DigitValue(c0).Some? && DigitValue(c1).Some?
    requires b == DigitValue(c0).value * 16 + DigitValue(c1).value
    requires DecodeHex(rest) == Some(tail)
    ensures DecodeHex([c0, c1] + rest) == Some([b] + tail)
  {
  }

  /** Reading the encoding back recovers the bytes. */
  lemma {:induction false} DecodeEncode(bs: seq<Byte>)
    ensures DecodeHex(EncodeHex(bs)) == Some(bs)
  {
    if bs != [] {
      var b, tail := bs[0], bs[1..];
      assert bs == [b] + tail;
      EncodeHexCons(b, tail);
      NibbleSplit(b);
      DigitRoundTrip(b / 16);
      DigitRoundTrip(b % 16);
      DecodeEncode(tail);
      DecodeHexStep(Digit(b / 16), Digit(b % 16), EncodeHex(tail), tail, b);
    }
  }

  /** Reading the upper-cased encoding back also recovers the bytes: the key
      carries the Base16 form, and it is still invertible. */
  lemma {:induction false} DecodeUpperEncode(bs: seq<Byte>)
    ensures DecodeHex(Upper(EncodeHex(bs))) == Some(bs)
  {
    if bs != [] {
      var b, tail := bs[0], bs[1..];
      assert bs == [b] + tail;
      EncodeHexCons(b, tail);
      var hi, lo := Digit(b / 16), Digit(b % 16);
      UpperConcat([hi, lo], EncodeHex(tail));
      UpperPair(hi, lo);
      NibbleSplit(b);
      DigitRoundTrip(b / 16);
      DigitRoundTrip(b % 16);
      DecodeUpperEncode(tail);
      DecodeHexStep(UpperChar(hi), UpperChar(lo), Upper(EncodeHex(tail)), tail, b);
    }
  }

  /** The converse: whatever string decodes to `bs` is, up to case, the
      encoding of `bs`. Together with `DecodeEncode` this makes the hex segment
      a bijection between byte sequences and case-folded digit strings. */
  lemma {:induction false} EncodeDecode(s: string, bs: seq<Byte>)
    requires DecodeHex(s) == Some(bs)
    ensures Upper(s) == Upper(EncodeHex(bs))
    decreases |s|
  {
    if |s| != 0 {
      var hi := DigitValue(s[0]).value;
      var lo := DigitValue(s[1]).value;
      var tail := DecodeHex(s[2..]).value;
      NibbleJoin(hi, lo);
      var b: Byte := hi * 16 + lo;
      assert bs == [b] + tail;
      EncodeDecode(s[2..], tail);
      DigitValueUpper(s[0], hi);
      DigitValueUpper(s[1], lo);
      calc {
        Upper(s);
        { SplitTwo(s); }
        Upper([s[0], s[1]] + s[2..]);
        { UpperConcat([s[0], s[1]], s[2..]); }
        Upper([s[0], s[1]]) + Upper(s[2..]);
        { UpperPair(s[0], s[1]); UpperPair(Digit(hi), Digit(lo)); }
        Upper([Digit(hi), Digit(lo)]) + Upper(EncodeHex(tail));
        { UpperConcat([Digit(hi), Digit(lo)], EncodeHex(tail)); }
        Upper([Digit(hi), Digit(lo)] + EncodeHex(tail));
        { EncodeHexCons(b, tail); }
        Upper(EncodeHex(bs));
      }
    }
  }

  /** Bytes that are all zero encode to a run of `'0'` digits, two per byte. */
  lemma {:induction false} EncodeZeros(n: nat)
    ensures EncodeHex(seq(n, _ => 0)) == seq(2 * n, _ => '0')
  {
    if n > 0 {
      var zs: seq<Byte> := seq(n, _ => 0);
      assert zs == [0] + seq(n - 1, _ => 0);
      EncodeHexCons(0, seq(n - 1, _ => 0));
      EncodeZeros(n - 1);
      assert seq(2 * n, _ => '0') == ['0', '0'] + seq(2 * (n - 1), _ => '0');
    }
  }
}
