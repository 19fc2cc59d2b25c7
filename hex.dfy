/**
 * The hex encoding step of the content hash: every digest byte is written as
 * `b.toString(16).padStart(2, '0')` and the pieces are joined. A decoder is
 * given as the partner of the encoder.
 */
module HexEncoding {
  import opened Wrappers

  type Byte = b: int | 0 <= b < 256

  type Nibble = d: int | 0 <= d < 16

  /** Lower-case hexadecimal digit characters: [0-9a-f]. */
  predicate IsHexDigit(c: char)
  {
    '0' <= c <= '9' || 'a' <= c <= 'f'
  }

  /** The digit that `Number.prototype.toString(16)` writes for a value below 16. */
  function Digit(d: Nibble): (c: char)
    ensures IsHexDigit(c)
  {
    if d < 10 then ('0' as int + d) as char else ('a' as int + (d - 10)) as char
  }

  /** The value of a lower-case hex digit; upper case and other characters have none. */
  function DigitValue(c: char): (r: Option<Nibble>)
    ensures r.Some? <==> IsHexDigit(c)
  {
    if '0' <= c <= '9' then Some(c as int - '0' as int)
    else if 'a' <= c <= 'f' then Some(c as int - 'a' as int + 10)
    else None
  }

  lemma DigitInverse(d: Nibble)
    ensures DigitValue(Digit(d)) == Some(d)
  {
  }

  lemma DigitValueInverse(c: char)
    requires IsHexDigit(c)
    ensures DigitValue(c).Some? && Digit(DigitValue(c).value) == c
  {
  }

  /** `n.toString(16)` for a non-negative integer: base-16 numeral without leading zeros. */
  function ToBase16(n: nat): (s: string)
    ensures 1 <= |s|
    ensures n < 16 <==> |s| == 1
    ensures 16 <= n < 256 ==> |s| == 2
    ensures forall k :: 0 <= k < |s| ==> IsHexDigit(s[k])
    decreases n
  {
    if n < 16 then [Digit(n)] else ToBase16(n / 16) + [Digit(n % 16)]
  }

  /** `s.padStart(width, fill)` with a one-character fill string. */
  function PadStart(s: string, width: nat, fill: char): (r: string)
    ensures |s| >= width ==> r == s
    ensures |s| < width ==> |r| == width && r[width - |s|..] == s
    ensures forall k :: 0 <= k < |r| - |s| ==> r[k] == fill
  {
    if |s| >= width then s else seq(width - |s|, _ => fill) + s
  }

  /** One byte as it appears in the hash: `b.toString(16).padStart(2, '0')`. */
  function ByteToHex(b: Byte): (s: string)
    ensures |s| == 2 && IsHexDigit(s[0]) && IsHexDigit(s[1])
  {
    PadStart(ToBase16(b), 2, '0')
  }

  /** The map/padStart/join chain writes exactly two digits per byte, high nibble first, so a byte below 16 gets a leading zero. */
  lemma ByteToHexDigits(b: Byte)
    ensures ByteToHex(b) == [Digit(b / 16), Digit(b % 16)]
    ensures b < 16 ==> ByteToHex(b)[0] == '0'
  {
    if b < 16 {
      assert ToBase16(b) == [Digit(b)];
      assert Digit(0) == '0';
    } else {
      assert ToBase16(b / 16) == [Digit(b / 16)];
    }
  }

  /** `.map(ByteToHex).join('')`. */
  function Hex(bytes: seq<Byte>): (s: string)
    ensures |s| == 2 * |bytes|
  {
    if bytes == [] then "" else ByteToHex(bytes[0]) + Hex(bytes[1..])
  }

  /** Decoder: pairs of lower-case hex digits back to bytes; odd length or any other character fails. */
  function FromHex(s: string): Option<seq<Byte>>
    decreases |s|
  {
    if |s| == 0 then Some([])
    else if |s| == 1 then None
    else
      match (DigitValue(s[0]), DigitValue(s[1]), FromHex(s[2..]))
      case (Some(hi), Some(lo), Some(rest)) => Some([16 * (hi as int) + lo] + rest)
      case _ => None
  }

  /** Unfolding one step of the join: the first byte's two digits, then the rest. */
  lemma HexCons(bytes: seq<Byte>)
    requires bytes != []
    ensures Hex(bytes) == [Digit(bytes[0] / 16), Digit(bytes[0] % 16)] + Hex(bytes[1..])
  {
    ByteToHexDigits(bytes[0]);
  }

  /** Characters k and k+1 of `h` are the two digits of `b`. */
  predicate DigitsAt(h: string, k: nat, b: Byte)
  {
    k + 1 < |h| && h[k] == Digit(b / 16) && h[k + 1] == Digit(b % 16)
  }

  /** Byte i of the input sits at characters 2i and 2i+1 of the encoding. */
  lemma {:induction false} HexAt(bytes: seq<Byte>, i: nat)
    requires i < |bytes|
    ensures DigitsAt(Hex(bytes), 2 * i, bytes[i])
  {
    HexCons(bytes);
    if i > 0 {
      var tail := bytes[1..];
      HexAt(tail, i - 1);
      var t := Hex(tail);
      var h := [Digit(bytes[0] / 16), Digit(bytes[0] % 16)] + t;
      assert h[2 * i] == t[2 * (i - 1)];
      assert h[2 * i + 1] == t[2 * (i - 1) + 1];
      assert bytes[i] == tail[i - 1];
    }
  }

  /** Length 2n, and byte i sits at characters 2i and 2i+1. */
  lemma HexLayout(bytes: seq<Byte>)
    ensures |Hex(bytes)| == 2 * |bytes|
    ensures forall i :: 0 <= i < |bytes| ==> DigitsAt(Hex(bytes), 2 * i, bytes[i])
  {
    forall i | 0 <= i < |bytes|
      ensures DigitsAt(Hex(bytes), 2 * i, bytes[i])
    {
      HexAt(bytes, i);
    }
  }

  /** Every character of the encoding is in [0-9a-f]. */
  lemma {:induction false} HexAlphabet(bytes: seq<Byte>)
    ensures forall k :: 0 <= k < |Hex(bytes)| ==> IsHexDigit(Hex(bytes)[k])
  {
    if bytes != [] {
      HexAlphabet(bytes[1..]);
      ByteToHexDigits(bytes[0]);
    }
  }

  /** Decoding the encoding gives the bytes back. */
  lemma {:induction false} HexRoundTrip(bytes: seq<Byte>)
    ensures FromHex(Hex(bytes)) == Some(bytes)
  {
    if bytes != [] {
      var b := bytes[0];
      HexRoundTrip(bytes[1..]);
      ByteToHexDigits(b);
      DigitInverse(b / 16);
      DigitInverse(b % 16);
      var h := Hex(bytes);
      assert h[0] == Digit(b / 16) && h[1] == Digit(b % 16);
      assert h[2..] == Hex(bytes[1..]);
      assert [b] + bytes[1..] == bytes;
    }
  }

  /** The only string that decodes to some bytes is their encoding. */
  lemma {:induction false} HexCanonical(s: string, bytes: seq<Byte>)
    requires FromHex(s) == Some(bytes)
    ensures Hex(bytes) == s
    decreases |s|
  {
    if |s| != 0 {
      var hi, lo := DigitValue(s[0]).value, DigitValue(s[1]).value;
      var rest := FromHex(s[2..]).value;
      assert bytes == [16 * (hi as int) + lo] + rest;
      HexCanonical(s[2..], rest);
      DigitValueInverse(s[0]);
      DigitValueInverse(s[1]);
      var b: Byte := 16 * (hi as int) + lo;
      assert b / 16 == hi && b % 16 == lo;
      ByteToHexDigits(b);
      assert bytes[1..] == rest;
      assert s == [s[0], s[1]] + s[2..];
    }
  }

  /** Distinct byte strings have distinct encodings. */
  lemma HexInjective(a: seq<Byte>, b: seq<Byte>)
    requires Hex(a) == Hex(b)
    ensures a == b
  {
    HexRoundTrip(a);
    HexRoundTrip(b);
  }
}
