/** Go's integer-to-string conversion `string(i)` for an `int64` operand.

    The conversion does NOT format the number in decimal: it yields the UTF-8
    encoding of the single Unicode code point `i`, and the encoding of U+FFFD
    (the replacement character) when `i` is not a valid code point, that is when
    it is negative, a surrogate (0xD800..0xDFFF) or above 0x10FFFF.

    A Go string is a byte sequence; this model keeps property values as Dafny
    strings (sequences of Unicode scalar values), in which the result is exactly
    one character. `EncodeRune` gives the bytes Go actually produces for that
    character, and `DecodeRune` reads them back. */
module GoRunes {
  import opened Wrappers

  newtype int64 = x: int | -0x8000_0000_0000_0000 <= x < 0x8000_0000_0000_0000

  newtype byte = x: int | 0 <= x < 0x100

  /** U+FFFD, what Go substitutes for an integer that is not a code point. */
  const ReplacementChar: char := '\U{FFFD}'

  /** The integers that are Unicode scalar values (code points minus surrogates). */
  predicate IsScalarValue(v: int) {
    0 <= v < 0xD800 || 0xE000 <= v < 0x11_0000
  }

  /** `string(v)` for `v` of type int64: a one-character string. */
  function RuneString(v: int64): (s: string)
    ensures |s| == 1
    ensures IsScalarValue(s[0] as int)
    ensures s[0] as int == v as int || (s[0] == ReplacementChar && !IsScalarValue(v as int))
  {
    if IsScalarValue(v as int) then [(v as int) as char] else [ReplacementChar]
  }

  /** The value a one-character string stands for, the inverse of `RuneString`
      on scalar values. */
  function RuneValue(s: string): (v: Option<int>)
    ensures v.Some? ==> IsScalarValue(v.value)
  {
    if |s| == 1 then Some(s[0] as int) else None
  }

  /** `RuneString` keeps every scalar value and only those: the value comes back
      exactly when it is a code point, and every other int64 collapses onto U+FFFD. */
  lemma RuneStringInverse(v: int64)
    ensures RuneValue(RuneString(v)) == Some(v as int) <==> IsScalarValue(v as int)
    ensures !IsScalarValue(v as int) ==> RuneString(v) == [ReplacementChar]
  {
  }

  /** Distinct code points give distinct property strings, while every int64
      that is not a code point gives the same one as U+FFFD itself. */
  lemma RuneStringCollision(a: int64, b: int64)
    ensures IsScalarValue(a as int) && IsScalarValue(b as int) ==> (RuneString(a) == RuneString(b) <==> a == b)
    ensures !IsScalarValue(a as int) ==> RuneString(a) == RuneString(0xFFFD)
  {
  }

  /** Every byte count beyond the last code point, 0x10FFFF (so every size
      from about 1 MiB up, 1Gi and 2Gi included), becomes U+FFFD: the property
      no longer tells such sizes apart. */
  lemma LargeSizesCollapse(v: int64)
    requires v as int >= 0x11_0000
    ensures RuneString(v) == [ReplacementChar]
  {
  }

  predicate IsContinuation(b: byte) {
    0x80 <= b < 0xC0
  }

  /** The UTF-8 encoding of one scalar value, as Go's utf8.EncodeRune writes it:
      one to four bytes, the leading byte telling the length. */
  function EncodeRune(c: char): (bs: seq<byte>)
    ensures 1 <= |bs| <= 4
    ensures |bs| == 1 <==> c as int < 0x80
    ensures forall i | 1 <= i < |bs| :: IsContinuation(bs[i])
  {
    var v := c as int;
    if v < 0x80 then
      [v as byte]
    else if v < 0x800 then
      [(0xC0 + v / 64) as byte, (0x80 + v % 64) as byte]
    else if v < 0x1_0000 then
      [(0xE0 + v / 4096) as byte, (0x80 + (v / 64) % 64) as byte, (0x80 + v % 64) as byte]
    else
      [(0xF0 + v / 262144) as byte, (0x80 + (v / 4096) % 64) as byte,
       (0x80 + (v / 64) % 64) as byte, (0x80 + v % 64) as byte]
  }

  /** Reads a byte sequence that holds exactly one well-formed UTF-8 encoding
      (shortest form, no surrogate, at most U+10FFFF); anything else is None. */
  function DecodeRune(bs: seq<byte>): (c: Option<char>)
  {
    if |bs| == 1 && bs[0] < 0x80 then
      Some((bs[0] as int) as char)
    else if |bs| == 2 && 0xC2 <= bs[0] < 0xE0 && IsContinuation(bs[1]) then
      Some(((bs[0] as int - 0xC0) * 64 + (bs[1] as int - 0x80)) as char)
    else if |bs| == 3 && 0xE0 <= bs[0] < 0xF0 && IsContinuation(bs[1]) && IsContinuation(bs[2]) then
      var v := (bs[0] as int - 0xE0) * 4096 + (bs[1] as int - 0x80) * 64 + (bs[2] as int - 0x80);
      if 0x800 <= v && IsScalarValue(v) then Some(v as char) else None
    else if |bs| == 4 && 0xF0 <= bs[0] < 0xF5 && IsContinuation(bs[1]) && IsContinuation(bs[2])
            && IsContinuation(bs[3]) then
      var v := (bs[0] as int - 0xF0) * 262144 + (bs[1] as int - 0x80) * 4096
               + (bs[2] as int - 0x80) * 64 + (bs[3] as int - 0x80);
      if 0x1_0000 <= v < 0x11_0000 then Some(v as char) else None
    else
      None
  }

  /** Decoding what EncodeRune wrote gives the character back. */
  lemma DecodeEncodeRune(c: char)
    ensures DecodeRune(EncodeRune(c)) == Some(c)
  {
    var v := c as int;
    var bs := EncodeRune(c);
    assert v / 4096 == (v / 64) / 64;
    assert v / 262144 == (v / 4096) / 64;
    if v < 0x80 {
    } else if v < 0x800 {
      assert (bs[0] as int - 0xC0) * 64 + (bs[1] as int - 0x80) == v;
    } else if v < 0x1_0000 {
      assert (bs[0] as int - 0xE0) * 4096 + (bs[1] as int - 0x80) * 64 + (bs[2] as int - 0x80) == v;
    } else {
      assert (bs[0] as int - 0xF0) * 262144 + (bs[1] as int - 0x80) * 4096
             + (bs[2] as int - 0x80) * 64 + (bs[3] as int - 0x80) == v;
    }
  }

  /** The bytes of a Go string holding the characters of `s`: their UTF-8
      encodings one after the other, between one and four bytes per character. */
  function GoBytes(s: string): (bs: seq<byte>)
    ensures |s| <= |bs| <= 4 * |s|
  {
    if s == [] then [] else EncodeRune(s[0]) + GoBytes(s[1..])
  }

  /** Concatenating Go strings concatenates their bytes. */
  lemma {:induction false} GoBytesConcat(a: string, b: string)
    ensures GoBytes(a + b) == GoBytes(a) + GoBytes(b)
  {
    if a != [] {
      assert (a + b)[0] == a[0];
      assert (a + b)[1..] == a[1..] + b;
      GoBytesConcat(a[1..], b);
      calc {
        GoBytes(a + b);
        EncodeRune(a[0]) + GoBytes(a[1..] + b);
        EncodeRune(a[0]) + (GoBytes(a[1..]) + GoBytes(b));
        GoBytes(a) + GoBytes(b);
      }
    } else {
      assert a + b == b;
    }
  }

  /** The bytes Go stores for `string(v)`: one UTF-8 character of one to four
      bytes, which decodes to v when v is a code point and to U+FFFD otherwise. */
  lemma RuneStringBytes(v: int64)
    ensures var bs := GoBytes(RuneString(v));
      && 1 <= |bs| <= 4
      && DecodeRune(bs) == Some(if IsScalarValue(v as int) then (v as int) as char else ReplacementChar)
  {
    var s := RuneString(v);
    assert GoBytes(s) == EncodeRune(s[0]) + GoBytes(s[1..]);
    assert s[1..] == [];
    DecodeEncodeRune(s[0]);
  }
}
