/**
 * UTF-8, the encoding Rust's `str::as_bytes` exposes: one to four bytes per
 * Unicode scalar value, the lead byte marking the length.
 */
module Utf8 {
  type Byte = bv8

  /** The number of bytes of a character in UTF-8. */
  function Width(c: char): (n: nat)
    ensures 1 <= n <= 4
  {
    if c as int < 0x80 then 1 else if c as int < 0x800 then 2 else if c as int < 0x1_0000 then 3 else 4
  }

  /** The byte values of a character's encoding, as numbers. */
  function Units(c: char): (r: seq<nat>)
    ensures |r| == Width(c) && forall k :: 0 <= k < |r| ==> r[k] < 256
  {
    var n := c as int;
    if n < 0x80 then [n]
    else if n < 0x800 then [0xC0 + n / 64, 0x80 + n % 64]
    else if n < 0x1_0000 then [0xE0 + n / 4096, 0x80 + (n / 64) % 64, 0x80 + n % 64]
    else [0xF0 + n / 262144, 0x80 + (n / 4096) % 64, 0x80 + (n / 64) % 64, 0x80 + n % 64]
  }

  function Encode(c: char): (r: seq<Byte>)
    ensures |r| == Width(c)
  {
    var u := Units(c);
    seq(|u|, k requires 0 <= k < |u| => u[k] as Byte)
  }

  /** The lead byte tells how many bytes follow, as section 3 of RFC 3629 lays out. */
  lemma LeadByteMarksWidth(c: char)
    ensures Width(c) == 1 <==> Units(c)[0] < 0x80
    ensures Width(c) == 2 <==> 0xC0 <= Units(c)[0] < 0xE0
    ensures Width(c) == 3 <==> 0xE0 <= Units(c)[0] < 0xF0
    ensures Width(c) == 4 <==> 0xF0 <= Units(c)[0] < 0xF8
  {
  }

  /** Every byte after the lead byte is a continuation byte 10xxxxxx. */
  lemma ContinuationBytes(c: char)
    ensures forall k :: 1 <= k < |Units(c)| ==> 0x80 <= Units(c)[k] < 0xC0
  {
  }

  function EncodeString(s: string): (r: seq<Byte>)
    ensures |r| >= |s|
  {
    if s == [] then [] else EncodeString(s[..|s| - 1]) + Encode(s[|s| - 1])
  }

  /** `str::len`: the length of the text in UTF-8 bytes. */
  function ByteLen(s: string): (n: nat)
    ensures |s| <= n <= 4 * |s|
  {
    if s == [] then 0 else ByteLen(s[..|s| - 1]) + Width(s[|s| - 1])
  }

  lemma {:induction false} EncodedLength(s: string)
    ensures |EncodeString(s)| == ByteLen(s)
    decreases |s|
  {
    if s != [] {
      EncodedLength(s[..|s| - 1]);
    }
  }

  /** ASCII text takes one byte per character. */
  lemma {:induction false} AsciiLen(s: string)
    requires forall k :: 0 <= k < |s| ==> s[k] as int < 0x80
    ensures ByteLen(s) == |s|
    decreases |s|
  {
    if s != [] {
      AsciiLen(s[..|s| - 1]);
    }
  }

  lemma {:induction false} EncodeAppend(a: string, b: string)
    ensures EncodeString(a + b) == EncodeString(a) + EncodeString(b)
    decreases |b|
  {
    if b == [] {
      assert a + b == a;
    } else {
      var b0 := b[..|b| - 1];
      assert (a + b)[..|a + b| - 1] == a + b0;
      EncodeAppend(a, b0);
    }
  }

  /** U+FEFF, the byte order mark, is EF BB BF. */
  lemma ByteOrderMark()
    ensures Units('\U{FEFF}') == [0xEF, 0xBB, 0xBF]
    ensures Encode('\U{FEFF}') == [0xEF, 0xBB, 0xBF]
  {
  }
}
