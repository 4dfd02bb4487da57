/**
 * Go's conversion `[]byte(v)` of a string: the bytes of its UTF-8 encoding.
 * Strings are sequences of Unicode scalar values here, so the conversion is
 * the UTF-8 encoder; the decoder is its inverse on encoder output.
 */
module Utf8 {
  import opened Wrappers

  newtype byte = x: int | 0 <= x < 256

  type Bytes = seq<byte>

  /** Code points a `char` can hold: every Unicode scalar value. */
  predicate IsScalar(n: int)
  {
    0 <= n < 0xD800 || 0xE000 <= n < 0x11_0000
  }

  /** The UTF-8 encoding of one scalar value, with its sequence length. */
  function EncodeChar(c: char): (r: Bytes)
    ensures |r| == EncodedLength(c as int)
    ensures SequenceLength(r[0]) == |r|
    ensures forall i :: 1 <= i < |r| ==> IsContinuation(r[i])
  {
    var n := c as int;
    if n < 0x80 then
      [n as byte]
    else if n < 0x800 then
      [(0xC0 + n / 64) as byte, (0x80 + n % 64) as byte]
    else if n < 0x1_0000 then
      [(0xE0 + n / 64 / 64) as byte, (0x80 + n / 64 % 64) as byte, (0x80 + n % 64) as byte]
    else
      [(0xF0 + n / 64 / 64 / 64) as byte, (0x80 + n / 64 / 64 % 64) as byte,
       (0x80 + n / 64 % 64) as byte, (0x80 + n % 64) as byte]
  }

  function EncodedLength(n: int): nat
  {
    if n < 0x80 then 1 else if n < 0x800 then 2 else if n < 0x1_0000 then 3 else 4
  }

  /** The length a leading byte announces, or 0 for a byte that cannot lead. */
  function SequenceLength(b: byte): nat
  {
    if b < 0x80 then 1
    else if b < 0xC0 then 0
    else if b < 0xE0 then 2
    else if b < 0xF0 then 3
    else if b < 0xF8 then 4
    else 0
  }

  predicate IsContinuation(b: byte)
  {
    0x80 <= b < 0xC0
  }

  /** The code point carried by one complete sequence. */
  function CodePoint(s: Bytes): int
    requires 1 <= |s| <= 4
  {
    if |s| == 1 then s[0] as int
    else if |s| == 2 then (s[0] as int - 0xC0) * 64 + (s[1] as int - 0x80)
    else if |s| == 3 then ((s[0] as int - 0xE0) * 64 + (s[1] as int - 0x80)) * 64 + (s[2] as int - 0x80)
    else (((s[0] as int - 0xF0) * 64 + (s[1] as int - 0x80)) * 64
          + (s[2] as int - 0x80)) * 64 + (s[3] as int - 0x80)
  }

  /** Go's `[]byte(v)`. */
  function Encode(s: string): (r: Bytes)
    ensures |r| >= |s|
  {
    if s == [] then [] else EncodeChar(s[0]) + Encode(s[1..])
  }

  /** Reads the bytes back as a string, or None when they are not well formed. */
  function Decode(b: Bytes): Option<string>
    decreases |b|
  {
    if b == [] then Some([])
    else
      var len := SequenceLength(b[0]);
      if len == 0 || |b| < len then None
      else if exists i :: 1 <= i < len && !IsContinuation(b[i]) then None
      else
        var n := CodePoint(b[..len]);
        if !IsScalar(n) then None
        else match Decode(b[len..])
          case None => None
          case Some(rest) => Some([n as char] + rest)
  }

  lemma CodePointOfEncodeChar(c: char)
    ensures CodePoint(EncodeChar(c)) == c as int
  {
    var n := c as int;
    DivMod64(n);
    DivMod64(n / 64);
    DivMod64(n / 64 / 64);
  }

  lemma DivMod64(x: int)
    requires x >= 0
    ensures x == x / 64 * 64 + x % 64
  {
  }

  lemma {:induction false} DecodeEncode(s: string)
    ensures Decode(Encode(s)) == Some(s)
  {
    if s != [] {
      var head, tail := EncodeChar(s[0]), Encode(s[1..]);
      var b := head + tail;
      assert Encode(s) == b;
      CodePointOfEncodeChar(s[0]);
      assert b[..|head|] == head;
      assert b[|head|..] == tail;
      assert forall i :: 1 <= i < |head| ==> b[i] == head[i];
      DecodeEncode(s[1..]);
      assert [s[0]] + s[1..] == s;
    }
  }
}
