/**
 * Byte sequences and the UTF-8 encoding `new Buffer(string)` applies to the
 * strings the engine writes to the wire.
 */
module Bytes {

  newtype byte = x: int | 0 <= x < 256

  predicate IsAscii(s: string) {
    forall i :: 0 <= i < |s| ==> s[i] as int < 128
  }

  /** The UTF-8 encoding of one Unicode scalar value. */
  function EncodeChar(c: char): (b: seq<byte>)
    ensures 1 <= |b| <= 4
    ensures c as int < 128 ==> b == [c as int as byte]
    ensures c as int >= 128 ==> b[0] >= 0xC0
  {
    var n := c as int;
    if n < 0x80 then [n as byte]
    else if n < 0x800 then [(0xC0 + n / 0x40) as byte, (0x80 + n % 0x40) as byte]
    else if n < 0x1_0000 then
      [(0xE0 + n / 0x1000) as byte, (0x80 + n / 0x40 % 0x40) as byte, (0x80 + n % 0x40) as byte]
    else
      [(0xF0 + n / 0x4_0000) as byte, (0x80 + n / 0x1000 % 0x40) as byte,
       (0x80 + n / 0x40 % 0x40) as byte, (0x80 + n % 0x40) as byte]
  }

  /** `new Buffer(s)` with Node's default `utf8` encoding. */
  function Utf8(s: string): seq<byte>
  {
    if s == [] then [] else Utf8(s[..|s| - 1]) + EncodeChar(s[|s| - 1])
  }

  /** Encoding distributes over concatenation: appending text appends its bytes. */
  lemma {:induction false} Utf8Append(a: string, b: string)
    ensures Utf8(a + b) == Utf8(a) + Utf8(b)
    decreases |b|
  {
    if b == [] {
      assert a + b == a;
    } else {
      var c := b[|b| - 1];
      assert (a + b)[..|a + b| - 1] == a + b[..|b| - 1] && (a + b)[|a + b| - 1] == c;
      assert Utf8(a + b) == Utf8(a + b[..|b| - 1]) + EncodeChar(c);
      Utf8Append(a, b[..|b| - 1]);
    }
  }

  /** An ASCII string is its own encoding, one byte per character. */
  lemma {:induction false} Utf8Ascii(s: string)
    requires IsAscii(s)
    ensures |Utf8(s)| == |s|
    ensures forall i :: 0 <= i < |s| ==> Utf8(s)[i] as int == s[i] as int
    decreases |s|
  {
    if s != [] {
      Utf8Ascii(s[..|s| - 1]);
    }
  }

  /** The chunks of a stream laid end to end. */
  function Concat(chunks: seq<seq<byte>>): seq<byte>
  {
    if chunks == [] then [] else Concat(chunks[..|chunks| - 1]) + chunks[|chunks| - 1]
  }

  /** The sum of the chunk lengths, as the `size` accumulator counts it. */
  function TotalSize(chunks: seq<seq<byte>>): nat
  {
    if chunks == [] then 0 else TotalSize(chunks[..|chunks| - 1]) + |chunks[|chunks| - 1]|
  }

  lemma {:induction false} ConcatLength(chunks: seq<seq<byte>>)
    ensures |Concat(chunks)| == TotalSize(chunks)
    decreases |chunks|
  {
    if chunks != [] {
      ConcatLength(chunks[..|chunks| - 1]);
    }
  }

  /** The byte at absolute position `pos + j` of the whole comes from chunk `i`. */
  lemma {:induction false} TotalSizePrefix(chunks: seq<seq<byte>>, i: nat)
    requires i < |chunks|
    ensures TotalSize(chunks[..i]) + |chunks[i]| <= TotalSize(chunks)
    ensures TotalSize(chunks[..i + 1]) == TotalSize(chunks[..i]) + |chunks[i]|
    ensures Concat(chunks[..i + 1]) == Concat(chunks[..i]) + chunks[i]
    decreases |chunks|
  {
    assert chunks[..i + 1][..i] == chunks[..i];
    if i + 1 < |chunks| {
      var init := chunks[..|chunks| - 1];
      TotalSizePrefix(init, i);
      assert init[..i] == chunks[..i];
      assert init[..i + 1] == chunks[..i + 1];
    } else {
      assert chunks[..i + 1] == chunks;
    }
  }
}
