/**
 * UTF-8 as a Node.js Buffer writes and reads a string: each character
 * (a Unicode scalar value) becomes one to four bytes; reading decodes
 * well-formed sequences and replaces each byte that does not start one
 * with U+FFFD.
 */
module Utf8 {
  import opened Base64

  predicate IsContinuation(b: byte) {
    0x80 <= b < 0xC0
  }

  /** The bytes of one character. */
  function EncodeChar(c: char): (b: seq<byte>)
    ensures 1 <= |b| <= 4
  {
    var n := c as int;
    if n < 0x80 then [n]
    else if n < 0x800 then [0xC0 + n / 64, 0x80 + n % 64]
    else if n < 0x10000 then [0xE0 + n / 4096, 0x80 + n % 4096 / 64, 0x80 + n % 4096 % 64]
    else [0xF0 + n / 262144, 0x80 + n % 262144 / 4096, 0x80 + n % 262144 % 4096 / 64, 0x80 + n % 262144 % 4096 % 64]
  }

  /** `Buffer.from(s)`: the characters' bytes, in order. */
  function Encode(s: string): (b: seq<byte>)
    ensures |b| >= |s|
    decreases |s|
  {
    if |s| == 0 then [] else EncodeChar(s[0]) + Encode(s[1..])
  }

  /** A code point that is a character: not a surrogate and at most U+10FFFF. */
  predicate IsScalar(n: int) {
    (0 <= n < 0xD800) || (0xE000 <= n < 0x110000)
  }

  const Replacement: char := '\U{FFFD}'

  /** The six payload bits of a continuation byte. */
  function Bits(b: byte): int {
    b as int - 0x80
  }

  function Two(b0: byte, b1: byte): int {
    (b0 as int - 0xC0) * 64 + Bits(b1)
  }

  function Three(b0: byte, b1: byte, b2: byte): int {
    (b0 as int - 0xE0) * 4096 + Bits(b1) * 64 + Bits(b2)
  }

  function Four(b0: byte, b1: byte, b2: byte, b3: byte): int {
    (b0 as int - 0xF0) * 262144 + Bits(b1) * 4096 + Bits(b2) * 64 + Bits(b3)
  }

  /**
   * The character at the start of `b` and how many bytes it takes: a
   * well-formed, shortest-form sequence, or U+FFFD for one byte.
   */
  function DecodeFirst(b: seq<byte>): (r: (char, nat))
    requires |b| > 0
    ensures 1 <= r.1 <= |b|
  {
    var b0 := b[0];
    if b0 < 0x80 then (b0 as char, 1)
    else if 0xC0 <= b0 < 0xE0 && |b| >= 2 && IsContinuation(b[1]) && Two(b0, b[1]) >= 0x80 then
      (Two(b0, b[1]) as char, 2)
    else if 0xE0 <= b0 < 0xF0 && |b| >= 3 && IsContinuation(b[1]) && IsContinuation(b[2])
      && Three(b0, b[1], b[2]) >= 0x800 && IsScalar(Three(b0, b[1], b[2])) then
      (Three(b0, b[1], b[2]) as char, 3)
    else if 0xF0 <= b0 < 0xF8 && |b| >= 4 && IsContinuation(b[1]) && IsContinuation(b[2]) && IsContinuation(b[3])
      && Four(b0, b[1], b[2], b[3]) >= 0x10000 && IsScalar(Four(b0, b[1], b[2], b[3])) then
      (Four(b0, b[1], b[2], b[3]) as char, 4)
    else (Replacement, 1)
  }

  /** `buffer.toString("utf-8")` */
  function Decode(b: seq<byte>): string
    decreases |b|
  {
    if |b| == 0 then ""
    else
      var (c, k) := DecodeFirst(b);
      [c] + Decode(b[k..])
  }

  /** One character's bytes, followed by anything, read back as that character. */
  lemma DecodeFirstOfEncodeChar(c: char, rest: seq<byte>)
    ensures DecodeFirst(EncodeChar(c) + rest) == (c, |EncodeChar(c)|)
  {
    var n := c as int;
    var e := EncodeChar(c);
    var b := e + rest;
    assert b[..|e|] == e;
    if n < 0x80 {
    } else if n < 0x800 {
      assert Two(e[0], e[1]) == n;
    } else if n < 0x10000 {
      assert Three(e[0], e[1], e[2]) == n;
    } else {
      assert Four(e[0], e[1], e[2], e[3]) == n;
    }
  }

  /** Reading what was written gives back the string. */
  lemma {:induction false} DecodeEncode(s: string)
    ensures Decode(Encode(s)) == s
    decreases |s|
  {
    if |s| > 0 {
      var b := Encode(s);
      DecodeFirstOfEncodeChar(s[0], Encode(s[1..]));
      assert b[|EncodeChar(s[0])|..] == Encode(s[1..]);
      DecodeEncode(s[1..]);
    }
  }

  lemma {:induction false} EncodeConcat(a: string, b: string)
    ensures Encode(a + b) == Encode(a) + Encode(b)
    decreases |a|
  {
    if |a| > 0 {
      assert (a + b)[1..] == a[1..] + b;
      EncodeConcat(a[1..], b);
    } else {
      assert a + b == b;
    }
  }
}
