/**
 * Base 64 as in section 4 of RFC 4648: every three bytes become four
 * characters of the alphabet A-Z a-z 0-9 + /, a final one or two bytes
 * become two or three characters padded with "=" to four. The decoder is
 * the lenient one a Node.js Buffer uses: it also accepts the URL-safe
 * characters - and _, skips any other character outside the alphabet,
 * stops at the first "=", and drops the bits of an incomplete final group.
 */
module Base64 {
  import opened Wrappers

  type byte = x: int | 0 <= x < 256
  type sextet = x: int | 0 <= x < 64

  /** The character for a 6-bit value. */
  function Symbol(v: sextet): (c: char)
    ensures c != '='
  {
    if v < 26 then ('A' as int + v) as char
    else if v < 52 then ('a' as int + (v - 26)) as char
    else if v < 62 then ('0' as int + (v - 52)) as char
    else if v == 62 then '+'
    else '/'
  }

  /** The 6-bit value of a character of either alphabet, or None for any other character. */
  function Value(c: char): (v: Option<sextet>)
  {
    if 'A' <= c <= 'Z' then Some(c as int - 'A' as int)
    else if 'a' <= c <= 'z' then Some(c as int - 'a' as int + 26)
    else if '0' <= c <= '9' then Some(c as int - '0' as int + 52)
    else if c == '+' || c == '-' then Some(62)
    else if c == '/' || c == '_' then Some(63)
    else None
  }

  lemma ValueOfSymbol(v: sextet)
    ensures Value(Symbol(v)) == Some(v)
  {
  }

  /** The 6-bit values the encoding of `b` writes, before padding. */
  function SextetsOf(b: seq<byte>): (v: seq<sextet>)
    ensures |v| == (|b| / 3) * 4 + (if |b| % 3 == 0 then 0 else |b| % 3 + 1)
    decreases |b|
  {
    if |b| == 0 then []
    else if |b| == 1 then [b[0] / 4, (b[0] % 4) * 16]
    else if |b| == 2 then [b[0] / 4, (b[0] % 4) * 16 + b[1] / 16, (b[1] % 16) * 4]
    else [b[0] / 4, (b[0] % 4) * 16 + b[1] / 16, (b[1] % 16) * 4 + b[2] / 64, b[2] % 64] + SextetsOf(b[3..])
  }

  /** The "=" characters that fill the last group to four characters. */
  function Padding(n: nat): string {
    if n % 3 == 1 then "==" else if n % 3 == 2 then "=" else ""
  }

  function Symbols(v: seq<sextet>): (s: string)
    ensures |s| == |v|
    ensures forall i :: 0 <= i < |v| ==> s[i] == Symbol(v[i])
  {
    seq(|v|, i requires 0 <= i < |v| => Symbol(v[i]))
  }

  /** `Buffer.from(bytes).toString("base64")` */
  function Encode(b: seq<byte>): (s: string)
    ensures |s| % 4 == 0
    ensures |s| == ((|b| + 2) / 3) * 4
  {
    Symbols(SextetsOf(b)) + Padding(|b|)
  }

  /** The 6-bit values a lenient reader takes from `s`: up to the first "=", skipping unknown characters. */
  function Sextets(s: string): (v: seq<sextet>)
    ensures |v| <= |s|
    decreases |s|
  {
    if |s| == 0 || s[0] == '=' then []
    else match Value(s[0])
      case None => Sextets(s[1..])
      case Some(x) => [x] + Sextets(s[1..])
  }

  /** Four 6-bit values make three bytes; a final three make two, a final two make one, a final one none. */
  function Bytes(v: seq<sextet>): (b: seq<byte>)
    decreases |v|
  {
    if |v| < 2 then []
    else
      var v0: int, v1: int := v[0], v[1];
      var v2: int := if |v| >= 3 then v[2] else 0;
      var v3: int := if |v| >= 4 then v[3] else 0;
      var group: seq<byte> := [v0 * 4 + v1 / 16, (v1 % 16) * 16 + v2 / 4, (v2 % 4) * 64 + v3];
      if |v| >= 4 then group + Bytes(v[4..]) else group[..|v| - 1]
  }

  /** `Buffer.from(s, "base64")` */
  function Decode(s: string): seq<byte> {
    Bytes(Sextets(s))
  }

  /** The reader takes back exactly the values written, the padding ending it. */
  lemma {:induction false} SextetsOfSymbols(v: seq<sextet>, pad: string)
    requires pad == "" || pad[0] == '='
    ensures Sextets(Symbols(v) + pad) == v
    decreases |v|
  {
    var s := Symbols(v) + pad;
    if |v| == 0 {
      assert s == pad;
    } else {
      ValueOfSymbol(v[0]);
      assert s[0] == Symbol(v[0]);
      assert s[1..] == Symbols(v[1..]) + pad;
      SextetsOfSymbols(v[1..], pad);
    }
  }

  /** Three bytes survive the split into four 6-bit values. */
  lemma Group(b0: byte, b1: byte, b2: byte)
    ensures var v0, v1, v2, v3 := b0 / 4, (b0 % 4) * 16 + b1 / 16, (b1 % 16) * 4 + b2 / 64, b2 % 64;
      && v0 * 4 + v1 / 16 == b0
      && (v1 % 16) * 16 + v2 / 4 == b1
      && (v2 % 4) * 64 + v3 == b2
  {
    var v1 := (b0 % 4) * 16 + b1 / 16;
    var v2 := (b1 % 16) * 4 + b2 / 64;
    assert v1 / 16 == b0 % 4 && v1 % 16 == b1 / 16;
    assert v2 / 4 == b1 % 16 && v2 % 4 == b2 / 64;
  }

  /** One final byte survives its two 6-bit values. */
  lemma BytesOfOne(b: seq<byte>)
    requires |b| == 1
    ensures Bytes(SextetsOf(b)) == b
  {
    var v := SextetsOf(b);
    var d := Bytes(v);
    assert |d| == 1 && d[0] == b[0] by {
      var x := b[0];
      var q, r := x / 4, x % 4;
      assert x == 4 * q + r;
      assert v[0] == q && v[1] == r * 16;
      assert v[1] / 16 == r;
    }
  }

  /** Two final bytes survive their three 6-bit values. */
  lemma BytesOfTwo(b: seq<byte>)
    requires |b| == 2
    ensures Bytes(SextetsOf(b)) == b
  {
    var v := SextetsOf(b);
    SextetsOfTwo(b);
    BytesOfThree(v);
    TwoBytesBack(b[0], b[1], v[0], v[1], v[2]);
    var d := Bytes(v);
    assert |d| == 2 && d[0] == b[0] && d[1] == b[1];
  }

  /** Two final bytes are written as three values, the last with its low two bits clear. */
  lemma SextetsOfTwo(b: seq<byte>)
    requires |b| == 2
    ensures var v := SextetsOf(b);
      |v| == 3 && v[0] == b[0] / 4 && v[1] == (b[0] % 4) * 16 + b[1] / 16 && v[2] == (b[1] % 16) * 4
  {
  }

  /** Three values, the last group of a text ending in one "=", give two bytes. */
  lemma BytesOfThree(v: seq<sextet>)
    requires |v| == 3
    ensures var v0: int, v1: int, v2: int := v[0], v[1], v[2];
      Bytes(v) == [v0 * 4 + v1 / 16, (v1 % 16) * 16 + v2 / 4]
  {
  }

  /** The arithmetic behind `BytesOfTwo`: the split of two bytes into three values is undone by the reader. */
  lemma TwoBytesBack(b0: int, b1: int, v0: int, v1: int, v2: int)
    requires 0 <= b0 < 256 && 0 <= b1 < 256
    requires v0 == b0 / 4 && v1 == (b0 % 4) * 16 + b1 / 16 && v2 == (b1 % 16) * 4
    ensures v0 * 4 + v1 / 16 == b0 && (v1 % 16) * 16 + v2 / 4 == b1
  {
    var r0, q1, r1 := b0 % 4, b1 / 16, b1 % 16;
    assert b0 == 4 * v0 + r0 && b1 == 16 * q1 + r1;
    assert 0 <= q1 < 16;
    assert v1 / 16 == r0 && v1 % 16 == q1;
    assert v2 / 4 == r1;
  }

  lemma {:induction false} BytesOfSextets(b: seq<byte>)
    ensures Bytes(SextetsOf(b)) == b
    decreases |b|
  {
    if |b| == 1 {
      BytesOfOne(b);
    } else if |b| == 2 {
      BytesOfTwo(b);
    } else if |b| >= 3 {
      Group(b[0], b[1], b[2]);
      var v := SextetsOf(b);
      assert v[4..] == SextetsOf(b[3..]);
      BytesOfSextets(b[3..]);
      assert b == b[..3] + b[3..];
    }
  }

  /** Decoding an encoding gives back the bytes encoded. */
  lemma DecodeEncode(b: seq<byte>)
    ensures Decode(Encode(b)) == b
  {
    SextetsOfSymbols(SextetsOf(b), Padding(|b|));
    BytesOfSextets(b);
  }
}
