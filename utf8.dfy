/**
 * UTF-8 as defined by RFC 3629: the encoder Node's `Buffer.byteLength` and
 * `write` apply to a string, and the decoder of section 4 of that RFC, which
 * accepts only well-formed sequences (no overlong forms, no surrogates,
 * nothing above U+10FFFF).
 */
module Utf8 {

  import opened Wrappers

  type Byte = b: int | 0 <= b < 256

  /** Number of bytes RFC 3629 section 3 uses for one code point. */
  function Width(c: char): (w: nat)
    ensures 1 <= w <= 4
  {
    var cp := c as int;
    if cp < 0x80 then 1 else if cp < 0x800 then 2 else if cp < 0x10000 then 3 else 4
  }

  function Tail(x: int): Byte
    requires x >= 0
  {
    0x80 + x % 64
  }

  function EncodeChar(c: char): (bs: seq<Byte>)
    ensures |bs| == Width(c)
  {
    var cp := c as int;
    if cp < 0x80 then [cp]
    else if cp < 0x800 then [0xC0 + cp / 64, Tail(cp)]
    else if cp < 0x10000 then [0xE0 + cp / 64 / 64, Tail(cp / 64), Tail(cp)]
    else [0xF0 + cp / 64 / 64 / 64, Tail(cp / 64 / 64), Tail(cp / 64), Tail(cp)]
  }

  function Encode(s: string): (bs: seq<Byte>)
    ensures |bs| == ByteLength(s)
  {
    if s == [] then [] else EncodeChar(s[0]) + Encode(s[1..])
  }

  /** `Buffer.byteLength(s)` for UTF-8. */
  function ByteLength(s: string): nat {
    if s == [] then 0 else Width(s[0]) + ByteLength(s[1..])
  }

  lemma {:induction false} ByteLengthBounds(s: string)
    ensures |s| <= ByteLength(s) <= 4 * |s|
    ensures ByteLength(s) == |s| <==> forall i :: 0 <= i < |s| ==> s[i] as int < 0x80
  {
    if s != [] {
      ByteLengthBounds(s[1..]);
      assert forall i :: 1 <= i < |s| ==> s[i] == s[1..][i - 1];
    }
  }

  predicate IsTail(b: Byte) { 0x80 <= b < 0xC0 }

  predicate IsScalar(cp: int) { 0 <= cp < 0xD800 || 0xE000 <= cp < 0x110000 }

  /** Decodes the first character of `bs`, with the number of bytes it took. */
  function DecodeChar(bs: seq<Byte>): (r: Option<(char, nat)>)
    ensures r.Some? ==> 1 <= r.value.1 <= |bs|
  {
    if bs == [] then None
    else
      var b0: int := bs[0];
      if b0 < 0x80 then Some((b0 as char, 1))
      else if 0xC0 <= b0 < 0xE0 && |bs| >= 2 && IsTail(bs[1]) then
        var cp: int := (b0 - 0xC0) * 64 + (bs[1] as int - 0x80);
        if cp >= 0x80 then Some((cp as char, 2)) else None
      else if 0xE0 <= b0 < 0xF0 && |bs| >= 3 && IsTail(bs[1]) && IsTail(bs[2]) then
        var cp: int := (b0 - 0xE0) * 4096 + (bs[1] as int - 0x80) * 64 + (bs[2] as int - 0x80);
        if cp >= 0x800 && IsScalar(cp) then Some((cp as char, 3)) else None
      else if 0xF0 <= b0 < 0xF8 && |bs| >= 4 && IsTail(bs[1]) && IsTail(bs[2]) && IsTail(bs[3]) then
        var cp: int := (b0 - 0xF0) * 262144 + (bs[1] as int - 0x80) * 4096 + (bs[2] as int - 0x80) * 64 + (bs[3] as int - 0x80);
        if 0x10000 <= cp < 0x110000 then Some((cp as char, 4)) else None
      else None
  }

  function Decode(bs: seq<Byte>): Option<string>
    decreases |bs|
  {
    if bs == [] then Some("")
    else match DecodeChar(bs)
      case None => None
      case Some((c, n)) =>
        match Decode(bs[n..])
        case None => None
        case Some(rest) => Some([c] + rest)
  }

  lemma DecodeTwo(c: char, rest: seq<Byte>)
    requires 0x80 <= c as int < 0x800
    ensures DecodeChar(EncodeChar(c) + rest) == Some((c, 2))
  {
    var cp := c as int;
    var bs := EncodeChar(c) + rest;
    assert bs[0] == 0xC0 + cp / 64 && bs[1] == 0x80 + cp % 64;
    assert (cp / 64) * 64 + cp % 64 == cp;
  }

  lemma DecodeThree(c: char, rest: seq<Byte>)
    requires 0x800 <= c as int < 0x10000
    ensures DecodeChar(EncodeChar(c) + rest) == Some((c, 3))
  {
    var cp := c as int;
    var x := cp / 64;
    var y := x / 64;
    var bs := EncodeChar(c) + rest;
    assert bs[0] == 0xE0 + y && bs[1] == 0x80 + x % 64 && bs[2] == 0x80 + cp % 64;
    assert cp == 64 * x + cp % 64 && x == 64 * y + x % 64;
  }

  lemma DecodeFour(c: char, rest: seq<Byte>)
    requires 0x10000 <= c as int
    ensures DecodeChar(EncodeChar(c) + rest) == Some((c, 4))
  {
    var cp := c as int;
    var x := cp / 64;
    var y := x / 64;
    var z := y / 64;
    var bs := EncodeChar(c) + rest;
    assert bs[0] == 0xF0 + z && bs[1] == 0x80 + y % 64 && bs[2] == 0x80 + x % 64 && bs[3] == 0x80 + cp % 64;
    assert cp == 64 * x + cp % 64 && x == 64 * y + x % 64 && y == 64 * z + y % 64;
  }

  lemma DecodeEncodeChar(c: char, rest: seq<Byte>)
    ensures DecodeChar(EncodeChar(c) + rest) == Some((c, Width(c)))
  {
    var cp := c as int;
    if cp < 0x80 {
    } else if cp < 0x800 {
      DecodeTwo(c, rest);
    } else if cp < 0x10000 {
      DecodeThree(c, rest);
    } else {
      DecodeFour(c, rest);
    }
  }

  /** The bytes the encoder produces decode back to the string (RFC 3629 round trip). */
  lemma {:induction false} DecodeEncode(s: string)
    ensures Decode(Encode(s)) == Some(s)
  {
    if s != [] {
      var e := EncodeChar(s[0]);
      var rest := Encode(s[1..]);
      DecodeEncodeChar(s[0], rest);
      assert (e + rest)[|e|..] == rest;
      DecodeEncode(s[1..]);
      assert [s[0]] + s[1..] == s;
    }
  }
}
