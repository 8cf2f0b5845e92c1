/**
 * UTF-8, as `str.encode()` and `bytes.decode()` use it. A Dafny character
 * is a Unicode scalar value, so encoding here never fails (a Python string
 * holding a lone surrogate, which makes `encode` raise, cannot be written).
 * Decoding is strict and refuses overlong forms, surrogates and values past
 * U+10FFFF; its failure carries one fixed message.
 */
module Utf8 {
  import opened Wrappers
  import opened Text

  type Byte = x: int | 0 <= x < 256

  predicate Continuation(b: Byte) {
    0x80 <= b < 0xC0
  }

  /** The bytes of one character. */
  function EncodeChar(c: char): (bs: seq<Byte>)
    ensures 1 <= |bs| <= 4
  {
    var cp := c as int;
    if cp < 0x80 then [cp]
    else if cp < 0x800 then [0xC0 + cp / 64, 0x80 + cp % 64]
    else if cp < 0x10000 then [0xE0 + cp / 4096, 0x80 + (cp / 64) % 64, 0x80 + cp % 64]
    else [0xF0 + cp / 262144, 0x80 + (cp / 4096) % 64, 0x80 + (cp / 64) % 64, 0x80 + cp % 64]
  }

  /** `s.encode()` */
  function Encode(s: String): (bs: seq<Byte>)
    ensures |s| <= |bs| <= 4 * |s|
    decreases |s|
  {
    if |s| == 0 then [] else EncodeChar(s[0]) + Encode(s[1..])
  }

  /** A code point that is a Unicode scalar value, as a character. */
  function ToChar(cp: int): char
    requires 0 <= cp < 0xD800 || 0xE000 <= cp < 0x110000
  {
    cp as char
  }

  /** The second byte's range the strict decoder allows after a three- or four-byte lead. */
  predicate SecondOk(b0: Byte, b1: Byte) {
    if b0 == 0xE0 then 0xA0 <= b1 < 0xC0
    else if b0 == 0xED then 0x80 <= b1 < 0xA0
    else if b0 == 0xF0 then 0x90 <= b1 < 0xC0
    else if b0 == 0xF4 then 0x80 <= b1 < 0x90
    else Continuation(b1)
  }

  /** The first character of `bs` and how many bytes it takes, or None when they are not valid UTF-8. */
  function DecodeFirst(bs: seq<Byte>): (r: Option<(char, nat)>)
    requires |bs| > 0
    ensures r.Some? ==> 1 <= r.value.1 <= |bs| && r.value.1 <= 4
  {
    var b0: int := bs[0];
    if b0 < 0x80 then Some((ToChar(b0), 1))
    else if 0xC2 <= b0 < 0xE0 then
      if |bs| >= 2 && Continuation(bs[1]) then Some((ToChar((b0 - 0xC0) * 64 + (bs[1] as int - 0x80)), 2)) else None
    else if 0xE0 <= b0 < 0xF0 then
      if |bs| >= 3 && SecondOk(b0, bs[1]) && Continuation(bs[2]) then
        var cp := (b0 - 0xE0) * 4096 + (bs[1] as int - 0x80) * 64 + (bs[2] as int - 0x80);
        assert cp < 0xD800 || 0xE000 <= cp < 0x10000 by {
          if b0 == 0xED {
            assert cp <= 13 * 4096 + 31 * 64 + 63;
          } else if b0 < 0xED {
            assert cp <= 12 * 4096 + 63 * 64 + 63;
          } else {
            assert cp >= 14 * 4096;
          }
        }
        Some((ToChar(cp), 3))
      else None
    else if 0xF0 <= b0 < 0xF5 then
      if |bs| >= 4 && SecondOk(b0, bs[1]) && Continuation(bs[2]) && Continuation(bs[3]) then
        var cp := (b0 - 0xF0) * 262144 + (bs[1] as int - 0x80) * 4096 + (bs[2] as int - 0x80) * 64 + (bs[3] as int - 0x80);
        assert 0x10000 <= cp < 0x110000 by {
          if b0 == 0xF4 {
            assert cp <= 4 * 262144 + 15 * 4096 + 63 * 64 + 63;
          }
        }
        Some((ToChar(cp), 4))
      else None
    else None
  }

  const DecodeError: String := "'utf-8' codec can't decode the bytes"

  /**
   * `bs.decode()`: the characters, or a failure at the first byte that does
   * not start a valid sequence. Every character takes at least one byte.
   */
  function Decode(bs: seq<Byte>): (r: Result<String>)
    ensures r.Success? ==> |r.value| <= |bs|
    ensures r.Failure? ==> r.error == DecodeError
    decreases |bs|
  {
    if |bs| == 0 then Success([])
    else match DecodeFirst(bs)
      case None => Failure(DecodeError)
      case Some((c, n)) =>
        match Decode(bs[n..])
        case Success(rest) => Success([c] + rest)
        case Failure(e) => Failure(e)
  }

  lemma DecodeTwo(c: char, rest: seq<Byte>)
    requires 0x80 <= c as int < 0x800
    ensures DecodeFirst(EncodeChar(c) + rest) == Some((c, 2))
  {
    var cp := c as int;
    var bs := EncodeChar(c) + rest;
    assert bs[0] == 0xC0 + cp / 64 && bs[1] == 0x80 + cp % 64;
    assert (cp / 64) * 64 + cp % 64 == cp;
  }

  lemma DecodeThree(c: char, rest: seq<Byte>)
    requires 0x800 <= c as int < 0x10000
    ensures DecodeFirst(EncodeChar(c) + rest) == Some((c, 3))
  {
    var cp := c as int;
    var bs := EncodeChar(c) + rest;
    var h, m, l := cp / 4096, (cp / 64) % 64, cp % 64;
    assert bs[0] == 0xE0 + h && bs[1] == 0x80 + m && bs[2] == 0x80 + l;
    assert h * 4096 + m * 64 + l == cp;
    assert h == 0 ==> m >= 32;
    assert h == 13 ==> m < 32;
    assert SecondOk(bs[0], bs[1]);
  }

  lemma DecodeFour(c: char, rest: seq<Byte>)
    requires 0x10000 <= c as int
    ensures DecodeFirst(EncodeChar(c) + rest) == Some((c, 4))
  {
    var cp := c as int;
    var bs := EncodeChar(c) + rest;
    var h, m1, m2, l := cp / 262144, (cp / 4096) % 64, (cp / 64) % 64, cp % 64;
    assert bs[0] == 0xF0 + h && bs[1] == 0x80 + m1 && bs[2] == 0x80 + m2 && bs[3] == 0x80 + l;
    var q := cp / 64;
    assert cp == q * 64 + l;
    assert q == (q / 64) * 64 + m2;
    assert q / 64 == cp / 4096;
    var r := cp / 4096;
    assert r == (r / 64) * 64 + m1;
    assert r / 64 == h;
    assert h * 262144 + m1 * 4096 + m2 * 64 + l == cp;
    assert h == 0 ==> m1 >= 16;
    assert h == 4 ==> m1 < 16;
    assert SecondOk(bs[0], bs[1]);
  }

  /** Decoding the bytes of one character, whatever follows, gives back that character. */
  lemma DecodeFirstEncodeChar(c: char, rest: seq<Byte>)
    ensures DecodeFirst(EncodeChar(c) + rest) == Some((c, |EncodeChar(c)|))
  {
    var cp := c as int;
    if cp < 0x80 {
    } else if cp < 0x800 {
      DecodeTwo(c, rest);
    } else if cp < 0x10000 {
      DecodeThree(c, rest);
    } else {
      DecodeFour(c, rest);
    }
  }

  /** Decoding what encoding produced gives back the text. */
  lemma {:induction false} DecodeEncode(s: String)
    ensures Decode(Encode(s)) == Success(s)
    decreases |s|
  {
    if |s| > 0 {
      var head := EncodeChar(s[0]);
      DecodeFirstEncodeChar(s[0], Encode(s[1..]));
      assert (head + Encode(s[1..]))[|head|..] == Encode(s[1..]);
      DecodeEncode(s[1..]);
      assert s == [s[0]] + s[1..];
    }
  }

  /** The bytes the decoder reads for one character are exactly that character's encoding. */
  lemma EncodeDecodeFirst(bs: seq<Byte>)
    requires |bs| > 0 && DecodeFirst(bs).Some?
    ensures var (c, n) := DecodeFirst(bs).value; EncodeChar(c) == bs[..n]
  {
    var b0: int := bs[0];
    if 0xC2 <= b0 < 0xE0 {
      TwoBack(bs);
    } else if 0xE0 <= b0 < 0xF0 {
      ThreeBack(bs);
    } else if 0xF0 <= b0 {
      FourBack(bs);
    }
  }

  lemma TwoBack(bs: seq<Byte>)
    requires |bs| >= 2 && 0xC2 <= bs[0] < 0xE0 && Continuation(bs[1])
    ensures var (c, n) := DecodeFirst(bs).value; n == 2 && EncodeChar(c) == bs[..2]
  {
    var c := DecodeFirst(bs).value.0;
    var b0: int, b1: int := bs[0], bs[1];
    var cp := c as int;
    assert cp == (b0 - 0xC0) * 64 + (b1 - 0x80);
    assert cp / 64 == b0 - 0xC0 && cp % 64 == b1 - 0x80;
  }

  lemma ThreeBack(bs: seq<Byte>)
    requires |bs| >= 3 && 0xE0 <= bs[0] < 0xF0 && SecondOk(bs[0], bs[1]) && Continuation(bs[2])
    ensures var (c, n) := DecodeFirst(bs).value; n == 3 && EncodeChar(c) == bs[..3]
  {
    var c := DecodeFirst(bs).value.0;
    var b0: int, b1: int, b2: int := bs[0], bs[1], bs[2];
    var h, m, l := b0 - 0xE0, b1 - 0x80, b2 - 0x80;
    var cp := c as int;
    assert cp == h * 4096 + m * 64 + l;
    assert 0x800 <= cp < 0x10000 by {
      if h == 0 { assert m >= 32; }
    }
    assert cp / 64 == h * 64 + m && cp % 64 == l;
    assert cp / 4096 == h && (cp / 64) % 64 == m;
  }

  lemma FourBack(bs: seq<Byte>)
    requires |bs| >= 4 && 0xF0 <= bs[0] < 0xF5 && SecondOk(bs[0], bs[1]) && Continuation(bs[2]) && Continuation(bs[3])
    ensures var (c, n) := DecodeFirst(bs).value; n == 4 && EncodeChar(c) == bs[..4]
  {
    var c := DecodeFirst(bs).value.0;
    var b0: int, b1: int, b2: int, b3: int := bs[0], bs[1], bs[2], bs[3];
    var h, m1, m2, l := b0 - 0xF0, b1 - 0x80, b2 - 0x80, b3 - 0x80;
    var cp := c as int;
    assert cp == h * 262144 + m1 * 4096 + m2 * 64 + l;
    assert 0x10000 <= cp by {
      if h == 0 { assert m1 >= 16; }
    }
    assert cp / 64 == h * 4096 + m1 * 64 + m2 && cp % 64 == l;
    assert cp / 4096 == h * 64 + m1 && (cp / 64) % 64 == m2;
    assert cp / 262144 == h && (cp / 4096) % 64 == m1;
  }

  /** Encoding a text is encoding its first character, then the rest. */
  lemma EncodeCons(c: char, rest: String)
    ensures Encode([c] + rest) == EncodeChar(c) + Encode(rest)
  {
    assert ([c] + rest)[0] == c && ([c] + rest)[1..] == rest;
  }

  /** A successful decode is the first character followed by the decode of what comes after it. */
  lemma DecodeStep(bs: seq<Byte>)
    requires |bs| > 0 && Decode(bs).Success?
    ensures DecodeFirst(bs).Some?
    ensures var n := DecodeFirst(bs).value.1;
      Decode(bs[n..]).Success? && Decode(bs).value == [DecodeFirst(bs).value.0] + Decode(bs[n..]).value
  {
  }

  /** Decoding is strict: bytes it accepts are exactly the encoding of what it returns. */
  lemma {:induction false} EncodeDecode(bs: seq<Byte>)
    ensures Decode(bs).Success? ==> Encode(Decode(bs).value) == bs
    decreases |bs|
  {
    if |bs| > 0 && Decode(bs).Success? {
      DecodeStep(bs);
      var c, n := DecodeFirst(bs).value.0, DecodeFirst(bs).value.1;
      var rest := Decode(bs[n..]).value;
      EncodeDecodeFirst(bs);
      EncodeDecode(bs[n..]);
      EncodeCons(c, rest);
      assert bs == bs[..n] + bs[n..];
    }
  }

  /** ASCII text encodes to its code points, one byte each. */
  lemma {:induction false} EncodeAscii(s: String)
    requires forall k :: 0 <= k < |s| ==> s[k] as int < 0x80
    ensures |Encode(s)| == |s|
    ensures forall k :: 0 <= k < |s| ==> Encode(s)[k] == s[k] as int
    decreases |s|
  {
    if |s| > 0 {
      EncodeAscii(s[1..]);
    }
  }
}
