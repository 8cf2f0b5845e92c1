/**
 * Base64 with the standard alphabet and '=' padding (section 4 of
 * RFC 4648), as `base64.b64encode` writes it and as `base64.b64decode`
 * reads it: the decoder is the lenient one, which skips characters outside
 * the alphabet and stops at the padding that completes a group.
 */
module Base64 {
  import opened Wrappers
  import opened Text
  import opened Utf8

  /** The alphabet: A-Z, a-z, 0-9, '+', '/'. */
  function Sym(v: int): (c: char)
    requires 0 <= v < 64
  {
    if v < 26 then (65 + v) as char
    else if v < 52 then (97 + v - 26) as char
    else if v < 62 then (48 + v - 52) as char
    else if v == 62 then '+'
    else '/'
  }

  /** The value of an alphabet character, or 64 for anything else (including '='). */
  function Value(c: char): (v: int)
    ensures 0 <= v <= 64
  {
    if 'A' <= c <= 'Z' then c as int - 65
    else if 'a' <= c <= 'z' then c as int - 97 + 26
    else if '0' <= c <= '9' then c as int - 48 + 52
    else if c == '+' then 62
    else if c == '/' then 63
    else 64
  }

  lemma ValueSym(v: int)
    requires 0 <= v < 64
    ensures Value(Sym(v)) == v && Sym(v) != '='
  {
  }

  /** The four characters of a full group of three bytes. */
  function Quad(b0: Byte, b1: Byte, b2: Byte): String {
    [Sym(b0 / 4), Sym((b0 % 4) * 16 + b1 / 16), Sym((b1 % 16) * 4 + b2 / 64), Sym(b2 % 64)]
  }

  /** `base64.b64encode` */
  function Encode(bs: seq<Byte>): (s: String)
    ensures |s| == 4 * ((|bs| + 2) / 3)
    decreases |bs|
  {
    if |bs| == 0 then ""
    else if |bs| == 1 then [Sym(bs[0] / 4), Sym((bs[0] % 4) * 16), '=', '=']
    else if |bs| == 2 then [Sym(bs[0] / 4), Sym((bs[0] % 4) * 16 + bs[1] / 16), Sym((bs[1] % 16) * 4), '=']
    else Quad(bs[0], bs[1], bs[2]) + Encode(bs[3..])
  }

  /**
   * The decoder's state: how many characters of the current group it has
   * seen, the bits left over, the '=' seen since the last data character,
   * and the bytes so far.
   */
  datatype DState = DState(quadPos: int, leftchar: int, pads: nat, out: seq<Byte>)

  /** One alphabet character: the bytes it completes go out, bit-truncated as the C code stores them. */
  function Feed(st: DState, v: int): (r: DState)
    ensures 0 <= st.quadPos < 4 ==> r.quadPos == (st.quadPos + 1) % 4
    ensures r.pads == 0
    ensures st.quadPos == 0 ==> r.out == st.out
    ensures st.quadPos != 0 ==> |r.out| == |st.out| + 1 && r.out[..|st.out|] == st.out
  {
    if st.quadPos == 0 then DState(1, v, 0, st.out)
    else if st.quadPos == 1 then DState(2, v % 16, 0, st.out + [(st.leftchar * 4 + v / 16) % 256])
    else if st.quadPos == 2 then DState(3, v % 4, 0, st.out + [(st.leftchar * 16 + v / 4) % 256])
    else DState(0, 0, 0, st.out + [(st.leftchar * 64 + v) % 256])
  }

  /** The end of the input without completing padding: a group cut short is an error. */
  function Finish(st: DState): (r: Result<seq<Byte>>)
    ensures r.Success? <==> st.quadPos == 0
    ensures r.Success? ==> r.value == st.out
  {
    if st.quadPos == 0 then Success(st.out)
    else if st.quadPos == 1 then
      Failure("Invalid base64-encoded string: number of data characters (" + NatToString(|st.out| / 3 * 4 + 1)
              + ") cannot be 1 more than a multiple of 4")
    else Failure("Incorrect padding")
  }

  /**
   * The lenient decoding loop: '=' counts as padding only after two
   * characters of a group and ends the input once the group is full;
   * characters outside the alphabet are skipped.
   */
  function Run(st: DState, s: String): Result<seq<Byte>>
    decreases |s|
  {
    if |s| == 0 then Finish(st)
    else if s[0] == '=' then
      if st.quadPos >= 2 && st.quadPos + st.pads + 1 >= 4 then Success(st.out)
      else Run(if st.quadPos >= 2 then st.(pads := st.pads + 1) else st, s[1..])
    else if Value(s[0]) == 64 then Run(st, s[1..])
    else Run(Feed(st, Value(s[0])), s[1..])
  }

  /** Decoding only ever appends to the bytes already put out. */
  lemma {:induction false} RunAppends(st: DState, s: String)
    ensures var r := Run(st, s); r.Success? ==> |st.out| <= |r.value| && r.value[..|st.out|] == st.out
    decreases |s|
  {
    if |s| > 0 && s[0] == '=' && !(st.quadPos >= 2 && st.quadPos + st.pads + 1 >= 4) {
      RunAppends(if st.quadPos >= 2 then st.(pads := st.pads + 1) else st, s[1..]);
    } else if |s| > 0 && s[0] != '=' && Value(s[0]) == 64 {
      RunAppends(st, s[1..]);
    } else if |s| > 0 && s[0] != '=' {
      var next := Feed(st, Value(s[0]));
      RunAppends(next, s[1..]);
      var r := Run(next, s[1..]);
      if r.Success? {
        assert r.value[..|st.out|] == r.value[..|next.out|][..|st.out|];
      }
    }
  }

  predicate Ascii(s: String) {
    forall k :: 0 <= k < |s| ==> s[k] as int < 128
  }

  const NotAscii: String := "string argument should contain only ASCII characters"

  /** `base64.b64decode` on a string: it must be ASCII. */
  function Decode(s: String): (r: Result<seq<Byte>>)
    ensures !Ascii(s) ==> r == Failure(NotAscii)
  {
    if !Ascii(s) then Failure(NotAscii) else Run(DState(0, 0, 0, []), s)
  }

  /** Reading one alphabet character is one `Feed`. */
  lemma RunData(st: DState, v: int, rest: String)
    requires 0 <= v < 64
    ensures Run(st, [Sym(v)] + rest) == Run(Feed(st, v), rest)
  {
    ValueSym(v);
    assert ([Sym(v)] + rest)[1..] == rest;
  }

  lemma Small(x: int)
    requires 0 <= x < 256
    ensures x % 256 == x
  {
  }

  /** The bits of three bytes survive the trip through four sextets. */
  lemma QuadBits(b0: Byte, b1: Byte, b2: Byte)
    ensures var v1, v2 := (b0 % 4) * 16 + b1 / 16, (b1 % 16) * 4 + b2 / 64;
      (b0 / 4) * 4 + v1 / 16 == b0 && (v1 % 16) * 16 + v2 / 4 == b1 && (v2 % 4) * 64 + b2 % 64 == b2
  {
  }

  /** A full group read at the start of a group puts its three bytes out and starts the next group afresh. */
  lemma RunQuad(st: DState, b0: Byte, b1: Byte, b2: Byte, rest: String)
    requires st.quadPos == 0
    ensures Run(st, Quad(b0, b1, b2) + rest) == Run(DState(0, 0, 0, st.out + [b0, b1, b2]), rest)
  {
    var v0, v1, v2, v3 := b0 / 4, (b0 % 4) * 16 + b1 / 16, (b1 % 16) * 4 + b2 / 64, b2 % 64;
    var r3 := [Sym(v3)] + rest;
    var r2 := [Sym(v2)] + r3;
    var r1 := [Sym(v1)] + r2;
    assert Quad(b0, b1, b2) + rest == [Sym(v0)] + r1;
    var st1 := Feed(st, v0);
    var st2 := Feed(st1, v1);
    var st3 := Feed(st2, v2);
    RunData(st, v0, r1);
    RunData(st1, v1, r2);
    RunData(st2, v2, r3);
    RunData(st3, v3, rest);
    FeedGroup(st, b0, b1, b2);
  }

  /** Feeding the four sextets of three bytes from the start of a group puts the three bytes out. */
  lemma FeedGroup(st: DState, b0: Byte, b1: Byte, b2: Byte)
    requires st.quadPos == 0
    ensures var v0, v1, v2, v3 := b0 / 4, (b0 % 4) * 16 + b1 / 16, (b1 % 16) * 4 + b2 / 64, b2 % 64;
      Feed(Feed(Feed(Feed(st, v0), v1), v2), v3) == DState(0, 0, 0, st.out + [b0, b1, b2])
  {
    var v0, v1, v2, v3 := b0 / 4, (b0 % 4) * 16 + b1 / 16, (b1 % 16) * 4 + b2 / 64, b2 % 64;
    QuadBits(b0, b1, b2);
    var st1 := Feed(st, v0);
    var st2 := Feed(st1, v1);
    var st3 := Feed(st2, v2);
    assert st1 == DState(1, v0, 0, st.out);
    assert st2 == DState(2, v1 % 16, 0, st.out + [b0]) by { Small(v0 * 4 + v1 / 16); }
    assert st3 == DState(3, v2 % 4, 0, st.out + [b0, b1]) by { Small((v1 % 16) * 16 + v2 / 4); }
    assert Feed(st3, v3) == DState(0, 0, 0, st.out + [b0, b1, b2]) by { Small((v2 % 4) * 64 + v3); }
  }

  /** One byte left: two characters and two '=' put it out and end the input. */
  lemma RunTailOne(st: DState, b0: Byte)
    requires st.quadPos == 0
    ensures Run(st, [Sym(b0 / 4), Sym((b0 % 4) * 16), '=', '=']) == Success(st.out + [b0])
  {
    var v0, v1 := b0 / 4, (b0 % 4) * 16;
    assert [Sym(v0), Sym(v1), '=', '='] == [Sym(v0)] + ([Sym(v1)] + ['=', '=']);
    QuadBits(b0, 0, 0);
    var st2 := Feed(Feed(st, v0), v1);
    RunData(st, v0, [Sym(v1)] + ['=', '=']);
    RunData(Feed(st, v0), v1, ['=', '=']);
    assert Feed(st, v0) == DState(1, v0, 0, st.out);
    assert st2.out == st.out + [b0] by { Small(v0 * 4 + v1 / 16); }
    assert ['=', '='][1..] == ['='];
    assert Run(st2, ['=', '=']) == Run(st2.(pads := 1), ['=']);
  }

  /** Two bytes left: three characters and one '=' put them out and end the input. */
  lemma RunTailTwo(st: DState, b0: Byte, b1: Byte)
    requires st.quadPos == 0
    ensures Run(st, [Sym(b0 / 4), Sym((b0 % 4) * 16 + b1 / 16), Sym((b1 % 16) * 4), '=']) == Success(st.out + [b0, b1])
  {
    var v0, v1, v2 := b0 / 4, (b0 % 4) * 16 + b1 / 16, (b1 % 16) * 4;
    assert [Sym(v0), Sym(v1), Sym(v2), '='] == [Sym(v0)] + ([Sym(v1)] + ([Sym(v2)] + ['=']));
    var st3 := FeedThree(st, b0, b1);
    RunData(st, v0, [Sym(v1)] + ([Sym(v2)] + ['=']));
    RunData(Feed(st, v0), v1, [Sym(v2)] + ['=']);
    RunData(Feed(Feed(st, v0), v1), v2, ['=']);
    assert Run(st3, ['=']) == Success(st3.out);
  }

  /** The three sextets of two bytes, fed from the start of a group, put both bytes out. */
  function FeedThree(st: DState, b0: Byte, b1: Byte): (r: DState)
    requires st.quadPos == 0
    ensures r == Feed(Feed(Feed(st, b0 / 4), (b0 % 4) * 16 + b1 / 16), (b1 % 16) * 4)
    ensures r.quadPos == 3 && r.pads == 0 && r.out == st.out + [b0, b1]
  {
    var v0, v1, v2 := b0 / 4, (b0 % 4) * 16 + b1 / 16, (b1 % 16) * 4;
    QuadBits(b0, b1, 0);
    var st1 := Feed(st, v0);
    var st2 := Feed(st1, v1);
    assert st1 == DState(1, v0, 0, st.out);
    assert st2 == DState(2, v1 % 16, 0, st.out + [b0]) by { Small(v0 * 4 + v1 / 16); }
    assert Feed(st2, v2).out == st.out + [b0, b1] by { Small((v1 % 16) * 16 + v2 / 4); }
    Feed(st2, v2)
  }

  /** Decoding from the start of a group reads back exactly the encoded bytes. */
  lemma {:induction false} RunEncode(st: DState, bs: seq<Byte>)
    requires st.quadPos == 0
    ensures Run(st, Encode(bs)) == Success(st.out + bs)
    decreases |bs|
  {
    if |bs| == 0 {
      assert st.out + bs == st.out;
    } else if |bs| == 1 {
      RunTailOne(st, bs[0]);
      assert [bs[0]] == bs;
    } else if |bs| == 2 {
      RunTailTwo(st, bs[0], bs[1]);
      assert [bs[0], bs[1]] == bs;
    } else {
      RunQuad(st, bs[0], bs[1], bs[2], Encode(bs[3..]));
      RunEncode(DState(0, 0, 0, st.out + [bs[0], bs[1], bs[2]]), bs[3..]);
      assert st.out + [bs[0], bs[1], bs[2]] + bs[3..] == st.out + bs;
    }
  }

  /** Every character of an encoding is ASCII. */
  lemma {:induction false} EncodeAscii(bs: seq<Byte>)
    ensures Ascii(Encode(bs))
    decreases |bs|
  {
    if |bs| >= 3 {
      EncodeAscii(bs[3..]);
      var q := Quad(bs[0], bs[1], bs[2]);
      assert Encode(bs) == q + Encode(bs[3..]);
      assert forall k :: 0 <= k < |q| ==> q[k] as int < 128;
    }
  }

  /** `b64decode(b64encode(b)) == b` */
  lemma DecodeEncode(bs: seq<Byte>)
    ensures Decode(Encode(bs)) == Success(bs)
  {
    EncodeAscii(bs);
    RunEncode(DState(0, 0, 0, []), bs);
    assert [] + bs == bs;
  }
}
