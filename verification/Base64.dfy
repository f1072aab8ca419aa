/** The standard Base64 encoding with padding (RFC 4648, section 4), decoded strictly. */
module Base64 {
  import opened Base

  type Sextet = v: int | 0 <= v < 64

  function Digit(v: Sextet): char {
    if v < 26 then ('A' as int + v) as char
    else if v < 52 then ('a' as int + (v - 26)) as char
    else if v < 62 then ('0' as int + (v - 52)) as char
    else if v == 62 then '+' else '/'
  }

  function ValueOf(c: char): Option<Sextet> {
    if 'A' <= c <= 'Z' then Some(c as int - 'A' as int)
    else if 'a' <= c <= 'z' then Some(c as int - 'a' as int + 26)
    else if '0' <= c <= '9' then Some(c as int - '0' as int + 52)
    else if c == '+' then Some(62)
    else if c == '/' then Some(63)
    else None
  }

  lemma DigitValue(v: Sextet, c: char)
    ensures ValueOf(c) == Some(v) <==> c == Digit(v)
    ensures Digit(v) != '=' && Digit(v) as int > 32
  {
  }

  // The four sextets of three bytes, and back.

  function First(x: Byte): Sextet { x / 4 }

  function Second(x: Byte, y: Byte): Sextet { x % 4 * 16 + y / 16 }

  function Third(y: Byte, z: Byte): Sextet { y % 16 * 4 + z / 64 }

  function Fourth(z: Byte): Sextet { z % 64 }

  function High(p: Sextet, q: Sextet): Byte { p * 4 + q / 16 }

  function Middle(q: Sextet, r: Sextet): Byte { q % 16 * 16 + r / 4 }

  function Low(r: Sextet, s: Sextet): Byte { r % 4 * 64 + s }

  lemma BytesOfSextets(x: Byte, y: Byte, z: Byte)
    ensures High(First(x), Second(x, y)) == x
    ensures Middle(Second(x, y), Third(y, z)) == y
    ensures Low(Third(y, z), Fourth(z)) == z
    ensures Middle(Second(x, 0), 0) == 0 && Low(Third(y, 0), 0) == 0
  {
  }

  lemma SextetsOfBytes(p: Sextet, q: Sextet, r: Sextet, s: Sextet)
    ensures First(High(p, q)) == p
    ensures Second(High(p, q), Middle(q, r)) == q
    ensures Third(Middle(q, r), Low(r, s)) == r
    ensures Fourth(Low(r, s)) == s
    ensures Middle(q, 0) == 0 ==> Second(High(p, q), 0) == q
    ensures Low(r, 0) == 0 ==> Third(Middle(q, r), 0) == r
  {
  }

  function EncodeThree(x: Byte, y: Byte, z: Byte): string {
    [Digit(First(x)), Digit(Second(x, y)), Digit(Third(y, z)), Digit(Fourth(z))]
  }

  function Encode(bs: seq<Byte>): string {
    if bs == [] then ""
    else if |bs| == 1 then [Digit(First(bs[0])), Digit(Second(bs[0], 0)), '=', '=']
    else if |bs| == 2 then [Digit(First(bs[0])), Digit(Second(bs[0], bs[1])), Digit(Third(bs[1], 0)), '=']
    else EncodeThree(bs[0], bs[1], bs[2]) + Encode(bs[3..])
  }

  function DecodeQuad(a: char, b: char, c: char, d: char): Option<seq<Byte>> {
    var p, q, r, s := ValueOf(a), ValueOf(b), ValueOf(c), ValueOf(d);
    if p.Some? && q.Some? && r.Some? && s.Some? then
      Some([High(p.value, q.value), Middle(q.value, r.value), Low(r.value, s.value)])
    else None
  }

  /** The last group, which may be padded; bits that stand for nothing must be zero. */
  function DecodeLast(a: char, b: char, c: char, d: char): Option<seq<Byte>> {
    var p, q, r := ValueOf(a), ValueOf(b), ValueOf(c);
    if d != '=' then DecodeQuad(a, b, c, d)
    else if p.None? || q.None? then None
    else if c == '=' then
      if Middle(q.value, 0) == 0 then Some([High(p.value, q.value)]) else None
    else if r.Some? && Low(r.value, 0) == 0 then Some([High(p.value, q.value), Middle(q.value, r.value)])
    else None
  }

  function Decode(s: string): Option<seq<Byte>> {
    if s == "" then Some([])
    else if |s| < 4 then None
    else if |s| == 4 then DecodeLast(s[0], s[1], s[2], s[3])
    else
      match (DecodeQuad(s[0], s[1], s[2], s[3]), Decode(s[4..]))
      case (Some(first), Some(rest)) => Some(first + rest)
      case _ => None
  }

  lemma ThreeRoundTrip(x: Byte, y: Byte, z: Byte)
    ensures var t := EncodeThree(x, y, z);
            t[3] != '=' && DecodeQuad(t[0], t[1], t[2], t[3]) == Some([x, y, z])
  {
    BytesOfSextets(x, y, z);
    DigitValue(First(x), Digit(First(x)));
    DigitValue(Second(x, y), Digit(Second(x, y)));
    DigitValue(Third(y, z), Digit(Third(y, z)));
    DigitValue(Fourth(z), Digit(Fourth(z)));
  }

  lemma DecodesOne(p: Sextet, q: Sextet)
    requires Middle(q, 0) == 0
    ensures DecodeLast(Digit(p), Digit(q), '=', '=') == Some([High(p, q)])
  {
    DigitValue(p, Digit(p));
    DigitValue(q, Digit(q));
  }

  lemma DecodesTwo(p: Sextet, q: Sextet, r: Sextet)
    requires Low(r, 0) == 0
    ensures DecodeLast(Digit(p), Digit(q), Digit(r), '=') == Some([High(p, q), Middle(q, r)])
  {
    DigitValue(p, Digit(p));
    DigitValue(q, Digit(q));
    DigitValue(r, Digit(r));
  }

  /** A group without padding is decoded the same way wherever it stands. */
  lemma DecodesGroup(t: string, rest: string)
    requires |t| == 4 && t[3] != '=' && DecodeQuad(t[0], t[1], t[2], t[3]).Some? && Decode(rest).Some?
    ensures Decode(t + rest) == Some(DecodeQuad(t[0], t[1], t[2], t[3]).value + Decode(rest).value)
  {
    var s := t + rest;
    var first := DecodeQuad(t[0], t[1], t[2], t[3]).value;
    assert s[4..] == rest;
    if rest == "" {
      assert Decode(s) == DecodeLast(t[0], t[1], t[2], t[3]);
      assert first + [] == first;
    }
  }

  lemma DecodesEncodedOne(x: Byte)
    ensures Decode(Encode([x])) == Some([x])
  {
    var p, q := First(x), Second(x, 0);
    assert High(p, q) == x && Middle(q, 0) == 0 by { BytesOfSextets(x, 0, 0); }
    DecodesOne(p, q);
    assert Encode([x]) == [Digit(p), Digit(q), '=', '='];
  }

  lemma DecodesEncodedTwo(x: Byte, y: Byte)
    ensures Decode(Encode([x, y])) == Some([x, y])
  {
    var p, q, r := First(x), Second(x, y), Third(y, 0);
    assert High(p, q) == x && Middle(q, r) == y && Low(r, 0) == 0 by { BytesOfSextets(x, y, 0); }
    DecodesTwo(p, q, r);
    assert Encode([x, y]) == [Digit(p), Digit(q), Digit(r), '='];
  }

  lemma {:induction false} DecodesEncoded(bs: seq<Byte>)
    ensures Decode(Encode(bs)) == Some(bs)
  {
    if |bs| == 1 {
      DecodesEncodedOne(bs[0]);
      assert bs == [bs[0]];
    } else if |bs| == 2 {
      DecodesEncodedTwo(bs[0], bs[1]);
      assert bs == [bs[0], bs[1]];
    } else if |bs| >= 3 {
      ThreeRoundTrip(bs[0], bs[1], bs[2]);
      DecodesEncoded(bs[3..]);
      DecodesGroup(EncodeThree(bs[0], bs[1], bs[2]), Encode(bs[3..]));
      assert [bs[0], bs[1], bs[2]] + bs[3..] == bs;
    }
  }

  lemma QuadIsEncoded(a: char, b: char, c: char, d: char)
    requires DecodeQuad(a, b, c, d).Some?
    ensures var bs := DecodeQuad(a, b, c, d).value;
            |bs| == 3 && EncodeThree(bs[0], bs[1], bs[2]) == [a, b, c, d]
  {
    var p, q, r, s := ValueOf(a).value, ValueOf(b).value, ValueOf(c).value, ValueOf(d).value;
    SextetsOfBytes(p, q, r, s);
    DigitValue(p, a);
    DigitValue(q, b);
    DigitValue(r, c);
    DigitValue(s, d);
  }

  lemma PaddedIsEncoded(a: char, b: char, c: char)
    requires DecodeLast(a, b, c, '=').Some?
    ensures Encode(DecodeLast(a, b, c, '=').value) == [a, b, c, '=']
  {
    var p, q := ValueOf(a).value, ValueOf(b).value;
    DigitValue(p, a);
    DigitValue(q, b);
    if c == '=' {
      SextetsOfBytes(p, q, 0, 0);
    } else {
      SextetsOfBytes(p, q, ValueOf(c).value, 0);
      DigitValue(ValueOf(c).value, c);
    }
  }

  lemma EncodesGroup(first: seq<Byte>, rest: seq<Byte>)
    requires |first| == 3
    ensures Encode(first + rest) == EncodeThree(first[0], first[1], first[2]) + Encode(rest)
  {
    assert (first + rest)[3..] == rest;
  }

  lemma {:induction false} EncodesDecoded(s: string)
    requires Decode(s).Some?
    ensures Encode(Decode(s).value) == s
  {
    if |s| == 4 && s[3] == '=' {
      PaddedIsEncoded(s[0], s[1], s[2]);
    } else if |s| >= 4 {
      var rest, first := s[4..], DecodeQuad(s[0], s[1], s[2], s[3]);
      QuadIsEncoded(s[0], s[1], s[2], s[3]);
      assert s == [s[0], s[1], s[2], s[3]] + rest;
      if rest == "" {
        assert first.value + [] == first.value;
        EncodesGroup(first.value, []);
      } else {
        EncodesDecoded(rest);
        EncodesGroup(first.value, Decode(rest).value);
      }
    }
  }

  /** A text decodes to some bytes exactly if it is their encoding: every encoding is canonical. */
  lemma RoundTrip(s: string, bs: seq<Byte>)
    ensures Decode(s) == Some(bs) <==> s == Encode(bs)
  {
    DecodesEncoded(bs);
    if Decode(s) == Some(bs) {
      EncodesDecoded(s);
    }
  }

  /** Encodings hold neither white space nor line ends. */
  lemma {:induction false} EncodedIsVisible(bs: seq<Byte>)
    ensures forall i :: 0 <= i < |Encode(bs)| ==> 32 < Encode(bs)[i] as int < 127
    ensures bs != [] ==> Encode(bs) != ""
  {
    if |bs| >= 3 {
      EncodedIsVisible(bs[3..]);
    }
  }

  /** Three bytes and their four digits are the same 24-bit number, written in base 256 and in base 64. */
  lemma GroupIsNumber(x: Byte, y: Byte, z: Byte) returns (p: Sextet, q: Sextet, r: Sextet, s: Sextet)
    ensures Encode([x, y, z]) == [Digit(p), Digit(q), Digit(r), Digit(s)]
    ensures ((p * 64 + q) * 64 + r) * 64 + s == (x * 256 + y) * 256 + z
  {
    p, q, r, s := First(x), Second(x, y), Third(y, z), Fourth(z);
    assert Encode([x, y, z]) == EncodeThree(x, y, z) + Encode([]);
  }

  /** Test vectors of RFC 4648, section 10. */
  lemma TestVectors()
    ensures Encode(['f' as int]) == "Zg=="
    ensures Encode(['f' as int, 'o' as int]) == "Zm8="
    ensures Encode(['f' as int, 'o' as int, 'o' as int, 'b' as int, 'a' as int, 'r' as int]) == "Zm9vYmFy"
    ensures Digit(62) == '+' && Digit(63) == '/'
  {
    var foobar := ['f' as int, 'o' as int, 'o' as int, 'b' as int, 'a' as int, 'r' as int];
    assert foobar[3..] == ['b' as int, 'a' as int, 'r' as int] && foobar[3..][3..] == [];
    assert Encode(foobar[3..]) == EncodeThree('b' as int, 'a' as int, 'r' as int) + Encode([]);
  }
}
