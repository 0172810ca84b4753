/**
 * `std::str::from_utf8`: a byte slice is accepted exactly when it is
 * well-formed UTF-8 in the sense of RFC 3629 (no overlong forms, no
 * surrogates, nothing above U+10FFFF), and then read as a string.
 */
module Utf8 {
  import opened Prelude

  predicate IsContinuation(b: Byte) { 0x80 <= b <= 0xBF }

  /**
   * Reads the first scalar value of `bs`, returning it with the number of
   * bytes it took, or None when the first sequence is not well-formed.
   */
  function DecodeFirst(bs: seq<Byte>): (r: Option<(char, nat)>)
    requires |bs| > 0
    ensures r.Some? ==> 1 <= r.value.1 <= 4 && r.value.1 <= |bs|
    ensures r.Some? && r.value.1 == 1 <==> bs[0] < 0x80
  {
    var b0: int := bs[0];
    if b0 < 0x80 then
      Some((b0 as char, 1))
    else if 0xC2 <= b0 <= 0xDF then
      if |bs| >= 2 && IsContinuation(bs[1]) then
        var b1: int := bs[1];
        Some((((b0 - 0xC0) * 0x40 + (b1 - 0x80)) as char, 2))
      else None
    else if 0xE0 <= b0 <= 0xEF then
      if |bs| >= 3 && IsContinuation(bs[2]) &&
         (if b0 == 0xE0 then 0xA0 <= bs[1] <= 0xBF
          else if b0 == 0xED then 0x80 <= bs[1] <= 0x9F
          else IsContinuation(bs[1]))
      then
        var b1: int, b2: int := bs[1], bs[2];
        Some((((b0 - 0xE0) * 0x1000 + (b1 - 0x80) * 0x40 + (b2 - 0x80)) as char, 3))
      else None
    else if 0xF0 <= b0 <= 0xF4 then
      if |bs| >= 4 && IsContinuation(bs[2]) && IsContinuation(bs[3]) &&
         (if b0 == 0xF0 then 0x90 <= bs[1] <= 0xBF
          else if b0 == 0xF4 then 0x80 <= bs[1] <= 0x8F
          else IsContinuation(bs[1]))
      then
        var b1: int, b2: int, b3: int := bs[1], bs[2], bs[3];
        Some((((b0 - 0xF0) * 0x40000 + (b1 - 0x80) * 0x1000 + (b2 - 0x80) * 0x40 + (b3 - 0x80)) as char, 4))
      else None
    else
      None
  }

  /**
   * `std::str::from_utf8(bs).ok()`: what it accepts is the encoding of the
   * text it returns.
   */
  function Decode(bs: seq<Byte>): (r: Option<string>)
    ensures r.Some? ==> |r.value| <= |bs|
    ensures r.Some? ==> bs == Encode(r.value)
    decreases |bs|
  {
    if |bs| == 0 then Some([])
    else
      match DecodeFirst(bs)
      case None => None
      case Some((c, n)) =>
        match Decode(bs[n..])
        case None => None
        case Some(rest) =>
          DecodedConsIsEncoding(bs, rest);
          Some([c] + rest)
  }

  predicate IsAscii(s: string) { forall i :: 0 <= i < |s| ==> s[i] < 128 as char }

  /** The RFC 3629 encoding of one scalar value: 1 to 4 bytes by its range, six payload bits per continuation byte. */
  function EncodeChar(c: char): (bs: seq<Byte>)
    ensures 1 <= |bs| <= 4
    ensures |bs| == 1 <==> c < 128 as char
  {
    var n := c as int;
    if n < 0x80 then [n]
    else if n < 0x800 then [0xC0 + n / 0x40, 0x80 + n % 0x40]
    else if n < 0x1_0000 then
      var m := n % 0x1000;
      [0xE0 + n / 0x1000, 0x80 + m / 0x40, 0x80 + m % 0x40]
    else
      var m := n % 0x4_0000;
      var k := m % 0x1000;
      [0xF0 + n / 0x4_0000, 0x80 + m / 0x1000, 0x80 + k / 0x40, 0x80 + k % 0x40]
  }

  /** `str::as_bytes`: the UTF-8 encoding of a string, scalar by scalar. */
  function Encode(s: string): seq<Byte>
    decreases |s|
  {
    if |s| == 0 then [] else EncodeChar(s[0]) + Encode(s[1..])
  }

  /** ASCII text encodes to one byte per character, holding that character's code. */
  lemma {:induction false} EncodeAscii(s: string)
    requires IsAscii(s)
    ensures |Encode(s)| == |s|
    ensures forall i :: 0 <= i < |s| ==> Encode(s)[i] == s[i] as int
    decreases |s|
  {
    if |s| > 0 {
      EncodeAscii(s[1..]);
      assert Encode(s) == [s[0] as int] + Encode(s[1..]);
      forall i | 0 < i < |s| ensures Encode(s)[i] == s[i] as int {
        assert Encode(s)[i] == Encode(s[1..])[i - 1];
      }
    }
  }

  lemma DecodeFirstEncode2(c: char, rest: seq<Byte>)
    requires 0x80 <= c as int < 0x800
    ensures DecodeFirst(EncodeChar(c) + rest) == Some((c, 2))
  {
    var n := c as int;
    var bs := EncodeChar(c) + rest;
    var a, d := n / 0x40, n % 0x40;
    assert bs[0] == 0xC0 + a && bs[1] == 0x80 + d;
    assert 2 <= a < 0x20;
  }

  lemma DecodeFirstEncode3(c: char, rest: seq<Byte>)
    requires 0x800 <= c as int < 0x1_0000
    ensures DecodeFirst(EncodeChar(c) + rest) == Some((c, 3))
  {
    var n := c as int;
    var bs := EncodeChar(c) + rest;
    var a, m := n / 0x1000, n % 0x1000;
    var b, d := m / 0x40, m % 0x40;
    assert bs[0] == 0xE0 + a && bs[1] == 0x80 + b && bs[2] == 0x80 + d;
    assert n == a * 0x1000 + b * 0x40 + d;
    assert a == 0 ==> b >= 0x20;
    assert a == 0xD ==> b < 0x20;
  }

  lemma DecodeFirstEncode4(c: char, rest: seq<Byte>)
    requires 0x1_0000 <= c as int
    ensures DecodeFirst(EncodeChar(c) + rest) == Some((c, 4))
  {
    var n := c as int;
    var bs := EncodeChar(c) + rest;
    var a, m := n / 0x4_0000, n % 0x4_0000;
    var b, k := m / 0x1000, m % 0x1000;
    var e, d := k / 0x40, k % 0x40;
    assert bs[0] == 0xF0 + a && bs[1] == 0x80 + b && bs[2] == 0x80 + e && bs[3] == 0x80 + d;
    assert n == a * 0x4_0000 + b * 0x1000 + e * 0x40 + d;
    assert a <= 4;
    assert a == 0 ==> b >= 0x10;
    assert a == 4 ==> b < 0x10;
  }

  /** The first sequence of an encoded scalar decodes to that scalar, whatever follows it. */
  lemma DecodeFirstEncodeChar(c: char, rest: seq<Byte>)
    ensures DecodeFirst(EncodeChar(c) + rest) == Some((c, |EncodeChar(c)|))
  {
    var n := c as int;
    if n < 0x80 {
    } else if n < 0x800 {
      DecodeFirstEncode2(c, rest);
    } else if n < 0x1_0000 {
      DecodeFirstEncode3(c, rest);
    } else {
      DecodeFirstEncode4(c, rest);
    }
  }

  lemma DecodedIsEncoding2(bs: seq<Byte>)
    requires |bs| >= 2 && 0xC2 <= bs[0] <= 0xDF && IsContinuation(bs[1])
    ensures DecodeFirst(bs).Some? && DecodeFirst(bs).value.1 == 2
    ensures bs[..2] == EncodeChar(DecodeFirst(bs).value.0)
  {
    var a: int, d: int := bs[0] - 0xC0, bs[1] - 0x80;
    var n: int := a * 0x40 + d;
    assert n / 0x40 == a && n % 0x40 == d;
    assert DecodeFirst(bs) == Some((n as char, 2));
  }

  lemma DecodedIsEncoding3(bs: seq<Byte>)
    requires |bs| >= 3 && 0xE0 <= bs[0] <= 0xEF && DecodeFirst(bs).Some?
    ensures DecodeFirst(bs).value.1 == 3
    ensures bs[..3] == EncodeChar(DecodeFirst(bs).value.0)
  {
    var a: int, b: int, d: int := bs[0] - 0xE0, bs[1] - 0x80, bs[2] - 0x80;
    var m: int := b * 0x40 + d;
    var n: int := a * 0x1000 + m;
    assert m / 0x40 == b && m % 0x40 == d;
    assert n / 0x1000 == a && n % 0x1000 == m;
    assert DecodeFirst(bs) == Some((n as char, 3));
  }

  lemma DecodedIsEncoding4(bs: seq<Byte>)
    requires |bs| >= 4 && 0xF0 <= bs[0] <= 0xF4 && DecodeFirst(bs).Some?
    ensures DecodeFirst(bs).value.1 == 4
    ensures bs[..4] == EncodeChar(DecodeFirst(bs).value.0)
  {
    var a: int, b: int, e: int, d: int := bs[0] - 0xF0, bs[1] - 0x80, bs[2] - 0x80, bs[3] - 0x80;
    var k: int := e * 0x40 + d;
    var m: int := b * 0x1000 + k;
    var n: int := a * 0x4_0000 + m;
    assert k / 0x40 == e && k % 0x40 == d;
    assert m / 0x1000 == b && m % 0x1000 == k;
    assert n / 0x4_0000 == a && n % 0x4_0000 == m;
    assert DecodeFirst(bs) == Some((n as char, 4));
  }

  /** Whatever the first sequence decodes to, its bytes are that scalar's encoding. */
  lemma DecodeFirstIsEncoding(bs: seq<Byte>)
    requires |bs| > 0 && DecodeFirst(bs).Some?
    ensures bs[..DecodeFirst(bs).value.1] == EncodeChar(DecodeFirst(bs).value.0)
  {
    if bs[0] < 0x80 {
    } else if bs[0] <= 0xDF {
      DecodedIsEncoding2(bs);
    } else if bs[0] <= 0xEF {
      DecodedIsEncoding3(bs);
    } else {
      DecodedIsEncoding4(bs);
    }
  }

  /** An accepted first sequence followed by the encoding of `rest` is the encoding of the scalar and `rest`. */
  lemma DecodedConsIsEncoding(bs: seq<Byte>, rest: string)
    requires |bs| > 0 && DecodeFirst(bs).Some?
    requires bs[DecodeFirst(bs).value.1..] == Encode(rest)
    ensures bs == Encode([DecodeFirst(bs).value.0] + rest)
  {
    var c, n := DecodeFirst(bs).value.0, DecodeFirst(bs).value.1;
    DecodeFirstIsEncoding(bs);
    EncodeStep(c, rest);
    assert bs == bs[..n] + bs[n..];
  }

  /** One step of `Encode`. */
  lemma EncodeStep(c: char, rest: string)
    ensures Encode([c] + rest) == EncodeChar(c) + Encode(rest)
  {
    assert ([c] + rest)[0] == c && ([c] + rest)[1..] == rest;
  }

  /** `from_utf8` accepts the encoding of every string and returns that string. */
  lemma {:induction false} DecodeEncode(s: string)
    ensures Decode(Encode(s)) == Some(s)
    decreases |s|
  {
    if |s| > 0 {
      var bs := Encode(s);
      var e := EncodeChar(s[0]);
      DecodeFirstEncodeChar(s[0], Encode(s[1..]));
      assert bs[|e|..] == Encode(s[1..]);
      DecodeEncode(s[1..]);
      assert [s[0]] + s[1..] == s;
    }
  }

  /**
   * `from_utf8` accepts exactly the encodings of strings, and gives back
   * the string encoded.
   */
  lemma DecodeIsEncodeInverse(bs: seq<Byte>, s: string)
    ensures Decode(bs) == Some(s) <==> bs == Encode(s)
  {
    if bs == Encode(s) {
      DecodeEncode(s);
    }
  }
}
