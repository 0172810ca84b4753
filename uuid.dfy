/**
 * The 128-bit `Uuid` and its textual forms (section 4 of RFC 9562):
 * `to_string` writes the lower-case hyphenated form 8-4-4-4-12, and
 * `Uuid::parse_str` reads the simple (32 hex digits), hyphenated, braced
 * (`{…}`) and URN (`urn:uuid:…`) forms, with hex digits in either case.
 */
module Uuids {
  import opened Prelude
  import Utf8

  type Uuid = b: seq<Byte> | |b| == 16 witness seq(16, i => 0)

  const HexAlphabet: string := "0123456789abcdef"

  predicate IsLowerHex(c: char) { '0' <= c <= '9' || 'a' <= c <= 'f' }

  function HexDigit(n: nat): (c: char)
    requires n < 16
    ensures IsLowerHex(c)
  {
    HexAlphabet[n]
  }

  /** The value of one hex digit, upper or lower case. */
  function HexValue(c: char): (r: Option<nat>)
    ensures r.Some? ==> r.value < 16
  {
    if '0' <= c <= '9' then Some(c as int - '0' as int)
    else if 'a' <= c <= 'f' then Some(c as int - 'a' as int + 10)
    else if 'A' <= c <= 'F' then Some(c as int - 'A' as int + 10)
    else None
  }

  lemma HexValueOfDigit(n: nat)
    requires n < 16
    ensures HexValue(HexDigit(n)) == Some(n)
  {
  }

  /** Two lower-case hex digits per byte, most significant first. */
  function Hex(bs: seq<Byte>): (s: string)
    ensures |s| == 2 * |bs|
  {
    if bs == [] then []
    else [HexDigit(bs[0] / 16), HexDigit(bs[0] % 16)] + Hex(bs[1..])
  }

  /** One byte from two hex digits, the high nibble first. */
  function ParseByte(hi: char, lo: char): (r: Option<Byte>)
  {
    match (HexValue(hi), HexValue(lo))
    case (Some(h), Some(l)) => Some(h * 16 + l)
    case _ => None
  }

  lemma ParseByteOfHex(b: Byte)
    ensures ParseByte(HexDigit(b / 16), HexDigit(b % 16)) == Some(b)
  {
    HexValueOfDigit(b / 16);
    HexValueOfDigit(b % 16);
  }

  /** Reads pairs of hex digits back into bytes; None on an odd length or a non-hex character. */
  function ParseHex(s: string): (r: Option<seq<Byte>>)
    ensures r.Some? ==> 2 * |r.value| == |s|
  {
    if |s| == 0 then Some([])
    else if |s| == 1 then None
    else
      match (ParseByte(s[0], s[1]), ParseHex(s[2..]))
      case (Some(b), Some(rest)) => Some([b] + rest)
      case _ => None
  }

  lemma {:induction false} ParseHexOfHex(bs: seq<Byte>)
    ensures ParseHex(Hex(bs)) == Some(bs)
  {
    if bs != [] {
      var s := Hex(bs);
      assert s == [HexDigit(bs[0] / 16), HexDigit(bs[0] % 16)] + Hex(bs[1..]);
      ParseByteOfHex(bs[0]);
      assert s[2..] == Hex(bs[1..]);
      ParseHexOfHex(bs[1..]);
      assert [bs[0]] + bs[1..] == bs;
    }
  }

  /** Inserts the four hyphens of the 8-4-4-4-12 layout into 32 hex digits. */
  function Hyphenate(h: string): (s: string)
    requires |h| == 32
    ensures |s| == 36
  {
    h[0..8] + "-" + h[8..12] + "-" + h[12..16] + "-" + h[16..20] + "-" + h[20..32]
  }

  /** The 32 digits of a 36-character hyphenated form, hyphen positions dropped. */
  function Unhyphenate(s: string): (h: string)
    requires |s| == 36
    ensures |h| == 32
  {
    s[0..8] + s[9..13] + s[14..18] + s[19..23] + s[24..36]
  }

  predicate HyphensInPlace(s: string)
    requires |s| == 36
  {
    s[8] == '-' && s[13] == '-' && s[18] == '-' && s[23] == '-'
  }

  lemma UnhyphenateHyphenate(h: string)
    requires |h| == 32
    ensures HyphensInPlace(Hyphenate(h)) && Unhyphenate(Hyphenate(h)) == h
  {
    var s := Hyphenate(h);
    var t := h[0..8] + "-" + h[8..12] + "-" + h[12..16];
    assert s == t + "-" + h[16..20] + "-" + h[20..32];
    assert s[0..8] == h[0..8] && s[9..13] == h[8..12] && s[14..18] == h[12..16];
    assert s[19..23] == h[16..20] && s[24..36] == h[20..32];
    assert h == h[0..8] + h[8..12] + h[12..16] + h[16..20] + h[20..32];
  }

  /** `Uuid::to_string`: the lower-case hyphenated form. */
  function ToString(u: Uuid): (s: string)
    ensures |s| == 36
  {
    Hyphenate(Hex(u))
  }

  /** The hyphenated form: hyphens at 8, 13, 18 and 23, hex digits everywhere else. */
  function ParseHyphenated(s: string): (r: Option<Uuid>)
    requires |s| == 36
  {
    if HyphensInPlace(s) then
      match ParseHex(Unhyphenate(s))
      case Some(bs) => Some(bs)
      case None => None
    else None
  }

  const UrnPrefix: string := "urn:uuid:"

  /** `Uuid::parse_str(s).ok()`: the form is chosen by the length alone. */
  function ParseStr(s: string): (r: Option<Uuid>)
    ensures r.Some? ==> |s| in {32, 36, 38, 45}
  {
    if |s| == 32 then
      match ParseHex(s)
      case Some(bs) => Some(bs)
      case None => None
    else if |s| == 36 then ParseHyphenated(s)
    else if |s| == 38 then
      if s[0] == '{' && s[37] == '}' then ParseHyphenated(s[1..37]) else None
    else if |s| == 45 then
      if s[..9] == UrnPrefix then ParseHyphenated(s[9..]) else None
    else None
  }

  /** Parsing what `to_string` wrote gives back the same identifier. */
  lemma ParseToString(u: Uuid)
    ensures ParseStr(ToString(u)) == Some(u)
  {
    UnhyphenateHyphenate(Hex(u));
    ParseHexOfHex(u);
  }

  /** Distinct identifiers have distinct textual forms. */
  lemma ToStringInjective(u: Uuid, v: Uuid)
    requires ToString(u) == ToString(v)
    ensures u == v
  {
    ParseToString(u);
    ParseToString(v);
  }

  lemma {:induction false} HexIsLowerHex(bs: seq<Byte>)
    ensures forall i :: 0 <= i < |Hex(bs)| ==> IsLowerHex(Hex(bs)[i])
  {
    if bs != [] {
      HexIsLowerHex(bs[1..]);
    }
  }

  lemma ToStringIsAscii(u: Uuid)
    ensures Utf8.IsAscii(ToString(u))
  {
    var h := Hex(u);
    HexIsLowerHex(u);
    UnhyphenateHyphenate(h);
    var s := ToString(u);
    forall i | 0 <= i < |s| ensures s[i] < 128 as char {
      if i !in {8, 13, 18, 23} {
        assert s[i] in Unhyphenate(s);
      }
    }
  }

  /** The bytes of `uid.to_string()`, as `as_bytes()` gives them. */
  function KeyBytes(u: Uuid): (bs: seq<Byte>)
    ensures |bs| == 36
  {
    ToStringIsAscii(u);
    Utf8.EncodeAscii(ToString(u));
    Utf8.Encode(ToString(u))
  }

  /** `key.and_then(from_utf8).and_then(Uuid::parse_str)`, as both consumers decode a record key. */
  function DecodeKey(key: Option<seq<Byte>>): (r: Option<Uuid>)
    ensures r.Some? <==> key.Some? && Utf8.Decode(key.value).Some? && ParseStr(Utf8.Decode(key.value).value).Some?
    ensures r.Some? ==> ParseStr(Utf8.Decode(key.value).value) == r
  {
    match key
    case None => None
    case Some(bs) =>
      match Utf8.Decode(bs)
      case None => None
      case Some(s) => ParseStr(s)
  }

  /** The key a producer writes decodes, on the consumer side, to the identifier it was made from. */
  lemma DecodeKeyBytes(u: Uuid)
    ensures DecodeKey(Some(KeyBytes(u))) == Some(u)
  {
    Utf8.DecodeEncode(ToString(u));
    ParseToString(u);
  }
}
