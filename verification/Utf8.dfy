/** UTF-8 as Go decodes it. Texts are byte strings: a char stands for one byte. */
module Utf8 {

  // A decoded code point and the number of bytes it took; an undecodable byte reads as (U+FFFD, 1).
  datatype Rune = Rune(code: int, width: nat)

  const ERROR := Rune(0xFFFD, 1)

  predicate IsScalar(c: int) {
    0 <= c < 0xD800 || 0xE000 <= c < 0x110000
  }

  // The Char production, section 2.2 of XML 1.0.
  predicate IsXmlChar(c: int) {
    c == 0x9 || c == 0xA || c == 0xD || 0x20 <= c <= 0xD7FF || 0xE000 <= c <= 0xFFFD || 0x10000 <= c <= 0x10FFFF
  }

  predicate Continues(s: string, i: nat, low: int, high: int) {
    i < |s| && low <= s[i] as int <= high
  }

  function Bits(c: char): int {
    c as int - 0x80
  }

  function DecodeRune(s: string): (r: Rune)
    requires s != ""
    ensures 1 <= r.width <= |s|
  {
    var b := s[0] as int;
    if b < 0x80 then Rune(b, 1)
    else if 0xC2 <= b <= 0xDF && Continues(s, 1, 0x80, 0xBF) then Rune((b - 0xC0) * 0x40 + Bits(s[1]), 2)
    else if 0xE0 <= b <= 0xEF && Continues(s, 1, if b == 0xE0 then 0xA0 else 0x80, if b == 0xED then 0x9F else 0xBF)
         && Continues(s, 2, 0x80, 0xBF)
    then Rune((b - 0xE0) * 0x1000 + Bits(s[1]) * 0x40 + Bits(s[2]), 3)
    else if 0xF0 <= b <= 0xF4 && Continues(s, 1, if b == 0xF0 then 0x90 else 0x80, if b == 0xF4 then 0x8F else 0xBF)
         && Continues(s, 2, 0x80, 0xBF) && Continues(s, 3, 0x80, 0xBF)
    then Rune((b - 0xF0) * 0x40000 + Bits(s[1]) * 0x1000 + Bits(s[2]) * 0x40 + Bits(s[3]), 4)
    else ERROR
  }

  function Byte(n: int): char
    requires 0 <= n < 0x100
  {
    n as char
  }

  function EncodeRune(c: int): (s: string)
    requires IsScalar(c)
    ensures s != ""
  {
    if c < 0x80 then [Byte(c)]
    else if c < 0x800 then [Byte(0xC0 + c / 0x40), Byte(0x80 + c % 0x40)]
    else if c < 0x10000 then [Byte(0xE0 + c / 0x1000), Byte(0x80 + c / 0x40 % 0x40), Byte(0x80 + c % 0x40)]
    else
      [Byte(0xF0 + c / 0x40000), Byte(0x80 + c / 0x1000 % 0x40), Byte(0x80 + c / 0x40 % 0x40), Byte(0x80 + c % 0x40)]
  }

  /** One character of each length. */
  lemma EncodedSamples()
    ensures EncodeRune(0x41) == "A"
    ensures EncodeRune(0xE9) == [0xC3 as char, 0xA9 as char]
    ensures EncodeRune(0x20AC) == [0xE2 as char, 0x82 as char, 0xAC as char]
    ensures EncodeRune(0x1F600) == [0xF0 as char, 0x9F as char, 0x98 as char, 0x80 as char]
  {
  }

  /** The legal characters are all but the controls, except tab and line breaks, the surrogates, U+FFFE and U+FFFF. */
  lemma XmlCharExactly(c: int)
    ensures IsXmlChar(c) <==>
      IsScalar(c) && (c >= 0x20 || c == 0x9 || c == 0xA || c == 0xD) && c != 0xFFFE && c != 0xFFFF
  {
  }

  lemma Base64(c: int)
    requires c >= 0
    ensures c == c / 0x40 * 0x40 + c % 0x40
    ensures c / 0x40 == c / 0x1000 * 0x40 + c / 0x40 % 0x40
    ensures c / 0x1000 == c / 0x40000 * 0x40 + c / 0x1000 % 0x40
  {
  }

  lemma DecodeTwo(s: string, c: int)
    requires 0x80 <= c < 0x800 && |s| >= 2
    requires s[0] as int == 0xC0 + c / 0x40 && s[1] as int == 0x80 + c % 0x40
    ensures DecodeRune(s) == Rune(c, 2)
  {
  }

  lemma DecodeThree(s: string, c: int)
    requires 0x800 <= c < 0x10000 && IsScalar(c) && |s| >= 3
    requires s[0] as int == 0xE0 + c / 0x1000 && s[1] as int == 0x80 + c / 0x40 % 0x40 && s[2] as int == 0x80 + c % 0x40
    ensures DecodeRune(s) == Rune(c, 3)
  {
    Base64(c);
  }

  lemma DecodeFour(s: string, c: int)
    requires 0x10000 <= c < 0x110000 && |s| >= 4
    requires s[0] as int == 0xF0 + c / 0x40000 && s[1] as int == 0x80 + c / 0x1000 % 0x40
    requires s[2] as int == 0x80 + c / 0x40 % 0x40 && s[3] as int == 0x80 + c % 0x40
    ensures DecodeRune(s) == Rune(c, 4)
  {
    Base64(c);
  }

  /** Decoding undoes encoding, whatever follows. */
  lemma DecodeInvertsEncode(c: int, rest: string)
    requires IsScalar(c)
    ensures DecodeRune(EncodeRune(c) + rest) == Rune(c, |EncodeRune(c)|)
  {
    var e := EncodeRune(c);
    var s := e + rest;
    assert forall i | 0 <= i < |e| :: s[i] == e[i];
    if 0x80 <= c < 0x800 {
      DecodeTwo(s, c);
    } else if 0x800 <= c < 0x10000 {
      DecodeThree(s, c);
    } else if 0x10000 <= c {
      DecodeFour(s, c);
    }
  }

  lemma Unbase64(c: int, high: int, b: char)
    requires c == high * 0x40 + Bits(b) && 0x80 <= b as int <= 0xBF
    ensures c / 0x40 == high && 0x80 + c % 0x40 == b as int
  {
  }

  lemma EncodeTwo(s: string)
    requires s != "" && DecodeRune(s).width == 2
    ensures var c := DecodeRune(s).code; 0x80 <= c < 0x800 && EncodeRune(c) == s[..2]
  {
    Unbase64(DecodeRune(s).code, s[0] as int - 0xC0, s[1]);
  }

  lemma EncodeThree(s: string)
    requires s != "" && DecodeRune(s).width == 3
    ensures var c := DecodeRune(s).code; 0x800 <= c < 0x10000 && IsScalar(c) && EncodeRune(c) == s[..3]
  {
    var b := s[0] as int;
    var high := (b - 0xE0) * 0x40 + Bits(s[1]);
    Unbase64(DecodeRune(s).code, high, s[2]);
    Unbase64(high, b - 0xE0, s[1]);
  }

  lemma EncodeFour(s: string)
    requires s != "" && DecodeRune(s).width == 4
    ensures var c := DecodeRune(s).code; 0x10000 <= c < 0x110000 && EncodeRune(c) == s[..4]
  {
    var b := s[0] as int;
    var top := (b - 0xF0) * 0x40 + Bits(s[1]);
    var high := top * 0x40 + Bits(s[2]);
    Unbase64(DecodeRune(s).code, high, s[3]);
    Unbase64(high, top, s[2]);
    Unbase64(top, b - 0xF0, s[1]);
  }

  /** Encoding undoes decoding wherever it did not fail. */
  lemma EncodeInvertsDecode(s: string)
    requires s != "" && DecodeRune(s) != ERROR
    ensures IsScalar(DecodeRune(s).code)
    ensures EncodeRune(DecodeRune(s).code) == s[..DecodeRune(s).width]
  {
    match DecodeRune(s).width
    case 2 => EncodeTwo(s);
    case 3 => EncodeThree(s);
    case 4 => EncodeFour(s);
    case _ =>
  }

  // Beyond ASCII, every byte of an encoding has its high bit set.
  lemma HighBytes(s: string)
    requires s != "" && s[0] as int >= 0x80
    ensures var r := DecodeRune(s); r.code >= 0x80 && forall i | 0 <= i < r.width :: s[i] as int >= 0x80
  {
  }

  function Encode(codes: seq<int>): string
    requires forall i | 0 <= i < |codes| :: IsScalar(codes[i])
  {
    if codes == [] then "" else EncodeRune(codes[0]) + Encode(codes[1..])
  }

  predicate AreXmlChars(codes: seq<int>): (r: bool)
    ensures r ==> forall i | 0 <= i < |codes| :: IsScalar(codes[i])
  {
    forall i | 0 <= i < |codes| :: IsXmlChar(codes[i])
  }

  // The text encodes a sequence of legal XML characters.
  ghost predicate IsXmlText(s: string) {
    exists codes: seq<int> :: AreXmlChars(codes) && s == Encode(codes)
  }
}
