/** Escaping text for XML, and what an XML reader makes of it. */
module Escapes {
  import opened Jobs
  import opened Utf8

  // ---- The writer ----

  // U+FFFD in UTF-8.
  const REPLACEMENT := [0xEF as char, 0xBF as char, 0xBD as char]

  predicate IsBad(r: Rune) {
    !IsXmlChar(r.code) || r == ERROR
  }

  // The reference a character is written as, if it is not written as itself.
  function NameFor(code: int): Option<string> {
    if code == 0x22 then Some("#34")
    else if code == 0x27 then Some("#39")
    else if code == 0x26 then Some("amp")
    else if code == 0x3C then Some("lt")
    else if code == 0x3E then Some("gt")
    else if code == 0x9 then Some("#x9")
    else if code == 0xA then Some("#xA")
    else if code == 0xD then Some("#xD")
    else None
  }

  function Piece(s: string): string
    requires s != ""
  {
    var r := DecodeRune(s);
    match NameFor(r.code)
    case Some(name) => "&" + (name + ";")
    case None => if IsBad(r) then REPLACEMENT else s[..r.width]
  }

  function Escape(s: string): string
    decreases |s|
  {
    if s == "" then "" else Piece(s) + Escape(s[DecodeRune(s).width..])
  }

  // ---- The reader ----

  function DigitIn(c: char, radix: nat): (d: Option<nat>)
    ensures d.Some? ==> d.value < radix
  {
    var d :=
      if '0' <= c <= '9' then c as int - '0' as int
      else if 'A' <= c <= 'F' then c as int - 'A' as int + 10
      else if 'a' <= c <= 'f' then c as int - 'a' as int + 10
      else radix;
    if d < radix then Some(d) else None
  }

  function NumberIn(s: string, radix: nat): Option<nat> {
    if s == "" then None
    else
      var front := if |s| == 1 then Some(0) else NumberIn(s[..|s| - 1], radix);
      var last := DigitIn(s[|s| - 1], radix);
      if front == None || last == None then None else Some(front.value * radix + last.value)
  }

  // The character a reference stands for: section 4.1 of XML 1.0, with the entities of section 4.6.
  function CharFor(name: string): Option<int> {
    if name == "amp" then Some(0x26)
    else if name == "lt" then Some(0x3C)
    else if name == "gt" then Some(0x3E)
    else if name == "quot" then Some(0x22)
    else if name == "apos" then Some(0x27)
    else if name == "" || name[0] != '#' then None
    else
      var code := if |name| > 1 && name[1] == 'x' then NumberIn(name[2..], 16) else NumberIn(name[1..], 10);
      if code.Some? && IsXmlChar(code.value) then Some(code.value) else None
  }

  function IndexOf(s: string, c: char): (n: nat)
    ensures n <= |s|
  {
    if s == "" || s[0] == c then 0 else 1 + IndexOf(s[1..], c)
  }

  function Prepend(front: string, s: Option<string>): Option<string> {
    if s == None then None else Some(front + s.value)
  }

  // Character data with its references resolved.
  function Unescape(s: string): Option<string>
    decreases |s|
  {
    if s == "" then Some("")
    else if s[0] == '<' then None
    else if s[0] == '&' then
      var n := IndexOf(s[1..], ';');
      if n == |s[1..]| then None
      else
        match CharFor(s[1..][..n])
        case None => None
        case Some(c) => Prepend(EncodeRune(c), Unescape(s[1..][n + 1..]))
    else Prepend([s[0]], Unescape(s[1..]))
  }

  // ---- What survives ----

  // The text with everything that is not a legal character replaced.
  function Sanitize(s: string): string
    decreases |s|
  {
    if s == "" then ""
    else
      var r := DecodeRune(s);
      (if IsBad(r) then REPLACEMENT else s[..r.width]) + Sanitize(s[r.width..])
  }

  lemma {:induction false} IndexOfIs(front: string, c: char, rest: string)
    requires forall i | 0 <= i < |front| :: front[i] != c
    requires rest != "" ==> rest[0] == c
    ensures IndexOf(front + rest, c) == |front|
  {
    if front == "" {
      assert front + rest == rest;
    } else {
      assert (front + rest)[1..] == front[1..] + rest;
      IndexOfIs(front[1..], c, rest);
    }
  }

  // Text that is neither markup nor a reference is itself.
  lemma {:induction false} PlainText(t: string, rest: string)
    requires forall i | 0 <= i < |t| :: t[i] != '<' && t[i] != '&'
    ensures Unescape(t + rest) == Prepend(t, Unescape(rest))
  {
    if t == "" {
      assert t + rest == rest;
      if Unescape(rest).Some? { assert t + Unescape(rest).value == Unescape(rest).value; }
    } else {
      assert (t + rest)[1..] == t[1..] + rest;
      PlainText(t[1..], rest);
      if Unescape(rest).Some? {
        assert t + Unescape(rest).value == [t[0]] + (t[1..] + Unescape(rest).value);
      }
    }
  }

  lemma NamesDecimal(code: int)
    requires code in [0x22, 0x27]
    ensures CharFor(NameFor(code).value) == Some(code)
  {
    var name := NameFor(code).value;
    assert name[1..] == [name[1]] + [name[2]] && name[1..][..1] == [name[1]];
  }

  lemma NamesHex(code: int)
    requires code in [0x9, 0xA, 0xD]
    ensures CharFor(NameFor(code).value) == Some(code)
  {
    var name := NameFor(code).value;
    assert name[2..] == [name[2]];
  }

  // The reader knows every reference the writer writes.
  lemma NamesAgree(code: int)
    requires NameFor(code).Some?
    ensures CharFor(NameFor(code).value) == Some(code)
    ensures forall i | 0 <= i < |NameFor(code).value| :: NameFor(code).value[i] != ';'
  {
    if code in [0x22, 0x27] {
      NamesDecimal(code);
    } else if code in [0x9, 0xA, 0xD] {
      NamesHex(code);
    }
  }

  lemma ReferenceText(code: int, rest: string)
    requires NameFor(code).Some?
    ensures Unescape("&" + (NameFor(code).value + ";") + rest) == Prepend([Byte(code)], Unescape(rest))
  {
    var name := NameFor(code).value;
    var s := "&" + (name + ";") + rest;
    NamesAgree(code);
    assert s[1..] == name + (";" + rest);
    IndexOfIs(name, ';', ";" + rest);
    assert (name + (";" + rest))[..|name|] == name && (name + (";" + rest))[|name| + 1..] == rest;
  }

  lemma PieceText(s: string, rest: string)
    requires s != ""
    ensures var r := DecodeRune(s);
      Unescape(Piece(s) + rest) == Prepend(if IsBad(r) then REPLACEMENT else s[..r.width], Unescape(rest))
  {
    var r := DecodeRune(s);
    match NameFor(r.code)
    case Some(_) =>
      if s[0] as int >= 0x80 { HighBytes(s); }
      assert s[..r.width] == [Byte(r.code)];
      ReferenceText(r.code, rest);
    case None =>
      if s[0] as int >= 0x80 { HighBytes(s); }
      PlainText(Piece(s), rest);
  }

  /** Reading undoes escaping, up to the replacement of what XML cannot carry. */
  lemma {:induction false} UnescapeInvertsEscape(s: string)
    ensures Unescape(Escape(s)) == Some(Sanitize(s))
    decreases |s|
  {
    if s != "" {
      var rest := s[DecodeRune(s).width..];
      UnescapeInvertsEscape(rest);
      PieceText(s, Escape(rest));
    }
  }

  // ---- Exactly the legal texts survive unchanged ----

  lemma {:induction false} LegalTextStays(codes: seq<int>)
    requires AreXmlChars(codes)
    ensures Sanitize(Encode(codes)) == Encode(codes)
  {
    if codes != [] {
      var e, rest := EncodeRune(codes[0]), Encode(codes[1..]);
      DecodeInvertsEncode(codes[0], rest);
      LegalTextStays(codes[1..]);
      assert (e + rest)[..|e|] == e && (e + rest)[|e|..] == rest;
    }
  }

  lemma EncodeCons(code: int, codes: seq<int>)
    requires IsScalar(code) && forall i | 0 <= i < |codes| :: IsScalar(codes[i])
    ensures Encode([code] + codes) == EncodeRune(code) + Encode(codes)
  {
  }

  // Nothing is replaced at the front of a text that survives unchanged.
  lemma FrontStays(s: string)
    requires s != "" && Sanitize(s) == s
    ensures !IsBad(DecodeRune(s)) && Sanitize(s[DecodeRune(s).width..]) == s[DecodeRune(s).width..]
  {
  }

  lemma {:induction false} CodesOf(s: string) returns (codes: seq<int>)
    requires Sanitize(s) == s
    ensures AreXmlChars(codes) && s == Encode(codes)
    decreases |s|
  {
    if s == "" {
      codes := [];
    } else {
      FrontStays(s);
      EncodeInvertsDecode(s);
      var r := DecodeRune(s);
      var more := CodesOf(s[r.width..]);
      codes := [r.code] + more;
      EncodeCons(r.code, more);
    }
  }

  /** A text survives unchanged exactly when it is UTF-8 for a sequence of legal XML characters. */
  lemma LegalExactly(s: string)
    ensures Sanitize(s) == s <==> IsXmlText(s)
  {
    if Sanitize(s) == s {
      var codes := CodesOf(s);
    }
    if IsXmlText(s) {
      var codes: seq<int> :| AreXmlChars(codes) && s == Encode(codes);
      LegalTextStays(codes);
    }
  }

  // ---- Containment ----

  // No control character (hence no tab, line break or escape), no markup, no quote.
  predicate IsContained(s: string) {
    forall i | 0 <= i < |s| :: s[i] as int >= 0x20 && s[i] !in ['<', '>', '"', '\'']
  }

  lemma PieceContained(s: string)
    requires s != ""
    ensures IsContained(Piece(s))
  {
  }

  /** Escaped text never leaves its line, its element, or its attribute. */
  lemma {:induction false} EscapeContained(s: string)
    ensures IsContained(Escape(s))
    decreases |s|
  {
    if s != "" {
      PieceContained(s);
      EscapeContained(s[DecodeRune(s).width..]);
    }
  }
}
