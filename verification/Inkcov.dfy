/** Reading Ghostscript's ink coverage report: one record per page, possibly without line breaks. */
module Inkcov {
  import opened Jobs
  import opened Decimal

  // The white space class of the regular expression.
  predicate IsBlank(c: char) {
    c as int in [0x09, 0x0A, 0x0C, 0x0D, 0x20]
  }

  predicate AllBlank(s: string) {
    forall i | 0 <= i < |s| :: IsBlank(s[i])
  }

  predicate NoDigit(s: string) {
    forall i | 0 <= i < |s| :: !IsDigit(s[i])
  }

  // ---- The language of the regular expression ----

  // \d+\.\d+
  ghost predicate IsNumber(t: string) {
    exists dot | 0 < dot < |t| - 1 :: t[dot] == '.' && AllDigits(t[..dot]) && AllDigits(t[dot + 1..])
  }

  // The fixed end of the expression.
  const TAIL := "CMYK OK"

  // Numbers, each followed by blanks, and then the tail.
  function Text(numbers: seq<string>, blanks: seq<string>): string
    requires |numbers| == |blanks|
    decreases |numbers|
  {
    if numbers == [] then TAIL else numbers[0] + (blanks[0] + Text(numbers[1..], blanks[1..]))
  }

  ghost predicate Proper(numbers: seq<string>, blanks: seq<string>) {
    && |numbers| == |blanks|
    && (forall i | 0 <= i < |numbers| :: IsNumber(numbers[i]))
    && (forall i | 0 <= i < |blanks| :: blanks[i] != "" && AllBlank(blanks[i]))
  }

  // The text is in the language, with the given captures.
  ghost predicate InLanguage(t: string, numbers: seq<string>) {
    exists blanks :: Proper(numbers, blanks) && t == Text(numbers, blanks)
  }

  /** A record without numbers is the fixed text; each further number comes first, with blanks after it. */
  lemma WordsOfLanguage(t: string, number: string, numbers: seq<string>)
    ensures InLanguage(t, []) <==> t == "CMYK OK"
    ensures InLanguage(t, [number] + numbers) <==>
      exists blank, more | IsNumber(number) && blank != "" && AllBlank(blank) && InLanguage(more, numbers) ::
        t == number + (blank + more)
  {
    WordWithoutNumbers(t);
    WordWithNumbers(t, number, numbers);
  }

  lemma WordWithoutNumbers(t: string)
    ensures InLanguage(t, []) <==> t == "CMYK OK"
  {
    if t == TAIL {
      assert Proper([], []) && t == Text([], []);
    }
  }

  lemma WordWithNumbers(t: string, number: string, numbers: seq<string>)
    ensures InLanguage(t, [number] + numbers) <==>
      exists blank, more | IsNumber(number) && blank != "" && AllBlank(blank) && InLanguage(more, numbers) ::
        t == number + (blank + more)
  {
    var all := [number] + numbers;
    assert all[1..] == numbers;
    if InLanguage(t, all) {
      var blanks :| Proper(all, blanks) && t == Text(all, blanks);
      assert forall i | 0 <= i < |numbers| :: numbers[i] == all[i + 1];
      assert Proper(numbers, blanks[1..]);
      assert IsNumber(all[0]);
      assert t == number + (blanks[0] + Text(numbers, blanks[1..]));
    }
    if blank, more :|
      IsNumber(number) && blank != "" && AllBlank(blank) && InLanguage(more, numbers) && t == number + (blank + more)
    {
      var blanks :| Proper(numbers, blanks) && more == Text(numbers, blanks);
      assert ([blank] + blanks)[1..] == blanks;
      assert Proper(all, [blank] + blanks);
    }
  }

  // ---- The matcher ----

  function DigitSpan(s: string): (n: nat)
    ensures n <= |s|
  {
    if s != "" && IsDigit(s[0]) then 1 + DigitSpan(s[1..]) else 0
  }

  function BlankSpan(s: string): (n: nat)
    ensures n <= |s|
  {
    if s != "" && IsBlank(s[0]) then 1 + BlankSpan(s[1..]) else 0
  }

  // The length of a number at the front of the text, or 0.
  function NumberSpan(s: string): (n: nat)
    ensures n <= |s|
  {
    var a := DigitSpan(s);
    if a == 0 || a == |s| || s[a] != '.' then 0
    else
      var b := DigitSpan(s[a + 1..]);
      if b == 0 then 0 else a + 1 + b
  }

  // A number and the blanks after it, cut off the front of a text.
  datatype Field = Field(number: string, blank: string, rest: string)

  function CutField(s: string): (r: Option<Field>)
    ensures r.Some? ==> |r.value.rest| < |s|
  {
    var a := NumberSpan(s);
    var t := s[a..];
    var b := BlankSpan(t);
    if a == 0 || b == 0 then None else Some(Field(s[..a], t[..b], t[b..]))
  }

  predicate StartsWithTail(s: string) {
    |s| >= |TAIL| && s[..|TAIL|] == TAIL
  }

  // The captures of a match, and the text after it.
  datatype Match = Match(numbers: seq<string>, rest: string)

  // The match of n numbers and the tail at the front of the text.
  function MatchFront(s: string, n: nat): (r: Option<Match>)
    ensures r.Some? ==> |r.value.rest| < |s|
    decreases n
  {
    if n == 0 then if StartsWithTail(s) then Some(Match([], s[|TAIL|..])) else None
    else
      var field := CutField(s);
      if field == None then None
      else
        var tail := MatchFront(field.value.rest, n - 1);
        if tail == None then None
        else Some(Match([field.value.number] + tail.value.numbers, tail.value.rest))
  }

  // All matches, each the leftmost one in what the previous ones left.
  function FindAll(s: string, n: nat): seq<seq<string>>
    decreases |s|
  {
    match MatchFront(s, n)
    case Some(m) => [m.numbers] + FindAll(m.rest, n)
    case None => if s == "" then [] else FindAll(s[1..], n)
  }

  // ---- The matcher finds exactly what the expression describes ----

  lemma {:induction false} DigitSpanIs(digits: string, rest: string)
    requires AllDigits(digits) && (rest != "" ==> !IsDigit(rest[0]))
    ensures DigitSpan(digits + rest) == |digits|
  {
    if digits == "" {
      assert digits + rest == rest;
    } else {
      assert (digits + rest)[1..] == digits[1..] + rest;
      DigitSpanIs(digits[1..], rest);
    }
  }

  lemma {:induction false} BlankSpanIs(blanks: string, rest: string)
    requires AllBlank(blanks) && (rest != "" ==> !IsBlank(rest[0]))
    ensures BlankSpan(blanks + rest) == |blanks|
  {
    if blanks == "" {
      assert blanks + rest == rest;
    } else {
      assert (blanks + rest)[1..] == blanks[1..] + rest;
      BlankSpanIs(blanks[1..], rest);
    }
  }

  lemma {:induction false} DigitSpanMeans(s: string)
    ensures AllDigits(s[..DigitSpan(s)])
  {
    if s != "" && IsDigit(s[0]) {
      DigitSpanMeans(s[1..]);
      assert s[..DigitSpan(s)] == [s[0]] + s[1..][..DigitSpan(s[1..])];
    }
  }

  lemma {:induction false} BlankSpanMeans(s: string)
    ensures AllBlank(s[..BlankSpan(s)])
  {
    if s != "" && IsBlank(s[0]) {
      BlankSpanMeans(s[1..]);
      assert s[..BlankSpan(s)] == [s[0]] + s[1..][..BlankSpan(s[1..])];
    }
  }

  lemma NumberSpanMeans(s: string)
    requires NumberSpan(s) > 0
    ensures IsNumber(s[..NumberSpan(s)])
  {
    var a := DigitSpan(s);
    var b := DigitSpan(s[a + 1..]);
    DigitSpanMeans(s);
    DigitSpanMeans(s[a + 1..]);
    var t := s[..a + 1 + b];
    assert t[a] == '.' && t[..a] == s[..a] && t[a + 1..] == s[a + 1..][..b];
  }

  lemma NumberSpanIs(number: string, rest: string)
    requires IsNumber(number) && rest != "" && !IsDigit(rest[0])
    ensures NumberSpan(number + rest) == |number|
  {
    var dot :| 0 < dot < |number| - 1 && number[dot] == '.' && AllDigits(number[..dot]) && AllDigits(number[dot + 1..]);
    var s := number + rest;
    assert s == number[..dot] + (number[dot..] + rest);
    DigitSpanIs(number[..dot], number[dot..] + rest);
    assert s[dot + 1..] == number[dot + 1..] + rest;
    DigitSpanIs(number[dot + 1..], rest);
  }

  ghost predicate ProperField(number: string, blank: string) {
    IsNumber(number) && blank != "" && AllBlank(blank)
  }

  lemma CutFieldMeans(s: string)
    requires CutField(s).Some?
    ensures var f := CutField(s).value; ProperField(f.number, f.blank) && s == f.number + (f.blank + f.rest)
  {
    var a := NumberSpan(s);
    NumberSpanMeans(s);
    BlankSpanMeans(s[a..]);
  }

  lemma CutFieldIs(number: string, blank: string, rest: string)
    requires ProperField(number, blank) && rest != "" && !IsBlank(rest[0])
    ensures CutField(number + (blank + rest)) == Some(Field(number, blank, rest))
  {
    var s := number + (blank + rest);
    NumberSpanIs(number, blank + rest);
    assert s[|number|..] == blank + rest;
    BlankSpanIs(blank, rest);
  }

  lemma TextCons(number: string, blank: string, numbers: seq<string>, blanks: seq<string>, rest: string)
    requires Proper(numbers, blanks) && ProperField(number, blank)
    ensures Proper([number] + numbers, [blank] + blanks)
    ensures Text([number] + numbers, [blank] + blanks) + rest == number + (blank + (Text(numbers, blanks) + rest))
  {
  }

  lemma MatchParts(s: string, n: nat, m: Match) returns (f: Field, tail: Match)
    requires n > 0 && MatchFront(s, n) == Some(m)
    ensures ProperField(f.number, f.blank) && s == f.number + (f.blank + f.rest)
    ensures MatchFront(f.rest, n - 1) == Some(tail) && m == Match([f.number] + tail.numbers, tail.rest)
  {
    CutFieldMeans(s);
    f := CutField(s).value;
    tail := MatchFront(f.rest, n - 1).value;
  }

  lemma TailIsSound(s: string, m: Match)
    requires MatchFront(s, 0) == Some(m)
    ensures m.numbers == [] && s == Text([], []) + m.rest
  {
  }

  lemma FieldIsSound(s: string, f: Field, tail: Match, more: seq<string>) returns (blanks: seq<string>)
    requires ProperField(f.number, f.blank) && s == f.number + (f.blank + f.rest)
    requires Proper(tail.numbers, more) && f.rest == Text(tail.numbers, more) + tail.rest
    ensures Proper([f.number] + tail.numbers, blanks) && s == Text([f.number] + tail.numbers, blanks) + tail.rest
  {
    blanks := [f.blank] + more;
    TextCons(f.number, f.blank, tail.numbers, more, tail.rest);
  }

  lemma {:induction false} MatchIsSound(s: string, n: nat, m: Match) returns (blanks: seq<string>)
    requires MatchFront(s, n) == Some(m)
    ensures |m.numbers| == n && Proper(m.numbers, blanks) && s == Text(m.numbers, blanks) + m.rest
    decreases n, 1
  {
    if n == 0 {
      TailIsSound(s, m);
      blanks := [];
    } else {
      var f, tail := MatchParts(s, n, m);
      blanks := TailMatchIsSound(s, n, f, tail);
    }
  }

  lemma TailMatchIsSound(s: string, n: nat, f: Field, tail: Match) returns (blanks: seq<string>)
    requires n > 0 && ProperField(f.number, f.blank) && s == f.number + (f.blank + f.rest)
    requires MatchFront(f.rest, n - 1) == Some(tail)
    ensures |tail.numbers| == n - 1
    ensures Proper([f.number] + tail.numbers, blanks) && s == Text([f.number] + tail.numbers, blanks) + tail.rest
    decreases n, 0
  {
    var more := MatchIsSound(f.rest, n - 1, tail);
    blanks := FieldIsSound(s, f, tail, more);
  }

  // A record begins with a digit, or is only the tail.
  lemma TextStart(numbers: seq<string>, blanks: seq<string>)
    requires Proper(numbers, blanks)
    ensures var t := Text(numbers, blanks); t != "" && !IsBlank(t[0])
  {
  }

  lemma TailMatches(rest: string)
    ensures MatchFront(TAIL + rest, 0) == Some(Match([], rest))
  {
    assert (TAIL + rest)[..|TAIL|] == TAIL && (TAIL + rest)[|TAIL|..] == rest;
  }

  lemma {:induction false} MatchIsComplete(numbers: seq<string>, blanks: seq<string>, rest: string)
    requires Proper(numbers, blanks)
    ensures MatchFront(Text(numbers, blanks) + rest, |numbers|) == Some(Match(numbers, rest))
    decreases |numbers|
  {
    if numbers == [] {
      TailMatches(rest);
    } else {
      var t := Text(numbers[1..], blanks[1..]);
      MatchIsComplete(numbers[1..], blanks[1..], rest);
      TextStart(numbers[1..], blanks[1..]);
      CutFieldIs(numbers[0], blanks[0], t + rest);
      TextCons(numbers[0], blanks[0], numbers[1..], blanks[1..], rest);
      assert [numbers[0]] + numbers[1..] == numbers && [blanks[0]] + blanks[1..] == blanks;
    }
  }

  /** The matcher reports a match exactly where the text begins with a word of the language, and a text begins
      with one such word in one way only, so the priorities of the expression's operators do not matter. */
  lemma MatchIsRegex(word: string, rest: string, numbers: seq<string>)
    ensures MatchFront(word + rest, |numbers|) == Some(Match(numbers, rest)) <==> InLanguage(word, numbers)
  {
    var s := word + rest;
    if MatchFront(s, |numbers|) == Some(Match(numbers, rest)) {
      var blanks := MatchIsSound(s, |numbers|, Match(numbers, rest));
      var t := Text(numbers, blanks);
      assert |t| == |word|;
      assert t == (t + rest)[..|t|] == word;
    }
    if InLanguage(word, numbers) {
      var blanks :| Proper(numbers, blanks) && word == Text(numbers, blanks);
      MatchIsComplete(numbers, blanks, rest);
    }
  }

  // ---- Reports ----

  // A record of the language, and the digit-free text before it.
  datatype Page = Page(before: string, text: string, numbers: seq<string>)

  ghost predicate WellFormed(p: Page, n: nat) {
    NoDigit(p.before) && |p.numbers| == n && InLanguage(p.text, p.numbers)
  }

  function Report(pages: seq<Page>, after: string): string {
    if pages == [] then after else pages[0].before + (pages[0].text + Report(pages[1..], after))
  }

  function Numbers(pages: seq<Page>): (r: seq<seq<string>>)
    ensures |r| == |pages|
  {
    if pages == [] then [] else [pages[0].numbers] + Numbers(pages[1..])
  }

  lemma {:induction false} SkipDigitless(junk: string, rest: string, n: nat)
    requires NoDigit(junk) && n > 0
    ensures FindAll(junk + rest, n) == FindAll(rest, n)
  {
    if junk == "" {
      assert junk + rest == rest;
    } else {
      var s := junk + rest;
      assert s[0] == junk[0];
      assert s[1..] == junk[1..] + rest;
      SkipDigitless(junk[1..], rest, n);
    }
  }

  lemma NothingIn(junk: string, n: nat)
    requires NoDigit(junk) && n > 0
    ensures FindAll(junk, n) == []
  {
  }

  lemma FindOneMore(p: Page, rest: string, n: nat)
    requires WellFormed(p, n) && n > 0
    ensures FindAll(p.before + (p.text + rest), n) == [p.numbers] + FindAll(rest, n)
  {
    SkipDigitless(p.before, p.text + rest, n);
    MatchIsRegex(p.text, rest, p.numbers);
  }

  /** For any records, joined by any digit-free separators (even none), scanning yields one match per record,
      in order, with the record's own numbers. */
  lemma {:induction false} ReportRoundTrip(pages: seq<Page>, after: string, n: nat)
    requires forall i | 0 <= i < |pages| :: WellFormed(pages[i], n)
    requires NoDigit(after) && n > 0
    ensures FindAll(Report(pages, after), n) == Numbers(pages)
    decreases |pages|
  {
    if pages == [] {
      NothingIn(after, n);
    } else {
      ReportRoundTrip(pages[1..], after, n);
      FindOneMore(pages[0], Report(pages[1..], after), n);
    }
  }

  // ---- Counting ----

  // The exact value of whole '.' fraction.
  function Number(whole: string, fraction: string): real
    requires AllDigits(whole) && AllDigits(fraction)
  {
    Pow10Positive(|fraction|);
    ValueOf(whole) as real + Ratio(ValueOf(fraction), Pow10(|fraction|))
  }

  // The exact value of digits '.' digits; 0 for any other text.
  function Value(t: string): real {
    var a := DigitSpan(t);
    if a < |t| && AllDigits(t[a + 1..]) then
      DigitSpanMeans(t);
      Number(t[..a], t[a + 1..])
    else 0.0
  }

  function Ratio(n: int, p: nat): real
    requires p > 0
  {
    n as real / p as real
  }

  lemma PointMoves(w: nat, f: nat, p: nat, joined: nat)
    requires p > 0 && joined == w * p + f
    ensures w as real + Ratio(f, p) == Ratio(joined, p)
  {
  }

  lemma NumberIsShifted(whole: string, fraction: string)
    requires AllDigits(whole) && AllDigits(fraction)
    ensures Pow10(|fraction|) > 0
    ensures Number(whole, fraction) == Ratio(ValueOf(whole + fraction), Pow10(|fraction|))
  {
    Pow10Positive(|fraction|);
    ValueOfJoined(whole, fraction);
    PointMoves(ValueOf(whole), ValueOf(fraction), Pow10(|fraction|), ValueOf(whole + fraction));
  }

  lemma ValueParts(whole: string, fraction: string)
    requires AllDigits(whole) && AllDigits(fraction)
    ensures Value(whole + ("." + fraction)) == Number(whole, fraction)
  {
    var t := whole + ("." + fraction);
    DigitSpanIs(whole, "." + fraction);
    assert t[|whole| + 1..] == fraction && t[..|whole|] == whole;
  }

  /** A coverage is the number its digits spell without the point, shifted by the digits after the point. */
  lemma ValueIsShifted(whole: string, fraction: string)
    requires AllDigits(whole) && AllDigits(fraction)
    ensures Pow10(|fraction|) > 0
    ensures Value(whole + ("." + fraction)) == Ratio(ValueOf(whole + fraction), Pow10(|fraction|))
  {
    ValueParts(whole, fraction);
    NumberIsShifted(whole, fraction);
  }

  // Values from `limit` on are out of range: they would round to infinity.
  function ParseFloat(t: string, limit: real): Option<real> {
    if Value(t) >= limit then None else Some(Value(t))
  }

  function Max(a: real, b: real, c: real): real {
    if a >= b && a >= c then a else if b >= c then b else c
  }

  function Min(a: real, b: real, c: real): real {
    if a <= b && a <= c then a else if b <= c then b else c
  }

  function ChromaSpread(c: real, m: real, y: real): real {
    Max(c, m, y) - Min(c, m, y)
  }

  /** The spread exceeds the threshold exactly when two of the chroma channels differ by more than it. */
  lemma SpreadIsDifference(c: real, m: real, y: real, threshold: real)
    ensures ChromaSpread(c, m, y) > threshold <==>
      exists a, b | a in [c, m, y] && b in [c, m, y] :: a - b > threshold
  {
    assert Max(c, m, y) in [c, m, y] && Min(c, m, y) in [c, m, y];
  }

  predicate Readable(numbers: seq<string>, limit: real) {
    |numbers| == 4 && forall i | 0 <= i < 3 :: Value(numbers[i]) < limit
  }

  // Two of the three chroma coverages, which come first, differ by more than the threshold.
  ghost predicate ChromaDiffers(numbers: seq<string>, threshold: real) {
    |numbers| == 4 && exists a, b | a in numbers[..3] && b in numbers[..3] :: Value(a) - Value(b) > threshold
  }

  predicate AllHave(matches: seq<seq<string>>, n: nat) {
    forall i | 0 <= i < |matches| :: |matches[i]| == n
  }

  lemma {:induction false} MatchesHave(s: string, n: nat)
    ensures AllHave(FindAll(s, n), n)
    decreases |s|, 1
  {
    match MatchFront(s, n)
    case Some(m) => MoreMatchesHave(s, n, m);
    case None => if s != "" { MatchesHave(s[1..], n); }
  }

  lemma MoreMatchesHave(s: string, n: nat, m: Match)
    requires MatchFront(s, n) == Some(m)
    ensures AllHave([m.numbers] + FindAll(m.rest, n), n)
    decreases |s|, 0
  {
    var _ := MatchIsSound(s, n, m);
    MatchesHave(m.rest, n);
  }

  // Some record holds a coverage out of range.
  ghost predicate Spoiled(matches: seq<seq<string>>, limit: real) {
    exists i | 0 <= i < |matches| :: !Readable(matches[i], limit)
  }

  // The pages, by position, that are in color.
  ghost function ColorPages(matches: seq<seq<string>>, threshold: real): set<nat> {
    set i: nat | i < |matches| && ChromaDiffers(matches[i], threshold)
  }

  lemma SpreadOfPage(numbers: seq<string>, threshold: real)
    requires |numbers| == 4
    ensures ChromaSpread(Value(numbers[0]), Value(numbers[1]), Value(numbers[2])) > threshold <==>
      exists a, b | a in numbers[..3] && b in numbers[..3] :: Value(a) - Value(b) > threshold
  {
    var first := numbers[..3];
    assert first[0] == numbers[0] && first[1] == numbers[1] && first[2] == numbers[2];
    assert forall a | a in first :: a == numbers[0] || a == numbers[1] || a == numbers[2];
    assert numbers[0] in first && numbers[1] in first && numbers[2] in first;
  }

  /** The black coverage plays no part: pages that agree on the other three get the same answer. */
  lemma BlackIgnored(matches: seq<seq<string>>, others: seq<seq<string>>, threshold: real, limit: real)
    requires AllHave(matches, 4) && AllHave(others, 4) && |matches| == |others|
    requires forall i | 0 <= i < |matches| :: matches[i][..3] == others[i][..3]
    ensures Spoiled(matches, limit) == Spoiled(others, limit)
    ensures ColorPages(matches, threshold) == ColorPages(others, threshold)
  {
    forall i | 0 <= i < |matches|
      ensures Readable(matches[i], limit) == Readable(others[i], limit)
      ensures ChromaDiffers(matches[i], threshold) == ChromaDiffers(others[i], threshold)
    {
      assert forall k | 0 <= k < 3 :: matches[i][k] == matches[i][..3][k] == others[i][..3][k] == others[i][k];
    }
  }

  method ReadPage(numbers: seq<string>, threshold: real, limit: real) returns (color: bool, err: bool)
    requires |numbers| == 4
    ensures err <==> exists a | a in numbers[..3] :: Value(a) >= limit
    ensures !err ==>
      (color <==> exists a, b | a in numbers[..3] && b in numbers[..3] :: Value(a) - Value(b) > threshold)
  {
    var cyan, magenta := ParseFloat(numbers[0], limit), ParseFloat(numbers[1], limit);
    var yellow := ParseFloat(numbers[2], limit);
    err := cyan == None || magenta == None || yellow == None;
    color := !err && ChromaSpread(cyan.value, magenta.value, yellow.value) > threshold;
    SpreadOfPage(numbers, threshold);
    OutOfRange(numbers, limit);
  }

  // The same, in the terms of the whole report.
  method ReadRecord(numbers: seq<string>, threshold: real, limit: real) returns (color: bool, err: bool)
    requires |numbers| == 4
    ensures err == !Readable(numbers, limit)
    ensures !err ==> color == ChromaDiffers(numbers, threshold)
  {
    color, err := ReadPage(numbers, threshold, limit);
    OutOfRange(numbers, limit);
  }

  lemma OutOfRange(numbers: seq<string>, limit: real)
    requires |numbers| == 4
    ensures !Readable(numbers, limit) <==> exists a | a in numbers[..3] :: Value(a) >= limit
  {
    assert forall k | 0 <= k < 3 :: numbers[..3][k] == numbers[k];
  }

  /** Counts the records and, among them, those with color. A coverage out of range spoils the whole report. */
  method CountRecords(matches: seq<seq<string>>, threshold: real, limit: real)
    returns (pages: nat, colorPages: nat, err: bool)
    requires AllHave(matches, 4)
    ensures err == Spoiled(matches, limit)
    ensures err ==> pages == 0 && colorPages == 0
    ensures !err ==> pages == |matches| && colorPages == |ColorPages(matches, threshold)| <= pages
  {
    pages, colorPages := 0, 0;
    ghost var colored: set<nat> := {};
    for i := 0 to |matches|
      invariant pages == i && colorPages == |colored| <= i
      invariant forall k :: k in colored <==> 0 <= k < i && ChromaDiffers(matches[k], threshold)
      invariant forall k | 0 <= k < i :: Readable(matches[k], limit)
    {
      var color, bad := ReadRecord(matches[i], threshold, limit);
      if bad {
        return 0, 0, true;
      }
      pages := pages + 1;
      if color {
        colorPages := colorPages + 1;
        colored := colored + {i};
      }
    }
    assert colored == ColorPages(matches, threshold);
    err := false;
  }

  method ParseInkcov(out: string, threshold: real, limit: real) returns (pages: nat, colorPages: nat, err: bool)
    ensures err == Spoiled(FindAll(out, 4), limit)
    ensures err ==> pages == 0 && colorPages == 0
    ensures !err ==> pages == |FindAll(out, 4)| && colorPages == |ColorPages(FindAll(out, 4), threshold)| <= pages
  {
    MatchesHave(out, 4);
    pages, colorPages, err := CountRecords(FindAll(out, 4), threshold, limit);
  }

  /** On a report of well formed records in range, the reader answers the number of records, and of those
      of them whose chroma coverages differ by more than the threshold. */
  method ReadReport(ghost records: seq<Page>, ghost after: string, out: string, threshold: real, limit: real)
    returns (pages: nat, colorPages: nat, err: bool)
    requires forall i | 0 <= i < |records| :: WellFormed(records[i], 4)
    requires NoDigit(after) && out == Report(records, after)
    ensures err == Spoiled(Numbers(records), limit)
    ensures !err ==> pages == |records| && colorPages == |ColorPages(Numbers(records), threshold)| <= pages
  {
    ReportRoundTrip(records, after, 4);
    pages, colorPages, err := ParseInkcov(out, threshold, limit);
  }
}
