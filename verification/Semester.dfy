/** Semester codes (year * 100 + month of the first day) and their names. */
module Semesters {
  import opened Jobs
  import opened Decimal

  datatype Season = Winter | Summer | Fall

  function Word(s: Season): string {
    match s
    case Winter => "Winter"
    case Summer => "Summer"
    case Fall => "Fall"
  }

  function Month(s: Season): nat {
    match s
    case Winter => 1
    case Summer => 5
    case Fall => 9
  }

  function SeasonOf(word: string): Option<Season> {
    if word == "Winter" then Some(Winter)
    else if word == "Summer" then Some(Summer)
    else if word == "Fall" then Some(Fall)
    else None
  }

  datatype ParseError = NoYear | BadYear | UnknownSeason

  datatype Parsed = Code(code: int) | Bad(error: ParseError)

  // Division and remainder truncate toward zero.
  function Quo(a: int, b: nat): int
    requires b > 0
  {
    if a >= 0 then a / b else -((-a) / b)
  }

  function Rem(a: int, b: nat): int
    requires b > 0
  {
    a - Quo(a, b) * b
  }

  function Current(year: int, month: nat): int
    requires 1 <= month <= 12
  {
    if month <= 4 then year * 100 + 1
    else if month <= 8 then year * 100 + 5
    else year * 100 + 9
  }

  // White space as defined by the Unicode property White_Space.
  predicate IsSpace(c: char) {
    c as int in [0x09, 0x0A, 0x0B, 0x0C, 0x0D, 0x20, 0x85, 0xA0, 0x1680, 0x2028, 0x2029, 0x202F, 0x205F, 0x3000]
    || 0x2000 <= c as int <= 0x200A
  }

  function TrimLeft(s: string): string {
    if s != "" && IsSpace(s[0]) then TrimLeft(s[1..]) else s
  }

  function TrimRight(s: string): string {
    if s != "" && IsSpace(s[|s| - 1]) then TrimRight(s[..|s| - 1]) else s
  }

  function TrimSpace(s: string): string { TrimRight(TrimLeft(s)) }

  // The text before and after the first blank.
  function Cut(s: string): Option<(string, string)> {
    if s == "" then None
    else if s[0] == ' ' then Some(("", s[1..]))
    else match Cut(s[1..])
      case None => None
      case Some(p) => Some(([s[0]] + p.0, p.1))
  }

  function ParseParts(word: string, year: string): Parsed {
    match Atoi(year)
    case None => Bad(BadYear)
    case Some(y) =>
      match SeasonOf(word)
      case None => Bad(UnknownSeason)
      case Some(s) => Code(y * 100 + Month(s))
  }

  function Parse(semester: string): Parsed {
    match Cut(TrimSpace(semester))
    case None => Bad(NoYear)
    case Some(p) => ParseParts(p.0, p.1)
  }

  function SeasonAt(month: int): Option<Season> {
    match month
    case 1 => Some(Winter)
    case 5 => Some(Summer)
    case 9 => Some(Fall)
    case _ => None
  }

  function Labelled(word: string, n: int): string {
    word + " " + Itoa(n)
  }

  function Name(code: int): string {
    match SeasonAt(Rem(code, 100))
    case Some(s) => Labelled(Word(s), Quo(code, 100))
    case None => Labelled("Semester", code)
  }

  // ---- Round trips ----

  lemma {:induction false} CutAt(word: string, rest: string)
    requires forall i | 0 <= i < |word| :: word[i] != ' '
    ensures Cut(word + " " + rest) == Some((word, rest))
  {
    var s := word + " " + rest;
    if word == "" {
      assert s[1..] == rest;
    } else {
      CutAt(word[1..], rest);
      assert s[1..] == word[1..] + " " + rest;
      assert [word[0]] + word[1..] == word;
    }
  }

  lemma {:induction false} CutMeans(s: string)
    requires Cut(s).Some?
    ensures s == Cut(s).value.0 + " " + Cut(s).value.1
  {
    if s[0] != ' ' { CutMeans(s[1..]); }
  }

  lemma NothingToTrim(s: string)
    requires s != "" && !IsSpace(s[0]) && !IsSpace(s[|s| - 1])
    ensures TrimSpace(s) == s
  {
  }

  lemma ParseOfLabelled(word: string, n: int)
    requires word != "" && !IsSpace(word[0]) && forall i | 0 <= i < |word| :: word[i] != ' '
    ensures Cut(Labelled(word, n)) == Some((word, Itoa(n)))
    ensures Parse(Labelled(word, n)) == ParseParts(word, Itoa(n))
  {
    var s := Labelled(word, n);
    CutAt(word, Itoa(n));
    assert IsDigit(s[|s| - 1]);
    NothingToTrim(s);
  }

  lemma PartsOfTerm(season: Season, n: int)
    ensures ParseParts(Word(season), Itoa(n)) == Code(n * 100 + Month(season))
  {
    AtoiInvertsItoa(n);
  }

  lemma ParseOfTerm(season: Season, n: int)
    ensures Cut(Labelled(Word(season), n)) == Some((Word(season), Itoa(n)))
    ensures Parse(Labelled(Word(season), n)) == Code(n * 100 + Month(season))
  {
    ParseOfLabelled(Word(season), n);
    PartsOfTerm(season, n);
  }

  lemma ParseOfOther(n: int)
    ensures Parse(Labelled("Semester", n)) == Bad(UnknownSeason)
  {
    ParseOfLabelled("Semester", n);
    AtoiInvertsItoa(n);
  }

  predicate CanonicalCode(code: int) {
    code >= 0 && code % 100 in [1, 5, 9]
  }

  lemma CanonicalParts(code: int)
    ensures CanonicalCode(code) <==> SeasonAt(Rem(code, 100)).Some?
    ensures SeasonAt(Rem(code, 100)).Some? ==>
      code == Quo(code, 100) * 100 + Month(SeasonAt(Rem(code, 100)).value) && Quo(code, 100) >= 0
  {
  }

  /** Name is undone by Parse on exactly the codes of real terms: non-negative years, months 1, 5 and 9. */
  lemma ParseInvertsName(code: int)
    ensures Parse(Name(code)) == Code(code) <==> CanonicalCode(code)
    ensures !CanonicalCode(code) ==> Parse(Name(code)) == Bad(UnknownSeason)
  {
    CanonicalParts(code);
    match SeasonAt(Rem(code, 100))
    case Some(s) => ParseOfTerm(s, Quo(code, 100));
    case None => ParseOfOther(code);
  }

  // A season word, one blank, and a year without sign or leading zeros.
  predicate CanonicalName(s: string) {
    Cut(s).Some? && SeasonOf(Cut(s).value.0).Some? && CanonicalDigits(Cut(s).value.1)
  }

  lemma NameOfTerm(season: Season, year: nat)
    ensures Name(year * 100 + Month(season)) == Labelled(Word(season), year)
  {
  }

  lemma TermNameIsCanonical(season: Season, year: nat)
    ensures CanonicalName(Labelled(Word(season), year))
  {
    ParseOfTerm(season, year);
    assert Itoa(year)[0] == '0' ==> year == 0;
  }

  lemma TermRoundTrips(season: Season, year: nat)
    ensures var s := Labelled(Word(season), year); Parse(s).Code? && Name(Parse(s).code) == s
  {
    ParseOfTerm(season, year);
    NameOfTerm(season, year);
  }

  lemma SeasonOfWord(word: string)
    requires SeasonOf(word).Some?
    ensures word == Word(SeasonOf(word).value)
  {
  }

  lemma CanonicalNameRoundTrips(s: string)
    requires CanonicalName(s)
    ensures Parse(s).Code? && Name(Parse(s).code) == s
  {
    CutMeans(s);
    var (word, digits) := Cut(s).value;
    SeasonOfWord(word);
    DigitsOfValue(digits);
    TermRoundTrips(SeasonOf(word).value, ValueOf(digits));
  }

  lemma CanonicalCodeHasCanonicalName(code: int)
    requires CanonicalCode(code)
    ensures CanonicalName(Name(code))
  {
    CanonicalParts(code);
    TermNameIsCanonical(SeasonAt(Rem(code, 100)).value, Quo(code, 100));
  }

  /** Parse is undone by Name on exactly the canonical names, and every canonical name parses. */
  lemma NameInvertsParse(s: string)
    ensures CanonicalName(s) ==> Parse(s).Code?
    ensures Parse(s).Code? ==> (Name(Parse(s).code) == s <==> CanonicalName(s))
  {
    if CanonicalName(s) {
      CanonicalNameRoundTrips(s);
    }
    if Parse(s).Code? && Name(Parse(s).code) == s {
      ParseInvertsName(Parse(s).code);
      CanonicalCodeHasCanonicalName(Parse(s).code);
    }
  }

  // ---- What is read, and what is written ----

  predicate AllSpace(s: string) {
    forall i | 0 <= i < |s| :: IsSpace(s[i])
  }

  lemma {:induction false} TrimLeftDrops(a: string, rest: string)
    requires AllSpace(a) && rest != "" && !IsSpace(rest[0])
    ensures TrimLeft(a + rest) == rest
  {
    if a == "" {
      assert a + rest == rest;
    } else {
      assert (a + rest)[1..] == a[1..] + rest;
      TrimLeftDrops(a[1..], rest);
    }
  }

  lemma {:induction false} TrimRightDrops(core: string, b: string)
    requires AllSpace(b) && core != "" && !IsSpace(core[|core| - 1])
    ensures TrimRight(core + b) == core
  {
    if b == "" {
      assert core + b == core;
    } else {
      assert (core + b)[..|core + b| - 1] == core + b[..|b| - 1];
      TrimRightDrops(core, b[..|b| - 1]);
    }
  }

  lemma {:induction false} TrimLeftMeans(s: string) returns (a: string)
    ensures AllSpace(a) && s == a + TrimLeft(s)
  {
    if s != "" && IsSpace(s[0]) {
      var more := TrimLeftMeans(s[1..]);
      a := [s[0]] + more;
    } else {
      a := "";
    }
  }

  lemma Regrouped(a: string, b: string, c: string)
    ensures (a + b) + c == a + (b + c)
  {
  }

  lemma {:induction false} TrimRightMeans(s: string) returns (b: string)
    ensures AllSpace(b) && s == TrimRight(s) + b
  {
    if s != "" && IsSpace(s[|s| - 1]) {
      var front, last := s[..|s| - 1], s[|s| - 1];
      var more := TrimRightMeans(front);
      b := more + [last];
      Regrouped(TrimRight(front), more, [last]);
      assert s == front + [last];
    } else {
      b := "";
    }
  }

  // A term as the program accepts it: white space, season, one blank, an integer, white space.
  ghost predicate Spells(s: string, word: string, month: int, code: int) {
    exists a, b, year | AllSpace(a) && AllSpace(b) && Atoi(year).Some? ::
      s == a + ((word + " " + year) + b) && code == Atoi(year).value * 100 + month
  }

  lemma IntegerEndsInDigit(year: string)
    requires Atoi(year).Some?
    ensures year != "" && IsDigit(year[|year| - 1])
  {
    if year[0] == '-' || year[0] == '+' {
      assert AllDigits(year[1..]) && year[1..][|year| - 2] == year[|year| - 1];
    }
  }

  lemma TrimDrops(a: string, core: string, b: string)
    requires AllSpace(a) && AllSpace(b) && core != "" && !IsSpace(core[0]) && !IsSpace(core[|core| - 1])
    ensures TrimSpace(a + (core + b)) == core
  {
    TrimLeftDrops(a, core + b);
    TrimRightDrops(core, b);
  }

  lemma TermText(season: Season, year: string)
    requires Atoi(year).Some?
    ensures var core := Word(season) + " " + year;
      && core != "" && !IsSpace(core[0]) && !IsSpace(core[|core| - 1])
      && Cut(core) == Some((Word(season), year))
  {
    var core := Word(season) + " " + year;
    IntegerEndsInDigit(year);
    assert core[|core| - 1] == year[|year| - 1];
    CutAt(Word(season), year);
  }

  lemma SpelledParses(s: string, season: Season, code: int)
    requires Spells(s, Word(season), Month(season), code)
    ensures Parse(s) == Code(code)
  {
    var a, b, year :| AllSpace(a) && AllSpace(b) && Atoi(year).Some? &&
      s == a + ((Word(season) + " " + year) + b) && code == Atoi(year).value * 100 + Month(season);
    TermText(season, year);
    TrimDrops(a, Word(season) + " " + year, b);
  }

  lemma ParsedIsSpelled(s: string) returns (season: Season)
    requires Parse(s).Code?
    ensures Spells(s, Word(season), Month(season), Parse(s).code)
  {
    var a := TrimLeftMeans(s);
    var b := TrimRightMeans(TrimLeft(s));
    var core := TrimSpace(s);
    CutMeans(core);
    var (word, year) := Cut(core).value;
    SeasonOfWord(word);
    season := SeasonOf(word).value;
    assert s == a + ((word + " " + year) + b);
  }

  /** Exactly these texts are read as a term: "Winter", "Summer" or "Fall", a blank and an integer, with any white
      space around them; the code is a hundred times the integer, plus 1, 5 or 9. */
  lemma ParseExactly(s: string, code: int)
    ensures Parse(s) == Code(code) <==>
      Spells(s, "Winter", 1, code) || Spells(s, "Summer", 5, code) || Spells(s, "Fall", 9, code)
  {
    if Parse(s) == Code(code) {
      var season := ParsedIsSpelled(s);
    }
    if Spells(s, "Winter", 1, code) { SpelledParses(s, Winter, code); }
    if Spells(s, "Summer", 5, code) { SpelledParses(s, Summer, code); }
    if Spells(s, "Fall", 9, code) { SpelledParses(s, Fall, code); }
  }

  /** White space around the name of a term does not matter. */
  lemma PaddedNameParses(a: string, code: int, b: string)
    requires AllSpace(a) && AllSpace(b) && CanonicalCode(code)
    ensures Parse(a + (Name(code) + b)) == Code(code)
  {
    CanonicalParts(code);
    var season := SeasonAt(Rem(code, 100)).value;
    AtoiInvertsItoa(Quo(code, 100));
    assert Spells(a + (Name(code) + b), Word(season), Month(season), code);
    SpelledParses(a + (Name(code) + b), season, code);
  }

  /** The names, in words. */
  lemma NameExactly(year: nat, month: nat)
    requires month < 100
    ensures Name(year * 100 + month) ==
      if month == 1 then "Winter " + Itoa(year)
      else if month == 5 then "Summer " + Itoa(year)
      else if month == 9 then "Fall " + Itoa(year)
      else "Semester " + Itoa(year * 100 + month)
  {
    var code := year * 100 + month;
    assert Quo(code, 100) == year && Rem(code, 100) == month;
    assert "Winter" + " " == "Winter " && "Summer" + " " == "Summer " && "Fall" + " " == "Fall ";
    assert "Semester" + " " == "Semester ";
  }

  // ---- Order ----

  // Has the term `code` begun by the given month of the given year?
  predicate Begun(season: Season, termYear: int, year: int, month: nat) {
    termYear < year || (termYear == year && Month(season) <= month)
  }

  /** Comparing codes compares times: the filter `code <= current` keeps exactly the terms that have begun. */
  lemma CodeOrderIsTime(season: Season, termYear: int, year: int, month: nat)
    requires 1 <= month <= 12
    ensures termYear * 100 + Month(season) <= Current(year, month) <==> Begun(season, termYear, year, month)
  {
  }

  /** The current code never goes backwards, and is itself the latest term begun. */
  lemma CurrentIsLatestBegun(year: int, month: nat, season: Season, termYear: int)
    requires 1 <= month <= 12
    requires Begun(season, termYear, year, month)
    ensures exists s: Season :: Current(year, month) == year * 100 + Month(s) && Begun(s, year, year, month)
    ensures termYear * 100 + Month(season) <= Current(year, month)
  {
    var s := if month <= 4 then Winter else if month <= 8 then Summer else Fall;
    assert Current(year, month) == year * 100 + Month(s) && Begun(s, year, year, month);
  }
}
