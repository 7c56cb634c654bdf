/** Decimal printing and reading of integers, as strconv and fmt's %d do it. */
module Decimal {
  import opened Jobs

  predicate IsDigit(c: char) { '0' <= c <= '9' }

  predicate AllDigits(s: string) {
    forall i | 0 <= i < |s| :: IsDigit(s[i])
  }

  function DigitOf(n: nat): (c: char)
    requires n < 10
  {
    '0' + n as char
  }

  function Digits(n: nat): (s: string)
    ensures |s| > 0 && AllDigits(s)
    ensures n > 0 ==> s[0] != '0'
    ensures n < 10 ==> |s| == 1
  {
    if n < 10 then [DigitOf(n)] else Digits(n / 10) + [DigitOf(n % 10)]
  }

  function ValueOf(s: string): nat
    requires AllDigits(s)
  {
    if s == "" then 0
    else ValueOf(s[..|s| - 1]) * 10 + (s[|s| - 1] as int - '0' as int)
  }

  function Itoa(n: int): string {
    if n < 0 then "-" + Digits(-n) else Digits(n)
  }

  function Atoi(s: string): Option<int> {
    if s != "" && (s[0] == '-' || s[0] == '+') then
      if |s| > 1 && AllDigits(s[1..]) then
        var v: int := ValueOf(s[1..]);
        Some(if s[0] == '-' then -v else v)
      else None
    else if s != "" && AllDigits(s) then Some(ValueOf(s))
    else None
  }

  lemma {:induction false} ValueOfDigits(n: nat)
    ensures ValueOf(Digits(n)) == n
  {
    if n >= 10 {
      ValueOfDigits(n / 10);
      assert Digits(n)[..|Digits(n)| - 1] == Digits(n / 10);
    }
  }

  predicate CanonicalDigits(s: string) {
    AllDigits(s) && |s| > 0 && (s[0] == '0' ==> |s| == 1)
  }

  lemma {:induction false} ValuePositive(s: string)
    requires AllDigits(s) && s != "" && s[0] != '0'
    ensures ValueOf(s) > 0
  {
    if |s| > 1 { ValuePositive(s[..|s| - 1]); }
  }

  lemma {:induction false} DigitsOfValue(s: string)
    requires CanonicalDigits(s)
    ensures Digits(ValueOf(s)) == s
  {
    if |s| > 1 {
      var front := s[..|s| - 1];
      ValuePositive(front);
      DigitsOfValue(front);
      assert ValueOf(s) / 10 == ValueOf(front);
      assert s == front + [s[|s| - 1]];
    }
  }

  /** Reading undoes printing for every integer. */
  lemma AtoiInvertsItoa(n: int)
    ensures Atoi(Itoa(n)) == Some(n)
  {
    ValueOfDigits(if n < 0 then -n else n);
    if n < 0 { assert Itoa(n)[1..] == Digits(-n); }
  }

  /** Printing undoes reading exactly on canonical digits, and on a minus sign before canonical digits of a number
      other than zero. */
  lemma ItoaInvertsAtoi(s: string)
    requires Atoi(s).Some?
    ensures Itoa(Atoi(s).value) == s <==>
      CanonicalDigits(s) || (s[0] == '-' && CanonicalDigits(s[1..]) && s[1..] != "0")
  {
    if CanonicalDigits(s) {
      DigitsOfValue(s);
    } else if s[0] == '-' && CanonicalDigits(s[1..]) {
      DigitsOfValue(s[1..]);
      if s[1..] != "0" { ValuePositive(s[1..]); }
      assert s == "-" + s[1..];
    }
  }

  // ---- What the digits mean ----

  function Pow10(n: nat): nat {
    if n == 0 then 1 else 10 * Pow10(n - 1)
  }

  lemma {:induction false} Pow10Positive(n: nat)
    ensures Pow10(n) > 0
  {
    if n > 0 { Pow10Positive(n - 1); }
  }

  /** Each digit stands for its own value, in both directions. */
  lemma OneDigit(d: nat)
    requires d < 10
    ensures Digits(d) == ["0123456789"[d]] && AllDigits(["0123456789"[d]]) && ValueOf(["0123456789"[d]]) == d
  {
    assert "0123456789"[d] == DigitOf(d);
    assert Digits(d)[..0] == "";
  }

  lemma OneMoreDigit(w: int, f: int, p: int, d: int)
    ensures (w * p + f) * 10 + d == w * (10 * p) + (10 * f + d)
  {
  }

  /** The most significant digits come first. */
  lemma {:induction false} ValueOfJoined(whole: string, fraction: string)
    requires AllDigits(whole) && AllDigits(fraction)
    ensures ValueOf(whole + fraction) == ValueOf(whole) * Pow10(|fraction|) + ValueOf(fraction)
  {
    if fraction == "" {
      assert whole + fraction == whole;
    } else {
      var n := |fraction| - 1;
      ValueOfJoined(whole, fraction[..n]);
      assert (whole + fraction)[..|whole + fraction| - 1] == whole + fraction[..n];
      OneMoreDigit(ValueOf(whole), ValueOf(fraction[..n]), Pow10(n), fraction[n] as int - '0' as int);
    }
  }
}
