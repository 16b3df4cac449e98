/** Decimal spelling of amounts: `(*big.Int).String` and `(*big.Int).SetString(s, 10)`. */
module Decimal {
  import opened Wrappers

  predicate IsDigit(c: char) {
    '0' <= c <= '9'
  }

  function DigitValue(c: char): (d: nat)
    requires IsDigit(c)
    ensures d < 10
  {
    c as int - '0' as int
  }

  function Digit(d: nat): (c: char)
    requires d < 10
    ensures IsDigit(c) && DigitValue(c) == d
  {
    ('0' as int + d) as char
  }

  predicate IsNumeral(s: string) {
    s != [] && forall i :: 0 <= i < |s| ==> IsDigit(s[i])
  }

  function ParseNat(s: string): nat
    requires IsNumeral(s)
  {
    var last := DigitValue(s[|s| - 1]);
    if |s| == 1 then last else 10 * ParseNat(s[..|s| - 1]) + last
  }

  function PrintNat(n: nat): string {
    if n < 10 then [Digit(n)] else PrintNat(n / 10) + [Digit(n % 10)]
  }

  /** A numeral without superfluous zeros. */
  predicate CanonicalNat(s: string) {
    IsNumeral(s) && (s[0] == '0' ==> |s| == 1)
  }

  /** An optional sign followed by at least one digit, and nothing else. */
  function Parse(s: string): Option<int> {
    if IsNumeral(s) then Some(ParseNat(s))
    else if s != [] && s[0] == '-' && IsNumeral(s[1..]) then Some(0 - ParseNat(s[1..]))
    else if s != [] && s[0] == '+' && IsNumeral(s[1..]) then Some(ParseNat(s[1..]))
    else None
  }

  function Print(n: int): string {
    if n >= 0 then PrintNat(n) else "-" + PrintNat(-n)
  }

  lemma {:induction false} ParseNatPrintNat(n: nat)
    ensures var s := PrintNat(n);
      CanonicalNat(s) && ParseNat(s) == n && (s[0] == '0' <==> n == 0)
  {
    if n >= 10 {
      ParseNatPrintNat(n / 10);
      var front := PrintNat(n / 10);
      assert PrintNat(n)[..|front|] == front;
    }
  }

  lemma ParseMinus(s: string)
    requires IsNumeral(s)
    ensures Parse("-" + s) == Some(0 - ParseNat(s))
  {
    assert ("-" + s)[1..] == s;
    assert !IsDigit(("-" + s)[0]);
  }

  /** Printing a number and parsing it again gives the number back. */
  lemma ParsePrint(n: int)
    ensures Parse(Print(n)) == Some(n)
  {
    ParseNatPrintNat(if n >= 0 then n else -n);
    if n < 0 {
      ParseMinus(PrintNat(-n));
    }
  }

  /** No leading zeros, no plus sign and no minus zero. */
  predicate Canonical(s: string) {
    || CanonicalNat(s)
    || (s != [] && s[0] == '-' && CanonicalNat(s[1..]) && s[1] != '0')
  }

  lemma DivTen(n: nat, d: nat)
    requires d < 10
    ensures (10 * n + d) / 10 == n && (10 * n + d) % 10 == d
  {
  }

  lemma {:induction false} PrintNatParseNat(s: string)
    requires CanonicalNat(s)
    ensures PrintNat(ParseNat(s)) == s
    decreases |s|
  {
    var front, last := s[..|s| - 1], s[|s| - 1];
    var d := DigitValue(last);
    assert s == front + [last] && Digit(d) == last;
    if front != [] {
      assert IsNumeral(front) && front[0] == s[0];
      PrintNatParseNat(front);
      var n := ParseNat(front);
      ParseNatPrintNat(n);
      assert n > 0;
      DivTen(n, d);
      assert PrintNat(10 * n + d) == PrintNat(n) + [Digit(d)];
    }
  }

  /** A parsed spelling is printed back unchanged exactly when it is canonical. */
  lemma PrintParse(s: string)
    requires Parse(s).Some?
    ensures Print(Parse(s).value) == s <==> Canonical(s)
  {
    var n := Parse(s).value;
    if CanonicalNat(s) {
      PrintNatParseNat(s);
    } else if s[0] == '-' && CanonicalNat(s[1..]) && s[1] != '0' {
      PrintNatParseNat(s[1..]);
      assert s == "-" + s[1..];
      assert n == 0 - ParseNat(s[1..]);
      ParseNatPrintNat(ParseNat(s[1..]));
    } else {
      ParseNatPrintNat(if n >= 0 then n else -n);
    }
  }

  /** Distinct numbers have distinct spellings. */
  lemma PrintInjective(a: int, b: int)
    ensures Print(a) == Print(b) <==> a == b
  {
    ParsePrint(a);
    ParsePrint(b);
  }

  lemma {:induction false} LeadingZero(d: string)
    requires IsNumeral(d)
    ensures IsNumeral("0" + d) && ParseNat("0" + d) == ParseNat(d)
    decreases |d|
  {
    var s := "0" + d;
    assert s[..|s| - 1] == "0" + d[..|d| - 1];
    if |d| > 1 {
      LeadingZero(d[..|d| - 1]);
    } else {
      assert s[..1] == "0" && ParseNat("0") == 0;
    }
  }

  /** What is accepted: numerals, with leading zeros that do not count, after at most one
      sign. */
  lemma ParseForms(s: string)
    ensures Parse(s).Some? <==> IsNumeral(s) || (s != [] && (s[0] == '+' || s[0] == '-') && IsNumeral(s[1..]))
    ensures IsNumeral(s) ==> Parse(s).value >= 0 && Parse("+" + s) == Parse(s) == Parse("0" + s)
    ensures IsNumeral(s) ==> Parse("-" + s) == Some(-Parse(s).value)
  {
    if IsNumeral(s) {
      LeadingZero(s);
      ParseMinus(s);
      assert ("+" + s)[1..] == s && !IsDigit(("+" + s)[0]);
    }
  }
}
