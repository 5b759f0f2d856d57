/** Decimal numerals: Python's `str` and `int` on integers. */
module Decimal {
  import opened Wrappers
  import PythonText

  predicate IsDigit(c: char) {
    '0' <= c <= '9'
  }

  predicate IsNumeral(s: string) {
    s != [] && forall i | 0 <= i < |s| :: IsDigit(s[i])
  }

  function DigitValue(c: char): (r: nat)
    requires IsDigit(c)
    ensures r < 10
  {
    c as int - '0' as int
  }

  function Digit(n: nat): (c: char)
    requires n < 10
    ensures IsDigit(c) && DigitValue(c) == n
  {
    ('0' as int + n) as char
  }

  /** Python's `str` of a natural number. */
  function Print(n: nat): (s: string)
    ensures IsNumeral(s)
    decreases n
  {
    if n < 10 then [Digit(n)] else Print(n / 10) + [Digit(n % 10)]
  }

  function Value(s: string): nat
    requires IsNumeral(s)
  {
    var last := DigitValue(s[|s| - 1]);
    if |s| == 1 then last else 10 * Value(s[..|s| - 1]) + last
  }

  lemma {:induction false} ValueOfPrint(n: nat)
    ensures Value(Print(n)) == n
    decreases n
  {
    if n >= 10 {
      ValueOfPrint(n / 10);
      assert Print(n)[..|Print(n)| - 1] == Print(n / 10);
    }
  }

  /** Decimal digits, single underscores between them allowed. */
  function ParseDigits(s: string): (r: Option<nat>)
    ensures s == [] ==> r.None?
  {
    if s == [] || !IsDigit(s[|s| - 1]) then None else
    var last := DigitValue(s[|s| - 1]);
    if |s| == 1 then Some(last) else
    match ParseDigits(if s[|s| - 2] == '_' then s[..|s| - 2] else s[..|s| - 1])
    case None => None
    case Some(n) => Some(10 * n + last)
  }

  /** Python's `int` on text: surrounding spaces, one sign, digits. */
  function ParseInt(s: string): Option<int> {
    var t := PythonText.Strip(s);
    if t == [] then None
    else if t[0] == '+' then ParseDigits(t[1..])
    else if t[0] == '-' then (match ParseDigits(t[1..]) case None => None case Some(n) => var m: int := n; Some(-m))
    else ParseDigits(t)
  }

  lemma {:induction false} ParseDigitsOfPrint(n: nat)
    ensures ParseDigits(Print(n)) == Some(n)
    decreases n
  {
    var s := Print(n);
    if n >= 10 {
      ParseDigitsOfPrint(n / 10);
      assert s[..|s| - 1] == Print(n / 10);
      assert IsDigit(s[|s| - 2]);
    }
  }

  lemma ParseIntOfPrint(n: nat)
    ensures ParseInt(Print(n)) == Some(n)
  {
    var s := Print(n);
    assert IsDigit(s[0]) && IsDigit(s[|s| - 1]);
    PythonText.StripKeeps(s);
    ParseDigitsOfPrint(n);
  }

  /** A numeral has no leading zero, but for zero itself. */
  lemma {:induction false} NoLeadingZero(n: nat)
    ensures Print(n)[0] == '0' <==> n == 0
    ensures n < 10 ==> |Print(n)| == 1
    decreases n
  {
    if n >= 10 {
      NoLeadingZero(n / 10);
      assert Print(n)[0] == Print(n / 10)[0];
    }
  }
}
