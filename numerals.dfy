/** JavaScript numbers as the client uses them: budgets typed into number
    inputs, parsed with `parseInt`/`parseFloat`, and printed back with
    `toString()`. Only integer numerals are modelled; any other text parses
    to NaN. */
module Numerals {

  /** A JavaScript number restricted to integers, plus NaN. */
  datatype Number = Num(value: int) | NaN

  /** JavaScript truthiness of a number: 0 and NaN are falsy. */
  predicate TruthyNumber(n: Number) {
    n.Num? && n.value != 0
  }

  predicate IsDigit(c: char) {
    '0' <= c <= '9'
  }

  predicate AllDigits(s: string) {
    forall i :: 0 <= i < |s| ==> IsDigit(s[i])
  }

  /** An optionally signed, non-empty run of decimal digits. */
  predicate IsNumeral(s: string) {
    (|s| > 0 && AllDigits(s)) || (|s| > 1 && s[0] == '-' && AllDigits(s[1..]))
  }

  function DigitValue(c: char): nat
    requires IsDigit(c)
  {
    c as int - '0' as int
  }

  function DigitChar(d: nat): (c: char)
    requires d < 10
    ensures IsDigit(c) && DigitValue(c) == d
  {
    ('0' as int + d) as char
  }

  /** The value of a string of decimal digits, most significant first. */
  function DigitsValue(s: string): nat
    requires AllDigits(s)
  {
    if s == [] then 0 else DigitsValue(s[..|s| - 1]) * 10 + DigitValue(s[|s| - 1])
  }

  /** The number an integer numeral denotes. */
  function NumeralValue(s: string): int
    requires IsNumeral(s)
  {
    if s[0] == '-' then -(DigitsValue(s[1..]) as int) else DigitsValue(s)
  }

  /** `parseInt(s)` / `parseFloat(s)` on the text of a number input. */
  function Parse(s: string): (n: Number)
    ensures n.Num? <==> IsNumeral(s)
  {
    if IsNumeral(s) then Num(NumeralValue(s)) else NaN
  }

  /** Decimal digits of a natural number, without leading zeros. */
  function NatDigits(n: nat): (s: string)
    ensures |s| > 0 && AllDigits(s)
    ensures DigitsValue(s) == n
    ensures s[0] == '0' ==> n == 0
    decreases n
  {
    if n < 10 then [DigitChar(n)]
    else
      var prefix := NatDigits(n / 10);
      var s := prefix + [DigitChar(n % 10)];
      assert s[..|s| - 1] == prefix;
      s
  }

  /** `n.toString()` for an integer. */
  function IntToString(n: int): (s: string)
    ensures IsNumeral(s)
    ensures Parse(s) == Num(n)
  {
    if n >= 0 then NatDigits(n)
    else
      var s := "-" + NatDigits(-n);
      assert s[1..] == NatDigits(-n);
      s
  }
}
