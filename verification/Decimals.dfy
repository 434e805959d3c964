/** Decimal text of integers: strconv.FormatInt and strconv.ParseInt for canonical input. */
module Decimals {
  import opened Basics

  function Digit(d: nat): char
    requires d < 10
  {
    '0' + d as char
  }

  predicate IsDigit(c: char) {
    '0' <= c <= '9'
  }

  function Digits(n: nat): (s: string)
    ensures s != "" && forall i :: 0 <= i < |s| ==> IsDigit(s[i])
  {
    if n < 10 then [Digit(n)] else Digits(n / 10) + [Digit(n % 10)]
  }

  /** The value of a string of digits. */
  function Value(s: string): nat
    requires forall i :: 0 <= i < |s| ==> IsDigit(s[i])
  {
    if s == "" then 0
    else
      assert IsDigit(s[|s| - 1]);
      10 * Value(s[..|s| - 1]) + (s[|s| - 1] as int - '0' as int)
  }

  predicate AllDigits(s: string) {
    s != "" && forall i :: 0 <= i < |s| ==> IsDigit(s[i])
  }

  lemma {:induction false} ValueOfDigits(n: nat)
    ensures Value(Digits(n)) == n
  {
    var s := Digits(n);
    if n >= 10 {
      ValueOfDigits(n / 10);
      assert s[..|s| - 1] == Digits(n / 10);
    }
  }

  function Format(n: int): string {
    if n < 0 then "-" + Digits(-n) else Digits(n)
  }

  function Parse(s: string): Option<int> {
    if AllDigits(s) then
      var v: int := Value(s);
      Some(v)
    else if s != "" && s[0] == '-' && AllDigits(s[1..]) then
      var v: int := Value(s[1..]);
      Some(-v)
    else None
  }

  lemma FormatRoundTrip(n: int)
    ensures Parse(Format(n)) == Some(n) && Format(n) != ""
  {
    if n < 0 {
      ValueOfDigits(-n);
      assert Format(n)[1..] == Digits(-n);
      assert !IsDigit('-');
    } else {
      ValueOfDigits(n);
    }
  }

  /** Decimal notation: ASCII digits, the last one the ones, and a minus sign in front. */
  lemma DecimalText(n: int, d: int)
    requires 0 <= n && 0 <= d < 10
    ensures |Format(d)| == 1 && Format(d)[0] as int == 48 + d
    ensures n > 0 ==> Format(10 * n + d) == Format(n) + Format(d) && Format(-n) == "-" + Format(n)
  {
  }
}
