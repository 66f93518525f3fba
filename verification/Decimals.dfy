/** The numbers in keys and ids are written in decimal: reading one back gives the number,
    and there are no leading zeros. */
module Decimals {
  import opened Prelude
  import opened Http

  lemma {:induction false} ValueOfLast(s: string, c: char)
    requires AllDigits(s) && IsDigit(c)
    ensures AllDigits(s + [c]) && Value(s + [c]) == 10 * Value(s) + Digit(c)
  {
    if s == [] {
      assert s + [c] == [c];
      assert Value([c]) == Digit(c) * Pow10(0) + Value([]);
    } else {
      assert (s + [c])[1..] == s[1..] + [c];
      ValueOfLast(s[1..], c);
      assert Pow10(|s|) == 10 * Pow10(|s| - 1);
      TenTimes(Digit(s[0]), Pow10(|s| - 1));
    }
  }

  lemma TenTimes(d: nat, p: nat)
    ensures d * (10 * p) == 10 * (d * p)
  {
  }

  lemma {:induction false} DecimalIsRead(n: nat)
    ensures AllDigits(Decimal(n)) && Value(Decimal(n)) == n
    ensures n > 0 ==> Decimal(n)[0] != '0'
  {
    var digit := (n % 10) as char + '0';
    if n < 10 {
      ValueOfLast([], digit);
      assert [] + [digit] == Decimal(n);
    } else {
      DecimalIsRead(n / 10);
      ValueOfLast(Decimal(n / 10), digit);
    }
  }
}
