/** Decimal numerals, as packet ids and type names carry them. */
module Decimal {
  predicate IsDigit(c: char) { '0' <= c <= '9' }

  function Digit(d: nat): char requires d < 10 { "0123456789"[d] }

  function Digits(n: nat): string {
    if n < 10 then [Digit(n)] else Digits(n / 10) + [Digit(n % 10)]
  }

  function DigitValue(c: char): nat { if IsDigit(c) then (c - '0') as nat else 0 }

  function Number(s: string): nat {
    if s == "" then 0 else 10 * Number(s[..|s| - 1]) + DigitValue(s[|s| - 1])
  }

  // Digits only, and no leading zero.
  predicate Canonical(s: string) { s != "" && s[0] != '0' && forall i :: 0 <= i < |s| ==> IsDigit(s[i]) }

  lemma DigitIs(d: nat)
    requires d < 10
    ensures IsDigit(Digit(d)) && DigitValue(Digit(d)) == d && (Digit(d) == '0' <==> d == 0)
  {
  }

  lemma {:induction false} DigitsNumber(n: nat)
    ensures Number(Digits(n)) == n && '-' !in Digits(n) && |Digits(n)| > 0 && (n > 0 ==> Canonical(Digits(n)))
  {
    hide Digit, DigitValue;
    DigitIs(n % 10);
    assert Number("") == 0;
    if n < 10 {
      assert Digits(n)[..0] == "";
    } else {
      DigitsNumber(n / 10);
      var d := Digits(n / 10);
      assert Digits(n)[..|Digits(n)| - 1] == d;
      assert Digits(n)[0] == d[0];
    }
  }

  lemma DigitOf(c: char)
    requires IsDigit(c)
    ensures DigitValue(c) < 10 && Digit(DigitValue(c)) == c && (c != '0' ==> DigitValue(c) > 0)
  {
  }

  lemma {:induction false} NumberDigits(s: string)
    requires Canonical(s)
    ensures Number(s) > 0 && Digits(Number(s)) == s
  {
    hide Digit, DigitValue, IsDigit;
    var n := |s| - 1;
    DigitOf(s[n]);
    var d := DigitValue(s[n]);
    if n == 0 {
      assert s[..0] == "" && Number("") == 0;
      assert Number(s) == d && s == [s[0]];
    } else {
      NumberDigits(s[..n]);
      var m := Number(s[..n]);
      assert Number(s) == 10 * m + d;
      LastDigit(m, d);
      assert s == s[..n] + [s[n]];
    }
  }

  lemma LastDigit(m: nat, d: nat)
    requires m > 0 && d < 10
    ensures Digits(10 * m + d) == Digits(m) + [Digit(d)]
  {
    hide Digit;
    assert (10 * m + d) / 10 == m && (10 * m + d) % 10 == d;
  }

  lemma {:induction false} LeadingZeros(k: nat, d: string)
    ensures Number(seq(k, _ => '0') + d) == Number(d)
  {
    if d == "" {
      if k > 0 {
        assert (seq(k, _ => '0') + d)[..k - 1] == seq(k - 1, _ => '0') + d;
        LeadingZeros(k - 1, d);
      }
    } else {
      assert (seq(k, _ => '0') + d)[..k + |d| - 1] == seq(k, _ => '0') + d[..|d| - 1];
      LeadingZeros(k, d[..|d| - 1]);
    }
  }

  // How many digits a number below a thousand has.
  lemma ShortNumber(n: nat)
    ensures 1 <= n <= 999 <==> n > 0 && |Digits(n)| <= 3
  {
    if n >= 1000 {
      LongNumber(n);
    } else {
      assert n / 10 / 10 < 10 && |Digits(n / 10 / 10)| == 1;
      assert |Digits(n / 10)| <= 2;
    }
  }

  lemma LongNumber(n: nat)
    requires n >= 1000
    ensures |Digits(n)| >= 4
  {
    assert Digits(n) == Digits(n / 10) + [Digit(n % 10)];
    assert Digits(n / 10) == Digits(n / 100) + [Digit(n / 10 % 10)] by { assert n / 10 / 10 == n / 100; }
    assert Digits(n / 100) == Digits(n / 1000) + [Digit(n / 100 % 10)] by { assert n / 100 / 10 == n / 1000; }
    DigitsNumber(n / 1000);
  }
}
