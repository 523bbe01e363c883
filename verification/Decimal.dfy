/** Decimal numerals. The API prints integers (`BigInt.toString`, template strings) and the
    signer reads them back (`strconv.ParseUint`, `big.Int.SetString`). */
module Decimal {
  import opened Base
  import opened Text

  function Digit(d: nat): char
    requires d < 10
  {
    ('0' as int + d) as char
  }

  function DigitValue(c: char): nat
    requires IsDigit(c)
  {
    c as int - '0' as int
  }

  /** The numeral of `n`, most significant digit first, without leading zeros. */
  function Print(n: nat): string {
    if n < 10 then [Digit(n)] else Print(n / 10) + [Digit(n % 10)]
  }

  /** The number a string of digits denotes; leading zeros are allowed. */
  function Value(s: string): nat
    requires AllDigits(s)
  {
    if s == "" then 0 else 10 * Value(s[..|s| - 1]) + DigitValue(s[|s| - 1])
  }

  /** The regular expression /^(0|[1-9]\d*)$/ of the API. */
  predicate Canonical(s: string) {
    s != "" && AllDigits(s) && (s[0] == '0' ==> |s| == 1)
  }

  function Pow10(k: nat): nat {
    if k == 0 then 1 else 10 * Pow10(k - 1)
  }

  lemma {:induction false} PrintCanonical(n: nat)
    ensures Canonical(Print(n))
    ensures n > 0 ==> Print(n)[0] != '0'
  {
    if n >= 10 {
      PrintCanonical(n / 10);
    }
  }

  /** Reading a printed number gives the number back. */
  lemma {:induction false} ValuePrint(n: nat)
    ensures AllDigits(Print(n)) && Value(Print(n)) == n
  {
    PrintCanonical(n);
    if n >= 10 {
      ValuePrint(n / 10);
      assert Print(n)[..|Print(n)| - 1] == Print(n / 10);
    } else {
      assert Print(n)[..0] == "";
    }
  }

  lemma {:induction false} PrintInjective(m: nat, n: nat)
    ensures Print(m) == Print(n) <==> m == n
  {
    ValuePrint(m);
    ValuePrint(n);
  }

  /** A string of `k` digits denotes a number below 10^k. */
  lemma {:induction false} ValueBound(s: string)
    requires AllDigits(s)
    ensures Value(s) < Pow10(|s|)
  {
    if s != "" {
      ValueBound(s[..|s| - 1]);
    }
  }

  lemma {:induction false} ValueLowerBound(s: string)
    requires Canonical(s) && |s| > 1
    ensures Value(s) >= Pow10(|s| - 1)
  {
    var front := s[..|s| - 1];
    assert front[0] == s[0];
    if |front| == 1 {
      assert front[..0] == "";
      assert Value(front) == DigitValue(s[0]);
      assert Pow10(1) == 10;
    } else {
      ValueLowerBound(front);
    }
  }

  lemma {:induction false} Pow10Monotone(j: nat, k: nat)
    requires j <= k
    ensures Pow10(j) <= Pow10(k)
    decreases k
  {
    if j < k {
      Pow10Monotone(j, k - 1);
    }
  }

  /** A positive number of digits suffices exactly for the numbers below that power of ten. */
  lemma {:induction false} PrintLength(n: nat, k: nat)
    requires k > 0
    ensures |Print(n)| <= k <==> n < Pow10(k)
  {
    PrintCanonical(n);
    ValuePrint(n);
    ValueBound(Print(n));
    if |Print(n)| <= k {
      Pow10Monotone(|Print(n)|, k);
    } else {
      ValueLowerBound(Print(n));
      Pow10Monotone(k, |Print(n)| - 1);
    }
  }

  /** Two canonical numerals of the same number are the same string. */
  lemma {:induction false} CanonicalPrint(s: string)
    requires Canonical(s)
    ensures Print(Value(s)) == s
  {
    var front := s[..|s| - 1];
    if |s| == 1 {
      assert front == "";
      assert s == [s[0]];
    } else {
      assert front[0] == s[0];
      CanonicalPrint(front);
      if |front| > 1 {
        ValueLowerBound(front);
        Pow10Monotone(0, |front| - 1);
      } else {
        assert front[..0] == "";
      }
      assert Value(front) > 0;
      assert s == front + [s[|s| - 1]];
    }
  }

  /** `strconv.ParseUint(s, 10, bits)` with `limit` = 2^bits: digits only, at least one, no
      sign, and a range check. */
  function ParseUint(s: string, limit: nat): Option<nat> {
    if s != "" && AllDigits(s) && Value(s) < limit then Some(Value(s)) else None
  }

  /** `new(big.Int).SetString(s, 10)`: an optional sign and at least one digit. */
  function SetString(s: string): Option<int> {
    if s == "" then None
    else
      var signed := s[0] == '+' || s[0] == '-';
      var digits := if signed then s[1..] else s;
      if digits == "" || !AllDigits(digits) then None
      else if s[0] == '-' then Some(0 - (Value(digits) as int)) else Some(Value(digits) as int)
  }
}
