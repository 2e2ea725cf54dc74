/** Decimal digits and the numbers they stand for. */
module Decimals {
  import opened Util
  import opened Text

  predicate AllDigits(s: string) {
    forall k :: 0 <= k < |s| ==> IsDigit(s[k])
  }

  function Value(s: string): nat
    requires AllDigits(s)
    decreases |s|
  {
    if s == "" then 0 else Value(s[..|s| - 1]) * 10 + (s[|s| - 1] as nat - '0' as nat)
  }

  lemma {:induction false} DecimalIsDigits(n: nat)
    ensures AllDigits(Decimal(n))
  {
    if n >= 10 {
      DecimalIsDigits(n / 10);
    }
  }

  lemma {:induction false} ValueOfDecimal(n: nat)
    ensures AllDigits(Decimal(n)) && Value(Decimal(n)) == n
  {
    DecimalIsDigits(n);
    var s := Decimal(n);
    if n < 10 {
      assert s[..0] == "";
    } else {
      ValueOfDecimal(n / 10);
      assert s[..|s| - 1] == Decimal(n / 10);
    }
  }
}
