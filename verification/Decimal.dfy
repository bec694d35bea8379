/** Decimal rendering of naturals, as a template string prints them. */
module Decimal {

  const DIGITS := "0123456789"

  predicate IsDigit(c: char) {
    '0' <= c <= '9'
  }

  function ToString(n: nat): (s: string)
    ensures |s| > 0 && forall i :: 0 <= i < |s| ==> IsDigit(s[i])
  {
    if n < 10 then [DIGITS[n]] else ToString(n / 10) + [DIGITS[n % 10]]
  }

  /** Reads a numeral back. */
  function Value(s: string): nat {
    if s == "" then 0
    else
      var d := s[|s| - 1];
      10 * Value(s[..|s| - 1]) + if IsDigit(d) then d as int - '0' as int else 0
  }

  lemma {:induction false} ValueOfToString(n: nat)
    ensures Value(ToString(n)) == n
  {
    var s := ToString(n);
    if n < 10 {
      assert s[..0] == "";
    } else {
      assert s[..|s| - 1] == ToString(n / 10);
      ValueOfToString(n / 10);
    }
  }

  /** No leading zero, so a number has one numeral. */
  lemma {:induction false} NoLeadingZero(n: nat)
    requires n > 0
    ensures ToString(n)[0] != '0'
  {
    if n >= 10 { NoLeadingZero(n / 10); }
  }

  lemma ToStringInjective(m: nat, n: nat)
    requires ToString(m) == ToString(n)
    ensures m == n
  {
    ValueOfToString(m);
    ValueOfToString(n);
  }
}
