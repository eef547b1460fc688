/** Decimal printing and parsing of integers: `Number.prototype.toString` on integers, and `parseInt`
    on the strings Redis counters produce. */
module Decimal {
  import opened Wrappers

  predicate IsDigit(c: char) {
    '0' <= c <= '9'
  }

  predicate AllDigits(s: string) {
    forall i | 0 <= i < |s| :: IsDigit(s[i])
  }

  function DigitsValue(s: string): nat
    requires AllDigits(s)
  {
    if s == "" then 0 else DigitsValue(s[..|s| - 1]) * 10 + (s[|s| - 1] as int - '0' as int)
  }

  function NatToString(n: nat): (s: string)
    ensures s != "" && AllDigits(s) && DigitsValue(s) == n && (s[0] == '0' <==> n == 0)
  {
    var last := ['0' + (n % 10) as char];
    if n < 10 then
      assert last[..0] == "";
      last
    else
      var front := NatToString(n / 10);
      assert (front + last)[..|front|] == front;
      front + last
  }

  function ToString(n: int): (s: string)
    ensures s != "" && (IsDigit(s[0]) || s[0] == '-')
  {
    if n < 0 then "-" + NatToString(-n) else NatToString(n)
  }

  /** Digits without leading zeros that have the value of `n`, after a minus sign if `n` is negative. */
  lemma Digits(n: int)
    ensures n >= 0 ==>
              AllDigits(ToString(n)) && DigitsValue(ToString(n)) == n && (ToString(n)[0] == '0' <==> n == 0)
    ensures n < 0 ==>
              var s := ToString(n); s[0] == '-' && AllDigits(s[1..]) && DigitsValue(s[1..]) == -n && s[1..][..1] != "0"
  {
    if n < 0 {
      assert ToString(n)[1..] == NatToString(-n);
    }
  }

  /** The longest prefix of `s` made of digits. */
  function DigitPrefix(s: string): (p: string)
    ensures AllDigits(p) && p <= s
    ensures AllDigits(s) ==> p == s
  {
    if s != "" && IsDigit(s[0]) then [s[0]] + DigitPrefix(s[1..]) else ""
  }

  /** `parseInt` on an optionally signed decimal string; `None` stands for `NaN`. */
  function ParseInt(s: string): (r: Option<int>)
    ensures r.Some? <==> s != "" && (IsDigit(s[0]) || (s[0] == '-' && s[1..] != "" && IsDigit(s[1])))
  {
    var negative := s != "" && s[0] == '-';
    var digits := DigitPrefix(if negative then s[1..] else s);
    if digits == "" then None
    else
      var magnitude: int := DigitsValue(digits);
      Some(if negative then -magnitude else magnitude)
  }

  lemma ParsePrinted(n: int)
    ensures ParseInt(ToString(n)) == Some(n)
  {
    if n < 0 {
      assert ToString(n)[1..] == NatToString(-n);
    }
  }

  lemma PrintingInjective(m: int, n: int)
    requires ToString(m) == ToString(n)
    ensures m == n
  {
    ParsePrinted(m);
    ParsePrinted(n);
  }
}
