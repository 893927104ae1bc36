/** Unsigned numbers in decimal: `to_string`, and `parse` with its optional plus sign and its upper bound. */
module Decimal {
  import opened Wrappers

  const MAX_U8 := 0xff
  const MAX_U64 := 0xffff_ffff_ffff_ffff

  predicate IsDigit(c: char) {
    '0' <= c <= '9'
  }

  predicate Digits(s: string) {
    forall i :: 0 <= i < |s| ==> IsDigit(s[i])
  }

  function DigitOf(n: nat): (c: char)
    requires n < 10
    ensures IsDigit(c) && c as int - '0' as int == n
  {
    ('0' as int + n) as char
  }

  /** `to_string`. */
  function Text(n: nat): (s: string)
    ensures s != [] && Digits(s)
  {
    if n < 10 then [DigitOf(n)] else Text(n / 10) + [DigitOf(n % 10)]
  }

  function Value(s: string): nat
    requires Digits(s)
  {
    if s == [] then 0 else Value(s[..|s| - 1]) * 10 + (s[|s| - 1] as int - '0' as int)
  }

  /** `parse` for an unsigned type whose largest value is `max`. */
  function Parse(s: string, max: nat): Option<nat> {
    var digits := if |s| > 0 && s[0] == '+' then s[1..] else s;
    if digits == [] || !Digits(digits) || Value(digits) > max then None else Some(Value(digits))
  }

  lemma {:induction false} ValueOfText(n: nat)
    ensures Value(Text(n)) == n
  {
    if n < 10 {
      assert Text(n)[..0] == [];
    } else {
      ValueOfText(n / 10);
      assert Text(n)[..|Text(n)| - 1] == Text(n / 10);
    }
  }

  /** Printing and parsing a number gives it back, if it is in range. */
  lemma ParseText(n: nat, max: nat)
    ensures Parse(Text(n), max) == if n <= max then Some(n) else None
  {
    ValueOfText(n);
    assert IsDigit(Text(n)[0]);
  }

  /** Different numbers print differently. */
  lemma TextInjective(a: nat, b: nat)
    requires Text(a) == Text(b)
    ensures a == b
  {
    ValueOfText(a);
    ValueOfText(b);
  }
}
