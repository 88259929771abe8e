/** strconv's base-10 integers as the services use them: FormatInt, and ParseInt over int64. */
module Decimal {
  import opened Common

  const MAX_INT64: int := 0x7fff_ffff_ffff_ffff
  const MIN_INT64: int := -0x8000_0000_0000_0000

  predicate IsDigit(c: char) { '0' <= c <= '9' }

  function DigitOf(d: int): char
    requires 0 <= d < 10
  {
    '0' + d as char
  }

  function ValueOf(c: char): int
    requires IsDigit(c)
  {
    c as int - '0' as int
  }

  predicate AllDigits(s: string) { forall i :: 0 <= i < |s| ==> IsDigit(s[i]) }

  function FormatNat(n: nat): string {
    if n < 10 then [DigitOf(n)] else FormatNat(n / 10) + [DigitOf(n % 10)]
  }

  function FormatInt(n: int): string {
    if n < 0 then "-" + FormatNat(-n) else FormatNat(n)
  }

  function DigitsValue(s: string): nat
    requires AllDigits(s)
  {
    if s == [] then 0 else 10 * DigitsValue(s[..|s|-1]) + ValueOf(s[|s|-1])
  }

  /** strconv.ParseInt(s, 10, 64): an optional sign, at least one digit, no overflow. */
  function ParseInt(s: string): Option<int> {
    if s == [] then None
    else
      var digits := if s[0] == '-' || s[0] == '+' then s[1..] else s;
      if digits == [] || !AllDigits(digits) then None
      else
        var v: int := DigitsValue(digits);
        var n := if s[0] == '-' then -v else v;
        if MIN_INT64 <= n <= MAX_INT64 then Some(n) else None
  }

  lemma {:induction false} FormatNatParses(n: nat)
    ensures FormatNat(n) != [] && AllDigits(FormatNat(n)) && DigitsValue(FormatNat(n)) == n
  {
    if n >= 10 {
      FormatNatParses(n / 10);
      assert FormatNat(n)[..|FormatNat(n)|-1] == FormatNat(n / 10);
    } else {
      assert FormatNat(n)[..0] == [];
    }
  }

  /** Every int64 survives formatting and parsing. */
  lemma FormatIntParses(n: int)
    requires MIN_INT64 <= n <= MAX_INT64
    ensures ParseInt(FormatInt(n)) == Some(n)
  {
    if n < 0 {
      FormatNatParses(-n);
      assert FormatInt(n)[1..] == FormatNat(-n);
    } else {
      FormatNatParses(n);
    }
  }

  lemma FormatIntChars(n: int)
    ensures FormatInt(n) != [] && forall i :: 0 <= i < |FormatInt(n)| ==>
            FormatInt(n)[i] == '-' || IsDigit(FormatInt(n)[i])
  {
    FormatNatParses(if n < 0 then -n else n);
  }
}
