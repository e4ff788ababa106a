/**
 * Decimal text for integers, as Go's `strconv.Atoi` reads it and as `%d`
 * writes it. The scrape interval is read with the former; interval and
 * scrape port are written with the latter.
 */
module Decimal {
  import opened Wrappers

  /** The range of Go's 64-bit `int`; `strconv.Atoi` rejects values outside it. */
  const MinInt64: int := -0x8000_0000_0000_0000
  const MaxInt64: int := 0x7fff_ffff_ffff_ffff

  predicate IsDigit(c: char) {
    '0' <= c <= '9'
  }

  predicate AllDigits(s: string) {
    forall i :: 0 <= i < |s| ==> IsDigit(s[i])
  }

  function DigitValue(c: char): nat
    requires IsDigit(c)
  {
    (c as int) - ('0' as int)
  }

  function DigitChar(d: nat): (c: char)
    requires d < 10
    ensures IsDigit(c) && DigitValue(c) == d
  {
    ('0' as int + d) as char
  }

  /** The value of a run of decimal digits, most significant digit first. */
  function DigitsValue(s: string): nat
    requires AllDigits(s)
    decreases |s|
  {
    if s == [] then 0 else DigitsValue(s[..|s| - 1]) * 10 + DigitValue(s[|s| - 1])
  }

  /** A numeral without redundant leading zeros: "0", "7", "123", never "007". */
  predicate Canonical(s: string) {
    s != [] && AllDigits(s) && (s[0] == '0' ==> |s| == 1)
  }

  /** `n` in decimal: a canonical numeral that reads back as `n`. */
  function NatToString(n: nat): (s: string)
    ensures Canonical(s)
    ensures DigitsValue(s) == n
  {
    if n < 10 then [DigitChar(n)]
    else
      var prefix := NatToString(n / 10);
      var s := prefix + [DigitChar(n % 10)];
      assert s[..|s| - 1] == prefix;
      s
  }

  /** `i` as Go's `%d` verb prints it: a minus sign, then the magnitude. */
  function IntToString(i: int): (s: string)
    ensures s != []
    ensures i < 0 <==> s[0] == '-'
    ensures i >= 0 ==> Canonical(s)
    ensures i < 0 ==> Canonical(s[1..]) && s[1] != '0'
  {
    if i < 0 then "-" + NatToString(-i) else NatToString(i)
  }

  /** The decimal text of an integer is a single line: digits and a sign. */
  lemma IntToStringNoBreak(i: int)
    ensures '\n' !in IntToString(i)
  {
    var s := IntToString(i);
    var digits := if i < 0 then s[1..] else s;
    assert forall j :: 0 <= j < |digits| ==> digits[j] != '\n';
    if i < 0 {
      assert s == "-" + digits;
    }
  }

  /**
   * `strconv.Atoi`: an optional `+` or `-`, then one or more decimal
   * digits, with the value inside the 64-bit range; anything else fails.
   */
  function Atoi(s: string): (r: Option<int>)
    ensures r.Some? ==> MinInt64 <= r.value <= MaxInt64
    ensures r.Some? ==> s != [] && (IsDigit(s[0]) || s[0] == '+' || s[0] == '-')
    ensures r.Some? ==> forall i :: 0 < i < |s| ==> IsDigit(s[i])
    ensures r.Some? ==> exists i :: 0 <= i < |s| && IsDigit(s[i])
  {
    if s == [] then None
    else
      var digits := if s[0] == '+' || s[0] == '-' then s[1..] else s;
      if digits == [] || !AllDigits(digits) then None
      else
        var v: int := if s[0] == '-' then 0 - (DigitsValue(digits) as int) else DigitsValue(digits);
        assert digits[|digits| - 1] == s[|s| - 1];
        if MinInt64 <= v <= MaxInt64 then Some(v) else None
  }

  /**
   * What Atoi reads from an optional sign and a run of digits: their value,
   * negated after a minus, when it lies in the 64-bit range, and nothing
   * otherwise.
   */
  lemma AtoiSigned(sign: string, digits: string)
    requires sign == "" || sign == "+" || sign == "-"
    requires digits != [] && AllDigits(digits)
    ensures var v: int := if sign == "-" then 0 - DigitsValue(digits) else DigitsValue(digits);
      Atoi(sign + digits) == if MinInt64 <= v <= MaxInt64 then Some(v) else None
  {
    var s := sign + digits;
    if sign == "" {
      assert s == digits;
      assert IsDigit(s[0]);
    } else {
      assert s[0] == sign[0] && s[1..] == digits;
    }
  }

  /** Reading back what `IntToString` writes gives the same integer. */
  lemma AtoiIntToString(i: int)
    requires MinInt64 <= i <= MaxInt64
    ensures Atoi(IntToString(i)) == Some(i)
  {
  }

  /** A canonical numeral is the decimal text of its own value. */
  lemma {:induction false} NatToStringDigitsValue(s: string)
    requires Canonical(s)
    ensures NatToString(DigitsValue(s)) == s
    decreases |s|
  {
    if |s| > 1 {
      var prefix := s[..|s| - 1];
      assert Canonical(prefix);
      DigitsValueLeadingDigit(prefix);
      NatToStringDigitsValue(prefix);
      var n := DigitsValue(s);
      assert n / 10 == DigitsValue(prefix) && n % 10 == DigitValue(s[|s| - 1]);
      assert s == prefix + [s[|s| - 1]];
    }
  }

  /** A numeral whose first digit is not zero has a positive value. */
  lemma {:induction false} DigitsValueLeadingDigit(s: string)
    requires AllDigits(s) && s != [] && s[0] != '0'
    ensures DigitsValue(s) >= 1
    decreases |s|
  {
    if |s| > 1 {
      DigitsValueLeadingDigit(s[..|s| - 1]);
    }
  }

  /**
   * Atoi accepts every canonical numeral in range, and `%d` of the result
   * writes back the very same text.
   */
  lemma AtoiCanonical(s: string)
    requires Canonical(s) && DigitsValue(s) <= MaxInt64
    ensures Atoi(s) == Some(DigitsValue(s))
    ensures IntToString(DigitsValue(s)) == s
  {
    assert s[0] != '+' && s[0] != '-';
    NatToStringDigitsValue(s);
  }
}
