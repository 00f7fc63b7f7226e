/** Decimal text of non-negative integers: `Number.prototype.toString()` on
    the area table's ids and floors, and the digits `Number.parseInt` reads. */
module Decimals {
  import opened Seqs

  function DigitChar(d: nat): char
    requires d < 10
  {
    ('0' as int + d) as char
  }

  function DigitValue(c: char): nat
  {
    if '0' <= c <= '9' then c as int - '0' as int else 0
  }

  /** The decimal text of `n`: digits only, and no leading zero. */
  function DecimalString(n: nat): (s: string)
    ensures |s| >= 1
    ensures forall i :: 0 <= i < |s| ==> '0' <= s[i] <= '9'
    ensures s[0] == '0' ==> n == 0 && s == "0"
  {
    if n < 10 then [DigitChar(n)] else DecimalString(n / 10) + [DigitChar(n % 10)]
  }

  /** Reads decimal digits back as a number. */
  function DecimalValue(s: string): nat
  {
    if s == [] then 0 else DecimalValue(s[..|s| - 1]) * 10 + DigitValue(s[|s| - 1])
  }

  lemma {:induction false} DecimalRoundTrip(n: nat)
    ensures DecimalValue(DecimalString(n)) == n
  {
    if n >= 10 {
      DecimalRoundTrip(n / 10);
      var s := DecimalString(n);
      assert s[..|s| - 1] == DecimalString(n / 10);
    }
  }

  /** Reading one more digit shifts the value one place. */
  lemma DecimalValueSnoc(s: string, c: char)
    ensures DecimalValue(s + [c]) == DecimalValue(s) * 10 + DigitValue(c)
  {
    assert (s + [c])[..|s|] == s;
  }

  lemma DecimalValue3(c0: char, c1: char, c2: char)
    ensures DecimalValue([c0, c1, c2]) == (DigitValue(c0) * 10 + DigitValue(c1)) * 10 + DigitValue(c2)
  {
    DecimalValueSnoc([c0, c1], c2);
    DecimalValueSnoc([c0], c1);
    DecimalValueSnoc([], c0);
    assert [c0, c1] + [c2] == [c0, c1, c2];
    assert [c0] + [c1] == [c0, c1];
    assert [] + [c0] == [c0];
  }

  lemma DecimalValue4(c0: char, c1: char, c2: char, c3: char)
    ensures DecimalValue([c0, c1, c2, c3]) == ((DigitValue(c0) * 10 + DigitValue(c1)) * 10 + DigitValue(c2)) * 10 + DigitValue(c3)
  {
    DecimalValue3(c0, c1, c2);
    DecimalValueSnoc([c0, c1, c2], c3);
    assert [c0, c1, c2] + [c3] == [c0, c1, c2, c3];
  }

  /** Distinct numbers never print alike. */
  lemma DecimalStringInjective(n: nat, m: nat)
    requires DecimalString(n) == DecimalString(m)
    ensures n == m
  {
    DecimalRoundTrip(n);
    DecimalRoundTrip(m);
  }

  predicate IsDigit(c: char)
  {
    '0' <= c <= '9'
  }

  /** The longest run of digits at the start of `s`. */
  function LeadingDigits(s: string): (d: string)
    ensures d <= s
    ensures forall i :: 0 <= i < |d| ==> IsDigit(d[i])
    ensures |d| < |s| ==> !IsDigit(s[|d|])
  {
    if s == [] || !IsDigit(s[0]) then [] else [s[0]] + LeadingDigits(s[1..])
  }

  /** `Number.parseInt(s)` on text that starts with its digits: the value of
      the leading digits, or NaN (`None`) when there are none. */
  function ParseIntPrefix(s: string): Option<nat>
  {
    var d := LeadingDigits(s);
    if d == [] then None else Some(DecimalValue(d))
  }

  /** Text made only of digits parses to its own value. */
  lemma {:induction false} AllDigitsLeading(s: string)
    requires forall i :: 0 <= i < |s| ==> IsDigit(s[i])
    ensures LeadingDigits(s) == s
  {
    if s != [] {
      AllDigitsLeading(s[1..]);
    }
  }

  /** `parseInt` reads back what `toString` prints. */
  lemma ParseDecimalString(n: nat)
    ensures ParseIntPrefix(DecimalString(n)) == Some(n)
  {
    AllDigitsLeading(DecimalString(n));
    DecimalRoundTrip(n);
  }
}
