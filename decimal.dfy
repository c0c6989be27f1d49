/**
 * Decimal text of natural numbers.  Trigger names ("jt450") and slice file
 * names ("QCD_Pt_80to120_...") carry numbers in this form.
 */
module Decimal {
  predicate IsDigit(c: char) {
    '0' <= c <= '9'
  }

  predicate IsDigits(s: string) {
    forall i :: 0 <= i < |s| ==> IsDigit(s[i])
  }

  /** Non-empty decimal text without a leading zero (except "0" itself). */
  predicate IsCanonical(s: string) {
    |s| > 0 && IsDigits(s) && (s[0] != '0' || |s| == 1)
  }

  function DigitChar(d: nat): (c: char)
    requires d < 10
    ensures IsDigit(c)
  {
    ('0' as int + d) as char
  }

  function DigitValue(c: char): (d: nat)
    requires IsDigit(c)
    ensures d < 10 && DigitChar(d) == c
  {
    c as int - '0' as int
  }

  /** The decimal text of `n`, most significant digit first. */
  function NatToString(n: nat): (s: string)
    decreases n
  {
    if n < 10 then [DigitChar(n)] else NatToString(n / 10) + [DigitChar(n % 10)]
  }

  /** The text of a number is canonical, and a single digit exactly for numbers below ten. */
  lemma {:induction false} NatToStringCanonical(n: nat)
    ensures IsCanonical(NatToString(n))
    ensures n < 10 <==> |NatToString(n)| == 1
    decreases n
  {
    if n >= 10 {
      NatToStringCanonical(n / 10);
    }
  }

  /** The value of a digit string read most significant digit first. */
  function ParseNat(s: string): (n: nat)
    requires IsDigits(s)
    decreases |s|
  {
    if |s| == 0 then 0 else 10 * ParseNat(s[..|s| - 1]) + DigitValue(s[|s| - 1])
  }

  /** Reading back the text of a number gives the number. */
  lemma {:induction false} ParseNatToString(n: nat)
    ensures IsCanonical(NatToString(n))
    ensures ParseNat(NatToString(n)) == n
    decreases n
  {
    NatToStringCanonical(n);
    var s := NatToString(n);
    if n >= 10 {
      ParseNatToString(n / 10);
      assert s[..|s| - 1] == NatToString(n / 10);
    }
  }

  /** A digit string whose first digit is not zero denotes a positive number. */
  lemma {:induction false} LeadingDigitPositive(s: string)
    requires IsDigits(s) && |s| > 0 && s[0] != '0'
    ensures ParseNat(s) > 0
    decreases |s|
  {
    if |s| > 1 {
      LeadingDigitPositive(s[..|s| - 1]);
    }
  }

  /** Writing out the value of canonical text gives the text back. */
  lemma {:induction false} NatToStringParse(s: string)
    requires IsCanonical(s)
    ensures NatToString(ParseNat(s)) == s
    decreases |s|
  {
    var n := ParseNat(s);
    if |s| > 1 {
      var t := s[..|s| - 1];
      LeadingDigitPositive(t);
      NatToStringParse(t);
      assert n / 10 == ParseNat(t) && n % 10 == DigitValue(s[|s| - 1]);
      assert s == t + [s[|s| - 1]];
    }
  }

  /** Two numbers with the same text are equal. */
  lemma NatToStringInjective(m: nat, n: nat)
    ensures NatToString(m) == NatToString(n) <==> m == n
  {
    ParseNatToString(m);
    ParseNatToString(n);
  }

  /** In `a + x`, position `|a|` holds the first non-digit. */
  lemma FirstNonDigit(a: string, x: string)
    requires IsDigits(a) && |x| > 0 && !IsDigit(x[0])
    ensures forall k :: 0 <= k < |a| ==> IsDigit((a + x)[k])
    ensures !IsDigit((a + x)[|a|])
  {
  }

  /**
   * A digit string followed by text that starts with a non-digit splits in
   * only one way: the digits end where the first non-digit begins.
   */
  lemma DigitsSplitUnique(a1: string, x1: string, a2: string, x2: string)
    requires IsDigits(a1) && IsDigits(a2)
    requires |x1| > 0 && !IsDigit(x1[0]) && |x2| > 0 && !IsDigit(x2[0])
    requires a1 + x1 == a2 + x2
    ensures a1 == a2 && x1 == x2
  {
    var s := a1 + x1;
    FirstNonDigit(a1, x1);
    FirstNonDigit(a2, x2);
    assert |a1| == |a2|;
    assert a1 == s[..|a1|] && a2 == s[..|a2|];
    assert x1 == s[|a1|..] && x2 == s[|a2|..];
  }
}
