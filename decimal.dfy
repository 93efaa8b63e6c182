/**
 * Decimal text of non-negative integers, as `{}` prints an unsigned integer:
 * the shortest run of ASCII digits, most significant first, with no sign and
 * no leading zero. ParseDecimal reads such text back and is the reference the
 * printer is proved against.
 */
module Decimal {

  predicate IsDigit(c: char)
  {
    '0' <= c <= '9'
  }

  predicate AllDigits(s: string)
  {
    forall i :: 0 <= i < |s| ==> IsDigit(s[i])
  }

  /** Non-empty, all digits, and no leading zero unless the text is "0". */
  predicate IsCanonicalDecimal(s: string)
  {
    |s| >= 1 && AllDigits(s) && (|s| > 1 ==> s[0] != '0')
  }

  function DigitChar(d: nat): (c: char)
    requires d < 10
    ensures IsDigit(c)
    ensures c as int - '0' as int == d
  {
    ('0' as int + d) as char
  }

  function DigitValue(c: char): nat
    requires IsDigit(c)
  {
    c as int - '0' as int
  }

  /** The value of a run of digits, most significant first (0 for the empty run). */
  function ParseDecimal(s: string): nat
    requires AllDigits(s)
  {
    if s == [] then 0 else 10 * ParseDecimal(s[..|s| - 1]) + DigitValue(s[|s| - 1])
  }

  /** The decimal text of n. */
  function DecimalString(n: nat): (s: string)
    ensures IsCanonicalDecimal(s)
    ensures |s| == 1 <==> n < 10
    decreases n
  {
    if n < 10 then [DigitChar(n)] else DecimalString(n / 10) + [DigitChar(n % 10)]
  }

  /** Reading the decimal text of n gives back n. */
  lemma {:induction false} ParseDecimalString(n: nat)
    ensures ParseDecimal(DecimalString(n)) == n
    decreases n
  {
    var s := DecimalString(n);
    if n >= 10 {
      ParseDecimalString(n / 10);
      assert s[..|s| - 1] == DecimalString(n / 10);
    }
  }

  /** Different numbers have different decimal texts. */
  lemma DecimalStringInjective(m: nat, n: nat)
    requires DecimalString(m) == DecimalString(n)
    ensures m == n
  {
    ParseDecimalString(m);
    ParseDecimalString(n);
  }

  /** Every canonical decimal text is the text of the number it denotes. */
  lemma {:induction false} DecimalStringOfParse(s: string)
    requires IsCanonicalDecimal(s)
    ensures DecimalString(ParseDecimal(s)) == s
    decreases |s|
  {
    var front := s[..|s| - 1];
    if |s| == 1 {
      assert ParseDecimal(s) == 10 * ParseDecimal([]) + DigitValue(s[0]);
    } else {
      assert IsCanonicalDecimal(front) by {
        assert front[0] == s[0];
      }
      DecimalStringOfParse(front);
      LeadingDigitPositive(front);
      var n := ParseDecimal(s);
      assert n / 10 == ParseDecimal(front) && n % 10 == DigitValue(s[|s| - 1]);
      assert s == front + [s[|s| - 1]];
    }
  }

  /** A canonical decimal text longer than one digit denotes at least 10. */
  lemma {:induction false} LeadingDigitPositive(s: string)
    requires IsCanonicalDecimal(s)
    ensures |s| > 1 ==> ParseDecimal(s) >= 10
    ensures ParseDecimal(s) >= 1 || s == "0"
    decreases |s|
  {
    if |s| > 1 {
      var front := s[..|s| - 1];
      assert IsCanonicalDecimal(front) by {
        assert front[0] == s[0];
      }
      LeadingDigitPositive(front);
      assert front != "0" by {
        if |front| == 1 { assert front[0] == s[0]; }
      }
    } else {
      assert ParseDecimal(s) == 10 * ParseDecimal([]) + DigitValue(s[0]);
    }
  }

  /** The texts of the magnitudes in the regression scenario. */
  lemma DecimalNinety()
    ensures DecimalString(90) == "90"
    ensures DecimalString(198) == "198"
  {
  }
}
