/**
 * Decimal text of integers, as a JavaScript template literal writes a whole
 * number (`${value}`), and the percent strings of the metric table ('15%').
 */
module DecimalText {
  import opened Wrappers

  predicate IsDigit(c: char)
  {
    '0' <= c <= '9'
  }

  predicate AllDigits(s: string)
  {
    forall i :: 0 <= i < |s| ==> IsDigit(s[i])
  }

  /** Canonical decimal text: at least one digit and no leading zero. */
  predicate Canonical(s: string)
  {
    |s| >= 1 && AllDigits(s) && (|s| > 1 ==> s[0] != '0')
  }

  function DigitValue(c: char): (d: nat)
    requires IsDigit(c)
    ensures d < 10
  {
    c as int - '0' as int
  }

  function DigitChar(d: nat): (c: char)
    requires d < 10
    ensures IsDigit(c) && DigitValue(c) == d
  {
    ('0' as int + d) as char
  }

  /** The decimal text of a natural number, most significant digit first. */
  function NatToString(n: nat): (s: string)
    ensures Canonical(s)
    ensures s[0] == '0' <==> n == 0
  {
    if n < 10 then [DigitChar(n)] else NatToString(n / 10) + [DigitChar(n % 10)]
  }

  /** The value of a string of decimal digits (leading zeros allowed). */
  function ParseDigits(s: string): (n: nat)
    requires AllDigits(s)
  {
    if s == [] then 0 else ParseDigits(s[..|s| - 1]) * 10 + DigitValue(s[|s| - 1])
  }

  /** The text of a whole number as a template literal writes it: a minus sign for negatives. */
  function IntToString(i: int): (s: string)
    ensures |s| >= 1 && (s[0] == '-' <==> i < 0)
    ensures i < 0 ==> Canonical(s[1..])
    ensures i >= 0 ==> Canonical(s)
  {
    if i < 0 then "-" + NatToString(-i) else NatToString(i)
  }

  /** Reads back an optional minus sign followed by at least one digit. */
  function ParseInt(s: string): (r: Option<int>)
    ensures r.Some? ==> |s| >= 1
  {
    if |s| >= 2 && s[0] == '-' && AllDigits(s[1..]) then Some(-(ParseDigits(s[1..]) as int))
    else if |s| >= 1 && AllDigits(s) then Some(ParseDigits(s))
    else None
  }

  /** How the metric table writes a weight: a whole percent followed by '%'. */
  function FormatPercent(n: nat): (s: string)
    ensures |s| >= 2 && s[|s| - 1] == '%'
    ensures Canonical(s[..|s| - 1])
  {
    var s := NatToString(n) + "%";
    assert s[..|s| - 1] == NatToString(n);
    s
  }

  /** Reads a weight such as '15%': one or more digits then '%'. */
  function ParsePercent(s: string): (r: Option<nat>)
    ensures r.Some? <==> |s| >= 2 && s[|s| - 1] == '%' && AllDigits(s[..|s| - 1])
  {
    if |s| >= 2 && s[|s| - 1] == '%' && AllDigits(s[..|s| - 1]) then Some(ParseDigits(s[..|s| - 1]))
    else None
  }

  /** Reading the decimal text of n gives back n. */
  lemma {:induction false} ParseNatToString(n: nat)
    ensures ParseDigits(NatToString(n)) == n
  {
    if n >= 10 {
      var s := NatToString(n);
      ParseNatToString(n / 10);
      assert s[..|s| - 1] == NatToString(n / 10);
    }
  }

  /** A canonical digit string with a non-zero lead digit has a positive value. */
  lemma {:induction false} ParseDigitsPositive(s: string)
    requires Canonical(s) && s[0] != '0'
    ensures ParseDigits(s) >= 1
  {
    if |s| > 1 {
      var p := s[..|s| - 1];
      assert p[0] == s[0];
      ParseDigitsPositive(p);
    }
  }

  /** Writing back the value of canonical digit text gives the same text. */
  lemma {:induction false} NatToStringParse(s: string)
    requires Canonical(s)
    ensures NatToString(ParseDigits(s)) == s
  {
    if |s| > 1 {
      var p := s[..|s| - 1];
      assert p[0] == s[0];
      ParseDigitsPositive(p);
      NatToStringParse(p);
      var n := ParseDigits(s);
      assert n / 10 == ParseDigits(p) && n % 10 == DigitValue(s[|s| - 1]);
      assert s == p + [s[|s| - 1]];
    }
  }

  /** Distinct numbers have distinct decimal text. */
  lemma NatToStringInjective(m: nat, n: nat)
    ensures NatToString(m) == NatToString(n) <==> m == n
  {
    ParseNatToString(m);
    ParseNatToString(n);
  }

  /** Reading the template-literal text of a whole number gives it back. */
  lemma IntToStringRoundTrip(i: int)
    ensures ParseInt(IntToString(i)) == Some(i)
  {
    var s := IntToString(i);
    if i < 0 {
      assert s[1..] == NatToString(-i);
      ParseNatToString(-i);
    } else {
      ParseNatToString(i);
    }
  }

  /** A weight written as a percent reads back as the same percent. */
  lemma PercentRoundTrip(n: nat)
    ensures ParsePercent(FormatPercent(n)) == Some(n)
  {
    var s := FormatPercent(n);
    assert s[..|s| - 1] == NatToString(n);
    ParseNatToString(n);
  }

  /** A weight string without leading zeros is exactly how its percent is written. */
  lemma PercentTextCanonical(s: string)
    requires ParsePercent(s).Some?
    requires Canonical(s[..|s| - 1])
    ensures FormatPercent(ParsePercent(s).value) == s
  {
    NatToStringParse(s[..|s| - 1]);
    assert s == s[..|s| - 1] + "%";
  }
}
