/** Java's `String.valueOf(int)`: the decimal rendering of an integer, used
    for the `ports` field of every security-group rule. `ParseInt` is its
    inverse on canonical numerals, and the two round trips are proved. */
module Decimal {

  import opened Results

  predicate IsDigit(c: char) {
    '0' <= c <= '9'
  }

  function DigitChar(d: nat): (c: char)
    requires d < 10
    ensures IsDigit(c)
    ensures c == '0' <==> d == 0
  {
    ('0' as int + d) as char
  }

  function DigitValue(c: char): (d: nat)
    requires IsDigit(c)
    ensures d < 10
    ensures DigitChar(d) == c
  {
    c as int - '0' as int
  }

  /** A non-empty string of digits without a leading zero (except "0" itself). */
  predicate IsCanonicalNumeral(s: string) {
    && |s| > 0
    && (forall i :: 0 <= i < |s| ==> IsDigit(s[i]))
    && (s[0] == '0' ==> |s| == 1)
  }

  /** Decimal digits of a natural number, most significant first. */
  function NatToString(n: nat): (s: string)
    ensures IsCanonicalNumeral(s)
    ensures s[0] == '0' <==> n == 0
    decreases n
  {
    if n < 10 then [DigitChar(n)] else NatToString(n / 10) + [DigitChar(n % 10)]
  }

  /** The value of a string of decimal digits, most significant first. */
  function ParseDigits(s: string): nat
    requires forall i :: 0 <= i < |s| ==> IsDigit(s[i])
  {
    if s == [] then 0 else 10 * ParseDigits(s[..|s| - 1]) + DigitValue(s[|s| - 1])
  }

  /** `String.valueOf(int)`: a minus sign for negative values, then the digits. */
  function IntToString(i: int): (s: string)
    ensures i < 0 ==> |s| > 1 && s[0] == '-' && IsCanonicalNumeral(s[1..]) && s[1] != '0'
    ensures i >= 0 ==> IsCanonicalNumeral(s)
  {
    if i < 0 then "-" + NatToString(-i) else NatToString(i)
  }

  /** Reads back what `IntToString` writes; anything else is rejected. */
  function ParseInt(s: string): Option<int> {
    if |s| > 1 && s[0] == '-' && IsCanonicalNumeral(s[1..]) && s[1] != '0' then
      var magnitude: int := ParseDigits(s[1..]);
      Some(-magnitude)
    else if IsCanonicalNumeral(s) then
      Some(ParseDigits(s))
    else
      None
  }

  lemma {:induction false} ParseNatToString(n: nat)
    ensures ParseDigits(NatToString(n)) == n
    decreases n
  {
    if n >= 10 {
      var s := NatToString(n);
      assert s[..|s| - 1] == NatToString(n / 10);
      ParseNatToString(n / 10);
    }
  }

  /** A numeral whose first digit is not zero denotes a positive number. */
  lemma {:induction false} LeadingNonZeroIsPositive(s: string)
    requires IsCanonicalNumeral(s) && s[0] != '0'
    ensures ParseDigits(s) > 0
    decreases |s|
  {
    if |s| > 1 {
      var p := s[..|s| - 1];
      assert p[0] == s[0];
      LeadingNonZeroIsPositive(p);
    }
  }

  lemma DecimalShift(q: nat, d: nat)
    requires d < 10
    ensures (10 * q + d) / 10 == q && (10 * q + d) % 10 == d
  {
  }

  lemma {:induction false} NatToStringParse(s: string)
    requires IsCanonicalNumeral(s)
    ensures NatToString(ParseDigits(s)) == s
    decreases |s|
  {
    if |s| > 1 {
      var p := s[..|s| - 1];
      assert p[0] == s[0];
      LeadingNonZeroIsPositive(p);
      NatToStringParse(p);
      var q, d := ParseDigits(p), DigitValue(s[|s| - 1]);
      DecimalShift(q, d);
      assert NatToString(10 * q + d) == NatToString(q) + [DigitChar(d)];
      assert s == p + [s[|s| - 1]];
    }
  }

  /** Reading back a rendered integer gives the integer. */
  lemma IntRoundTrip(i: int)
    ensures ParseInt(IntToString(i)) == Some(i)
  {
    var s := IntToString(i);
    if i < 0 {
      var t := NatToString(-i);
      assert s[1..] == t && s[0] == '-' && t[0] != '0';
      ParseNatToString(-i);
    } else {
      assert IsDigit(s[0]);
      ParseNatToString(i);
    }
  }

  /** Whatever `ParseInt` accepts is exactly the rendering of its value, so
      the rendering is canonical: one string per integer. */
  lemma StringRoundTrip(s: string)
    ensures ParseInt(s).Some? ==> IntToString(ParseInt(s).value) == s
  {
    if |s| > 1 && s[0] == '-' && IsCanonicalNumeral(s[1..]) && s[1] != '0' {
      LeadingNonZeroIsPositive(s[1..]);
      NatToStringParse(s[1..]);
      assert s == "-" + s[1..];
    } else if IsCanonicalNumeral(s) {
      NatToStringParse(s);
    }
  }

  /** The port of the repository's tests, 3306, is written "3306". */
  lemma MySqlPortString()
    ensures IntToString(3306) == "3306"
  {
  }
}
