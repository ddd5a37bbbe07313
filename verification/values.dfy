/**
 The values a form field can hold, and the numeric coercion `Number(value)`
 applied to the string an `<input type="number">` reports. Only the integer
 subset of JavaScript number syntax is modelled; every other string coerces
 to `NaN` here.
 */
module Values {
  import opened Ascii

  /** A field value: the raw or normalised string, an integer, or the `NaN` of a failed coercion. */
  datatype Value = Str(text: string) | Num(n: int) | NaN

  predicate AllDigits(s: string) { forall i :: 0 <= i < |s| ==> IsDigit(s[i]) }

  function DigitValue(c: char): (d: nat)
    requires IsDigit(c)
    ensures d < 10
  {
    c as int - '0' as int
  }

  function DigitChar(d: nat): (c: char)
    requires d < 10
    ensures IsDigit(c) && DigitValue(c) == d
  {
    ('0' as int + d) as char
  }

  /** The value of a string of decimal digits, most significant first; leading zeros are allowed. */
  function DecimalValue(s: string): nat
    requires AllDigits(s)
  {
    if |s| == 0 then 0 else 10 * DecimalValue(s[..|s| - 1]) + DigitValue(s[|s| - 1])
  }

  /**
   The shortest decimal spelling of `n`. It agrees with `String(n)` for
   integers up to 2^53; above that JavaScript rounds to a double, and from
   1e21 on it uses exponent form.
   */
  function DecimalString(n: nat): (s: string)
    ensures |s| > 0 && AllDigits(s)
    ensures DecimalValue(s) == n
    ensures s[0] == '0' ==> n == 0
  {
    if n < 10 then [DigitChar(n)]
    else
      var p := DecimalString(n / 10);
      var s := p + [DigitChar(n % 10)];
      assert s[..|s| - 1] == p;
      s
  }

  /**
   The text a number input shows for a stored integer `n`: `String(n)` for
   integers of magnitude at most 2^53.
   */
  function IntToString(n: int): (s: string)
    ensures |s| > 0
    ensures n < 0 <==> s[0] == '-'
  {
    if n < 0 then "-" + DecimalString(-n) else DecimalString(n)
  }

  /** A string `Number()` reads as an integer: an optional sign followed by one or more digits. */
  predicate IsIntegerLiteral(s: string)
  {
    || (|s| > 0 && AllDigits(s))
    || (|s| > 1 && (s[0] == '-' || s[0] == '+') && AllDigits(s[1..]))
  }

  /**
   `Number(value)`: the empty string is 0, a signed or unsigned digit string is
   its integer value, and anything else is `NaN`.
   */
  function ParseNumber(s: string): (v: Value)
    ensures !v.Str?
    ensures v.NaN? <==> s != "" && !IsIntegerLiteral(s)
  {
    if s == "" then Num(0)
    else if AllDigits(s) then Num(DecimalValue(s))
    else if |s| > 1 && s[0] == '-' && AllDigits(s[1..]) then Num(-(DecimalValue(s[1..]) as int))
    else if |s| > 1 && s[0] == '+' && AllDigits(s[1..]) then Num(DecimalValue(s[1..]))
    else NaN
  }

  /** Leading zeros do not change the value of a digit string. */
  lemma {:induction false} LeadingZeroValue(s: string)
    requires AllDigits(s)
    ensures AllDigits("0" + s) && DecimalValue("0" + s) == DecimalValue(s)
  {
    var z := "0" + s;
    assert AllDigits(z);
    if |s| > 0 {
      assert z[..|z| - 1] == "0" + s[..|s| - 1];
      LeadingZeroValue(s[..|s| - 1]);
    }
  }

  /** `Number` ignores a leading zero, with or without a sign: `Number("007") === Number("7")`. */
  lemma LeadingZeroIgnored(s: string)
    requires AllDigits(s)
    ensures ParseNumber("0" + s) == ParseNumber(s)
    ensures |s| > 0 ==> ParseNumber("-0" + s) == ParseNumber("-" + s)
    ensures |s| > 0 ==> ParseNumber("+0" + s) == ParseNumber("+" + s)
  {
    LeadingZeroValue(s);
    assert ("-0" + s)[1..] == "0" + s && ("-" + s)[1..] == s;
    assert ("+0" + s)[1..] == "0" + s && ("+" + s)[1..] == s;
    assert !IsDigit(("-0" + s)[0]) && !IsDigit(("-" + s)[0]);
    assert !IsDigit(("+0" + s)[0]) && !IsDigit(("+" + s)[0]);
  }

  /** Rendering an integer and coercing it back gives the integer: the stored number survives a redisplay. */
  lemma ParseNumberRoundTrip(n: int)
    ensures ParseNumber(IntToString(n)) == Num(n)
  {
    if n < 0 {
      var d := DecimalString(-n);
      var s := "-" + d;
      assert s[1..] == d;
      assert !IsDigit(s[0]);
    }
  }

  lemma ParseNumberExamples()
    ensures ParseNumber("") == Num(0)
    ensures ParseNumber("42") == Num(42)
    ensures ParseNumber("-7") == Num(-7)
    ensures ParseNumber("007") == Num(7)
    ensures ParseNumber("abc") == NaN
    ensures ParseNumber("-") == NaN
  {
    assert "-7"[1..] == "7" && "42"[..1] == "4" && "4"[..0] == "";
    assert DecimalValue("4") == 4;
    assert "007"[..2] == "00" && "00"[..1] == "0";
    assert !IsDigit("abc"[0]);
    assert !IsDigit("-"[0]);
  }
}
