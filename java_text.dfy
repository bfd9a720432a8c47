/**
 * Decimal rendering of a Java `int`, as `StringBuilder.append(Integer)` produces it
 * (`Integer.toString`: an optional minus sign followed by the decimal digits, no leading
 * zeros), together with a parser that reads such text back.
 */
module JavaText {

  /** The values of a Java `int`. */
  newtype Int32 = x: int | -0x8000_0000 <= x < 0x8000_0000

  predicate IsDigit(c: char) {
    '0' <= c <= '9'
  }

  function DigitChar(d: nat): (c: char)
    requires d < 10
    ensures IsDigit(c) && c as int - '0' as int == d
  {
    ('0' as int + d) as char
  }

  /** The decimal digits of `n`, most significant first, without leading zeros. */
  function Digits(n: nat): (s: string)
    ensures |s| >= 1
    ensures forall i :: 0 <= i < |s| ==> IsDigit(s[i])
    ensures |s| > 1 ==> s[0] != '0'
    decreases n
  {
    if n < 10 then [DigitChar(n)] else Digits(n / 10) + [DigitChar(n % 10)]
  }

  /** The text `Integer.toString(n)` gives. */
  function IntToString(n: Int32): (s: string)
    ensures |s| >= 1
    ensures (n < 0) == (s[0] == '-')
    ensures forall i :: 0 <= i < |s| ==> IsDigit(s[i]) || (i == 0 && s[i] == '-')
  {
    if n < 0 then "-" + Digits(-(n as int)) else Digits(n as int)
  }

  /** The value of a string of decimal digits, read most significant first. */
  function DecimalValue(s: string): nat
    requires forall i :: 0 <= i < |s| ==> IsDigit(s[i])
  {
    if |s| == 0 then 0
    else
      assert IsDigit(s[|s| - 1]);
      DecimalValue(s[..|s| - 1]) * 10 + (s[|s| - 1] as int - '0' as int)
  }

  /** Reads back the text of a Java `int`: an optional minus sign, then digits. */
  function ParseInt(s: string): int
    requires |s| >= 1
    requires forall i :: 0 <= i < |s| ==> IsDigit(s[i]) || (i == 0 && s[i] == '-')
  {
    if s[0] == '-' then -(DecimalValue(s[1..]) as int) else DecimalValue(s)
  }

  lemma {:induction false} DigitsRoundTrip(n: nat)
    ensures DecimalValue(Digits(n)) == n
    decreases n
  {
    if n >= 10 {
      var s := Digits(n);
      assert s[..|s| - 1] == Digits(n / 10);
      DigitsRoundTrip(n / 10);
    }
  }

  /** Parsing the rendered text gives the number back. */
  lemma IntToStringRoundTrip(n: Int32)
    ensures ParseInt(IntToString(n)) == n as int
  {
    if n < 0 {
      var d := Digits(-(n as int));
      assert IntToString(n) == "-" + d;
      assert ("-" + d)[1..] == d;
      DigitsRoundTrip(-(n as int));
    } else {
      DigitsRoundTrip(n as int);
    }
  }

  /** Distinct numbers are rendered as distinct texts. */
  lemma IntToStringInjective(m: Int32, n: Int32)
    ensures IntToString(m) == IntToString(n) ==> m == n
  {
    IntToStringRoundTrip(m);
    IntToStringRoundTrip(n);
  }
}
