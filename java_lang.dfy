/**
 * The parts of java.lang.Long and java.time.Duration that the plugin relies on:
 * the range of a long, two's-complement wrap-around, Long.valueOf on a decimal
 * string, and Duration.toMillis.
 */
module JavaLang {
  import opened Wrappers

  const LONG_MIN: int := -0x8000_0000_0000_0000
  const LONG_MAX: int := 0x7FFF_FFFF_FFFF_FFFF
  const TWO_TO_64: int := 0x1_0000_0000_0000_0000

  predicate InLongRange(n: int) { LONG_MIN <= n <= LONG_MAX }

  /** A value of Java's primitive type long */
  type Long = n: int | InLongRange(n)

  /** The result of a long multiplication or addition whose mathematical value is n */
  function WrapLong(n: int): (r: Long)
    ensures (r - n) % TWO_TO_64 == 0
    ensures InLongRange(n) ==> r == n
  {
    (n - LONG_MIN) % TWO_TO_64 + LONG_MIN
  }

  predicate IsDigit(c: char) { '0' <= c <= '9' }

  predicate AllDigits(s: string) { forall i :: 0 <= i < |s| ==> IsDigit(s[i]) }

  function DigitValue(c: char): nat
    requires IsDigit(c)
  {
    c as int - '0' as int
  }

  function DigitChar(d: nat): (c: char)
    requires d < 10
    ensures IsDigit(c) && DigitValue(c) == d
  {
    ('0' as int + d) as char
  }

  /** The number a run of decimal digits denotes, most significant digit first */
  function DigitsValue(s: string): nat
    requires AllDigits(s)
  {
    if s == [] then 0 else DigitsValue(s[..|s| - 1]) * 10 + DigitValue(s[|s| - 1])
  }

  /**
   * Long.valueOf(s) (radix 10) on a non-null string: an optional '-' or '+', then
   * at least one decimal digit and nothing else, denoting a value that fits in a
   * long. None is the NumberFormatException thrown otherwise.
   */
  function ParseLong(s: string): (r: Option<Long>)
    ensures r.Some? ==> |s| > 0
    ensures r.Some? ==> IsDigit(s[0]) || (|s| > 1 && (s[0] == '-' || s[0] == '+'))
    ensures r.Some? ==> forall i :: 1 <= i < |s| ==> IsDigit(s[i])
    ensures r.Some? && s[0] == '-' ==> r.value <= 0
  {
    if s == [] then None
    else
      var signed := s[0] == '-' || s[0] == '+';
      var digits := if signed then s[1..] else s;
      if digits == [] || !AllDigits(digits) then None
      else
        var v: int := if s[0] == '-' then 0 - DigitsValue(digits) else DigitsValue(digits);
        if InLongRange(v) then Some(v) else None
  }

  /**
   * Every text Long.valueOf accepts is a sign ("", "+" or "-") followed by decimal
   * digits; for such a text the answer is the signed value of the digits when that
   * fits in a long, and an exception otherwise.
   */
  lemma ParseLongOf(sign: string, digits: string)
    requires sign == "" || sign == "+" || sign == "-"
    requires digits != [] && AllDigits(digits)
    ensures var v := if sign == "-" then 0 - DigitsValue(digits) else DigitsValue(digits);
            ParseLong(sign + digits) == if InLongRange(v) then Some(v) else None
  {
    var s := sign + digits;
    if sign == "" {
      assert s == digits;
    } else {
      assert s[0] == sign[0] && s[1..] == digits;
    }
  }

  /** Non-canonical spellings, and texts Long.valueOf rejects */
  lemma ParseLongExamples()
    ensures ParseLong("+10") == Some(10) && ParseLong("010") == Some(10) && ParseLong("-0") == Some(0)
    ensures ParseLong("1a") == None && ParseLong(" 1") == None && ParseLong("-") == None
  {
    assert "+10" == "+" + "10" && "-0" == "-" + "0" && "010" == "" + "010";
    assert DigitsValue("1") == 1 && DigitsValue("10") == 10;
    assert DigitsValue("01") == 1 && DigitsValue("010") == 10;
    ParseLongOf("+", "10");
    ParseLongOf("", "010");
    ParseLongOf("-", "0");
    assert !IsDigit("1a"[1]);
    assert !IsDigit(" 1"[0]);
  }

  /** The decimal digits of n without leading zeros */
  function NatDigits(n: nat): (s: string)
    ensures s != [] && AllDigits(s) && DigitsValue(s) == n
    ensures n > 0 ==> s[0] != '0'
    decreases n
  {
    if n < 10 then [DigitChar(n)]
    else
      var prefix := NatDigits(n / 10);
      var s := prefix + [DigitChar(n % 10)];
      assert s[..|s| - 1] == prefix;
      s
  }

  /** Long.toString(n): a '-' exactly for a negative n, then the digits of |n| without leading zeros */
  function FormatLong(n: int): (s: string)
    ensures s != [] && (s[0] == '-' <==> n < 0)
    ensures var digits := if n < 0 then s[1..] else s;
            digits != [] && AllDigits(digits) && DigitsValue(digits) == (if n < 0 then 0 - n else n)
            && (digits[0] == '0' ==> digits == "0")
  {
    if n < 0 then "-" + NatDigits(0 - n) else NatDigits(n)
  }

  /** Long.valueOf reads back every long that Long.toString writes */
  lemma {:induction false} ParseFormatRoundTrip(n: Long)
    ensures ParseLong(FormatLong(n)) == Some(n)
  {
    var s := FormatLong(n);
    if n < 0 {
      assert s[1..] == NatDigits(0 - n as int);
    } else {
      assert IsDigit(s[0]);
    }
  }

  /** Duration restricted to whole seconds: every duration the plugin builds is Duration.ofSeconds */
  datatype Duration = OfSeconds(seconds: Long) {

    /**
     * Duration.toMillis(): the length in milliseconds, or None where Java throws
     * ArithmeticException because the milliseconds do not fit in a long.
     */
    function ToMillis(): (r: Option<Long>)
      ensures r.Some? <==> InLongRange(seconds * 1000)
      ensures r.Some? ==> r.value == seconds * 1000
    {
      if InLongRange(seconds * 1000) then Some(seconds * 1000) else None
    }
  }
}
