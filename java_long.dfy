/**
 * Java's 64-bit `Long`, its decimal text (`Long.toString`, used when an
 * identifier is appended to a link) and its parser (`Long.parseLong`, the
 * decimal case of the conversion that binds a `{id}` path variable to a
 * `Long` parameter).
 */
module JavaLong {
  import opened Wrappers

  const MIN_LONG: int := -0x8000_0000_0000_0000
  const MAX_LONG: int := 0x7FFF_FFFF_FFFF_FFFF

  type Long = x: int | MIN_LONG <= x <= MAX_LONG

  predicate IsDigit(c: char) {
    '0' <= c <= '9'
  }

  predicate AllDigits(s: string) {
    forall i :: 0 <= i < |s| ==> IsDigit(s[i])
  }

  function DigitChar(d: nat): (c: char)
    requires d < 10
    ensures IsDigit(c) && DigitValue(c) == d
  {
    ('0' as int + d) as char
  }

  function DigitValue(c: char): nat
    requires IsDigit(c)
  {
    c as int - '0' as int
  }

  /** The decimal digits of n, most significant first, without leading zeros. */
  function Digits(n: nat): (s: string)
    ensures |s| >= 1 && AllDigits(s)
    ensures |s| > 1 ==> s[0] != '0'
  {
    if n < 10 then [DigitChar(n)] else Digits(n / 10) + [DigitChar(n % 10)]
  }

  /** `Long.toString`: a minus sign for negative values, then the digits. */
  function ToText(n: Long): string {
    if n < 0 then "-" + Digits(-(n as int)) else Digits(n)
  }

  /** The value of a string of decimal digits, read left to right. */
  function DigitsValue(s: string): nat
    requires AllDigits(s)
  {
    if s == [] then 0 else DigitsValue(s[..|s| - 1]) * 10 + DigitValue(s[|s| - 1])
  }

  /**
   * `Long.parseLong(s)`: an optional sign followed by at least one digit,
   * and a value inside the 64-bit range; anything else is a
   * NumberFormatException, here None.
   */
  function ParseLong(s: string): Option<Long>
  {
    var negative := |s| >= 1 && s[0] == '-';
    var signed := |s| >= 1 && (s[0] == '-' || s[0] == '+');
    var body := if signed then s[1..] else s;
    if |body| == 0 || !AllDigits(body) then None
    else
      var v: int := if negative then -(DigitsValue(body) as int) else DigitsValue(body);
      if MIN_LONG <= v <= MAX_LONG then Some(v) else None
  }

  lemma {:induction false} DigitsValueOfDigits(n: nat)
    ensures DigitsValue(Digits(n)) == n
  {
    if n >= 10 {
      var s := Digits(n);
      assert s[..|s| - 1] == Digits(n / 10);
      DigitsValueOfDigits(n / 10);
    }
  }

  /** Parsing the text of a Long gives the Long back. */
  lemma ParseToText(n: Long)
    ensures ParseLong(ToText(n)) == Some(n)
  {
    DigitsValueOfDigits(if n < 0 then -(n as int) else n);
    if n < 0 {
      assert ToText(n)[1..] == Digits(-(n as int));
    }
  }

  /** Distinct Longs have distinct texts. */
  lemma ToTextInjective(a: Long, b: Long)
    ensures ToText(a) == ToText(b) ==> a == b
  {
    ParseToText(a);
    ParseToText(b);
  }
}
