/** Decimal text of integers, as the address bar and the request URL carry them.
    IntToText is JavaScript's String(n) on an integer; TextToInt is Number(s)
    on the strings for which Number yields an integer written in plain decimal. */
module NumberText {

  predicate IsDigit(c: char) {
    '0' <= c <= '9'
  }

  predicate AllDigits(s: string) {
    forall i :: 0 <= i < |s| ==> IsDigit(s[i])
  }

  /** A non-empty run of decimal digits (leading zeros allowed, as Number accepts them). */
  predicate IsDigits(s: string) {
    |s| > 0 && AllDigits(s)
  }

  /** The strings this model lets Number(...) read: the empty string (Number gives 0),
      a run of digits, or a minus sign followed by a run of digits. */
  predicate IsIntText(s: string) {
    s == "" || IsDigits(s) || (|s| >= 2 && s[0] == '-' && IsDigits(s[1..]))
  }

  function DigitValue(c: char): nat
    requires IsDigit(c)
  {
    c as int - '0' as int
  }

  function DigitChar(d: nat): (c: char)
    requires d < 10
    ensures IsDigit(c) && DigitValue(c) == d
  {
    ('0' as int + d) as char
  }

  /** The value of a run of digits, most significant digit first. */
  function DigitsValue(s: string): nat
    requires AllDigits(s)
    decreases |s|
  {
    if s == [] then 0 else 10 * DigitsValue(s[..|s| - 1]) + DigitValue(s[|s| - 1])
  }

  /** Shortest decimal text of a natural number: digits, no leading zero except
      in the text "0" of zero itself. */
  function NatToText(n: nat): (s: string)
    ensures IsDigits(s)
    ensures s[0] == '0' ==> n == 0 && |s| == 1
    decreases n
  {
    if n < 10 then [DigitChar(n)] else NatToText(n / 10) + [DigitChar(n % 10)]
  }

  /** String(n) for an integer n: a minus sign exactly for negative n, then the
      digits of |n| without leading zeros. */
  function IntToText(i: int): (s: string)
    ensures IsIntText(s)
    ensures i >= 0 ==> IsDigits(s) && (s[0] == '0' ==> i == 0 && |s| == 1)
    ensures i < 0 ==> |s| >= 2 && s[0] == '-' && IsDigits(s[1..]) && s[1] != '0'
  {
    if i < 0 then "-" + NatToText(-i) else NatToText(i)
  }

  /** Number(s) for the strings IsIntText admits: "" reads as 0, a run of digits
      as its decimal value, a minus sign and digits as that value negated. */
  function TextToInt(s: string): (n: int)
    requires IsIntText(s)
    ensures s == "" ==> n == 0
    ensures IsDigits(s) ==> n == DigitsValue(s)
    ensures |s| >= 2 && s[0] == '-' ==> n <= 0 && -n == DigitsValue(s[1..])
    ensures IsDigits(s) && s[0] != '0' ==> n > 0
  {
    LeadingDigitValue(s);
    if s == "" then 0
    else if s[0] == '-' then -(DigitsValue(s[1..]) as int)
    else DigitsValue(s)
  }

  /** A run of digits that does not start with 0 has a positive value. */
  lemma {:induction false} LeadingDigitValue(s: string)
    ensures IsDigits(s) && s[0] != '0' ==> DigitsValue(s) > 0
  {
    if IsDigits(s) && |s| > 1 {
      LeadingDigitValue(s[..|s| - 1]);
    }
  }

  /** Reading back the digits NatToText writes gives the number again. */
  lemma {:induction false} NatTextRoundTrip(n: nat)
    ensures DigitsValue(NatToText(n)) == n
  {
    if n >= 10 {
      var s := NatToText(n);
      assert s[..|s| - 1] == NatToText(n / 10);
      NatTextRoundTrip(n / 10);
    }
  }

  /** Number(String(i)) == i for every integer i. */
  lemma IntTextRoundTrip(i: int)
    ensures TextToInt(IntToText(i)) == i
  {
    if i < 0 {
      var t := NatToText(-i);
      assert ("-" + t)[1..] == t;
      NatTextRoundTrip(-i);
    } else {
      NatTextRoundTrip(i);
    }
  }
}
