/**
 * Decimal text of natural numbers: the `{}` formatting of an unsigned
 * integer (used for display tokens) and `str::parse::<u16>` (used for the
 * listening port).
 */
module Decimal {
  import opened Wrappers

  /** The largest value of Rust's `u16`. */
  const U16_MAX: nat := 0xFFFF

  newtype u16 = x: int | 0 <= x <= 0xFFFF

  predicate IsDigit(c: char) {
    '0' <= c <= '9'
  }

  predicate AllDigits(s: string) {
    forall i :: 0 <= i < |s| ==> IsDigit(s[i])
  }

  /** A digit string as `{}` prints it: non-empty, no leading zero except "0" itself. */
  predicate IsCanonical(s: string) {
    s != [] && AllDigits(s) && (|s| > 1 ==> s[0] != '0')
  }

  function DigitChar(d: nat): (c: char)
    requires d < 10
    ensures IsDigit(c) && c as int - '0' as int == d
  {
    ('0' as int + d) as char
  }

  function DigitValue(c: char): (d: nat)
    requires IsDigit(c)
    ensures d < 10 && DigitChar(d) == c
  {
    c as int - '0' as int
  }

  /** The number a digit string denotes, most significant digit first. */
  function DigitsValue(s: string): nat
    requires AllDigits(s)
  {
    if s == [] then 0 else 10 * DigitsValue(s[..|s| - 1]) + DigitValue(s[|s| - 1])
  }

  /** Decimal text of `n`, as Rust's `format!("{}", n)` writes an unsigned integer. */
  function NatToDecimal(n: nat): (s: string)
    ensures IsCanonical(s)
    ensures n < 10 <==> |s| == 1
  {
    if n < 10 then [DigitChar(n)] else NatToDecimal(n / 10) + [DigitChar(n % 10)]
  }

  /** Reading back the text that NatToDecimal writes gives the number again. */
  lemma {:induction false} DecimalRoundTrip(n: nat)
    ensures DigitsValue(NatToDecimal(n)) == n
  {
    if n >= 10 {
      var s := NatToDecimal(n);
      assert s[..|s| - 1] == NatToDecimal(n / 10);
      DecimalRoundTrip(n / 10);
    }
  }

  lemma {:induction false} LeadingNonZeroPositive(s: string)
    requires s != [] && AllDigits(s) && s[0] != '0'
    ensures DigitsValue(s) >= 1
  {
    if |s| > 1 {
      LeadingNonZeroPositive(s[..|s| - 1]);
    }
  }

  lemma DivMod10(a: nat, d: nat)
    requires d < 10
    ensures (10 * a + d) / 10 == a && (10 * a + d) % 10 == d
  {
  }

  /** Every canonical digit string is what NatToDecimal writes for its value. */
  lemma {:induction false} CanonicalRoundTrip(s: string)
    requires IsCanonical(s)
    ensures NatToDecimal(DigitsValue(s)) == s
  {
    if |s| > 1 {
      var p, c := s[..|s| - 1], s[|s| - 1];
      var a, d := DigitsValue(p), DigitValue(c);
      assert DigitsValue(s) == 10 * a + d;
      LeadingNonZeroPositive(p);
      DivMod10(a, d);
      CanonicalRoundTrip(p);
      assert NatToDecimal(10 * a + d) == NatToDecimal(a) + [DigitChar(d)];
      assert s == p + [c];
    }
  }

  /** Distinct numbers have distinct decimal texts. */
  lemma DecimalInjective(m: nat, n: nat)
    ensures NatToDecimal(m) == NatToDecimal(n) ==> m == n
  {
    DecimalRoundTrip(m);
    DecimalRoundTrip(n);
  }

  /**
   * Rust's `s.parse::<u16>()`: an optional leading '+', then one or more
   * ASCII digits (leading zeros allowed) whose value fits in 16 bits.
   * Empty text, a lone '+', a '-' sign, any other character and values
   * above 65535 are errors.
   */
  function ParseU16(s: string): Option<u16>
  {
    if s == [] then None
    else
      var digits := if s[0] == '+' then s[1..] else s;
      if digits != [] && AllDigits(digits) && DigitsValue(digits) <= U16_MAX then
        Some(DigitsValue(digits) as u16)
      else None
  }

  /** Every 16-bit value parses back from its decimal text. */
  lemma ParseU16Decimal(n: u16)
    ensures ParseU16(NatToDecimal(n as nat)) == Some(n)
  {
    DecimalRoundTrip(n as nat);
  }

  /** A parsed port is the value of some digit string, and every digit string whose value fits parses. */
  lemma ParseU16Digits(d: string)
    requires d != [] && AllDigits(d)
    ensures ParseU16(d).Some? <==> DigitsValue(d) <= U16_MAX
    ensures ParseU16(d).Some? ==> ParseU16(d).value as nat == DigitsValue(d)
    ensures ParseU16(['+'] + d) == ParseU16(d)
  {
    assert (['+'] + d)[1..] == d;
  }

  /** Empty, signed-only, negative and non-digit texts do not parse. */
  lemma ParseU16Rejects()
    ensures ParseU16("abc") == None && ParseU16("-1") == None && ParseU16("") == None && ParseU16("+") == None
  {
    assert !IsDigit("abc"[0]) && !IsDigit("-1"[0]);
  }

  /** Appending a digit multiplies the value by ten and adds that digit. */
  lemma DigitsValueAppend(s: string, c: char)
    requires AllDigits(s) && IsDigit(c)
    ensures AllDigits(s + [c]) && DigitsValue(s + [c]) == 10 * DigitsValue(s) + DigitValue(c)
  {
    assert (s + [c])[..|s|] == s;
  }

  /** Each prefix's value extends the previous prefix's value by one digit. */
  lemma DigitsValuePrefix(s: string, k: nat)
    requires AllDigits(s) && k < |s|
    ensures DigitsValue(s[..k + 1]) == 10 * DigitsValue(s[..k]) + DigitValue(s[k])
  {
    assert s[..k + 1] == s[..k] + [s[k]];
    DigitsValueAppend(s[..k], s[k]);
  }

  /** The value of a two-digit string. */
  lemma DigitsValue2(s: string)
    requires AllDigits(s) && |s| == 2
    ensures DigitsValue(s) == 10 * DigitValue(s[0]) + DigitValue(s[1])
  {
    assert s[..0] == [];
    DigitsValuePrefix(s, 0);
    DigitsValuePrefix(s, 1);
    assert s[..2] == s;
  }

  /** The value of a four-digit string, from the value of its first two digits. */
  lemma DigitsValue4(s: string)
    requires AllDigits(s) && |s| == 4
    ensures DigitsValue(s) == 100 * DigitsValue(s[..2]) + 10 * DigitValue(s[2]) + DigitValue(s[3])
  {
    DigitsValuePrefix(s, 2);
    DigitsValuePrefix(s, 3);
    assert s[..4] == s;
  }

  /** The value of a five-digit string, from the value of its first two digits. */
  lemma DigitsValue5(s: string)
    requires AllDigits(s) && |s| == 5
    ensures DigitsValue(s) == 1000 * DigitsValue(s[..2]) + 100 * DigitValue(s[2]) + 10 * DigitValue(s[3]) + DigitValue(s[4])
  {
    DigitsValuePrefix(s, 2);
    DigitsValuePrefix(s, 3);
    DigitsValuePrefix(s, 4);
    assert s[..5] == s;
  }

  /** A five-digit value above 65535 does not parse. */
  lemma ParseU16Overflow()
    ensures ParseU16("70000") == None
  {
    DigitsValue5("70000");
    DigitsValue2("70");
    ParseU16Digits("70000");
  }

  /** The bound is exact: 65535 parses and 65536 does not. */
  lemma ParseU16Boundary()
    ensures ParseU16("65536") == None && ParseU16("65535") == Some(65535)
  {
    DigitsValue5("65536");
    DigitsValue5("65535");
    DigitsValue2("65");
    ParseU16Digits("65536");
    ParseU16Digits("65535");
  }

  /** A plain digit string within range parses to its value. */
  lemma ParseU16Accepts()
    ensures ParseU16("8080") == Some(8080)
  {
    DigitsValue4("8080");
    DigitsValue2("80");
    ParseU16Digits("8080");
  }

  /** A leading '+' is accepted. */
  lemma ParseU16Sign()
    ensures ParseU16("+80") == Some(80)
  {
    DigitsValue2("80");
    ParseU16Digits("80");
    assert ['+'] + "80" == "+80";
  }

  /** Leading zeros are accepted. */
  lemma ParseU16LeadingZeros()
    ensures ParseU16("0080") == Some(80)
  {
    DigitsValue4("0080");
    DigitsValue2("00");
    ParseU16Digits("0080");
  }
}
