/**
  Ruby's decimal rendering of integers (`Integer#to_s`) and its lenient
  parse (`String#to_i`). The signer renders the clock reading with the
  first, the verifier and the status-code dispatch read numbers back with
  the second, so the round trip between them is what makes a fresh
  signature verify.
 */
module Decimal {

  predicate IsDigit(c: char) {
    '0' <= c <= '9'
  }

  predicate AllDigits(s: string) {
    forall i | 0 <= i < |s| :: IsDigit(s[i])
  }

  /** The characters `String#to_i` skips before the number. */
  predicate IsSpace(c: char) {
    c == ' ' || c == '\t' || c == '\n' || c == '\U{000B}' || c == '\U{000C}' || c == '\r'
  }

  function DigitChar(d: nat): (c: char)
    requires d < 10
    ensures IsDigit(c) && c as int - '0' as int == d
  {
    (d + '0' as int) as char
  }

  function DigitValue(c: char): (d: nat)
    requires IsDigit(c)
    ensures d < 10 && DigitChar(d) == c
  {
    c as int - '0' as int
  }

  /** `Integer#to_s` of a non-negative integer: digits, most significant first, no leading zero. */
  function NatToString(n: nat): (s: string)
    ensures |s| >= 1 && AllDigits(s)
    ensures s[0] == '0' <==> n == 0
    decreases n
  {
    if n < 10 then [DigitChar(n)] else NatToString(n / 10) + [DigitChar(n % 10)]
  }

  /** `Integer#to_s`: a minus sign before the digits of a negative integer. */
  function IntToString(n: int): (s: string)
    ensures |s| >= 1 && (s[0] == '-' <==> n < 0)
    ensures n >= 0 ==> AllDigits(s)
  {
    if n < 0 then "-" + NatToString(-n) else NatToString(n)
  }

  /** The value of a string of digits read most significant first. */
  function DigitsValue(s: string): nat
    requires AllDigits(s)
  {
    if s == [] then 0 else DigitsValue(s[..|s| - 1]) * 10 + DigitValue(s[|s| - 1])
  }

  /** The longest prefix of `s` made of digits. */
  function LeadingDigits(s: string): (p: string)
    ensures p <= s && AllDigits(p)
    ensures |p| < |s| ==> !IsDigit(s[|p|])
  {
    if s != [] && IsDigit(s[0]) then [s[0]] + LeadingDigits(s[1..]) else []
  }

  /** `s` without its leading whitespace. */
  function SkipSpace(s: string): (t: string)
    ensures |t| <= |s| && t == s[|s| - |t|..]
    ensures t == [] || !IsSpace(t[0])
  {
    if s != [] && IsSpace(s[0]) then SkipSpace(s[1..]) else s
  }

  /** The optional `0d` or `0D` prefix that marks a decimal literal. */
  function SkipDecimalPrefix(u: string): string {
    if |u| >= 2 && u[0] == '0' && (u[1] == 'd' || u[1] == 'D') then u[2..] else u
  }

  /** As many digits as follow an optional `0d` prefix; no digits there read as 0. */
  function ReadUnsigned(u: string): nat {
    DigitsValue(LeadingDigits(SkipDecimalPrefix(u)))
  }

  /** An optional sign, then an unsigned number. */
  function ReadSigned(t: string): int {
    var signed := t != [] && (t[0] == '-' || t[0] == '+');
    var magnitude: int := ReadUnsigned(if signed then t[1..] else t);
    if signed && t[0] == '-' then -magnitude else magnitude
  }

  /** `String#to_i` in base 10: leading whitespace is skipped before the sign and digits. */
  function ToI(s: string): int {
    ReadSigned(SkipSpace(s))
  }

  lemma {:induction false} NatToStringValue(n: nat)
    ensures DigitsValue(NatToString(n)) == n
  {
    if n >= 10 {
      NatToStringValue(n / 10);
      var s := NatToString(n);
      assert s[..|s| - 1] == NatToString(n / 10);
    }
  }

  lemma LeadingDigitsOfDigits(s: string)
    requires AllDigits(s)
    ensures LeadingDigits(s) == s
  {
  }

  /** The digits `Integer#to_s` writes for a natural number read back as that number. */
  lemma ReadSignedOfNatToString(n: nat)
    ensures ReadSigned(NatToString(n)) == n
  {
    var s := NatToString(n);
    assert IsDigit(s[0]);
    assert |s| >= 2 ==> IsDigit(s[1]);
    assert SkipDecimalPrefix(s) == s;
    assert ReadSigned(s) == DigitsValue(LeadingDigits(s));
    LeadingDigitsOfDigits(s);
    NatToStringValue(n);
  }

  /** A minus sign followed by digits reads back as the negated number. */
  lemma ReadSignedOfIntToString(n: int)
    ensures ReadSigned(IntToString(n)) == n
  {
    if n < 0 {
      var s := IntToString(n);
      var digits := NatToString(-n);
      assert s[0] == '-' && s[1..] == digits;
      assert |digits| >= 2 ==> IsDigit(digits[1]);
      assert SkipDecimalPrefix(digits) == digits;
      assert ReadSigned(s) == 0 - DigitsValue(LeadingDigits(digits)) as int;
      LeadingDigitsOfDigits(digits);
      NatToStringValue(-n);
    } else {
      ReadSignedOfNatToString(n);
    }
  }

  /** Reading back what `Integer#to_s` wrote gives the same integer. */
  lemma ToIOfIntToString(n: int)
    ensures ToI(IntToString(n)) == n
  {
    var s := IntToString(n);
    assert !IsSpace(s[0]);
    assert SkipSpace(s) == s;
    ReadSignedOfIntToString(n);
  }

  /** Digits behind a `0d` or `0D` prefix read as the digits alone. */
  lemma DecimalPrefixRead(digits: string)
    requires AllDigits(digits)
    ensures ReadUnsigned("0d" + digits) == ReadUnsigned("0D" + digits) == ReadUnsigned(digits) == DigitsValue(digits)
  {
    assert SkipDecimalPrefix("0d" + digits) == digits;
    assert SkipDecimalPrefix("0D" + digits) == digits;
    assert |digits| >= 2 ==> IsDigit(digits[1]);
    assert SkipDecimalPrefix(digits) == digits;
    LeadingDigitsOfDigits(digits);
  }

  /** A string that starts with something other than whitespace is its own `SkipSpace`. */
  lemma SkipSpaceOfNonSpace(t: string)
    requires t != [] && !IsSpace(t[0])
    ensures ToI(t) == ReadSigned(t)
  {
  }

  /** `to_i` accepts the prefix: `"0d42"` reads as 42. */
  lemma ToIOfDecimalPrefix(digits: string)
    requires AllDigits(digits)
    ensures ToI("0d" + digits) == DigitsValue(digits)
  {
    DecimalPrefixRead(digits);
    var t := "0d" + digits;
    assert t[0] == '0';
    SkipSpaceOfNonSpace(t);
  }

  /** A minus sign negates what follows it. */
  lemma ToIOfNegative(u: string)
    ensures ToI("-" + u) == 0 - ReadUnsigned(u) as int
  {
    var t := "-" + u;
    assert t[0] == '-' && t[1..] == u;
    SkipSpaceOfNonSpace(t);
  }

  /** The prefix may follow the sign: `"-0D42"` reads as -42. */
  lemma ToIOfSignedDecimalPrefix(digits: string)
    requires AllDigits(digits)
    ensures ToI("-" + ("0D" + digits)) == 0 - DigitsValue(digits) as int
  {
    DecimalPrefixRead(digits);
    ToIOfNegative("0D" + digits);
  }

  /** Two integers with the same rendering are equal. */
  lemma IntToStringInjective(m: int, n: int)
    requires IntToString(m) == IntToString(n)
    ensures m == n
  {
    ToIOfIntToString(m);
    ToIOfIntToString(n);
  }
}
