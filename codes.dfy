/** `create_verification_code`: `str(random.randint(100000, 999999))`, a
    six-digit decimal string. The random draw is a nondeterministic choice. */
module VerificationCodes {

  function Pow10(k: nat): (p: nat)
    ensures p >= 1
  {
    if k == 0 then 1 else 10 * Pow10(k - 1)
  }

  predicate IsDigit(c: char)
  {
    '0' <= c <= '9'
  }

  predicate AllDigits(s: string)
  {
    forall k | 0 <= k < |s| :: IsDigit(s[k])
  }

  function DigitChar(d: nat): (c: char)
    requires d < 10
    ensures IsDigit(c)
  {
    (48 + d) as char
  }

  function DigitValue(c: char): (d: nat)
    requires IsDigit(c)
    ensures d < 10
  {
    c as int - 48
  }

  /** Python's `str(n)` for a non-negative int: its decimal digits, most
      significant first. */
  function Decimal(n: nat): (s: string)
    ensures |s| > 0 && AllDigits(s)
  {
    if n < 10 then [DigitChar(n)] else Decimal(n / 10) + [DigitChar(n % 10)]
  }

  /** The value of a string of decimal digits (the inverse of Decimal). */
  function ParseDecimal(s: string): nat
    requires AllDigits(s)
  {
    if s == [] then 0 else 10 * ParseDecimal(s[..|s| - 1]) + DigitValue(s[|s| - 1])
  }

  /** A verification code as create_verification_code makes them: six digits,
      the first not zero. */
  predicate IsVerificationCode(s: string)
  {
    |s| == 6 && AllDigits(s) && s[0] != '0'
  }

  lemma {:induction false} ParseOfDecimal(n: nat)
    ensures ParseDecimal(Decimal(n)) == n
  {
    if n >= 10 {
      var s := Decimal(n);
      assert s[..|s| - 1] == Decimal(n / 10);
      ParseOfDecimal(n / 10);
    }
  }

  /** A number with k + 1 digits is written with k + 1 characters, without a
      leading zero. */
  lemma {:induction false} DecimalLength(n: nat, k: nat)
    requires Pow10(k) <= n < 10 * Pow10(k)
    ensures |Decimal(n)| == k + 1 && Decimal(n)[0] != '0'
  {
    if k > 0 {
      DecimalLength(n / 10, k - 1);
    }
  }

  /** Every number randint(100000, 999999) can draw is written as a
      verification code, and the code reads back as that number. */
  lemma SixDigitCodes(n: nat)
    requires 100000 <= n <= 999999
    ensures IsVerificationCode(Decimal(n)) && ParseDecimal(Decimal(n)) == n
  {
    assert Pow10(5) == 100000;
    DecimalLength(n, 5);
    ParseOfDecimal(n);
  }

  /** create_verification_code. */
  method CreateVerificationCode() returns (code: string)
    ensures IsVerificationCode(code)
    ensures 100000 <= ParseDecimal(code) <= 999999
  {
    var n: nat :| 100000 <= n <= 999999;
    SixDigitCodes(n);
    code := Decimal(n);
  }
}
