/** The two integer renderings of Rust's `format!` that the program uses:
    `{}` (decimal) and `{:x}` (lower-case hexadecimal, no padding). */
module Formatting {

  const DIGITS: string := "0123456789abcdef"

  predicate IsDigitChar(c: char) {
    '0' <= c <= '9' || 'a' <= c <= 'f'
  }

  function Digit(d: nat): (c: char)
    requires d < 16
    ensures IsDigitChar(c)
  {
    DIGITS[d]
  }

  /** The value of a digit character; the inverse of `Digit`. */
  function DigitValue(c: char): nat {
    if '0' <= c <= '9' then (c as int - '0' as int) as nat
    else if 'a' <= c <= 'f' then (c as int - 'a' as int + 10) as nat
    else 0
  }

  lemma DigitRoundTrip(d: nat)
    requires d < 16
    ensures DigitValue(Digit(d)) == d
  {
  }

  /** `n` written in `base` (10 or 16) with the most significant digit first and no
      leading zeros. */
  function Radix(n: nat, base: nat): (s: string)
    requires base == 10 || base == 16
    ensures |s| > 0
    ensures forall i :: 0 <= i < |s| ==> DigitValue(s[i]) < base && IsDigitChar(s[i])
    ensures n != 0 ==> s[0] != '0'
  {
    if n < base then
      DigitRoundTrip(n);
      [Digit(n)]
    else
      DivideByBase(n, base);
      DigitRoundTrip(n % base);
      Radix(n / base, base) + [Digit(n % base)]
  }

  lemma DivideByBase(n: nat, base: nat)
    requires base == 10 || base == 16
    requires base <= n
    ensures 1 <= n / base < n
    ensures n % base < base
    ensures n == n / base * base + n % base
  {
    if base == 10 {
      assert 1 <= n / 10 < n;
    } else {
      assert 1 <= n / 16 < n;
    }
  }

  /** The number a digit string denotes in `base`. */
  function ValueOf(s: string, base: nat): nat {
    if s == [] then 0 else ValueOf(s[..|s| - 1], base) * base + DigitValue(s[|s| - 1])
  }

  /** Rendering can be read back: no information is lost. */
  lemma {:induction false} RadixRoundTrip(n: nat, base: nat)
    requires base == 10 || base == 16
    ensures ValueOf(Radix(n, base), base) == n
  {
    var s := Radix(n, base);
    if n < base {
      DigitRoundTrip(n);
      assert s[..0] == [];
    } else {
      DivideByBase(n, base);
      RadixRoundTrip(n / base, base);
      DigitRoundTrip(n % base);
      assert s[..|s| - 1] == Radix(n / base, base);
    }
  }

  /** `format!("{}", n)` */
  function Decimal(n: nat): string {
    Radix(n, 10)
  }

  /** `format!("{:x}", n)` */
  function LowerHex(n: nat): string {
    Radix(n, 16)
  }
}
