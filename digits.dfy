/**
 * Decimal rendering of natural numbers, as Python's `f"{n}"` and
 * `f"{n:02d}"` produce it, together with the reading back of a digit
 * string that serves as its inverse.
 */
module Digits {

  import opened Options

  predicate IsDigit(c: char) {
    '0' <= c <= '9'
  }

  predicate AllDigits(s: string) {
    forall i :: 0 <= i < |s| ==> IsDigit(s[i])
  }

  function DigitChar(d: nat): (c: char)
    requires d < 10
    ensures IsDigit(c) && c as int - '0' as int == d
  {
    ('0' as int + d) as char
  }

  function Pow10(k: nat): (p: nat)
    ensures p >= 1
  {
    if k == 0 then 1 else 10 * Pow10(k - 1)
  }

  /** `str(n)`: the decimal representation of `n`. */
  function Decimal(n: nat): (r: string)
    ensures 1 <= |r|
  {
    if n < 10 then [DigitChar(n)] else Decimal(n / 10) + [DigitChar(n % 10)]
  }

  /** The number a string of digits denotes, most significant digit first. */
  function Value(s: string): nat
    requires AllDigits(s)
  {
    if s == [] then 0 else Value(s[..|s| - 1]) * 10 + (s[|s| - 1] as int - '0' as int)
  }

  /** A digit string read back: `None` for the empty string or any non-digit. */
  function ParseNat(s: string): Option<nat> {
    if s != [] && AllDigits(s) then Some(Value(s)) else None
  }

  /** `f"{n:0{width}d}"`: the decimal digits of `n`, left-padded with zeros to at least `width` characters. */
  function ZeroPad(n: nat, width: nat): (r: string)
    ensures |r| == if |Decimal(n)| < width then width else |Decimal(n)|
    decreases width
  {
    if width <= |Decimal(n)| then Decimal(n) else "0" + ZeroPad(n, width - 1)
  }

  /** `str(n)` is all digits and, unless `n` is 0, has no leading zero. */
  lemma {:induction false} DecimalDigits(n: nat)
    ensures AllDigits(Decimal(n))
    ensures Decimal(n)[0] == '0' ==> n == 0
  {
    if n >= 10 {
      DecimalDigits(n / 10);
    }
  }

  /** A padded field is all digits. */
  lemma {:induction false} ZeroPadDigits(n: nat, width: nat)
    ensures AllDigits(ZeroPad(n, width))
    decreases width
  {
    if width <= |Decimal(n)| {
      DecimalDigits(n);
    } else {
      ZeroPadDigits(n, width - 1);
    }
  }

  lemma {:induction false} ValueOfDecimal(n: nat)
    ensures AllDigits(Decimal(n)) && Value(Decimal(n)) == n
  {
    DecimalDigits(n);
    if n >= 10 {
      var r := Decimal(n);
      assert r[..|r| - 1] == Decimal(n / 10);
      ValueOfDecimal(n / 10);
    }
  }

  /** A leading zero does not change the number a digit string denotes. */
  lemma {:induction false} ValueLeadingZero(s: string)
    requires AllDigits(s)
    ensures Value("0" + s) == Value(s)
  {
    if s != [] {
      assert ("0" + s)[..|s|] == "0" + s[..|s| - 1];
      ValueLeadingZero(s[..|s| - 1]);
    }
  }

  /** `str(n)` reads back to `n`. */
  lemma ParseDecimal(n: nat)
    ensures ParseNat(Decimal(n)) == Some(n)
  {
    ValueOfDecimal(n);
  }

  /** Zero padding never changes the number denoted: reading a padded field back gives `n`. */
  lemma {:induction false} ParseZeroPad(n: nat, width: nat)
    ensures ParseNat(ZeroPad(n, width)) == Some(n)
    decreases width
  {
    if width <= |Decimal(n)| {
      ParseDecimal(n);
    } else {
      ParseZeroPad(n, width - 1);
      ValueLeadingZero(ZeroPad(n, width - 1));
    }
  }

  /** A number below `10^k` takes at most `k` digits (for `k >= 1`). */
  lemma {:induction false} DecimalLength(n: nat, k: nat)
    requires 1 <= k && n < Pow10(k)
    ensures |Decimal(n)| <= k
  {
    if n >= 10 {
      assert k >= 2;
      DecimalLength(n / 10, k - 1);
    }
  }

  /** A field padded to `width` is exactly `width` characters long when the number fits. */
  lemma ZeroPadWidth(n: nat, width: nat)
    requires 1 <= width && n < Pow10(width)
    ensures |ZeroPad(n, width)| == width
  {
    DecimalLength(n, width);
  }

}
