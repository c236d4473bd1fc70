/**
 * The JavaScript value semantics the screens rely on: optional values and
 * `??`, truthiness of an optional string, values thrown by awaited platform
 * calls, `Number.prototype.toString` on non-negative integers, and
 * `String.prototype.padStart`.
 */
module Js {

  /** `T | undefined` (or `T | null`). */
  datatype Option<+T> = None | Some(value: T) {
    /** `x ?? fallback`: only an absent value is replaced; `''` or `false` is kept. */
    function OrElse(fallback: T): T {
      if Some? then value else fallback
    }
  }

  /** JavaScript truthiness of a `string | undefined`: present and non-empty. */
  predicate Truthy(s: Option<string>) {
    s.Some? && s.value != ""
  }

  /** A thrown value, as a `catch` clause sees it: an `Error` carries a message. */
  datatype Thrown = ErrorObject(message: string) | OtherValue

  /** The settlement of one awaited call: it resolves with a value or it throws. */
  datatype Outcome<+T> = Returns(value: T) | Throws(error: Thrown)

  predicate IsDigit(c: char) {
    '0' <= c <= '9'
  }

  predicate IsDigits(s: string) {
    forall i :: 0 <= i < |s| ==> IsDigit(s[i])
  }

  function DigitChar(d: nat): (c: char)
    requires d < 10
    ensures IsDigit(c)
  {
    ('0' as int + d) as char
  }

  function DigitValue(c: char): nat
    requires IsDigit(c)
  {
    c as int - '0' as int
  }

  function Pow10(k: nat): (p: nat)
    ensures p >= 1
  {
    if k == 0 then 1 else 10 * Pow10(k - 1)
  }

  /**
   * `n.toString()` for a non-negative integer: its decimal digits, most
   * significant first, with no leading zero.
   */
  function Decimal(n: nat): (s: string)
    ensures |s| >= 1 && IsDigits(s)
    ensures s[0] == '0' <==> n == 0
    ensures |s| == 1 <==> n < 10
    ensures n < 100 ==> |s| <= 2
  {
    if n < 10 then [DigitChar(n)] else Decimal(n / 10) + [DigitChar(n % 10)]
  }

  /** The number a string of decimal digits denotes (leading zeros allowed). */
  function ParseDecimal(s: string): nat
    requires IsDigits(s)
  {
    if s == [] then 0 else ParseDecimal(s[..|s| - 1]) * 10 + DigitValue(s[|s| - 1])
  }

  /** Reading back the decimal text of a number gives the number. */
  lemma {:induction false} ParseDecimalOfDecimal(n: nat)
    ensures ParseDecimal(Decimal(n)) == n
  {
    if n >= 10 {
      var s := Decimal(n);
      assert s[..|s| - 1] == Decimal(n / 10);
      ParseDecimalOfDecimal(n / 10);
    }
  }

  /** Distinct numbers have distinct decimal texts. */
  lemma DecimalInjective(m: nat, n: nat)
    requires Decimal(m) == Decimal(n)
    ensures m == n
  {
    ParseDecimalOfDecimal(m);
    ParseDecimalOfDecimal(n);
  }

  /** A number in [10^k, 10^(k+1)) has k + 1 decimal digits. */
  lemma {:induction false} DecimalLength(n: nat, k: nat)
    requires Pow10(k) <= n < Pow10(k + 1)
    ensures |Decimal(n)| == k + 1
  {
    if k > 0 {
      DecimalLength(n / 10, k - 1);
    }
  }

  /** A string made only of the digit zero. */
  predicate AllZeros(z: string) {
    forall i :: 0 <= i < |z| ==> z[i] == '0'
  }

  lemma {:induction false} ParseZeros(z: string)
    requires AllZeros(z)
    ensures IsDigits(z) && ParseDecimal(z) == 0
  {
    if z != [] {
      ParseZeros(z[..|z| - 1]);
    }
  }

  /** Leading zeros do not change the value a digit string denotes. */
  lemma {:induction false} ParseLeadingZeros(z: string, s: string)
    requires AllZeros(z) && IsDigits(s)
    ensures IsDigits(z + s) && ParseDecimal(z + s) == ParseDecimal(s)
  {
    if s == [] {
      assert z + s == z;
      ParseZeros(z);
    } else {
      var t := z + s;
      assert t[..|t| - 1] == z + s[..|s| - 1];
      ParseLeadingZeros(z, s[..|s| - 1]);
    }
  }

  /**
   * `s.padStart(width, fill)` with a one-character fill: `s` itself when it
   * is already `width` long or longer (nothing is cut), otherwise `s`
   * preceded by enough copies of `fill` to reach `width`.
   */
  function PadStart(s: string, width: nat, fill: char): (r: string)
    ensures |r| == if |s| >= width then |s| else width
    ensures r[|r| - |s|..] == s
    ensures forall i :: 0 <= i < |r| - |s| ==> r[i] == fill
  {
    if |s| >= width then s else seq(width - |s|, _ => fill) + s
  }

  /** Zero-padding a number's decimal text keeps its value. */
  lemma ParsePadded(n: nat, width: nat)
    ensures IsDigits(PadStart(Decimal(n), width, '0'))
    ensures ParseDecimal(PadStart(Decimal(n), width, '0')) == n
  {
    var d := Decimal(n);
    var r := PadStart(d, width, '0');
    var z := r[..|r| - |d|];
    assert AllZeros(z);
    assert r == z + d;
    ParseLeadingZeros(z, d);
    ParseDecimalOfDecimal(n);
  }

  predicate StartsWith<T(==)>(s: seq<T>, prefix: seq<T>) {
    |prefix| <= |s| && s[..|prefix|] == prefix
  }

  predicate EndsWith<T(==)>(s: seq<T>, suffix: seq<T>) {
    |suffix| <= |s| && s[|s| - |suffix|..] == suffix
  }
}
