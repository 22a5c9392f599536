/**
 * The parts of C#'s `int` that the window code relies on: 32-bit two's-complement
 * arithmetic in an unchecked context (results wrap modulo 2^32), `Math.Abs(int)`,
 * which throws for int.MinValue, and `int.ToString()` with '-' as the negative sign.
 */
module CSharpInt {

  const Modulus: int := 0x1_0000_0000
  const MinValue: int := -0x8000_0000
  const MaxValue: int := 0x7FFF_FFFF

  type Int32 = x: int | -0x8000_0000 <= x <= 0x7FFF_FFFF

  predicate InRange(x: int) {
    MinValue <= x <= MaxValue
  }

  /** The runtime exceptions the modelled code can raise. */
  datatype Exception = OverflowException | InvalidCastException | IOException

  /** The completion of an expression that may throw. */
  datatype Outcome<+T> = Ok(value: T) | Throws(error: Exception)

  /** Reduction of a mathematical integer to the Int32 that unchecked arithmetic yields. */
  function Wrap(x: int): (r: Int32)
    ensures InRange(x) ==> r == x
    ensures (x - r) % Modulus == 0
  {
    (x + 0x8000_0000) % 0x1_0000_0000 - 0x8000_0000
  }

  /** Unchecked `a + b` on int. */
  function Add(a: Int32, b: Int32): Int32 {
    Wrap(a + b)
  }

  /** Unchecked `a - b` on int. */
  function Sub(a: Int32, b: Int32): Int32 {
    Wrap(a - b)
  }

  /** `Math.Abs(int)`: throws OverflowException for int.MinValue, whose negation is not an int. */
  function Abs(x: Int32): (r: Outcome<Int32>)
    ensures r.Throws? <==> x == MinValue
    ensures r.Throws? ==> r.error == OverflowException
    ensures r.Ok? ==> r.value >= 0 && (r.value == x || r.value == -x)
  {
    if x == MinValue then Throws(OverflowException)
    else if x < 0 then Ok(-x)
    else Ok(x)
  }

  /** Absolute value of a mathematical integer. */
  function IntAbs(x: int): nat {
    if x < 0 then -x else x
  }

  /** Two integers that agree modulo 2^32 wrap to the same Int32. */
  lemma WrapCongruent(x: int, y: int)
    requires (x - y) % Modulus == 0
    ensures Wrap(x) == Wrap(y)
  {
    var k := (x - y) / Modulus;
    assert x == y + k * Modulus;
    var ry := (y + 0x8000_0000) % Modulus;
    var qy := (y + 0x8000_0000) / Modulus;
    assert x + 0x8000_0000 == (qy + k) * Modulus + ry;
    ModOfMultiplePlus(x + 0x8000_0000, qy + k, ry);
  }

  /** Uniqueness of Euclidean remainder by 2^32. */
  lemma ModOfMultiplePlus(a: int, q: int, r: int)
    requires 0 <= r < Modulus
    requires a == q * Modulus + r
    ensures a % Modulus == r
  {
    var q' := a / Modulus;
    var r' := a % Modulus;
    assert a == q' * Modulus + r';
    assert (q - q') * Modulus == r' - r;
  }

  /** Unchecked negation: wrapping -x is negating Wrap(x), except that int.MinValue negates to itself. */
  lemma WrapNegate(x: int)
    ensures Wrap(-x) == if Wrap(x) == MinValue then MinValue else -Wrap(x)
  {
    var w := Wrap(x);
    if w == MinValue {
      assert (-x - MinValue) == -(x - w) + Modulus;
      WrapCongruent(-x, MinValue);
    } else {
      assert -x - (-w) == -(x - w);
      WrapCongruent(-x, -w);
    }
  }

  /** Wrapping an intermediate result before adding more does not change the wrapped total. */
  lemma WrapThenAdd(x: int, y: int)
    ensures Wrap(Wrap(x) + y) == Wrap(x + y)
  {
    var k := (x - Wrap(x)) / Modulus;
    assert (Wrap(x) + y) - (x + y) == -k * Modulus;
    WrapCongruent(Wrap(x) + y, x + y);
  }

  /** Wrapping after every addition is the same as wrapping the exact sum once. */
  lemma WrapSum(a: int, b: int, c: int, d: int)
    ensures Wrap(Wrap(Wrap(a + b) + c) + d) == Wrap(a + b + c + d)
  {
    WrapThenAdd(a + b, c);
    WrapThenAdd(a + b + c, d);
  }

  /** Summing with a wrap after every step is the same as wrapping the exact sum once. */
  lemma AddWrapsExactSum(a: Int32, b: Int32, c: Int32, d: Int32)
    ensures Add(Add(Add(a, b), c), d) == Wrap(a + b + c + d)
  {
    WrapSum(a, b, c, d);
  }

  predicate IsDigit(c: char) {
    '0' <= c <= '9'
  }

  function DigitChar(d: int): (c: char)
    requires 0 <= d < 10
    ensures IsDigit(c)
  {
    "0123456789"[d]
  }

  function DigitValue(c: char): int {
    c as int - '0' as int
  }

  /** The decimal digits of n, most significant first, without leading zeros. */
  function Digits(n: nat): (s: string)
    ensures |s| >= 1
    ensures forall i :: 0 <= i < |s| ==> IsDigit(s[i])
    ensures s[0] == '0' ==> n == 0
    decreases n
  {
    if n < 10 then [DigitChar(n)] else Digits(n / 10) + [DigitChar(n % 10)]
  }

  /** `int.ToString()`: an optional '-' followed by the digits of the magnitude. */
  function ToDecimal(n: int): (s: string)
    ensures |s| >= 1
    ensures forall i :: 0 <= i < |s| ==> IsDigit(s[i]) || (i == 0 && s[i] == '-')
    ensures s[0] == '-' <==> n < 0
  {
    if n < 0 then "-" + Digits(-n) else Digits(n)
  }

  /** Reads back a string of digits. */
  function ParseDigits(s: string): int
    decreases |s|
  {
    if s == [] then 0 else ParseDigits(s[..|s| - 1]) * 10 + DigitValue(s[|s| - 1])
  }

  /** Reads back what ToDecimal writes. */
  function ParseDecimal(s: string): int {
    if |s| > 0 && s[0] == '-' then -ParseDigits(s[1..]) else ParseDigits(s)
  }

  lemma {:induction false} ParseDigitsInverts(n: nat)
    ensures ParseDigits(Digits(n)) == n
    decreases n
  {
    if n >= 10 {
      ParseDigitsInverts(n / 10);
      var s := Digits(n);
      assert s[..|s| - 1] == Digits(n / 10);
    }
  }

  /** int.ToString() loses nothing: the value can be read back from its decimal form. */
  lemma ParseDecimalInverts(n: int)
    ensures ParseDecimal(ToDecimal(n)) == n
  {
    if n < 0 {
      ParseDigitsInverts(-n);
      assert ToDecimal(n)[1..] == Digits(-n);
    } else {
      ParseDigitsInverts(n);
    }
  }

  lemma ToDecimalInjective(m: int, n: int)
    requires ToDecimal(m) == ToDecimal(n)
    ensures m == n
  {
    ParseDecimalInverts(m);
    ParseDecimalInverts(n);
  }
}
