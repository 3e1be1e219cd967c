/**
 * The JavaScript number operators the commands apply to integers. Shifts first convert
 * their operand to a signed 32-bit integer and use the shift count modulo 32; `%` keeps
 * the sign of the dividend.
 */
module JsInt {
  const TWO_31: int := 0x8000_0000
  const TWO_32: int := 0x1_0000_0000

  function Pow2(n: nat): (r: pos)
    ensures n > 0 ==> r % 2 == 0
  {
    if n == 0 then 1 else 2 * Pow2(n - 1)
  }

  type pos = x: int | x > 0 witness 1

  /** ToInt32: wrap an integer into [-2^31, 2^31). */
  function ToInt32(x: int): (r: int)
    ensures -TWO_31 <= r < TWO_31
    ensures (r - x) % TWO_32 == 0
  {
    var m := x % TWO_32;
    if m >= TWO_31 then m - TWO_32 else m
  }

  predicate IsInt32(x: int) {
    -TWO_31 <= x < TWO_31
  }

  lemma ToInt32Identity(x: int)
    requires IsInt32(x)
    ensures ToInt32(x) == x
  {
  }

  /** `x << n`. */
  function Shl(x: int, n: int): (r: int)
    ensures IsInt32(r)
  {
    ToInt32(ToInt32(x) * Pow2(n % 32))
  }

  /** `x >> n`: an arithmetic shift, which floors. */
  function Shr(x: int, n: int): (r: int)
    ensures IsInt32(r)
  {
    ToInt32(x) / Pow2(n % 32)
  }

  /** `a % b` for a non-zero divisor: the remainder takes the dividend's sign. */
  function Rem(a: int, b: int): (r: int)
    requires b != 0
    ensures -(Abs(b) as int) < r < Abs(b)
    ensures a >= 0 ==> r >= 0
    ensures a <= 0 ==> r <= 0
  {
    if a >= 0 then a % Abs(b) else -((-a) % Abs(b))
  }

  /** `Math.max` and `Math.min` on integers. */
  function Max(a: int, b: int): int {
    if a >= b then a else b
  }

  function Min(a: int, b: int): int {
    if a <= b then a else b
  }

  function Abs(x: int): (r: nat)
    ensures r == x || r == -x
  {
    if x < 0 then -x else x
  }

  /** Left-shifting a value that stays in range multiplies it by a power of two. */
  lemma ShlInRange(x: int, n: nat)
    requires n < 32 && IsInt32(x) && IsInt32(x * Pow2(n))
    ensures Shl(x, n) == x * Pow2(n)
  {
    assert n % 32 == n;
    ToInt32Identity(x);
    ToInt32Identity(x * Pow2(n));
  }

  /** Right-shifting a non-negative int32 by one halves it, rounding down. */
  lemma ShrOneHalves(x: int)
    requires 0 <= x < TWO_31
    ensures Shr(x, 1) == x / 2
  {
  }

  /** Stepping `(c + 1) % m` from a value inside (-m, m) adds one, except that m - 1 wraps to 0. */
  lemma RemStep(c: int, m: int)
    requires m > 0 && -m < c < m
    ensures Rem(c + 1, m) == if c + 1 == m then 0 else c + 1
  {
  }

  /** A positive multiple of a positive number is at least that number. */
  lemma {:induction false} MulAtLeast(d: pos, k: int)
    requires k >= 1
    ensures d * k >= d
    decreases k
  {
    if k > 1 {
      MulAtLeast(d, k - 1);
      assert d * k == d * (k - 1) + d;
    }
  }

  /** Division is determined by quotient and remainder. */
  lemma DivUnique(x: int, d: pos, q: int, r: int)
    requires x == d * q + r && 0 <= r < d
    ensures x / d == q
  {
    var q' := x / d;
    var r' := x % d;
    assert x == d * q' + r';
    assert d * (q - q') == r' - r by {
      assert d * (q - q') == d * q - d * q';
    }
    if q > q' {
      MulAtLeast(d, q - q');
    } else if q < q' {
      MulAtLeast(d, q' - q);
    }
  }

  /** Dividing twice in sequence is the same as dividing by the product. */
  lemma DivDiv(x: int, a: pos, b: pos)
    requires x >= 0
    ensures x / a / b == x / (a * b)
  {
    var q := x / a;
    var r := x % a;
    var q2 := q / b;
    var r2 := q % b;
    assert x == a * q + r;
    assert q == b * q2 + r2;
    assert a * q == (a * b) * q2 + a * r2 by {
      assert a * (b * q2 + r2) == a * (b * q2) + a * r2;
    }
    assert 0 <= a * r2 + r < a * b by {
      assert 0 <= a * r2;
      assert a * r2 + a == a * (r2 + 1);
      MulLe(a, r2 + 1, b);
    }
    DivUnique(x, a * b, q2, a * r2 + r);
  }

  lemma MulLe(a: pos, k: int, b: int)
    requires k <= b
    ensures a * k <= a * b
  {
    if k < b {
      MulAtLeast(a, b - k);
      assert a * (b - k) == a * b - a * k;
    }
  }
}
