/**
 * The few JavaScript number operations the tile arithmetic depends on, on
 * integral and real operands: the 32-bit wrap of the shift operators, the
 * remainder operator `%` (whose sign follows the dividend, unlike Dafny's
 * Euclidean `%`), `Math.floor`, `Math.ceil` and `Number.isInteger`.
 */
module JsMath {

  const TwoTo31: int := 0x8000_0000
  const TwoTo32: int := 0x1_0000_0000

  function Pow2(n: nat): int
  {
    if n == 0 then 1 else 2 * Pow2(n - 1)
  }

  lemma {:induction false} Pow2Monotone(m: nat, n: nat)
    requires m <= n
    ensures 1 <= Pow2(m) <= Pow2(n)
  {
    if m < n {
      Pow2Monotone(m, n - 1);
    } else if m > 0 {
      Pow2Monotone(m - 1, n - 1);
    }
  }

  lemma {:induction false} Pow2Add(m: nat, n: nat)
    ensures Pow2(m + n) == Pow2(m) * Pow2(n)
  {
    if n > 0 {
      Pow2Add(m, n - 1);
      assert Pow2(m + n) == 2 * Pow2(m + n - 1);
    }
  }

  /** The two powers the 32-bit wrap of a shift turns on. */
  lemma Pow2Thirty()
    ensures Pow2(30) == 0x4000_0000 && Pow2(31) == TwoTo31
  {
    assert Pow2(10) == 1024;
    Pow2Add(10, 10);
    Pow2Add(20, 10);
    Pow2Add(30, 1);
    assert Pow2(1) == 2;
  }

  function Abs(a: int): (r: int)
    ensures r >= 0 && (r == a || r == -a)
  {
    if a < 0 then -a else a
  }

  /** ToInt32 on an integral number: the 32-bit two's-complement value congruent to `v` modulo 2^32. */
  function ToInt32(v: int): (r: int)
    ensures -TwoTo31 <= r < TwoTo31 && (v - r) % TwoTo32 == 0
    ensures -TwoTo31 <= v < TwoTo31 ==> r == v
  {
    var m := v % TwoTo32;
    if m >= TwoTo31 then m - TwoTo32 else m
  }

  /**
   * `a << b` on integral operands: the left operand is taken as a signed
   * 32-bit integer, only the low five bits of the shift count are used, and
   * the product is wrapped back into 32 bits.
   */
  function ShiftLeft(a: int, b: int): (r: int)
    ensures -TwoTo31 <= r < TwoTo31
    ensures -TwoTo31 <= ToInt32(a) * Pow2(b % 32) < TwoTo31 ==> r == ToInt32(a) * Pow2(b % 32)
  {
    ToInt32(ToInt32(a) * Pow2(b % 32))
  }

  /** Integer division rounded toward zero, the quotient JavaScript's `%` is defined by. */
  function TruncDiv(a: int, b: int): int
    requires b != 0
  {
    if a >= 0 then a / Abs(b) * Sign(b) else -((-a) / Abs(b)) * Sign(b)
  }

  function Sign(b: int): int {
    if b < 0 then -1 else 1
  }

  /** `a % b` on integral operands: truncated division, so the remainder takes the sign of `a`. */
  function Rem(a: int, b: int): (r: int)
    requires b != 0
    ensures a >= 0 ==> 0 <= r < Abs(b)
    ensures a < 0 ==> -Abs(b) < r <= 0
    ensures a == TruncDiv(a, b) * b + r
  {
    var n := Abs(b);
    if a >= 0 then
      assert a == a / n * n + a % n;
      assert a / n * Sign(b) * b == a / n * n;
      a % n
    else
      assert -a == (-a) / n * n + (-a) % n;
      assert -((-a) / n) * Sign(b) * b == -((-a) / n * n);
      -((-a) % n)
  }

  /** `Math.floor` on a finite number. */
  function Floor(x: real): (r: int)
    ensures r as real <= x < r as real + 1.0
  {
    x.Floor
  }

  /** `Math.ceil` on a finite number. */
  function Ceil(x: real): (r: int)
    ensures r as real - 1.0 < x <= r as real
  {
    -((-x).Floor)
  }

  /** `Number.isInteger` on a finite number. */
  predicate IsInteger(x: real) {
    x == x.Floor as real
  }
}
