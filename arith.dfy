/** Machine-integer facts the C, C++ and Rust samples rely on. */
module Arith {

  predicate IsPow2(n: nat)
    decreases n
  {
    if n <= 1 then n == 1 else n % 2 == 0 && IsPow2(n / 2)
  }

  lemma Pow2Double(n: nat)
    ensures IsPow2(n) ==> IsPow2(2 * n)
  {
    assert (2 * n) / 2 == n;
  }

  /**
   * `x & ~(a - 1)` for a power of two `a`: `x` with its low log2(a) bits
   * cleared, which is the largest multiple of `a` not above `x`.
   */
  function ClearLowBits(x: nat, a: nat): (r: nat)
    requires IsPow2(a)
    ensures r % a == 0
    ensures r <= x < r + a
    decreases a
  {
    if a == 1 then x
    else
      var h := ClearLowBits(x / 2, a / 2);
      MultipleDoubled(h, a / 2);
      2 * h
  }

  lemma MultipleDoubled(h: nat, b: nat)
    requires b > 0 && h % b == 0
    ensures (2 * h) % (2 * b) == 0
  {
    var k := h / b;
    assert h == b * k;
    DivUnique(2 * h, 2 * b, k, 0);
  }

  lemma MulMonotone(d: int, x: int, y: int)
    requires d >= 0 && x <= y
    ensures d * x <= d * y
  {
  }

  lemma DivUnique(n: int, d: int, q: int, r: int)
    requires d > 0 && 0 <= r < d && n == d * q + r
    ensures n / d == q && n % d == r
  {
    var k := n / d - q;
    assert d * k == r - n % d;
    if k >= 1 {
      MulMonotone(d, 1, k);
    } else if k <= -1 {
      MulMonotone(d, 1, -k);
    }
  }

  /** Two multiples of `a` less than `a` apart are equal. */
  lemma MultiplesApart(m: nat, r: nat, a: nat)
    requires a > 0 && m % a == 0 && r % a == 0 && m < r
    ensures m + a <= r
  {
    var k := r / a - m / a;
    assert a * k == r - m;
    if k <= 0 {
      if k < 0 {
        MulMonotone(a, 1, -k);
      }
      assert false;
    }
    MulMonotone(a, 1, k);
  }

  /** The values of `size_t` on a 64-bit target are the naturals below `SIZE_MOD`. */
  const SIZE_MOD: nat := 0x1_0000_0000_0000_0000
  const SIZE_MAX: nat := SIZE_MOD - 1

  /** A `size_t` value. */
  type SizeT = x: nat | x < SIZE_MOD

  /** Unsigned `x + y` on `size_t`: the sum modulo 2^64. */
  function SizeAdd(x: nat, y: nat): (r: nat)
    ensures r < SIZE_MOD
    ensures x + y < SIZE_MOD ==> r == x + y
    ensures SIZE_MOD <= x + y < 2 * SIZE_MOD ==> r == x + y - SIZE_MOD
  {
    if x + y < SIZE_MOD then
      DivUnique(x + y, SIZE_MOD, 0, x + y);
      (x + y) % SIZE_MOD
    else if x + y < 2 * SIZE_MOD then
      DivUnique(x + y, SIZE_MOD, 1, x + y - SIZE_MOD);
      (x + y) % SIZE_MOD
    else
      (x + y) % SIZE_MOD
  }

  /** Unsigned `x--` on `size_t`: zero wraps around to `SIZE_MAX`. */
  function SizeDec(x: nat): (r: nat)
    requires x < SIZE_MOD
    ensures r < SIZE_MOD
    ensures x > 0 ==> r == x - 1
    ensures x == 0 ==> r == SIZE_MAX
  {
    if x > 0 then
      DivUnique(x - 1, SIZE_MOD, 0, x - 1);
      (x - 1) % SIZE_MOD
    else
      DivUnique(-1, SIZE_MOD, -1, SIZE_MAX);
      (x - 1) % SIZE_MOD
  }

  const I32_MIN: int := -0x8000_0000
  const I32_MAX: int := 0x7fff_ffff

  predicate InI32(x: int) {
    I32_MIN <= x <= I32_MAX
  }

  function Abs(x: int): nat {
    if x < 0 then -x else x
  }

  /**
   * Integer division rounding toward zero, as `/` does on `i32` in Rust and on
   * `int` in C: the remainder `a - b * q` is smaller than `b` in magnitude and
   * never has the opposite sign of `a`.
   */
  function TruncDiv(a: int, b: int): (q: int)
    requires b != 0
    ensures Abs(a - b * q) < Abs(b)
    ensures a - b * q == 0 || (a - b * q > 0) == (a > 0)
    ensures Abs(q) * Abs(b) <= Abs(a)
  {
    var q := if (a >= 0) == (b > 0) then Abs(a) / Abs(b) else -(Abs(a) / Abs(b));
    TruncDivRemainder(a, b, q);
    q
  }

  lemma TruncDivRemainder(a: int, b: int, q: int)
    requires b != 0
    requires q == if (a >= 0) == (b > 0) then Abs(a) / Abs(b) else -(Abs(a) / Abs(b))
    ensures a - b * q == if a >= 0 then Abs(a) % Abs(b) else -(Abs(a) % Abs(b))
    ensures Abs(q) * Abs(b) <= Abs(a)
  {
    var n: int, d: int := Abs(a), Abs(b);
    var q0, r0 := n / d, n % d;
    assert n == d * q0 + r0 && 0 <= q0;
    MulSigns(d, q0);
    var p := b * q;
    if (a >= 0) == (b > 0) {
      assert q == q0;
      if b > 0 { assert p == d * q0; } else { assert p == (-d) * q0; }
    } else {
      assert q == -q0;
      if b > 0 { assert p == d * (-q0); } else { assert p == (-d) * (-q0); }
    }
    assert Abs(q) * Abs(b) == q0 * d;
  }

  lemma MulSigns(x: int, y: int)
    ensures (-x) * y == -(x * y) && x * (-y) == -(x * y) && (-x) * (-y) == x * y && y * x == x * y
  {
  }

  /** The truncating quotient of two `i32` values fits `i32`, except `i32::MIN / -1`. */
  lemma TruncDivInI32(a: int, b: int)
    requires InI32(a) && InI32(b) && b != 0
    requires !(a == I32_MIN && b == -1)
    ensures InI32(TruncDiv(a, b))
  {
    var q := TruncDiv(a, b);
    MulMonotone(Abs(q), 1, Abs(b));
    if q == -I32_MIN && Abs(b) >= 2 {
      MulMonotone(Abs(q), 2, Abs(b));
    }
  }

  /** Rounding toward zero and Dafny's Euclidean `/` part ways on negative dividends. */
  lemma TruncDivDiffersFromEuclidean()
    ensures TruncDiv(-7, 2) == -3 && -7 / 2 == -4
  {
  }

  /** On non-negative operands the two divisions agree. */
  lemma TruncDivNonNegative(a: int, b: int)
    requires a >= 0 && b > 0
    ensures TruncDiv(a, b) == a / b
  {
  }
}
