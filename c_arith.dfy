/**
 * Integer arithmetic as C performs it on `int`: division truncates toward
 * zero and the remainder takes the sign of the dividend. Dafny's own `/` and
 * `%` are Euclidean, so every C division in the model goes through `CDiv`
 * and `CMod`. The 32-bit range is stated as a predicate; the model keeps
 * values inside it by preconditions instead of modelling wrap-around.
 */
module CArith {

  const INT32_MIN: int := -0x8000_0000
  const INT32_MAX: int := 0x7FFF_FFFF

  predicate IsInt32(x: int) {
    INT32_MIN <= x <= INT32_MAX
  }

  function Abs(x: int): (r: nat)
    ensures r == x || r == -x
  {
    if x < 0 then -x else x
  }

  /** `x` is zero, or has the same sign as `y`. */
  predicate SameSignOrZero(x: int, y: int) {
    x == 0 || (x > 0 && y > 0) || (x < 0 && y < 0)
  }

  /** C's `a / d`: the quotient truncated toward zero. */
  function CDiv(a: int, d: int): (q: int)
    requires d != 0
    ensures Abs(q) * Abs(d) <= Abs(a) < (Abs(q) + 1) * Abs(d)
    ensures q == 0 <==> Abs(a) < Abs(d)
    ensures q == 0 || ((q > 0) <==> ((a > 0) == (d > 0)))
    ensures Abs(q) <= Abs(a)
  {
    var m := Abs(a) / Abs(d);
    NatDivBounds(Abs(a), Abs(d));
    if (a < 0) == (d < 0) then m else -m
  }

  /** Euclidean division of naturals, the magnitude part of `CDiv`. */
  lemma NatDivBounds(n: nat, p: nat)
    requires p > 0
    ensures (n / p) * p <= n < (n / p + 1) * p
    ensures n / p == 0 <==> n < p
    ensures n / p <= n
  {
    var m, r := n / p, n % p;
    assert n == m * p + r && 0 <= r < p;
    MulStep(m, p);
    MulAtLeast(m, p);
  }

  lemma {:induction false} MulStep(m: nat, p: nat)
    ensures (m + 1) * p == m * p + p
  {
  }

  /** A product with a positive factor is at least the other factor. */
  lemma {:induction false} MulAtLeast(m: nat, p: nat)
    requires p > 0
    ensures m * p >= m
    ensures m > 0 ==> m * p >= p
  {
    if m > 0 {
      MulAtLeast(m - 1, p);
      MulStep(m - 1, p);
    }
  }

  /** C's `a % d`: what is left after truncating division, signed like `a`. */
  function CMod(a: int, d: int): (r: int)
    requires d != 0
    ensures CDiv(a, d) * d + r == a
    ensures Abs(r) < Abs(d)
    ensures SameSignOrZero(r, a)
    ensures Abs(r) <= Abs(a)
  {
    var m := Abs(a) % Abs(d);
    DivModAbs(a, d);
    if a < 0 then -m else m
  }

  /** The truncated quotient and remainder recombine to the dividend. */
  lemma DivModAbs(a: int, d: int)
    requires d != 0
    ensures CDiv(a, d) * d + (if a < 0 then -(Abs(a) % Abs(d)) else Abs(a) % Abs(d)) == a
  {
    var q, m := Abs(a) / Abs(d), Abs(a) % Abs(d);
    var p := q * Abs(d);
    assert p + m == Abs(a);
    MulNeg(q, Abs(d));
    if d < 0 {
      assert Abs(d) == -d;
      assert q * d == -p;
      assert (-q) * d == p;
    } else {
      assert q * d == p;
      assert (-q) * d == -p;
    }
  }

  /**
   * Truncating division is the only split of `u` into a multiple of `d` and
   * a part smaller than `d` that keeps the sign of `u`.
   */
  lemma CDivUnique(u: int, d: int, t: int, x: int)
    requires d != 0
    requires t * d + x == u
    requires Abs(x) < Abs(d)
    requires SameSignOrZero(x, u)
    ensures t == CDiv(u, d) && x == CMod(u, d)
  {
    var q, r := CDiv(u, d), CMod(u, d);
    var k := t - q;
    MulSub(t, q, d);
    assert k * d == r - x;
    assert Abs(r - x) < Abs(d);
    if k != 0 {
      AbsMul(k, d);
      MulAtLeast(Abs(k), Abs(d));
      assert false;
    }
  }

  lemma MulSub(a: int, b: int, c: int)
    ensures (a - b) * c == a * c - b * c
  {
  }

  /** A non-zero factor cancels from both sides of an equation. */
  lemma MulCancel(a: int, b: int, c: int)
    requires c != 0
    requires a * c == b * c
    ensures a == b
  {
    MulSub(a, b, c);
    if a != b {
      AbsMul(a - b, c);
      MulAtLeast(Abs(a - b), Abs(c));
    }
  }

  /** The magnitude of a product is the product of the magnitudes. */
  lemma AbsMul(a: int, b: int)
    ensures Abs(a * b) == Abs(a) * Abs(b)
  {
    MulNeg(a, b);
  }

  lemma MulNeg(x: int, y: int)
    ensures (-x) * y == -(x * y) && x * (-y) == -(x * y) && (-x) * (-y) == x * y
  {
  }
}
