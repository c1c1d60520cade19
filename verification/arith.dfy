/** Facts about integer division that the flag and digit proofs share. */
module Arith {

  /** A product of a positive factor and a factor of at least one is at least the first factor. */
  lemma MulAtLeast(k: int, d: int)
    requires k >= 1 && d > 0
    ensures k * d >= d
  {
    if k > 1 {
      MulAtLeast(k - 1, d);
      assert k * d == (k - 1) * d + d;
    }
  }

  /** Division is determined by a quotient and a remainder in range. */
  lemma DivMod(x: int, d: int, q: int, r: int)
    requires d > 0 && x == q * d + r && 0 <= r < d
    ensures x / d == q && x % d == r
  {
    var q0 := x / d;
    assert (q - q0) * d == x % d - r;
    if q > q0 {
      MulAtLeast(q - q0, d);
    } else if q < q0 {
      MulAtLeast(q0 - q, d);
    }
  }

  /** Multiplying by a non-negative factor keeps an order. */
  lemma MulMono(a: int, b: int, k: int)
    requires a <= b && k >= 0
    ensures a * k <= b * k
  {
    if a < b {
      MulAtLeast(b - a, k + 1);
      assert (b - a) * (k + 1) == (b - a) * k + (b - a);
    }
  }
}
