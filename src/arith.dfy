/** Integer helpers shared by the models: powers, and JavaScript's
    `Math.round`, `Math.ceil` of a quotient and integer division. */
module Arith {

  /** 2 to the `n`. */
  function Pow2(n: nat): (p: nat)
    ensures p >= 1
  {
    if n == 0 then 1 else 2 * Pow2(n - 1)
  }

  /** `Math.ceil(a / b)` for a non-negative `a` and a positive `b`. */
  function CeilDiv(a: nat, b: nat): (q: nat)
    requires b > 0
    ensures q * b >= a && (q == 0 || (q - 1) * b < a)
  {
    (a + b - 1) / b
  }

  /** Powers of two grow with the exponent. */
  lemma {:induction false} Pow2Monotone(j: nat, k: nat)
    requires j <= k
    ensures Pow2(j) <= Pow2(k)
    decreases k
  {
    if j < k {
      Pow2Monotone(j, k - 1);
    }
  }

  /** Multiplying by a non-negative factor keeps the order. */
  lemma MulMonotone(a: nat, x: nat, y: nat)
    requires x <= y
    ensures a * x <= a * y
  {
  }

  /** The same for any integer factors. */
  lemma MulMonotoneInt(a: nat, x: int, y: int)
    requires x <= y
    ensures a * x <= a * y
  {
  }

  /** `(i + 1) · c = i · c + c`, and the sign of `i · c` follows `i`. */
  lemma MulSucc(i: int, c: nat)
    ensures (i + 1) * c == i * c + c
    ensures i >= 0 ==> i * c >= 0
    ensures i < 0 ==> i * c <= 0 - c as int
  {
    if i < 0 {
      var j: nat := -i;
      MulMonotone(c, 1, j);
      assert i * c == -(c * j);
    } else {
      MulMonotone(c, 0, i);
    }
  }

  /** `Math.round(n / d)`: the nearest integer, halves rounded up. */
  function RoundDiv(n: int, d: nat): (r: int)
    requires d > 0
    ensures 2 * d * r <= 2 * n + d < 2 * d * (r + 1)
  {
    var q := (2 * n + d) / (2 * d);
    assert 2 * n + d == 2 * d * q + (2 * n + d) % (2 * d);
    q
  }

  /** Rounding an exact quotient gives the quotient. */
  lemma RoundDivExact(k: int, d: nat)
    requires d > 0
    ensures RoundDiv(k * d, d) == k
  {
    var r := RoundDiv(k * d, d);
    if r > k {
      MulMonotoneInt(2 * d, k + 1, r);
    } else if r < k {
      MulMonotoneInt(2 * d, r + 1, k);
    }
  }

  /** A quotient between 0 and `m` rounds to a value between 0 and `m`. */
  lemma RoundDivBounds(n: int, d: nat, m: int)
    requires d > 0 && 0 <= n <= m * d
    ensures 0 <= RoundDiv(n, d) <= m
  {
    var r := RoundDiv(n, d);
    if r > m {
      MulMonotoneInt(2 * d, m + 1, r);
    } else if r < 0 {
      MulMonotoneInt(2 * d, r + 1, 0);
    }
  }

  /** `Math.round(x)` on an exact real: the nearest integer, halves
      rounded up. */
  function RoundReal(x: real): (r: int)
    ensures r as real - 0.5 <= x < r as real + 0.5
  {
    (x + 0.5).Floor
  }
}
