/**
 Products, quotients and remainders by a divisor that is not a constant.
 */
module Arithmetic {

  lemma {:induction false} MulLe(b: nat, x: nat, y: nat)
    requires x < y
    ensures b * x + b <= b * y
    decreases y
  {
    assert b * y == b * (y - 1) + b;
    if x < y - 1 { MulLe(b, x, y - 1); }
  }

  lemma DivUnique(b: nat, q: nat, k: nat, r: nat, j: nat)
    requires k < b && j < b && b * q + k == b * r + j
    ensures q == r && k == j
  {
    if q < r { MulLe(b, q, r); }
    if r < q { MulLe(b, r, q); }
  }

  lemma DivMod(b: nat, q: nat, k: nat)
    requires k < b
    ensures (b * q + k) / b == q && (b * q + k) % b == k
  {
    var u := b * q + k;
    DivUnique(b, q, k, u / b, u % b);
  }

  lemma AddModulo(x: nat, y: nat, n: nat)
    requires n > 0
    ensures (x + y) % n == (x % n + y) % n
  {
    AddMultiple(n, x / n, x % n + y);
  }

  /** A multiple of n more does not change the remainder. */
  lemma AddMultiple(n: nat, q: nat, k: nat)
    requires n > 0
    ensures (n * q + k) % n == k % n
  {
    var r, b := k / n, k % n;
    DivMod(n, q + r, b);
    assert n * (q + r) + b == n * q + k by { Distribute(n, q, r); }
  }

  lemma Distribute(n: nat, q: nat, r: nat)
    ensures n * (q + r) == n * q + n * r
  {
  }
}
