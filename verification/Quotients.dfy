/** Division by what need not be a constant. */
module Quotients {

  lemma Grows(c: nat, a: int, b: int)
    requires a <= b
    ensures c * a <= c * b
  {}

  lemma DivideUnique(x: nat, d: nat, q: nat)
    requires d * q <= x < d * q + d
    ensures x / d == q && x % d == x - d * q
  {
    if x / d < q {
      Grows(d, x / d + 1, q);
    } else if x / d > q {
      Grows(d, q + 1, x / d);
    }
  }
}
