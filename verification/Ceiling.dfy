/** Rounding up. */
module Ceiling {
  lemma MulMonotone(a: nat, b: nat, c: nat)
    requires a <= b
    ensures a * c <= b * c
  {
  }

  lemma CeilingBound(n: nat, period: nat, total: nat)
    requires period >= 1 && n >= 1 && (n - 1) * period < total
    ensures n <= (total + period - 1) / period
  {
    var c := (total + period - 1) / period;
    assert c * period + period > total + period - 1;
    if c <= n - 1 {
      MulMonotone(c, n - 1, period);
    }
  }
}
