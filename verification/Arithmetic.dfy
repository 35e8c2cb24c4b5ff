/** Facts about products and quotients that the solver does not find by itself. */
module Arithmetic {

  lemma MulStep(a: nat, t: nat)
    ensures (a + 1) * t == a * t + t
  {
  }

  lemma {:induction false} Scale(a: nat, b: nat, t: nat)
    ensures a < b ==> a * t + t <= b * t
    ensures a <= b ==> a * t <= b * t && t * a <= t * b
    decreases b
  {
    if a < b {
      Scale(a, b - 1, t);
      MulStep(b - 1, t);
    }
  }

  lemma Cancel(a: nat, b: nat, t: nat)
    requires t >= 1 && a * t == b * t
    ensures a == b
  {
    Scale(a, b, t);
    Scale(b, a, t);
  }

  /** Quotient and remainder are what the division says they are, and nothing else. */
  lemma DivUnique(n: nat, t: nat, q: nat, m: nat)
    requires t > 0 && m < t && n == q * t + m
    ensures n / t == q && n % t == m
  {
    assert n == (n / t) * t + n % t;
    Scale(n / t, q, t);
    Scale(q, n / t, t);
  }

  lemma ScaleUp(a: nat, b: nat)
    requires a > 0
    ensures a * b >= b
  {
    Scale(1, a, b);
  }
}
