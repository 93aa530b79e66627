/** Facts about products that the solver does not look for by itself. */
module Arithmetic {

  lemma Distribute(x: nat, p: nat)
    ensures (x + 1) * p == x * p + p
  {}

  lemma MulMonotone(a: nat, b: nat, m: nat)
    ensures a <= b ==> a * m <= b * m
  {}
}
