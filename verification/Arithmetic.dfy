/** Facts about products that several parts of the model need. */
module Arithmetic {
  lemma DivExact(a: nat, size: nat)
    requires size > 0
    ensures a * size / size == a
  {
    var q := a * size / size;
    assert q * size <= a * size < (q + 1) * size;
    if q < a { MulMonotone(q + 1, a, size); }
    if q > a { MulMonotone(a + 1, q, size); }
  }

  lemma MulMonotone(a: nat, b: nat, c: nat)
    ensures a <= b ==> a * c <= b * c
  {
  }
}
