/** Products, as steps that the verifier does not always take on its own. */
module Arithmetic {
  lemma Commute(a: int, b: int)
    ensures a * b == b * a
  {
  }

  lemma NonNegativeProduct(a: nat, b: nat)
    ensures a * b >= 0
  {
  }

  lemma PositiveProduct(a: int, b: int)
    requires a > 0 && b > 0
    ensures a * b > 0
  {
  }

  lemma AtLeast(d: nat, size: nat)
    requires d > 0
    ensures d * size >= size
  {
    assert d * size == size + (d - 1) * size;
  }
}
