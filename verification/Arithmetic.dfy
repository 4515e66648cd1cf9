/** Facts about integer division that the counting arguments need. */
module Arithmetic {

  lemma ProductAtLeast(k: int, size: int)
    requires 1 <= k && 0 < size
    ensures size <= k * size
  {
  }

  lemma SameQuotient(size: int, a: int, b: int, restA: int, restB: int)
    requires 0 <= restA < size && 0 <= restB < size
    requires a * size + restA == b * size + restB
    ensures a == b
  {
    if a < b {
      ProductAtLeast(b - a, size);
    } else if b < a {
      ProductAtLeast(a - b, size);
    }
  }

  lemma DivisionLaw(value: int, size: int)
    requires 0 < size
    ensures value == value / size * size + value % size
    ensures 0 <= value % size < size
  {
  }

  lemma QuotientIs(value: int, size: int, quotient: int, rest: int)
    requires 0 <= rest < size && value == quotient * size + rest
    ensures value / size == quotient
    ensures value % size == rest
  {
    DivisionLaw(value, size);
    SameQuotient(size, value / size, quotient, value % size, rest);
  }
}
