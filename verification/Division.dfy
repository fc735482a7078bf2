/** Quotients, and the rounded-up quotients in which page counts are stated. */
module Division {

  function CeilDiv(a: int, b: nat): int
    requires b > 0
  {
    (a + b - 1) / b
  }

  lemma ProductMonotone(x: int, y: int, b: nat)
    ensures x <= y ==> x * b <= y * b
  {
    if x <= y {
      assert y * b == x * b + (y - x) * b;
    }
  }

  lemma QuotientIs(a: int, b: nat, q: int, r: int)
    requires b > 0 && a == q * b + r && 0 <= r < b
    ensures a / b == q
  {
    ProductMonotone(q + 1, a / b, b);
    ProductMonotone(a / b + 1, q, b);
  }

  lemma CeilDivStep(a: int, b: nat)
    requires b > 0
    ensures CeilDiv(a + b, b) == CeilDiv(a, b) + 1
  {
    QuotientIs(a + b + b - 1, b, (a + b - 1) / b + 1, (a + b - 1) % b);
  }

  lemma CeilDivSmall(a: int, b: nat)
    requires b > 0 && a <= b
    ensures CeilDiv(a, b) <= 1
    ensures a >= 1 ==> CeilDiv(a, b) == 1
  {
    ProductMonotone(2, (a + b - 1) / b, b);
    if a >= 1 {
      QuotientIs(a + b - 1, b, 1, a - 1);
    }
  }
}
