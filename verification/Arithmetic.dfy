/** Facts about products and quotients of variables, proved where nothing else is in scope. */
module Arithmetic {

  lemma Distribute(x: int, y: int, m: int)
    ensures (x - y) * m == x * m - y * m
  {
  }

  lemma ProductAtLeast(x: int, m: int)
    requires x >= 1 && m >= 1
    ensures x * m >= m
  {
  }

  lemma ProductMonotone(x: int, y: int, m: int)
    requires x <= y && 0 <= m
    ensures x * m <= y * m
  {
  }

  lemma DivMod(a: nat, m: nat)
    requires m > 0
    ensures a == a / m * m + a % m && 0 <= a % m < m
  {
  }

  lemma SameQuotient(m: int, q: int, r: int, q': int, r': int)
    requires 0 <= r < m && 0 <= r' < m && q * m + r == q' * m + r'
    ensures q == q' && r == r'
  {
    if q > q' {
      ProductAtLeast(q - q', m);
      Distribute(q, q', m);
    } else if q < q' {
      ProductAtLeast(q' - q, m);
      Distribute(q', q, m);
    }
  }

  lemma QuotientUnique(a: nat, m: nat, q: nat, r: nat)
    requires m > 0 && r < m && a == q * m + r
    ensures a / m == q && a % m == r
  {
    DivMod(a, m);
    SameQuotient(m, q, r, a / m, a % m);
  }
}
