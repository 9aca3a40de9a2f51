/** The few facts about products and quotients that the other modules need. */
module Arithmetic {

  function Times(m: nat, n: nat): nat { m * n }

  function Min(a: nat, b: nat): nat { if a < b then a else b }

  lemma MulMonotone(a: nat, b: nat, m: nat)
    requires a <= b
    ensures a * m <= b * m
  {
  }

  lemma MulStep(a: nat, m: nat)
    ensures (a + 1) * m == a * m + m
  {
  }

  lemma TimesNext(m: nat, n: nat)
    ensures Times(m + 1, n) == Times(m, n) + n
  {
  }

  /** Quotient and remainder are determined by the division equation. */
  lemma QuotientUnique(y: nat, m: nat, q: nat, r: nat)
    requires m > 0 && r < m && y == q * m + r
    ensures y / m == q && y % m == r
  {
    var k := y / m;
    assert y == k * m + y % m;
    if k < q {
      MulMonotone(k + 1, q, m);
      MulStep(k, m);
    } else if k > q {
      MulMonotone(q + 1, k, m);
      MulStep(q, m);
    }
  }

  lemma NextQuotient(x: nat, m: nat)
    requires m > 0
    ensures (x + m) / m == x / m + 1
  {
    var q, r := x / m, x % m;
    assert x == q * m + r;
    MulStep(q, m);
    QuotientUnique(x + m, m, q + 1, r);
  }

  lemma SmallQuotient(x: nat, m: nat)
    requires x < m
    ensures x / m == 0 && x % m == x
  {
  }

  lemma QuotientBelow(x: nat, m: nat, n: nat)
    requires m > 0
    ensures x / m < n <==> x < n * m
  {
    var q := x / m;
    assert x == q * m + x % m;
    if q < n {
      MulMonotone(q + 1, n, m);
      MulStep(q, m);
    } else {
      MulMonotone(n, q, m);
    }
  }

  lemma QuotientMonotone(a: nat, b: nat, m: nat)
    requires a <= b && m > 0
    ensures a / m <= b / m
  {
    QuotientBelow(a, m, b / m + 1);
    QuotientBelow(b, m, b / m + 1);
  }

  lemma QuotientOfQuotient(n: nat, a: nat, b: nat)
    requires a > 0 && b > 0
    ensures a * b > 0 && n / a / b == n / (a * b)
  {
    var q, r, s := n / a / b, n / a % b, n % a;
    DivisionEquation(n, a);
    DivisionEquation(n / a, b);
    RemainderBelow(r, s, a, b);
    Expanded(q, r, s, a, b);
    QuotientUnique(n, a * b, q, r * a + s);
  }

  lemma DivisionEquation(n: nat, m: nat)
    requires m > 0
    ensures n == (n / m) * m + n % m && n % m < m
  {
  }

  lemma RemainderBelow(r: nat, s: nat, a: nat, b: nat)
    requires r < b && s < a
    ensures r * a + s < a * b
  {
    MulMonotone(r + 1, b, a);
    MulStep(r, a);
  }

  lemma Expanded(q: nat, r: nat, s: nat, a: nat, b: nat)
    ensures (q * b + r) * a + s == q * (a * b) + (r * a + s)
  {
  }

  /** How many blocks `n` things take. */
  function NumBlocks(n: nat, perBlock: nat): nat
    requires perBlock > 0
  {
    (n + perBlock - 1) / perBlock
  }

  lemma NumBlocksBounds(n: nat, m: nat)
    requires m > 0
    ensures n <= NumBlocks(n, m) * m < n + m
  {
    var q := (n + m - 1) / m;
    assert n + m - 1 == q * m + (n + m - 1) % m;
  }

  /** One more block for every `m` things more. */
  lemma NumBlocksStep(n: nat, m: nat)
    requires m > 0 && n > 0
    ensures NumBlocks(n, m) == 1 + NumBlocks(if n > m then n - m else 0, m)
  {
    SmallQuotient(m - 1, m);
    NextQuotient(n - 1, m);
    if n <= m { SmallQuotient(n - 1, m); }
  }
}
