/** Division and remainder for positive divisors, as the block arithmetic of the runtime uses them. */
module IntFacts {

  function Min(a: int, b: int): int {
    if a < b then a else b
  }

  function Max(a: int, b: int): int {
    if a < b then b else a
  }

  lemma ScaledBound(k: int, size: int)
    requires size > 0
    ensures k >= 1 ==> k * size >= size
    ensures k <= -1 ==> k * size <= -size
  {
  }

  /** Quotient and remainder are unique. */
  lemma DivModUnique(x: nat, q: nat, r: nat, size: nat)
    requires size > 0 && r < size && x == q * size + r
    ensures x / size == q && x % size == r
  {
    var q', r' := x / size, x % size;
    assert x == q' * size + r';
    assert (q - q') * size == r' - r;
    ScaledBound(q - q', size);
  }

  lemma MultipleDivides(q: nat, size: nat)
    requires size > 0
    ensures (q * size) / size == q && (q * size) % size == 0
  {
    DivModUnique(q * size, q, 0, size);
  }

  lemma PadFills(n: nat, size: nat)
    requires size > 0
    ensures (n + (size - n % size) % size) % size == 0
  {
    var q, r := n / size, n % size;
    assert n == q * size + r;
    if r == 0 {
      DivModUnique(size, 1, 0, size);
    } else {
      DivModUnique(size - r, 0, size - r, size);
      assert n + (size - r) == (q + 1) * size;
      MultipleDivides(q + 1, size);
    }
  }

  lemma MultiplesMonotone(p: int, q: int, size: int)
    requires size > 0 && p <= q
    ensures p * size <= q * size
  {
    assert (q - p) * size == q * size - p * size;
    ScaledBound(q - p, size);
  }

  lemma MultiplesOrdered(p: int, q: int, size: int)
    requires size > 0 && p * size < q * size
    ensures p < q && (p + 1) * size <= q * size
  {
    assert (q - p) * size == q * size - p * size;
    ScaledBound(q - p, size);
    ScaledBound(q - p - 1, size);
    assert (q - p - 1) * size == q * size - (p + 1) * size;
  }

  /** Below a multiple of size, a smaller multiple leaves room for a whole chunk. */
  lemma NextChunkFits(start: nat, total: nat, size: nat)
    requires size > 0 && start % size == 0 && total % size == 0 && start < total
    ensures start + size <= total && (start + size) % size == 0
  {
    var p, q := start / size, total / size;
    assert start == p * size && total == q * size;
    MultiplesOrdered(p, q, size);
    assert (p + 1) * size == start + size;
    MultipleDivides(p + 1, size);
  }

  lemma DividesThrough(e: nat, C: nat, B: nat)
    requires C > 0 && B > 0 && e % C == 0 && C % B == 0
    ensures e % B == 0
  {
    var m, n := e / C, C / B;
    assert e == m * C && C == n * B;
    assert e == (m * n) * B;
    MultipleDivides(m * n, B);
  }

  lemma MultiplesApart(e: int, s: int, C: nat)
    requires C > 0 && e % C == 0 && s % C == 0 && e < s
    ensures e + C <= s
  {
    var p, q := e / C, s / C;
    assert e == p * C && s == q * C;
    MultiplesOrdered(p, q, C);
    assert (p + 1) * C == p * C + C;
  }
}
