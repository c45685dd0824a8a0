/** Two facts about multiples that the solver does not find by itself. */
module Arithmetic {
  lemma Apart(j: nat, k: nat, size: nat)
    requires j < k
    ensures j * size + size <= k * size
  {
    assert k * size == (j + 1) * size + (k - j - 1) * size;
  }

  /** Quotient and remainder are determined by what they mean. */
  lemma Remainder(x: nat, n: nat, q: nat, r: nat)
    requires x == n * q + r && r < n
    ensures x % n == r && x / n == q
  {
    var d := x / n;
    assert x == n * d + x % n;
    if d < q { Apart(d, q, n); } else if q < d { Apart(q, d, n); }
  }

  /** Adding less than n moves a residue on, around the end at most once. */
  lemma AddMod(i: nat, k: nat, n: nat)
    requires k < n
    ensures (i + k) % n == if i % n + k < n then i % n + k else i % n + k - n
  {
    var q, r := i / n, i % n;
    assert i == n * q + r;
    if r + k < n {
      Remainder(i + k, n, q, r + k);
    } else {
      assert n * (q + 1) == n * q + n;
      Remainder(i + k, n, q + 1, r + k - n);
    }
  }

  /** Indices less than n apart fall into different slots. */
  lemma DistinctMod(i: nat, j: nat, n: nat)
    requires i < j < i + n
    ensures i % n != j % n
  {
    AddMod(i, j - i, n);
  }
}
