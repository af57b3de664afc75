/** Indices in chunks of equal size. */
module Chunks {

  /** The chunk an index lies in, index / chunk size, by repeated subtraction */
  function ChunkOf(i: nat, k: nat): nat
    requires 0 < k
    decreases i
  {
    if i < k then 0 else 1 + ChunkOf(i - k, k)
  }

  lemma MulGrows(x: nat, y: nat, k: nat)
    requires x <= y
    ensures x * k <= y * k
  {
  }

  lemma OneMoreChunk(c: nat, k: nat)
    ensures (c + 1) * k == c * k + k
  {
  }

  lemma {:induction false} ChunkIs(i: nat, c: nat, k: nat)
    requires 0 < k && c * k <= i < c * k + k
    ensures ChunkOf(i, k) == c
    decreases c
  {
    if c > 0 {
      OneMoreChunk(c - 1, k);
      ChunkIs(i - k, c - 1, k);
    }
  }

  lemma {:induction false} ChunkBounds(i: nat, k: nat)
    requires 0 < k
    ensures ChunkOf(i, k) * k <= i < ChunkOf(i, k) * k + k
    decreases i
  {
    if i >= k {
      ChunkBounds(i - k, k);
      OneMoreChunk(ChunkOf(i - k, k), k);
    }
  }

  lemma ChunkBelow(i: nat, p: nat, k: nat)
    requires 0 < k && i < p * k
    ensures ChunkOf(i, k) < p
  {
    ChunkBounds(i, k);
    if ChunkOf(i, k) >= p { MulGrows(p, ChunkOf(i, k), k); }
  }

  /** It is the quotient. */
  lemma ChunkIsQuotient(i: nat, k: nat)
    requires 0 < k
    ensures ChunkOf(i, k) == i / k
  {
    Quotient(i, k, i / k, i % k);
    ChunkIs(i, i / k, k);
  }

  lemma Quotient(i: nat, k: nat, q: int, r: int)
    requires 0 < k && q == i / k && r == i % k
    ensures 0 <= q && q * k <= i < q * k + k
  {
  }
}
