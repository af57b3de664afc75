/** Words that carry the number of their own ones in their low bits. */
module CheckedWords {
  import opened Common
  import opened BitWords

  /** The four forms: check bits and value bits of 64, 32, 16 and 8-bit words */
  predicate Form(k: nat, p: nat) {
    (k == 6 && p == 58) || (k == 5 && p == 27) || (k == 4 && p == 12) || (k == 3 && p == 5)
  }

  /** compute_value_with_crc; the count fits in the check bits, so the source's `|` is a sum. */
  function Compute(k: nat, p: nat, v: nat): Option<nat> {
    if v < Pow2(p) then Some(Pow2(k) * v + Ones(v)) else None
  }

  /** check_value_with_crc */
  function Check(k: nat, w: nat): Option<nat> {
    var v := High(w, k);
    if Ones(v) == Low(w, k) then Some(v) else None
  }

  /** w >> k */
  function High(w: nat, k: nat): nat {
    if k == 0 then w else High(w / 2, k - 1)
  }

  /** w & (2^k - 1) */
  function Low(w: nat, k: nat): nat {
    if k == 0 then 0 else w % 2 + 2 * Low(w / 2, k - 1)
  }

  lemma {:induction false} PartsJoin(w: nat, k: nat)
    ensures w == Pow2(k) * High(w, k) + Low(w, k) && Low(w, k) < Pow2(k)
    decreases k
  {
    if k > 0 {
      PartsJoin(w / 2, k - 1);
      Twice(Pow2(k - 1), High(w, k));
    }
  }

  lemma {:induction false} PartsAre(w: nat, k: nat, hi: nat, lo: nat)
    requires w == Pow2(k) * hi + lo && lo < Pow2(k)
    ensures High(w, k) == hi && Low(w, k) == lo
    decreases k
  {
    if k > 0 {
      HalfOfParts(w, k, lo, hi);
      PartsAre(w / 2, k - 1, hi, lo / 2);
    }
  }

  lemma OnesFit(k: nat, p: nat, v: nat)
    requires Form(k, p) && v < Pow2(p)
    ensures Ones(v) <= p < Pow2(k) - 1
  {
    Powers();
    OnesBound(v, p);
  }

  lemma {:induction false} Pow2Sum(a: nat, b: nat)
    ensures Pow2(a + b) == Pow2(a) * Pow2(b)
    decreases a
  {
    if a > 0 { Pow2Sum(a - 1, b); }
  }

  lemma Scale(a: nat, x: nat, y: nat)
    requires x <= y
    ensures a * x <= a * y
  {
  }

  lemma JoinBound(k: nat, p: nat, v: nat, lo: nat)
    requires v < Pow2(p) && lo < Pow2(k)
    ensures Pow2(k) * v + lo < Pow2(k + p)
  {
    Pow2Sum(k, p);
    Scale(Pow2(k), v + 1, Pow2(p));
    Distribute(Pow2(k), v, 1);
  }

  lemma Distribute(a: nat, x: nat, y: nat)
    ensures a * (x + y) == a * x + a * y
  {
  }

  lemma HighBound(k: nat, p: nat, w: nat)
    requires w < Pow2(k + p)
    ensures High(w, k) < Pow2(p)
  {
    PartsJoin(w, k);
    Pow2Sum(k, p);
    if High(w, k) >= Pow2(p) {
      Scale(Pow2(k), Pow2(p), High(w, k));
    }
  }

  lemma Counted(k: nat, p: nat, v: nat)
    requires v < Pow2(p)
    ensures BitCountOf(v, k + p) == Ones(v)
  {
    Pow2Monotone(p, k + p);
    BitCountOfIsOnes(v, k + p);
  }

  /** What is put into the check bits is what bit_count finds in the value, as a word of the full width. */
  lemma CheckBitsCounted(k: nat, p: nat, v: nat)
    requires v < Pow2(p)
    ensures Compute(k, p, v) == Some(Pow2(k) * v + BitCountOf(v, k + p))
  {
    Counted(k, p, v);
    ComputeWith(k, p, v, BitCountOf(v, k + p));
  }

  /** What the check bits are compared with is what bit_count finds in the rest of the word. */
  lemma CheckedBitsCounted(k: nat, p: nat, w: nat)
    requires w < Pow2(k + p)
    ensures Check(k, w).Some? <==> BitCountOf(High(w, k), k + p) == Low(w, k)
  {
    HighBound(k, p, w);
    Counted(k, p, High(w, k));
    CheckWith(k, w, BitCountOf(High(w, k), k + p));
  }

  lemma ComputeWith(k: nat, p: nat, v: nat, n: nat)
    requires v < Pow2(p) && n == Ones(v)
    ensures Compute(k, p, v) == Some(Pow2(k) * v + n)
  {
  }

  lemma CheckWith(k: nat, w: nat, n: nat)
    requires n == Ones(High(w, k))
    ensures Check(k, w).Some? <==> n == Low(w, k)
  {
  }

  /** Checking undoes computing, and the word has k + p bits. */
  lemma CheckUndoesCompute(k: nat, p: nat, v: nat)
    requires Form(k, p) && v < Pow2(p)
    ensures Compute(k, p, v).Some? && Compute(k, p, v).value < Pow2(k + p)
    ensures Check(k, Compute(k, p, v).value) == Some(v)
  {
    OnesFit(k, p, v);
    PartsAre(Compute(k, p, v).value, k, v, Ones(v));
    JoinBound(k, p, v, Ones(v));
  }

  /** A value is refused exactly when it would not fit in the word together with its check bits. */
  lemma ComputeAccepts(k: nat, p: nat, v: nat)
    requires Form(k, p)
    ensures Compute(k, p, v).Some? <==> Pow2(k) * v + Ones(v) < Pow2(k + p)
  {
    if v < Pow2(p) {
      OnesFit(k, p, v);
      JoinBound(k, p, v, Ones(v));
    } else {
      Pow2Sum(k, p);
      Scale(Pow2(k), Pow2(p), v);
    }
  }

  /** Computing undoes checking: only computed words pass the check. */
  lemma OnlyComputedPass(k: nat, p: nat, w: nat)
    requires Form(k, p) && w < Pow2(k + p)
    ensures Check(k, w).Some? ==> Compute(k, p, Check(k, w).value) == Some(w)
  {
    PartsJoin(w, k);
    HighBound(k, p, w);
  }

  // ---- Single-bit changes

  function Flip(w: nat, i: nat): nat {
    if i == 0 then (if w % 2 == 0 then w + 1 else w - 1) else w % 2 + 2 * Flip(w / 2, i - 1)
  }

  /** A flip adds or takes the bit's weight. */
  lemma {:induction false} FlipWeight(w: nat, i: nat)
    ensures Flip(w, i) == w + Pow2(i) || Flip(w, i) + Pow2(i) == w
    decreases i
  {
    if i > 0 { FlipWeight(w / 2, i - 1); }
  }

  lemma {:induction false} FlipOnes(w: nat, i: nat)
    ensures Ones(Flip(w, i)) == Ones(w) + 1 || Ones(Flip(w, i)) + 1 == Ones(w)
    decreases i
  {
    OnesStep(w, w / 2, w % 2);
    if i == 0 {
      OnesStep(Flip(w, 0), w / 2, 1 - w % 2);
    } else {
      FlipOnes(w / 2, i - 1);
      OnesStep(Flip(w, i), Flip(w / 2, i - 1), w % 2);
    }
  }

  lemma FlipHalf(w: nat, i: nat)
    ensures if i == 0 then Flip(w, i) / 2 == w / 2 && Flip(w, i) % 2 != w % 2
            else Flip(w, i) / 2 == Flip(w / 2, i - 1) && Flip(w, i) % 2 == w % 2
  {
  }

  lemma {:induction false} FlipParts(w: nat, i: nat, k: nat)
    ensures i < k ==> High(Flip(w, i), k) == High(w, k) && Low(Flip(w, i), k) != Low(w, k)
    ensures i >= k ==> High(Flip(w, i), k) == Flip(High(w, k), i - k) && Low(Flip(w, i), k) == Low(w, k)
    decreases i
  {
    if k > 0 {
      FlipHalf(w, i);
      if i > 0 { FlipParts(w / 2, i - 1, k - 1); }
    }
  }

  /** Any change of a single bit of a checked word, which adds or takes that bit's weight, is detected. */
  lemma FlipIsDetected(k: nat, w: nat, i: nat)
    requires Check(k, w).Some?
    ensures Check(k, Flip(w, i)).None?
    ensures Flip(w, i) == w + Pow2(i) || Flip(w, i) + Pow2(i) == w
  {
    FlipWeight(w, i);
    FlipParts(w, i, k);
    if i >= k { FlipOnes(High(w, k), i - k); }
  }

  /** A checked word is never all ones, so a container's size cannot be taken for the null marker. */
  lemma NeverAllOnes(k: nat, p: nat, v: nat)
    requires Form(k, p) && v < Pow2(p)
    ensures Compute(k, p, v) != Some(Pow2(k + p) - 1)
  {
    OnesFit(k, p, v);
    SomeZero(k, p, v);
  }

  lemma SomeZero(k: nat, p: nat, v: nat)
    requires v < Pow2(p) && Ones(v) < Pow2(k) - 1
    ensures Compute(k, p, v) != Some(Pow2(k + p) - 1)
  {
    var w := Pow2(k) * v + Ones(v);
    PartsAre(w, k, v, Ones(v));
    NotAllOnes(k, p, w);
  }

  lemma NotAllOnes(k: nat, p: nat, w: nat)
    requires Low(w, k) < Pow2(k) - 1
    ensures w != Pow2(k + p) - 1
  {
    AllOnes(k, p);
  }

  lemma AllOnes(k: nat, p: nat)
    ensures Low(Pow2(k + p) - 1, k) == Pow2(k) - 1
  {
    Pow2Sum(k, p);
    Distribute(Pow2(k), Pow2(p) - 1, 1);
    PartsAre(Pow2(k + p) - 1, k, Pow2(p) - 1, Pow2(k) - 1);
  }
}
