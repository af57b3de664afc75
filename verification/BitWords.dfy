/**
 Machine words as sequences of bits, lowest first: the smearing count of leading zeros, the number of
 ones, and the number of bytes a value needs.
 */
module BitWords {

  function Pow2(n: nat): (r: nat)
    ensures r > 0
  {
    if n == 0 then 1 else 2 * Pow2(n - 1)
  }

  // ---- Values and bits

  function ToBits(v: nat, w: nat): (r: seq<bool>)
    ensures |r| == w
    decreases w
  {
    if w == 0 then [] else [v % 2 == 1] + ToBits(v / 2, w - 1)
  }

  function FromBits(b: seq<bool>): nat {
    if b == [] then 0 else (if b[0] then 1 else 0) + 2 * FromBits(b[1..])
  }

  lemma {:induction false} FromToBits(v: nat, w: nat)
    requires v < Pow2(w)
    ensures FromBits(ToBits(v, w)) == v
    decreases w
  {
    if w > 0 {
      FromToBits(v / 2, w - 1);
      assert ToBits(v, w)[1..] == ToBits(v / 2, w - 1);
    }
  }

  /** Number of significant bits */
  function Length(b: seq<bool>): (n: nat)
    ensures n <= |b|
    decreases |b|
  {
    if b == [] then 0 else if b[|b| - 1] then |b| else Length(b[..|b| - 1])
  }

  lemma {:induction false} LengthIs(b: seq<bool>, i: nat)
    requires i < |b|
    ensures i >= Length(b) ==> !b[i]
    ensures Length(b) > 0 ==> b[Length(b) - 1]
    decreases |b|
  {
    if !b[|b| - 1] {
      if i < |b| - 1 { LengthIs(b[..|b| - 1], i); }
      else if Length(b) > 0 { LengthIs(b[..|b| - 1], 0); }
    }
  }

  lemma {:induction false} ShiftedLength(b: seq<bool>)
    requires b != []
    ensures Length(b) == if Length(b[1..]) > 0 then Length(b[1..]) + 1 else if b[0] then 1 else 0
    decreases |b|
  {
    var n := |b| - 1;
    if !b[n] && n > 0 {
      ShiftedLength(b[..n]);
      assert b[..n][1..] == b[1..][..n - 1];
    }
  }

  /** The significant bits of a value: the least n such that v < 2^n. */
  lemma {:induction false} LengthIsLeast(v: nat, w: nat)
    requires v < Pow2(w)
    ensures v < Pow2(Length(ToBits(v, w)))
    ensures Length(ToBits(v, w)) > 0 ==> Pow2(Length(ToBits(v, w)) - 1) <= v
    decreases w
  {
    if w > 0 {
      LengthIsLeast(v / 2, w - 1);
      ShiftedLength(ToBits(v, w));
      assert ToBits(v, w)[1..] == ToBits(v / 2, w - 1);
    }
  }

  // ---- Counting ones

  function Count(b: seq<bool>): (n: nat)
    ensures n <= |b|
  {
    if b == [] then 0 else (if b[0] then 1 else 0) + Count(b[1..])
  }

  function Ones(v: nat): nat {
    if v == 0 then 0 else v % 2 + Ones(v / 2)
  }

  lemma {:induction false} OnesBound(v: nat, w: nat)
    requires v < Pow2(w)
    ensures Ones(v) <= w
    decreases w
  {
    if v > 0 { OnesBound(v / 2, w - 1); }
  }

  lemma OnesStep(v: nat, half: nat, bit: nat)
    requires v == 2 * half + bit && bit < 2
    ensures Ones(v) == bit + Ones(half)
  {
  }

  lemma Twice(q: nat, n: nat)
    ensures (2 * q) * n == 2 * (q * n)
  {
  }

  lemma Half(v: nat, m: nat, lo: nat)
    requires v == 2 * m + lo
    ensures v / 2 == m + lo / 2 && v % 2 == lo % 2
  {
  }

  /** Half of a word made of two parts is made of the high part and half of the low one. */
  lemma HalfOfParts(v: nat, k: nat, lo: nat, hi: nat)
    requires k > 0 && lo < Pow2(k) && v == Pow2(k) * hi + lo
    ensures lo / 2 < Pow2(k - 1) && v / 2 == Pow2(k - 1) * hi + lo / 2 && v % 2 == lo % 2
  {
    Twice(Pow2(k - 1), hi);
    Half(v, Pow2(k - 1) * hi, lo);
  }

  /** Counting a word part by part */
  lemma {:induction false} OnesJoin(v: nat, k: nat, lo: nat, hi: nat)
    requires lo < Pow2(k) && v == Pow2(k) * hi + lo
    ensures Ones(v) == Ones(lo) + Ones(hi)
    decreases k
  {
    if k > 0 {
      HalfOfParts(v, k, lo, hi);
      OnesJoin(v / 2, k - 1, lo / 2, hi);
      OnesStep(v, v / 2, v % 2);
      OnesStep(lo, lo / 2, lo % 2);
    }
  }

  /** bit_count of a 16-bit word, from the counts of its bytes */
  function BitCount16(v: nat): nat {
    Ones(v % 0x100) + Ones(v / 0x100)
  }

  function BitCount32(v: nat): nat {
    Ones(v % 0x100) + Ones(v / 0x100 % 0x100) + Ones(v / 0x1_0000 % 0x100) + Ones(v / 0x100_0000 % 0x100)
  }

  function BitCount64(v: nat): nat {
    BitCount32(v % 0x1_0000_0000) + BitCount32(v / 0x1_0000_0000)
  }

  lemma Powers()
    ensures Pow2(3) == 8 && Pow2(4) == 16 && Pow2(5) == 32 && Pow2(6) == 64 && Pow2(8) == 0x100
    ensures Pow2(16) == 0x1_0000 && Pow2(32) == 0x1_0000_0000
  {
    assert Pow2(4) == 16 && Pow2(8) == 0x100 && Pow2(12) == 0x1000 && Pow2(16) == 0x1_0000;
    assert Pow2(20) == 0x10_0000 && Pow2(24) == 0x100_0000 && Pow2(28) == 0x1000_0000;
  }

  lemma DivideTwice(v: nat)
    requires v < 0x1_0000_0000
    ensures v / 0x100 / 0x100 == v / 0x1_0000 && v / 0x1_0000 / 0x100 == v / 0x100_0000
    ensures v / 0x100_0000 % 0x100 == v / 0x100_0000
  {
  }

  lemma BitCount32IsOnes(v: nat)
    requires v < 0x1_0000_0000
    ensures BitCount32(v) == Ones(v)
  {
    Powers();
    DivideTwice(v);
    OnesJoin(v, 8, v % 0x100, v / 0x100);
    OnesJoin(v / 0x100, 8, v / 0x100 % 0x100, v / 0x1_0000);
    OnesJoin(v / 0x1_0000, 8, v / 0x1_0000 % 0x100, v / 0x100_0000);
  }

  lemma BitCount16IsOnes(v: nat)
    ensures BitCount16(v) == Ones(v)
  {
    Powers();
    OnesJoin(v, 8, v % 0x100, v / 0x100);
  }

  lemma OnesOfHalves(v: nat, lo: nat, hi: nat)
    requires lo < 0x1_0000_0000 && hi < 0x1_0000_0000 && v == 0x1_0000_0000 * hi + lo
    ensures Ones(v) == BitCount32(lo) + BitCount32(hi)
  {
    Powers();
    BitCount32IsOnes(lo);
    BitCount32IsOnes(hi);
    OnesJoin(v, 32, lo, hi);
  }

  /** The bytewise count is the number of ones of the whole word. */
  lemma BitCount64IsOnes(v: nat)
    requires v < 0x1_0000_0000_0000_0000
    ensures BitCount64(v) == Ones(v)
  {
    OnesOfHalves(v, v % 0x1_0000_0000, v / 0x1_0000_0000);
  }

  /** bit_count of a word of `w` bits: 8, 16, 32 or 64 */
  function BitCountOf(v: nat, w: nat): nat {
    if w == 64 then BitCount64(v) else if w == 32 then BitCount32(v) else if w == 16 then BitCount16(v) else Ones(v)
  }

  lemma Pow64()
    ensures Pow2(64) == 0x1_0000_0000_0000_0000
  {
    Powers();
    assert Pow2(36) == 0x10_0000_0000 && Pow2(40) == 0x100_0000_0000 && Pow2(44) == 0x1000_0000_0000;
    assert Pow2(48) == 0x1_0000_0000_0000 && Pow2(52) == 0x10_0000_0000_0000 && Pow2(56) == 0x100_0000_0000_0000;
    assert Pow2(60) == 0x1000_0000_0000_0000;
  }

  /** At every width bit_count is the number of ones. */
  lemma BitCountOfIsOnes(v: nat, w: nat)
    requires v < Pow2(w)
    ensures BitCountOf(v, w) == Ones(v)
  {
    if w == 64 {
      Pow64();
      BitCount64IsOnes(v);
    } else if w == 32 {
      Powers();
      BitCount32IsOnes(v);
    } else if w == 16 {
      BitCount16IsOnes(v);
    }
  }

  lemma {:induction false} CountIsOnes(b: seq<bool>)
    ensures Ones(FromBits(b)) == Count(b) && FromBits(b) < Pow2(|b|)
  {
    if b != [] {
      CountIsOnes(b[1..]);
      OnesStep(FromBits(b), FromBits(b[1..]), if b[0] then 1 else 0);
    }
  }

  // ---- leading_zero_count

  /** x | (x >> k) */
  function ShiftOr(b: seq<bool>, k: nat): (r: seq<bool>)
    ensures |r| == |b|
    ensures forall i :: 0 <= i < |b| ==> r[i] == (b[i] || (i + k < |b| && b[i + k]))
  {
    seq(|b|, i requires 0 <= i < |b| => b[i] || (i + k < |b| && b[i + k]))
  }

  /** The steps x |= x >> 1, x |= x >> 2, ... up to half the width */
  function Smear(b: seq<bool>, k: nat): (r: seq<bool>)
    requires k > 0
    ensures |r| == |b|
    decreases |b| - k
  {
    if k >= |b| then b else Smear(ShiftOr(b, k), 2 * k)
  }

  function Not(b: seq<bool>): (r: seq<bool>)
    ensures |r| == |b| && forall i :: 0 <= i < |b| ==> r[i] == !b[i]
  {
    seq(|b|, i requires 0 <= i < |b| => !b[i])
  }

  function LeadingZeros(b: seq<bool>): (n: nat)
    ensures n <= |b|
  {
    Count(Not(Smear(b, 1)))
  }

  /** `b` has a one among the k bits from `i` on */
  predicate OneWithin(b: seq<bool>, i: nat, k: nat) {
    exists j :: i <= j < i + k && j < |b| && b[j]
  }

  predicate Windows(b: seq<bool>, c: seq<bool>, k: nat) {
    |c| == |b| && forall i :: 0 <= i < |b| ==> c[i] == OneWithin(b, i, k)
  }

  lemma DoubleWindow(b: seq<bool>, c: seq<bool>, k: nat)
    requires Windows(b, c, k) && k > 0
    ensures Windows(b, ShiftOr(c, k), 2 * k)
  {
    var d := ShiftOr(c, k);
    forall i | 0 <= i < |b| ensures d[i] == OneWithin(b, i, 2 * k) {
      if OneWithin(b, i, 2 * k) {
        var j :| i <= j < i + 2 * k && j < |b| && b[j];
        if j < i + k { assert OneWithin(b, i, k); } else { assert OneWithin(b, i + k, k); }
      }
      if c[i] { var j :| i <= j < i + k && j < |b| && b[j]; assert OneWithin(b, i, 2 * k); }
      if i + k < |b| && c[i + k] { var j :| i + k <= j < i + 2 * k && j < |b| && b[j]; assert OneWithin(b, i, 2 * k); }
    }
  }

  lemma {:induction false} SmearWindows(b: seq<bool>, c: seq<bool>, k: nat, i: nat)
    requires k > 0 && Windows(b, c, k) && i < |b|
    ensures Smear(c, k)[i] == OneWithin(b, i, |b|)
    decreases |b| - k
  {
    if k < |b| {
      DoubleWindow(b, c, k);
      SmearWindows(b, ShiftOr(c, k), 2 * k, i);
    } else {
      assert c[i] == OneWithin(b, i, k);
      if OneWithin(b, i, k) { var j :| i <= j < i + k && j < |b| && b[j]; assert OneWithin(b, i, |b|); }
      if OneWithin(b, i, |b|) { var j :| i <= j < i + |b| && j < |b| && b[j]; assert OneWithin(b, i, k); }
    }
  }

  /** After smearing exactly the bits below the highest one are set. */
  lemma SmearFillsBelow(b: seq<bool>, i: nat)
    requires i < |b|
    ensures Smear(b, 1)[i] <==> i < Length(b)
  {
    forall j | 0 <= j < |b| ensures b[j] == OneWithin(b, j, 1) {}
    SmearWindows(b, b, 1, i);
    if i < Length(b) {
      LengthIs(b, i);
      assert b[Length(b) - 1];
      assert OneWithin(b, i, |b|);
    } else {
      forall j | i <= j < |b| ensures !b[j] { LengthIs(b, j); }
    }
  }

  lemma {:induction false} CountFrom(b: seq<bool>, n: nat)
    requires n <= |b| && forall i :: 0 <= i < |b| ==> (b[i] <==> i >= n)
    ensures Count(b) == |b| - n
    decreases |b|
  {
    if b != [] {
      assert forall i :: 0 <= i < |b| - 1 ==> b[1..][i] == b[i + 1];
      CountFrom(b[1..], if n > 0 then n - 1 else 0);
    }
  }

  /** The zeros counted and the significant bits make up the word. */
  lemma LeadingZerosIs(b: seq<bool>)
    ensures LeadingZeros(b) == |b| - Length(b)
  {
    var c := Not(Smear(b, 1));
    forall i | 0 <= i < |b| ensures c[i] <==> i >= Length(b) { SmearFillsBelow(b, i); }
    CountFrom(c, Length(b));
  }

  /** leading_zero_count of a `w`-bit value, as the source computes it: bit_count of the complement of the smeared
      word. The bits of the word are those of the value. */
  lemma LeadingZerosCounted(v: nat, w: nat)
    requires v < Pow2(w)
    ensures BitCountOf(FromBits(Not(Smear(ToBits(v, w), 1))), w) == LeadingZeros(ToBits(v, w))
    ensures FromBits(ToBits(v, w)) == v
  {
    var c := Not(Smear(ToBits(v, w), 1));
    FromToBits(v, w);
    CountIsOnes(c);
    BitCountOfIsOnes(FromBits(c), w);
  }

  // ---- Bytes a value needs

  /** fast_padded_size to a multiple of 8 */
  function PaddedBits(n: nat): nat {
    n + (8 - n % 8) % 8
  }

  /** max_bit_count of a `w`-bit value */
  function BitCount(v: nat, w: nat): nat {
    w - LeadingZeros(ToBits(v, w))
  }

  /** max_padded_byte_cout of a `w`-bit value */
  function ByteCount(v: nat, w: nat): nat {
    PaddedBits(BitCount(v, w)) / 8
  }

  /** The bit count is the least n such that v < 2^n. */
  lemma BitCountIsLeast(v: nat, w: nat)
    requires v < Pow2(w)
    ensures v < Pow2(BitCount(v, w)) && BitCount(v, w) <= w
    ensures BitCount(v, w) > 0 ==> Pow2(BitCount(v, w) - 1) <= v
  {
    LeadingZerosIs(ToBits(v, w));
    LengthIsLeast(v, w);
  }

  lemma {:induction false} Pow2Monotone(a: nat, b: nat)
    requires a <= b
    ensures Pow2(a) <= Pow2(b)
    decreases b
  {
    if a < b { Pow2Monotone(a, b - 1); }
  }

  lemma PaddedBytes(n: nat)
    ensures n <= 8 * (PaddedBits(n) / 8) < n + 8
  {
  }

  /** The byte count is the least n such that v < 2^(8n), whatever the word's width. */
  lemma ByteCountIsLeast(v: nat, w: nat)
    requires v < Pow2(w)
    ensures v < Pow2(8 * ByteCount(v, w))
    ensures forall n: nat :: n < ByteCount(v, w) ==> Pow2(8 * n) <= v
    ensures 8 * ByteCount(v, w) < w + 8
  {
    var n := BitCount(v, w);
    var c := ByteCount(v, w);
    BitCountIsLeast(v, w);
    PaddedBytes(n);
    Pow2Monotone(n, 8 * c);
    forall m: nat | m < c ensures Pow2(8 * m) <= v { Pow2Monotone(8 * m, n - 1); }
  }
}
