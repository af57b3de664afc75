/** Integers stored in as many bytes as they need, so that any width can read what any other wrote. */
module CrossCodec {
  import opened Common
  import opened BitWords
  import opened CheckedWords

  /** The widths in bytes of uint8_t, uint16_t, uint32_t and uint64_t */
  predicate Width(n: nat) {
    n == 1 || n == 2 || n == 4 || n == 8
  }

  predicate Bytes(b: seq<nat>) {
    forall i :: 0 <= i < |b| ==> b[i] < 0x100
  }

  function Digits(v: nat, n: nat): (b: seq<nat>)
    ensures |b| == n && Bytes(b)
    decreases n
  {
    if n == 0 then [] else [v % 0x100] + Digits(v / 0x100, n - 1)
  }

  function Number(b: seq<nat>): nat {
    if b == [] then 0 else b[0] + 0x100 * Number(b[1..])
  }

  lemma Pow2Byte(n: nat)
    requires n > 0
    ensures Pow2(8 * n) == 0x100 * Pow2(8 * (n - 1))
  {
    Powers();
    Pow2Sum(8, 8 * (n - 1));
  }

  lemma {:induction false} NumberOfDigits(v: nat, n: nat)
    requires v < Pow2(8 * n)
    ensures Number(Digits(v, n)) == v
    decreases n
  {
    if n > 0 {
      Pow2Byte(n);
      NumberOfDigits(v / 0x100, n - 1);
      assert Digits(v, n)[1..] == Digits(v / 0x100, n - 1);
    }
  }

  lemma {:induction false} NumberBound(b: seq<nat>)
    requires Bytes(b)
    ensures Number(b) < Pow2(8 * |b|)
    decreases |b|
  {
    if b != [] {
      Pow2Byte(|b|);
      NumberBound(b[1..]);
    }
  }

  // ---- crossStore, crossSize, crossLoad

  /** The bytes of a value below 2^(8 width): a checked length, then the value, lowest byte first */
  function Store(width: nat, v: nat): seq<nat>
    requires Width(width) && v < Pow2(8 * width)
  {
    var n := ByteCount(v, 8 * width);
    ByteCountIsLeast(v, 8 * width);
    Header(n);
    [Compute(3, 5, n).value] + Digits(v, n)
  }

  /** crossSize of a value */
  function Size(width: nat, v: nat): nat {
    ByteCount(v, 8 * width) + 1
  }

  /** crossSize of stored bytes; the source's -1 is None */
  function SizeAt(first: nat): Option<nat> {
    match Check(3, first)
    case Some(n) => Some(n + 1)
    case None => None
  }

  datatype Loaded = Loaded(value: nat, used: nat)

  /** crossLoad; the bytes it reads must be there */
  function Load(width: nat, b: seq<nat>): Option<Loaded>
    requires b != [] && (Check(3, b[0]).Some? && Check(3, b[0]).value <= width ==> Check(3, b[0]).value < |b|)
  {
    match Check(3, b[0])
    case Some(n) => if n <= width then Some(Loaded(Number(b[1..n + 1]), n + 1)) else None
    case None => None
  }

  lemma Header(n: nat)
    requires n <= 8
    ensures Compute(3, 5, n).Some? && Compute(3, 5, n).value < 0x100 && Check(3, Compute(3, 5, n).value) == Some(n)
  {
    Powers();
    CheckUndoesCompute(3, 5, n);
  }

  lemma StoreShape(width: nat, v: nat, n: nat)
    requires Width(width) && v < Pow2(8 * width) && n == ByteCount(v, 8 * width)
    ensures n <= width && v < Pow2(8 * n)
    ensures var b := Store(width, v);
            |b| == n + 1 && b[0] < 0x100 && Check(3, b[0]) == Some(n) && b[1..] == Digits(v, n)
  {
    ByteCountIsLeast(v, 8 * width);
    Header(n);
  }

  /** What crossSize says of the first stored byte is what it says of the value. */
  lemma SizesAgree(width: nat, v: nat)
    requires Width(width) && v < Pow2(8 * width)
    ensures SizeAt(Store(width, v)[0]) == Some(Size(width, v)) && |Store(width, v)| == Size(width, v)
  {
    SizesOf(width, v, ByteCount(v, 8 * width), Store(width, v));
  }

  lemma SizesOf(width: nat, v: nat, n: nat, b: seq<nat>)
    requires Width(width) && v < Pow2(8 * width) && n == ByteCount(v, 8 * width) && b == Store(width, v)
    ensures |b| == n + 1 && SizeAt(b[0]) == Some(n + 1)
  {
    StoreShape(width, v, n);
    SizeOfChecked(b[0], n);
  }

  lemma SizeOfChecked(first: nat, n: nat)
    requires Check(3, first) == Some(n)
    ensures SizeAt(first) == Some(n + 1)
  {
  }

  /** The number of bytes does not depend on the width it is stored from. */
  lemma SameCount(v: nat, w1: nat, w2: nat)
    requires v < Pow2(w1) && v < Pow2(w2)
    ensures ByteCount(v, w1) == ByteCount(v, w2)
  {
    ByteCountIsLeast(v, w1);
    ByteCountIsLeast(v, w2);
  }

  lemma {:induction false} CountFits(v: nat, w: nat, n: nat)
    requires v < Pow2(w)
    ensures ByteCount(v, w) <= n <==> v < Pow2(8 * n)
  {
    ByteCountIsLeast(v, w);
    if ByteCount(v, w) <= n { Pow2Monotone(8 * ByteCount(v, w), 8 * n); }
  }

  /** Loading at any width undoes storing at any width exactly when the value fits, and uses exactly the
      stored bytes whatever follows them; otherwise it is refused. */
  lemma LoadUndoesStore(w1: nat, w2: nat, v: nat, rest: seq<nat>)
    requires Width(w1) && Width(w2) && v < Pow2(8 * w1)
    ensures var b := Store(w1, v) + rest;
            && b != [] && (Check(3, b[0]).Some? && Check(3, b[0]).value <= w2 ==> Check(3, b[0]).value < |b|)
            && Load(w2, b) == if v < Pow2(8 * w2) then Some(Loaded(v, Size(w1, v))) else None
  {
    var n := ByteCount(v, 8 * w1);
    StoreShape(w1, v, n);
    CountFits(v, 8 * w1, w2);
    var b := Store(w1, v) + rest;
    assert b[0] == Store(w1, v)[0];
    assert b[1..n + 1] == Store(w1, v)[1..];
    NumberOfDigits(v, n);
  }

  /** No stored form at any width has fewer bytes that read back as the value. */
  lemma StoreIsShortest(width: nat, v: nat, b: seq<nat>)
    requires Width(width) && v < Pow2(8 * width) && Bytes(b) && Number(b) == v
    ensures Size(width, v) <= |b| + 1
  {
    NumberBound(b);
    CountFits(v, 8 * width, |b|);
  }
}
