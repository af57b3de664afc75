/** The format the serializer uses: check bits in the sizes, and the fewest bytes for each word. */
module SerialFormat {
  import opened Common
  import opened BitWords
  import opened CheckedWords
  import opened CrossCodec
  import T = SerialTree

  const NULL_WORD: nat := 0xFFFF_FFFF_FFFF_FFFF

  lemma NullWordSize()
    ensures Pow2(8 * 8) == NULL_WORD + 1
  {
    Pow64();
  }

  function SizeWord(n: nat): nat {
    match Compute(6, 58, n)
    case Some(w) => w
    case None => 0
  }

  function CheckWord(w: nat): Option<nat> {
    Check(6, w)
  }

  function Cross(w: nat): seq<nat> {
    NullWordSize();
    if w <= NULL_WORD then Store(8, w) else []
  }

  /** The length the first byte announces; without a valid one the source waits for 2^32 - 1 bytes. */
  function Announced(first: nat): nat {
    match SizeAt(first)
    case Some(n) => n
    case None => 0xFFFF_FFFF
  }

  function LoadWord(b: seq<nat>): Option<nat> {
    if b == [] then None
    else match Check(3, b[0])
      case Some(n) => if n <= 8 && n < |b| then Some(Number(b[1..n + 1])) else None
      case None => None
  }

  function Binary(limit: nat): T.Format {
    T.Format(limit, Pow2(58), NULL_WORD, SizeWord, CheckWord, Cross, Announced, LoadWord)
  }

  lemma LoadWordIsLoad(b: seq<nat>)
    requires b != [] && (Check(3, b[0]).Some? && Check(3, b[0]).value <= 8 ==> Check(3, b[0]).value < |b|)
    ensures LoadWord(b) == match Load(8, b) case Some(l) => Some(l.value) case None => None
  {
  }

  lemma BelowAllOnes(k: nat, p: nat, v: nat, top: nat)
    requires Form(k, p) && v < Pow2(p) && top + 1 == Pow2(k + p)
    ensures Compute(k, p, v).Some? && Compute(k, p, v).value < top && Check(k, Compute(k, p, v).value) == Some(v)
  {
    CheckUndoesCompute(k, p, v);
    NeverAllOnes(k, p, v);
  }

  lemma SizesReadBack(limit: nat, n: nat)
    ensures T.SizeReadsBack(Binary(limit), n)
  {
    if n < Pow2(58) {
      NullWordSize();
      BelowAllOnes(6, 58, n, NULL_WORD);
    }
  }

  lemma CrossReads(w: nat)
    requires w <= NULL_WORD
    ensures Cross(w) != [] && Announced(Cross(w)[0]) == |Cross(w)| && LoadWord(Cross(w)) == Some(w)
  {
    NullWordSize();
    SizesAgree(8, w);
    LoadUndoesStore(8, 8, w, []);
    assert Store(8, w) + [] == Store(8, w);
    LoadWordIsLoad(Store(8, w));
  }

  /** What is written is read back: the format is coherent, with any container limit. */
  lemma BinaryIsCoherent(limit: nat)
    ensures T.Coherent(Binary(limit))
  {
    forall n: nat ensures T.SizeReadsBack(Binary(limit), n) { SizesReadBack(limit, n); }
    forall w: nat ensures T.WordReadsBack(Binary(limit), w) { if w <= NULL_WORD { CrossReads(w); } }
  }
}
