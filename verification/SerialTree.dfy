/** The trees the serializer walks, and the bytes they are meant to become. */
module SerialTree {
  import opened Common

  /** A leaf of fixed size, a pair, a sequence (a container, or an array), or a null pointer to one */
  datatype Value =
    | Leaf(bytes: seq<nat>)
    | Pair(first: Value, second: Value)
    | Sequence(isArray: bool, items: seq<Value>)
    | Null(isArray: bool)

  /** What a target is declared as; only a target that is a pointer can become null. */
  datatype Type =
    | LeafType(size: nat)
    | PairType(first: Type, second: Type)
    | SequenceType(isArray: bool, nullable: bool, elem: Type)

  predicate HasType(v: Value, t: Type)
    decreases v
  {
    match v
    case Leaf(b) => t.LeafType? && |b| == t.size
    case Pair(a, b) => t.PairType? && HasType(a, t.first) && HasType(b, t.second)
    case Sequence(isArray, items) => t.SequenceType? && t.isArray == isArray && AllHaveType(items, t.elem)
    case Null(isArray) => t.SequenceType? && t.isArray == isArray && t.nullable
  }

  predicate AllHaveType(items: seq<Value>, t: Type)
    decreases items
  {
    items == [] || (HasType(items[0], t) && AllHaveType(items[1..], t))
  }

  /** How sizes are written: a size below `most` becomes a word with check bits (`word`, undone by `check`),
      a word becomes bytes (`cross`, undone by `load`, whose length shows in the first byte, `length`), and
      `nullWord` stands for a null pointer. `limit` is the container limit. */
  datatype Format = Format(
    limit: nat, most: nat, nullWord: nat,
    word: nat -> nat, check: nat -> Option<nat>,
    cross: nat -> seq<nat>, length: nat -> nat, load: seq<nat> -> Option<nat>)

  /** Words and bytes can be read back, whatever bytes follow, and no size is taken for null. */
  predicate SizeReadsBack(fmt: Format, n: nat) {
    n < fmt.most ==> fmt.word(n) < fmt.nullWord && fmt.check(fmt.word(n)) == Some(n)
  }

  predicate WordReadsBack(fmt: Format, w: nat) {
    w <= fmt.nullWord ==>
      && fmt.cross(w) != []
      && fmt.length(fmt.cross(w)[0]) == |fmt.cross(w)|
      && fmt.load(fmt.cross(w)) == Some(w)
  }

  ghost predicate Coherent(fmt: Format) {
    && (forall n: nat :: SizeReadsBack(fmt, n))
    && (forall w: nat :: WordReadsBack(fmt, w))
  }

  /** The encoding, by recursion on the tree */
  function Encode(v: Value, fmt: Format): seq<nat>
    decreases v
  {
    match v
    case Leaf(b) => b
    case Pair(a, b) => Encode(a, fmt) + Encode(b, fmt)
    case Sequence(_, items) => fmt.cross(fmt.word(|items|)) + EncodeAll(items, fmt)
    case Null(_) => fmt.cross(fmt.nullWord)
  }

  function EncodeAll(items: seq<Value>, fmt: Format): seq<nat>
    decreases items
  {
    if items == [] then [] else Encode(items[0], fmt) + EncodeAll(items[1..], fmt)
  }

  /** A size the format can write and the limit allows */
  predicate Allowed(n: nat, fmt: Format) {
    n <= fmt.limit && n < fmt.most
  }

  /** Every sequence in the tree has an allowed size. */
  predicate Within(v: Value, fmt: Format)
    decreases v
  {
    match v
    case Leaf(_) => true
    case Pair(a, b) => Within(a, fmt) && Within(b, fmt)
    case Sequence(_, items) => Allowed(|items|, fmt) && AllWithin(items, fmt)
    case Null(_) => true
  }

  predicate AllWithin(items: seq<Value>, fmt: Format)
    decreases items
  {
    items == [] || (Within(items[0], fmt) && AllWithin(items[1..], fmt))
  }

  /** The sizes of all sequences in the tree */
  function Sizes(v: Value): set<nat>
    decreases v
  {
    match v
    case Leaf(_) => {}
    case Pair(a, b) => Sizes(a) + Sizes(b)
    case Sequence(_, items) => {|items|} + SizesOf(items)
    case Null(_) => {}
  }

  function SizesOf(items: seq<Value>): set<nat>
    decreases items
  {
    if items == [] then {} else Sizes(items[0]) + SizesOf(items[1..])
  }

  /** Some size is over the container limit, or too large to get check bits. */
  predicate Over(sizes: set<nat>, fmt: Format) {
    exists n :: n in sizes && (n > fmt.limit || n >= fmt.most)
  }

  lemma OverUnion(a: set<nat>, b: set<nat>, fmt: Format)
    ensures Over(a + b, fmt) <==> Over(a, fmt) || Over(b, fmt)
  {
  }

  lemma {:induction false} WithinIs(v: Value, fmt: Format)
    ensures Within(v, fmt) <==> !Over(Sizes(v), fmt)
    decreases v
  {
    match v
    case Leaf(_) =>
    case Pair(a, b) =>
      WithinIs(a, fmt);
      WithinIs(b, fmt);
      OverUnion(Sizes(a), Sizes(b), fmt);
    case Sequence(_, items) =>
      AllWithinIs(items, fmt);
      OverUnion({|items|}, SizesOf(items), fmt);
      assert |items| in {|items|};
    case Null(_) =>
  }

  lemma {:induction false} AllWithinIs(items: seq<Value>, fmt: Format)
    ensures AllWithin(items, fmt) <==> !Over(SizesOf(items), fmt)
    decreases items
  {
    if items != [] {
      WithinIs(items[0], fmt);
      AllWithinIs(items[1..], fmt);
      OverUnion(Sizes(items[0]), SizesOf(items[1..]), fmt);
    }
  }

  datatype Stack<T> = Empty | Push(top: T, below: Stack<T>)
}
