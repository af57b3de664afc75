/** Type ids made of a protocol id and a message id, and the map from ids to registered types. */
module TypeIds {
  import opened Common
  import opened BitWords
  import opened CheckedWords

  /** Bytes that hold a protocol id of `b` bits and the two bits that say how many bytes they are */
  function ProtocolBytes(b: nat): (n: nat)
    ensures n >= 1
  {
    PaddedBits(b + 2) / 8
  }

  /** joinTypeId, given the bits of the protocol id and the bytes of the message id: the parts do not overlap,
      so the source's `|` is a sum. */
  function JoinSized(p: nat, b: nat, m: nat, c: nat): Option<nat> {
    var n := ProtocolBytes(b);
    if b > 30 || n + c > 8 then None else Some(n - 1 + 4 * p + Pow2(8 * n) * m)
  }

  /** joinTypeId of a 32-bit protocol id and a 64-bit message id */
  function Join(p: nat, m: nat): Option<nat> {
    JoinSized(p, BitCount(p, 32), m, ByteCount(m, 64))
  }

  datatype Parts = Parts(protocol: nat, message: nat)

  /** splitTypeId */
  function Split(id: nat): Parts {
    var n := id % 4 + 1;
    Parts(Low(id, 8 * n) / 4, High(id, 8 * n))
  }

  lemma ProtocolRange(b: nat)
    ensures b + 2 <= 8 * ProtocolBytes(b) < b + 10 && ProtocolBytes(b) >= 1
  {
  }

  lemma ProtocolFits(p: nat, b: nat)
    requires p < Pow2(b) && b <= 30
    ensures 1 <= ProtocolBytes(b) <= 4 && ProtocolBytes(b) - 1 + 4 * p < Pow2(8 * ProtocolBytes(b))
  {
    ProtocolRange(b);
    Pow2Monotone(b + 2, 8 * ProtocolBytes(b));
    assert Pow2(b + 2) == 2 * Pow2(b + 1) && Pow2(b + 1) == 2 * Pow2(b);
  }

  lemma FourTimes(q: nat, m: nat)
    ensures (4 * q) * m == 4 * (q * m)
  {
  }

  lemma FirstBits(v: nat, n: nat, m: nat, p: nat)
    requires 1 <= n <= 4 && v == n - 1 + 4 * p + Pow2(8 * n) * m
    ensures v % 4 == n - 1
  {
    var q := Pow2(8 * n - 2);
    assert Pow2(8 * n) == 4 * q by { assert Pow2(8 * n) == 2 * Pow2(8 * n - 1) && Pow2(8 * n - 1) == 2 * q; }
    FourTimes(q, m);
    assert v == 4 * (p + q * m) + (n - 1);
  }

  lemma SplitUndoesSized(p: nat, b: nat, m: nat, c: nat)
    requires p < Pow2(b) && JoinSized(p, b, m, c).Some?
    ensures Split(JoinSized(p, b, m, c).value) == Parts(p, m)
  {
    ProtocolFits(p, b);
    SplitParts(JoinSized(p, b, m, c).value, ProtocolBytes(b), m, p);
  }

  lemma SplitParts(id: nat, n: nat, m: nat, p: nat)
    requires 1 <= n <= 4 && id == n - 1 + 4 * p + Pow2(8 * n) * m && n - 1 + 4 * p < Pow2(8 * n)
    ensures Split(id) == Parts(p, m)
  {
    FirstBits(id, n, m, p);
    PartsAre(id, 8 * n, m, n - 1 + 4 * p);
    Quarter(n - 1, p);
  }

  lemma Quarter(r: nat, p: nat)
    requires r < 4
    ensures (r + 4 * p) / 4 == p
  {
  }

  /** Splitting undoes every accepted joining. */
  lemma SplitUndoesJoin(p: nat, m: nat)
    requires p < Pow2(32) && Join(p, m).Some?
    ensures Split(Join(p, m).value) == Parts(p, m)
  {
    BitCountIsLeast(p, 32);
    SplitUndoesSized(p, BitCount(p, 32), m, ByteCount(m, 64));
  }

  lemma JoinIsInjective(p: nat, m: nat, q: nat, k: nat)
    requires p < Pow2(32) && q < Pow2(32) && Join(p, m).Some? && Join(p, m) == Join(q, k)
    ensures p == q && m == k
  {
    SplitUndoesJoin(p, m);
    SplitUndoesJoin(q, k);
  }

  lemma SizedBound(p: nat, b: nat, m: nat, c: nat)
    requires p < Pow2(b) && JoinSized(p, b, m, c).Some? && m < Pow2(8 * c)
    ensures JoinSized(p, b, m, c).value < Pow2(64)
  {
    ProtocolFits(p, b);
    var n := ProtocolBytes(b);
    Pow2Monotone(8 * c, 8 * (8 - n));
    JoinBound(8 * n, 8 * (8 - n), m, n - 1 + 4 * p);
  }

  lemma SizedAccepts(p: nat, b: nat, m: nat, c: nat)
    requires p < Pow2(b) && (b > 0 ==> Pow2(b - 1) <= p)
    requires forall n: nat :: c <= n <==> m < Pow2(8 * n)
    ensures JoinSized(p, b, m, c).Some? <==>
              p < Pow2(30) && ProtocolBytes(b) <= 8 && m < Pow2(8 * (8 - ProtocolBytes(b)))
  {
    if b <= 30 {
      Pow2Monotone(b, 30);
      var n := ProtocolBytes(b);
      if n <= 8 { assert c <= 8 - n <==> m < Pow2(8 * (8 - n)); }
    } else {
      Pow2Monotone(30, b - 1);
    }
  }

  lemma MessageFits(m: nat, w: nat, n: nat)
    requires m < Pow2(w)
    ensures ByteCount(m, w) <= n <==> m < Pow2(8 * n)
  {
    ByteCountIsLeast(m, w);
    if ByteCount(m, w) <= n { Pow2Monotone(8 * ByteCount(m, w), 8 * n); }
  }

  /** Exactly these are accepted: a protocol id below 2^30 and a message id that fits in the bytes which that one
      leaves of eight; and then the id has 64 bits. */
  lemma JoinAccepts(p: nat, m: nat)
    requires p < Pow2(32) && m < Pow2(64)
    ensures Join(p, m).Some? <==>
              p < Pow2(30) && ProtocolBytes(BitCount(p, 32)) <= 8 && m < Pow2(8 * (8 - ProtocolBytes(BitCount(p, 32))))
    ensures Join(p, m).Some? ==> Join(p, m).value < Pow2(64)
  {
    BitCountIsLeast(p, 32);
    forall n: nat ensures ByteCount(m, 64) <= n <==> m < Pow2(8 * n) { MessageFits(m, 64, n); }
    SizedAccepts(p, BitCount(p, 32), m, ByteCount(m, 64));
    if Join(p, m).Some? { SizedBound(p, BitCount(p, 32), m, ByteCount(m, 64)); }
  }

  /** Every protocol id that does not fit in 30 bits is refused, with any message id. */
  lemma WideProtocolRefused(p: nat, m: nat)
    requires Pow2(30) <= p < Pow2(32)
    ensures Join(p, m) == None
  {
    BitCountIsLeast(p, 32);
    if BitCount(p, 32) <= 30 { Pow2Monotone(BitCount(p, 32), 30); }
  }

  /** A protocol id of at most 30 bits leaves at least four bytes for the message id. */
  lemma NarrowProtocolAccepted(p: nat, m: nat)
    requires p < Pow2(30) && m < Pow2(32)
    ensures Join(p, m).Some?
  {
    NarrowBits(p);
    ShortMessage(m, 4, 64);
  }

  lemma ShortMessage(m: nat, n: nat, w: nat)
    requires m < Pow2(8 * n) && 8 * n <= w
    ensures ByteCount(m, w) <= n
  {
    Pow2Monotone(8 * n, w);
    MessageFits(m, w, n);
  }

  lemma NarrowBits(p: nat)
    requires p < Pow2(30)
    ensures BitCount(p, 32) <= 30 && ProtocolBytes(BitCount(p, 32)) <= 4
  {
    ShortCount(p, 30, 32);
    ProtocolRange(BitCount(p, 32));
  }

  lemma ShortCount(p: nat, w: nat, u: nat)
    requires p < Pow2(w) && w <= u
    ensures BitCount(p, u) <= w
  {
    Pow2Monotone(w, u);
    BitCountIsLeast(p, u);
    NoLonger(p, BitCount(p, u), w);
  }

  lemma NoLonger(p: nat, b: nat, w: nat)
    requires p < Pow2(w) && (b > 0 ==> Pow2(b - 1) <= p)
    ensures b <= w
  {
    if b > w { Pow2Monotone(w, b - 1); }
  }

  type Joiner = (nat, nat) -> Option<nat>

  /** No id is made of two messages of one protocol. */
  ghost predicate Injective(join: Joiner) {
    forall p: nat, m: nat, k: nat :: Apart(join, p, m, k)
  }

  predicate Apart(join: Joiner, p: nat, m: nat, k: nat) {
    p < 0x1_0000_0000 && join(p, m).Some? && join(p, m) == join(p, k) ==> m == k
  }

  lemma JoinWorks()
    ensures Injective(Join)
  {
    Powers();
    forall p: nat, m: nat, k: nat ensures Apart(Join, p, m, k) {
      if p < 0x1_0000_0000 && Join(p, m).Some? && Join(p, m) == Join(p, k) { JoinIsInjective(p, m, p, k); }
    }
  }

  /** Ids are made of protocol ids of at most 30 bits, and then of every message id of 32 bits. */
  ghost predicate Narrow(join: Joiner) {
    forall p: nat, m: nat :: NarrowAt(join, p, m)
  }

  predicate NarrowAt(join: Joiner, p: nat, m: nat) {
    && (0x4000_0000 <= p < 0x1_0000_0000 ==> join(p, m).None?)
    && (p < 0x4000_0000 && m < 0x1_0000_0000 ==> join(p, m).Some?)
  }

  lemma JoinIsNarrow()
    ensures Narrow(Join)
  {
    Powers();
    forall p: nat, m: nat ensures NarrowAt(Join, p, m) {
      if 0x4000_0000 <= p < 0x1_0000_0000 { WideProtocolRefused(p, m); }
      if p < 0x4000_0000 && m < 0x1_0000_0000 { NarrowProtocolAccepted(p, m); }
    }
  }

  /** The ids of a protocol's messages from `from` up to `end`, all of them taken */
  ghost predicate Taken(join: Joiner, p: nat, from: nat, end: nat, places: map<nat, nat>) {
    forall m: nat :: from <= m < end ==> TakenAt(join, p, m, places)
  }

  predicate TakenAt(join: Joiner, p: nat, m: nat, places: map<nat, nat>) {
    join(p, m).Some? && join(p, m).value in places
  }

  lemma TakenMore(join: Joiner, p: nat, from: nat, m: nat, places: map<nat, nat>)
    requires Taken(join, p, from, m, places) && TakenAt(join, p, m, places)
    ensures Taken(join, p, from, m + 1, places)
  {
  }

  /** The ids made of a protocol's messages from `from` up to `end` */
  ghost function IdsOf(join: Joiner, p: nat, from: nat, end: nat): set<nat>
    decreases end
  {
    if end <= from then {} else IdsOf(join, p, from, end - 1) + {IdAt(join, p, end - 1)}
  }

  function IdOr(join: Joiner, p: nat, m: nat, unset: nat): nat {
    if join(p, m).Some? then join(p, m).value else unset
  }

  function IdAt(join: Joiner, p: nat, m: nat): nat {
    IdOr(join, p, m, 0)
  }

  lemma {:induction false} IdsApart(join: Joiner, p: nat, from: nat, end: nat, m: nat)
    requires Injective(join) && p < 0x1_0000_0000 && end <= m && join(p, m).Some?
    requires forall k: nat :: from <= k < end ==> join(p, k).Some?
    ensures IdAt(join, p, m) !in IdsOf(join, p, from, end)
    decreases end
  {
    if end > from {
      IdsApart(join, p, from, end - 1, m);
      assert Apart(join, p, m, end - 1);
    }
  }

  lemma OneMore(s: set<nat>, x: nat, all: set<nat>)
    requires x !in s && x in all && s <= all
    ensures |s + {x}| == |s| + 1 && s + {x} <= all
  {
  }

  /** Every message whose id is taken has its own entry in the map, so there are at most as many as entries. */
  lemma {:induction false} TakenAreFew(join: Joiner, p: nat, from: nat, end: nat, places: map<nat, nat>)
    requires Injective(join) && p < 0x1_0000_0000 && Taken(join, p, from, end, places) && from <= end
    ensures IdsOf(join, p, from, end) <= places.Keys && |IdsOf(join, p, from, end)| == end - from
    decreases end
  {
    if end > from {
      TakenAreFew(join, p, from, end - 1, places);
      forall k: nat | from <= k < end ensures join(p, k).Some? { assert TakenAt(join, p, k, places); }
      assert TakenAt(join, p, end - 1, places);
      IdsApart(join, p, from, end - 1, end - 1);
      OneMore(IdsOf(join, p, from, end - 1), IdAt(join, p, end - 1), places.Keys);
    }
  }

  lemma EndsSoon(join: Joiner, p: nat, from: nat, end: nat, places: map<nat, nat>)
    requires Injective(join) && p < 0x1_0000_0000 && Taken(join, p, from, end, places) && from <= end
    ensures end - from <= |places.Keys|
  {
    TakenAreFew(join, p, from, end, places);
    SubsetSize(IdsOf(join, p, from, end), places.Keys);
  }

  // ---- The map

  /** The id of each registered type; the place of each id; the next message id of each protocol */
  datatype Book = Book(ids: seq<nat>, places: map<nat, nat>, next: map<nat, nat>) {
    function NextOf(protocol: nat): nat {
      if protocol in next then next[protocol] else 0
    }
  }

  /** The null pointer is registered first, with id 0. */
  const FRESH := Book([0], map[0 := 0], map[])

  /** Ids and places in the vector of types are inverse to each other. */
  ghost predicate Inverse(b: Book) {
    Known(b) && forall i :: 0 <= i < |b.ids| ==> b.places[b.ids[i]] == i
  }

  /** Every id in the vector has a place, and at that place is that id. */
  ghost predicate Known(b: Book) {
    && (forall i :: 0 <= i < |b.ids| ==> b.ids[i] in b.places)
    && (forall id :: id in b.places ==> b.places[id] < |b.ids| && b.ids[b.places[id]] == id)
  }

  function Appended(b: Book, id: nat): Book {
    b.(ids := b.ids + [id], places := b.places[id := |b.ids|])
  }

  /** Appending a type under an id leaves map and vector inverse exactly when they were and the id is new: nothing
      registered later mends them. */
  lemma AppendKeeps(b: Book, id: nat)
    requires Known(b)
    ensures Known(Appended(b, id))
    ensures Inverse(Appended(b, id)) <==> Inverse(b) && id !in b.places
  {
    var n := Appended(b, id);
    assert n.ids[|b.ids|] == id;
    assert forall i :: 0 <= i < |b.ids| ==> n.ids[i] == b.ids[i];
    if id in b.places { assert n.ids[b.places[id]] == id; }
  }

  /** The protocol id as joinTypeId gets it */
  function Cut(protocol: nat): nat {
    protocol % 0x1_0000_0000
  }

  /** An id can be made of some message from `from` on, all before it being taken. */
  ghost predicate CanMake(join: Joiner, p: nat, from: nat, places: map<nat, nat>) {
    exists m: nat :: from <= m && FreeAt(join, p, m, places) && Taken(join, p, from, m, places)
  }

  predicate FreeAt(join: Joiner, p: nat, m: nat, places: map<nat, nat>) {
    join(p, m).Some? && join(p, m).value !in places
  }

  /** The outcome of doAllocateNewIndex: the message id to go on with and the value left in the id variable, which
      was `unset`. Either that is the first unused id, or the search stopped where no id can be made, with the id
      tried before, which is in use, or with the variable never set. */
  ghost predicate Allocates(join: Joiner, p: nat, from: nat, places: map<nat, nat>, unset: nat, current: nat, id: nat) {
    || (current > from && join(p, current - 1) == Some(id) && id !in places
        && Taken(join, p, from, current - 1, places))
    || (current >= from && join(p, current).None? && Taken(join, p, from, current, places)
        && if current == from then id == unset else join(p, current - 1) == Some(id))
  }

  /** An unused id comes out exactly when one can be made; else it is one in use, or the variable was never set. */
  lemma AllocatesNew(join: Joiner, p: nat, from: nat, places: map<nat, nat>, unset: nat, current: nat, id: nat)
    requires Allocates(join, p, from, places, unset, current, id)
    ensures id !in places <==> CanMake(join, p, from, places) || (join(p, from).None? && unset !in places)
  {
    if join(p, current).None? && current >= from && Taken(join, p, from, current, places) {
      if CanMake(join, p, from, places) {
        var m: nat :| from <= m && FreeAt(join, p, m, places) && Taken(join, p, from, m, places);
        if m < current { assert TakenAt(join, p, m, places); } else { assert TakenAt(join, p, current, places); }
      } else if current > from {
        assert TakenAt(join, p, current - 1, places) && TakenAt(join, p, from, places);
      }
    } else {
      assert FreeAt(join, p, current - 1, places);
    }
  }

  datatype Call = Call(protocol: nat, message: nat, unset: nat)

  /** The id of the call is in use, so the call is refused. */
  predicate Refused(join: Joiner, b: Book, c: Call) {
    c.message != 0 && TakenAt(join, Cut(c.protocol), c.message, b.places)
  }

  /** doRegisterType takes `b` to `n`; where no id is made the source goes on with a variable it may never have set,
      here `unset`. */
  ghost predicate Registers(join: Joiner, b: Book, c: Call, n: Book) {
    var p := Cut(c.protocol);
    if Refused(join, b, c) then n == b
    else
      && |n.ids| == |b.ids| + 1
      && var id := n.ids[|b.ids|];
         if c.message != 0 then n == Appended(b, id) && id == IdOr(join, p, c.message, c.unset)
         else
           && n == Appended(b, id).(next := b.next[c.protocol := n.NextOf(c.protocol)])
           && Allocates(join, p, b.NextOf(c.protocol), b.places, c.unset, n.NextOf(c.protocol), id)
  }

  /** An id can be made for the call, or the value left over is not in use. */
  ghost predicate Safe(join: Joiner, b: Book, c: Call) {
    var p := Cut(c.protocol);
    if c.message != 0 then join(p, c.message).Some? || c.unset !in b.places
    else
      || CanMake(join, p, b.NextOf(c.protocol), b.places)
      || (join(p, b.NextOf(c.protocol)).None? && c.unset !in b.places)
  }

  /** A registration leaves map and vector inverse exactly when they were and the call is safe. */
  lemma RegisterKeeps(join: Joiner, b: Book, c: Call, n: Book)
    requires Known(b) && Registers(join, b, c, n)
    ensures Known(n) && (Inverse(n) <==> Inverse(b) && Safe(join, b, c))
  {
    if !Refused(join, b, c) {
      var id := n.ids[|b.ids|];
      AppendKeeps(b, id);
      if c.message == 0 {
        AllocatesNew(join, Cut(c.protocol), b.NextOf(c.protocol), b.places, c.unset, n.NextOf(c.protocol), id);
        assert Inverse(n) <==> Inverse(Appended(b, id));
      }
    }
  }

  /** The calls take the first book to each of the following ones. */
  ghost predicate Run(join: Joiner, books: seq<Book>, calls: seq<Call>) {
    && |books| == |calls| + 1 && books[0] == FRESH
    && forall k :: 0 <= k < |calls| ==> Registers(join, books[k], calls[k], books[k + 1])
  }

  /** After any registrations map and vector are inverse to each other exactly when each of them was safe. */
  lemma {:induction false} RunKeeps(join: Joiner, books: seq<Book>, calls: seq<Call>)
    requires Run(join, books, calls)
    ensures Known(books[|calls|])
    ensures Inverse(books[|calls|]) <==> forall k :: 0 <= k < |calls| ==> Safe(join, books[k], calls[k])
    decreases |calls|
  {
    if calls != [] {
      var n := |calls| - 1;
      RunKeeps(join, books[..n + 1], calls[..n]);
      RegisterKeeps(join, books[n], calls[n], books[n + 1]);
      assert forall k :: 0 <= k < n ==> books[..n + 1][k] == books[k] && calls[..n][k] == calls[k];
    }
  }

  /** A protocol id of at most 30 bits has an id left while fewer than 2^32 message ids were gone through. */
  lemma RoomIsLeft(join: Joiner, p: nat, from: nat, places: map<nat, nat>)
    requires Injective(join) && Narrow(join) && p < 0x4000_0000 && from + |places.Keys| < 0x1_0000_0000
    ensures CanMake(join, p, from, places)
  {
    if !CanMake(join, p, from, places) {
      AllTaken(join, p, from, from + |places.Keys| + 1, places);
      EndsSoon(join, p, from, from + |places.Keys| + 1, places);
    }
  }

  lemma {:induction false} AllTaken(join: Joiner, p: nat, from: nat, end: nat, places: map<nat, nat>)
    requires Narrow(join) && p < 0x4000_0000 && from <= end <= 0x1_0000_0000 && !CanMake(join, p, from, places)
    ensures Taken(join, p, from, end, places)
    decreases end
  {
    if end > from {
      AllTaken(join, p, from, end - 1, places);
      assert NarrowAt(join, p, end - 1);
      assert !FreeAt(join, p, end - 1, places);
      TakenMore(join, p, from, end - 1, places);
    }
  }

  lemma WideProtocolAppends(join: Joiner, b: Book, c: Call, n: Book)
    requires Narrow(join) && Registers(join, b, c, n) && Cut(c.protocol) >= 0x4000_0000
    ensures n.ids == b.ids + [c.unset] && n.places == b.places[c.unset := |b.ids|]
  {
    var p := Cut(c.protocol);
    forall m: nat ensures join(p, m).None? { assert NarrowAt(join, p, m); }
    assert !TakenAt(join, p, b.NextOf(c.protocol), b.places);
  }

  /** Two registrations for protocol ids that do not fit in 30 bits, with any message ids: both types are appended,
      under whatever the variable held. Map and vector come apart exactly when it held 0, the null pointer's id, or
      the same value twice. */
  lemma WideProtocolRun(join: Joiner, books: seq<Book>, calls: seq<Call>)
    requires Narrow(join) && Run(join, books, calls) && |calls| == 2
    requires forall k :: 0 <= k < 2 ==> Cut(calls[k].protocol) >= 0x4000_0000
    ensures books[2].ids == [0, calls[0].unset, calls[1].unset]
    ensures Inverse(books[2]) <==> calls[0].unset != 0 && calls[1].unset != 0 && calls[0].unset != calls[1].unset
  {
    WideProtocolAppends(join, books[0], calls[0], books[1]);
    WideProtocolAppends(join, books[1], calls[1], books[2]);
    var once := Appended(FRESH, calls[0].unset);
    AppendedTwice(calls[0].unset, calls[1].unset);
    SameInverse(books[2], Appended(once, calls[1].unset));
  }

  lemma AppendedTwice(u: nat, v: nat)
    ensures Inverse(Appended(Appended(FRESH, u), v)) <==> u != 0 && v != 0 && u != v
  {
    AppendKeeps(FRESH, u);
    AppendKeeps(Appended(FRESH, u), v);
  }

  lemma SameInverse(b: Book, n: Book)
    requires b.ids == n.ids && b.places == n.places
    ensures Inverse(b) <==> Inverse(n)
  {
  }

  /** Such a run: protocol 2^30 and any message, the variable holding the same value twice. */
  lemma WideProtocolExample(join: Joiner, message: nat, unset: nat)
    requires Narrow(join) && message != 0
    ensures var c := Call(0x4000_0000, message, unset);
            var once := Appended(FRESH, unset);
            var books := [FRESH, once, Appended(once, unset)];
            Run(join, books, [c, c]) && !Inverse(books[2])
  {
    var once := Appended(FRESH, unset);
    WideCallAppends(join, FRESH, message, unset);
    WideCallAppends(join, once, message, unset);
    AppendedTwice(unset, unset);
  }

  lemma WideCallAppends(join: Joiner, b: Book, message: nat, unset: nat)
    requires Narrow(join) && message != 0
    ensures Registers(join, b, Call(0x4000_0000, message, unset), Appended(b, unset))
  {
    assert NarrowAt(join, 0x4000_0000, message);
  }

  /** The loop of doAllocateNewIndex, from message id `from` on: it terminates. */
  method FirstFree(join: Joiner, p: nat, from: nat, places: map<nat, nat>, unset: nat) returns (current: nat, id: nat)
    requires Injective(join) && p < 0x1_0000_0000
    ensures Allocates(join, p, from, places, unset, current, id)
  {
    current, id := from, unset;
    while true
      invariant from <= current && Taken(join, p, from, current, places)
      invariant if current == from then id == unset else join(p, current - 1) == Some(id)
      decreases from + |places.Keys| - current
    {
      var made := join(p, current);
      if made.None? { return; }
      id, current := made.value, current + 1;
      if id !in places { return; }
      TakenMore(join, p, from, current - 1, places);
      EndsSoon(join, p, from, current, places);
    }
  }

  class TypeIdMap {
    /** How ids are made; joinTypeId */
    const join: Joiner
    /** The id of each registered type; the place of each id; the next message id of each protocol */
    var ids: seq<nat>
    var places: map<nat, nat>
    var next: map<nat, nat>

    ghost function View(): Book
      reads this
    {
      Book(ids, places, next)
    }

    ghost predicate Valid()
      reads this
    {
      Injective(join) && Known(View())
    }

    constructor ()
      ensures Valid() && View() == FRESH && Inverse(FRESH) && join == Join && Narrow(join)
    {
      join, ids, places, next := Join, [0], map[0 := 0], map[];
      new;
      JoinWorks();
      JoinIsNarrow();
    }

    function NextOf(protocol: nat): nat
      reads this
    {
      if protocol in next then next[protocol] else 0
    }

    /** doAllocateNewIndex, into a variable that held `unset`. The protocol id is cut to 32 bits. */
    method Allocate(protocol: nat, unset: nat) returns (id: nat)
      requires Valid()
      modifies this`next
      ensures Valid() && next == old(next)[protocol := NextOf(protocol)]
      ensures Allocates(join, Cut(protocol), old(NextOf(protocol)), places, unset, NextOf(protocol), id)
      ensures id !in places <==> CanMake(join, Cut(protocol), old(NextOf(protocol)), places)
                                 || (join(Cut(protocol), old(NextOf(protocol))).None? && unset !in places)
    {
      var current;
      current, id := FirstFree(join, Cut(protocol), NextOf(protocol), places, unset);
      AllocatesNew(join, Cut(protocol), NextOf(protocol), places, unset, current, id);
      next := next[protocol := current];
    }

    /** doFindTypeIndex: the id, if it can be made, and whether it is taken */
    method Find(protocol: nat, message: nat) returns (id: Option<nat>, found: bool)
      ensures id == join(Cut(protocol), message) && (found <==> TakenAt(join, Cut(protocol), message, places))
    {
      id := join(Cut(protocol), message);
      found := id.Some? && id.value in places;
    }

    /** doRegisterType */
    method Register(protocol: nat, message: nat, unset: nat) returns (place: Option<nat>)
      requires Valid()
      modifies this
      ensures Valid() && Registers(join, old(View()), Call(protocol, message, unset), View())
      ensures place == if old(Refused(join, View(), Call(protocol, message, unset))) then None else Some(|old(ids)|)
      ensures place.Some? && message != 0 ==> ids[place.value] == IdOr(join, Cut(protocol), message, unset)
      ensures Inverse(View()) <==> old(Inverse(View())) && old(Safe(join, View(), Call(protocol, message, unset)))
    {
      ghost var before, call := View(), Call(protocol, message, unset);
      var it := unset;
      if message == 0 {
        it := Allocate(protocol, unset);
      } else {
        var id, found := Find(protocol, message);
        if found {
          RegisterKeeps(join, before, call, before);
          return None;
        }
        if id.Some? { it := id.value; }
      }
      var vecidx := |ids|;
      places := places[it := vecidx];
      ids := ids + [it];
      RegisterKeeps(join, before, call, View());
      return Some(vecidx);
    }
  }
}
