/** Bits packed into bytes, eight to a byte, lowest first; and packing and unpacking that stop at the end of
    one buffer and go on in the next. */
module BitPacking {
  import opened Common
  import opened BitWords
  import opened CheckedWords

  function Pack(bits: seq<bool>): seq<nat>
    decreases |bits|
  {
    if bits == [] then [] else if |bits| <= 8 then [FromBits(bits)] else [FromBits(bits[..8])] + Pack(bits[8..])
  }

  /** Bit `j` of a byte: the test with the mask 1 << j */
  predicate BitOf(byte: nat, j: nat) {
    High(byte, j) % 2 == 1
  }

  /** `bits` are the first bits of the bytes. */
  predicate Unpacks(bytes: seq<nat>, bits: seq<bool>) {
    |bits| <= 8 * |bytes| && forall i :: 0 <= i < |bits| ==> bits[i] == BitOf(bytes[i / 8], i % 8)
  }

  lemma {:induction false} BitOfBits(b: seq<bool>, j: nat)
    requires j < |b|
    ensures BitOf(FromBits(b), j) == b[j]
    decreases j
  {
    if j > 0 { BitOfBits(b[1..], j - 1); }
  }

  lemma {:induction false} FromBitsAppend(b: seq<bool>, x: bool)
    ensures FromBits(b + [x]) == FromBits(b) + if x then Pow2(|b|) else 0
    decreases |b|
  {
    if b == [] {
      assert b + [x] == [x] && [x][1..] == [];
      assert FromBits([x]) == if x then 1 else 0;
    } else {
      assert (b + [x])[1..] == b[1..] + [x];
      FromBitsAppend(b[1..], x);
    }
  }

  lemma {:induction false} PackLength(bits: seq<bool>)
    ensures 8 * |Pack(bits)| < |bits| + 8 && |bits| <= 8 * |Pack(bits)|
    decreases |bits|
  {
    if |bits| > 8 { PackLength(bits[8..]); }
  }

  /** Byte by byte: a byte of the packed form holds eight of the bits, the last one what is left. */
  lemma {:induction false} PackAt(bits: seq<bool>, k: nat)
    requires 8 * k < |bits|
    ensures k < |Pack(bits)|
    ensures Pack(bits)[k] == FromBits(bits[8 * k..if |bits| <= 8 * k + 8 then |bits| else 8 * k + 8])
    decreases k
  {
    var end := if |bits| <= 8 * k + 8 then |bits| else 8 * k + 8;
    if k == 0 {
      if |bits| <= 8 { assert bits[0..|bits|] == bits; } else { assert bits[0..8] == bits[..8]; }
    } else {
      PackAt(bits[8..], k - 1);
      assert bits[8..][8 * (k - 1)..end - 8] == bits[8 * k..end];
      assert |bits[8..]| == |bits| - 8;
    }
  }

  /** Unpacking undoes packing. */
  lemma UnpackUndoesPack(bits: seq<bool>)
    ensures Unpacks(Pack(bits), bits)
  {
    PackLength(bits);
    forall i | 0 <= i < |bits| ensures bits[i] == BitOf(Pack(bits)[i / 8], i % 8) {
      var k := i / 8;
      PackAt(bits, k);
      var end := if |bits| <= 8 * k + 8 then |bits| else 8 * k + 8;
      BitOfBits(bits[8 * k..end], i % 8);
      assert bits[8 * k..end][i % 8] == bits[i];
    }
  }

  /** ... and nothing else unpacks from the same bytes. */
  lemma UnpackIsUnique(bytes: seq<nat>, a: seq<bool>, b: seq<bool>)
    requires Unpacks(bytes, a) && Unpacks(bytes, b) && |a| == |b|
    ensures a == b
  {
  }

  // ---- One buffer after another

  lemma {:induction false} PackTail(bits: seq<bool>, room: nat)
    requires 8 * room < |bits|
    ensures room <= |Pack(bits)| && Pack(bits) == Pack(bits)[..room] + Pack(bits[8 * room..])
    decreases room
  {
    if room == 0 {
      assert bits[0..] == bits;
    } else {
      PackTail(bits[8..], room - 1);
      assert bits[8..][8 * (room - 1)..] == bits[8 * room..];
      var p := Pack(bits[8..]);
      assert Pack(bits)[..room] == [FromBits(bits[..8])] + p[..room - 1];
      assert Pack(bits) == [FromBits(bits[..8])] + (p[..room - 1] + Pack(bits[8 * room..]));
    }
  }

  datatype Stored = Stored(out: seq<nat>, next: nat)

  /** What one buffer with `room` bytes takes, from bit `s` on, and where the next one goes on */
  function StoreInto(bits: seq<bool>, s: nat, room: nat): Stored
    requires s <= |bits|
  {
    Stored(Prefix(Pack(bits[s..]), room), if s + 8 * room < |bits| then s + 8 * room else |bits|)
  }

  function StoreAll(bits: seq<bool>, s: nat, rooms: seq<nat>): seq<nat>
    requires s <= |bits|
    decreases |rooms|
  {
    if rooms == [] then [] else
      var one := StoreInto(bits, s, rooms[0]);
      one.out + StoreAll(bits, one.next, rooms[1..])
  }

  lemma StoreStep(bits: seq<bool>, s: nat, room: nat)
    requires s <= |bits|
    ensures var one := StoreInto(bits, s, room);
            && one.next <= |bits|
            && Pack(bits[s..]) == one.out + Pack(bits[one.next..])
            && (one.next < |bits| ==> |one.out| == room && one.next == s + 8 * room)
  {
    var rest := bits[s..];
    if s + 8 * room < |bits| {
      PackTail(rest, room);
      assert rest[8 * room..] == bits[s + 8 * room..];
    } else {
      PackLength(rest);
      assert bits[|bits|..] == [];
      assert Pack(rest) + [] == Pack(rest);
    }
  }

  /** Over any sequence of buffer sizes: the bytes of one buffer, cut where the buffers end. */
  lemma {:induction false} PiecesArePacked(bits: seq<bool>, s: nat, rooms: seq<nat>)
    requires s <= |bits|
    ensures StoreAll(bits, s, rooms) == Prefix(Pack(bits[s..]), Total(rooms))
    decreases |rooms|
  {
    if rooms != [] {
      var one := StoreInto(bits, s, rooms[0]);
      StoreStep(bits, s, rooms[0]);
      PiecesArePacked(bits, one.next, rooms[1..]);
      if one.next < |bits| {
        PrefixJoin(one.out, Pack(bits[one.next..]), Total(rooms[1..]));
      } else {
        assert bits[one.next..] == [] && Pack([]) == [] && Prefix<nat>([], Total(rooms[1..])) == [];
        assert one.out == Pack(bits[s..]);
        PackFits(bits[s..], rooms[0]);
      }
    }
  }

  lemma PackFits(bits: seq<bool>, room: nat)
    ensures |bits| <= 8 * room ==> |Pack(bits)| <= room
  {
    PackLength(bits);
  }

  datatype Loaded = Loaded(bits: seq<bool>, next: nat)

  /** What one buffer of bytes gives, from bit `s` on, and where the next one goes on */
  function LoadFrom(bits: seq<bool>, s: nat, bytes: seq<nat>): Loaded
    requires s <= |bits|
  {
    var end := if s + 8 * |bytes| < |bits| then s + 8 * |bytes| else |bits|;
    Loaded(seq(|bits|, i requires 0 <= i < |bits| =>
               if s <= i < end then BitOf(bytes[(i - s) / 8], (i - s) % 8) else bits[i]), end)
  }

  function LoadAll(bits: seq<bool>, s: nat, chunks: seq<seq<nat>>): Loaded
    requires s <= |bits|
    decreases |chunks|
  {
    if chunks == [] then Loaded(bits, s)
    else
      var one := LoadFrom(bits, s, chunks[0]);
      LoadAll(one.bits, one.next, chunks[1..])
  }

  /** The bits from `s` to `end` are those of some bytes, the others are those of `was` */
  predicate Holds(bits: seq<bool>, was: seq<bool>, s: nat, end: nat, bytes: seq<nat>) {
    && |bits| == |was| && s <= end <= |bits| && end - s <= 8 * |bytes|
    && (forall i :: s <= i < end ==> bits[i] == BitOf(bytes[(i - s) / 8], (i - s) % 8))
    && (forall i :: 0 <= i < |bits| && !(s <= i < end) ==> bits[i] == was[i])
  }

  lemma ShiftedBit(i: nat, s: nat, n: nat)
    requires i >= s + 8 * n
    ensures (i - s) / 8 == n + (i - (s + 8 * n)) / 8 && (i - s) % 8 == (i - (s + 8 * n)) % 8
  {
  }

  lemma JoinedBit(i: nat, s: nat, mid: nat, a: seq<nat>, b: seq<nat>)
    requires s <= i < s + 8 * (|a| + |b|)
    requires i >= mid ==> mid == s + 8 * |a|
    requires i < mid ==> i < s + 8 * |a|
    ensures if i < mid then (a + b)[(i - s) / 8] == a[(i - s) / 8]
            else (a + b)[(i - s) / 8] == b[(i - mid) / 8] && (i - s) % 8 == (i - mid) % 8
  {
    if i >= mid { ShiftedBit(i, s, |a|); }
  }

  lemma HoldsJoin(r: seq<bool>, half: seq<bool>, was: seq<bool>, s: nat, mid: nat, end: nat, a: seq<nat>, b: seq<nat>)
    requires Holds(half, was, s, mid, a) && Holds(r, half, mid, end, b) && (end > mid ==> mid == s + 8 * |a|)
    ensures Holds(r, was, s, end, a + b)
  {
    forall i | s <= i < end ensures r[i] == BitOf((a + b)[(i - s) / 8], (i - s) % 8) {
      JoinedBit(i, s, mid, a, b);
    }
  }

  lemma LoadHolds(bits: seq<bool>, s: nat, bytes: seq<nat>)
    requires s <= |bits|
    ensures Holds(LoadFrom(bits, s, bytes).bits, bits, s, LoadFrom(bits, s, bytes).next, bytes)
  {
  }

  /** However the bytes are cut, every suspension falls between two bytes and the same bits are loaded. */
  lemma {:induction false} PiecesAreLoaded(bits: seq<bool>, s: nat, chunks: seq<seq<nat>>)
    requires s <= |bits|
    ensures var all, r := Flat(chunks), LoadAll(bits, s, chunks);
            && r.next == (if s + 8 * |all| < |bits| then s + 8 * |all| else |bits|)
            && Holds(r.bits, bits, s, r.next, all)
    decreases |chunks|
  {
    if chunks != [] {
      var one, tail := LoadFrom(bits, s, chunks[0]), Flat(chunks[1..]);
      var r := LoadAll(one.bits, one.next, chunks[1..]);
      LoadHolds(bits, s, chunks[0]);
      PiecesAreLoaded(one.bits, one.next, chunks[1..]);
      HoldsJoin(r.bits, one.bits, bits, s, one.next, r.next, chunks[0], tail);
    }
  }

  /** Storing over any buffers that hold the bits and loading the bytes under any other split gives them back. */
  lemma BitsRoundTrip(bits: seq<bool>, target: seq<bool>, rooms: seq<nat>, chunks: seq<seq<nat>>)
    requires |target| == |bits| && |Pack(bits)| <= Total(rooms)
    requires Flat(chunks) == StoreAll(bits, 0, rooms)
    ensures LoadAll(target, 0, chunks).bits == bits
  {
    PiecesArePacked(bits, 0, rooms);
    assert bits[0..] == bits;
    PackLength(bits);
    PiecesAreLoaded(target, 0, chunks);
    UnpackUndoesPack(bits);
    UnpackIsUnique(Pack(bits), LoadAll(target, 0, chunks).bits, bits);
  }
}
