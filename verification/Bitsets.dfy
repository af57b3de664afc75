/** The two loops that move a bitset to and from a buffer. */
module Bitsets {
  import opened Common
  import opened BitWords
  import opened CheckedWords
  import opened BitPacking

  lemma ByteDone(bits: seq<bool>, low: nat)
    requires low + 8 <= |bits|
    ensures Pack(bits[low..]) == [FromBits(bits[low..low + 8])] + Pack(bits[low + 8..])
  {
    var rest := bits[low..];
    assert rest[..8] == bits[low..low + 8] && rest[8..] == bits[low + 8..];
    if |rest| == 8 { assert rest[..8] == rest && rest[8..] == []; }
  }

  lemma LastByte(bits: seq<bool>, low: nat)
    requires low < |bits| <= low + 8
    ensures Pack(bits[low..]) == [FromBits(bits[low..|bits|])]
  {
    assert bits[low..] == bits[low..|bits|];
  }

  /** Whole bytes `out` are written and `bitoff` bits of the next, whose value so far is `cur`. */
  predicate Written(bits: seq<bool>, from: nat, out: seq<nat>, cur: nat, s: nat, bitoff: nat) {
    && bitoff < 8 && from <= s <= |bits| && s == from + 8 * |out| + bitoff
    && (bitoff > 0 ==> cur == FromBits(bits[s - bitoff..s]))
    && Pack(bits[from..]) == out + Pack(bits[s - bitoff..])
  }

  function WithBit(cur: nat, bit: bool, bitoff: nat): nat {
    (if bitoff == 0 then 0 else cur) + if bit then Pow2(bitoff) else 0
  }

  lemma BitWritten(bits: seq<bool>, from: nat, out: seq<nat>, cur: nat, s: nat, bitoff: nat)
    requires Written(bits, from, out, cur, s, bitoff) && s < |bits|
    ensures var c := WithBit(cur, bits[s], bitoff);
            if bitoff == 7 then Written(bits, from, out + [c], 0, s + 1, 0)
            else Written(bits, from, out, c, s + 1, bitoff + 1)
  {
    var low := s - bitoff;
    var c := WithBit(cur, bits[s], bitoff);
    NextBit(bits, low, s, cur, bitoff);
    if bitoff == 7 {
      ByteDone(bits, low);
      Regroup(out, [c], Pack(bits[low + 8..]));
    }
  }

  lemma NextBit(bits: seq<bool>, low: nat, s: nat, cur: nat, bitoff: nat)
    requires low + bitoff == s < |bits| && (bitoff > 0 ==> cur == FromBits(bits[low..s]))
    ensures WithBit(cur, bits[s], bitoff) == FromBits(bits[low..s + 1])
  {
    FromBitsAppend(bits[low..s], bits[s]);
    assert bits[low..s] + [bits[s]] == bits[low..s + 1];
  }

  lemma AllWritten(bits: seq<bool>, from: nat, out: seq<nat>, cur: nat, s: nat, bitoff: nat, room: nat)
    requires Written(bits, from, out, cur, s, bitoff) && |out| <= room && (bitoff > 0 ==> |out| < room)
    requires s == |bits| || |out| == room
    ensures s == |bits| ==> Stored(if bitoff > 0 then out + [cur] else out, s) == StoreInto(bits, from, room)
    ensures s < |bits| ==> bitoff == 0 && Stored(out, s) == StoreInto(bits, from, room)
  {
    StoreStep(bits, from, room);
    if s == |bits| {
      if bitoff > 0 { LastByte(bits, s - bitoff); }
      else { assert bits[s..] == [] && out + [] == out; }
    } else {
      assert Pack(bits[from..])[..room] == out;
    }
  }

  /** One turn of the loop: the next bit goes into the byte at `at`, which is cleared for its first bit. */
  method StoreBit(bits: seq<bool>, ghost from: nat, buf: array<nat>, ghost begin: nat, be: nat, i: nat, at: nat,
                  off: nat)
    returns (s: nat, cpb: nat, bitoff: nat)
    requires begin <= at < be <= buf.Length && i < |bits| && Written(bits, from, buf[begin..at], buf[at], i, off)
    modifies buf
    ensures s == i + 1 && begin <= cpb <= be && (bitoff > 0 ==> cpb < be)
    ensures Written(bits, from, buf[begin..cpb], if cpb < be then buf[cpb] else 0, s, bitoff)
    ensures forall j :: 0 <= j < buf.Length && !(begin <= j < be) ==> buf[j] == old(buf[j])
  {
    ghost var out := buf[begin..at];
    BitWritten(bits, from, out, buf[at], i, off);
    if off == 0 { buf[at] := 0; }
    buf[at] := buf[at] + if bits[i] then Pow2(off) else 0;
    s, cpb, bitoff := i + 1, at, off + 1;
    if bitoff == 8 {
      assert buf[begin..at + 1] == out + [buf[at]];
      cpb, bitoff := at + 1, 0;
    } else {
      assert buf[begin..at] == out;
    }
  }

  /** Its loop: bit after bit, until the buffer is full or the bits are all written */
  method FillBits(bits: seq<bool>, from: nat, buf: array<nat>, begin: nat, be: nat)
    returns (s: nat, cpb: nat, bitoff: nat)
    requires from <= |bits| && begin <= be <= buf.Length
    modifies buf
    ensures begin <= cpb <= be && (bitoff > 0 ==> cpb < be) && (s == |bits| || cpb == be)
    ensures Written(bits, from, buf[begin..cpb], if cpb < be then buf[cpb] else 0, s, bitoff)
    ensures forall j :: 0 <= j < buf.Length && !(begin <= j < be) ==> buf[j] == old(buf[j])
  {
    s, cpb, bitoff := from, begin, 0;
    while cpb < be && s < |bits|
      invariant begin <= cpb <= be && (bitoff > 0 ==> cpb < be)
      invariant Written(bits, from, buf[begin..cpb], if cpb < be then buf[cpb] else 0, s, bitoff)
      invariant forall j :: 0 <= j < buf.Length && !(begin <= j < be) ==> buf[j] == old(buf[j])
      decreases |bits| - s
    {
      s, cpb, bitoff := StoreBit(bits, from, buf, begin, be, s, cpb, bitoff);
    }
  }

  /** storeBitsetContinue: writes from bit `from` on, until the buffer is full or the bits are all written. */
  method StoreBits(bits: seq<bool>, from: nat, buf: array<nat>, begin: nat, be: nat)
    returns (done: bool, s: nat, cpb: nat)
    requires from <= |bits| && begin <= be <= buf.Length
    modifies buf
    ensures begin <= cpb <= be && (done <==> s == |bits|)
    ensures Stored(buf[begin..cpb], s) == StoreInto(bits, from, be - begin)
    ensures forall j :: 0 <= j < buf.Length && !(begin <= j < be) ==> buf[j] == old(buf[j])
  {
    var bitoff;
    s, cpb, bitoff := FillBits(bits, from, buf, begin, be);
    AllWritten(bits, from, buf[begin..cpb], if cpb < be then buf[cpb] else 0, s, bitoff, be - begin);
    done := s == |bits|;
    if done && bitoff > 0 {
      assert buf[begin..cpb + 1] == buf[begin..cpb] + [buf[cpb]];
      cpb := cpb + 1;
    }
  }

  /** The n-th bit of some bytes */
  function BitAt(buf: seq<nat>, n: nat): bool {
    n / 8 < |buf| && BitOf(buf[n / 8], n % 8)
  }

  lemma BitAtIs(buf: seq<nat>, cpb: nat, bitoff: nat)
    requires cpb < |buf| && bitoff < 8
    ensures BitAt(buf, 8 * cpb + bitoff) <==> High(buf[cpb], bitoff) % 2 == 1
  {
    assert (8 * cpb + bitoff) / 8 == cpb && (8 * cpb + bitoff) % 8 == bitoff;
  }

  /** `now` has the bits from `from` up to `s` out of `buf`, and `was` elsewhere. */
  predicate Read(was: seq<bool>, now: seq<bool>, from: nat, s: nat, buf: seq<nat>) {
    |now| == |was| && from <= s <= |was|
    && forall i :: 0 <= i < |was| ==> now[i] == if from <= i < s then BitAt(buf, i - from) else was[i]
  }

  lemma ReadMore(was: seq<bool>, now: seq<bool>, from: nat, s: nat, buf: seq<nat>, cpb: nat, bitoff: nat)
    requires Read(was, now, from, s, buf) && s < |was| && s == from + 8 * cpb + bitoff && bitoff < 8 && cpb < |buf|
    ensures Read(was, now[s := High(buf[cpb], bitoff) % 2 == 1], from, s + 1, buf)
  {
    BitAtIs(buf, cpb, bitoff);
  }

  /** Exactly the bits that the buffer holds were read, and those after `len` are as they were. */
  lemma ReadAll(was: seq<bool>, now: seq<bool>, len: nat, from: nat, s: nat, buf: seq<nat>)
    requires Read(was, now, from, s, buf) && s <= len <= |was|
    requires s == if from + 8 * |buf| < len then from + 8 * |buf| else len
    ensures Loaded(now[..len], s) == LoadFrom(was[..len], from, buf) && now[len..] == was[len..]
  {
  }

  /** loadBitsetContinue: reads the bits from `from` to `len`, until the buffer is used up; the bits of a
      longer set stay as they are. */
  method LoadBits(bits: array<bool>, len: nat, from: nat, buf: seq<nat>) returns (done: bool, s: nat, cpb: nat)
    requires from <= len <= bits.Length
    modifies bits
    ensures cpb <= |buf| && Loaded(bits[..len], s) == LoadFrom(old(bits[..len]), from, buf)
    ensures bits[len..] == old(bits[len..])
    ensures done <==> s == len
    ensures !done ==> cpb == |buf| && s == from + 8 * |buf|
    ensures done ==> s - from <= 8 * cpb < s - from + 8
  {
    ghost var was := bits[..];
    var bitoff := 0;
    s, cpb := from, 0;
    while cpb < |buf| && s < len
      invariant 0 <= cpb <= |buf| && from <= s <= len && bitoff < 8 && (bitoff > 0 ==> cpb < |buf|)
      invariant s == from + 8 * cpb + bitoff && Read(was, bits[..], from, s, buf)
      decreases len - s
    {
      ReadMore(was, bits[..], from, s, buf, cpb, bitoff);
      bits[s] := High(buf[cpb], bitoff) % 2 == 1;
      s, bitoff := s + 1, bitoff + 1;
      if bitoff == 8 { cpb, bitoff := cpb + 1, 0; }
    }
    ReadAll(was, bits[..], len, from, s, buf);
    assert bits[..][..len] == bits[..len] && was[..len] == old(bits[..len]);
    assert bits[..][len..] == bits[len..] && was[len..] == old(bits[len..]);
    done := s == len;
    if done && bitoff > 0 { cpb := cpb + 1; }
  }
}
