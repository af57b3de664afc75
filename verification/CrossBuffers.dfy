/** crossStore and crossLoad on a byte buffer; the source's switch over the length is a loop here. */
module CrossBuffers {
  import opened Common
  import opened BitWords
  import opened CheckedWords
  import opened CrossCodec

  lemma DigitStep(done: seq<nat>, rest: nat, k: nat)
    requires k > 0
    ensures done + Digits(rest, k) == (done + [rest % 0x100]) + Digits(rest / 0x100, k - 1)
  {
  }

  /** The body of the switch: `n` bytes of a value, lowest first */
  method DigitsAt(buf: array<nat>, at: nat, v: nat, n: nat)
    requires at + n <= buf.Length
    modifies buf
    ensures buf[at..at + n] == Digits(v, n)
    ensures forall j :: 0 <= j < buf.Length && !(at <= j < at + n) ==> buf[j] == old(buf[j])
  {
    var rest, i := v, 0;
    while i < n
      invariant 0 <= i <= n
      invariant buf[at..at + i] + Digits(rest, n - i) == Digits(v, n)
      invariant forall j :: 0 <= j < buf.Length && !(at <= j < at + n) ==> buf[j] == old(buf[j])
    {
      ghost var done := buf[at..at + i];
      DigitStep(done, rest, n - i);
      buf[at + i] := rest % 0x100;
      assert buf[at..at + i + 1] == done + [rest % 0x100];
      rest := rest / 0x100;
      i := i + 1;
    }
    assert buf[at..at + n] == buf[at..at + n] + Digits(rest, 0);
  }

  /** Writes a value at `at` and returns the position after it. */
  method StoreAt(buf: array<nat>, at: nat, width: nat, v: nat) returns (next: nat)
    requires Width(width) && v < Pow2(8 * width) && at + Size(width, v) <= buf.Length
    modifies buf
    ensures next == at + Size(width, v) && buf[at..next] == Store(width, v)
    ensures forall j :: 0 <= j < buf.Length && !(at <= j < next) ==> buf[j] == old(buf[j])
  {
    var n := ByteCount(v, 8 * width);
    var head := FirstByte(width, v, n);
    next := PutAt(buf, at, head, v, n);
  }

  method PutAt(buf: array<nat>, at: nat, head: nat, v: nat, n: nat) returns (next: nat)
    requires at + 1 + n <= buf.Length
    modifies buf
    ensures next == at + n + 1 && buf[at..next] == [head] + Digits(v, n)
    ensures forall j :: 0 <= j < buf.Length && !(at <= j < next) ==> buf[j] == old(buf[j])
  {
    buf[at] := head;
    DigitsAt(buf, at + 1, v, n);
    next := at + 1 + n;
    assert buf[at..next] == [buf[at]] + buf[at + 1..at + 1 + n];
  }

  /** The checked length; None, for which the source gives up, cannot occur. */
  method FirstByte(width: nat, v: nat, n: nat) returns (head: nat)
    requires Width(width) && v < Pow2(8 * width) && n == ByteCount(v, 8 * width)
    ensures Store(width, v) == [head] + Digits(v, n)
  {
    ByteCountIsLeast(v, 8 * width);
    Header(n);
    head := Compute(3, 5, n).value;
  }

  lemma {:induction false} NumberAppend(b: seq<nat>, x: nat)
    ensures Number(b + [x]) == Number(b) + Pow2(8 * |b|) * x
    decreases |b|
  {
    if b == [] {
      assert b + [x] == [x] && [x][1..] == [];
      assert Number([x]) == x;
    } else {
      assert (b + [x])[1..] == b[1..] + [x];
      NumberAppend(b[1..], x);
      Pow2Byte(|b|);
      ScaleProduct(Pow2(8 * (|b| - 1)), x);
    }
  }

  lemma ScaleProduct(p: nat, x: nat)
    ensures (0x100 * p) * x == 0x100 * (p * x)
  {
  }

  /** Reads a value at `at`; None where the source returns no position. */
  method LoadAt(buf: array<nat>, at: nat, width: nat) returns (r: Option<Loaded>)
    requires at < buf.Length
    requires Check(3, buf[at]).Some? && Check(3, buf[at]).value <= width ==> at + Check(3, buf[at]).value < buf.Length
    ensures r == Load(width, buf[at..])
  {
    ghost var b := buf[at..];
    var n := High(buf[at], 3);
    assert b[0] == buf[at];
    if Ones(n) != Low(buf[at], 3) || n > width { return None; }
    var value := LoadDigits(buf, at, n);
    return Some(Loaded(value, n + 1));
  }

  /** The loop of loadWithCheck over the bytes after the first */
  method LoadDigits(buf: array<nat>, at: nat, n: nat) returns (value: nat)
    requires at + n < buf.Length
    ensures value == Number(buf[at..][1..n + 1])
  {
    ghost var b := buf[at..];
    var place, i := 1, 0;
    value := 0;
    while i < n
      invariant 0 <= i <= n
      invariant value == Number(b[1..i + 1]) && place == Pow2(8 * i)
    {
      DigitRead(b, i);
      value := value + place * buf[at + 1 + i];
      Pow2Byte(i + 1);
      place := 0x100 * place;
      i := i + 1;
    }
  }

  lemma DigitRead(b: seq<nat>, i: nat)
    requires i + 1 < |b|
    ensures Number(b[1..i + 2]) == Number(b[1..i + 1]) + Pow2(8 * i) * b[i + 1]
  {
    NumberAppend(b[1..i + 1], b[i + 1]);
    assert b[1..i + 2] == b[1..i + 1] + [b[i + 1]];
  }
}
