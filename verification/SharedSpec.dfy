/**
 One item of the shared store on values: its counts, its lock state and its queue of waiters,
 and what each critical section makes of them.
 */
module SharedSpec {
  import opened Common

  datatype Kind = Alive | Shared | Unique | Reinit

  datatype Lock = Unlocked | UniqueLock | SharedLock

  datatype Waiter = Waiter(kind: Kind, id: nat)

  datatype Stub = Stub(uid: nat, alivecnt: nat, usecnt: nat, state: Lock, waiters: seq<Waiter>)

  const FRESH_STUB: Stub := Stub(0, 0, 0, Unlocked, [])

  const UID_COUNT := 0x1_0000_0000

  /** doTryGetAlive, doTryGetShared, doTryGetUnique, doTryGetReinit: the stub after a grant, or no grant */
  function TryGet(s: Stub, k: Kind): Option<Stub> {
    match k
    case Alive => Some(s.(alivecnt := s.alivecnt + 1, state := UniqueLock))
    case Shared => if s.state.SharedLock? && s.waiters == [] then Some(s.(usecnt := s.usecnt + 1)) else None
    case Unique => if s.usecnt == 0 then Some(s.(usecnt := 1, state := UniqueLock)) else None
    case Reinit =>
      if s.usecnt == 0 && s.alivecnt == 0 && s.waiters == [] then Some(s.(usecnt := 1, state := UniqueLock)) else None
  }

  /** doSwitchUniqueToShared */
  function Switch(s: Stub): Option<Stub> {
    if s.state.UniqueLock? then Some(s.(state := SharedLock)) else None
  }

  /** doPushWait */
  function PushWait(s: Stub, w: Waiter): Stub {
    s.(waiters := s.waiters + [w])
  }

  /** doDecrementObjectUseCount for a pointer whose generation is the item's */
  function Decrement(s: Stub, alive: bool): Stub
    requires if alive then s.alivecnt > 0 else s.usecnt > 0
  {
    if alive then s.(alivecnt := s.alivecnt - 1) else s.(usecnt := s.usecnt - 1)
  }

  // ---- doExecuteErase

  predicate Deliverable(s: Stub, k: Kind) {
    match k
    case Alive => false
    case Unique => s.usecnt == 0
    case Shared => s.usecnt == 0 || s.state.SharedLock?
    case Reinit => s.usecnt == 0 && s.alivecnt == 0
  }

  function Deliver(s: Stub): Stub
    requires s.waiters != []
  {
    s.(usecnt := s.usecnt + 1, waiters := s.waiters[1..],
       state := if s.waiters[0].kind.Shared? then SharedLock else UniqueLock)
  }

  datatype Drained = Drained(stub: Stub, granted: seq<Waiter>)

  function Drain(s: Stub): Drained
    decreases |s.waiters|
  {
    if s.waiters != [] && Deliverable(s, s.waiters[0].kind)
    then var d := Drain(Deliver(s)); Drained(d.stub, [s.waiters[0]] + d.granted)
    else Drained(s, [])
  }

  predicate CanClear(s: Stub) {
    s.usecnt == 0 && s.alivecnt == 0 && s.waiters == []
  }

  /** Stub::clear; the generation is a 32-bit number */
  function Clear(s: Stub): Stub {
    s.(uid := (s.uid + 1) % UID_COUNT, state := Unlocked)
  }

  // ---- What draining does

  lemma HeadBack(ws: seq<Waiter>, a: seq<Waiter>, b: seq<Waiter>)
    requires ws != [] && a + b == ws[1..]
    ensures ([ws[0]] + a) + b == ws
  {
    assert ([ws[0]] + a) + b == [ws[0]] + (a + b);
  }

  /** A prefix of the queue is granted, in order, and the rest stays. */
  lemma {:induction false} DrainTakesPrefix(s: Stub)
    ensures Drain(s).granted + Drain(s).stub.waiters == s.waiters
    ensures Drain(s).stub.uid == s.uid && Drain(s).stub.alivecnt == s.alivecnt
    ensures Drain(s).stub.usecnt == s.usecnt + |Drain(s).granted|
    decreases |s.waiters|
  {
    if s.waiters != [] && Deliverable(s, s.waiters[0].kind) {
      DrainTakesPrefix(Deliver(s));
      var d := Drain(Deliver(s));
      HeadBack(s.waiters, d.granted, d.stub.waiters);
    }
  }

  /** Draining stops only at a waiter that cannot be served, so a second drain grants nothing. */
  lemma {:induction false} DrainStops(s: Stub)
    ensures var t := Drain(s).stub;
            t.waiters == [] || !Deliverable(t, t.waiters[0].kind)
    ensures Drain(Drain(s).stub) == Drained(Drain(s).stub, [])
    decreases |s.waiters|
  {
    if s.waiters != [] && Deliverable(s, s.waiters[0].kind) { DrainStops(Deliver(s)); }
  }

  /** One drain grants one exclusive waiter alone, or only shared waiters. */
  lemma {:induction false} DrainGrantsCompatible(s: Stub)
    ensures var g := Drain(s).granted;
            |g| > 1 ==> forall i :: 0 <= i < |g| ==> g[i].kind == Shared
    ensures s.usecnt > 0 ==> forall i :: 0 <= i < |Drain(s).granted| ==> Drain(s).granted[i].kind == Shared
    decreases |s.waiters|
  {
    if s.waiters != [] && Deliverable(s, s.waiters[0].kind) {
      DrainGrantsCompatible(Deliver(s));
      DrainAfterExclusive(Deliver(s));
    }
  }

  lemma DrainAfterExclusive(s: Stub)
    ensures s.usecnt > 0 && s.state.UniqueLock? ==> Drain(s).granted == []
  {
  }
}
