/**
 The manager's object table: two copies of the chunk vector, one current.  Readers count
 themselves on a copy without a lock when they can; the one writer at a time (it holds the
 manager's mutex) takes the other copy exclusively by swapping a zero count for LONG_MIN,
 brings it up to date, appends a chunk and makes it current.

 Threads move one atomic action at a time; a run is any interleaving.
 */
module TableCopies {
  import opened Common

  datatype Side = A | B

  function Other(i: Side): Side {
    if i == A then B else A
  }

  type Tid = nat
  type Chunk = nat

  const LONG_MIN: int := -0x8000_0000_0000_0000

  datatype Copy = Copy(noWantWrite: bool, useCnt: int, vec: seq<Chunk>)

  /** A reader carries the object index it wants to visit and the number of chunks that were
      published when its acquire began. */
  datatype Want = Want(index: nat, published: nat)

  datatype Pc =
    | Idle
    | Fetch(want: Want)                 // load the current side
    | Test(want: Want, side: Side)      // load nowantwrite
    | Add(want: Want, side: Side)       // fetch_add on the count
    | Slow(want: Want)                  // lock the manager's mutex
    | SlowFetch(want: Want)             // the same two loads, under the mutex
    | SlowAdd(want: Want, side: Side)
    | SlowUnlock(want: Want, side: Side)
    | Reading(want: Want, side: Side)   // counted: the copy may be used
    | Locked(chunk: Chunk)              // the writer, holding the mutex
    | Mark(chunk: Chunk, side: Side)    // clear nowantwrite
    | Grab(chunk: Chunk, side: Side)    // compare_exchange 0 -> LONG_MIN
    | Update(chunk: Chunk, side: Side)  // append what the other copy has more
    | Append(chunk: Chunk, side: Side)  // push_back the new chunk
    | Reset(side: Side)                 // count := 0
    | Switch(side: Side)                // make it current
    | Extend                            // raise the object bound
    | Unlock

  /** `strays` are the readers whose fetch_add hit the writer's mark: they have added one to it and
      wait for the mutex. */
  datatype State = State(chunkSize: nat, threads: map<Tid, Pc>, mutex: Option<Tid>, current: Side,
                         a: Copy, b: Copy, maxObjects: nat, strays: set<Tid>)

  function At(s: State, i: Side): Copy {
    if i == A then s.a else s.b
  }

  function Put(s: State, i: Side, c: Copy): State {
    if i == A then s.(a := c) else s.(b := c)
  }

  function Goto(s: State, t: Tid, pc: Pc): State {
    s.(threads := s.threads[t := pc])
  }

  function Published(s: State): nat {
    |At(s, s.current).vec|
  }

  // ---- Who counts where

  predicate HoldsMutex(pc: Pc) {
    !(pc.Idle? || pc.Fetch? || pc.Test? || pc.Add? || pc.Slow? || pc.Reading?)
  }

  /** The writer has put its mark on copy `i` and not yet removed it. */
  predicate Writes(pc: Pc, i: Side) {
    (pc.Update? || pc.Append? || pc.Reset?) && pc.side == i
  }

  predicate Counted(pc: Pc, i: Side) {
    (pc.Reading? || pc.SlowUnlock?) && pc.side == i
  }

  ghost function Readers(s: State, i: Side): set<Tid> {
    set t | t in s.threads && Counted(s.threads[t], i)
  }

  predicate Written(s: State, i: Side) {
    s.mutex.Some? && s.mutex.value in s.threads && Writes(s.threads[s.mutex.value], i)
  }

  // ---- The steps: a visit or a registration starts, or a thread moves on

  datatype Step = Visit(t: Tid, index: nat) | Register(t: Tid, chunk: Chunk) | Move(t: Tid)

  predicate Enabled(s: State, a: Step) {
    && a.t in s.threads
    && match a
       case Visit(t, i) => s.threads[t].Idle?
       case Register(t, c) => s.threads[t].Idle? && s.mutex.None?
       case Move(t) =>
         && !s.threads[t].Idle?
         && (s.threads[t].Slow? ==> s.mutex.None?)
         && (s.threads[t].Grab? ==> At(s, s.threads[t].side).useCnt == 0)
  }

  /** doVisit: an index beyond the bound is refused before the table is touched. */
  function DoVisit(s: State, t: Tid, index: nat): State {
    if index < s.maxObjects then Goto(s, t, Fetch(Want(index, Published(s)))) else s
  }

  /** The lock-free attempt: the count goes up either way; a negative old value means a writer. */
  function DoAdd(s: State, t: Tid, w: Want, i: Side): State {
    var c := At(s, i);
    var s1 := Put(s, i, c.(useCnt := c.useCnt + 1));
    if c.useCnt >= 0 then Goto(s1, t, Reading(w, i))
    else Goto(s1, t, Slow(w)).(strays := s.strays + {t})
  }

  function DoSlowAdd(s: State, t: Tid, w: Want, i: Side): State {
    var c := At(s, i);
    Goto(Put(s, i, c.(useCnt := c.useCnt + 1)), t, SlowUnlock(w, i))
  }

  function DoRelease(s: State, t: Tid, i: Side): State {
    var c := At(s, i);
    Goto(Put(s, i, c.(useCnt := c.useCnt - 1)), t, Idle)
  }

  /** insert(end, other.begin() + size, other.end()) */
  function Updated(mine: seq<Chunk>, theirs: seq<Chunk>): seq<Chunk> {
    if |mine| <= |theirs| then mine + theirs[|mine|..] else mine
  }

  function DoMove(s: State, t: Tid): State
    requires Enabled(s, Move(t))
  {
    match s.threads[t]
    case Idle => s
    case Fetch(w) => Goto(s, t, Test(w, s.current))
    case Test(w, i) => Goto(s, t, if At(s, i).noWantWrite then Add(w, i) else Slow(w))
    case Add(w, i) => DoAdd(s, t, w, i)
    case Slow(w) => Goto(s, t, SlowFetch(w)).(mutex := Some(t))
    case SlowFetch(w) => Goto(s, t, SlowAdd(w, s.current))
    case SlowAdd(w, i) => DoSlowAdd(s, t, w, i)
    case SlowUnlock(w, i) => Goto(s, t, Reading(w, i)).(mutex := None)
    case Reading(w, i) => DoRelease(s, t, i)
    case Locked(c) => Goto(s, t, Mark(c, Other(s.current)))
    case Mark(c, i) => Goto(Put(s, i, At(s, i).(noWantWrite := false)), t, Grab(c, i))
    case Grab(c, i) => Goto(Put(s, i, At(s, i).(useCnt := LONG_MIN)), t, Update(c, i))
    case Update(c, i) => Goto(Put(s, i, At(s, i).(vec := Updated(At(s, i).vec, At(s, Other(i)).vec))), t, Append(c, i))
    case Append(c, i) => Goto(Put(s, i, At(s, i).(vec := At(s, i).vec + [c])), t, Reset(i))
    case Reset(i) => Goto(Put(s, i, At(s, i).(useCnt := 0)), t, Switch(i)).(strays := {})
    case Switch(i) => Goto(s, t, Extend).(current := i)
    case Extend =>
      var bound := Published(s) * s.chunkSize;
      Goto(s, t, Unlock).(maxObjects := if s.maxObjects < bound then bound else s.maxObjects)
    case Unlock => Goto(s, t, Idle).(mutex := None)
  }

  function Apply(s: State, a: Step): State
    requires Enabled(s, a)
  {
    match a
    case Visit(t, i) => DoVisit(s, t, i)
    case Register(t, c) => Goto(s, t, Locked(c)).(mutex := Some(t))
    case Move(t) => DoMove(s, t)
  }

  predicate Legal(s: State, run: seq<Step>)
    decreases |run|
  {
    run == [] || (Enabled(s, run[0]) && Legal(Apply(s, run[0]), run[1..]))
  }

  function After(s: State, run: seq<Step>): State
    requires Legal(s, run)
    decreases |run|
  {
    if run == [] then s else After(Apply(s, run[0]), run[1..])
  }

  /** The manager after construction, with any set of idle threads a machine can count. */
  ghost predicate Initial(s: State) {
    && 0 < s.chunkSize
    && (forall t :: t in s.threads ==> s.threads[t].Idle?)
    && |s.threads.Keys| <= -LONG_MIN
    && s.mutex.None? && s.current == A && s.strays == {} && s.maxObjects == 0
    && s.a == Copy(true, 0, []) && s.b == Copy(true, 0, [])
  }
}
