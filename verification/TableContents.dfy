/**
 What the table copies hold and what a visit reads, told from the steps of the run: the chunks registered, and the
 index each thread asked for.
 */
module TableContents {
  import opened Common
  import opened Chunks
  import opened TableCopies
  import opened TableCopiesRuns

  /** The chunks a run registers, in order */
  function RegisteredIn(run: seq<Step>): seq<Chunk> {
    if run == [] then [] else (if run[0].Register? then [run[0].chunk] else []) + RegisteredIn(run[1..])
  }

  // ---- The current copy holds the chunks registered

  predicate Bringing(pc: Pc) {
    pc.Locked? || pc.Mark? || pc.Grab? || pc.Update? || pc.Append?
  }

  /** The chunks registered so far: those of the current copy and the one a writer is bringing, or those of the copy it
      is about to make current. */
  function Holds(pc: Pc, current: seq<Chunk>, other: seq<Chunk>): seq<Chunk> {
    if Bringing(pc) then current + [pc.chunk] else if pc.Reset? || pc.Switch? then other else current
  }

  function Held(s: State): seq<Chunk> {
    Holds(WriterPc(s), At(s, s.current).vec, At(s, Other(s.current)).vec)
  }

  lemma StartHolds(s: State, a: Step)
    requires InvMutex(s) && Enabled(s, a) && !a.Move?
    ensures Held(Apply(s, a)) == Held(s) + if a.Register? then [a.chunk] else []
  {
    assert MutexOne(a.t, s.threads[a.t], s.mutex, s.current);
  }

  /** A thread without the mutex changes no vector, and takes the mutex only to look. */
  lemma ReaderHolds(s: State, t: Tid)
    requires InvMutex(s) && Enabled(s, Move(t)) && !HoldsMutex(s.threads[t])
    ensures Held(DoMove(s, t)) == Held(s)
  {
    var n := DoMove(s, t);
    assert MutexOne(t, s.threads[t], s.mutex, s.current);
    assert n.a.vec == s.a.vec && n.b.vec == s.b.vec && n.current == s.current;
    assert s.threads[t].Slow? || WriterPc(n) == WriterPc(s);
  }

  lemma HolderHolds(s: State, t: Tid)
    requires InvMutex(s) && InvVec(s) && Enabled(s, Move(t)) && HoldsMutex(s.threads[t])
    ensures Held(DoMove(s, t)) == Held(s)
  {
    assert MutexOne(t, s.threads[t], s.mutex, s.current);
    match s.threads[t]
    case Update(c, i) => UpdateHolds(s, t, c, i);
    case Append(c, i) => AppendHolds(s, t, c, i);
    case _ => OthersHold(s, t);
  }

  lemma UpdateHolds(s: State, t: Tid, c: Chunk, i: Side)
    requires s.mutex == Some(t) && Enabled(s, Move(t)) && s.threads[t] == Update(c, i) && i == Other(s.current)
    ensures Held(DoMove(s, t)) == Held(s)
  {
  }

  lemma AppendHolds(s: State, t: Tid, c: Chunk, i: Side)
    requires s.mutex == Some(t) && Enabled(s, Move(t)) && s.threads[t] == Append(c, i) && i == Other(s.current)
    requires InvVec(s)
    ensures Held(DoMove(s, t)) == Held(s)
  {
    assert At(s, i).vec == At(s, s.current).vec;
  }

  lemma OthersHold(s: State, t: Tid)
    requires s.mutex == Some(t) && Enabled(s, Move(t)) && HoldsMutex(s.threads[t])
    requires MutexOne(t, s.threads[t], s.mutex, s.current) && !s.threads[t].Update? && !s.threads[t].Append?
    ensures Held(DoMove(s, t)) == Held(s)
  {
    VectorsStay(s, t);
    HolderGoes(s, t);
  }

  lemma VectorsStay(s: State, t: Tid)
    requires Enabled(s, Move(t)) && !s.threads[t].Update? && !s.threads[t].Append?
    ensures DoMove(s, t).a.vec == s.a.vec && DoMove(s, t).b.vec == s.b.vec
  {
  }

  lemma HolderGoes(s: State, t: Tid)
    requires s.mutex == Some(t) && Enabled(s, Move(t)) && HoldsMutex(s.threads[t])
    requires MutexOne(t, s.threads[t], s.mutex, s.current) && !s.threads[t].Update? && !s.threads[t].Append?
    ensures var n := DoMove(s, t); var pc := s.threads[t];
            && (!pc.Switch? ==> n.current == s.current)
            && (pc.Switch? ==> n.current == Other(s.current) && WriterPc(n).Extend?)
            && (Bringing(pc) ==> Bringing(WriterPc(n)) && WriterPc(n).chunk == pc.chunk)
            && (pc.Reset? ==> WriterPc(n).Switch?)
            && (!Bringing(pc) && !pc.Reset? ==> !Bringing(WriterPc(n)) && !WriterPc(n).Reset? && !WriterPc(n).Switch?)
  {
  }

  lemma StepHolds(s: State, a: Step)
    requires InvMutex(s) && InvVec(s) && Enabled(s, a)
    ensures Held(Apply(s, a)) == Held(s) + if a.Register? then [a.chunk] else []
  {
    if !a.Move? { StartHolds(s, a); }
    else if HoldsMutex(s.threads[a.t]) { HolderHolds(s, a.t); }
    else { ReaderHolds(s, a.t); }
  }

  lemma {:induction false} RunHolds(s: State, run: seq<Step>)
    requires Inv(s) && Legal(s, run)
    ensures Held(After(s, run)) == Held(s) + RegisteredIn(run)
    decreases |run|
  {
    if run != [] {
      StepKeepsInv(s, run[0]);
      StepHolds(s, run[0]);
      RunHolds(Apply(s, run[0]), run[1..]);
      Regroup(Held(s), if run[0].Register? then [run[0].chunk] else [], RegisteredIn(run[1..]));
    }
  }

  /** In every run the current copy is a prefix of the chunks registered, and while nobody is inside the mutex it is all
      of them. */
  lemma TableIsRegistered(s: State, run: seq<Step>)
    requires Initial(s) && Legal(s, run)
    ensures var n := After(s, run);
            && At(n, n.current).vec <= RegisteredIn(run)
            && (n.mutex.None? ==> At(n, n.current).vec == RegisteredIn(run))
  {
    InitialInv(s);
    RunKeepsInv(s, run);
    RunHolds(s, run);
    assert [] + RegisteredIn(run) == RegisteredIn(run);
    CurrentIsPrefix(After(s, run));
  }

  lemma CurrentIsPrefix(s: State)
    requires InvVec(s)
    ensures At(s, s.current).vec <= Held(s)
    ensures s.mutex.None? ==> At(s, s.current).vec == Held(s)
  {
  }

  // ---- The index a thread asked for

  /** The index of the thread's last visit; `before` if it made none */
  function LastVisit(run: seq<Step>, t: Tid, before: nat): nat {
    if run == [] then before
    else LastVisit(run[1..], t, if run[0].Visit? && run[0].t == t then run[0].index else before)
  }

  predicate Reads(pc: Pc) {
    pc.Fetch? || pc.Test? || pc.Add? || pc.Slow? || pc.SlowFetch? || pc.SlowAdd? || pc.SlowUnlock? || pc.Reading?
  }

  predicate Wants(s: State, t: Tid, index: nat) {
    t in s.threads && Reads(s.threads[t]) ==> s.threads[t].want.index == index
  }

  lemma MoveWants(s: State, t: Tid, index: nat)
    requires Enabled(s, Move(t)) && Wants(s, t, index)
    ensures Wants(DoMove(s, t), t, index)
  {
    if Reads(s.threads[t]) { assert s.threads[t].want.index == index; }
  }

  lemma StepWants(s: State, a: Step, t: Tid, index: nat)
    requires InvMutex(s) && Enabled(s, a) && Wants(s, t, index)
    ensures Wants(Apply(s, a), t, if a.Visit? && a.t == t then a.index else index)
  {
    if a.Move? && a.t == t { MoveWants(s, t, index); }
    else if a.Move? {
      assert MutexOne(a.t, s.threads[a.t], s.mutex, s.current);
      MoverKeepsMutex(s, a.t);
    }
  }

  lemma {:induction false} RunWants(s: State, run: seq<Step>, t: Tid, index: nat)
    requires Inv(s) && Legal(s, run) && Wants(s, t, index)
    ensures Wants(After(s, run), t, LastVisit(run, t, index))
    decreases |run|
  {
    if run != [] {
      StepKeepsInv(s, run[0]);
      StepWants(s, run[0], t, index);
      RunWants(Apply(s, run[0]), run[1..], t, if run[0].Visit? && run[0].t == t then run[0].index else index);
    }
  }

  /** In every run, a thread that reads a copy finds the index it asked for in range, even when the copy is stale, and
      the chunk there is the one registered for that index. */
  lemma VisitInRange(s: State, run: seq<Step>, t: Tid)
    requires Initial(s) && Legal(s, run) && t in After(s, run).threads && After(s, run).threads[t].Reading?
    ensures var n := After(s, run); var index := LastVisit(run, t, 0);
            && 0 < n.chunkSize && n.threads[t].want.index == index
            && var c := ChunkOf(index, n.chunkSize);
               c < |At(n, n.threads[t].side).vec| && c < |RegisteredIn(run)|
               && At(n, n.threads[t].side).vec[c] == RegisteredIn(run)[c]
  {
    InitialInv(s);
    RunKeepsInv(s, run);
    RunWants(s, run, t, 0);
    TableIsRegistered(s, run);
    CopyHasChunk(After(s, run), t);
  }

  lemma CopyHasChunk(s: State, t: Tid)
    requires InvVec(s) && InvWant(s) && t in s.threads && s.threads[t].Reading?
    ensures var c := ChunkOf(s.threads[t].want.index, s.chunkSize);
            && c < |At(s, s.threads[t].side).vec| && c < |At(s, s.current).vec|
            && At(s, s.threads[t].side).vec[c] == At(s, s.current).vec[c]
  {
    assert WantOne(s.threads[t], s);
    ChunkBelow(s.threads[t].want.index, s.threads[t].want.published, s.chunkSize);
  }

  // ---- Which visits are let in

  /** The bound on indices is exact, except between making a copy current and raising the bound. */
  predicate BoundIs(s: State) {
    !WriterPc(s).Extend? ==> s.maxObjects == Published(s) * s.chunkSize
  }

  lemma HolderBound(s: State, t: Tid)
    requires InvMutex(s) && InvVec(s) && Enabled(s, Move(t)) && HoldsMutex(s.threads[t]) && BoundIs(s)
    ensures BoundIs(DoMove(s, t))
  {
    assert MutexOne(t, s.threads[t], s.mutex, s.current);
    var n := DoMove(s, t);
    if !s.threads[t].Switch? { assert |At(n, n.current).vec| == |At(s, s.current).vec|; }
  }

  lemma ReaderBound(s: State, t: Tid)
    requires InvMutex(s) && Enabled(s, Move(t)) && !HoldsMutex(s.threads[t]) && BoundIs(s)
    ensures BoundIs(DoMove(s, t))
  {
    var n := DoMove(s, t);
    assert MutexOne(t, s.threads[t], s.mutex, s.current);
    assert n.a.vec == s.a.vec && n.b.vec == s.b.vec && n.current == s.current && n.maxObjects == s.maxObjects;
    assert s.threads[t].Slow? || WriterPc(n) == WriterPc(s);
  }

  lemma StepBound(s: State, a: Step)
    requires InvMutex(s) && InvVec(s) && Enabled(s, a) && BoundIs(s)
    ensures BoundIs(Apply(s, a))
  {
    if !a.Move? { assert MutexOne(a.t, s.threads[a.t], s.mutex, s.current); }
    else if HoldsMutex(s.threads[a.t]) { HolderBound(s, a.t); }
    else { ReaderBound(s, a.t); }
  }

  lemma StepKeepsSize(s: State, a: Step)
    requires Enabled(s, a)
    ensures Apply(s, a).chunkSize == s.chunkSize
  {
  }

  lemma {:induction false} RunBound(s: State, run: seq<Step>)
    requires Inv(s) && Legal(s, run) && BoundIs(s)
    ensures BoundIs(After(s, run)) && After(s, run).chunkSize == s.chunkSize
    decreases |run|
  {
    if run != [] {
      StepKeepsInv(s, run[0]);
      StepBound(s, run[0]);
      StepKeepsSize(s, run[0]);
      RunBound(Apply(s, run[0]), run[1..]);
    }
  }

  /** In every run with nobody inside the mutex, a visit begins exactly when its index lies in a registered chunk. */
  lemma VisitLetIn(s: State, run: seq<Step>, t: Tid, index: nat)
    requires Initial(s) && Legal(s, run) && After(s, run).mutex.None? && Enabled(After(s, run), Visit(t, index))
    ensures !Apply(After(s, run), Visit(t, index)).threads[t].Idle? <==> index < |RegisteredIn(run)| * s.chunkSize
  {
    InitialInv(s);
    RunBound(s, run);
    TableIsRegistered(s, run);
  }

  // ---- The lock-free way

  /** The sides that a writer has marked, which stay marked: the copy a thread is about to test or to write, and the
      one it has just made current. */
  predicate MarkOne(pc: Pc, s: State) {
    && !pc.Add?
    && (pc.Fetch? || pc.Extend? ==> !At(s, s.current).noWantWrite)
    && (pc.Test? || pc.Grab? || pc.Update? || pc.Append? || pc.Reset? || pc.Switch? ==> !At(s, pc.side).noWantWrite)
  }

  ghost predicate InvMark(s: State) {
    && s.strays == {} && (0 < s.maxObjects ==> !At(s, s.current).noWantWrite)
    && forall t :: t in s.threads ==> MarkOne(s.threads[t], s)
  }

  /** No mark is taken back, and only a marked copy is made current. */
  lemma MarksStay(s: State, t: Tid)
    requires Enabled(s, Move(t)) && MarkOne(s.threads[t], s)
    ensures var n := DoMove(s, t);
            && (n.a.noWantWrite ==> s.a.noWantWrite) && (n.b.noWantWrite ==> s.b.noWantWrite)
            && (n.current == s.current || !At(n, n.current).noWantWrite)
  {
  }

  lemma OwnMark(s: State, t: Tid)
    requires Enabled(s, Move(t)) && MarkOne(s.threads[t], s)
    ensures MarkOne(DoMove(s, t).threads[t], DoMove(s, t))
  {
    if Reads(s.threads[t]) { ReaderMark(s, t); } else { WriterMark(s, t); }
  }

  lemma ReaderMark(s: State, t: Tid)
    requires Enabled(s, Move(t)) && MarkOne(s.threads[t], s) && Reads(s.threads[t])
    ensures MarkOne(DoMove(s, t).threads[t], DoMove(s, t))
  {
  }

  lemma WriterMark(s: State, t: Tid)
    requires Enabled(s, Move(t)) && MarkOne(s.threads[t], s) && !Reads(s.threads[t])
    ensures MarkOne(DoMove(s, t).threads[t], DoMove(s, t))
  {
  }

  lemma BoundMark(s: State, t: Tid)
    requires Enabled(s, Move(t)) && MarkOne(s.threads[t], s) && s.strays == {}
    requires 0 < s.maxObjects ==> !At(s, s.current).noWantWrite
    ensures var n := DoMove(s, t); n.strays == {} && (0 < n.maxObjects ==> !At(n, n.current).noWantWrite)
  {
    MarksStay(s, t);
  }

  lemma OtherMark(pc: Pc, s: State, n: State)
    requires MarkOne(pc, s)
    requires (n.a.noWantWrite ==> s.a.noWantWrite) && (n.b.noWantWrite ==> s.b.noWantWrite)
    requires n.current == s.current || !At(n, n.current).noWantWrite
    ensures MarkOne(pc, n)
  {
  }

  lemma MoveKeepsMark(s: State, t: Tid)
    requires InvMutex(s) && InvMark(s) && Enabled(s, Move(t))
    ensures InvMark(DoMove(s, t))
  {
    var n := DoMove(s, t);
    assert MutexOne(t, s.threads[t], s.mutex, s.current) && MarkOne(s.threads[t], s);
    MarksStay(s, t);
    OwnMark(s, t);
    BoundMark(s, t);
    MoverKeepsMutex(s, t);
    forall u | u in n.threads ensures MarkOne(n.threads[u], n) {
      if u != t {
        assert MarkOne(s.threads[u], s);
        OtherMark(s.threads[u], s, n);
      }
    }
  }

  lemma StartKeepsMark(s: State, a: Step)
    requires InvMark(s) && Enabled(s, a) && !a.Move?
    ensures InvMark(Apply(s, a))
  {
    var n := Apply(s, a);
    assert n.a == s.a && n.b == s.b && n.current == s.current && n.strays == s.strays && n.maxObjects == s.maxObjects;
    forall u | u in n.threads ensures MarkOne(n.threads[u], n) {
      if u != a.t { assert MarkOne(s.threads[u], s); }
    }
  }

  lemma {:induction false} RunMarks(s: State, run: seq<Step>)
    requires Inv(s) && InvMark(s) && Legal(s, run)
    ensures InvMark(After(s, run))
    decreases |run|
  {
    if run != [] {
      StepKeepsInv(s, run[0]);
      if run[0].Move? { MoveKeepsMark(s, run[0].t); } else { StartKeepsMark(s, run[0]); }
      RunMarks(Apply(s, run[0]), run[1..]);
    }
  }

  /** A mark is never taken back and a copy is marked before it holds its first chunk, so in no run does a reader count
      itself without the mutex. */
  lemma NeverLockFree(s: State, run: seq<Step>)
    requires Initial(s) && Legal(s, run)
    ensures var n := After(s, run); n.strays == {} && forall t :: t in n.threads ==> !n.threads[t].Add?
  {
    InitialInv(s);
    RunMarks(s, run);
    var n := After(s, run);
    forall t | t in n.threads ensures !n.threads[t].Add? { assert MarkOne(n.threads[t], n); }
  }

  // ---- Nobody is stuck

  /** How many moves a thread has to make until it is idle again, at most */
  function MovesLeft(pc: Pc): nat {
    match pc
    case Idle => 0
    case Fetch(_) => 8
    case Test(_, _) => 7
    case Add(_, _) => 6
    case Slow(_) => 5
    case SlowFetch(_) => 4
    case SlowAdd(_, _) => 3
    case SlowUnlock(_, _) => 2
    case Reading(_, _) => 1
    case Locked(_) => 9
    case Mark(_, _) => 8
    case Grab(_, _) => 7
    case Update(_, _) => 6
    case Append(_, _) => 5
    case Reset(_) => 4
    case Switch(_) => 3
    case Extend => 2
    case Unlock => 1
  }

  lemma MoveProgress(s: State, t: Tid)
    requires Enabled(s, Move(t))
    ensures MovesLeft(DoMove(s, t).threads[t]) < MovesLeft(s.threads[t])
  {
  }

  /** In every run a writer that waits for its copy waits exactly for the readers that hold it. */
  lemma WriterWaitsForReaders(s: State, run: seq<Step>, t: Tid)
    requires Initial(s) && Legal(s, run) && t in After(s, run).threads && After(s, run).threads[t].Grab?
    ensures var n := After(s, run); Enabled(n, Move(t)) <==> Readers(n, n.threads[t].side) == {}
  {
    InitialInv(s);
    RunKeepsInv(s, run);
    GrabSees(After(s, run), t);
  }

  lemma GrabSees(s: State, t: Tid)
    requires InvMutex(s) && InvCount(s) && t in s.threads && s.threads[t].Grab?
    ensures At(s, s.threads[t].side).useCnt == |Readers(s, s.threads[t].side)|
  {
    var i := s.threads[t].side;
    assert MutexOne(t, s.threads[t], s.mutex, s.current);
    assert CountOne(s, i);
  }

  /** In every run, unless all threads are idle, one can make a move, and a move brings its thread nearer to the end of
      what it does: at most nine moves, and no thread waits for more than the mutex or the readers of a copy. */
  lemma NeverStuck(s: State, run: seq<Step>, t: Tid) returns (u: Tid)
    requires Initial(s) && Legal(s, run) && t in After(s, run).threads && !After(s, run).threads[t].Idle?
    ensures var n := After(s, run);
            && u in n.threads && !n.threads[u].Idle? && Enabled(n, Move(u))
            && MovesLeft(DoMove(n, u).threads[u]) < MovesLeft(n.threads[u]) <= 9
  {
    InitialInv(s);
    RunKeepsInv(s, run);
    u := SomeoneMoves(After(s, run), t);
    MoveProgress(After(s, run), u);
  }

  lemma SomeoneMoves(s: State, t: Tid) returns (u: Tid)
    requires InvMutex(s) && InvCount(s) && t in s.threads && !s.threads[t].Idle?
    ensures u in s.threads && !s.threads[u].Idle? && Enabled(s, Move(u))
  {
    u := t;
    if s.threads[u].Slow? && s.mutex.Some? {
      u := s.mutex.value;
      assert MutexOne(u, s.threads[u], s.mutex, s.current);
    }
    if s.threads[u].Grab? && At(s, s.threads[u].side).useCnt != 0 { u := SomeReader(s, u); }
  }

  lemma SomeReader(s: State, t: Tid) returns (u: Tid)
    requires InvMutex(s) && InvCount(s) && t in s.threads && s.threads[t].Grab?
    requires At(s, s.threads[t].side).useCnt != 0
    ensures u in s.threads && s.threads[u].Reading?
  {
    GrabSees(s, t);
    assert Readers(s, s.threads[t].side) != {};
    u :| u in Readers(s, s.threads[t].side);
    assert MutexOne(t, s.threads[t], s.mutex, s.current) && MutexOne(u, s.threads[u], s.mutex, s.current);
  }
}
