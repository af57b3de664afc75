/** Safety of the table copies in every run, for any number of threads. */
module TableCopiesRuns {
  import opened Common
  import opened Chunks
  import opened TableCopies

  // ---- The mutex and the sides

  /** Who is inside the mutex, and on which side each writer and slow reader works. */
  ghost predicate InvMutex(s: State) {
    && (s.mutex.Some? ==> s.mutex.value in s.threads)
    && (forall t :: t in s.threads ==> MutexOne(t, s.threads[t], s.mutex, s.current))
  }

  predicate MutexOne(t: Tid, pc: Pc, mutex: Option<Tid>, current: Side) {
    && (HoldsMutex(pc) <==> mutex == Some(t))
    && (pc.SlowAdd? ==> pc.side == current)
    && (pc.Mark? || pc.Grab? || pc.Update? || pc.Append? || pc.Reset? || pc.Switch? ==> pc.side == Other(current))
  }

  lemma MoveKeepsMutex(s: State, t: Tid)
    requires InvMutex(s) && Enabled(s, Move(t))
    ensures InvMutex(DoMove(s, t))
  {
    var n := DoMove(s, t);
    assert MutexOne(t, s.threads[t], s.mutex, s.current);
    MoverKeepsMutex(s, t);
    forall u | u in n.threads ensures MutexOne(u, n.threads[u], n.mutex, n.current) {
      if u != t {
        assert MutexOne(u, s.threads[u], s.mutex, s.current);
        OtherKeepsMutex(t, u, s.threads[u], s.mutex, s.current, n.mutex, n.current);
      }
    }
  }

  /** The thread that moves changes its own place only, and the mutex and the current side only while it has the mutex,
      or takes it. */
  lemma MoverKeepsMutex(s: State, t: Tid)
    requires Enabled(s, Move(t)) && MutexOne(t, s.threads[t], s.mutex, s.current)
    ensures var n := DoMove(s, t);
            && n.threads == s.threads[t := n.threads[t]] && MutexOne(t, n.threads[t], n.mutex, n.current)
            && (n.mutex == s.mutex || (s.mutex.None? && n.mutex == Some(t)) || (s.mutex == Some(t) && n.mutex.None?))
            && (n.current == s.current || s.mutex == Some(t))
  {
  }

  lemma OtherKeepsMutex(t: Tid, u: Tid, pc: Pc, mutex: Option<Tid>, current: Side, now: Option<Tid>, next: Side)
    requires u != t && MutexOne(u, pc, mutex, current)
    requires now == mutex || (mutex.None? && now == Some(t)) || (mutex == Some(t) && now.None?)
    requires next == current || mutex == Some(t)
    ensures MutexOne(u, pc, now, next)
  {
  }

  // ---- The counts

  /** A count is that of the copy's readers, or the writer's mark with no reader. */
  predicate CountVal(written: bool, count: int, strays: set<Tid>, readers: set<Tid>) {
    if written then count == LONG_MIN + |strays| && readers == {} else count == |readers|
  }

  ghost predicate CountOne(s: State, i: Side) {
    CountVal(Written(s, i), At(s, i).useCnt, s.strays, Readers(s, i))
  }

  ghost predicate InvCount(s: State) {
    CountOne(s, A) && CountOne(s, B)
  }

  /** Strays wait for the mutex, and there are none unless a writer's mark is up. */
  ghost predicate InvStrays(s: State) {
    && (forall t :: t in s.strays ==> t in s.threads && s.threads[t].Slow?)
    && (s.strays != {} ==> Written(s, A) || Written(s, B))
    && |s.threads.Keys| <= -LONG_MIN
  }

  /** Fewer strays than threads: the mark stays negative under another fetch_add. */
  lemma MarkStaysNegative(s: State, t: Tid)
    requires InvStrays(s) && t in s.threads && !s.threads[t].Slow?
    ensures t !in s.strays && LONG_MIN + |s.strays| < 0
  {
    SubsetSize(s.strays + {t}, s.threads.Keys);
  }

  /** `n` is `s` after thread `t` moved. */
  predicate Moved(s: State, n: State, t: Tid) {
    t in s.threads && t in n.threads && n.threads == s.threads[t := n.threads[t]]
  }

  lemma ReadersMove(s: State, n: State, t: Tid, i: Side)
    requires Moved(s, n, t)
    ensures Readers(n, i) == if Counted(n.threads[t], i) then Readers(s, i) + {t} else Readers(s, i) - {t}
    ensures t in Readers(s, i) <==> Counted(s.threads[t], i)
  {
    assert n.threads.Keys == s.threads.Keys;
  }

  /** A copy no thread enters, leaves, marks or releases keeps its count. */
  lemma CountSame(s: State, n: State, t: Tid, i: Side)
    requires CountOne(s, i) && Moved(s, n, t)
    requires Counted(s.threads[t], i) == Counted(n.threads[t], i)
    requires Written(s, i) == Written(n, i) && At(n, i).useCnt == At(s, i).useCnt
    requires Written(s, i) ==> n.strays == s.strays
    ensures CountOne(n, i)
  {
    ReadersMove(s, n, t, i);
    assert Readers(n, i) == Readers(s, i);
  }

  lemma CountJoin(s: State, n: State, t: Tid, i: Side)
    requires CountOne(s, i) && Moved(s, n, t) && !Written(s, i) && !Written(n, i)
    requires !Counted(s.threads[t], i) && Counted(n.threads[t], i) && At(n, i).useCnt == At(s, i).useCnt + 1
    ensures CountOne(n, i)
  {
    ReadersMove(s, n, t, i);
  }

  lemma CountLeave(s: State, n: State, t: Tid, i: Side)
    requires CountOne(s, i) && Moved(s, n, t) && Written(s, i) == Written(n, i)
    requires Counted(s.threads[t], i) && !Counted(n.threads[t], i) && At(n, i).useCnt == At(s, i).useCnt - 1
    ensures CountOne(n, i)
  {
    ReadersMove(s, n, t, i);
  }

  /** A mark only ever stands on the side that is not current, put there by the mutex's holder. */
  lemma WrittenBy(s: State, i: Side, t: Tid)
    requires InvMutex(s) && t in s.threads
    ensures HoldsMutex(s.threads[t]) ==> Written(s, i) == Writes(s.threads[t], i)
    ensures Written(s, i) ==> i == Other(s.current)
  {
    assert MutexOne(t, s.threads[t], s.mutex, s.current);
    if Written(s, i) { assert MutexOne(s.mutex.value, s.threads[s.mutex.value], s.mutex, s.current); }
  }

  /** A thread outside the mutex does not change which copy is marked. */
  lemma WrittenSame(s: State, n: State, t: Tid, i: Side)
    requires InvMutex(s) && Moved(s, n, t) && n.mutex == s.mutex && !HoldsMutex(s.threads[t])
    ensures Written(n, i) == Written(s, i)
  {
    assert MutexOne(t, s.threads[t], s.mutex, s.current);
  }

  // ---- Every move keeps the counts

  /** fetch_add finds a negative count exactly when the copy is marked. */
  lemma AddSees(s: State, t: Tid, i: Side)
    requires CountOne(s, i) && InvStrays(s) && t in s.threads && !s.threads[t].Slow?
    ensures At(s, i).useCnt < 0 <==> Written(s, i)
  {
    MarkStaysNegative(s, t);
  }

  lemma AddJoins(s: State, n: State, t: Tid, w: Want, i: Side)
    requires InvMutex(s) && InvCount(s) && t in s.threads && s.threads[t] == Add(w, i) && !Written(s, i)
    requires n == Goto(Put(s, i, At(s, i).(useCnt := At(s, i).useCnt + 1)), t, Reading(w, i))
    ensures InvCount(n)
  {
    WrittenSame(s, n, t, A);
    WrittenSame(s, n, t, B);
    CountJoin(s, n, t, i);
    CountSame(s, n, t, Other(i));
  }

  lemma AddStrays(s: State, n: State, t: Tid, w: Want, i: Side)
    requires InvMutex(s) && InvCount(s) && t in s.threads && s.threads[t] == Add(w, i) && Written(s, i)
             && t !in s.strays
    requires n == Goto(Put(s, i, At(s, i).(useCnt := At(s, i).useCnt + 1)), t, Slow(w)).(strays := s.strays + {t})
    ensures InvCount(n)
  {
    WrittenSame(s, n, t, A);
    WrittenSame(s, n, t, B);
    WrittenBy(s, i, t);
    WrittenBy(s, Other(i), t);
    ReadersMove(s, n, t, i);
    assert CountOne(n, i);
    CountSame(s, n, t, Other(i));
  }

  lemma StraysMove(s: State, n: State, t: Tid)
    requires InvStrays(s) && Moved(s, n, t)
    requires || n.strays == {}
             || (Written(n, A) == Written(s, A) && Written(n, B) == Written(s, B) && n.strays == s.strays
                 && !s.threads[t].Slow?)
    ensures InvStrays(n)
  {
    assert n.threads.Keys == s.threads.Keys;
  }

  lemma AddKeepsCount(s: State, t: Tid, w: Want, i: Side)
    requires InvMutex(s) && InvCount(s) && InvStrays(s) && t in s.threads && s.threads[t] == Add(w, i)
    ensures InvCount(DoAdd(s, t, w, i)) && InvStrays(DoAdd(s, t, w, i))
  {
    var n := DoAdd(s, t, w, i);
    AddSees(s, t, i);
    MarkStaysNegative(s, t);
    if Written(s, i) { AddStrays(s, n, t, w, i); } else { AddJoins(s, n, t, w, i); }
    AddKeepsStrays(s, t, w, i);
  }

  lemma AddKeepsStrays(s: State, t: Tid, w: Want, i: Side)
    requires InvMutex(s) && InvStrays(s) && t in s.threads && s.threads[t] == Add(w, i)
    requires At(s, i).useCnt < 0 <==> Written(s, i)
    ensures InvStrays(DoAdd(s, t, w, i))
  {
    var n := DoAdd(s, t, w, i);
    WrittenSame(s, n, t, A);
    WrittenSame(s, n, t, B);
    assert n.threads.Keys == s.threads.Keys;
  }

  /** The slow path: with the mutex held the current copy carries no mark, so its count is not
      negative when the assertion is reached. */
  lemma SlowAddSees(s: State, t: Tid, w: Want, i: Side)
    requires InvMutex(s) && InvCount(s) && t in s.threads && s.threads[t] == SlowAdd(w, i)
    ensures At(s, i).useCnt >= 0 && !Written(s, i)
  {
    WrittenBy(s, i, t);
  }

  lemma SlowAddKeepsCount(s: State, t: Tid, w: Want, i: Side)
    requires InvMutex(s) && InvCount(s) && t in s.threads && s.threads[t] == SlowAdd(w, i)
    ensures InvCount(DoSlowAdd(s, t, w, i))
  {
    var n := DoSlowAdd(s, t, w, i);
    SlowAddSees(s, t, w, i);
    WrittenBy(s, A, t);
    WrittenBy(s, B, t);
    CountJoin(s, n, t, i);
    CountSame(s, n, t, Other(i));
  }

  lemma ReleaseKeepsCount(s: State, t: Tid, w: Want, i: Side)
    requires InvMutex(s) && InvCount(s) && t in s.threads && s.threads[t] == Reading(w, i)
    ensures InvCount(DoRelease(s, t, i))
  {
    var n := DoRelease(s, t, i);
    WrittenSame(s, n, t, A);
    WrittenSame(s, n, t, B);
    CountLeave(s, n, t, i);
    CountSame(s, n, t, Other(i));
  }

  /** Taking a zero count: the copy has no reader. */
  lemma GrabKeepsCount(s: State, n: State, t: Tid, c: Chunk, i: Side)
    requires InvCount(s) && t in s.threads && s.threads[t] == Grab(c, i) && At(s, i).useCnt == 0
    requires s.mutex == Some(t) && s.strays == {}
    requires n == Goto(Put(s, i, At(s, i).(useCnt := LONG_MIN)), t, Update(c, i))
    ensures InvCount(n) && Readers(s, i) == {}
  {
    ReadersMove(s, n, t, i);
    CountSame(s, n, t, Other(i));
  }

  /** Setting the count back to zero wipes the strays and loses no reader: there is none. */
  lemma ResetKeepsCount(s: State, n: State, t: Tid, i: Side)
    requires InvCount(s) && t in s.threads && s.threads[t] == Reset(i) && s.mutex == Some(t)
    requires n == Goto(Put(s, i, At(s, i).(useCnt := 0)), t, Switch(i)).(strays := {})
    ensures InvCount(n) && Readers(s, i) == {}
  {
    ReadersMove(s, n, t, i);
    CountSame(s, n, t, Other(i));
  }

  lemma InsideMutex(s: State, t: Tid)
    requires InvMutex(s) && InvStrays(s) && t in s.threads && HoldsMutex(s.threads[t])
    ensures s.mutex == Some(t)
    ensures s.threads[t].Grab? ==> s.strays == {}
  {
    assert MutexOne(t, s.threads[t], s.mutex, s.current);
  }

  lemma WriterKeepsCount(s: State, t: Tid)
    requires InvMutex(s) && InvCount(s) && InvStrays(s) && Enabled(s, Move(t))
             && (s.threads[t].Grab? || s.threads[t].Reset?)
    ensures var n := DoMove(s, t); InvCount(n) && InvStrays(n)
  {
    var n := DoMove(s, t);
    InsideMutex(s, t);
    if s.threads[t].Grab? { GrabKeepsCount(s, n, t, s.threads[t].chunk, s.threads[t].side); }
    else { ResetKeepsCount(s, n, t, s.threads[t].side); }
    StraysMove(s, n, t);
  }

  predicate TouchesCount(pc: Pc) {
    pc.Add? || pc.SlowAdd? || pc.Reading? || pc.Grab? || pc.Reset?
  }

  /** The other moves touch no count and put up or take down no mark. */
  lemma OtherMovesKeepCount(s: State, t: Tid)
    requires InvMutex(s) && InvCount(s) && InvStrays(s) && Enabled(s, Move(t)) && !TouchesCount(s.threads[t])
    ensures var n := DoMove(s, t); InvCount(n) && InvStrays(n)
  {
    var n := DoMove(s, t);
    OtherMoves(s, t);
    CountSame(s, n, t, A);
    CountSame(s, n, t, B);
    StraysSettle(s, n, t);
  }

  lemma StraysSettle(s: State, n: State, t: Tid)
    requires InvStrays(s) && Moved(s, n, t) && n.strays == s.strays
    requires Written(n, A) == Written(s, A) && Written(n, B) == Written(s, B)
    requires s.threads[t].Slow? ==> !Written(s, A) && !Written(s, B)
    ensures InvStrays(n)
  {
    assert n.threads.Keys == s.threads.Keys;
  }

  lemma OtherMoves(s: State, t: Tid)
    requires InvMutex(s) && Enabled(s, Move(t)) && !TouchesCount(s.threads[t])
    ensures var n := DoMove(s, t);
            && Moved(s, n, t) && n.strays == s.strays
            && n.a.useCnt == s.a.useCnt && n.b.useCnt == s.b.useCnt
            && Counted(n.threads[t], A) == Counted(s.threads[t], A)
            && Counted(n.threads[t], B) == Counted(s.threads[t], B)
            && Written(n, A) == Written(s, A) && Written(n, B) == Written(s, B)
            && (s.threads[t].Slow? ==> !Written(s, A) && !Written(s, B))
  {
    assert MutexOne(t, s.threads[t], s.mutex, s.current);
  }

  lemma MoveKeepsCount(s: State, t: Tid)
    requires InvMutex(s) && InvCount(s) && InvStrays(s) && Enabled(s, Move(t))
    ensures var n := DoMove(s, t); InvCount(n) && InvStrays(n)
  {
    match s.threads[t]
    case Add(w, i) => AddKeepsCount(s, t, w, i);
    case SlowAdd(w, i) => SlowAddKeepsCount(s, t, w, i); SlowStrays(s, t, w, i);
    case Reading(w, i) => ReleaseKeepsCount(s, t, w, i); ReleaseStrays(s, t, w, i);
    case Grab(c, i) => WriterKeepsCount(s, t);
    case Reset(i) => WriterKeepsCount(s, t);
    case _ => OtherMovesKeepCount(s, t);
  }

  lemma SlowStrays(s: State, t: Tid, w: Want, i: Side)
    requires InvMutex(s) && InvStrays(s) && t in s.threads && s.threads[t] == SlowAdd(w, i)
    ensures InvStrays(DoSlowAdd(s, t, w, i))
  {
    WrittenBy(s, A, t);
    WrittenBy(s, B, t);
    StraysMove(s, DoSlowAdd(s, t, w, i), t);
  }

  lemma ReleaseStrays(s: State, t: Tid, w: Want, i: Side)
    requires InvMutex(s) && InvStrays(s) && t in s.threads && s.threads[t] == Reading(w, i)
    ensures InvStrays(DoRelease(s, t, i))
  {
    var n := DoRelease(s, t, i);
    WrittenSame(s, n, t, A);
    WrittenSame(s, n, t, B);
    StraysMove(s, n, t);
  }

  // ---- The contents

  /** Where the mutex's holder is; `Idle` when the mutex is free. */
  function WriterPc(s: State): Pc {
    if s.mutex.Some? && s.mutex.value in s.threads then s.threads[s.mutex.value] else Idle
  }

  /** The copy that is not current is a prefix of the current one, until the writer has copied the
      missing chunks (equal) and appended the new one (one longer, to become current next). */
  predicate ContentsAt(pc: Pc, mine: seq<Chunk>, current: seq<Chunk>) {
    if pc.Append? then mine == current
    else if pc.Reset? || pc.Switch? then |mine| == |current| + 1 && current <= mine
    else mine <= current
  }

  ghost predicate InvVec(s: State) {
    && ContentsAt(WriterPc(s), At(s, Other(s.current)).vec, At(s, s.current).vec)
    && 0 < s.chunkSize && s.maxObjects <= Published(s) * s.chunkSize
  }

  lemma MoveKeepsVec(s: State, t: Tid)
    requires InvMutex(s) && InvVec(s) && Enabled(s, Move(t))
    ensures InvVec(DoMove(s, t))
  {
    var n := DoMove(s, t);
    assert MutexOne(t, s.threads[t], s.mutex, s.current);
    if HoldsMutex(s.threads[t]) {
      assert WriterPc(s) == s.threads[t];
      HolderKeepsVec(s, t);
    } else {
      assert n.a.vec == s.a.vec && n.b.vec == s.b.vec && n.current == s.current;
      assert s.threads[t].Slow? || WriterPc(n) == WriterPc(s);
    }
  }

  lemma HolderKeepsVec(s: State, t: Tid)
    requires s.mutex == Some(t) && InvVec(s) && Enabled(s, Move(t)) && HoldsMutex(s.threads[t])
    requires MutexOne(t, s.threads[t], s.mutex, s.current)
    ensures InvVec(DoMove(s, t))
  {
    match s.threads[t]
    case Update(c, i) => UpdateKeepsVec(s, t, c, i);
    case Append(c, i) => AppendKeepsVec(s, t, c, i);
    case Switch(i) => SwitchKeepsVec(s, t, i);
    case _ => OthersKeepVec(s, t);
  }

  lemma UpdatedIs(mine: seq<Chunk>, theirs: seq<Chunk>)
    requires mine <= theirs
    ensures Updated(mine, theirs) == theirs
  {
  }

  lemma UpdateKeepsVec(s: State, t: Tid, c: Chunk, i: Side)
    requires s.mutex == Some(t) && t in s.threads && s.threads[t] == Update(c, i) && i == Other(s.current) && InvVec(s)
    requires Enabled(s, Move(t))
    ensures InvVec(DoMove(s, t))
  {
    UpdatedIs(At(s, i).vec, At(s, s.current).vec);
  }

  lemma AppendKeepsVec(s: State, t: Tid, c: Chunk, i: Side)
    requires s.mutex == Some(t) && t in s.threads && s.threads[t] == Append(c, i) && i == Other(s.current) && InvVec(s)
    requires Enabled(s, Move(t))
    ensures InvVec(DoMove(s, t))
  {
  }

  lemma SwitchKeepsVec(s: State, t: Tid, i: Side)
    requires s.mutex == Some(t) && t in s.threads && s.threads[t] == Switch(i) && i == Other(s.current) && InvVec(s)
    requires Enabled(s, Move(t))
    ensures InvVec(DoMove(s, t))
  {
    MulGrows(Published(s), Published(DoMove(s, t)), s.chunkSize);
  }

  lemma OthersKeepVec(s: State, t: Tid)
    requires s.mutex == Some(t) && InvVec(s) && Enabled(s, Move(t)) && HoldsMutex(s.threads[t])
    requires MutexOne(t, s.threads[t], s.mutex, s.current)
    requires !s.threads[t].Update? && !s.threads[t].Append? && !s.threads[t].Switch?
    ensures InvVec(DoMove(s, t))
  {
    var n := DoMove(s, t);
    assert n.a.vec == s.a.vec && n.b.vec == s.b.vec && n.current == s.current;
  }

  /** A reader's index lies within the chunks published when its acquire began, and from the moment it
      has chosen a copy, that copy holds all of them. */
  predicate WantOne(pc: Pc, s: State) {
    && (pc.Fetch? || pc.Test? || pc.Add? || pc.Slow? || pc.SlowFetch? || pc.SlowAdd? || pc.SlowUnlock?
          || pc.Reading? ==>
         pc.want.index < pc.want.published * s.chunkSize && pc.want.published <= Published(s))
    && (pc.Test? || pc.Add? || pc.SlowAdd? || pc.SlowUnlock? || pc.Reading? ==>
          pc.want.published <= |At(s, pc.side).vec|)
  }

  ghost predicate InvWant(s: State) {
    forall t :: t in s.threads ==> WantOne(s.threads[t], s)
  }

  /** No copy ever shrinks, and the current copy is never shorter than before. */
  lemma MoveGrows(s: State, t: Tid)
    requires InvMutex(s) && InvVec(s) && Enabled(s, Move(t))
    ensures var n := DoMove(s, t);
            && |n.a.vec| >= |s.a.vec| && |n.b.vec| >= |s.b.vec| && Published(n) >= Published(s)
            && n.chunkSize == s.chunkSize
  {
    assert MutexOne(t, s.threads[t], s.mutex, s.current);
    if HoldsMutex(s.threads[t]) { assert WriterPc(s) == s.threads[t]; }
  }

  lemma MoveKeepsWant(s: State, t: Tid)
    requires InvMutex(s) && InvVec(s) && InvWant(s) && Enabled(s, Move(t))
    ensures InvWant(DoMove(s, t))
  {
    var n := DoMove(s, t);
    assert MutexOne(t, s.threads[t], s.mutex, s.current);
    MoveGrows(s, t);
    forall u | u in n.threads ensures WantOne(n.threads[u], n) {
      assert WantOne(s.threads[u], s);
      if u == t { OwnWant(s, t); } else { WantGrows(s.threads[u], s, n); }
    }
  }

  lemma WantGrows(pc: Pc, s: State, n: State)
    requires WantOne(pc, s)
    requires |n.a.vec| >= |s.a.vec| && |n.b.vec| >= |s.b.vec| && Published(n) >= Published(s)
             && n.chunkSize == s.chunkSize
    ensures WantOne(pc, n)
  {
  }

  /** A reader that picks its copy picks the current one, which holds everything published so far. */
  lemma OwnWant(s: State, t: Tid)
    requires Enabled(s, Move(t)) && WantOne(s.threads[t], s) && MutexOne(t, s.threads[t], s.mutex, s.current)
    ensures var n := DoMove(s, t); WantOne(n.threads[t], n)
  {
    if s.threads[t].Add? || s.threads[t].SlowAdd? || s.threads[t].Reading? { CountedWant(s, t); }
    else if HoldsMutex(s.threads[t]) && !s.threads[t].SlowFetch? && !s.threads[t].SlowUnlock? { WriterWant(s, t); }
  }

  /** Steps on a count leave the vectors alone. */
  lemma CountedWant(s: State, t: Tid)
    requires Enabled(s, Move(t)) && WantOne(s.threads[t], s)
    requires s.threads[t].Add? || s.threads[t].SlowAdd? || s.threads[t].Reading?
    ensures var n := DoMove(s, t); WantOne(n.threads[t], n)
  {
    var n := DoMove(s, t);
    assert n.a.vec == s.a.vec && n.b.vec == s.b.vec && n.current == s.current;
  }

  /** A writer wants nothing. */
  lemma WriterWant(s: State, t: Tid)
    requires Enabled(s, Move(t)) && HoldsMutex(s.threads[t])
    requires !s.threads[t].SlowFetch? && !s.threads[t].SlowAdd? && !s.threads[t].SlowUnlock?
    ensures var n := DoMove(s, t); WantOne(n.threads[t], n)
  {
  }

  // ---- Runs

  ghost predicate Inv(s: State) {
    InvMutex(s) && InvCount(s) && InvStrays(s) && InvVec(s) && InvWant(s)
  }

  lemma InitialInv(s: State)
    requires Initial(s)
    ensures Inv(s)
  {
    assert Readers(s, A) == {} && Readers(s, B) == {};
  }

  lemma StartKeepsInv(s: State, a: Step)
    requires Inv(s) && Enabled(s, a) && !a.Move?
    ensures Inv(Apply(s, a))
  {
    var n := Apply(s, a);
    if n != s {
      assert Moved(s, n, a.t);
      StartKeepsCounts(s, a);
      assert WantOne(n.threads[a.t], n);
      forall u | u in n.threads ensures WantOne(n.threads[u], n) { if u != a.t { assert WantOne(s.threads[u], s); } }
    }
  }

  lemma StartKeepsCounts(s: State, a: Step)
    requires InvMutex(s) && InvCount(s) && InvStrays(s) && Enabled(s, a) && !a.Move?
    ensures var n := Apply(s, a); InvMutex(n) && InvCount(n) && InvStrays(n)
  {
    var n := Apply(s, a);
    if n != s {
      assert MutexOne(a.t, s.threads[a.t], s.mutex, s.current);
      forall u | u in n.threads ensures MutexOne(u, n.threads[u], n.mutex, n.current) {
        assert MutexOne(u, s.threads[u], s.mutex, s.current);
      }
      CountSame(s, n, a.t, A);
      CountSame(s, n, a.t, B);
      StraysSettle(s, n, a.t);
    }
  }

  lemma StepKeepsInv(s: State, a: Step)
    requires Inv(s) && Enabled(s, a)
    ensures Inv(Apply(s, a))
  {
    if a.Move? {
      MoveKeepsMutex(s, a.t);
      MoveKeepsCount(s, a.t);
      MoveKeepsVec(s, a.t);
      MoveKeepsWant(s, a.t);
    } else {
      StartKeepsInv(s, a);
    }
  }

  lemma {:induction false} RunKeepsInv(s: State, run: seq<Step>)
    requires Inv(s) && Legal(s, run)
    ensures Inv(After(s, run))
    decreases |run|
  {
    if run == [] {
    } else {
      StepKeepsInv(s, run[0]);
      RunKeepsInv(Apply(s, run[0]), run[1..]);
    }
  }

  // ---- What every run guarantees

  /** While a writer holds a copy no reader holds it; any other copy counts exactly its readers. */
  lemma WriterExcludesReaders(s: State, run: seq<Step>, i: Side, t: Tid)
    requires Initial(s) && Legal(s, run) && t in After(s, run).threads
    ensures var n := After(s, run);
            && (Writes(n.threads[t], i) ==> Readers(n, i) == {})
            && ((forall w :: w in n.threads ==> !Writes(n.threads[w], i)) ==> At(n, i).useCnt == |Readers(n, i)|)
  {
    InitialInv(s);
    RunKeepsInv(s, run);
    var n := After(s, run);
    assert CountOne(n, i);
    WrittenBy(n, i, t);
  }

  /** Under the mutex the current copy's count is never negative: the slow path's assertion holds. */
  lemma SlowPathAssertion(s: State, run: seq<Step>, t: Tid)
    requires Initial(s) && Legal(s, run) && t in After(s, run).threads && After(s, run).threads[t].SlowAdd?
    ensures var n := After(s, run); At(n, n.threads[t].side).useCnt >= 0
  {
    InitialInv(s);
    RunKeepsInv(s, run);
    var n := After(s, run);
    SlowAddSees(n, t, n.threads[t].want, n.threads[t].side);
  }

  /** Resetting the count to zero loses no reader. */
  lemma ResetLosesNone(s: State, run: seq<Step>, t: Tid)
    requires Initial(s) && Legal(s, run) && t in After(s, run).threads && After(s, run).threads[t].Reset?
    ensures var n := After(s, run); Readers(n, n.threads[t].side) == {}
  {
    InitialInv(s);
    RunKeepsInv(s, run);
    var n := After(s, run);
    InsideMutex(n, t);
    ResetKeepsCount(n, DoMove(n, t), t, n.threads[t].side);
  }

  /** The copy a reader holds does not change under it, whatever any thread does next. */
  lemma HeldCopyIsStable(s: State, run: seq<Step>, t: Tid, a: Step)
    requires Initial(s) && Legal(s, run) && t in After(s, run).threads && After(s, run).threads[t].Reading?
    requires Enabled(After(s, run), a)
    ensures var n := After(s, run); At(Apply(n, a), n.threads[t].side).vec == At(n, n.threads[t].side).vec
  {
    InitialInv(s);
    RunKeepsInv(s, run);
    var n := After(s, run);
    var i := n.threads[t].side;
    assert t in Readers(n, i);
    assert CountOne(n, i);
    OnlyWriterChanges(n, a, i);
  }

  lemma OnlyWriterChanges(s: State, a: Step, i: Side)
    requires InvMutex(s) && Enabled(s, a)
    ensures At(Apply(s, a), i).vec == At(s, i).vec || Written(s, i)
  {
    WrittenBy(s, i, a.t);
    assert MutexOne(a.t, s.threads[a.t], s.mutex, s.current);
  }

  /** Outside an update the copy that is not current is a prefix of the current one. */
  lemma OtherCopyIsPrefix(s: State, run: seq<Step>)
    requires Initial(s) && Legal(s, run)
    ensures var n := After(s, run);
            && (At(n, Other(n.current)).vec <= At(n, n.current).vec
                  || At(n, n.current).vec <= At(n, Other(n.current)).vec)
            && (n.mutex.None? ==> At(n, Other(n.current)).vec <= At(n, n.current).vec)
            && n.maxObjects <= Published(n) * n.chunkSize
  {
    InitialInv(s);
    RunKeepsInv(s, run);
  }
}
