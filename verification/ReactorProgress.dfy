/** A posted stop is never lost: it waits in the exec queue and runs within a bounded number of rounds. */
module ReactorProgress {
  import opened RunIds
  import opened Reactor
  import opened ReactorQueues
  import opened ReactorInv
  import opened ReactorStop
  import opened ReactorSteps
  import opened ReactorRuns

  function StopEntries(q: seq<ExecStub>, u: Uid): nat {
    Reposts(q, u) + Stops(q, u)
  }

  /** In every run the stop of an object is waiting exactly once from its post until it has run, and an object whose
      stop was not posted has none. */
  lemma PostedStopWaits(run: seq<Step>, o: ObjectId)
    requires Legal(INITIAL, run) && o in After(INITIAL, run).ids.runId
    ensures var s := After(INITIAL, run);
            o !in s.ids.stopped ==> StopEntries(s.exeq, s.ids.runId[o]) == if o in s.history.late then 1 else 0
  {
    ReachableInv(run);
    StopWaits(After(INITIAL, run), o);
  }

  lemma StopWaits(s: State, o: ObjectId)
    requires Inv(s) && o in s.ids.runId
    ensures o !in s.ids.stopped ==> StopEntries(s.exeq, s.ids.runId[o]) == if o in s.history.late then 1 else 0
  {
    assert StopOne(o, s.exeq, s.pc, s.mail, s.history, s.ids);
  }

  // ---- Rounds until it runs

  /** The exec phase under way ends before it reaches a stop entry of `u`. */
  predicate Missed(pc: Pc, q: seq<ExecStub>, u: Uid) {
    (pc.Execs? || pc.ExecCall?) && pc.left <= |q| && StopEntries(q[..pc.left], u) == 0
  }

  /** How many exec phases still have to end before the stop entry of `u` has done all its work: one for each entry
      that is to run, and the one under way if that does not reach it. */
  function Rank(pc: Pc, q: seq<ExecStub>, u: Uid): nat {
    (if Stops(q, u) > 0 then 1 else 2) + (if Missed(pc, q, u) then 1 else 0)
  }

  lemma RankAppend(pc: Pc, q: seq<ExecStub>, e: ExecStub, u: Uid)
    requires !StopEntry(e, u) && (pc.Execs? || pc.ExecCall? ==> pc.left <= |q|)
    ensures Rank(pc, q + [e], u) == Rank(pc, q, u) && StopEntries(q + [e], u) == StopEntries(q, u)
  {
    StopAppend(q, e, u);
    if pc.Execs? || pc.ExecCall? { assert (q + [e])[..pc.left] == q[..pc.left]; }
  }

  lemma RankSkip(pc: Pc, q: seq<ExecStub>, u: Uid)
    requires (pc.Execs? || pc.ExecCall?) && 0 < pc.left <= |q| && !StopEntry(q[0], u)
    ensures Rank(Execs(pc.left - 1), q[1..], u) == Rank(pc, q, u) && StopEntries(q[1..], u) == StopEntries(q, u)
  {
    assert q[..pc.left][1..] == q[1..][..pc.left - 1];
  }

  lemma RankRepost(q: seq<ExecStub>, left: nat, u: Uid, e: ExecStub)
    requires 0 < left <= |q| && q[0].uid == u && q[0].task.StopRepost? && StopEntries(q, u) == 1
    requires e.uid == u && e.task.StopNow?
    ensures Rank(Execs(left - 1), q[1..] + [e], u) <= Rank(Execs(left), q, u)
  {
    StopAppend(q[1..], e, u);
  }

  lemma {:induction false} EntriesPrefix(q: seq<ExecStub>, n: nat, u: Uid)
    requires n <= |q|
    ensures StopEntries(q[..n], u) <= StopEntries(q, u)
    ensures n == |q| ==> StopEntries(q[..n], u) == StopEntries(q, u)
  {
    if n > 0 {
      assert q[..n][1..] == q[1..][..n - 1];
      EntriesPrefix(q[1..], n - 1, u);
    }
  }

  lemma ExecRank(s: State, u: Uid)
    requires CanExec(s) && s.pc.left <= |s.exeq|
    requires StopEntries(s.exeq, u) == 1 && StopEntries(DoExecNext(s).exeq, u) == 1
    ensures Rank(DoExecNext(s).pc, DoExecNext(s).exeq, u) <= Rank(s.pc, s.exeq, u)
  {
    var e, q := s.exeq[0], s.exeq[1..];
    var f := ExecStub(e.uid, StopNow, DUMMY_HANDLER);
    if StopEntry(e, u) {
      if Runs(s, e) && e.task.StopRepost? { RankRepost(s.exeq, s.pc.left, u, f); }
    } else {
      RankSkip(s.pc, s.exeq, u);
      if Runs(s, e) && e.task.StopRepost? { RankAppend(Execs(s.pc.left - 1), q, f, u); }
    }
  }

  /** While the entry waits no step puts its end off, and each end of an exec phase brings it nearer. */
  lemma StepRank(s: State, a: Step, u: Uid)
    requires Enabled(s, a) && InvLoop(s)
    requires StopEntries(s.exeq, u) == 1 && StopEntries(Apply(s, a).exeq, u) == 1
    ensures Rank(Apply(s, a).pc, Apply(s, a).exeq, u) + (if a.ExecsDone? then 1 else 0) <= Rank(s.pc, s.exeq, u)
  {
    var t := Apply(s, a);
    match a
    case Install => AppendedRank(s, t, u);
    case Enqueue => AppendedRank(s, t, u);
    case Post(_, _) => AppendedRank(s, t, u);
    case PostStop => PostRank(s, u);
    case TimersDone => EntriesPrefix(s.exeq, |s.exeq|, u);
    case ExecNext => ExecRank(s, u);
    case Return => ReturnRank(s, u);
    case _ => PhaseRank(s, a, u);
  }

  lemma PostRank(s: State, u: Uid)
    requires CanPostStop(s) && InvLoop(s) && StopEntries(s.exeq, u) == 1 && StopEntries(DoPostStop(s).exeq, u) == 1
    ensures Rank(DoPostStop(s).pc, DoPostStop(s).exeq, u) == Rank(s.pc, s.exeq, u)
  {
    if DoPostStop(s).exeq != s.exeq { AppendedRank(s, DoPostStop(s), u); }
  }

  lemma ReturnRank(s: State, u: Uid)
    requires CanReturn(s) && InvLoop(s) && StopEntries(s.exeq, u) == 1 && StopEntries(DoReturn(s).exeq, u) == 1
    ensures Rank(DoReturn(s).pc, DoReturn(s).exeq, u) <= Rank(s.pc, s.exeq, u)
  {
    if s.pc.ExecCall? && !StopEntry(s.exeq[0], u) { RankSkip(s.pc, s.exeq, u); }
  }

  /** Steps that leave the queue alone, and the end of the exec phase */
  lemma PhaseRank(s: State, a: Step, u: Uid)
    requires Enabled(s, a) && InvLoop(s) && StopEntries(s.exeq, u) == 1
    requires !a.Install? && !a.Enqueue? && !a.Post? && !a.PostStop? && !a.TimersDone? && !a.ExecNext? && !a.Return?
    ensures Rank(Apply(s, a).pc, Apply(s, a).exeq, u) + (if a.ExecsDone? then 1 else 0) <= Rank(s.pc, s.exeq, u)
  {
    if a.ExecsDone? { assert s.exeq[..0] == []; }
    else { assert Apply(s, a).exeq == s.exeq; }
  }

  lemma AppendedRank(s: State, t: State, u: Uid)
    requires InvLoop(s) && t.pc == s.pc && |t.exeq| == |s.exeq| + 1 && t.exeq[..|s.exeq|] == s.exeq
    requires StopEntries(s.exeq, u) == 1 && StopEntries(t.exeq, u) == 1
    ensures Rank(t.pc, t.exeq, u) == Rank(s.pc, s.exeq, u)
  {
    var e := t.exeq[|s.exeq|];
    assert t.exeq == s.exeq + [e];
    StopAppend(s.exeq, e, u);
    RankAppend(s.pc, s.exeq, e, u);
  }

  /** How many exec phases end in a run */
  function Rounds(run: seq<Step>): nat {
    if run == [] then 0 else (if run[0].ExecsDone? then 1 else 0) + Rounds(run[1..])
  }

  lemma StepStays(s: State, a: Step, o: ObjectId)
    requires Enabled(s, a) && o in s.ids.runId && (o in s.ids.stopped || o in s.history.late)
    ensures o in Apply(s, a).ids.runId
    ensures o in s.history.late ==> o in Apply(s, a).history.late
    ensures o in s.ids.stopped ==> o in Apply(s, a).ids.stopped
    ensures !a.Push? || a.obj != o ==> Apply(s, a).ids.runId[o] == s.ids.runId[o]
  {
    match a
    case ExecNext => ExecStays(s);
    case PostStop => PostStays(s, o);
    case _ =>
  }

  lemma ExecStays(s: State)
    requires CanExec(s)
    ensures DoExecNext(s).ids.runId == s.ids.runId && s.ids.stopped <= DoExecNext(s).ids.stopped
    ensures DoExecNext(s).history.late == s.history.late
  {
  }

  lemma PostStays(s: State, o: ObjectId)
    requires CanPostStop(s)
    ensures DoPostStop(s).ids == s.ids && (o in s.history.late ==> o in DoPostStop(s).history.late)
  {
  }

  /** A stop that is waiting has run once as many exec phases have ended as its rank says. */
  lemma {:induction false} RunStops(s: State, run: seq<Step>, o: ObjectId)
    requires Inv(s) && Legal(s, run) && o in s.ids.runId && o in s.history.late
    requires o in s.ids.stopped || Rounds(run) >= Rank(s.pc, s.exeq, s.ids.runId[o])
    ensures o in After(s, run).ids.stopped
    decreases |run|
  {
    if run != [] {
      var t := Apply(s, run[0]);
      StepKeepsInv(s, run[0]);
      StepStays(s, run[0], o);
      if o !in t.ids.stopped {
        StopWaits(s, o);
        StopWaits(t, o);
        StepRank(s, run[0], s.ids.runId[o]);
      }
      RunStops(t, run[1..], o);
    }
  }

  /** In every run: a stop posted by a visible object has been carried out once the third exec phase after it has
      ended, the second one if it was posted from a timer callback. */
  lemma PostedStopRuns(before: seq<Step>, rest: seq<Step>)
    requires Legal(INITIAL, before)
    requires var s := After(INITIAL, before);
             CanPostStop(s) && Current(s).value in s.gate.visible && Legal(DoPostStop(s), rest)
    requires Rounds(rest) >= if After(INITIAL, before).pc.TimerCall? then 2 else 3
    ensures var s := After(INITIAL, before); Current(s).value in After(DoPostStop(s), rest).ids.stopped
  {
    AfterPost(before);
    RunStops(DoPostStop(After(INITIAL, before)), rest, Current(After(INITIAL, before)).value);
  }

  lemma AfterPost(before: seq<Step>)
    requires Legal(INITIAL, before)
    requires var s := After(INITIAL, before); CanPostStop(s) && Current(s).value in s.gate.visible
    ensures var s := After(INITIAL, before); var t := DoPostStop(s); var o := Current(s).value;
            && Inv(t) && o in t.ids.runId && o in t.history.late
            && Rank(t.pc, t.exeq, t.ids.runId[o]) <= if s.pc.TimerCall? then 2 else 3
  {
    ReachableInv(before);
    PostKeeps(After(INITIAL, before));
  }

  lemma PostKeeps(s: State)
    requires Inv(s) && CanPostStop(s) && Current(s).value in s.gate.visible
    ensures Inv(DoPostStop(s)) && DoPostStop(s).pc == s.pc
    ensures Current(s).value in DoPostStop(s).ids.runId && Current(s).value in DoPostStop(s).history.late
  {
    CurrentIsInstalled(s);
    PostStopStep(s);
  }

  // ---- The loop gets there

  /** The phase of the loop, and how far it is from its end */
  function Phase(s: State): nat {
    match s.pc
    case Waiting => 4
    case Blocked(_) => 4
    case Events => 3
    case Timers => 2
    case TimerCall(_) => 2
    case Execs(_) => 1
    case ExecCall(_, _) => 1
  }

  function Left(s: State): nat {
    match s.pc
    case Events => |s.ids.pushTake| + |s.mail.take|
    case Execs(left) => left
    case ExecCall(left, _) => left
    case _ => 0
  }

  function Part(s: State): nat {
    match s.pc
    case Events => if s.ids.pushTake != [] && s.ids.pushTake[0].obj in s.gate.locked then 1 else 0
    case TimerCall(_) => 1
    case Execs(_) => 1
    case _ => 0
  }

  ghost predicate Nearer(s: State, t: State) {
    || Phase(t) < Phase(s)
    || (Phase(t) == Phase(s) && (Left(t) < Left(s) || (Left(t) == Left(s) && Part(t) < Part(s))))
  }

  /** The object to be installed next, if its mutex is held, can be published or have its event raised. */
  predicate HeadKnown(s: State) {
    s.ids.pushTake != [] && s.ids.pushTake[0].obj in s.gate.locked ==>
      s.ids.pushTake[0].obj in s.ids.runId && s.ids.pushTake[0].obj in s.history.raised
  }

  lemma HeadIsKnown(s: State)
    requires InvGate(s.gate, s.history, s.ids)
    ensures HeadKnown(s)
  {
    if s.ids.pushTake != [] && s.ids.pushTake[0].obj in s.gate.locked {
      assert GateOne(s.ids.pushTake[0].obj, s.gate, s.history, s.ids);
    }
  }

  lemma NextInstall(s: State) returns (a: Step)
    requires HeadKnown(s) && s.pc.Events? && s.ids.pushTake != []
    ensures Enabled(s, a) && Nearer(s, Apply(s, a))
    ensures a == Install || s.ids.pushTake[0].obj in s.gate.locked
  {
    var o := s.ids.pushTake[0].obj;
    if o !in s.gate.locked { a := Install; }
    else if s.gate.locked[o].Registering? { a := Publish(o); }
    else { a := VisitRaise(o); }
  }

  lemma NextEvents(s: State) returns (a: Step)
    requires HeadKnown(s) && s.pc.Events?
    ensures Enabled(s, a) && Nearer(s, Apply(s, a))
    ensures a.Publish? || a.VisitRaise? ==> s.ids.pushTake != [] && s.ids.pushTake[0].obj in s.gate.locked
  {
    if s.ids.pushTake != [] { a := NextInstall(s); }
    else if s.mail.take != [] { a := Enqueue; }
    else { a := EventsDone; }
  }

  lemma NextMove(s: State) returns (a: Step)
    requires InvLoop(s) && HeadKnown(s)
    ensures Enabled(s, a) && (a.ExecsDone? || Nearer(s, Apply(s, a)))
    ensures a.Publish? || a.VisitRaise? ==> s.ids.pushTake != [] && s.ids.pushTake[0].obj in s.gate.locked
  {
    match s.pc
    case Waiting => a := Swap;
    case Blocked(_) => a := Swap;
    case Events => a := NextEvents(s);
    case Timers => a := TimersDone;
    case TimerCall(_) => a := Return;
    case Execs(left) => a := if left == 0 then ExecsDone else ExecNext;
    case ExecCall(_, _) => a := Return;
  }

  lemma NextStep(s: State) returns (a: Step)
    requires Inv(s)
    ensures Enabled(s, a) && Inv(Apply(s, a)) && (a.ExecsDone? || Nearer(s, Apply(s, a)))
  {
    HeadIsKnown(s);
    a := NextMove(s);
    StepKeepsInv(s, a);
  }

  /** In every run the loop is never stuck: a step that ends the exec phase or brings its end nearer can be taken. It is
      the reactor's own, unless the mutex of the object to be installed is held; then its holder can let go of it. */
  lemma NeverStuck(run: seq<Step>, s: State) returns (a: Step)
    requires Legal(INITIAL, run) && s == After(INITIAL, run)
    ensures Enabled(s, a) && (a.ExecsDone? || Nearer(s, Apply(s, a)))
    ensures a.Publish? || a.VisitRaise? ==> s.ids.pushTake != [] && s.ids.pushTake[0].obj in s.gate.locked
  {
    ReachableInv(run);
    HeadIsKnown(s);
    a := NextMove(s);
  }

  lemma StepThen(s: State, a: Step, rest: seq<Step>)
    requires Enabled(s, a) && Legal(Apply(s, a), rest)
    ensures Legal(s, [a] + rest) && After(s, [a] + rest) == After(Apply(s, a), rest)
    ensures Rounds([a] + rest) == (if a.ExecsDone? then 1 else 0) + Rounds(rest)
  {
    assert ([a] + rest)[1..] == rest;
  }

  lemma {:induction false} RoundEnds(s: State) returns (run: seq<Step>)
    requires Inv(s)
    ensures Legal(s, run) && Rounds(run) >= 1 && Inv(After(s, run))
    decreases Phase(s), Left(s), Part(s)
  {
    var a := NextStep(s);
    var rest := [];
    if !a.ExecsDone? { rest := RoundEnds(Apply(s, a)); }
    StepThen(s, a, rest);
    run := [a] + rest;
  }

  lemma {:induction false} RoundsAdd(p: seq<Step>, q: seq<Step>)
    ensures Rounds(p + q) == Rounds(p) + Rounds(q)
  {
    if p == [] {
      assert p + q == q;
    } else {
      assert (p + q)[1..] == p[1..] + q;
      RoundsAdd(p[1..], q);
    }
  }

  lemma RunThen(s: State, p: seq<Step>, q: seq<Step>)
    requires Legal(s, p) && Legal(After(s, p), q)
    ensures Legal(s, p + q) && Rounds(p + q) == Rounds(p) + Rounds(q)
  {
    RunConcat(s, p, q);
    RoundsAdd(p, q);
  }

  lemma {:induction false} RoundsEnd(s: State, n: nat) returns (run: seq<Step>)
    requires Inv(s)
    ensures Legal(s, run) && Rounds(run) >= n
    decreases n
  {
    if n == 0 { run := []; }
    else {
      var first := RoundEnds(s);
      var rest := RoundsEnd(After(s, first), n - 1);
      RunThen(s, first, rest);
      run := first + rest;
    }
  }

  /** Every posted stop can be carried out, whatever the state of the loop. */
  lemma PostedStopCanRun(before: seq<Step>) returns (rest: seq<Step>)
    requires Legal(INITIAL, before)
    requires var s := After(INITIAL, before); CanPostStop(s) && Current(s).value in s.gate.visible
    ensures var s := After(INITIAL, before);
            Legal(DoPostStop(s), rest) && Current(s).value in After(DoPostStop(s), rest).ids.stopped
  {
    AfterPost(before);
    var s := After(INITIAL, before);
    rest := RoundsEnd(DoPostStop(s), 3);
    RunStops(DoPostStop(s), rest, Current(s).value);
  }
}
