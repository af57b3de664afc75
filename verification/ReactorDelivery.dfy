/** Every event raised for an object is delivered, within two rounds of the loop, unless the object is stopped. */
module ReactorDelivery {
  import opened Common
  import opened RunIds
  import opened Reactor
  import opened ReactorQueues
  import opened ReactorInv
  import opened ReactorSteps
  import opened ReactorTraces
  import opened ReactorRuns
  import opened ReactorProgress

  /** The part of the exec queue that is run before new tasks and events are fetched again */
  function Within(pc: Pc, q: seq<ExecStub>): seq<ExecStub> {
    match pc
    case Execs(left) => if left <= |q| then q[..left] else q
    case ExecCall(left, _) => if 0 < left <= |q| then q[1..left] else q
    case _ => q
  }

  /** How many events of run id `u` are run before new ones are fetched, or are fetched next by a reactor that has
      ended a round */
  function InSight(s: State, u: Uid): nat {
    |QueuedIn(Within(s.pc, s.exeq), u)| +
    match s.pc
    case Events => |PushedIn(s.ids.pushTake, u)| + |RaisedIn(s.mail.take, u)|
    case Waiting => |PushedIn(s.ids.pushFill, u)| + |RaisedIn(s.mail.fill, u)|
    case Blocked(_) => |PushedIn(s.ids.pushFill, u)| + |RaisedIn(s.mail.fill, u)|
    case _ => 0
  }

  function Got(s: State, o: ObjectId): nat {
    |Of(s.history.delivered, o)|
  }

  // ---- Every step but the end of a round keeps what is in sight, or delivers it

  lemma PushSight(s: State, p: ObjectId, e: Event, u: Uid)
    requires Enabled(s, Push(p, e))
    ensures InSight(DoPush(s, p, e), u) >= InSight(s, u)
  {
    PushedAppend(s.ids.pushFill, NewTask(NextUid(s.ids), p, e), u);
  }

  lemma RaiseSight(s: State, p: ObjectId, u: Uid)
    requires CanRaise(s, p)
    ensures InSight(DoVisitRaise(s, p), u) >= InSight(s, u)
  {
    RaisedAppend(s.mail.fill, RaiseStub(s.ids.runId[p], s.gate.locked[p].event), u);
  }

  lemma SwapSight(s: State, u: Uid)
    requires InvLoop(s) && CanSwap(s)
    ensures InSight(DoSwap(s), u) == InSight(s, u)
  {
  }

  lemma InstallSight(s: State, u: Uid)
    requires CanInstall(s)
    ensures InSight(DoInstall(s), u) == InSight(s, u)
  {
    var t := s.ids.pushTake[0];
    QueuedAppend(s.exeq, ExecStub(t.uid, OnEvent(t.event), DUMMY_HANDLER), u);
  }

  lemma EnqueueSight(s: State, u: Uid)
    requires CanEnqueue(s)
    ensures InSight(DoEnqueue(s), u) == InSight(s, u)
  {
    var r := s.mail.take[0];
    QueuedAppend(s.exeq, ExecStub(r.uid, OnEvent(r.event), DUMMY_HANDLER), u);
  }

  lemma WithinAppend(pc: Pc, q: seq<ExecStub>, e: ExecStub)
    requires pc.Execs? || pc.ExecCall? ==> pc.left <= |q|
    requires pc.ExecCall? ==> 0 < pc.left
    ensures Within(pc, q + [e]) == if pc.Execs? || pc.ExecCall? then Within(pc, q) else Within(pc, q) + [e]
  {
  }

  lemma AppendSight(s: State, t: State, e: ExecStub, u: Uid)
    requires InvLoop(s) && t.exeq == s.exeq + [e] && !e.task.OnEvent?
    requires t.pc == s.pc && t.ids == s.ids && t.mail == s.mail
    ensures InSight(t, u) == InSight(s, u)
  {
    WithinAppend(s.pc, s.exeq, e);
    QueuedAppend(Within(s.pc, s.exeq), e, u);
  }

  lemma ReturnSight(s: State, u: Uid)
    requires InvLoop(s) && CanReturn(s)
    ensures InSight(DoReturn(s), u) == InSight(s, u)
  {
    if s.pc.ExecCall? { assert s.exeq[1..][..s.pc.left - 1] == s.exeq[1..s.pc.left]; }
  }

  lemma WithinFront(q: seq<ExecStub>, left: nat, u: Uid)
    requires 0 < left <= |q|
    ensures |QueuedIn(q[..left], u)| == |QueuedIn(q[1..left], u)| + if q[0].uid == u && q[0].task.OnEvent? then 1 else 0
    ensures q[1..][..left - 1] == q[1..left]
  {
    assert q[..left][1..] == q[1..left];
  }

  /** An entry that is dropped is no event of a live object. */
  lemma DropSight(s: State, o: ObjectId)
    requires InvIds(s.ids) && InvLoop(s) && InvKnown(s.exeq, s.mail, s.ids)
    requires CanExec(s) && !Runs(s, s.exeq[0]) && o in s.ids.runId && o !in s.ids.stopped
    ensures InSight(DoExecNext(s), s.ids.runId[o]) == InSight(s, s.ids.runId[o])
  {
    DroppedIsNobodys(s);
    WithinFront(s.exeq, s.pc.left, s.ids.runId[o]);
  }

  lemma RunSight(s: State, u: Uid)
    requires InvLoop(s) && CanExec(s) && Runs(s, s.exeq[0])
    ensures InSight(DoExecNext(s), u) + (if s.exeq[0].uid == u && s.exeq[0].task.OnEvent? then 1 else 0)
            == InSight(s, u)
  {
    var left, q := s.pc.left, s.exeq;
    WithinFront(q, left, u);
    if q[0].task.StopRepost? {
      assert (q[1..] + [ExecStub(q[0].uid, StopNow, DUMMY_HANDLER)])[..left - 1] == q[1..left];
    }
  }

  /** The callback of an event entry that runs is entered for the object the entry names. */
  lemma RunGets(s: State, o: ObjectId)
    requires InvIds(s.ids) && InvKnown(s.exeq, s.mail, s.ids)
    requires CanExec(s) && Runs(s, s.exeq[0]) && s.exeq[0].task.OnEvent?
    requires o in s.ids.runId && s.ids.runId[o] == s.exeq[0].uid
    ensures |CallAt(s, ExecNext, o)| == 1
  {
    FrontIs(s, o);
    var t := DoExecNext(s);
    assert t.pc == ExecCall(s.pc.left, s.exeq[0].uid.index) && t.ids == s.ids;
  }

  lemma FrontIs(s: State, o: ObjectId)
    requires InvIds(s.ids) && InvKnown(s.exeq, s.mail, s.ids) && s.exeq != [] && Runs(s, s.exeq[0])
    requires o in s.ids.runId && s.ids.runId[o] == s.exeq[0].uid
    ensures s.ids.objects[s.exeq[0].uid.index].owner == Some(o)
  {
    var p := FrontObject(s);
    FrontOwner(s, p);
    OnlyOwner(s, p);
  }

  lemma ExecSight(s: State, o: ObjectId)
    requires InvIds(s.ids) && InvLoop(s) && InvKnown(s.exeq, s.mail, s.ids) && CanExec(s)
    requires o in s.ids.runId && o !in s.ids.stopped
    ensures InSight(DoExecNext(s), s.ids.runId[o]) + |CallAt(s, ExecNext, o)| >= InSight(s, s.ids.runId[o])
  {
    if Runs(s, s.exeq[0]) {
      RunSight(s, s.ids.runId[o]);
      if s.exeq[0].uid == s.ids.runId[o] && s.exeq[0].task.OnEvent? { RunGets(s, o); }
    } else {
      DropSight(s, o);
    }
  }

  lemma PostStopSight(s: State, u: Uid)
    requires InvLoop(s) && CanPostStop(s)
    ensures InSight(DoPostStop(s), u) == InSight(s, u)
  {
    if Current(s).value in s.gate.visible {
      AppendSight(s, DoPostStop(s), ExecStub(CurrentUid(s), StopRepost, DUMMY_HANDLER), u);
    }
  }

  lemma PostSight(s: State, f: nat, h: nat, u: Uid)
    requires InvLoop(s) && Enabled(s, Post(f, h))
    ensures InSight(Apply(s, Post(f, h)), u) == InSight(s, u)
  {
    AppendSight(s, Apply(s, Post(f, h)), ExecStub(CurrentUid(s), Posted(f), Uid(h, s.handlers[h])), u);
  }

  lemma PhaseSight(s: State, a: Step, u: Uid)
    requires InvLoop(s) && Enabled(s, a)
    requires a.Publish? || a.VisitBegin? || a.RequestStop? || a.Block? || a.EventsDone? || a.TimerFire? || a.TimersDone?
             || a.AddHandler? || a.DropHandler?
    ensures InSight(Apply(s, a), u) == InSight(s, u)
  {
    if a.TimersDone? { assert s.exeq[..|s.exeq|] == s.exeq; }
  }

  lemma OtherSight(s: State, a: Step, u: Uid)
    requires InvLoop(s) && Enabled(s, a) && !a.ExecsDone? && !a.ExecNext?
    ensures InSight(Apply(s, a), u) >= InSight(s, u)
  {
    match a
    case Push(p, e) => PushSight(s, p, e, u);
    case VisitRaise(p) => RaiseSight(s, p, u);
    case Swap => SwapSight(s, u);
    case Install => InstallSight(s, u);
    case Enqueue => EnqueueSight(s, u);
    case Post(f, h) => PostSight(s, f, h, u);
    case PostStop => PostStopSight(s, u);
    case Return => ReturnSight(s, u);
    case _ => PhaseSight(s, a, u);
  }

  lemma StepSight(s: State, a: Step, o: ObjectId)
    requires InvIds(s.ids) && InvLoop(s) && InvKnown(s.exeq, s.mail, s.ids)
    requires Enabled(s, a) && !a.ExecsDone? && o in s.ids.runId && o !in s.ids.stopped
    ensures InSight(Apply(s, a), s.ids.runId[o]) + |CallAt(s, a, o)| >= InSight(s, s.ids.runId[o])
  {
    if a.ExecNext? { ExecSight(s, o); } else { OtherSight(s, a, s.ids.runId[o]); }
  }

  // ---- The end of a round

  /** When a round ends nothing in sight is left over, and everything outstanding comes into sight. */
  lemma RoundSight(s: State, o: ObjectId)
    requires InvLoop(s) && Enabled(s, ExecsDone) && o in s.ids.runId && o !in s.ids.stopped
    requires Balanced(o, s.history, Ahead(s), s.ids, s.mail)
    ensures InSight(s, s.ids.runId[o]) == 0
    ensures Got(s, o) + InSight(s.(pc := Waiting), s.ids.runId[o]) == |Of(s.history.raised, o)|
  {
    assert s.exeq[..0] == [];
    var u := s.ids.runId[o];
    assert |Outstanding(u, Ahead(s), s.ids, s.mail)| == InSight(s.(pc := Waiting), u);
  }

  /** How many rounds have to end until an object that got `got` events, with `sight` more in sight, has `n` */
  function RoundsWith(got: nat, sight: nat, n: nat): nat {
    if got >= n then 0 else if got + sight >= n then 1 else 2
  }

  function RoundsFor(s: State, o: ObjectId, n: nat): nat
    requires o in s.ids.runId
  {
    RoundsWith(Got(s, o), InSight(s, s.ids.runId[o]), n)
  }

  lemma FewerRounds(got: nat, sight: nat, now: nat, next: nat, n: nat)
    requires got <= now && now + next >= got + sight
    ensures RoundsWith(now, next, n) <= RoundsWith(got, sight, n)
  {
  }

  lemma StepRounds(s: State, a: Step, o: ObjectId, n: nat)
    requires Inv(s) && Enabled(s, a) && FrontHasHistory(s) && Recorded(s.history, s.ids)
    requires o in s.ids.runId && o !in s.ids.stopped && o in Apply(s, a).ids.runId
    requires Apply(s, a).ids.runId[o] == s.ids.runId[o] && !a.ExecsDone?
    ensures RoundsFor(Apply(s, a), o, n) <= RoundsFor(s, o, n)
  {
    var u := s.ids.runId[o];
    CallStepIs(s, a, o);
    StepSight(s, a, o);
    FewerRounds(Got(s, o), InSight(s, u), Got(Apply(s, a), o), InSight(Apply(s, a), u), n);
  }

  lemma EndRounds(s: State, o: ObjectId, n: nat)
    requires InvLoop(s) && InvFlow(s) && Enabled(s, ExecsDone) && o in s.ids.runId && o !in s.ids.stopped
    requires n <= |Of(s.history.raised, o)|
    ensures RoundsFor(Apply(s, ExecsDone), o, n) <= if RoundsFor(s, o, n) > 0 then RoundsFor(s, o, n) - 1 else 0
  {
    assert Balanced(o, s.history, Ahead(s), s.ids, s.mail);
    RoundSight(s, o);
    assert Apply(s, ExecsDone) == s.(pc := Waiting);
    AllInSight(Got(s, o), InSight(s.(pc := Waiting), s.ids.runId[o]), n);
  }

  lemma AllInSight(got: nat, next: nat, n: nat)
    requires got + next >= n
    ensures RoundsWith(got, next, n) <= if RoundsWith(got, 0, n) > 0 then RoundsWith(got, 0, n) - 1 else 0
  {
  }

  lemma StoppedStays(s: State, a: Step, o: ObjectId)
    requires Enabled(s, a) && o in s.ids.runId
    ensures o in Apply(s, a).ids.runId && Apply(s, a).ids.runId[o] == s.ids.runId[o]
    ensures o in s.ids.stopped ==> o in Apply(s, a).ids.stopped
  {
    if a.ExecNext? { ExecStays(s); }
  }

  lemma {:induction false} StaysStopped(s: State, run: seq<Step>, o: ObjectId)
    requires Legal(s, run) && o in s.ids.runId && o in s.ids.stopped
    ensures o in After(s, run).ids.stopped
    decreases |run|
  {
    if run != [] {
      StoppedStays(s, run[0], o);
      StaysStopped(Apply(s, run[0]), run[1..], o);
    }
  }

  lemma {:induction false} RunDelivers(s: State, run: seq<Step>, o: ObjectId, n: nat)
    requires Inv(s) && Legal(s, run) && Recorded(s.history, s.ids) && o in s.ids.runId
    requires o !in After(s, run).ids.stopped && n <= |Of(s.history.raised, o)|
    requires Rounds(run) >= RoundsFor(s, o, n)
    ensures Got(After(s, run), o) >= n
    decreases |run|
  {
    if run != [] {
      var t := Apply(s, run[0]);
      if o in s.ids.stopped { StaysStopped(s, run, o); }
      StepKeepsInv(s, run[0]);
      FrontRecorded(s);
      StoppedStays(s, run[0], o);
      CallStepIs(s, run[0], o);
      if run[0].ExecsDone? { EndRounds(s, o, n); } else { StepRounds(s, run[0], o, n); }
      RaisedGrows(s, run[0], o);
      RunDelivers(t, run[1..], o, n);
    }
  }

  lemma RaisedGrows(s: State, a: Step, o: ObjectId)
    requires Enabled(s, a) && InvGate(s.gate, s.history, s.ids) && o in s.ids.runId
    ensures |Of(Apply(s, a).history.raised, o)| >= |Of(s.history.raised, o)|
  {
    var pending := if o in s.gate.locked && s.gate.locked[o].Visiting? then s.gate.locked[o].event else 0;
    RaisedStep(s, a, o, pending);
  }

  /** In every run: when two more rounds have ended, the callbacks of an object that is not stopped were entered with
      every event raised for it before, in order. */
  lemma EventsAreDelivered(before: seq<Step>, rest: seq<Step>, o: ObjectId)
    requires Legal(INITIAL, before) && Legal(After(INITIAL, before), rest) && Rounds(rest) >= 2
    requires o in After(INITIAL, before).ids.runId && o !in After(After(INITIAL, before), rest).ids.stopped
    ensures Legal(INITIAL, before + rest) && RaisedBy(before, o) <= Calls(INITIAL, before + rest, o)
  {
    RunConcat(INITIAL, before, rest);
    EnoughCalls(before, rest, o);
    DeliveredInOrder(before, rest, o);
    PrefixOfBoth(RaisedBy(before, o), Calls(INITIAL, before + rest, o), RaisedBy(before + rest, o));
  }

  lemma PrefixOfBoth(a: seq<Event>, b: seq<Event>, c: seq<Event>)
    requires a <= c && b <= c && |a| <= |b|
    ensures a <= b
  {
    assert a == c[..|a|] && b == c[..|b|];
  }

  lemma EnoughCalls(before: seq<Step>, rest: seq<Step>, o: ObjectId)
    requires Legal(INITIAL, before) && Legal(After(INITIAL, before), rest) && Rounds(rest) >= 2
    requires Legal(INITIAL, before + rest) && After(INITIAL, before + rest) == After(After(INITIAL, before), rest)
    requires o in After(INITIAL, before).ids.runId && o !in After(After(INITIAL, before), rest).ids.stopped
    ensures |Calls(INITIAL, before + rest, o)| >= |RaisedBy(before, o)|
  {
    HistoryIsTrace(before, o);
    HistoryIsTrace(before + rest, o);
    EnoughGot(before, After(INITIAL, before), rest, o);
  }

  lemma EnoughGot(before: seq<Step>, s: State, rest: seq<Step>, o: ObjectId)
    requires Legal(INITIAL, before) && s == After(INITIAL, before) && Legal(s, rest) && Rounds(rest) >= 2
    requires o in s.ids.runId && o !in After(s, rest).ids.stopped
    ensures Got(After(s, rest), o) >= |Of(s.history.raised, o)|
  {
    ReachableInv(before);
    AlwaysRecorded(before);
    AllDelivered(s, rest, o);
  }

  lemma AllDelivered(s: State, run: seq<Step>, o: ObjectId)
    requires Inv(s) && Legal(s, run) && Recorded(s.history, s.ids) && o in s.ids.runId
    requires o !in After(s, run).ids.stopped && Rounds(run) >= 2
    ensures Got(After(s, run), o) >= |Of(s.history.raised, o)|
  {
    TwoRounds(s, o, |Of(s.history.raised, o)|);
    RunDelivers(s, run, o, |Of(s.history.raised, o)|);
  }

  lemma TwoRounds(s: State, o: ObjectId, n: nat)
    requires o in s.ids.runId
    ensures RoundsFor(s, o, n) <= 2
  {
  }

  lemma AlwaysRecorded(run: seq<Step>)
    requires Legal(INITIAL, run)
    ensures Recorded(After(INITIAL, run).history, After(INITIAL, run).ids)
  {
    InitialInv();
    ReachableRecorded(INITIAL, run);
  }

  lemma {:induction false} ReachableRecorded(s: State, run: seq<Step>)
    requires Inv(s) && Legal(s, run) && Recorded(s.history, s.ids)
    ensures Recorded(After(s, run).history, After(s, run).ids)
    decreases |run|
  {
    if run != [] {
      StepKeepsInv(s, run[0]);
      FrontRecorded(s);
      CallStepIs(s, run[0], 0);
      ReachableRecorded(Apply(s, run[0]), run[1..]);
    }
  }

  /** What was raised before and what the callbacks were entered with are parts of what was raised in all. */
  lemma DeliveredInOrder(before: seq<Step>, rest: seq<Step>, o: ObjectId)
    requires Legal(INITIAL, before) && Legal(After(INITIAL, before), rest) && Legal(INITIAL, before + rest)
    requires After(INITIAL, before + rest) == After(After(INITIAL, before), rest)
    requires o in After(INITIAL, before).ids.runId && o !in After(INITIAL, before + rest).ids.stopped
    ensures Calls(INITIAL, before + rest, o) <= RaisedBy(before + rest, o)
    ensures RaisedBy(before, o) <= RaisedBy(before + rest, o)
  {
    StaysKnown(After(INITIAL, before), rest, o);
    NothingLostOrReordered(before + rest, o);
    RaisedFurther(before, rest, o);
  }

  lemma RaisedFurther(before: seq<Step>, rest: seq<Step>, o: ObjectId)
    requires Legal(INITIAL, before) && Legal(After(INITIAL, before), rest) && Legal(INITIAL, before + rest)
    requires After(INITIAL, before + rest) == After(After(INITIAL, before), rest)
    ensures RaisedBy(before, o) <= RaisedBy(before + rest, o)
  {
    ReachableInv(before);
    var s := After(INITIAL, before);
    var pending := if o in s.gate.locked && s.gate.locked[o].Visiting? then s.gate.locked[o].event else 0;
    RaisedTrace(s, rest, o, pending);
    HistoryIsTrace(before, o);
    HistoryIsTrace(before + rest, o);
  }

  lemma {:induction false} StaysKnown(s: State, run: seq<Step>, o: ObjectId)
    requires Legal(s, run) && o in s.ids.runId
    ensures o in After(s, run).ids.runId
    decreases |run|
  {
    if run != [] {
      StoppedStays(s, run[0], o);
      StaysKnown(Apply(s, run[0]), run[1..], o);
    }
  }
}
