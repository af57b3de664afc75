/** What holds in every run of the event loop. */
module ReactorRuns {
  import opened Common
  import opened RunIds
  import opened Reactor
  import opened ReactorQueues
  import opened ReactorInv
  import opened ReactorStop
  import opened ReactorSteps
  import opened ReactorTraces

  lemma {:induction false} RunKeepsInv(s: State, run: seq<Step>)
    requires Inv(s) && Legal(s, run)
    ensures Inv(After(s, run))
    decreases |run|
  {
    if run == [] {
    } else {
      StepKeepsInv(s, run[0]);
      RunKeepsInv(Apply(s, run[0]), run[1..]);
    }
  }

  lemma ReachableInv(run: seq<Step>)
    requires Legal(INITIAL, run)
    ensures Inv(After(INITIAL, run))
  {
    InitialInv();
    RunKeepsInv(INITIAL, run);
  }

  // ---- Run ids

  /** The generation assertion of doCompleteEvents holds in every run, and no live object sits in
      the slot a new one is about to take. */
  lemma NewTaskMatchesSlot(run: seq<Step>)
    requires Legal(INITIAL, run)
    ensures var d := After(INITIAL, run).ids;
            d.pushTake != [] ==>
              && Generation(d, d.pushTake[0].uid.index) == d.pushTake[0].uid.unique
              && Free(d, d.pushTake[0].uid.index)
  {
    ReachableInv(run);
    var d := After(INITIAL, run).ids;
    if d.pushTake != [] { NewTaskGenerationMatches(d); }
  }

  /** Whatever entry is about to run, it runs on the object its run id was given to, and that object
      has not been stopped: nothing queued for a stopped object reaches the slot's next owner. */
  lemma QueuedRunsOnItsObject(run: seq<Step>) returns (o: ObjectId)
    requires Legal(INITIAL, run)
    requires var s := After(INITIAL, run); CanExec(s) && Runs(s, s.exeq[0])
    ensures var s := After(INITIAL, run);
            && o in s.ids.runId && s.ids.runId[o] == s.exeq[0].uid && o !in s.ids.stopped
            && s.ids.objects[s.exeq[0].uid.index].owner == Some(o)
  {
    ReachableInv(run);
    var s := After(INITIAL, run);
    o := FrontObject(s);
    FrontOwner(s, o);
  }

  /** A function is only ever queued for an object that is installed, or was and has been stopped. */
  lemma InstalledBeforeQueued(run: seq<Step>, e: ExecStub, o: ObjectId)
    requires Legal(INITIAL, run)
    requires var s := After(INITIAL, run); e in s.exeq && o in s.ids.runId && s.ids.runId[o] == e.uid
    ensures var d := After(INITIAL, run).ids; o in d.stopped || Installed(d, o)
  {
    ReachableInv(run);
    var s := After(INITIAL, run);
    assert KnownExec(e, s.ids);
    assert PlacedOne(s.ids, o);
  }

  // ---- Delivery

  /** For every object that is not stopped, the events its callbacks were entered with, followed by what is
      outstanding, are exactly the events the steps of the run raised for it, in order: nothing is lost, duplicated
      or reordered by the double buffering. */
  lemma NothingLostOrReordered(run: seq<Step>, o: ObjectId)
    requires Legal(INITIAL, run)
    requires var d := After(INITIAL, run).ids; o in d.runId && o !in d.stopped
    ensures var s := After(INITIAL, run);
            Calls(INITIAL, run, o) + Outstanding(s.ids.runId[o], Ahead(s), s.ids, s.mail) == RaisedBy(run, o)
  {
    ReachableInv(run);
    HistoryIsTrace(run, o);
    var s := After(INITIAL, run);
    assert Balanced(o, s.history, Ahead(s), s.ids, s.mail);
  }

  /** A reactor that sleeps has nothing queued to run, and without a pending signal nothing to fetch and no stop
      request. */
  lemma NoLostWakeUp(run: seq<Step>)
    requires Legal(INITIAL, run)
    ensures var s := After(INITIAL, run);
            && (s.pc.Blocked? ==> s.exeq == [])
            && (s.pc == Blocked(false) ==> s.ids.pushFill == [] && s.mail.fill == [] && !s.mustStop)
  {
    ReachableInv(run);
  }

  // ---- Stopping

  /** What never changes again once a stop was posted. */
  ghost predicate Settled(s: State, o: ObjectId, late: seq<Event>, raised: seq<Event>) {
    && o in s.ids.runId && o in s.history.late && s.history.late[o] == late
    && o in s.history.raised && s.history.raised[o] == raised
  }

  lemma StepSettled(s: State, a: Step, o: ObjectId, late: seq<Event>, raised: seq<Event>)
    requires Enabled(s, a) && Settled(s, o, late, raised) && GateOne(o, s.gate, s.history, s.ids)
    requires a.VisitRaise? && a.obj in s.ids.runId ==> GateOne(a.obj, s.gate, s.history, s.ids)
    ensures Settled(Apply(s, a), o, late, raised)
  {
    match a
    case ExecNext => ExecSettled(s, o, late, raised);
    case PostStop => PostSettled(s, o, late, raised);
    case _ =>
  }

  lemma ExecSettled(s: State, o: ObjectId, late: seq<Event>, raised: seq<Event>)
    requires CanExec(s) && Settled(s, o, late, raised)
    ensures Settled(DoExecNext(s), o, late, raised)
  {
  }

  lemma PostSettled(s: State, o: ObjectId, late: seq<Event>, raised: seq<Event>)
    requires CanPostStop(s) && Settled(s, o, late, raised) && GateOne(o, s.gate, s.history, s.ids)
    ensures Settled(DoPostStop(s), o, late, raised)
  {
  }

  lemma {:induction false} RunSettled(s: State, run: seq<Step>, o: ObjectId, late: seq<Event>, raised: seq<Event>)
    requires Inv(s) && Legal(s, run) && Settled(s, o, late, raised)
    ensures Settled(After(s, run), o, late, raised) && Inv(After(s, run))
    decreases |run|
  {
    if run == [] {
    } else {
      StepKeepsInv(s, run[0]);
      assert GateOne(o, s.gate, s.history, s.ids);
      StepSettled(s, run[0], o, late, raised);
      RunSettled(Apply(s, run[0]), run[1..], o, late, raised);
    }
  }

  /** The run `before`, in which the current object then posts its stop, and what follows */
  function Stopping(before: seq<Step>, rest: seq<Step>): seq<Step> {
    before + ([PostStop] + rest)
  }

  lemma StoppingIsRun(before: seq<Step>, rest: seq<Step>)
    requires Legal(INITIAL, before)
    requires var s := After(INITIAL, before); CanPostStop(s) && Legal(DoPostStop(s), rest)
    ensures Legal(INITIAL, Stopping(before, rest))
    ensures After(INITIAL, Stopping(before, rest)) == After(DoPostStop(After(INITIAL, before)), rest)
  {
    assert ([PostStop] + rest)[1..] == rest;
    RunConcat(INITIAL, before, [PostStop] + rest);
  }

  /** In the histories of the states: a stop posted fixes what is raised, and when it has run all but the late events
      were delivered. */
  lemma StopRecorded(s: State, rest: seq<Step>)
    requires Inv(s) && CanPostStop(s) && Current(s).value in s.gate.visible && Legal(DoPostStop(s), rest)
    ensures var o := Current(s).value; var t := After(DoPostStop(s), rest).history;
            && Of(t.raised, o) == Of(s.history.raised, o)
            && (o in After(DoPostStop(s), rest).ids.stopped ==>
                  Of(t.delivered, o) + Overtaken(s, CurrentUid(s)) == Of(s.history.raised, o))
  {
    var o := Current(s).value;
    CurrentIsInstalled(s);
    assert GateOne(o, s.gate, s.history, s.ids);
    PostStopStep(s);
    RunSettled(DoPostStop(s), rest, o, Overtaken(s, CurrentUid(s)), s.history.raised[o]);
    var t := After(DoPostStop(s), rest);
    assert Balanced(o, t.history, Ahead(t), t.ids, t.mail);
  }

  /** In any run, once the visible object `o` posts its stop no further event is raised for it, and when it has been
      stopped its callbacks were entered with exactly its events minus the late ones. */
  lemma PostedStop(before: seq<Step>, rest: seq<Step>)
    requires Legal(INITIAL, before)
    requires var s := After(INITIAL, before);
             CanPostStop(s) && Current(s).value in s.gate.visible && Legal(DoPostStop(s), rest)
    ensures var s := After(INITIAL, before); var o := Current(s).value;
            var late := if s.pc.TimerCall? then RaisedIn(s.mail.fill, CurrentUid(s)) else [];
            var whole := Stopping(before, rest);
            && RaisedBy(whole, o) == RaisedBy(before, o)
            && Legal(INITIAL, whole)
            && (o in After(INITIAL, whole).ids.stopped ==> Calls(INITIAL, whole, o) + late == RaisedBy(before, o))
  {
    ReachableInv(before);
    var s := After(INITIAL, before);
    StoppingIsRun(before, rest);
    StopRecorded(s, rest);
    HistoryIsTrace(before, Current(s).value);
    HistoryIsTrace(Stopping(before, rest), Current(s).value);
  }

  lemma NothingLate(calls: seq<Event>, late: seq<Event>, raised: seq<Event>)
    requires calls + late == raised
    ensures calls == raised <==> late == []
  {
    assert |calls| + |late| == |raised|;
    assert late == [] ==> calls + late == calls;
  }

  /** The promise behind postStop: whenever the object has been stopped, it was called with every event raised for it.
      It is kept exactly by the stops posted from the exec phase and by those that find none of the object's events
      in the fill vector. */
  lemma StopDeliversEverything(before: seq<Step>, rest: seq<Step>)
    requires Legal(INITIAL, before)
    requires var s := After(INITIAL, before);
             CanPostStop(s) && Current(s).value in s.gate.visible && Legal(DoPostStop(s), rest)
    requires var s := After(INITIAL, before); Current(s).value in After(DoPostStop(s), rest).ids.stopped
    ensures var s := After(INITIAL, before); var o := Current(s).value; var whole := Stopping(before, rest);
            && Legal(INITIAL, whole)
            && (Calls(INITIAL, whole, o) == RaisedBy(whole, o) <==>
                s.pc.ExecCall? || RaisedIn(s.mail.fill, CurrentUid(s)) == [])
  {
    var s := After(INITIAL, before);
    var o := Current(s).value;
    var late := if s.pc.TimerCall? then RaisedIn(s.mail.fill, CurrentUid(s)) else [];
    StoppingIsRun(before, rest);
    PostedStop(before, rest);
    NothingLate(Calls(INITIAL, Stopping(before, rest), o), late, RaisedBy(before, o));
  }

  /** Running a stop always finds a live object that posted its stop: no object is stopped twice. */
  lemma StopsOnce(run: seq<Step>) returns (o: ObjectId)
    requires Legal(INITIAL, run)
    requires var s := After(INITIAL, run); CanExec(s) && Runs(s, s.exeq[0]) && s.exeq[0].task.StopNow?
    ensures var s := After(INITIAL, run);
            && o in s.history.late && o !in s.gate.visible && o !in s.ids.stopped
            && DoExecNext(s).ids.stopped == s.ids.stopped + {o}
  {
    ReachableInv(run);
    var s := After(INITIAL, run);
    o := StopReady(s);
    assert GateOne(o, s.gate, s.history, s.ids);
  }

  // ---- The failing family is not empty

  lemma {:induction false} RunConcat(s: State, p: seq<Step>, q: seq<Step>)
    requires Legal(s, p) && Legal(After(s, p), q)
    ensures Legal(s, p + q) && After(s, p + q) == After(After(s, p), q)
    decreases |p|
  {
    if p == [] {
      assert p + q == q;
    } else {
      assert (p + q)[0] == p[0] && (p + q)[1..] == p[1..] + q;
      RunConcat(Apply(s, p[0]), p[1..], q);
    }
  }

  /** Object 1 installed in slot 1 with the given queues and history. */
  function One(pc: Pc, exeq: seq<ExecStub>, mail: Mail, gate: Gate, history: History): State {
    State(Ids([], 2, [], [], [], [ObjectStub(0, None), ObjectStub(0, Some(1))], map[1 := Uid(1, 0)], {}),
          0, mail, false, [0], exeq, pc, gate, history)
  }

  function Entry(task: Task): ExecStub {
    ExecStub(Uid(1, 0), task, DUMMY_HANDLER)
  }

  lemma Extend(s: State, run: seq<Step>, t: State, a: Step, u: State) returns (r: seq<Step>)
    requires Legal(s, run) && After(s, run) == t && Enabled(t, a) && Apply(t, a) == u
    ensures r == run + [a] && Legal(s, r) && After(s, r) == u
  {
    r := run + [a];
    assert [a][1..] == [];
    RunConcat(s, run, [a]);
  }

  /** Object 1 on its way to slot 1, in one of the two vectors of new tasks. */
  function Coming(pc: Pc, size: nat, fill: seq<NewTask>, take: seq<NewTask>, gate: Gate): State {
    State(Ids([], 2, [], fill, take, [ObjectStub(0, None)], map[1 := Uid(1, 0)], {}), size, Mail([], [], 0), false, [0],
          [], pc, gate, History(map[1 := [10]], map[1 := []], map[]))
  }

  lemma FirstPush(q: seq<NewTask>)
    requires q == [NewTask(Uid(1, 0), 1, 10)]
    ensures Enabled(INITIAL, Push(1, 10))
    ensures Apply(INITIAL, Push(1, 10)) == Coming(Waiting, 1, q, [], Gate({}, map[1 := Registering]))
  {
    assert INITIAL_IDS.pushFill + q == q;
  }

  lemma FirstPublish(q: seq<NewTask>, s: State)
    requires s == Coming(Waiting, 1, q, [], Gate({}, map[1 := Registering]))
    ensures Enabled(s, Publish(1)) && Apply(s, Publish(1)) == Coming(Waiting, 1, q, [], Gate({1}, map[]))
  {
    assert map[1 := Registering] - {1} == map[];
    assert {} + {1} == {1};
  }

  lemma FirstSwap(q: seq<NewTask>, s: State)
    requires s == Coming(Waiting, 1, q, [], Gate({1}, map[]))
    ensures Enabled(s, Swap) && Apply(s, Swap) == Coming(Events, 0, [], q, Gate({1}, map[]))
  {
  }

  lemma FirstInstall(q: seq<NewTask>, s: State)
    requires q == [NewTask(Uid(1, 0), 1, 10)] && s == Coming(Events, 0, [], q, Gate({1}, map[]))
    ensures Enabled(s, Install)
    ensures Apply(s, Install) == One(Events, [Entry(OnEvent(10))], Mail([], [], 0), Gate({1}, map[]), s.history)
  {
    assert InstallFirst(s.ids).objects == [ObjectStub(0, None), ObjectStub(0, Some(1))];
    assert q[1..] == [];
  }

  lemma FirstEvent() returns (run: seq<Step>)
    ensures Legal(INITIAL, run)
    ensures After(INITIAL, run) == One(Events, [Entry(OnEvent(10))], Mail([], [], 0), Gate({1}, map[]),
                                       History(map[1 := [10]], map[1 := []], map[]))
  {
    var q := [NewTask(Uid(1, 0), 1, 10)];
    FirstPush(q);
    run := Extend(INITIAL, [], INITIAL, Push(1, 10), Apply(INITIAL, Push(1, 10)));
    var s := After(INITIAL, run);
    FirstPublish(q, s);
    run := Extend(INITIAL, run, s, Publish(1), Apply(s, Publish(1)));
    s := After(INITIAL, run);
    FirstSwap(q, s);
    run := Extend(INITIAL, run, s, Swap, Apply(s, Swap));
    s := After(INITIAL, run);
    FirstInstall(q, s);
    run := Extend(INITIAL, run, s, Install, Apply(s, Install));
  }

  /** Its first event is delivered. */
  lemma FirstCall(before: seq<Step>, h: History) returns (run: seq<Step>)
    requires h == History(map[1 := [10]], map[1 := []], map[])
    requires Legal(INITIAL, before)
    requires After(INITIAL, before) == One(Events, [Entry(OnEvent(10))], Mail([], [], 0), Gate({1}, map[]), h)
    ensures Legal(INITIAL, run)
    ensures After(INITIAL, run) == One(ExecCall(1, 1), [Entry(OnEvent(10))], Mail([], [], 0), Gate({1}, map[]),
                                       h.(delivered := map[1 := [10]]))
  {
    var m, g, q := Mail([], [], 0), Gate({1}, map[]), [Entry(OnEvent(10))];
    assert h.delivered[1] + [10] == [10];
    run := Extend(INITIAL, before, One(Events, q, m, g, h), EventsDone, One(Timers, q, m, g, h));
    run := Extend(INITIAL, run, One(Timers, q, m, g, h), TimersDone, One(Execs(1), q, m, g, h));
    run := Extend(INITIAL, run, One(Execs(1), q, m, g, h), ExecNext,
                  One(ExecCall(1, 1), q, m, g, h.(delivered := map[1 := [10]])));
  }

  /** On to the second round's timer phase. */
  lemma SecondRound(before: seq<Step>, h: History) returns (run: seq<Step>)
    requires Legal(INITIAL, before)
    requires After(INITIAL, before) == One(ExecCall(1, 1), [Entry(OnEvent(10))], Mail([], [], 0), Gate({1}, map[]), h)
    ensures Legal(INITIAL, run)
    ensures After(INITIAL, run) == One(Timers, [], Mail([], [], 0), Gate({1}, map[]), h)
  {
    var m, g, q := Mail([], [], 0), Gate({1}, map[]), [Entry(OnEvent(10))];
    run := Extend(INITIAL, before, One(ExecCall(1, 1), q, m, g, h), Return, One(Execs(0), [], m, g, h));
    run := Extend(INITIAL, run, One(Execs(0), [], m, g, h), ExecsDone, One(Waiting, [], m, g, h));
    run := Extend(INITIAL, run, One(Waiting, [], m, g, h), Swap, One(Timers, [], m, g, h));
  }

  /** A timer callback during which an event is raised for its object. */
  lemma RaisedMeanwhile(before: seq<Step>, h: History) returns (run: seq<Step>)
    requires h == History(map[1 := [10]], map[1 := [10]], map[])
    requires Legal(INITIAL, before)
    requires After(INITIAL, before) == One(Timers, [], Mail([], [], 0), Gate({1}, map[]), h)
    ensures Legal(INITIAL, run)
    ensures After(INITIAL, run) == One(TimerCall(1), [], Mail([RaiseStub(Uid(1, 0), 11)], [], 1), Gate({1}, map[]),
                                       h.(raised := map[1 := [10, 11]]))
  {
    var m, g := Mail([], [], 0), Gate({1}, map[]);
    run := Extend(INITIAL, before, One(Timers, [], m, g, h), TimerFire(1), One(TimerCall(1), [], m, g, h));
    var v := g.(locked := map[1 := Visiting(11)]);
    run := Extend(INITIAL, run, One(TimerCall(1), [], m, g, h), VisitBegin(1, 11), One(TimerCall(1), [], m, v, h));
    var t := One(TimerCall(1), [], Mail([RaiseStub(Uid(1, 0), 11)], [], 1), g, h.(raised := map[1 := [10, 11]]));
    assert v.locked - {1} == map[];
    assert h.raised[1] + [11] == [10, 11];
    run := Extend(INITIAL, run, One(TimerCall(1), [], m, v, h), VisitRaise(1), t);
  }

  lemma StopPostedNow(s: State)
    requires s == One(TimerCall(1), [], Mail([RaiseStub(Uid(1, 0), 11)], [], 1), Gate({1}, map[]),
                      History(map[1 := [10, 11]], map[1 := [10]], map[]))
    ensures CanPostStop(s) && Current(s) == Some(1)
    ensures DoPostStop(s) ==
            One(TimerCall(1), [Entry(StopRepost)], Mail([RaiseStub(Uid(1, 0), 11)], [], 1), Gate({}, map[]),
                                 History(map[1 := [10, 11]], map[1 := [10]], map[1 := [11]]))
  {
    assert RaisedIn(s.mail.fill, Uid(1, 0)) == [11];
  }

  /** After the callback posted its stop: the reposting entry runs in the same round. */
  lemma RepostedFirst(s: State) returns (run: seq<Step>)
    requires s == One(TimerCall(1), [Entry(StopRepost)], Mail([RaiseStub(Uid(1, 0), 11)], [], 1), Gate({}, map[]),
                      History(map[1 := [10, 11]], map[1 := [10]], map[1 := [11]]))
    ensures Legal(s, run) && After(s, run) == One(Waiting, [Entry(StopNow)], s.mail, s.gate, s.history)
  {
    var m, g, h := s.mail, s.gate, s.history;
    run := Extend(s, [], s, Return, One(Timers, [Entry(StopRepost)], m, g, h));
    run := Extend(s, run, One(Timers, [Entry(StopRepost)], m, g, h), TimersDone,
                  One(Execs(1), [Entry(StopRepost)], m, g, h));
    run := Extend(s, run, One(Execs(1), [Entry(StopRepost)], m, g, h), ExecNext,
                  One(Execs(0), [Entry(StopNow)], m, g, h));
    run := Extend(s, run, One(Execs(0), [Entry(StopNow)], m, g, h), ExecsDone, One(Waiting, [Entry(StopNow)], m, g, h));
  }

  /** In the next round the final entry is ahead of the event. */
  lemma StopAhead(s: State, m: Mail, g: Gate, h: History) returns (run: seq<Step>)
    requires m == Mail([RaiseStub(Uid(1, 0), 11)], [], 1) && s == One(Waiting, [Entry(StopNow)], m, g, h)
    ensures Legal(s, run)
    ensures After(s, run) == One(Execs(2), [Entry(StopNow), Entry(OnEvent(11))], Mail([], [], 0), g, h)
  {
    var k := Mail([], [RaiseStub(Uid(1, 0), 11)], 0);
    run := Extend(s, [], s, Swap, One(Events, [Entry(StopNow)], k, g, h));
    var q := [Entry(StopNow), Entry(OnEvent(11))];
    run := Extend(s, run, One(Events, [Entry(StopNow)], k, g, h), Enqueue, One(Events, q, Mail([], [], 0), g, h));
    run := Extend(s, run, One(Events, q, Mail([], [], 0), g, h), EventsDone, One(Timers, q, Mail([], [], 0), g, h));
    run := Extend(s, run, One(Timers, q, Mail([], [], 0), g, h), TimersDone, One(Execs(2), q, Mail([], [], 0), g, h));
  }

  lemma StopRunsNow(s: State, q: seq<ExecStub>, g: Gate, h: History)
    requires q == [Entry(StopNow), Entry(OnEvent(11))] && s == One(Execs(2), q, Mail([], [], 0), g, h)
    ensures Enabled(s, ExecNext) && Apply(s, ExecNext).history == h && Apply(s, ExecNext).ids.stopped == {1}
  {
  }

  /** So it runs before the event. */
  lemma StoppedFirst(s: State) returns (run: seq<Step>)
    requires s == One(TimerCall(1), [Entry(StopRepost)], Mail([RaiseStub(Uid(1, 0), 11)], [], 1), Gate({}, map[]),
                      History(map[1 := [10, 11]], map[1 := [10]], map[1 := [11]]))
    ensures Legal(s, run) && After(s, run).history == s.history && After(s, run).ids.stopped == {1}
  {
    run := RepostedFirst(s);
    var t := After(s, run);
    var more := StopAhead(t, s.mail, s.gate, s.history);
    RunConcat(s, run, more);
    run := run + more;
    var u := After(s, run);
    StopRunsNow(u, [Entry(StopNow), Entry(OnEvent(11))], s.gate, s.history);
    run := Extend(s, run, u, ExecNext, Apply(u, ExecNext));
  }

  /** The promise does fail: a timer callback that posts a stop while an event of its object is in the
      fill vector stops the object before that event is delivered: 10 and 11 are raised, and only 10 arrives. */
  lemma TimerStopLosesEvent() returns (before: seq<Step>, rest: seq<Step>)
    ensures Legal(INITIAL, before)
    ensures var s := After(INITIAL, before);
            && CanPostStop(s) && Current(s) == Some(1) && 1 in s.gate.visible && s.pc.TimerCall?
            && Legal(DoPostStop(s), rest)
    ensures Legal(INITIAL, Stopping(before, rest)) && 1 in After(INITIAL, Stopping(before, rest)).ids.stopped
    ensures RaisedBy(Stopping(before, rest), 1) == [10, 11] && Calls(INITIAL, Stopping(before, rest), 1) == [10]
  {
    before := FirstEvent();
    before := FirstCall(before, History(map[1 := [10]], map[1 := []], map[]));
    before := SecondRound(before, History(map[1 := [10]], map[1 := [10]], map[]));
    before := RaisedMeanwhile(before, History(map[1 := [10]], map[1 := [10]], map[]));
    var s := After(INITIAL, before);
    StopPostedNow(s);
    rest := StoppedFirst(DoPostStop(s));
    StoppingIsRun(before, rest);
    HistoryIsTrace(Stopping(before, rest), 1);
  }
}
