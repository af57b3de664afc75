/** A function posted by user code runs exactly once, unless its object is stopped or its handler dropped before. */
module ReactorPosts {
  import opened Common
  import opened RunIds
  import opened Reactor
  import opened ReactorInv
  import opened ReactorSteps
  import opened ReactorRuns
  import opened ReactorProgress
  import opened ReactorDelivery

  // ---- What a run posted and ran

  /** The function a step posts for the object with run id `u` under handler `h` */
  function PostAt(s: State, a: Step, u: Uid, h: Uid): seq<nat>
    requires Enabled(s, a)
  {
    if a.Post? && CurrentUid(s) == u && Uid(a.handler, s.handlers[a.handler]) == h then [a.fn] else []
  }

  /** The function a step begins to run for it */
  function RanAt(s: State, a: Step, u: Uid, h: Uid): seq<nat>
    requires Enabled(s, a)
  {
    var t := Apply(s, a);
    if a.ExecNext? && t.pc.ExecCall? && s.exeq[0].task.Posted? && s.exeq[0].handler == h
       && Current(t).Some? && CurrentUid(t) == u
    then [s.exeq[0].task.fn] else []
  }

  function PostedIn(s: State, run: seq<Step>, u: Uid, h: Uid): seq<nat>
    requires Legal(s, run)
    decreases |run|
  {
    if run == [] then [] else PostAt(s, run[0], u, h) + PostedIn(Apply(s, run[0]), run[1..], u, h)
  }

  function RanIn(s: State, run: seq<Step>, u: Uid, h: Uid): seq<nat>
    requires Legal(s, run)
    decreases |run|
  {
    if run == [] then [] else RanAt(s, run[0], u, h) + RanIn(Apply(s, run[0]), run[1..], u, h)
  }

  /** The functions waiting in the queue for it */
  function FnsIn(q: seq<ExecStub>, u: Uid, h: Uid): seq<nat> {
    if q == [] then [] else (if Waits(q[0], u, h) then [q[0].task.fn] else []) + FnsIn(q[1..], u, h)
  }

  predicate Waits(e: ExecStub, u: Uid, h: Uid) {
    e.task.Posted? && e.uid == u && e.handler == h
  }

  lemma {:induction false} FnsAppend(q: seq<ExecStub>, e: ExecStub, u: Uid, h: Uid)
    ensures FnsIn(q + [e], u, h) == FnsIn(q, u, h) + if Waits(e, u, h) then [e.task.fn] else []
  {
    if q == [] {
    } else {
      assert (q + [e])[1..] == q[1..] + [e];
      FnsAppend(q[1..], e, u, h);
    }
  }

  // ---- Objects stopped and handlers dropped

  predicate Live(s: State, u: Uid, h: Uid) {
    && u.index < |s.ids.objects| && s.ids.objects[u.index].unique == u.unique
    && h.index < |s.handlers| && s.handlers[h.index] == h.unique
  }

  /** The slot or the handler has a later generation. */
  predicate Gone(s: State, u: Uid, h: Uid) {
    || (u.index < |s.ids.objects| && s.ids.objects[u.index].unique > u.unique)
    || (h.index < |s.handlers| && s.handlers[h.index] > h.unique)
  }

  lemma StepAges(s: State, a: Step)
    requires Enabled(s, a)
    ensures var t := Apply(s, a);
            && |s.ids.objects| <= |t.ids.objects| && |s.handlers| <= |t.handlers|
            && (forall i :: 0 <= i < |s.ids.objects| ==> s.ids.objects[i].unique <= t.ids.objects[i].unique)
            && (forall i :: 0 <= i < |s.handlers| ==> s.handlers[i] <= t.handlers[i])
  {
    if a.ExecNext? { ExecAges(s); }
  }

  lemma ExecAges(s: State)
    requires CanExec(s)
    ensures var t := DoExecNext(s);
            && |s.ids.objects| == |t.ids.objects| && s.handlers == t.handlers
            && forall i :: 0 <= i < |s.ids.objects| ==> s.ids.objects[i].unique <= t.ids.objects[i].unique
  {
  }

  lemma StepGone(s: State, a: Step, u: Uid, h: Uid)
    requires Enabled(s, a)
    ensures Gone(s, u, h) ==> Gone(Apply(s, a), u, h)
    ensures Live(s, u, h) ==> Live(Apply(s, a), u, h) || Gone(Apply(s, a), u, h)
  {
    StepAges(s, a);
  }

  // ---- One step

  /** What waits is of an object and a handler that are there. */
  predicate Tidy(s: State, u: Uid, h: Uid) {
    Live(s, u, h) || FnsIn(s.exeq, u, h) == []
  }

  lemma QuietStep(s: State, a: Step, u: Uid, h: Uid)
    requires InvLoop(s) && Enabled(s, a)
    requires !a.ExecNext? && !a.Post? && !a.PostStop? && !a.Install? && !a.Enqueue? && !a.Return?
    ensures Apply(s, a).exeq == s.exeq && Ahead(Apply(s, a)) == Ahead(s)
  {
  }

  lemma ReturnAhead(s: State)
    requires InvLoop(s) && CanReturn(s)
    ensures Ahead(DoReturn(s)) == Ahead(s)
    ensures DoReturn(s).exeq == s.exeq || DoReturn(s).exeq == s.exeq[1..]
  {
  }

  /** An entry that joins the queue */
  lemma JoinFns(s: State, t: State, e: ExecStub, u: Uid, h: Uid)
    requires InvLoop(s) && t.exeq == s.exeq + [e] && t.pc == s.pc
    ensures FnsIn(Ahead(t), u, h) == FnsIn(Ahead(s), u, h) + if Waits(e, u, h) then [e.task.fn] else []
    ensures FnsIn(t.exeq, u, h) == FnsIn(s.exeq, u, h) + if Waits(e, u, h) then [e.task.fn] else []
  {
    AheadAppend(s, e);
    assert Ahead(t) == Ahead(s) + [e];
    FnsAppend(Ahead(s), e, u, h);
    FnsAppend(s.exeq, e, u, h);
  }

  /** What waits after a step, given what waited: functions posted join, functions that run leave. */
  predicate Flows(s: State, a: Step, u: Uid, h: Uid)
    requires Enabled(s, a)
  {
    && FnsIn(Ahead(s), u, h) + PostAt(s, a, u, h) == RanAt(s, a, u, h) + FnsIn(Ahead(Apply(s, a)), u, h)
    && (FnsIn(s.exeq, u, h) == [] && PostAt(s, a, u, h) == [] ==> FnsIn(Apply(s, a).exeq, u, h) == [])
  }

  lemma PostFlows(s: State, f: nat, hd: nat, u: Uid, h: Uid)
    requires InvLoop(s) && Enabled(s, Post(f, hd))
    ensures Flows(s, Post(f, hd), u, h)
  {
    JoinFns(s, Apply(s, Post(f, hd)), ExecStub(CurrentUid(s), Posted(f), Uid(hd, s.handlers[hd])), u, h);
  }

  lemma JoinFlows(s: State, a: Step, e: ExecStub, u: Uid, h: Uid)
    requires InvLoop(s) && Enabled(s, a) && !a.Post? && !a.ExecNext? && !e.task.Posted?
    requires Apply(s, a).exeq == s.exeq + [e] && Apply(s, a).pc == s.pc
    ensures Flows(s, a, u, h)
  {
    JoinFns(s, Apply(s, a), e, u, h);
  }

  lemma PostStopFlows(s: State, u: Uid, h: Uid)
    requires InvLoop(s) && CanPostStop(s)
    ensures Flows(s, PostStop, u, h)
  {
    if Current(s).value in s.gate.visible {
      JoinFlows(s, PostStop, ExecStub(CurrentUid(s), StopRepost, DUMMY_HANDLER), u, h);
    } else {
      assert Apply(s, PostStop) == s;
    }
  }

  lemma ReturnFlows(s: State, u: Uid, h: Uid)
    requires InvLoop(s) && CanReturn(s)
    ensures Flows(s, Return, u, h)
  {
    ReturnAhead(s);
  }

  /** The front entry leaves: it runs, or was of nobody there. */
  lemma FrontLeaves(s: State, u: Uid, h: Uid)
    requires CanExec(s) && Tidy(s, u, h) && (Runs(s, s.exeq[0]) ==> s.ids.objects[s.exeq[0].uid.index].owner.Some?)
    ensures RanAt(s, ExecNext, u, h) == if Waits(s.exeq[0], u, h) then [s.exeq[0].task.fn] else []
  {
    if Waits(s.exeq[0], u, h) {
      assert Runs(s, s.exeq[0]);
      var t := DoExecNext(s);
      assert t.pc == ExecCall(s.pc.left, u.index) && t.ids == s.ids;
    } else if Runs(s, s.exeq[0]) && s.exeq[0].task.Posted? {
      var t := DoExecNext(s);
      assert t.pc == ExecCall(s.pc.left, s.exeq[0].uid.index) && t.ids == s.ids;
      assert CurrentUid(t) == s.exeq[0].uid;
    }
  }

  lemma ExecAhead(s: State, u: Uid, h: Uid)
    requires CanExec(s)
    ensures FnsIn(Ahead(DoExecNext(s)), u, h) == FnsIn(s.exeq[1..], u, h)
    ensures FnsIn(s.exeq, u, h) == [] ==> FnsIn(DoExecNext(s).exeq, u, h) == []
  {
    var e := s.exeq[0];
    FnsAppend(s.exeq[1..], ExecStub(e.uid, StopNow, DUMMY_HANDLER), u, h);
    ExecQueue(s);
  }

  lemma ExecQueue(s: State)
    requires CanExec(s)
    ensures var t := DoExecNext(s); var e := s.exeq[0];
            || (t.pc.ExecCall? && t.exeq == s.exeq)
            || (t.pc.Execs? && t.exeq == s.exeq[1..])
            || (t.pc.Execs? && t.exeq == s.exeq[1..] + [ExecStub(e.uid, StopNow, DUMMY_HANDLER)])
  {
  }

  lemma ExecFlows(s: State, u: Uid, h: Uid)
    requires CanExec(s) && Tidy(s, u, h) && (Runs(s, s.exeq[0]) ==> s.ids.objects[s.exeq[0].uid.index].owner.Some?)
    ensures Flows(s, ExecNext, u, h)
  {
    FrontLeaves(s, u, h);
    ExecAhead(s, u, h);
    assert FnsIn(s.exeq, u, h) + [] == FnsIn(s.exeq, u, h);
  }

  lemma FrontOwned(s: State)
    requires InvIds(s.ids) && InvKnown(s.exeq, s.mail, s.ids) && s.exeq != [] && Runs(s, s.exeq[0])
    ensures s.ids.objects[s.exeq[0].uid.index].owner.Some?
  {
    var p := FrontObject(s);
    FrontOwner(s, p);
  }

  lemma InstallFlows(s: State, u: Uid, h: Uid)
    requires InvLoop(s) && CanInstall(s)
    ensures Flows(s, Install, u, h)
  {
    var t := s.ids.pushTake[0];
    JoinFlows(s, Install, ExecStub(t.uid, OnEvent(t.event), DUMMY_HANDLER), u, h);
  }

  lemma EnqueueFlows(s: State, u: Uid, h: Uid)
    requires InvLoop(s) && CanEnqueue(s)
    ensures Flows(s, Enqueue, u, h)
  {
    var r := s.mail.take[0];
    JoinFlows(s, Enqueue, ExecStub(r.uid, OnEvent(r.event), DUMMY_HANDLER), u, h);
  }

  lemma QuietFlows(s: State, a: Step, u: Uid, h: Uid)
    requires InvLoop(s) && Enabled(s, a)
    requires !a.ExecNext? && !a.Post? && !a.PostStop? && !a.Install? && !a.Enqueue? && !a.Return?
    ensures Flows(s, a, u, h)
  {
    QuietStep(s, a, u, h);
  }

  lemma OtherFlows(s: State, a: Step, u: Uid, h: Uid)
    requires InvLoop(s) && Enabled(s, a) && !a.ExecNext?
    ensures Flows(s, a, u, h)
  {
    match a
    case Install => InstallFlows(s, u, h);
    case Enqueue => EnqueueFlows(s, u, h);
    case Post(f, hd) => PostFlows(s, f, hd, u, h);
    case PostStop => PostStopFlows(s, u, h);
    case Return => ReturnFlows(s, u, h);
    case _ => QuietFlows(s, a, u, h);
  }

  lemma StepFlows(s: State, a: Step, u: Uid, h: Uid)
    requires InvIds(s.ids) && InvLoop(s) && InvKnown(s.exeq, s.mail, s.ids) && Enabled(s, a) && Tidy(s, u, h)
    ensures Flows(s, a, u, h)
  {
    if a.ExecNext? {
      if Runs(s, s.exeq[0]) { FrontOwned(s); }
      ExecFlows(s, u, h);
    } else {
      OtherFlows(s, a, u, h);
    }
  }

  /** Nothing is posted for what is gone, and nothing posted for it runs. */
  lemma GoneIsOver(s: State, a: Step, u: Uid, h: Uid)
    requires Enabled(s, a) && Gone(s, u, h)
    ensures PostAt(s, a, u, h) == [] && RanAt(s, a, u, h) == []
  {
    if a.ExecNext? && Runs(s, s.exeq[0]) && s.exeq[0].task.Posted? {
      var t := DoExecNext(s);
      assert t.pc == ExecCall(s.pc.left, s.exeq[0].uid.index) && t.ids == s.ids;
    }
  }

  /** Posts need an object and a handler that are there. */
  lemma PostIsLive(s: State, a: Step, u: Uid, h: Uid)
    requires Enabled(s, a) && !Live(s, u, h)
    ensures PostAt(s, a, u, h) == []
  {
  }

  // ---- Runs

  /** `posted` and `ran` so far, and what waits */
  predicate Kept(s: State, u: Uid, h: Uid, posted: seq<nat>, ran: seq<nat>) {
    if Gone(s, u, h) then ran <= posted else posted == ran + FnsIn(Ahead(s), u, h) && Tidy(s, u, h)
  }

  lemma Rearranged(ran: seq<nat>, waits: seq<nat>, p: seq<nat>, r: seq<nat>, now: seq<nat>)
    requires waits + p == r + now
    ensures (ran + waits) + p == (ran + r) + now
  {
    Regroup(ran, waits, p);
    Regroup(ran, r, now);
  }

  lemma StepKeepsPosts(s: State, a: Step, u: Uid, h: Uid, posted: seq<nat>, ran: seq<nat>)
    requires InvIds(s.ids) && InvLoop(s) && InvKnown(s.exeq, s.mail, s.ids)
    requires Enabled(s, a) && Kept(s, u, h, posted, ran)
    ensures Kept(Apply(s, a), u, h, posted + PostAt(s, a, u, h), ran + RanAt(s, a, u, h))
  {
    StepGone(s, a, u, h);
    if Gone(s, u, h) {
      GoneIsOver(s, a, u, h);
      assert posted + [] == posted && ran + [] == ran;
    } else {
      StepFlows(s, a, u, h);
      Rearranged(ran, FnsIn(Ahead(s), u, h), PostAt(s, a, u, h), RanAt(s, a, u, h), FnsIn(Ahead(Apply(s, a)), u, h));
      if !Live(s, u, h) { PostIsLive(s, a, u, h); }
    }
  }

  lemma {:induction false} RunKeepsPosts(s: State, run: seq<Step>, u: Uid, h: Uid, posted: seq<nat>, ran: seq<nat>)
    requires Inv(s) && Legal(s, run) && Kept(s, u, h, posted, ran)
    ensures Kept(After(s, run), u, h, posted + PostedIn(s, run, u, h), ran + RanIn(s, run, u, h))
    decreases |run|
  {
    if run == [] {
      assert posted + [] == posted && ran + [] == ran;
    } else {
      var t := Apply(s, run[0]);
      var p, r := PostAt(s, run[0], u, h), RanAt(s, run[0], u, h);
      StepKeepsInv(s, run[0]);
      StepKeepsPosts(s, run[0], u, h, posted, ran);
      RunKeepsPosts(t, run[1..], u, h, posted + p, ran + r);
      Regroup(posted, p, PostedIn(t, run[1..], u, h));
      Regroup(ran, r, RanIn(t, run[1..], u, h));
    }
  }

  /** In every run, for every object and handler: functions run in the order they were posted, none twice. While the
      object is not stopped and the handler not dropped, those posted are those that ran and those still queued. */
  lemma PostedRunInOrder(run: seq<Step>, u: Uid, h: Uid)
    requires Legal(INITIAL, run)
    ensures RanIn(INITIAL, run, u, h) <= PostedIn(INITIAL, run, u, h)
    ensures var s := After(INITIAL, run);
            Live(s, u, h) ==>
              PostedIn(INITIAL, run, u, h) == RanIn(INITIAL, run, u, h) + FnsIn(Ahead(s), u, h)
  {
    InitialInv();
    assert Kept(INITIAL, u, h, [], []);
    RunKeepsPosts(INITIAL, run, u, h, [], []);
    NothingBefore(PostedIn(INITIAL, run, u, h), RanIn(INITIAL, run, u, h));
  }

  lemma NothingBefore(p: seq<nat>, r: seq<nat>)
    ensures [] + p == p && [] + r == r
  {
  }

  /** In every run: once the object is stopped or the handler dropped, nothing posted for them runs any more. */
  lemma {:induction false} GoneNeverRuns(s: State, run: seq<Step>, u: Uid, h: Uid)
    requires Legal(s, run) && Gone(s, u, h)
    ensures RanIn(s, run, u, h) == [] && PostedIn(s, run, u, h) == []
    decreases |run|
  {
    if run != [] {
      GoneIsOver(s, run[0], u, h);
      StepGone(s, run[0], u, h);
      GoneNeverRuns(Apply(s, run[0]), run[1..], u, h);
    }
  }

  // ---- They do run

  function FnsSight(s: State, u: Uid, h: Uid): nat {
    |FnsIn(Within(s.pc, s.exeq), u, h)|
  }

  lemma JoinSight(s: State, t: State, e: ExecStub, u: Uid, h: Uid)
    requires InvLoop(s) && t.exeq == s.exeq + [e] && t.pc == s.pc
    ensures FnsSight(t, u, h) >= FnsSight(s, u, h)
  {
    WithinAppend(s.pc, s.exeq, e);
    FnsAppend(Within(s.pc, s.exeq), e, u, h);
  }

  lemma FrontSight(s: State, u: Uid, h: Uid)
    requires InvLoop(s) && CanExec(s) && Live(s, u, h)
    requires Runs(s, s.exeq[0]) ==> s.ids.objects[s.exeq[0].uid.index].owner.Some?
    ensures FnsSight(DoExecNext(s), u, h) + |RanAt(s, ExecNext, u, h)| >= FnsSight(s, u, h)
  {
    FrontLeaves(s, u, h);
    WithinExec(s);
    WithinFns(s.exeq, s.pc.left, u, h);
  }

  lemma WithinExec(s: State)
    requires InvLoop(s) && CanExec(s)
    ensures Within(DoExecNext(s).pc, DoExecNext(s).exeq) == s.exeq[1..s.pc.left]
  {
    var left, q := s.pc.left, s.exeq;
    ExecQueue(s);
    assert DoExecNext(s).pc.left == if DoExecNext(s).pc.ExecCall? then left else left - 1;
    assert q[1..][..left - 1] == q[1..left];
    assert (q[1..] + [ExecStub(q[0].uid, StopNow, DUMMY_HANDLER)])[..left - 1] == q[1..left];
  }

  lemma WithinFns(q: seq<ExecStub>, left: nat, u: Uid, h: Uid)
    requires 0 < left <= |q|
    ensures |FnsIn(q[..left], u, h)| == |FnsIn(q[1..left], u, h)| + if Waits(q[0], u, h) then 1 else 0
  {
    assert q[..left][1..] == q[1..left];
  }

  lemma QuietSight(s: State, a: Step, u: Uid, h: Uid)
    requires InvLoop(s) && Enabled(s, a) && !a.ExecsDone?
    requires !a.ExecNext? && !a.Post? && !a.PostStop? && !a.Install? && !a.Enqueue? && !a.Return?
    ensures FnsSight(Apply(s, a), u, h) == FnsSight(s, u, h)
  {
    QuietStep(s, a, u, h);
    if a.TimersDone? { assert s.exeq[..|s.exeq|] == s.exeq; }
  }

  lemma JoinedSight(s: State, a: Step, u: Uid, h: Uid)
    requires InvLoop(s) && Enabled(s, a) && (a.Install? || a.Enqueue? || a.Post? || a.PostStop?)
    ensures FnsSight(Apply(s, a), u, h) >= FnsSight(s, u, h)
  {
    var t := Apply(s, a);
    if t.exeq != s.exeq { JoinSight(s, t, t.exeq[|s.exeq|], u, h); }
  }

  lemma ReturnFnsSight(s: State, u: Uid, h: Uid)
    requires InvLoop(s) && CanReturn(s)
    ensures FnsSight(DoReturn(s), u, h) == FnsSight(s, u, h)
  {
    if s.pc.ExecCall? { assert s.exeq[1..][..s.pc.left - 1] == s.exeq[1..s.pc.left]; }
  }

  lemma OtherFnsSight(s: State, a: Step, u: Uid, h: Uid)
    requires InvLoop(s) && Enabled(s, a) && !a.ExecsDone? && !a.ExecNext?
    ensures FnsSight(Apply(s, a), u, h) >= FnsSight(s, u, h)
  {
    if a.Install? || a.Enqueue? || a.Post? || a.PostStop? { JoinedSight(s, a, u, h); }
    else if a.Return? { ReturnFnsSight(s, u, h); }
    else { QuietSight(s, a, u, h); }
  }

  lemma StepFnsSight(s: State, a: Step, u: Uid, h: Uid)
    requires InvIds(s.ids) && InvLoop(s) && InvKnown(s.exeq, s.mail, s.ids)
    requires Enabled(s, a) && !a.ExecsDone? && Live(s, u, h)
    ensures FnsSight(Apply(s, a), u, h) + |RanAt(s, a, u, h)| >= FnsSight(s, u, h)
  {
    if a.ExecNext? {
      if Runs(s, s.exeq[0]) { FrontOwned(s); }
      FrontSight(s, u, h);
    } else {
      OtherFnsSight(s, a, u, h);
    }
  }

  lemma RoundFns(s: State, u: Uid, h: Uid)
    requires Enabled(s, ExecsDone)
    ensures FnsSight(s, u, h) == 0 && FnsSight(Apply(s, ExecsDone), u, h) == |FnsIn(s.exeq, u, h)|
  {
    assert s.exeq[..0] == [];
  }

  /** With `got` functions run so far and all of the first `n` run or waiting, they have run when enough rounds have
      ended. */
  lemma {:induction false} RunsPosts(s: State, run: seq<Step>, u: Uid, h: Uid, got: nat, n: nat)
    requires Inv(s) && Legal(s, run) && Live(s, u, h) && Live(After(s, run), u, h)
    requires got + |FnsIn(Ahead(s), u, h)| >= n && Rounds(run) >= RoundsWith(got, FnsSight(s, u, h), n)
    ensures got + |RanIn(s, run, u, h)| >= n
    decreases |run|
  {
    if run != [] {
      var t := Apply(s, run[0]);
      var now := got + |RanAt(s, run[0], u, h)|;
      StepKeepsInv(s, run[0]);
      StillLive(s, run, u, h);
      StepFlows(s, run[0], u, h);
      if run[0].ExecsDone? {
        RoundFns(s, u, h);
        AllInSight(got, FnsSight(t, u, h), n);
      } else {
        StepFnsSight(s, run[0], u, h);
        FewerRounds(got, FnsSight(s, u, h), now, FnsSight(t, u, h), n);
      }
      RunsPosts(t, run[1..], u, h, now, n);
    }
  }

  lemma StillLive(s: State, run: seq<Step>, u: Uid, h: Uid)
    requires Legal(s, run) && run != [] && Live(s, u, h) && Live(After(s, run), u, h)
    ensures Live(Apply(s, run[0]), u, h)
  {
    StepGone(s, run[0], u, h);
    if Gone(Apply(s, run[0]), u, h) { StaysGone(Apply(s, run[0]), run[1..], u, h); }
  }

  lemma {:induction false} StaysGone(s: State, run: seq<Step>, u: Uid, h: Uid)
    requires Legal(s, run) && Gone(s, u, h)
    ensures Gone(After(s, run), u, h)
    decreases |run|
  {
    if run != [] {
      StepGone(s, run[0], u, h);
      StaysGone(Apply(s, run[0]), run[1..], u, h);
    }
  }

  /** In every run: when two more rounds have ended and neither the object was stopped nor the handler dropped, every
      function posted before has run. */
  lemma PostedFunctionsRun(before: seq<Step>, rest: seq<Step>, u: Uid, h: Uid)
    requires Legal(INITIAL, before) && Legal(After(INITIAL, before), rest) && Rounds(rest) >= 2
    requires Live(After(INITIAL, before), u, h) && Live(After(After(INITIAL, before), rest), u, h)
    ensures |RanIn(INITIAL, before, u, h)| + |RanIn(After(INITIAL, before), rest, u, h)|
            >= |PostedIn(INITIAL, before, u, h)|
  {
    ReachableInv(before);
    PostedRunInOrder(before, u, h);
    EnoughRun(After(INITIAL, before), rest, u, h, |RanIn(INITIAL, before, u, h)|, |PostedIn(INITIAL, before, u, h)|);
  }

  lemma EnoughRun(s: State, rest: seq<Step>, u: Uid, h: Uid, got: nat, n: nat)
    requires Inv(s) && Legal(s, rest) && Rounds(rest) >= 2 && Live(s, u, h) && Live(After(s, rest), u, h)
    requires got + |FnsIn(Ahead(s), u, h)| >= n
    ensures got + |RanIn(s, rest, u, h)| >= n
  {
    AtMostTwo(got, FnsSight(s, u, h), n);
    RunsPosts(s, rest, u, h, got, n);
  }

  lemma AtMostTwo(got: nat, sight: nat, n: nat)
    ensures RoundsWith(got, sight, n) <= 2
  {
  }
}
