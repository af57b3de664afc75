/** Every step of the event loop keeps the whole invariant. */
module ReactorSteps {
  import opened Common
  import opened RunIds
  import opened Reactor
  import opened ReactorQueues
  import opened ReactorInv
  import opened ReactorStop

  ghost predicate Inv(s: State) {
    && InvIds(s.ids) && InvLoop(s) && InvGate(s.gate, s.history, s.ids)
    && InvKnown(s.exeq, s.mail, s.ids) && InvFlow(s) && InvStop(s)
  }

  lemma InitialInv()
    ensures Inv(INITIAL)
  {
    assert Loose(INITIAL.ids) == multiset{};
  }

  // ---- Steps that leave a part of the state alone

  lemma FlowFrame(s: State, t: State)
    requires InvFlow(s) && s.history == t.history && Ahead(s) == Ahead(t) && s.ids == t.ids && s.mail == t.mail
    ensures InvFlow(t)
  {
    forall p | p in t.ids.runId ensures Balanced(p, t.history, Ahead(t), t.ids, t.mail) {
      assert Balanced(p, s.history, Ahead(s), s.ids, s.mail);
    }
  }

  /** The stop entries of one object do not depend on the phase as long as it arms the same ones. */
  lemma StopFrameOne(p: ObjectId, s: State, t: State)
    requires p in s.ids.runId && StopOne(p, s.exeq, s.pc, s.mail, s.history, s.ids)
    requires s.exeq == t.exeq && s.mail == t.mail && s.history.late == t.history.late && s.ids == t.ids
    requires Armed(s.pc, s.exeq, s.ids.runId[p]) == Armed(t.pc, t.exeq, s.ids.runId[p])
    requires t.pc.Events? ==> s.pc.Events?
    ensures StopOne(p, t.exeq, t.pc, t.mail, t.history, t.ids)
  {
  }

  lemma StopFrame(s: State, t: State)
    requires InvStop(s) && s.exeq == t.exeq && s.mail == t.mail && s.history.late == t.history.late && s.ids == t.ids
    requires forall p :: p in s.ids.runId ==> Armed(s.pc, s.exeq, s.ids.runId[p]) == Armed(t.pc, t.exeq, s.ids.runId[p])
    requires t.pc.Events? ==> s.pc.Events?
    ensures InvStop(t)
  {
    forall p | p in t.ids.runId ensures StopOne(p, t.exeq, t.pc, t.mail, t.history, t.ids) {
      assert StopOne(p, s.exeq, s.pc, s.mail, s.history, s.ids);
      StopFrameOne(p, s, t);
    }
  }

  // ---- Steps of other threads

  lemma PushFlowAll(s: State, o: ObjectId, e: Event)
    requires InvIds(s.ids) && InvKnown(s.exeq, s.mail, s.ids) && InvFlow(s) && o !in s.ids.runId
    ensures InvFlow(DoPush(s, o, e))
  {
    var t := DoPush(s, o, e);
    forall p | p in t.ids.runId ensures Balanced(p, t.history, Ahead(t), t.ids, t.mail) {
      if p == o {
        if s.exeq != [] { KnownTail(s.exeq, s.mail, s.ids); }
        PushFlowNew(s.history, Ahead(s), s.ids, s.mail, o, e);
      } else {
        assert Balanced(p, s.history, Ahead(s), s.ids, s.mail);
        PushFlowOther(s.history, Ahead(s), s.ids, s.mail, o, e, p);
      }
    }
  }

  lemma PushStopAll(s: State, o: ObjectId, e: Event)
    requires InvIds(s.ids) && InvKnown(s.exeq, s.mail, s.ids) && InvStop(s)
    requires o !in s.ids.runId && o !in s.history.late
    ensures InvStop(DoPush(s, o, e))
  {
    var t := DoPush(s, o, e);
    forall p | p in t.ids.runId ensures StopOne(p, t.exeq, t.pc, t.mail, t.history, t.ids) {
      if p == o { PushStopNew(s.exeq, t.pc, s.mail, t.history, s.ids, o, e); }
      else { assert StopOne(p, s.exeq, s.pc, s.mail, s.history, s.ids); }
    }
  }

  lemma PushStep(s: State, o: ObjectId, e: Event)
    requires Inv(s) && o !in s.ids.runId
    ensures Inv(DoPush(s, o, e))
  {
    PopKeeps(s.ids, o, e);
    PushKnown(s.exeq, s.mail, s.ids, o, e);
    PushGate(s, o, e);
    PushFlowAll(s, o, e);
    PushStopAll(s, o, e);
    PushLoop(s, o, e);
  }

  lemma PushLoop(s: State, o: ObjectId, e: Event)
    requires InvLoop(s)
    ensures InvLoop(DoPush(s, o, e))
  {
  }

  lemma GateKept(s: State, a: Step)
    requires InvGate(s.gate, s.history, s.ids) && Enabled(s, a) && (a.Publish? || a.VisitBegin? || a.RequestStop?)
    ensures var t := Apply(s, a); InvGate(t.gate, t.history, t.ids)
  {
    var t := Apply(s, a);
    forall p | p in t.ids.runId ensures GateOne(p, t.gate, t.history, t.ids) {
      assert GateOne(p, s.gate, s.history, s.ids);
    }
  }

  lemma GateStep(s: State, a: Step)
    requires Inv(s) && Enabled(s, a) && (a.Publish? || a.VisitBegin? || a.RequestStop?)
    ensures Inv(Apply(s, a))
  {
    GateKept(s, a);
    FlowFrame(s, Apply(s, a));
    GateStopAll(s, a);
    GateLoop(s, a);
  }

  lemma GateStopAll(s: State, a: Step)
    requires InvStop(s) && Enabled(s, a) && (a.Publish? || a.VisitBegin? || a.RequestStop?)
    ensures InvStop(Apply(s, a))
  {
    StopFrame(s, Apply(s, a));
  }

  lemma GateLoop(s: State, a: Step)
    requires InvLoop(s) && Enabled(s, a) && (a.Publish? || a.VisitBegin? || a.RequestStop?)
    ensures InvLoop(Apply(s, a))
  {
  }

  lemma VisitFlowAll(s: State, o: ObjectId)
    requires CanRaise(s, o) && InvFlow(s) && RunIdsDistinct(s.ids) && o !in s.ids.stopped
    ensures InvFlow(DoVisitRaise(s, o))
  {
    var t := DoVisitRaise(s, o);
    assert Balanced(o, s.history, Ahead(s), s.ids, s.mail);
    forall p | p in t.ids.runId ensures Balanced(p, t.history, Ahead(t), t.ids, t.mail) {
      assert Balanced(p, s.history, Ahead(s), s.ids, s.mail);
      RaiseFlow(s.history, Ahead(s), s.ids, s.mail, o, s.gate.locked[o].event, p);
    }
  }

  lemma VisitStopAll(s: State, o: ObjectId)
    requires CanRaise(s, o) && InvStop(s) && RunIdsDistinct(s.ids) && o !in s.history.late
    ensures InvStop(DoVisitRaise(s, o))
  {
    var t := DoVisitRaise(s, o);
    forall p | p in t.ids.runId ensures StopOne(p, t.exeq, t.pc, t.mail, t.history, t.ids) {
      assert StopOne(p, s.exeq, s.pc, s.mail, s.history, s.ids);
      RaiseStop(s.exeq, s.pc, s.mail, s.history, s.ids, o, s.gate.locked[o].event, p);
    }
  }

  lemma VisitKnown(s: State, o: ObjectId)
    requires CanRaise(s, o) && InvKnown(s.exeq, s.mail, s.ids)
    ensures var t := DoVisitRaise(s, o); InvKnown(t.exeq, t.mail, t.ids)
  {
    assert s.ids.runId[o] in s.ids.runId.Values;
  }

  lemma VisitStep(s: State, o: ObjectId)
    requires Inv(s) && CanRaise(s, o)
    ensures Inv(DoVisitRaise(s, o))
  {
    assert GateOne(o, s.gate, s.history, s.ids);
    RaiseGate(s, o);
    VisitKnown(s, o);
    VisitFlowAll(s, o);
    VisitStopAll(s, o);
    VisitLoop(s, o);
  }

  lemma VisitLoop(s: State, o: ObjectId)
    requires InvLoop(s) && CanRaise(s, o)
    ensures InvLoop(DoVisitRaise(s, o))
  {
  }

  // ---- Fetching

  lemma SwapFlowAll(s: State)
    requires InvLoop(s) && CanSwap(s) && InvFlow(s)
    ensures InvFlow(DoSwap(s))
  {
    var t := DoSwap(s);
    forall p | p in t.ids.runId ensures Balanced(p, t.history, Ahead(t), t.ids, t.mail) {
      assert Balanced(p, s.history, Ahead(s), s.ids, s.mail);
      SwapFlow(s.history, Ahead(s), s.ids, s.mail, p);
    }
  }

  lemma SwapStopAll(s: State)
    requires InvLoop(s) && CanSwap(s) && InvStop(s)
    ensures InvStop(DoSwap(s))
  {
    var t := DoSwap(s);
    forall p | p in t.ids.runId ensures StopOne(p, t.exeq, t.pc, t.mail, t.history, t.ids) {
      assert StopOne(p, s.exeq, s.pc, s.mail, s.history, s.ids);
      SwapStop(p, s.exeq, s.pc, s.mail, s.history, s.ids, t.pc);
    }
  }

  lemma SwapGate(s: State)
    requires InvGate(s.gate, s.history, s.ids)
    ensures var t := DoSwap(s); InvGate(t.gate, t.history, t.ids)
  {
    var t := DoSwap(s);
    forall p | p in t.ids.runId ensures GateOne(p, t.gate, t.history, t.ids) {
      assert GateOne(p, s.gate, s.history, s.ids);
    }
  }

  lemma SwapKnownAll(s: State)
    requires InvLoop(s) && CanSwap(s) && InvKnown(s.exeq, s.mail, s.ids)
    ensures var t := DoSwap(s); InvKnown(t.exeq, t.mail, t.ids)
  {
    SwapKnown(s.exeq, s.mail, s.ids);
  }

  lemma SwapLoop(s: State)
    requires InvLoop(s) && CanSwap(s)
    ensures InvLoop(DoSwap(s))
  {
  }

  lemma SwapStep(s: State)
    requires Inv(s) && CanSwap(s)
    ensures Inv(DoSwap(s))
  {
    RecycleKeeps(s.ids);
    SwapKnownAll(s);
    SwapGate(s);
    SwapFlowAll(s);
    SwapStopAll(s);
    SwapLoop(s);
  }

  lemma InstallStopOne(s: State, p: ObjectId)
    requires CanInstall(s) && p in s.ids.runId && LoosePlaced(s.ids)
    requires GateOne(p, s.gate, s.history, s.ids) && StopOne(p, s.exeq, s.pc, s.mail, s.history, s.ids)
    ensures var t := DoInstall(s); StopOne(p, t.exeq, t.pc, t.mail, t.history, t.ids)
  {
    var task := s.ids.pushTake[0];
    var e := ExecStub(task.uid, OnEvent(task.event), DUMMY_HANDLER);
    StopAppend(s.exeq, e, s.ids.runId[p]);
    NewTaskGenerationMatches(s.ids);
  }

  lemma InstallFlowAll(s: State)
    requires CanInstall(s) && InvFlow(s)
    ensures InvFlow(DoInstall(s))
  {
    var t := DoInstall(s);
    forall p | p in t.ids.runId ensures Balanced(p, t.history, Ahead(t), t.ids, t.mail) {
      assert Balanced(p, s.history, Ahead(s), s.ids, s.mail);
      InstallFlow(s.history, s.exeq, s.ids, s.mail, p);
    }
  }

  lemma InstallStopAll(s: State)
    requires CanInstall(s) && LoosePlaced(s.ids) && InvGate(s.gate, s.history, s.ids) && InvStop(s)
    ensures InvStop(DoInstall(s))
  {
    var t := DoInstall(s);
    forall p | p in t.ids.runId ensures StopOne(p, t.exeq, t.pc, t.mail, t.history, t.ids) {
      assert StopOne(p, s.exeq, s.pc, s.mail, s.history, s.ids);
      InstallStopOne(s, p);
    }
  }

  lemma InstallStep(s: State)
    requires Inv(s) && CanInstall(s)
    ensures Inv(DoInstall(s))
  {
    InstallKeeps(s.ids);
    InstallKnown(s);
    InstallGate(s.gate, s.history, s.ids);
    InstallFlowAll(s);
    InstallStopAll(s);
    assert InvLoop(DoInstall(s));
  }

  lemma EnqueueFlowAll(s: State)
    requires CanEnqueue(s) && InvKnown(s.exeq, s.mail, s.ids) && InvFlow(s)
    ensures InvFlow(DoEnqueue(s))
  {
    var t := DoEnqueue(s);
    forall p | p in t.ids.runId ensures Balanced(p, t.history, Ahead(t), t.ids, t.mail) {
      assert Balanced(p, s.history, Ahead(s), s.ids, s.mail);
      EnqueueFlow(s.history, s.exeq, s.ids, s.mail, p);
    }
  }

  lemma EnqueueStopAll(s: State)
    requires CanEnqueue(s) && InvStop(s)
    ensures InvStop(DoEnqueue(s))
  {
    var t := DoEnqueue(s);
    forall p | p in t.ids.runId ensures StopOne(p, t.exeq, t.pc, t.mail, t.history, t.ids) {
      assert StopOne(p, s.exeq, s.pc, s.mail, s.history, s.ids);
      EnqueueStop(p, s.exeq, s.mail, s.history, s.ids);
    }
  }

  lemma EnqueueStep(s: State)
    requires Inv(s) && CanEnqueue(s)
    ensures Inv(DoEnqueue(s))
  {
    EnqueueKnown(s);
    EnqueueFlowAll(s);
    EnqueueStopAll(s);
    EnqueueLoop(s);
  }

  lemma EnqueueLoop(s: State)
    requires InvLoop(s) && CanEnqueue(s)
    ensures InvLoop(DoEnqueue(s))
  {
  }

  // ---- Moves between phases

  /** Entering the timer phase arms every reposting entry, whose object has nothing left to fetch. */
  lemma EventsDoneStop(s: State)
    requires s.pc.Events? && s.ids.pushTake == [] && s.mail.take == [] && InvStop(s)
    ensures InvStop(s.(pc := Timers))
  {
    forall p | p in s.ids.runId ensures StopOne(p, s.exeq, Timers, s.mail, s.history, s.ids) {
      assert StopOne(p, s.exeq, s.pc, s.mail, s.history, s.ids);
    }
  }

  /** The exec phase counts the whole queue, so every reposting entry stays armed. */
  lemma TimersDoneStop(s: State)
    requires s.pc.Timers? && InvStop(s)
    ensures InvStop(s.(pc := Execs(|s.exeq|)))
  {
    assert s.exeq[..|s.exeq|] == s.exeq;
    forall p | p in s.ids.runId ensures StopOne(p, s.exeq, Execs(|s.exeq|), s.mail, s.history, s.ids) {
      assert StopOne(p, s.exeq, s.pc, s.mail, s.history, s.ids);
    }
  }

  lemma PhaseLoop(s: State, a: Step)
    requires InvLoop(s) && Enabled(s, a)
    requires a.Block? || a.EventsDone? || a.TimerFire? || a.TimersDone? || a.ExecsDone? || a.AddHandler?
             || a.DropHandler?
    ensures InvLoop(Apply(s, a))
  {
  }

  lemma PhaseStep(s: State, a: Step)
    requires Inv(s) && Enabled(s, a)
    requires a.Block? || a.EventsDone? || a.TimerFire? || a.TimersDone? || a.ExecsDone? || a.AddHandler?
             || a.DropHandler?
    ensures Inv(Apply(s, a))
  {
    PhaseSame(s, a);
    PhaseLoop(s, a);
    FlowFrame(s, Apply(s, a));
    PhaseStop(s, a);
  }

  lemma PhaseSame(s: State, a: Step)
    requires InvLoop(s) && Enabled(s, a)
    requires a.Block? || a.EventsDone? || a.TimerFire? || a.TimersDone? || a.ExecsDone? || a.AddHandler?
             || a.DropHandler?
    ensures var t := Apply(s, a);
            && t.ids == s.ids && t.gate == s.gate && t.mail == s.mail && t.history == s.history && t.exeq == s.exeq
            && Ahead(t) == Ahead(s)
  {
  }

  lemma PhaseStop(s: State, a: Step)
    requires InvStop(s) && Enabled(s, a)
    requires a.Block? || a.EventsDone? || a.TimerFire? || a.TimersDone? || a.ExecsDone? || a.AddHandler?
             || a.DropHandler?
    ensures InvStop(Apply(s, a))
  {
    if a.EventsDone? { EventsDoneStop(s); }
    else if a.TimersDone? { TimersDoneStop(s); }
    else { StopFrame(s, Apply(s, a)); }
  }

  // ---- Callbacks

  lemma AheadAppend(s: State, e: ExecStub)
    requires InvLoop(s)
    ensures Ahead(s.(exeq := s.exeq + [e])) == Ahead(s) + [e]
  {
  }

  lemma AppendFlowAll(s: State, e: ExecStub)
    requires InvLoop(s) && InvFlow(s) && !e.task.OnEvent?
    ensures InvFlow(s.(exeq := s.exeq + [e]))
  {
    var t := s.(exeq := s.exeq + [e]);
    AheadAppend(s, e);
    forall p | p in t.ids.runId ensures Balanced(p, t.history, Ahead(t), t.ids, t.mail) {
      assert Balanced(p, s.history, Ahead(s), s.ids, s.mail);
      AppendFlow(s.history, Ahead(s), s.ids, s.mail, e, p);
    }
  }

  lemma PostStopAll(s: State, e: ExecStub)
    requires InvLoop(s) && InvStop(s) && e.task.Posted?
    ensures InvStop(s.(exeq := s.exeq + [e]))
  {
    forall p | p in s.ids.runId ensures StopOne(p, s.exeq + [e], s.pc, s.mail, s.history, s.ids) {
      AppendStop(p, s.exeq, e, s.pc, s.mail, s.history, s.ids);
    }
  }

  lemma PostStep(s: State, f: nat, h: nat)
    requires Inv(s) && Current(s).Some? && h < |s.handlers|
    ensures Inv(s.(exeq := s.exeq + [ExecStub(CurrentUid(s), Posted(f), Uid(h, s.handlers[h]))]))
  {
    var e := ExecStub(CurrentUid(s), Posted(f), Uid(h, s.handlers[h]));
    CurrentIsInstalled(s);
    KnownAppend(s.exeq, s.mail, s.ids, e);
    AppendFlowAll(s, e);
    PostStopAll(s, e);
    PostLoop(s, e);
  }

  lemma PostLoop(s: State, e: ExecStub)
    requires InvLoop(s) && InCall(s)
    ensures InvLoop(s.(exeq := s.exeq + [e]))
  {
  }

  lemma StopPosted(s: State)
    requires InvIds(s.ids) && InvLoop(s) && InvStop(s) && CanPostStop(s)
    requires Current(s).value in s.gate.visible && Current(s).value !in s.history.late
    ensures InvStop(DoPostStop(s))
  {
    var t := DoPostStop(s);
    var o := Current(s).value;
    CurrentIsInstalled(s);
    forall p | p in t.ids.runId ensures StopOne(p, t.exeq, t.pc, t.mail, t.history, t.ids) {
      assert StopOne(p, s.exeq, s.pc, s.mail, s.history, s.ids);
      if p == o { PostStopOwn(o, s.exeq, s.pc, s.mail, s.history, s.ids); }
      else { StopPostedOther(s, p); }
    }
  }

  lemma StopPostedOther(s: State, p: ObjectId)
    requires InvLoop(s) && CanPostStop(s) && RunIdsDistinct(s.ids)
    requires var o := Current(s).value; o in s.ids.runId && s.ids.runId[o] == CurrentUid(s) && p != o
    requires p in s.ids.runId && StopOne(p, s.exeq, s.pc, s.mail, s.history, s.ids)
    ensures var t := DoPostStop(s); StopOne(p, t.exeq, t.pc, t.mail, t.history, t.ids)
  {
    AppendStop(p, s.exeq, ExecStub(CurrentUid(s), StopRepost, DUMMY_HANDLER), s.pc, s.mail, s.history, s.ids);
  }

  lemma FlowLateFrame(s: State, t: State, o: ObjectId)
    requires InvFlow(s) && Ahead(s) == Ahead(t) && s.ids == t.ids && s.mail == t.mail && o !in s.ids.stopped
    requires t.history.raised == s.history.raised && t.history.delivered == s.history.delivered
    requires forall p :: p != o && p in s.history.late ==> p in t.history.late && t.history.late[p] == s.history.late[p]
    ensures InvFlow(t)
  {
    forall p | p in t.ids.runId ensures Balanced(p, t.history, Ahead(t), t.ids, t.mail) {
      assert Balanced(p, s.history, Ahead(s), s.ids, s.mail);
    }
  }

  lemma PostStopStep(s: State)
    requires Inv(s) && CanPostStop(s)
    ensures Inv(DoPostStop(s))
  {
    var o := Current(s).value;
    CurrentIsInstalled(s);
    if o in s.gate.visible {
      assert GateOne(o, s.gate, s.history, s.ids);
      PostStopGate(s);
      PostStopFlow(s);
      StopPosted(s);
      PostStopRest(s);
    }
  }

  lemma PostStopFlow(s: State)
    requires InvLoop(s) && InvFlow(s) && CanPostStop(s) && Current(s).value !in s.ids.stopped
    requires Current(s).value in s.gate.visible
    ensures InvFlow(DoPostStop(s))
  {
    var e := ExecStub(CurrentUid(s), StopRepost, DUMMY_HANDLER);
    AppendFlowAll(s, e);
    FlowLateFrame(s.(exeq := s.exeq + [e]), DoPostStop(s), Current(s).value);
  }

  lemma PostStopRest(s: State)
    requires InvIds(s.ids) && InvLoop(s) && InvKnown(s.exeq, s.mail, s.ids) && CanPostStop(s)
    requires Current(s).value in s.gate.visible
    ensures var t := DoPostStop(s); InvIds(t.ids) && InvLoop(t) && InvKnown(t.exeq, t.mail, t.ids)
  {
    var e := ExecStub(CurrentUid(s), StopRepost, DUMMY_HANDLER);
    CurrentIsInstalled(s);
    KnownAppend(s.exeq, s.mail, s.ids, e);
    PostLoop(s, e);
  }

  // ---- Running the queue

  lemma PopStopAll(s: State, n: nat)
    requires InvStop(s)
    requires 0 < n <= |s.exeq| && (s.pc == Execs(n) || (s.pc.ExecCall? && s.pc.left == n))
    requires forall p :: p in s.ids.runId && p !in s.ids.stopped ==> !StopEntry(s.exeq[0], s.ids.runId[p])
    ensures InvStop(s.(exeq := s.exeq[1..], pc := Execs(n - 1)))
  {
    forall p | p in s.ids.runId ensures StopOne(p, s.exeq[1..], Execs(n - 1), s.mail, s.history, s.ids) {
      if p !in s.ids.stopped { SkipStop(p, s.exeq, n, s.pc, s.mail, s.history, s.ids); }
    }
  }

  lemma PopLoop(s: State, n: nat)
    requires InvLoop(s) && 0 < n <= |s.exeq| && (s.pc == Execs(n) || (s.pc.ExecCall? && s.pc.left == n))
    ensures InvLoop(s.(exeq := s.exeq[1..], pc := Execs(n - 1)))
  {
  }

  lemma ReturnExecStep(s: State)
    requires Inv(s) && s.pc.ExecCall?
    ensures Inv(s.(exeq := s.exeq[1..], pc := Execs(s.pc.left - 1)))
  {
    FlowFrame(s, s.(exeq := s.exeq[1..], pc := Execs(s.pc.left - 1)));
    KnownTail(s.exeq, s.mail, s.ids);
    PopStopAll(s, s.pc.left);
    PopLoop(s, s.pc.left);
  }

  lemma ReturnStep(s: State)
    requires Inv(s) && CanReturn(s)
    ensures Inv(DoReturn(s))
  {
    if s.pc.ExecCall? {
      ReturnExecStep(s);
    } else {
      FlowFrame(s, s.(pc := Timers));
      StopFrame(s, s.(pc := Timers));
      ReturnLoop(s);
    }
  }

  lemma ReturnLoop(s: State)
    requires InvLoop(s) && s.pc.TimerCall?
    ensures InvLoop(s.(pc := Timers))
  {
  }

  lemma FrontObject(s: State) returns (o: ObjectId)
    requires InvKnown(s.exeq, s.mail, s.ids) && s.exeq != []
    ensures o in s.ids.runId && s.ids.runId[o] == s.exeq[0].uid && KnownExec(s.exeq[0], s.ids)
  {
    KnownTail(s.exeq, s.mail, s.ids);
    o :| o in s.ids.runId && s.ids.runId[o] == s.exeq[0].uid;
  }

  /** A front entry that is no event of a live object can go. */
  lemma PopFlowAll(s: State, t: State)
    requires InvFlow(s) && s.pc.Execs? && s.exeq != []
    requires t.ids == s.ids && t.mail == s.mail && t.history == s.history && Ahead(t) == s.exeq[1..]
    requires forall p :: p in s.ids.runId && p !in s.ids.stopped ==>
               s.exeq[0].uid != s.ids.runId[p] || !s.exeq[0].task.OnEvent?
    ensures InvFlow(t)
  {
    forall p | p in t.ids.runId ensures Balanced(p, t.history, Ahead(t), t.ids, t.mail) {
      assert Balanced(p, s.history, Ahead(s), s.ids, s.mail);
      SkipFlow(s.history, s.exeq, s.ids, s.mail, p);
    }
  }

  lemma DropStep(s: State)
    requires Inv(s) && CanExec(s) && !Runs(s, s.exeq[0])
    ensures Inv(DoExecNext(s))
  {
    DropFlow(s);
    DropStops(s);
    DropRest(s);
  }

  lemma DropFlow(s: State)
    requires InvIds(s.ids) && InvLoop(s) && InvKnown(s.exeq, s.mail, s.ids) && InvFlow(s)
    requires CanExec(s) && !Runs(s, s.exeq[0])
    ensures InvFlow(DoExecNext(s))
  {
    DroppedIsNobodys(s);
    PopFlowAll(s, DoExecNext(s));
  }

  lemma DropStops(s: State)
    requires InvIds(s.ids) && InvLoop(s) && InvKnown(s.exeq, s.mail, s.ids) && InvStop(s)
    requires CanExec(s) && !Runs(s, s.exeq[0])
    ensures InvStop(DoExecNext(s))
  {
    DroppedIsNobodys(s);
    PopStopAll(s, s.pc.left);
  }

  lemma DropRest(s: State)
    requires CanExec(s) && !Runs(s, s.exeq[0])
    requires InvIds(s.ids) && InvLoop(s) && InvGate(s.gate, s.history, s.ids) && InvKnown(s.exeq, s.mail, s.ids)
    ensures var t := DoExecNext(s);
            InvIds(t.ids) && InvLoop(t) && InvGate(t.gate, t.history, t.ids) && InvKnown(t.exeq, t.mail, t.ids)
  {
    PopLoop(s, s.pc.left);
    KnownTail(s.exeq, s.mail, s.ids);
  }

  /** An entry that does not run is no event and no stop of any live object. */
  lemma DroppedIsNobodys(s: State)
    requires InvIds(s.ids) && InvLoop(s) && InvKnown(s.exeq, s.mail, s.ids) && s.exeq != [] && !Runs(s, s.exeq[0])
    ensures s.exeq[0].task.Posted? ||
            forall p :: p in s.ids.runId && p !in s.ids.stopped ==> s.ids.runId[p] != s.exeq[0].uid
  {
    var o := FrontObject(s);
    if !s.exeq[0].task.Posted? { DroppedIsStopped(s, o); }
    OnlyOwner(s, o);
  }

  lemma OnlyOwner(s: State, o: ObjectId)
    requires RunIdsDistinct(s.ids) && s.exeq != [] && o in s.ids.runId && s.ids.runId[o] == s.exeq[0].uid
    ensures forall p :: p in s.ids.runId && p != o ==> s.ids.runId[p] != s.exeq[0].uid
  {
  }

  lemma DeliverFlowAll(s: State, o: ObjectId)
    requires CanExec(s) && Runs(s, s.exeq[0]) && s.exeq[0].task.OnEvent?
    requires InvFlow(s) && RunIdsDistinct(s.ids) && o in s.ids.runId && o !in s.ids.stopped
    requires s.ids.runId[o] == s.exeq[0].uid && s.ids.objects[s.exeq[0].uid.index].owner == Some(o)
    ensures InvFlow(DoExecNext(s))
  {
    var t := DoExecNext(s);
    assert Balanced(o, s.history, Ahead(s), s.ids, s.mail);
    forall p | p in t.ids.runId ensures Balanced(p, t.history, Ahead(t), t.ids, t.mail) {
      assert Balanced(p, s.history, Ahead(s), s.ids, s.mail);
      if p == o { DeliverFlow(s.history, s.exeq, s.ids, s.mail, o); }
      else { DeliverFlowOther(s.history, s.exeq, s.ids, s.mail, o, p); }
    }
  }

  lemma CallStep(s: State)
    requires Inv(s) && CanExec(s) && Runs(s, s.exeq[0])
    requires s.exeq[0].task.OnEvent? || s.exeq[0].task.Posted?
    ensures Inv(DoExecNext(s))
  {
    var t := DoExecNext(s);
    var o := FrontObject(s);
    FrontOwner(s, o);
    assert GateOne(o, s.gate, s.history, s.ids);
    if s.exeq[0].task.OnEvent? {
      DeliverGate(s.gate, s.history, s.ids, o, s.exeq[0].task.event);
      DeliverFlowAll(s, o);
    } else {
      PopFlowAll(s, t);
    }
    CallStopAll(s);
    CallLoop(s, o);
  }

  lemma CallStopAll(s: State)
    requires InvStop(s) && CanExec(s) && Runs(s, s.exeq[0])
    requires s.exeq[0].task.OnEvent? || s.exeq[0].task.Posted?
    ensures InvStop(DoExecNext(s))
  {
    StopFrame(s, DoExecNext(s));
  }

  lemma CallLoop(s: State, o: ObjectId)
    requires InvLoop(s) && CanExec(s) && Runs(s, s.exeq[0])
    requires s.exeq[0].task.OnEvent? || s.exeq[0].task.Posted?
    requires s.ids.objects[s.exeq[0].uid.index].owner == Some(o)
    ensures InvLoop(DoExecNext(s))
  {
  }

  lemma RepostFlowAll(s: State, e: ExecStub)
    requires CanExec(s) && InvFlow(s) && !s.exeq[0].task.OnEvent? && !e.task.OnEvent?
    ensures InvFlow(s.(exeq := s.exeq[1..] + [e], pc := Execs(s.pc.left - 1)))
  {
    var t := s.(exeq := s.exeq[1..] + [e], pc := Execs(s.pc.left - 1));
    forall p | p in t.ids.runId ensures Balanced(p, t.history, Ahead(t), t.ids, t.mail) {
      assert Balanced(p, s.history, Ahead(s), s.ids, s.mail);
      SkipFlow(s.history, s.exeq, s.ids, s.mail, p);
      AppendFlow(s.history, s.exeq[1..], s.ids, s.mail, e, p);
    }
  }

  lemma RepostStopAll(s: State, o: ObjectId)
    requires CanExec(s) && InvLoop(s) && InvStop(s) && RunIdsDistinct(s.ids)
    requires s.exeq[0].task.StopRepost? && o in s.ids.runId && s.ids.runId[o] == s.exeq[0].uid
    ensures InvStop(s.(exeq := s.exeq[1..] + [ExecStub(s.exeq[0].uid, StopNow, DUMMY_HANDLER)],
                      pc := Execs(s.pc.left - 1)))
  {
    var e := ExecStub(s.exeq[0].uid, StopNow, DUMMY_HANDLER);
    OnlyOwner(s, o);
    forall p | p in s.ids.runId
      ensures StopOne(p, s.exeq[1..] + [e], Execs(s.pc.left - 1), s.mail, s.history, s.ids)
    {
      assert StopOne(p, s.exeq, s.pc, s.mail, s.history, s.ids);
      if p == o { RepostStop(o, s.exeq, s.pc.left, s.mail, s.history, s.ids); }
      else {
        SkipStop(p, s.exeq, s.pc.left, s.pc, s.mail, s.history, s.ids);
        AppendStop(p, s.exeq[1..], e, Execs(s.pc.left - 1), s.mail, s.history, s.ids);
      }
    }
  }

  lemma RepostStep(s: State)
    requires Inv(s) && CanExec(s) && Runs(s, s.exeq[0]) && s.exeq[0].task.StopRepost?
    ensures Inv(DoExecNext(s))
  {
    RepostShape(s);
    RepostFlowAll(s, ExecStub(s.exeq[0].uid, StopNow, DUMMY_HANDLER));
    RepostStops(s);
    RepostRest(s);
  }

  lemma RepostShape(s: State)
    requires CanExec(s) && Runs(s, s.exeq[0]) && s.exeq[0].task.StopRepost?
    ensures DoExecNext(s) == s.(exeq := s.exeq[1..] + [ExecStub(s.exeq[0].uid, StopNow, DUMMY_HANDLER)],
                                pc := Execs(s.pc.left - 1))
  {
  }

  lemma RepostStops(s: State)
    requires Inv(s) && CanExec(s) && Runs(s, s.exeq[0]) && s.exeq[0].task.StopRepost?
    ensures InvStop(DoExecNext(s))
  {
    RepostShape(s);
    var o := FrontObject(s);
    RepostStopAll(s, o);
  }

  lemma RepostRest(s: State)
    requires CanExec(s) && Runs(s, s.exeq[0]) && s.exeq[0].task.StopRepost?
    requires InvIds(s.ids) && InvLoop(s) && InvGate(s.gate, s.history, s.ids) && InvKnown(s.exeq, s.mail, s.ids)
    ensures var t := DoExecNext(s);
            InvIds(t.ids) && InvLoop(t) && InvGate(t.gate, t.history, t.ids) && InvKnown(t.exeq, t.mail, t.ids)
  {
    RepostShape(s);
    StopLoop(s);
    var o := FrontObject(s);
    KnownTail(s.exeq, s.mail, s.ids);
    KnownAppend(s.exeq[1..], s.mail, s.ids, ExecStub(s.exeq[0].uid, StopNow, DUMMY_HANDLER));
  }

  lemma StopLoop(s: State)
    requires InvLoop(s) && CanExec(s) && (s.exeq[0].task.StopRepost? || s.exeq[0].task.StopNow?)
    ensures InvLoop(DoExecNext(s))
  {
  }

  lemma StopFlowAll(s: State, o: ObjectId)
    requires CanExec(s) && OwnersMatch(s.ids) && RunIdsDistinct(s.ids) && InvFlow(s) && s.exeq[0].task.StopNow?
    requires o in s.ids.runId && o !in s.ids.stopped && Installed(s.ids, o)
    requires o in s.history.late && Outstanding(s.ids.runId[o], s.exeq[1..], s.ids, s.mail) == s.history.late[o]
    ensures InvFlow(s.(exeq := s.exeq[1..], pc := Execs(s.pc.left - 1), ids := StopSlot(s.ids, s.ids.runId[o].index)))
  {
    var q := s.exeq[1..];
    var d := StopSlot(s.ids, s.ids.runId[o].index);
    assert Balanced(o, s.history, Ahead(s), s.ids, s.mail);
    SkipFlow(s.history, s.exeq, s.ids, s.mail, o);
    forall p | p in d.runId ensures Balanced(p, s.history, q, d, s.mail) {
      assert Balanced(p, s.history, Ahead(s), s.ids, s.mail);
      SkipFlow(s.history, s.exeq, s.ids, s.mail, p);
      StopFlow(s.history, q, s.ids, s.mail, o, p);
    }
  }

  lemma StopStopAll(s: State, o: ObjectId)
    requires CanExec(s) && InvLoop(s) && InvStop(s) && RunIdsDistinct(s.ids)
    requires o in s.ids.runId && s.ids.runId[o] == s.exeq[0].uid && Installed(s.ids, o)
    ensures InvStop(s.(exeq := s.exeq[1..], pc := Execs(s.pc.left - 1), ids := StopSlot(s.ids, s.ids.runId[o].index)))
  {
    var d := StopSlot(s.ids, s.ids.runId[o].index);
    OnlyOwner(s, o);
    forall p | p in d.runId ensures StopOne(p, s.exeq[1..], Execs(s.pc.left - 1), s.mail, s.history, d) {
      if p != o { SkipStop(p, s.exeq, s.pc.left, s.pc, s.mail, s.history, s.ids); }
    }
  }

  /** When a final stop entry runs, its object is in its slot and only late events are outstanding. */
  lemma StopReady(s: State) returns (o: ObjectId)
    requires Inv(s) && CanExec(s) && Runs(s, s.exeq[0]) && s.exeq[0].task.StopNow?
    ensures o in s.ids.runId && s.ids.runId[o] == s.exeq[0].uid && o !in s.ids.stopped && Installed(s.ids, o)
    ensures o in s.history.late && Outstanding(s.ids.runId[o], s.exeq[1..], s.ids, s.mail) == s.history.late[o]
  {
    o := FrontObject(s);
    FrontOwner(s, o);
    FinalStop(o, s.exeq, s.pc.left, s.mail, s.history, s.ids);
  }

  lemma StopIdsGate(s: State, o: ObjectId)
    requires InvIds(s.ids) && InvGate(s.gate, s.history, s.ids) && InvKnown(s.exeq, s.mail, s.ids) && s.exeq != []
    requires o in s.ids.runId && Installed(s.ids, o) && o in s.history.late
    ensures var d := StopSlot(s.ids, s.ids.runId[o].index);
            InvIds(d) && InvGate(s.gate, s.history, d) && InvKnown(s.exeq[1..], s.mail, d)
  {
    var i := s.ids.runId[o].index;
    StopKeeps(s.ids, i);
    StopGate(s.gate, s.history, s.ids, o);
    KnownTail(s.exeq, s.mail, s.ids);
    StopKnown(s.exeq[1..], s.mail, s.ids, i);
  }

  lemma StopShape(s: State)
    requires CanExec(s) && Runs(s, s.exeq[0]) && s.exeq[0].task.StopNow?
    ensures DoExecNext(s) ==
            s.(exeq := s.exeq[1..], pc := Execs(s.pc.left - 1), ids := StopSlot(s.ids, s.exeq[0].uid.index))
  {
  }

  lemma StopStepAt(s: State, o: ObjectId, t: State)
    requires Inv(s) && s.exeq != [] && o in s.ids.runId && Installed(s.ids, o) && o in s.history.late
    requires t == s.(exeq := s.exeq[1..], pc := t.pc, ids := StopSlot(s.ids, s.ids.runId[o].index))
    requires InvFlow(t) && InvStop(t) && InvLoop(t)
    ensures Inv(t)
  {
    StopIdsGate(s, o);
  }

  lemma StopStep(s: State)
    requires Inv(s) && CanExec(s) && Runs(s, s.exeq[0]) && s.exeq[0].task.StopNow?
    ensures Inv(DoExecNext(s))
  {
    var o := StopReady(s);
    var t := DoExecNext(s);
    StopShape(s);
    assert InvFlow(t) by { StopFlowAll(s, o); }
    assert InvStop(t) by { StopStopAll(s, o); }
    assert InvLoop(t) by { StopLoop(s); }
    StopStepAt(s, o, t);
  }

  lemma ExecStep(s: State)
    requires Inv(s) && CanExec(s)
    ensures Inv(DoExecNext(s))
  {
    if !Runs(s, s.exeq[0]) { DropStep(s); }
    else if s.exeq[0].task.StopRepost? { RepostStep(s); }
    else if s.exeq[0].task.StopNow? { StopStep(s); }
    else { CallStep(s); }
  }

  /** The invariant is inductive. */
  lemma StepKeepsInv(s: State, a: Step)
    requires Inv(s) && Enabled(s, a)
    ensures Inv(Apply(s, a))
  {
    match a
    case Push(o, e) => PushStep(s, o, e);
    case Publish(_) => GateStep(s, a);
    case VisitBegin(_, _) => GateStep(s, a);
    case RequestStop => GateStep(s, a);
    case VisitRaise(o) => VisitStep(s, o);
    case Swap => SwapStep(s);
    case Install => InstallStep(s);
    case Enqueue => EnqueueStep(s);
    case ExecNext => ExecStep(s);
    case Post(f, h) => PostStep(s, f, h);
    case PostStop => PostStopStep(s);
    case Return => ReturnStep(s);
    case _ => PhaseStep(s, a);
  }
}
