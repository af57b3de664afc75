/** What a run of the event loop did, read off its steps and the callbacks it entered. */
module ReactorTraces {
  import opened Common
  import opened RunIds
  import opened Reactor
  import opened ReactorInv
  import opened ReactorSteps

  // ---- What was raised

  /** The events the steps of a run raise for `o`: the one it is pushed with, and for every visit that raises the one
      the visit began with. `pending` is the event of the last visit begun. */
  function RaisedFrom(run: seq<Step>, o: ObjectId, pending: Event): seq<Event> {
    if run == [] then []
    else RaisedAt(run[0], o, pending) + RaisedFrom(run[1..], o, NextPending(run[0], o, pending))
  }

  function RaisedAt(a: Step, o: ObjectId, pending: Event): seq<Event> {
    if a.Push? && a.obj == o then [a.event] else if a.VisitRaise? && a.obj == o then [pending] else []
  }

  function NextPending(a: Step, o: ObjectId, pending: Event): Event {
    if a.VisitBegin? && a.obj == o then a.event else pending
  }

  function RaisedBy(run: seq<Step>, o: ObjectId): seq<Event> {
    RaisedFrom(run, o, 0)
  }

  // ---- What was delivered

  /** The event a step begins a callback of `o` with */
  function CallAt(s: State, a: Step, o: ObjectId): seq<Event>
    requires Enabled(s, a)
  {
    var t := Apply(s, a);
    if a.ExecNext? && t.pc.ExecCall? && s.exeq[0].task.OnEvent? && Current(t) == Some(o)
    then [s.exeq[0].task.event] else []
  }

  function Calls(s: State, run: seq<Step>, o: ObjectId): seq<Event>
    requires Legal(s, run)
    decreases |run|
  {
    if run == [] then [] else CallAt(s, run[0], o) + Calls(Apply(s, run[0]), run[1..], o)
  }

  // ---- The histories of a state are those of the run

  function Of(m: map<ObjectId, seq<Event>>, o: ObjectId): seq<Event> {
    if o in m then m[o] else []
  }

  predicate PendingIs(g: Gate, o: ObjectId, pending: Event) {
    o in g.locked && g.locked[o].Visiting? ==> g.locked[o].event == pending
  }

  lemma RaisedStep(s: State, a: Step, o: ObjectId, pending: Event)
    requires Enabled(s, a) && InvGate(s.gate, s.history, s.ids) && PendingIs(s.gate, o, pending)
    ensures Of(Apply(s, a).history.raised, o) == Of(s.history.raised, o) + RaisedAt(a, o, pending)
    ensures PendingIs(Apply(s, a).gate, o, NextPending(a, o, pending))
  {
    if !a.Push? && !a.Publish? && !a.VisitBegin? && !a.VisitRaise? { RaisedKept(s, a); }
  }

  lemma RaisedKept(s: State, a: Step)
    requires Enabled(s, a) && !a.Push? && !a.Publish? && !a.VisitBegin? && !a.VisitRaise?
    ensures Apply(s, a).history.raised == s.history.raised && Apply(s, a).gate.locked == s.gate.locked
  {
    if a.ExecNext? { ExecKeepsRaised(s); }
  }

  lemma ExecKeepsRaised(s: State)
    requires CanExec(s)
    ensures DoExecNext(s).history.raised == s.history.raised && DoExecNext(s).gate == s.gate
  {
  }

  lemma {:induction false} RaisedTrace(s: State, run: seq<Step>, o: ObjectId, pending: Event)
    requires Inv(s) && Legal(s, run) && PendingIs(s.gate, o, pending)
    ensures Of(After(s, run).history.raised, o) == Of(s.history.raised, o) + RaisedFrom(run, o, pending)
    decreases |run|
  {
    if run != [] {
      var p := NextPending(run[0], o, pending);
      StepKeepsInv(s, run[0]);
      RaisedStep(s, run[0], o, pending);
      RaisedTrace(Apply(s, run[0]), run[1..], o, p);
      Regroup(Of(s.history.raised, o), RaisedAt(run[0], o, pending), RaisedFrom(run[1..], o, p));
    }
  }

  /** The object whose entry is at the front of the queue, if it runs, has a history. */
  predicate FrontHasHistory(s: State) {
    CanExec(s) && Runs(s, s.exeq[0]) ==>
      var owner := s.ids.objects[s.exeq[0].uid.index].owner;
      owner.Some? && owner.value in s.history.delivered
  }

  lemma FrontRecorded(s: State)
    requires InvIds(s.ids) && InvKnown(s.exeq, s.mail, s.ids) && InvGate(s.gate, s.history, s.ids)
    ensures FrontHasHistory(s)
  {
    if CanExec(s) && Runs(s, s.exeq[0]) {
      var p := FrontObject(s);
      FrontOwner(s, p);
      assert GateOne(p, s.gate, s.history, s.ids);
    }
  }

  predicate Recorded(h: History, d: Ids) {
    forall o :: o in h.delivered ==> o in d.runId
  }

  lemma CallStepIs(s: State, a: Step, o: ObjectId)
    requires Enabled(s, a) && FrontHasHistory(s) && Recorded(s.history, s.ids)
    ensures var t := Apply(s, a);
            && Of(t.history.delivered, o) == Of(s.history.delivered, o) + CallAt(s, a, o)
            && Recorded(t.history, t.ids)
  {
    if a.ExecNext? { ExecCallIs(s, o); } else { OtherCallIs(s, a, o); }
  }

  lemma OtherCallIs(s: State, a: Step, o: ObjectId)
    requires Enabled(s, a) && !a.ExecNext? && Recorded(s.history, s.ids)
    ensures var t := Apply(s, a);
            && Of(t.history.delivered, o) == Of(s.history.delivered, o) && Recorded(t.history, t.ids)
  {
    if !a.Push? { DeliveredKept(s, a); }
  }

  lemma DeliveredKept(s: State, a: Step)
    requires Enabled(s, a) && !a.ExecNext? && !a.Push?
    ensures Apply(s, a).history.delivered == s.history.delivered && Apply(s, a).ids.runId == s.ids.runId
  {
  }

  lemma ExecCallIs(s: State, o: ObjectId)
    requires CanExec(s) && FrontHasHistory(s) && Recorded(s.history, s.ids)
    ensures var t := DoExecNext(s);
            && Of(t.history.delivered, o) == Of(s.history.delivered, o) + CallAt(s, ExecNext, o)
            && Recorded(t.history, t.ids)
  {
    if Runs(s, s.exeq[0]) && s.exeq[0].task.OnEvent? { EventCallIs(s, o); }
  }

  lemma EventCallIs(s: State, o: ObjectId)
    requires CanExec(s) && FrontHasHistory(s) && Runs(s, s.exeq[0]) && s.exeq[0].task.OnEvent?
    requires Recorded(s.history, s.ids)
    ensures var t := DoExecNext(s);
            && Of(t.history.delivered, o) == Of(s.history.delivered, o) + CallAt(s, ExecNext, o)
            && Recorded(t.history, t.ids)
  {
    var t := DoExecNext(s);
    assert t.pc.ExecCall? && Current(t) == s.ids.objects[s.exeq[0].uid.index].owner;
  }

  lemma {:induction false} CallTrace(s: State, run: seq<Step>, o: ObjectId)
    requires Inv(s) && Legal(s, run) && Recorded(s.history, s.ids)
    ensures Of(After(s, run).history.delivered, o) == Of(s.history.delivered, o) + Calls(s, run, o)
    decreases |run|
  {
    if run != [] {
      StepKeepsInv(s, run[0]);
      FrontRecorded(s);
      CallStepIs(s, run[0], o);
      CallTrace(Apply(s, run[0]), run[1..], o);
      Regroup(Of(s.history.delivered, o), CallAt(s, run[0], o), Calls(Apply(s, run[0]), run[1..], o));
    }
  }

  /** In every run, what the state records as raised for and delivered to an object is what the steps raised and the
      callbacks entered. */
  lemma HistoryIsTrace(run: seq<Step>, o: ObjectId)
    requires Legal(INITIAL, run)
    ensures Of(After(INITIAL, run).history.raised, o) == RaisedBy(run, o)
    ensures Of(After(INITIAL, run).history.delivered, o) == Calls(INITIAL, run, o)
  {
    InitialInv();
    RaisedTrace(INITIAL, run, o, 0);
    CallTrace(INITIAL, run, o);
  }
}
