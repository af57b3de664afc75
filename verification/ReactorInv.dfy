/** The invariant of the event loop, apart from what it says about stops, and its preservation. */
module ReactorInv {
  import opened Common
  import opened RunIds
  import opened Reactor
  import opened ReactorQueues

  // ---- The loop's own bookkeeping

  /** The published sizes are exact, the take vectors are empty outside the events phase, and a
      reactor that blocks unsignalled has nothing to fetch. */
  ghost predicate InvLoop(s: State) {
    && s.pushSize == |s.ids.pushFill| && s.mail.size == |s.mail.fill|
    && 0 < |s.handlers| && s.handlers[0] == 0
    && (!s.pc.Events? ==> s.ids.pushTake == [] && s.mail.take == [])
    && (s.pc.Blocked? ==> s.exeq == [])
    && (s.pc == Blocked(false) ==> s.ids.pushFill == [] && s.mail.fill == [] && !s.mustStop)
    && (s.pc.Execs? ==> s.pc.left <= |s.exeq|)
    && (s.pc.ExecCall? ==> 0 < s.pc.left <= |s.exeq| && s.exeq[0].uid.index == s.pc.index
                           && !s.exeq[0].task.StopRepost? && !s.exeq[0].task.StopNow?)
    && (InCall(s) ==> Current(s).Some?)
  }

  // ---- Visits

  /** From its push on, an object is being registered, visible, or posted to stop (`late`). */
  ghost predicate GateOne(o: ObjectId, g: Gate, h: History, d: Ids)
    requires o in d.runId
  {
    && o in h.raised && o in h.delivered
    && (o in g.locked ==> (if g.locked[o].Visiting? then o in g.visible else o !in g.visible && o !in h.late))
    && (o in g.visible ==> o !in h.late)
    && (o !in g.visible && o !in h.late ==> o in g.locked)
    && (o in d.stopped ==> o in h.late)
    && (o in h.late && o !in d.stopped ==> Installed(d, o))
  }

  ghost predicate InvGate(g: Gate, h: History, d: Ids) {
    && (forall o :: o in g.visible || o in g.locked || o in h.late || o in h.raised ==> o in d.runId)
    && (forall o :: o in d.runId ==> GateOne(o, g, h, d))
  }

  // ---- Queued run ids

  ghost predicate KnownExec(e: ExecStub, d: Ids) {
    && e.uid in d.runId.Values && !Pending(d, e.uid)
    && (!e.task.Posted? ==> e.handler == DUMMY_HANDLER)
  }

  /** Everything queued was queued for an object that is installed or gone, and everything to be
      queued next is for an object that is not still waiting in the fill vector. */
  ghost predicate InvKnown(q: seq<ExecStub>, m: Mail, d: Ids) {
    && (forall e :: e in q ==> KnownExec(e, d))
    && (forall r :: r in m.take ==> r.uid in d.runId.Values && r.uid !in UidsOf(d.pushFill))
    && (forall r :: r in m.fill ==> r.uid in d.runId.Values)
  }

  // ---- Nothing lost, duplicated or reordered

  /** The part of the exec queue whose functions have not run yet. */
  function Ahead(s: State): seq<ExecStub> {
    if s.pc.ExecCall? && s.exeq != [] then s.exeq[1..] else s.exeq
  }

  /** What waits for run id `u`, in the order it will be queued and run. */
  function Outstanding(u: Uid, q: seq<ExecStub>, d: Ids, m: Mail): seq<Event> {
    QueuedIn(q, u) + PushedIn(d.pushTake, u) + PushedIn(d.pushFill, u) + RaisedIn(m.take, u) + RaisedIn(m.fill, u)
  }

  ghost predicate Balanced(o: ObjectId, h: History, q: seq<ExecStub>, d: Ids, m: Mail)
    requires o in d.runId
  {
    && o in h.raised && o in h.delivered
    && if o in d.stopped
       then o in h.late && h.delivered[o] + h.late[o] == h.raised[o]
       else h.delivered[o] + Outstanding(d.runId[o], q, d, m) == h.raised[o]
  }

  ghost predicate InvFlow(s: State) {
    forall o :: o in s.ids.runId ==> Balanced(o, s.history, Ahead(s), s.ids, s.mail)
  }

  // ---- Steps of other threads

  lemma ValuesGrow(d: Ids, o: ObjectId, u: Uid, v: Uid)
    requires o !in d.runId && v in d.runId.Values
    ensures v in d.runId[o := u].Values
  {
    var p :| p in d.runId && d.runId[p] == v;
    assert d.runId[o := u][p] == v;
  }

  lemma NextUidUnknown(d: Ids)
    requires Shape(d) && LoosePlaced(d) && ObjectsPlaced(d)
    ensures NextUid(d) !in d.runId.Values
  {
    forall p | p in d.runId ensures d.runId[p] != NextUid(d) { NextUidIsNew(d, p); }
  }

  lemma PushKnown(q: seq<ExecStub>, m: Mail, d: Ids, o: ObjectId, e: Event)
    requires InvIds(d) && InvKnown(q, m, d) && o !in d.runId
    ensures InvKnown(q, m, PopFor(d, o, e))
  {
    var t := PopFor(d, o, e);
    PopLoose(d, o, e);
    NextUidUnknown(d);
    forall x | x in q ensures KnownExec(x, t) {
      assert KnownExec(x, d);
      ValuesGrow(d, o, NextUid(d), x.uid);
    }
    forall r | r in m.take || r in m.fill ensures r.uid in t.runId.Values && r.uid != NextUid(d) {
      ValuesGrow(d, o, NextUid(d), r.uid);
    }
  }

  lemma PushGate(s: State, o: ObjectId, e: Event)
    requires InvGate(s.gate, s.history, s.ids) && ObjectsPlaced(s.ids) && o !in s.ids.runId
    ensures var t := DoPush(s, o, e); InvGate(t.gate, t.history, t.ids)
  {
    var t := DoPush(s, o, e);
    assert o !in s.ids.stopped;
    forall p | p in t.ids.runId ensures GateOne(p, t.gate, t.history, t.ids) {
      if p != o { assert GateOne(p, s.gate, s.history, s.ids); }
    }
  }

  /** A new object's first event is outstanding in the fill vector. */
  lemma PushFlowNew(h: History, q: seq<ExecStub>, d: Ids, m: Mail, o: ObjectId, e: Event)
    requires InvIds(d) && InvKnown(q, m, d) && o !in d.runId
    ensures var k := h.(raised := h.raised[o := [e]], delivered := h.delivered[o := []]);
            Balanced(o, k, q, PopFor(d, o, e), m)
  {
    var u := NextUid(d);
    NextUidUnknown(d);
    NextUidNotPending(d);
    NothingOutstanding(u, q, d, m);
    PushedAppend(d.pushFill, NewTask(u, o, e), u);
    assert o !in d.stopped;
    assert Outstanding(u, q, PopFor(d, o, e), m) == [e];
  }

  lemma NothingOutstanding(u: Uid, q: seq<ExecStub>, d: Ids, m: Mail)
    requires InvKnown(q, m, d) && u !in d.runId.Values
    requires u !in UidsOf(d.pushTake) && u !in UidsOf(d.pushFill)
    ensures QueuedIn(q, u) == [] && PushedIn(d.pushTake, u) == [] && PushedIn(d.pushFill, u) == []
    ensures RaisedIn(m.take, u) == [] && RaisedIn(m.fill, u) == []
  {
    forall x | x in q ensures x.uid != u { assert KnownExec(x, d); }
    QueuedNone(q, u);
    RaisedNone(m.take, u);
    RaisedNone(m.fill, u);
    PushedNone(d.pushTake, u);
    PushedNone(d.pushFill, u);
  }

  /** A push moves nobody else's account. */
  lemma PushFlowOther(h: History, q: seq<ExecStub>, d: Ids, m: Mail, o: ObjectId, e: Event, p: ObjectId)
    requires InvIds(d) && o !in d.runId && p in d.runId && Balanced(p, h, q, d, m)
    ensures var k := h.(raised := h.raised[o := [e]], delivered := h.delivered[o := []]);
            Balanced(p, k, q, PopFor(d, o, e), m)
  {
    NextUidIsNew(d, p);
    PushedOther(d.pushFill, NewTask(NextUid(d), o, e), d.runId[p]);
    assert Outstanding(d.runId[p], q, PopFor(d, o, e), m) == Outstanding(d.runId[p], q, d, m);
  }

  lemma NextUidNotPending(d: Ids)
    requires InvIds(d)
    ensures NextUid(d) !in UidsOf(d.pushTake) && NextUid(d) !in UidsOf(d.pushFill)
  {
    if Pending(d, NextUid(d)) {
      PendingIsFree(d, NextUid(d));
      if d.stack != [] { StackedNotPending(d); }
    }
  }

  lemma RaiseGate(s: State, o: ObjectId)
    requires InvGate(s.gate, s.history, s.ids) && CanRaise(s, o)
    ensures var t := DoVisitRaise(s, o); InvGate(t.gate, t.history, t.ids)
  {
    var t := DoVisitRaise(s, o);
    forall p | p in t.ids.runId ensures GateOne(p, t.gate, t.history, t.ids) {
      assert GateOne(p, s.gate, s.history, s.ids);
    }
  }

  lemma RaiseFlow(h: History, q: seq<ExecStub>, d: Ids, m: Mail, o: ObjectId, e: Event, p: ObjectId)
    requires RunIdsDistinct(d) && o in d.runId && p in d.runId && o !in d.stopped
    requires Balanced(o, h, q, d, m) && Balanced(p, h, q, d, m)
    ensures Balanced(p, h.(raised := h.raised[o := h.raised[o] + [e]]), q, d,
                     m.(fill := m.fill + [RaiseStub(d.runId[o], e)], size := |m.fill| + 1))
  {
    RaisedAppend(m.fill, RaiseStub(d.runId[o], e), d.runId[p]);
  }

  // ---- Fetching

  lemma SwapKnown(q: seq<ExecStub>, m: Mail, d: Ids)
    requires InvKnown(q, m, d) && m.take == [] && d.pushTake == []
    ensures InvKnown(q, m, Recycle(d)) && InvKnown(q, Mail(m.take, m.fill, 0), Recycle(d))
    ensures d.pushFill == [] ==> InvKnown(q, Mail(m.take, m.fill, 0), d)
  {
    forall x | x in q ensures KnownExec(x, Recycle(d)) { assert KnownExec(x, d); }
  }

  lemma SwapFlow(h: History, q: seq<ExecStub>, d: Ids, m: Mail, p: ObjectId)
    requires p in d.runId && Balanced(p, h, q, d, m) && m.take == [] && d.pushTake == []
    ensures Balanced(p, h, q, Recycle(d), m) && Balanced(p, h, q, Recycle(d), Mail(m.take, m.fill, 0))
    ensures Balanced(p, h, q, d, Mail(m.take, m.fill, 0))
  {
  }

  lemma InstallPending(d: Ids, u: Uid)
    requires d.pushTake != []
    ensures Pending(InstallFirst(d), u) ==> Pending(d, u)
    ensures InvIds(d) ==> !Pending(InstallFirst(d), d.pushTake[0].uid)
  {
    if InvIds(d) {
      InstallKeeps(d);
      InstallLoose(d);
      NewTaskGenerationMatches(d);
      if Pending(InstallFirst(d), d.pushTake[0].uid) {
        PendingIsFree(InstallFirst(d), d.pushTake[0].uid);
      }
    }
  }

  lemma InstallKnown(s: State)
    requires InvIds(s.ids) && InvKnown(s.exeq, s.mail, s.ids) && s.ids.pushTake != []
    ensures var t := DoInstall(s); InvKnown(t.exeq, t.mail, t.ids)
  {
    var t := DoInstall(s);
    var task := s.ids.pushTake[0];
    assert task in s.ids.pushTake && s.ids.runId[task.obj] == task.uid;
    forall x | x in t.exeq ensures KnownExec(x, t.ids) {
      InstallPending(s.ids, x.uid);
      if x in s.exeq { assert KnownExec(x, s.ids); }
    }
  }

  lemma InstallGate(g: Gate, h: History, d: Ids)
    requires InvGate(g, h, d) && d.pushTake != [] && InvIds(d)
    ensures InvGate(g, h, InstallFirst(d))
  {
    var t := InstallFirst(d);
    NewTaskGenerationMatches(d);
    InstallSlots(d);
    forall p | p in t.runId ensures GateOne(p, g, h, t) {
      assert GateOne(p, g, h, d);
      if Installed(d, p) { InstalledStays(d, t, d.pushTake[0].uid, p); }
    }
  }

  lemma InstalledStays(d: Ids, t: Ids, u: Uid, p: ObjectId)
    requires p in d.runId && t.runId == d.runId && Installed(d, p) && Free(d, u.index)
    requires |d.objects| <= |t.objects|
    requires forall i :: 0 <= i < |d.objects| && i != u.index ==> t.objects[i] == d.objects[i]
    ensures Installed(t, p)
  {
  }

  /** Installing moves the object's first event from the vector to the queue. */
  lemma InstallFlow(h: History, q: seq<ExecStub>, d: Ids, m: Mail, p: ObjectId)
    requires d.pushTake != [] && p in d.runId && Balanced(p, h, q, d, m)
    ensures Balanced(p, h, q + [ExecStub(d.pushTake[0].uid, OnEvent(d.pushTake[0].event), DUMMY_HANDLER)],
                     InstallFirst(d), m)
  {
    var e := ExecStub(d.pushTake[0].uid, OnEvent(d.pushTake[0].event), DUMMY_HANDLER);
    var t := InstallFirst(d);
    var u := d.runId[p];
    QueuedAppend(q, e, u);
    assert QueuedIn(q, u) + PushedIn(d.pushTake, u) == QueuedIn(q + [e], u) + PushedIn(t.pushTake, u);
    assert Outstanding(u, q + [e], t, m) == Outstanding(u, q, d, m);
  }

  lemma EnqueueKnown(s: State)
    requires InvKnown(s.exeq, s.mail, s.ids) && s.mail.take != [] && s.ids.pushTake == []
    ensures var t := DoEnqueue(s); InvKnown(t.exeq, t.mail, t.ids)
  {
    var t := DoEnqueue(s);
    assert s.mail.take[0] in s.mail.take;
    forall x | x in t.exeq ensures KnownExec(x, t.ids) {
      if x in s.exeq { assert KnownExec(x, s.ids); }
    }
  }

  lemma MoveOver(a: seq<Event>, c: seq<Event>, x: seq<Event>, t: seq<Event>, f: seq<Event>)
    requires x == [] || c == []
    ensures a + [] + c + (x + t) + f == (a + x) + [] + c + t + f
  {
    assert a + [] == a && (a + x) + [] == a + x;
    if x == [] { assert x + t == t && a + x == a; }
    else { assert a + c == a && (a + x) + c == a + x && a + (x + t) == (a + x) + t; }
  }

  lemma EnqueueOutstanding(u: Uid, q: seq<ExecStub>, d: Ids, m: Mail, e: ExecStub)
    requires InvKnown(q, m, d) && m.take != [] && d.pushTake == []
    requires e == ExecStub(m.take[0].uid, OnEvent(m.take[0].event), DUMMY_HANDLER)
    ensures Outstanding(u, q + [e], d, m.(take := m.take[1..])) == Outstanding(u, q, d, m)
  {
    var r := m.take[0];
    assert r in m.take;
    QueuedAppend(q, e, u);
    if r.uid == u { PushedNone(d.pushFill, u); }
    var x := if r.uid == u then [r.event] else [];
    assert RaisedIn(m.take, u) == x + RaisedIn(m.take[1..], u);
    assert QueuedIn(q + [e], u) == QueuedIn(q, u) + x;
    MoveOver(QueuedIn(q, u), PushedIn(d.pushFill, u), x, RaisedIn(m.take[1..], u), RaisedIn(m.fill, u));
  }

  lemma EnqueueFlow(h: History, q: seq<ExecStub>, d: Ids, m: Mail, p: ObjectId)
    requires InvKnown(q, m, d) && m.take != [] && d.pushTake == []
    requires p in d.runId && Balanced(p, h, q, d, m)
    ensures Balanced(p, h, q + [ExecStub(m.take[0].uid, OnEvent(m.take[0].event), DUMMY_HANDLER)], d,
                     m.(take := m.take[1..]))
  {
    EnqueueOutstanding(d.runId[p], q, d, m, ExecStub(m.take[0].uid, OnEvent(m.take[0].event), DUMMY_HANDLER));
  }

  // ---- Running the queue

  /** The front entry runs only on the object its run id was given to, which is not stopped. */
  lemma FrontOwner(s: State, o: ObjectId)
    requires InvIds(s.ids) && s.exeq != [] && KnownExec(s.exeq[0], s.ids) && Runs(s, s.exeq[0])
    requires o in s.ids.runId && s.ids.runId[o] == s.exeq[0].uid
    ensures o !in s.ids.stopped && Installed(s.ids, o)
    ensures s.ids.objects[s.exeq[0].uid.index].owner == Some(o)
  {
    assert PlacedOne(s.ids, o);
  }

  /** An event or stop entry that does not run belongs to a stopped object. */
  lemma DroppedIsStopped(s: State, o: ObjectId)
    requires InvIds(s.ids) && InvLoop(s) && s.exeq != [] && KnownExec(s.exeq[0], s.ids) && !Runs(s, s.exeq[0])
    requires !s.exeq[0].task.Posted?
    requires o in s.ids.runId && s.ids.runId[o] == s.exeq[0].uid
    ensures o in s.ids.stopped
  {
    assert PlacedOne(s.ids, o);
  }

  lemma KnownTail(q: seq<ExecStub>, m: Mail, d: Ids)
    requires InvKnown(q, m, d) && q != []
    ensures InvKnown(q[1..], m, d) && KnownExec(q[0], d)
  {
    assert q[0] in q;
    forall x | x in q[1..] ensures KnownExec(x, d) { assert x in q; }
  }

  lemma KnownAppend(q: seq<ExecStub>, m: Mail, d: Ids, e: ExecStub)
    requires InvKnown(q, m, d) && KnownExec(e, d)
    ensures InvKnown(q + [e], m, d)
  {
  }

  /** Removing a front entry that is no event of `p`. */
  lemma SkipFlow(h: History, q: seq<ExecStub>, d: Ids, m: Mail, p: ObjectId)
    requires q != [] && p in d.runId && Balanced(p, h, q, d, m)
    requires p in d.stopped || q[0].uid != d.runId[p] || !q[0].task.OnEvent?
    ensures Balanced(p, h, q[1..], d, m)
  {
    if p !in d.stopped { QueuedSkip(q, d.runId[p]); }
  }

  /** Queueing an entry that is no event. */
  lemma AppendFlow(h: History, q: seq<ExecStub>, d: Ids, m: Mail, e: ExecStub, p: ObjectId)
    requires p in d.runId && Balanced(p, h, q, d, m) && !e.task.OnEvent?
    ensures Balanced(p, h, q + [e], d, m)
  {
    QueuedAppend(q, e, d.runId[p]);
  }

  lemma OutstandingFront(u: Uid, q: seq<ExecStub>, d: Ids, m: Mail)
    requires q != [] && q[0].uid == u && q[0].task.OnEvent?
    ensures Outstanding(u, q, d, m) == [q[0].task.event] + Outstanding(u, q[1..], d, m)
  {
    assert QueuedIn(q, u) == [q[0].task.event] + QueuedIn(q[1..], u);
  }

  /** Delivering the front event of `o` moves it from outstanding to delivered. */
  lemma DeliverFlow(h: History, q: seq<ExecStub>, d: Ids, m: Mail, o: ObjectId)
    requires q != [] && q[0].task.OnEvent? && o in d.runId && o !in d.stopped && q[0].uid == d.runId[o]
    requires Balanced(o, h, q, d, m)
    ensures Balanced(o, h.(delivered := h.delivered[o := h.delivered[o] + [q[0].task.event]]), q[1..], d, m)
  {
    OutstandingFront(d.runId[o], q, d, m);
    Regroup(h.delivered[o], [q[0].task.event], Outstanding(d.runId[o], q[1..], d, m));
  }

  lemma DeliverFlowOther(h: History, q: seq<ExecStub>, d: Ids, m: Mail, o: ObjectId, p: ObjectId)
    requires q != [] && q[0].task.OnEvent? && o in d.runId && q[0].uid == d.runId[o]
    requires RunIdsDistinct(d) && p in d.runId && p != o && o in h.delivered && Balanced(p, h, q, d, m)
    ensures Balanced(p, h.(delivered := h.delivered[o := h.delivered[o] + [q[0].task.event]]), q[1..], d, m)
  {
    SkipFlow(h, q, d, m, p);
  }

  /** Stopping `o` when exactly its late events are outstanding. */
  lemma StopFlow(h: History, q: seq<ExecStub>, d: Ids, m: Mail, o: ObjectId, p: ObjectId)
    requires OwnersMatch(d) && RunIdsDistinct(d) && o in d.runId && o !in d.stopped && Installed(d, o)
    requires p in d.runId && Balanced(o, h, q, d, m) && Balanced(p, h, q, d, m)
    requires o in h.late && Outstanding(d.runId[o], q, d, m) == h.late[o]
    ensures Balanced(p, h, q, StopSlot(d, d.runId[o].index), m)
  {
  }

  lemma StopKnown(q: seq<ExecStub>, m: Mail, d: Ids, index: nat)
    requires InvKnown(q, m, d) && index < |d.objects|
    ensures InvKnown(q, m, StopSlot(d, index))
  {
    forall x | x in q ensures KnownExec(x, StopSlot(d, index)) { assert KnownExec(x, d); }
  }

  lemma StopGate(g: Gate, h: History, d: Ids, o: ObjectId)
    requires InvGate(g, h, d) && RunIdsDistinct(d) && ObjectsPlaced(d) && o in d.runId && Installed(d, o) && o in h.late
    ensures InvGate(g, h, StopSlot(d, d.runId[o].index))
  {
    var t := StopSlot(d, d.runId[o].index);
    forall p | p in t.runId ensures GateOne(p, g, h, t) {
      assert GateOne(p, g, h, d);
      if p != o && p in h.late && p !in d.stopped { assert d.runId[p].index != d.runId[o].index; }
    }
  }

  lemma DeliverGate(g: Gate, h: History, d: Ids, o: ObjectId, e: Event)
    requires InvGate(g, h, d) && o in d.runId && o in h.delivered
    ensures InvGate(g, h.(delivered := h.delivered[o := h.delivered[o] + [e]]), d)
  {
    var k := h.(delivered := h.delivered[o := h.delivered[o] + [e]]);
    forall p | p in d.runId ensures GateOne(p, g, k, d) { assert GateOne(p, g, h, d); }
  }

  // ---- Callbacks

  lemma CurrentIsInstalled(s: State)
    requires InvIds(s.ids) && InvLoop(s) && InCall(s)
    ensures var o := Current(s).value;
            && o in s.ids.runId && s.ids.runId[o] == CurrentUid(s)
            && Installed(s.ids, o) && o !in s.ids.stopped && !Pending(s.ids, CurrentUid(s))
            && CurrentUid(s) in s.ids.runId.Values
  {
    var o := Current(s).value;
    assert PlacedOne(s.ids, o);
    if Pending(s.ids, CurrentUid(s)) { PendingIsFree(s.ids, CurrentUid(s)); }
  }

  lemma PostStopGate(s: State)
    requires InvIds(s.ids) && InvLoop(s) && InvGate(s.gate, s.history, s.ids) && CanPostStop(s)
    ensures var t := DoPostStop(s); InvGate(t.gate, t.history, t.ids)
  {
    var t := DoPostStop(s);
    CurrentIsInstalled(s);
    forall p | p in t.ids.runId ensures GateOne(p, t.gate, t.history, t.ids) {
      assert GateOne(p, s.gate, s.history, s.ids);
    }
  }
}
