/** Wake-ups, requests to stop the reactor, and handlers coming and going, told from the steps of the run. */
module ReactorSignals {
  import opened Common
  import opened RunIds
  import opened Reactor
  import opened ReactorInv
  import opened ReactorSteps
  import opened ReactorRuns
  import opened ReactorPosts

  // ---- Waking up

  /** There is something to wake up for. */
  predicate Wanted(s: State) {
    s.ids.pushFill != [] || s.mail.fill != [] || s.mustStop
  }

  predicate SignalHasReason(s: State) {
    s.pc == Blocked(true) ==> Wanted(s)
  }

  lemma StepSignals(s: State, a: Step)
    requires Enabled(s, a) && SignalHasReason(s)
    ensures SignalHasReason(Apply(s, a))
  {
  }

  lemma {:induction false} RunSignals(s: State, run: seq<Step>)
    requires Legal(s, run) && SignalHasReason(s)
    ensures SignalHasReason(After(s, run))
    decreases |run|
  {
    if run != [] {
      StepSignals(s, run[0]);
      RunSignals(Apply(s, run[0]), run[1..]);
    }
  }

  function NowBlocked(a: Step, before: bool): bool {
    if a.Block? then true else if a.Swap? then false else before
  }

  /** The reactor went to sleep and has not looked at its vectors since. */
  function BlockedBy(run: seq<Step>, before: bool): bool {
    if run == [] then before else BlockedBy(run[1..], NowBlocked(run[0], before))
  }

  lemma StepBlocks(s: State, a: Step)
    requires Enabled(s, a)
    ensures Apply(s, a).pc.Blocked? == NowBlocked(a, s.pc.Blocked?)
  {
  }

  lemma {:induction false} RunBlocks(s: State, run: seq<Step>)
    requires Legal(s, run)
    ensures After(s, run).pc.Blocked? == BlockedBy(run, s.pc.Blocked?)
    decreases |run|
  {
    if run != [] {
      StepBlocks(s, run[0]);
      RunBlocks(Apply(s, run[0]), run[1..]);
    }
  }

  /** In every run the reactor sleeps from going to sleep until it looks at its vectors again; meanwhile it has nothing
      queued to run, and has been signalled exactly if there is a new object, an event or a request to stop for it. */
  lemma SignalledExactly(run: seq<Step>)
    requires Legal(INITIAL, run)
    ensures var s := After(INITIAL, run);
            && (s.pc.Blocked? <==> BlockedBy(run, false))
            && (s.pc.Blocked? ==> s.exeq == [] && (s.pc.signalled <==> Wanted(s)))
  {
    RunBlocks(INITIAL, run);
    RunSignals(INITIAL, run);
    NoLostWakeUp(run);
  }

  // ---- Requests to stop

  function NowAsked(a: Step, before: bool): bool {
    if a.RequestStop? then true else if a.Swap? then false else before
  }

  /** A stop was requested since the reactor last looked. */
  function StopAsked(run: seq<Step>, before: bool): bool {
    if run == [] then before else StopAsked(run[1..], NowAsked(run[0], before))
  }

  lemma ExecKeeps(s: State)
    requires CanExec(s)
    ensures DoExecNext(s).mustStop == s.mustStop && DoExecNext(s).handlers == s.handlers
  {
  }

  lemma StepAsks(s: State, a: Step)
    requires Enabled(s, a)
    ensures Apply(s, a).mustStop == NowAsked(a, s.mustStop)
  {
    if a.ExecNext? { ExecKeeps(s); }
  }

  lemma {:induction false} RunAsks(s: State, run: seq<Step>)
    requires Legal(s, run)
    ensures After(s, run).mustStop == StopAsked(run, s.mustStop)
    decreases |run|
  {
    if run != [] {
      StepAsks(s, run[0]);
      RunAsks(Apply(s, run[0]), run[1..]);
    }
  }

  /** In every run a stop can be requested, and the reactor finds one the next time it looks exactly if it was requested
      since it last looked; with a request it does not go to sleep. */
  lemma StopRequestIsSeen(run: seq<Step>)
    requires Legal(INITIAL, run)
    ensures var s := After(INITIAL, run);
            && Enabled(s, RequestStop)
            && (s.mustStop <==> StopAsked(run, false))
            && (StopAsked(run, false) ==> !Enabled(s, Block) && s.pc != Blocked(false))
  {
    RunAsks(INITIAL, run);
    NoLostWakeUp(run);
  }

  // ---- Handlers

  function AddedIn(run: seq<Step>): nat {
    if run == [] then 0 else (if run[0].AddHandler? then 1 else 0) + AddedIn(run[1..])
  }

  function DroppedIn(run: seq<Step>, h: nat): nat {
    if run == [] then 0 else (if run[0] == DropHandler(h) then 1 else 0) + DroppedIn(run[1..], h)
  }

  predicate HandlersMove(s: State, t: State, a: Step, h: nat) {
    && |t.handlers| == |s.handlers| + (if a.AddHandler? then 1 else 0)
    && (h < |s.handlers| ==> t.handlers[h] == s.handlers[h] + if a == DropHandler(h) then 1 else 0)
    && (|s.handlers| <= h < |t.handlers| ==> t.handlers[h] == 0 && a != DropHandler(h))
  }

  lemma StepHandlers(s: State, a: Step, h: nat)
    requires Enabled(s, a)
    ensures HandlersMove(s, Apply(s, a), a, h)
    ensures h >= |s.handlers| ==> a != DropHandler(h)
  {
    if a.ExecNext? { ExecKeeps(s); }
  }

  lemma {:induction false} RunHandlers(s: State, run: seq<Step>, h: nat)
    requires Legal(s, run)
    ensures |After(s, run).handlers| == |s.handlers| + AddedIn(run)
    ensures h < |After(s, run).handlers| ==>
              After(s, run).handlers[h] == (if h < |s.handlers| then s.handlers[h] else 0) + DroppedIn(run, h)
    decreases |run|
  {
    if run != [] {
      StepHandlers(s, run[0], h);
      RunHandlers(Apply(s, run[0]), run[1..], h);
    }
  }

  /** In every run there is a handler for the reactor's own object and one for each that was added, and a handler's
      generation is the number of times it was dropped. */
  lemma HandlersCounted(run: seq<Step>, h: nat)
    requires Legal(INITIAL, run)
    ensures var s := After(INITIAL, run);
            |s.handlers| == 1 + AddedIn(run) && (h < |s.handlers| ==> s.handlers[h] == DroppedIn(run, h))
  {
    RunHandlers(INITIAL, run, h);
  }

  /** In every run: after a handler is dropped, nothing that was posted under it runs, for any object. */
  lemma DroppedNeverRuns(s: State, h: nat, rest: seq<Step>, u: Uid)
    requires Enabled(s, DropHandler(h)) && Legal(Apply(s, DropHandler(h)), rest)
    ensures RanIn(Apply(s, DropHandler(h)), rest, u, Uid(h, s.handlers[h])) == []
  {
    GoneNeverRuns(Apply(s, DropHandler(h)), rest, u, Uid(h, s.handlers[h]));
  }

  /** In every run: after an object is stopped, nothing that was posted for it runs, under any handler. */
  lemma StoppedNeverRuns(before: seq<Step>, rest: seq<Step>, o: ObjectId, h: Uid)
    requires Legal(INITIAL, before) && o in After(INITIAL, before).ids.stopped
    requires o in After(INITIAL, before).ids.runId && Legal(After(INITIAL, before), rest)
    ensures RanIn(After(INITIAL, before), rest, After(INITIAL, before).ids.runId[o], h) == []
  {
    ReachableInv(before);
    var s := After(INITIAL, before);
    StoppedIsGone(s.ids, o);
    GoneNeverRuns(s, rest, s.ids.runId[o], h);
  }

  lemma StoppedIsGone(d: Ids, o: ObjectId)
    requires InvIds(d) && o in d.stopped && o in d.runId
    ensures d.runId[o].index < |d.objects| && d.objects[d.runId[o].index].unique > d.runId[o].unique
  {
    assert PlacedOne(d, o);
  }
}
