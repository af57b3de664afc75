/**
 The event loop of one reactor, together with the part of the manager that decides
 whether an object may still be visited.

 Every atomic action is one Step: a critical section of another thread (under the reactor's
 mutex or the object's mutex) or one move of the reactor's own thread between two points where
 other threads can be observed.  A run is any sequence of enabled steps, so user callbacks,
 visits, pushes and time-outs interleave in every possible way.
 */
module Reactor {
  import opened Common
  import opened RunIds

  type Event = nat

  /** What an entry of the exec queue does when it runs. */
  datatype Task =
    | OnEvent(event: Event)   // call_object_on_event
    | Posted(fn: nat)         // a function posted by user code
    | StopRepost              // stop_object_repost
    | StopNow                 // stop_object

  datatype ExecStub = ExecStub(uid: Uid, task: Task, handler: Uid)
  datatype RaiseStub = RaiseStub(uid: Uid, event: Event)

  /** Where the reactor's thread is in its loop. `left` is what remains of the queue length
      sampled when the exec phase began; in a callback `index` is the slot being called. */
  datatype Pc =
    | Waiting
    | Blocked(signalled: bool)
    | Events
    | Timers
    | TimerCall(index: nat)
    | Execs(left: nat)
    | ExecCall(left: nat, index: nat)

  /** Who holds an object's mutex, and why. */
  datatype Holder = Registering | Visiting(event: Event)

  /** The double-buffered raise vector with its published size. */
  datatype Mail = Mail(fill: seq<RaiseStub>, take: seq<RaiseStub>, size: nat)

  /** What the manager's object stubs allow: an object is visible while its reactor pointer is set. */
  datatype Gate = Gate(visible: set<ObjectId>, locked: map<ObjectId, Holder>)

  /** What was raised for and delivered to every object, and what was left in the fill vector when
      its stop was posted outside the exec phase. */
  datatype History = History(raised: map<ObjectId, seq<Event>>, delivered: map<ObjectId, seq<Event>>,
                             late: map<ObjectId, seq<Event>>)

  datatype State = State(ids: Ids, pushSize: nat, mail: Mail, mustStop: bool, handlers: seq<nat>,
                         exeq: seq<ExecStub>, pc: Pc, gate: Gate, history: History)

  /** After start(): slot 0 belongs to the reactor's own event object, whose handler is handler 0. */
  const INITIAL: State :=
    State(INITIAL_IDS, 0, Mail([], [], 0), false, [0], [], Waiting, Gate({}, map[]),
          History(map[], map[], map[]))

  datatype Step =
    | Push(obj: ObjectId, event: Event)
    | Publish(obj: ObjectId)
    | VisitBegin(obj: ObjectId, event: Event)
    | VisitRaise(obj: ObjectId)
    | RequestStop
    | Block
    | Swap
    | Install
    | Enqueue
    | EventsDone
    | TimerFire(index: nat)
    | TimersDone
    | ExecNext
    | ExecsDone
    | AddHandler
    | DropHandler(handler: nat)
    | Post(fn: nat, handler: nat)
    | PostStop
    | Return

  // ---- Reading a state

  predicate InCall(s: State) {
    s.pc.TimerCall? || s.pc.ExecCall?
  }

  /** The object whose callback is running. */
  function Current(s: State): Option<ObjectId> {
    if InCall(s) && s.pc.index < |s.ids.objects| then s.ids.objects[s.pc.index].owner else None
  }

  function CurrentUid(s: State): Uid
    requires Current(s).Some?
  {
    Uid(s.pc.index, s.ids.objects[s.pc.index].unique)
  }

  const DUMMY_HANDLER: Uid := Uid(0, 0)

  predicate Runs(s: State, e: ExecStub) {
    && e.uid.index < |s.ids.objects| && s.ids.objects[e.uid.index].unique == e.uid.unique
    && e.handler.index < |s.handlers| && s.handlers[e.handler.index] == e.handler.unique
  }

  function Signalled(pc: Pc, size: nat): Pc {
    if pc.Blocked? && size == 1 then Blocked(true) else pc
  }

  // ---- Events of one run id in the queues, in order

  function RaisedIn(q: seq<RaiseStub>, u: Uid): seq<Event> {
    if q == [] then [] else (if q[0].uid == u then [q[0].event] else []) + RaisedIn(q[1..], u)
  }

  function PushedIn(q: seq<NewTask>, u: Uid): seq<Event> {
    if q == [] then [] else (if q[0].uid == u then [q[0].event] else []) + PushedIn(q[1..], u)
  }

  function QueuedIn(q: seq<ExecStub>, u: Uid): seq<Event> {
    if q == [] then []
    else (if q[0].uid == u && q[0].task.OnEvent? then [q[0].task.event] else []) + QueuedIn(q[1..], u)
  }

  // ---- The steps

  predicate CanRaise(s: State, o: ObjectId) {
    o in s.ids.runId && o in s.history.raised && o in s.gate.locked && s.gate.locked[o].Visiting?
  }

  predicate CanSwap(s: State) {
    s.pc.Waiting? || s.pc.Blocked?
  }

  predicate CanInstall(s: State) {
    s.pc.Events? && s.ids.pushTake != [] && s.ids.pushTake[0].obj !in s.gate.locked
  }

  predicate CanEnqueue(s: State) {
    s.pc.Events? && s.ids.pushTake == [] && s.mail.take != []
  }

  predicate CanExec(s: State) {
    s.pc.Execs? && s.pc.left > 0 && s.exeq != []
  }

  predicate CanPostStop(s: State) {
    Current(s).Some? && Current(s).value !in s.gate.locked
  }

  predicate CanReturn(s: State) {
    s.pc.TimerCall? || (s.pc.ExecCall? && s.exeq != [] && s.pc.left > 0)
  }

  predicate Enabled(s: State, a: Step) {
    match a
    case Push(o, _) => o !in s.ids.runId
    case Publish(o) => o in s.gate.locked && s.gate.locked[o].Registering?
    case VisitBegin(o, _) => o in s.gate.visible && o !in s.gate.locked
    case VisitRaise(o) => CanRaise(s, o)
    case RequestStop => true
    case Block => s.pc.Waiting? && s.pushSize == 0 && s.mail.size == 0 && !s.mustStop && s.exeq == []
    case Swap => CanSwap(s)
    case Install => CanInstall(s)
    case Enqueue => CanEnqueue(s)
    case EventsDone => s.pc.Events? && s.ids.pushTake == [] && s.mail.take == []
    case TimerFire(i) => s.pc.Timers? && i < |s.ids.objects| && s.ids.objects[i].owner.Some?
    case TimersDone => s.pc.Timers?
    case ExecNext => CanExec(s)
    case ExecsDone => s.pc.Execs? && s.pc.left == 0
    case AddHandler => s.pc.Events? || InCall(s)
    case DropHandler(h) => InCall(s) && 0 < h < |s.handlers|
    case Post(_, h) => Current(s).Some? && h < |s.handlers|
    case PostStop => CanPostStop(s)
    case Return => CanReturn(s)
  }

  /** registerObject calling push: a run id is popped, the new task joins the fill vector, and the
      object's mutex stays locked until the object is published. */
  function DoPush(s: State, o: ObjectId, e: Event): State {
    var ids := PopFor(s.ids, o, e);
    s.(ids := ids, pushSize := |ids.pushFill|, pc := Signalled(s.pc, |ids.pushFill|),
       gate := s.gate.(locked := s.gate.locked[o := Registering]),
       history := s.history.(raised := s.history.raised[o := [e]], delivered := s.history.delivered[o := []]))
  }

  /** A visit that found the object visible raises its event and lets go of the object's mutex. */
  function DoVisitRaise(s: State, o: ObjectId): State
    requires CanRaise(s, o)
  {
    var e := s.gate.locked[o].event;
    var fill := s.mail.fill + [RaiseStub(s.ids.runId[o], e)];
    s.(mail := s.mail.(fill := fill, size := |fill|), pc := Signalled(s.pc, |fill|),
       history := s.history.(raised := s.history.raised[o := s.history.raised[o] + [e]]),
       gate := s.gate.(locked := s.gate.locked - {o}))
  }

  /** doWaitEvent after any wait: free run ids are recycled and the fill vectors become the ones to
      take from; the emptied ones are filled next. */
  function DoSwap(s: State): State {
    s.(mustStop := false, pushSize := 0,
       ids := if s.pushSize == 0 then s.ids else Recycle(s.ids),
       mail := if s.mail.size == 0 then s.mail else Mail(s.mail.take, s.mail.fill, 0),
       pc := if s.pushSize == 0 && s.mail.size == 0 then Timers else Events)
  }

  function DoInstall(s: State): State
    requires s.ids.pushTake != []
  {
    var t := s.ids.pushTake[0];
    s.(ids := InstallFirst(s.ids), exeq := s.exeq + [ExecStub(t.uid, OnEvent(t.event), DUMMY_HANDLER)])
  }

  function DoEnqueue(s: State): State
    requires s.mail.take != []
  {
    var r := s.mail.take[0];
    s.(exeq := s.exeq + [ExecStub(r.uid, OnEvent(r.event), DUMMY_HANDLER)],
       mail := s.mail.(take := s.mail.take[1..]))
  }

  /** The history after the object in slot `index` received an event. */
  function Delivered(s: State, index: nat, e: Event): History
    requires index < |s.ids.objects|
  {
    var owner := s.ids.objects[index].owner;
    if owner.Some? && owner.value in s.history.delivered
    then s.history.(delivered := s.history.delivered[owner.value := s.history.delivered[owner.value] + [e]])
    else s.history
  }

  /** One turn of the loop in doCompleteExec.  The front entry stays in the queue while its function
      runs, because the code pops it afterwards. */
  function DoExecNext(s: State): State
    requires CanExec(s)
  {
    var e := s.exeq[0];
    var popped := s.(exeq := s.exeq[1..], pc := Execs(s.pc.left - 1));
    if !Runs(s, e) then popped
    else
      match e.task
      case OnEvent(ev) => s.(pc := ExecCall(s.pc.left, e.uid.index), history := Delivered(s, e.uid.index, ev))
      case Posted(_) => s.(pc := ExecCall(s.pc.left, e.uid.index))
      case StopRepost => popped.(exeq := s.exeq[1..] + [ExecStub(e.uid, StopNow, DUMMY_HANDLER)])
      case StopNow => popped.(ids := StopSlot(s.ids, e.uid.index))
  }

  /** The events a stop posted now overtakes: in a timer callback, those in the fill vector */
  function Overtaken(s: State, u: Uid): seq<Event> {
    if s.pc.TimerCall? then RaisedIn(s.mail.fill, u) else []
  }

  /** postStop: only the call that finds the object still visible posts a stop. */
  function DoPostStop(s: State): State
    requires CanPostStop(s)
  {
    var o := Current(s).value;
    var u := CurrentUid(s);
    if o !in s.gate.visible then s
    else s.(gate := s.gate.(visible := s.gate.visible - {o}),
            history := s.history.(late := s.history.late[o := Overtaken(s, u)]),
            exeq := s.exeq + [ExecStub(u, StopRepost, DUMMY_HANDLER)])
  }

  function DoReturn(s: State): State
    requires CanReturn(s)
  {
    if s.pc.TimerCall? then s.(pc := Timers)
    else s.(exeq := s.exeq[1..], pc := Execs(s.pc.left - 1))
  }

  function Apply(s: State, a: Step): State
    requires Enabled(s, a)
  {
    match a
    case Push(o, e) => DoPush(s, o, e)
    case Publish(o) => s.(gate := Gate(s.gate.visible + {o}, s.gate.locked - {o}))
    case VisitBegin(o, e) => s.(gate := s.gate.(locked := s.gate.locked[o := Visiting(e)]))
    case VisitRaise(o) => DoVisitRaise(s, o)
    case RequestStop => s.(mustStop := true, pc := Signalled(s.pc, 1))
    case Block => s.(pc := Blocked(false))
    case Swap => DoSwap(s)
    case Install => DoInstall(s)
    case Enqueue => DoEnqueue(s)
    case EventsDone => s.(pc := Timers)
    case TimerFire(i) => s.(pc := TimerCall(i))
    case TimersDone => s.(pc := Execs(|s.exeq|))
    case ExecNext => DoExecNext(s)
    case ExecsDone => s.(pc := Waiting)
    case AddHandler => s.(handlers := s.handlers + [0])
    case DropHandler(h) => s.(handlers := s.handlers[h := s.handlers[h] + 1])
    case Post(f, h) => s.(exeq := s.exeq + [ExecStub(CurrentUid(s), Posted(f), Uid(h, s.handlers[h]))])
    case PostStop => DoPostStop(s)
    case Return => DoReturn(s)
  }

  // ---- Runs

  predicate Legal(s: State, run: seq<Step>)
    decreases |run|
  {
    run == [] || (Enabled(s, run[0]) && Legal(Apply(s, run[0]), run[1..]))
  }

  function After(s: State, run: seq<Step>): State
    requires Legal(s, run)
    decreases |run|
  {
    if run == [] then s else After(Apply(s, run[0]), run[1..])
  }
}
