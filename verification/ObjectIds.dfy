/**
 The manager's object slots: chunks of slots owned by services, a stack of free slots per service,
 and an object id made of a slot index and the slot's generation.

 Each step is one critical section: taking a slot and finishing a registration both happen while the
 service's mutex is held, unregistration clears the slot under the chunk's mutex and only later gives
 it back under the service's mutex, and visits run under the chunk's mutex.  Steps of any number of
 threads interleave.  Services are never unregistered in these runs.
 */
module ObjectIds {
  import opened Common
  import opened Chunks

  type Svc = nat
  type Tid = nat
  type Obj = nat

  datatype Id = Id(index: nat, unique: nat)

  /** A slot: its object, whether its reactor pointer is set, its generation. */
  datatype Slot = Slot(obj: Option<Obj>, visible: bool, unique: nat)

  /** A service: the unused part of its newest chunk, its stack of free slots, its mutex. */
  datatype Service = Service(crt: nat, end: nat, cache: seq<nat>, lock: Option<Tid>)

  datatype Pending = Pending(svc: Svc, index: nat, obj: Obj)

  /** Where a slot is. */
  datatype Place = Fresh(svc: Svc) | Cached(svc: Svc) | Taken(t: Tid) | Registered(obj: Obj) | Clearing(t: Tid)

  /** The chain of each service's chunks: the services' first and last chunk, and each chunk's next one. */
  datatype Links = Links(first: map<Svc, nat>, last: map<Svc, nat>, next: seq<Option<nat>>)

  /** `chunkSvc` is each chunk's svcidx field and `objCnt` its objcnt field.  `owner`, `place` and
      `issued` record who allocated each chunk, where every slot is, and every id handed out. */
  datatype State = State(chunkSize: nat, slots: seq<Slot>, chunkSvc: seq<Option<Svc>>, objCnt: seq<nat>,
                         services: map<Svc, Service>, taken: map<Tid, Pending>, clearing: map<Tid, Pending>,
                         ids: map<Obj, nat>, links: Links,
                         owner: seq<Svc>, place: seq<Place>, issued: map<Id, Obj>)

  ghost predicate Initial(s: State) {
    && 0 < s.chunkSize && s.slots == [] && s.chunkSvc == [] && s.objCnt == [] && s.taken == map[] && s.clearing == map[]
    && s.ids == map[] && s.links == Links(map[], map[], []) && s.owner == [] && s.place == [] && s.issued == map[]
    && forall v :: v in s.services ==> s.services[v] == Service(0, 0, [], None)
  }

  datatype Step =
    | Take(t: Tid, svc: Svc, obj: Obj)
    | Finish(t: Tid, scheduled: bool)
    | Clear(t: Tid, obj: Obj)
    | GiveBack(t: Tid)
    | Disable(obj: Obj)

  predicate Enabled(s: State, a: Step) {
    match a
    case Take(t, v, o) => CanTake(s, t, v, o)
    case Finish(t, _) => CanFinish(s, t)
    case Clear(t, o) => CanClear(s, t, o)
    case GiveBack(t) => CanGiveBack(s, t)
    case Disable(o) => o in s.ids && s.ids[o] < |s.slots|
  }

  predicate CanTake(s: State, t: Tid, v: Svc, o: Obj) {
    && v in s.services && s.services[v].lock.None? && t !in s.taken && t !in s.clearing
    && o !in s.ids && forall u :: u in s.taken ==> s.taken[u].obj != o
  }

  predicate CanFinish(s: State, t: Tid) {
    && t in s.taken && s.taken[t].svc in s.services && s.taken[t].index < |s.slots| && s.taken[t].index < |s.place|
    && 0 < s.chunkSize && ChunkOf(s.taken[t].index, s.chunkSize) < |s.chunkSvc|
    && ChunkOf(s.taken[t].index, s.chunkSize) < |s.objCnt|
  }

  /** unregisterObject is called on a registered object. */
  predicate CanClear(s: State, t: Tid, o: Obj) {
    && t !in s.taken && t !in s.clearing && o in s.ids && s.ids[o] < |s.slots| && s.ids[o] < |s.place|
    && 0 < s.chunkSize && ChunkOf(s.ids[o], s.chunkSize) < |s.chunkSvc| && ChunkOf(s.ids[o], s.chunkSize) < |s.objCnt|
    && s.chunkSvc[ChunkOf(s.ids[o], s.chunkSize)].Some? && 0 < s.objCnt[ChunkOf(s.ids[o], s.chunkSize)]
  }

  predicate CanGiveBack(s: State, t: Tid) {
    && t in s.clearing && s.clearing[t].svc in s.services && s.services[s.clearing[t].svc].lock.None?
    && s.clearing[t].index < |s.place|
  }

  /** Which slot a registration gets: the top of the free stack, the next unused slot of the newest
      chunk, or the first slot of a new chunk. */
  function DoTake(s: State, t: Tid, v: Svc, o: Obj): State
    requires CanTake(s, t, v, o)
  {
    var r := s.services[v];
    if r.cache != [] then
      var i := r.cache[|r.cache| - 1];
      Hold(s, t, Pending(v, i, o), r.(cache := r.cache[..|r.cache| - 1]))
    else if r.crt < r.end then
      Hold(s, t, Pending(v, r.crt, o), r.(crt := r.crt + 1))
    else
      Hold(WithChunk(s, v), t, Pending(v, |s.slots|, o), r.(crt := |s.slots| + 1, end := |s.slots| + s.chunkSize))
  }

  function Hold(s: State, t: Tid, p: Pending, r: Service): State {
    s.(services := s.services[p.svc := r.(lock := Some(t))], taken := s.taken[t := p],
       place := if p.index < |s.place| then s.place[p.index := Taken(t)] else s.place)
  }

  function WithChunk(s: State, v: Svc): State {
    s.(slots := s.slots + seq(s.chunkSize, i => Slot(None, false, 0)),
       place := s.place + seq(s.chunkSize, i => Fresh(v)),
       chunkSvc := s.chunkSvc + [None], objCnt := s.objCnt + [0], links := Linked(s.links, v), owner := s.owner + [v])
  }

  /** A new chunk becomes the last of its service's chain. */
  function Linked(l: Links, v: Svc): Links {
    var c := |l.next|;
    if v !in l.first || v !in l.last || l.last[v] >= c then Links(l.first[v := c], l.last[v := c], l.next + [None])
    else Links(l.first, l.last[v := c], l.next[l.last[v] := Some(c)] + [None])
  }

  /** The object was scheduled and gets its id, or was not and the slot goes to the free stack. */
  function DoFinish(s: State, t: Tid, scheduled: bool): State
    requires CanFinish(s, t)
  {
    var p := s.taken[t];
    var c := ChunkOf(p.index, s.chunkSize);
    var r := s.services[p.svc].(lock := None);
    var s1 := s.(taken := s.taken - {t},
                 chunkSvc := if s.chunkSvc[c].None? then s.chunkSvc[c := Some(p.svc)] else s.chunkSvc);
    if scheduled then
      s1.(slots := s.slots[p.index := Slot(Some(p.obj), true, s.slots[p.index].unique)],
          place := s.place[p.index := Registered(p.obj)], objCnt := s.objCnt[c := s.objCnt[c] + 1],
          ids := s.ids[p.obj := p.index], services := s.services[p.svc := r],
          issued := s.issued[Id(p.index, s.slots[p.index].unique) := p.obj])
    else
      s1.(services := s.services[p.svc := r.(cache := r.cache + [p.index])],
          place := s.place[p.index := Cached(p.svc)])
  }

  function DoClear(s: State, t: Tid, o: Obj): State
    requires CanClear(s, t, o)
  {
    var i := s.ids[o];
    var c := ChunkOf(i, s.chunkSize);
    s.(slots := s.slots[i := Slot(None, false, s.slots[i].unique + 1)], place := s.place[i := Clearing(t)],
       objCnt := s.objCnt[c := s.objCnt[c] - 1], ids := s.ids - {o},
       clearing := s.clearing[t := Pending(s.chunkSvc[c].value, i, o)])
  }

  function DoGiveBack(s: State, t: Tid): State
    requires CanGiveBack(s, t)
  {
    var p := s.clearing[t];
    var r := s.services[p.svc];
    s.(clearing := s.clearing - {t}, services := s.services[p.svc := r.(cache := r.cache + [p.index])],
       place := s.place[p.index := Cached(p.svc)])
  }

  function Apply(s: State, a: Step): State
    requires Enabled(s, a)
  {
    match a
    case Take(t, v, o) => DoTake(s, t, v, o)
    case Finish(t, ok) => DoFinish(s, t, ok)
    case Clear(t, o) => DoClear(s, t, o)
    case GiveBack(t) => DoGiveBack(s, t)
    case Disable(o) => s.(slots := s.slots[s.ids[o] := s.slots[s.ids[o]].(visible := false)])
  }

  /** doVisit on an id: the object reached, if any. */
  function Visit(s: State, id: Id): Option<Obj> {
    if id.index < |s.slots| && s.slots[id.index].unique == id.unique && s.slots[id.index].visible
    then s.slots[id.index].obj else None
  }

  predicate Legal(s: State, run: seq<Step>)
    decreases |run|
  {
    run == [] || (Enabled(s, run[0]) && Legal(Apply(s, run[0]), run[1..]))
  }

  function After(s: State, run: seq<Step>): State
    requires Legal(s, run)
    decreases |run|
  {
    if run == [] then s else After(Apply(s, run[0]), run[1..])
  }

  // ---- The invariant

  /** Chunks tile the slots, and a chunk's svcidx, once set, names the service that allocated it. */
  ghost predicate InvShape(s: State) {
    && 0 < s.chunkSize
    && |s.place| == |s.slots| == |s.owner| * s.chunkSize && |s.chunkSvc| == |s.owner| == |s.objCnt|
    && (forall c :: 0 <= c < |s.owner| ==>
          s.owner[c] in s.services && (s.chunkSvc[c].Some? ==> s.chunkSvc[c].value == s.owner[c]))
  }

  /** A service's unused range and free stack are exactly the slots placed there. */
  ghost predicate ServiceOne(v: Svc, r: Service, place: seq<Place>) {
    && Distinct(r.cache)
    && r.end <= |place|
    && (forall i :: 0 <= i < |place| ==>
         && (place[i] == Fresh(v) <==> r.crt <= i < r.end)
         && (place[i] == Cached(v) <==> i in r.cache))
    && (forall i :: i in r.cache ==> i < |place|)
  }

  ghost predicate InvServices(s: State) {
    forall v :: v in s.services ==> ServiceOne(v, s.services[v], s.place)
  }

  /** A slot under registration belongs to the one thread that has it, which holds its service's mutex. */
  predicate TakenOne(t: Tid, s: State)
    requires t in s.taken
  {
    var p := s.taken[t];
    && p.index < |s.place| && s.place[p.index] == Taken(t)
    && p.svc in s.services && s.services[p.svc].lock == Some(t) && p.obj !in s.ids
  }

  ghost predicate InvTaken(s: State) {
    && (forall t :: t in s.taken ==> TakenOne(t, s))
    && (forall t, u :: t in s.taken && u in s.taken && t != u ==> s.taken[t].obj != s.taken[u].obj)
  }

  ghost predicate InvLocks(s: State) {
    forall v :: v in s.services && s.services[v].lock.Some? ==>
      s.services[v].lock.value in s.taken && s.taken[s.services[v].lock.value].svc == v
  }

  ghost predicate InvClearing(s: State) {
    forall t :: t in s.clearing ==>
      && s.clearing[t].index < |s.place| && s.place[s.clearing[t].index] == Clearing(t)
      && s.clearing[t].svc in s.services
  }

  /** Each slot agrees with its place. */
  predicate SlotOne(i: nat, s: State)
    requires i < |s.slots| && i < |s.place|
  {
    match s.place[i]
    case Registered(o) => s.slots[i].obj == Some(o) && o in s.ids && s.ids[o] == i
    case Taken(t) => s.slots[i].obj.None? && t in s.taken && s.taken[t].index == i
    case Clearing(t) => s.slots[i].obj.None? && t in s.clearing && s.clearing[t].index == i
    case Fresh(v) => s.slots[i].obj.None? && v in s.services
    case Cached(v) => s.slots[i].obj.None? && v in s.services
  }

  ghost predicate InvSlots(s: State)
    requires |s.slots| == |s.place|
  {
    && (forall i :: 0 <= i < |s.slots| ==> SlotOne(i, s))
    && (forall o :: o in s.ids ==> s.ids[o] < |s.place| && s.place[s.ids[o]] == Registered(o))
  }

  /** An id handed out is the slot's current one exactly while its object is registered. */
  ghost predicate InvIssued(s: State) {
    forall id :: id in s.issued ==>
      && id.index < |s.slots| && id.unique <= s.slots[id.index].unique
      && (id.unique == s.slots[id.index].unique ==> s.slots[id.index].obj == Some(s.issued[id]))
  }

  /** A slot is used by the service that allocated its chunk. */
  function ServiceOf(p: Place, s: State): Option<Svc> {
    match p
    case Fresh(v) => Some(v)
    case Cached(v) => Some(v)
    case Taken(t) => if t in s.taken then Some(s.taken[t].svc) else None
    case Clearing(t) => if t in s.clearing then Some(s.clearing[t].svc) else None
    case Registered(_) => None
  }

  /** Slot `i` of chunk `c`. */
  predicate OwnerOne(i: nat, c: nat, s: State)
    requires i < |s.place| && |s.chunkSvc| == |s.owner|
  {
    && c < |s.owner|
    && (ServiceOf(s.place[i], s).Some? ==> ServiceOf(s.place[i], s).value == s.owner[c])
    && (s.place[i].Registered? ==> s.chunkSvc[c].Some?)
  }

  ghost predicate InvOwner(s: State)
    requires InvShape(s)
  {
    forall i :: 0 <= i < |s.place| ==> OwnerOne(i, ChunkOf(i, s.chunkSize), s)
  }

  /** How many of these slots hold an object. */
  function Occupied(q: seq<Slot>): nat {
    if q == [] then 0 else (if q[0].obj.Some? then 1 else 0) + Occupied(q[1..])
  }

  /** The slots of the chunk that begins at slot `at`. */
  function ChunkAt(q: seq<Slot>, at: nat, k: nat): seq<Slot> {
    if at + k <= |q| then q[at..at + k] else []
  }

  /** A chunk's objcnt is the number of objects registered in it. */
  ghost predicate InvCounts(s: State)
    requires InvShape(s)
  {
    forall c :: 0 <= c < |s.objCnt| ==> s.objCnt[c] == Occupied(ChunkAt(s.slots, c * s.chunkSize, s.chunkSize))
  }

  ghost predicate Inv(s: State) {
    && InvShape(s) && InvServices(s) && InvTaken(s) && InvLocks(s) && InvClearing(s) && InvSlots(s) && InvIssued(s)
    && InvOwner(s) && InvCounts(s)
  }
}
