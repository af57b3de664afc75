/**
 Run ids of a reactor: slot indices with generations, handed out by push, carried by the pending
 tasks, held by installed objects and recycled through the reactor's two free lists.
 */
module RunIds {
  import opened Common

  type ObjectId = nat

  /** A slot index and the generation the slot had when the id was given out. */
  datatype Uid = Uid(index: nat, unique: nat)

  datatype NewTask = NewTask(uid: Uid, obj: ObjectId, event: nat)
  datatype ObjectStub = ObjectStub(unique: nat, owner: Option<ObjectId>)

  /** The id stack and next index (ReactorBase), the ids freed since the last swap, the
      double-buffered vector of new tasks, the object slots, every object's run id, and the
      objects that were stopped. */
  datatype Ids = Ids(stack: seq<Uid>, nextIndex: nat, freed: seq<Uid>,
                     pushFill: seq<NewTask>, pushTake: seq<NewTask>,
                     objects: seq<ObjectStub>, runId: map<ObjectId, Uid>, stopped: set<ObjectId>)

  const INITIAL_IDS: Ids := Ids([], 1, [], [], [], [ObjectStub(0, None)], map[], {})

  /** The generation a slot holds; slots the object deque does not reach yet are fresh. */
  function Generation(d: Ids, index: nat): nat {
    if index < |d.objects| then d.objects[index].unique else 0
  }

  predicate Free(d: Ids, index: nat) {
    index < |d.objects| ==> d.objects[index].owner.None?
  }

  // ---- The operations

  function NextUid(d: Ids): Uid {
    if d.stack == [] then Uid(d.nextIndex, 0) else d.stack[|d.stack| - 1]
  }

  /** popUid and the new task of push. */
  function PopFor(d: Ids, o: ObjectId, e: nat): Ids {
    var u := NextUid(d);
    d.(stack := if d.stack == [] then [] else d.stack[..|d.stack| - 1],
       nextIndex := if d.stack == [] then d.nextIndex + 1 else d.nextIndex,
       pushFill := d.pushFill + [NewTask(u, o, e)], runId := d.runId[o := u])
  }

  /** doWaitEvent with new tasks present: freed ids return to the stack and the vectors swap. */
  function Recycle(d: Ids): Ids {
    d.(stack := d.stack + d.freed, freed := [], pushFill := d.pushTake, pushTake := d.pushFill)
  }

  function Extended(objects: seq<ObjectStub>, size: nat): (r: seq<ObjectStub>)
    ensures |r| == if |objects| < size then size else |objects|
    ensures forall i :: 0 <= i < |r| ==> r[i] == if i < |objects| then objects[i] else ObjectStub(0, None)
  {
    if |objects| >= size then objects
    else objects + seq(size - |objects|, i => ObjectStub(0, None))
  }

  /** doCompleteEvents moving the first new task into its slot. */
  function InstallFirst(d: Ids): Ids
    requires d.pushTake != []
  {
    var t := d.pushTake[0];
    var objects := Extended(d.objects, t.uid.index + 1);
    d.(objects := objects[t.uid.index := objects[t.uid.index].(owner := Some(t.obj))],
       pushTake := d.pushTake[1..])
  }

  /** doStopObject: the slot loses its object and takes the next generation. */
  function StopSlot(d: Ids, index: nat): Ids
    requires index < |d.objects|
  {
    var stub := ObjectStub(d.objects[index].unique + 1, None);
    d.(objects := d.objects[index := stub], freed := d.freed + [Uid(index, stub.unique)],
       stopped := if d.objects[index].owner.Some? then d.stopped + {d.objects[index].owner.value} else d.stopped)
  }

  // ---- Where a run id can be

  function UidsOf(q: seq<NewTask>): seq<Uid> {
    if q == [] then [] else [q[0].uid] + UidsOf(q[1..])
  }

  lemma {:induction false} UidsOfAppend(q: seq<NewTask>, t: NewTask)
    ensures UidsOf(q + [t]) == UidsOf(q) + [t.uid]
  {
    if q == [] {
    } else {
      assert (q + [t])[1..] == q[1..] + [t];
      UidsOfAppend(q[1..], t);
    }
  }

  /** The ids no installed object holds: stacked, freed, or on a pending task. */
  ghost function Loose(d: Ids): multiset<Uid> {
    multiset(d.stack) + multiset(d.freed) + multiset(UidsOf(d.pushTake)) + multiset(UidsOf(d.pushFill))
  }

  ghost predicate Shape(d: Ids) {
    1 <= |d.objects| <= d.nextIndex && d.objects[0] == ObjectStub(0, None)
  }

  /** Ids of free slots under their current generation, each once. */
  ghost predicate Fits(m: multiset<Uid>, d: Ids) {
    forall u :: u in m ==> m[u] == 1 && FitsOne(u, d)
  }

  predicate FitsOne(u: Uid, d: Ids) {
    0 < u.index < d.nextIndex && u.unique == Generation(d, u.index) && Free(d, u.index)
  }

  /** Every free slot's id is among `m`. */
  ghost predicate Covers(m: multiset<Uid>, d: Ids) {
    forall i :: 0 < i < d.nextIndex && Free(d, i) ==> Uid(i, Generation(d, i)) in m
  }

  ghost predicate LoosePlaced(d: Ids) {
    Fits(Loose(d), d) && Covers(Loose(d), d)
  }

  predicate Installed(d: Ids, o: ObjectId)
    requires o in d.runId
  {
    var u := d.runId[o];
    u.index < |d.objects| && d.objects[u.index] == ObjectStub(u.unique, Some(o))
  }

  predicate Pending(d: Ids, u: Uid) {
    u in UidsOf(d.pushTake) || u in UidsOf(d.pushFill)
  }

  ghost predicate OwnersMatch(d: Ids) {
    forall i :: 0 <= i < |d.objects| && d.objects[i].owner.Some? ==>
      && d.objects[i].owner.value in d.runId
      && d.runId[d.objects[i].owner.value] == Uid(i, d.objects[i].unique)
  }

  ghost predicate TasksMatch(d: Ids) {
    && (forall t :: t in d.pushTake ==> t.obj in d.runId && d.runId[t.obj] == t.uid)
    && (forall t :: t in d.pushFill ==> t.obj in d.runId && d.runId[t.obj] == t.uid)
  }

  /** An object is stopped exactly when its generation has passed; otherwise it is in its slot or
      still on its way to it. */
  predicate PlacedOne(d: Ids, o: ObjectId)
    requires o in d.runId
  {
    var u := d.runId[o];
    && 0 < u.index < d.nextIndex
    && u.unique <= Generation(d, u.index)
    && (o in d.stopped <==> u.unique < Generation(d, u.index))
    && (o !in d.stopped ==> Installed(d, o) || Pending(d, u))
  }

  ghost predicate ObjectsPlaced(d: Ids) {
    && (forall o :: o in d.runId ==> PlacedOne(d, o))
    && (forall o :: o in d.stopped ==> o in d.runId)
  }

  ghost predicate RunIdsDistinct(d: Ids) {
    forall o, p :: o in d.runId && p in d.runId && d.runId[o] == d.runId[p] ==> o == p
  }

  /** What every reachable state satisfies about run ids. */
  ghost predicate InvIds(d: Ids) {
    && Shape(d) && LoosePlaced(d) && OwnersMatch(d) && TasksMatch(d)
    && ObjectsPlaced(d) && RunIdsDistinct(d)
  }

  // ---- Every operation keeps the invariant

  lemma BagOfLast(q: seq<Uid>)
    requires q != []
    ensures multiset(q) == multiset(q[..|q| - 1]) + multiset{q[|q| - 1]}
  {
    assert q == q[..|q| - 1] + [q[|q| - 1]];
  }

  /** Taking an id off the stack for a task moves it; a new index adds one. */
  lemma PopLoose(d: Ids, o: ObjectId, e: nat)
    ensures var t := PopFor(d, o, e); var u := NextUid(d);
            && UidsOf(t.pushFill) == UidsOf(d.pushFill) + [u]
            && Loose(t) == if d.stack == [] then Loose(d) + multiset{u} else Loose(d)
  {
    UidsOfAppend(d.pushFill, NewTask(NextUid(d), o, e));
    if d.stack != [] { BagOfLast(d.stack); }
  }

  lemma NextUidLoose(d: Ids)
    requires d.stack != []
    ensures NextUid(d) in Loose(d)
  {
    assert NextUid(d) in multiset(d.stack);
  }

  /** The id push pops belongs to no earlier object. */
  lemma NextUidIsNew(d: Ids, p: ObjectId)
    requires Shape(d) && LoosePlaced(d) && ObjectsPlaced(d) && p in d.runId
    ensures d.runId[p] != NextUid(d)
  {
    if d.runId[p] == NextUid(d) && d.stack != [] {
      NextUidLoose(d);
      assert FitsOne(NextUid(d), d);
      StackedNotPending(d);
    }
  }

  lemma StackedNotPending(d: Ids)
    requires Fits(Loose(d), d) && d.stack != []
    ensures !Pending(d, NextUid(d))
  {
    var u := NextUid(d);
    NextUidLoose(d);
    assert u in multiset(d.stack) && Loose(d)[u] == 1;
    assert u !in multiset(UidsOf(d.pushTake)) && u !in multiset(UidsOf(d.pushFill));
  }

  lemma FitsMore(m: multiset<Uid>, u: Uid, d: Ids, t: Ids)
    requires Fits(m, d) && Covers(m, d)
    requires u !in m && FitsOne(u, t)
    requires t.nextIndex == d.nextIndex || t.nextIndex == d.nextIndex + 1 == u.index + 1
    requires forall i: nat :: i != u.index ==> Generation(t, i) == Generation(d, i) && Free(t, i) == Free(d, i)
    requires forall v :: v in m ==> v.index != u.index
    ensures Fits(m + multiset{u}, t) && Covers(m + multiset{u}, t)
  {
    forall v | v in m + multiset{u}
      ensures (m + multiset{u})[v] == 1 && FitsOne(v, t)
    {
      if v != u { assert v in m && FitsOne(v, d); }
    }
    forall i | 0 < i < t.nextIndex && Free(t, i)
      ensures Uid(i, Generation(t, i)) in m + multiset{u}
    {
      if i != u.index { assert Uid(i, Generation(d, i)) in m; }
    }
  }

  lemma FitsFewer(m: multiset<Uid>, u: Uid, d: Ids, t: Ids)
    requires Fits(m, d) && Covers(m, d) && u in m
    requires d.nextIndex == t.nextIndex && !Free(t, u.index)
    requires forall i: nat :: i != u.index ==> Generation(t, i) == Generation(d, i) && Free(t, i) == Free(d, i)
    ensures Fits(m - multiset{u}, t) && Covers(m - multiset{u}, t) && u !in m - multiset{u}
  {
    forall v | v in m - multiset{u}
      ensures (m - multiset{u})[v] == 1 && FitsOne(v, t)
    {
      assert v in m && v != u;
      assert FitsOne(v, d) && FitsOne(u, d);
    }
    forall i | 0 < i < t.nextIndex && Free(t, i)
      ensures Uid(i, Generation(t, i)) in m - multiset{u}
    {
      assert Uid(i, Generation(d, i)) in m;
    }
  }

  lemma PopKeepsLoose(d: Ids, o: ObjectId, e: nat)
    requires Shape(d) && LoosePlaced(d)
    ensures var t := PopFor(d, o, e); Shape(t) && LoosePlaced(t)
  {
    PopLoose(d, o, e);
    var t := PopFor(d, o, e);
    if d.stack == [] { FitsNext(Loose(d), d, t); } else { FitsSame(Loose(d), d, t); }
  }

  lemma FitsNext(m: multiset<Uid>, d: Ids, t: Ids)
    requires Shape(d) && Fits(m, d) && Covers(m, d) && t.objects == d.objects && t.nextIndex == d.nextIndex + 1
    ensures var n := m + multiset{Uid(d.nextIndex, 0)}; Fits(n, t) && Covers(n, t)
  {
    forall v | v in m ensures v.index != d.nextIndex { assert FitsOne(v, d); }
    FitsMore(m, Uid(d.nextIndex, 0), d, t);
  }

  lemma FitsSame(m: multiset<Uid>, d: Ids, t: Ids)
    requires Fits(m, d) && Covers(m, d)
    requires d.nextIndex == t.nextIndex && d.objects == t.objects
    ensures Fits(m, t) && Covers(m, t)
  {
    assert forall i: nat :: Generation(t, i) == Generation(d, i) && Free(t, i) == Free(d, i);
    assert forall u :: u in m ==> FitsOne(u, d) == FitsOne(u, t);
  }

  lemma PopKeeps(d: Ids, o: ObjectId, e: nat)
    requires InvIds(d) && o !in d.runId
    ensures InvIds(PopFor(d, o, e))
  {
    PopKeepsLoose(d, o, e);
    PopKeepsObjects(d, o, e);
    PopKeepsOwners(d, o, e);
    PopKeepsTasks(d, o, e);
    forall p | p in d.runId ensures d.runId[p] != NextUid(d) { NextUidIsNew(d, p); }
    PopKeepsDistinct(d, o, e);
  }

  lemma PopKeepsOwners(d: Ids, o: ObjectId, e: nat)
    requires OwnersMatch(d) && o !in d.runId
    ensures OwnersMatch(PopFor(d, o, e))
  {
  }

  lemma PopKeepsTasks(d: Ids, o: ObjectId, e: nat)
    requires TasksMatch(d) && o !in d.runId
    ensures TasksMatch(PopFor(d, o, e))
  {
  }

  lemma PopKeepsDistinct(d: Ids, o: ObjectId, e: nat)
    requires RunIdsDistinct(d) && o !in d.runId && forall p :: p in d.runId ==> d.runId[p] != NextUid(d)
    ensures RunIdsDistinct(PopFor(d, o, e))
  {
  }

  lemma PopKeepsObjects(d: Ids, o: ObjectId, e: nat)
    requires Shape(d) && LoosePlaced(d) && ObjectsPlaced(d) && o !in d.runId
    ensures ObjectsPlaced(PopFor(d, o, e))
  {
    var t := PopFor(d, o, e);
    NextUidFits(d);
    forall p | p in t.runId ensures PlacedOne(t, p) {
      if p == o { PopPlaces(d, o, e); } else { PopLeaves(d, o, e, p); }
    }
  }

  lemma PopUids(d: Ids, o: ObjectId, e: nat)
    ensures UidsOf(PopFor(d, o, e).pushFill) == UidsOf(d.pushFill) + [NextUid(d)]
  {
    UidsOfAppend(d.pushFill, NewTask(NextUid(d), o, e));
  }

  lemma PopPlaces(d: Ids, o: ObjectId, e: nat)
    requires o !in d.runId && o !in d.stopped
    requires NextUid(d).unique == Generation(d, NextUid(d).index) && 0 < NextUid(d).index <= d.nextIndex
    requires NextUid(d).index == d.nextIndex ==> d.stack == []
    ensures PlacedOne(PopFor(d, o, e), o)
  {
    PopUids(d, o, e);
  }

  lemma PopLeaves(d: Ids, o: ObjectId, e: nat, p: ObjectId)
    requires p in d.runId && p != o && PlacedOne(d, p)
    ensures PlacedOne(PopFor(d, o, e), p)
  {
    PopUids(d, o, e);
  }

  lemma NextUidFits(d: Ids)
    requires Shape(d) && LoosePlaced(d)
    ensures NextUid(d).unique == Generation(d, NextUid(d).index) && 0 < NextUid(d).index <= d.nextIndex
    ensures NextUid(d).index == d.nextIndex ==> d.stack == []
  {
    if d.stack != [] {
      NextUidLoose(d);
      assert FitsOne(NextUid(d), d);
    }
  }

  lemma RecycleLoose(d: Ids)
    ensures Loose(Recycle(d)) == Loose(d)
  {
  }

  lemma RecycleKeeps(d: Ids)
    requires InvIds(d)
    ensures InvIds(Recycle(d))
  {
    var t := Recycle(d);
    RecycleLoose(d);
    FitsSame(Loose(d), d, t);
    RecycleKeepsObjects(d);
  }

  lemma RecycleKeepsObjects(d: Ids)
    requires ObjectsPlaced(d)
    ensures ObjectsPlaced(Recycle(d))
  {
    var t := Recycle(d);
    forall p | p in t.runId ensures PlacedOne(t, p) { assert PlacedOne(d, p); }
  }

  /** The assertion of doCompleteEvents: a new task carries the generation its slot holds. */
  lemma NewTaskGenerationMatches(d: Ids)
    requires LoosePlaced(d) && d.pushTake != []
    ensures d.pushTake[0].uid in Loose(d)
    ensures Generation(d, d.pushTake[0].uid.index) == d.pushTake[0].uid.unique
    ensures Free(d, d.pushTake[0].uid.index)
    ensures 0 < d.pushTake[0].uid.index < d.nextIndex
  {
    var u := d.pushTake[0].uid;
    assert u in multiset(UidsOf(d.pushTake));
    assert u in Loose(d);
    assert FitsOne(u, d);
  }

  lemma InstallLoose(d: Ids)
    requires d.pushTake != []
    ensures Loose(d) == Loose(InstallFirst(d)) + multiset{d.pushTake[0].uid}
  {
    var t := InstallFirst(d);
    assert UidsOf(d.pushTake) == [d.pushTake[0].uid] + UidsOf(t.pushTake);
  }

  lemma InstallKeepsLoose(d: Ids)
    requires d.pushTake != [] && Shape(d) && LoosePlaced(d)
    ensures var t := InstallFirst(d); Shape(t) && LoosePlaced(t)
  {
    var t := InstallFirst(d);
    var u := d.pushTake[0].uid;
    NewTaskGenerationMatches(d);
    InstallLoose(d);
    var m := Loose(d);
    assert Loose(t) == m - multiset{u};
    InstallSlots(d);
    FitsFewer(m, u, d, t);
  }

  lemma InstallSlots(d: Ids)
    requires d.pushTake != []
    ensures var t := InstallFirst(d); var u := d.pushTake[0].uid;
            && !Free(t, u.index)
            && (forall i: nat :: Generation(t, i) == Generation(d, i))
            && (forall i: nat :: i != u.index ==> Free(t, i) == Free(d, i))
  {
  }

  lemma InstallKeeps(d: Ids)
    requires d.pushTake != [] && InvIds(d)
    ensures InvIds(InstallFirst(d))
  {
    var t := InstallFirst(d);
    var task := d.pushTake[0];
    NewTaskGenerationMatches(d);
    InstallKeepsLoose(d);
    assert task in d.pushTake;
    InstallKeepsObjects(d);
  }

  lemma InstallKeepsObjects(d: Ids)
    requires d.pushTake != [] && OwnersMatch(d) && TasksMatch(d) && ObjectsPlaced(d) && RunIdsDistinct(d)
    requires Generation(d, d.pushTake[0].uid.index) == d.pushTake[0].uid.unique
    requires Free(d, d.pushTake[0].uid.index)
    ensures var t := InstallFirst(d); OwnersMatch(t) && ObjectsPlaced(t)
  {
    var t := InstallFirst(d);
    var task := d.pushTake[0];
    assert task in d.pushTake;
    InstallSlots(d);
    forall p | p in t.runId
      ensures PlacedOne(t, p)
    {
      assert PlacedOne(d, p);
      if d.runId[p] == task.uid { assert p == task.obj; }
    }
  }

  lemma StopLoose(d: Ids, index: nat)
    requires index < |d.objects|
    ensures Loose(StopSlot(d, index)) == Loose(d) + multiset{Uid(index, d.objects[index].unique + 1)}
  {
  }

  lemma StopKeepsLoose(d: Ids, index: nat)
    requires index < |d.objects| && d.objects[index].owner.Some?
    requires Shape(d) && LoosePlaced(d)
    ensures var t := StopSlot(d, index); Shape(t) && LoosePlaced(t)
  {
    var t := StopSlot(d, index);
    var u := Uid(index, d.objects[index].unique + 1);
    StopLoose(d, index);
    var m := Loose(d);
    forall v | v in m ensures v.index != index { assert FitsOne(v, d); }
    FitsMore(m, u, d, t);
  }

  lemma StopKeeps(d: Ids, index: nat)
    requires index < |d.objects| && d.objects[index].owner.Some? && InvIds(d)
    ensures InvIds(StopSlot(d, index))
  {
    StopKeepsLoose(d, index);
    forall p | p in d.runId && d.runId[p].index == index && p !in d.stopped
      ensures Installed(d, p)
    {
      assert PlacedOne(d, p);
      if Pending(d, d.runId[p]) { PendingIsFree(d, d.runId[p]); }
    }
    StopKeepsObjects(d, index);
  }

  lemma PendingIsFree(d: Ids, u: Uid)
    requires LoosePlaced(d) && Pending(d, u)
    ensures Free(d, u.index) && Generation(d, u.index) == u.unique && 0 < u.index < d.nextIndex
  {
    assert u in multiset(UidsOf(d.pushTake)) || u in multiset(UidsOf(d.pushFill));
    assert u in Loose(d);
    assert FitsOne(u, d);
  }

  lemma StopKeepsObjects(d: Ids, index: nat)
    requires index < |d.objects| && d.objects[index].owner.Some?
    requires OwnersMatch(d) && ObjectsPlaced(d)
    requires forall p :: p in d.runId && d.runId[p].index == index && p !in d.stopped ==> Installed(d, p)
    ensures var t := StopSlot(d, index); OwnersMatch(t) && ObjectsPlaced(t)
  {
    var t := StopSlot(d, index);
    forall p | p in t.runId ensures PlacedOne(t, p) { assert PlacedOne(d, p); }
  }
}
