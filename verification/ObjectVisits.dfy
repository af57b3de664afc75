/**
 What a visit by id reaches, told from the steps of the run: the object whose registration returned the id, until it
 is unregistered or its visits are disabled.
 */
module ObjectVisits {
  import opened Common
  import opened Chunks
  import opened ObjectIds
  import opened ObjectIdsRuns

  datatype Asked = Asked(svc: Svc, obj: Obj)

  /** The registration thread `t` is in the middle of; `before` at the start of the run */
  function AskedBy(run: seq<Step>, t: Tid, before: Option<Asked>): Option<Asked> {
    if run == [] then before else AskedBy(run[1..], t, NowAsks(run[0], t, before))
  }

  function NowAsks(a: Step, t: Tid, before: Option<Asked>): Option<Asked> {
    if a.Take? && a.t == t then Some(Asked(a.svc, a.obj)) else if a.Finish? && a.t == t then None else before
  }

  /** The id a successful registration returns */
  function Returned(s: State, t: Tid): Id
    requires CanFinish(s, t)
  {
    Id(s.taken[t].index, s.slots[s.taken[t].index].unique)
  }

  /** What id `id` reaches after one more step */
  function NowReaches(s: State, a: Step, id: Id, before: Option<Obj>): Option<Obj>
    requires Enabled(s, a)
  {
    match a
    case Finish(t, true) => if Returned(s, t) == id then Some(s.taken[t].obj) else before
    case Clear(_, o) => if before == Some(o) then None else before
    case Disable(o) => if before == Some(o) then None else before
    case _ => before
  }

  /** What id `id` reaches after a run */
  function Reaches(s: State, run: seq<Step>, id: Id, before: Option<Obj>): Option<Obj>
    requires Legal(s, run)
    decreases |run|
  {
    if run == [] then before else Reaches(Apply(s, run[0]), run[1..], id, NowReaches(s, run[0], id, before))
  }

  /** The ids the run's registrations return */
  function IdsIn(s: State, run: seq<Step>): set<Id>
    requires Legal(s, run)
    decreases |run|
  {
    if run == [] then {} else IdsAt(s, run[0]) + IdsIn(Apply(s, run[0]), run[1..])
  }

  function IdsAt(s: State, a: Step): set<Id>
    requires Enabled(s, a)
  {
    if a.Finish? && a.scheduled then {Returned(s, a.t)} else {}
  }

  // ---- Who is registering what

  ghost predicate Asks(s: State, t: Tid, asked: Option<Asked>) {
    asked == if t in s.taken then Some(Asked(s.taken[t].svc, s.taken[t].obj)) else None
  }

  lemma StepAsks(s: State, a: Step, t: Tid, before: Option<Asked>)
    requires Enabled(s, a) && Asks(s, t, before)
    ensures Asks(Apply(s, a), t, NowAsks(a, t, before))
  {
    if a.Take? { TakeAsks(s, a.t, a.svc, a.obj); }
  }

  lemma TakeAsks(s: State, t: Tid, v: Svc, o: Obj)
    requires CanTake(s, t, v, o)
    ensures var n := DoTake(s, t, v, o); t in n.taken && n.taken == s.taken[t := Pending(v, n.taken[t].index, o)]
  {
  }

  lemma {:induction false} RunAsks(s: State, run: seq<Step>, t: Tid, before: Option<Asked>)
    requires Legal(s, run) && Asks(s, t, before)
    ensures Asks(After(s, run), t, AskedBy(run, t, before))
    decreases |run|
  {
    if run != [] {
      StepAsks(s, run[0], t, before);
      RunAsks(Apply(s, run[0]), run[1..], t, NowAsks(run[0], t, before));
    }
  }

  // ---- What an id reaches

  lemma FinishReaches(s: State, t: Tid, ok: bool, id: Id)
    requires CanFinish(s, t) && SlotOne(s.taken[t].index, s) && s.place[s.taken[t].index].Taken?
    ensures Visit(DoFinish(s, t, ok), id) == NowReaches(s, Finish(t, ok), id, Visit(s, id))
  {
  }

  lemma ClearReaches(s: State, t: Tid, o: Obj, id: Id)
    requires CanClear(s, t, o) && |s.place| == |s.slots| && InvSlots(s)
    ensures Visit(DoClear(s, t, o), id) == NowReaches(s, Clear(t, o), id, Visit(s, id))
  {
    assert SlotOne(s.ids[o], s);
    if id.index < |s.slots| { assert SlotOne(id.index, s); }
  }

  lemma DisableReaches(s: State, o: Obj, id: Id)
    requires Enabled(s, Disable(o)) && |s.place| == |s.slots| && InvSlots(s)
    ensures Visit(Apply(s, Disable(o)), id) == NowReaches(s, Disable(o), id, Visit(s, id))
  {
    assert SlotOne(s.ids[o], s);
    if id.index < |s.slots| { assert SlotOne(id.index, s); }
  }

  lemma TakeReaches(s: State, t: Tid, v: Svc, o: Obj, id: Id)
    requires CanTake(s, t, v, o)
    ensures Visit(DoTake(s, t, v, o), id) == Visit(s, id)
  {
  }

  lemma StepReaches(s: State, a: Step, id: Id)
    requires Inv(s) && Enabled(s, a)
    ensures Visit(Apply(s, a), id) == NowReaches(s, a, id, Visit(s, id))
  {
    match a
    case Take(t, v, o) => TakeReaches(s, t, v, o, id);
    case Finish(t, ok) =>
      assert TakenOne(t, s) && SlotOne(s.taken[t].index, s);
      FinishReaches(s, t, ok, id);
    case Clear(t, o) => ClearReaches(s, t, o, id);
    case GiveBack(t) =>
    case Disable(o) => DisableReaches(s, o, id);
  }

  lemma {:induction false} RunReaches(s: State, run: seq<Step>, id: Id)
    requires Inv(s) && Legal(s, run)
    ensures Visit(After(s, run), id) == Reaches(s, run, id, Visit(s, id))
    decreases |run|
  {
    if run != [] {
      StepKeepsInv(s, run[0]);
      StepReaches(s, run[0], id);
      RunReaches(Apply(s, run[0]), run[1..], id);
    }
  }

  /** In every run, a visit by any id reaches what the steps make of it: nothing until a registration returns the id,
      then that object until it is unregistered or disabled. */
  lemma VisitFollowsRun(s: State, run: seq<Step>, id: Id)
    requires Initial(s) && Legal(s, run)
    ensures Visit(After(s, run), id) == Reaches(s, run, id, None)
  {
    InitialInv(s);
    RunReaches(s, run, id);
  }

  // ---- From the registration on

  lemma {:induction false} LegalConcat(s: State, a: seq<Step>, b: seq<Step>)
    requires Legal(s, a + b)
    ensures Legal(s, a) && Legal(After(s, a), b) && After(s, a + b) == After(After(s, a), b)
    decreases |a|
  {
    if a == [] {
      assert a + b == b;
    } else {
      assert (a + b)[1..] == a[1..] + b;
      LegalConcat(Apply(s, a[0]), a[1..], b);
    }
  }

  /** The step makes visits to the object end. */
  predicate EndsVisits(a: Step, o: Obj) {
    a == Disable(o) || (a.Clear? && a.obj == o)
  }

  predicate Ended(run: seq<Step>, o: Obj) {
    exists k :: 0 <= k < |run| && EndsVisits(run[k], o)
  }

  lemma EndedHead(run: seq<Step>, o: Obj)
    requires run != []
    ensures Ended(run, o) <==> EndsVisits(run[0], o) || Ended(run[1..], o)
  {
    if Ended(run[1..], o) {
      var k :| 0 <= k < |run[1..]| && EndsVisits(run[1..][k], o);
      assert EndsVisits(run[k + 1], o);
    }
    if Ended(run, o) && !EndsVisits(run[0], o) {
      var k :| 0 <= k < |run| && EndsVisits(run[k], o);
      assert EndsVisits(run[1..][k - 1], o);
    }
  }

  lemma IssuedStays(s: State, a: Step, id: Id)
    requires Inv(s) && Enabled(s, a) && id in s.issued
    ensures id in Apply(s, a).issued
    ensures a.Finish? && a.scheduled ==> Returned(s, a.t) != id
  {
    if a.Finish? {
      TakenAt(s, a.t);
      FreshId(s, a.t);
    }
  }

  lemma StepIssues(s: State, a: Step)
    requires Enabled(s, a)
    ensures Apply(s, a).issued.Keys == s.issued.Keys + IdsAt(s, a)
  {
  }

  lemma {:induction false} RunIssues(s: State, run: seq<Step>)
    requires Legal(s, run)
    ensures After(s, run).issued.Keys == s.issued.Keys + IdsIn(s, run)
    decreases |run|
  {
    if run != [] {
      StepIssues(s, run[0]);
      RunIssues(Apply(s, run[0]), run[1..]);
    }
  }

  lemma NowReachesOld(s: State, a: Step, id: Id, o: Obj, now: Option<Obj>)
    requires Enabled(s, a) && (now == Some(o) || now.None?)
    requires a.Finish? && a.scheduled ==> Returned(s, a.t) != id
    ensures NowReaches(s, a, id, now) == if EndsVisits(a, o) then None else now
  {
  }

  /** An id that was handed out reaches its object until the first step that ends its visits. */
  lemma {:induction false} ReachesUntilEnded(s: State, run: seq<Step>, id: Id, o: Obj, now: Option<Obj>)
    requires Inv(s) && Legal(s, run) && id in s.issued && (now == Some(o) || now.None?)
    ensures Reaches(s, run, id, now) == if Ended(run, o) then None else now
    decreases |run|
  {
    if run != [] {
      StepKeepsInv(s, run[0]);
      IssuedStays(s, run[0], id);
      NowReachesOld(s, run[0], id, o, now);
      ReachesUntilEnded(Apply(s, run[0]), run[1..], id, o, NowReaches(s, run[0], id, now));
      EndedHead(run, o);
    }
  }

  function Registering(pre: seq<Step>, t: Tid, post: seq<Step>): seq<Step> {
    pre + ([Finish(t, true)] + post)
  }

  /** In every run with a successful registration, the id it returns is new, and a visit by that id at the end of the
      run reaches the object that was asked to be registered, exactly when no step after the registration unregisters
      the object or disables its visits; otherwise it reaches nothing. */
  lemma VisitReachesItsObject(s: State, pre: seq<Step>, t: Tid, post: seq<Step>)
    requires Initial(s) && Legal(s, Registering(pre, t, post))
    ensures Legal(s, pre) && CanFinish(After(s, pre), t) && AskedBy(pre, t, None).Some?
    ensures var id := Returned(After(s, pre), t); var o := AskedBy(pre, t, None).value.obj;
            && id !in IdsIn(s, pre)
            && Visit(After(s, Registering(pre, t, post)), id) == if Ended(post, o) then None else Some(o)
  {
    InitialInv(s);
    LegalConcat(s, pre, [Finish(t, true)] + post);
    RunKeepsInv(s, pre);
    RunAsks(s, pre, t, None);
    RunIssues(s, pre);
    assert ([Finish(t, true)] + post)[1..] == post;
    RegisteredReaches(After(s, pre), t, post);
  }

  lemma RegisteredReaches(s: State, t: Tid, post: seq<Step>)
    requires Inv(s) && CanFinish(s, t) && Legal(DoFinish(s, t, true), post)
    ensures Returned(s, t) !in s.issued
    ensures Visit(After(DoFinish(s, t, true), post), Returned(s, t)) ==
            if Ended(post, s.taken[t].obj) then None else Some(s.taken[t].obj)
  {
    var n := DoFinish(s, t, true);
    TakenAt(s, t);
    FreshId(s, t);
    StepKeepsInv(s, Finish(t, true));
    StepReaches(s, Finish(t, true), Returned(s, t));
    RunReaches(n, post, Returned(s, t));
    ReachesUntilEnded(n, post, Returned(s, t), s.taken[t].obj, Some(s.taken[t].obj));
  }

  // ---- Which slot a registration gets

  /** A registration by thread `t` has a slot that holds no object, that no other thread has, and whose chunk the
      service owns. */
  ghost predicate HasItsSlot(s: State, t: Tid, v: Svc) {
    && t in s.taken && s.taken[t].index < |s.slots| && s.slots[s.taken[t].index].obj.None? && 0 < s.chunkSize
    && ChunkOf(s.taken[t].index, s.chunkSize) < |s.owner| && s.owner[ChunkOf(s.taken[t].index, s.chunkSize)] == v
    && (forall u :: u in s.taken && u != t ==> s.taken[u].index != s.taken[t].index)
    && (forall u :: u in s.clearing ==> s.clearing[u].index != s.taken[t].index)
  }

  /** In every run, a registration gets a free slot of its service, and the table grows, by one chunk of that service,
      exactly when the service has none. */
  lemma TakeGetsFreeSlot(s: State, run: seq<Step>, t: Tid, v: Svc, o: Obj)
    requires Initial(s) && Legal(s, run) && CanTake(After(s, run), t, v, o)
    ensures var n := After(s, run); var m := DoTake(n, t, v, o);
            && HasItsSlot(m, t, v)
            && (if HasFree(n, v) then m.slots == n.slots && m.owner == n.owner
                else |m.slots| == |n.slots| + n.chunkSize && m.owner == n.owner + [v])
  {
    InitialInv(s);
    RunKeepsInv(s, run);
    TakeGrows(After(s, run), t, v, o);
    TakeHasSlot(After(s, run), t, v, o);
  }

  lemma TakeHasSlot(s: State, t: Tid, v: Svc, o: Obj)
    requires Inv(s) && CanTake(s, t, v, o)
    ensures HasItsSlot(DoTake(s, t, v, o), t, v)
  {
    StepKeepsInv(s, Take(t, v, o));
    TakeAsks(s, t, v, o);
    TakenFacts(DoTake(s, t, v, o), t);
  }

  /** Some slot of the service is free: it was given back, or was never used. */
  predicate HasFree(s: State, v: Svc) {
    exists i :: 0 <= i < |s.place| && (s.place[i] == Cached(v) || s.place[i] == Fresh(v))
  }

  lemma TakeGrows(s: State, t: Tid, v: Svc, o: Obj)
    requires InvServices(s) && CanTake(s, t, v, o)
    ensures var m := DoTake(s, t, v, o);
            if HasFree(s, v) then m.slots == s.slots && m.owner == s.owner
            else |m.slots| == |s.slots| + s.chunkSize && m.owner == s.owner + [v]
  {
    var r := s.services[v];
    assert ServiceOne(v, r, s.place);
    if r.cache != [] {
      assert r.cache[0] in r.cache;
      assert s.place[r.cache[0]] == Cached(v);
    } else if r.crt < r.end {
      assert s.place[r.crt] == Fresh(v);
    }
  }

  lemma TakenFacts(s: State, t: Tid)
    requires Inv(s) && t in s.taken
    ensures HasItsSlot(s, t, s.taken[t].svc)
  {
    var i := s.taken[t].index;
    assert TakenOne(t, s);
    assert SlotOne(i, s) && OwnerOne(i, ChunkOf(i, s.chunkSize), s);
    forall u | u in s.taken && u != t ensures s.taken[u].index != i { assert TakenOne(u, s); }
  }
}
