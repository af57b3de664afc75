/**
 Every run of the shared store: calls and erase processing on the items of a store, interleaved in any
 order, each critical section one step.
 */
module SharedRuns {
  import opened Common
  import opened SharedSpec

  /** A pointer somebody holds: what it was granted as, and the item's generation at that time */
  datatype Ptr = Ptr(kind: Kind, unique: nat)

  /** An item, pointers to it, everything that was ever queued and everything granted from the queue, and the
      generations its entries in the erase vectors name, counting those a caller is about to add */
  datatype Item = Item(stub: Stub, held: multiset<Ptr>, arrived: seq<Waiter>, granted: seq<Waiter>,
                       pending: multiset<nat>)

  const FRESH_ITEM: Item := Item(FRESH_STUB, multiset{}, [], [], multiset{})

  /** What happens to one item. `check` is the generation a caller names; without one the call is on an
      index the store chose itself. */
  datatype Act =
    | Get(check: Option<nat>, kind: Kind)
    | Request(check: Option<nat>, waiter: Waiter)
    | Drop(ptr: Ptr)
    | ToShared(ptr: Ptr)
    | Execute(unique: nat)
    | Recycle

  predicate Passes(check: Option<nat>, s: Stub) {
    check.None? || check.value == s.uid
  }

  function Granted(it: Item, k: Kind, s: Stub): Item {
    it.(stub := s, held := it.held + multiset{Ptr(k, it.stub.uid)})
  }

  function DoGet(it: Item, check: Option<nat>, k: Kind): Item {
    if !Passes(check, it.stub) then it
    else match TryGet(it.stub, k)
      case Some(s) => Granted(it, k, s)
      case None => it
  }

  function DoRequest(it: Item, check: Option<nat>, w: Waiter): Item {
    if !Passes(check, it.stub) then it
    else match TryGet(it.stub, w.kind)
      case Some(s) => Granted(it, w.kind, s)
      case None => it.(stub := PushWait(it.stub, w), arrived := it.arrived + [w])
  }

  /** erasePointer: the count goes down and the store is notified in any case. */
  function DoDrop(it: Item, p: Ptr): Item {
    var now := it.(held := it.held - multiset{p}, pending := it.pending + multiset{p.unique});
    if p.unique == it.stub.uid && (if p.kind.Alive? then it.stub.alivecnt > 0 else it.stub.usecnt > 0)
    then now.(stub := Decrement(it.stub, p.kind.Alive?)) else now
  }

  /** uniqueToShared: its argument is a shared pointer afterwards, and the store is notified if the first waiter
      waits for one. */
  function DoToShared(it: Item, p: Ptr): Item {
    if p.unique != it.stub.uid then it
    else match Switch(it.stub)
      case Some(s) =>
        it.(stub := s,
            held := if p.kind.Alive? then it.held else it.held - multiset{p} + multiset{Ptr(Shared, p.unique)},
            pending := if FirstShares(s) then it.pending + multiset{p.unique} else it.pending)
      case None => it
  }

  predicate FirstShares(s: Stub) {
    s.waiters != [] && s.waiters[0].kind.Shared?
  }

  function Pointers(ws: seq<Waiter>, unique: nat): multiset<Ptr> {
    if ws == [] then multiset{} else multiset{Ptr(ws[0].kind, unique)} + Pointers(ws[1..], unique)
  }

  /** One entry of the erase vector: waiters are served unless the item can be cleared. */
  function DoExecute(it: Item, unique: nat): Item {
    Served(it.(pending := it.pending - multiset{unique}), unique)
  }

  function Served(it: Item, unique: nat): Item {
    if unique != it.stub.uid || CanClear(it.stub) then it
    else
      var d := Drain(it.stub);
      it.(stub := d.stub, held := it.held + Pointers(d.granted, it.stub.uid), granted := it.granted + d.granted)
  }

  function Apply(it: Item, a: Act): Item {
    match a
    case Get(c, k) => DoGet(it, c, k)
    case Request(c, w) => DoRequest(it, c, w)
    case Drop(p) => DoDrop(it, p)
    case ToShared(p) => DoToShared(it, p)
    case Execute(u) => DoExecute(it, u)
    case Recycle => if CanClear(it.stub) then it.(stub := Clear(it.stub)) else it
  }

  /** Callers drop pointers they have, switch non-alive ones, and never queue for an alive pointer; the store works
      off the entries there are. */
  predicate Allowed(it: Item, a: Act) {
    match a
    case Request(_, w) => !w.kind.Alive?
    case Drop(p) => p in it.held
    case ToShared(p) => p in it.held && !p.kind.Alive?
    case Execute(u) => u in it.pending
    case _ => true
  }

  type Store = seq<Item>

  datatype Step = Step(index: nat, act: Act)

  function Next(st: Store, s: Step): Store
    requires s.index < |st|
  {
    st[s.index := Apply(st[s.index], s.act)]
  }

  function After(st: Store, run: seq<Step>): Store
    requires Legal(st, run)
    decreases |run|
  {
    if run == [] then st else After(Next(st, run[0]), run[1..])
  }

  predicate Legal(st: Store, run: seq<Step>)
    decreases |run|
  {
    run == [] ||
    (run[0].index < |st| && Allowed(st[run[0].index], run[0].act) && Legal(Next(st, run[0]), run[1..]))
  }

  predicate AllFresh(st: Store) {
    forall i :: 0 <= i < |st| ==> st[i] == FRESH_ITEM
  }

  // ---- The invariant

  function Count(held: multiset<Ptr>, k: Kind, unique: nat): nat {
    held[Ptr(k, unique)]
  }

  predicate CountsMatch(s: Stub, held: multiset<Ptr>) {
    && (forall p :: p in held ==> p.unique == s.uid)
    && s.alivecnt == Count(held, Alive, s.uid)
    && s.usecnt == Count(held, Shared, s.uid) + Count(held, Unique, s.uid) + Count(held, Reinit, s.uid)
    && |held| == s.alivecnt + s.usecnt
  }

  predicate Exclusive(s: Stub, held: multiset<Ptr>) {
    Count(held, Unique, s.uid) + Count(held, Reinit, s.uid) > 0 ==> s.state.UniqueLock? && s.usecnt == 1
  }

  predicate Waitable(ws: seq<Waiter>) {
    forall i :: 0 <= i < |ws| ==> !ws[i].kind.Alive?
  }

  predicate Inv(it: Item) {
    && CountsMatch(it.stub, it.held)
    && Exclusive(it.stub, it.held)
    && Waitable(it.stub.waiters)
    && it.granted + it.stub.waiters == it.arrived
  }

  lemma GetKeeps(s: Stub, held: multiset<Ptr>, k: Kind)
    requires CountsMatch(s, held) && Exclusive(s, held) && TryGet(s, k).Some?
    ensures var t := TryGet(s, k).value; var h := held + multiset{Ptr(k, s.uid)};
            CountsMatch(t, h) && Exclusive(t, h)
  {
  }

  lemma DropKeeps(s: Stub, held: multiset<Ptr>, p: Ptr)
    requires CountsMatch(s, held) && Exclusive(s, held) && p in held
    ensures if p.kind.Alive? then s.alivecnt > 0 else s.usecnt > 0
    ensures p.unique == s.uid
    ensures var t := Decrement(s, p.kind.Alive?); var h := held - multiset{p};
            CountsMatch(t, h) && Exclusive(t, h)
  {
    assert p == Ptr(p.kind, s.uid);
  }

  lemma SwitchKeeps(s: Stub, held: multiset<Ptr>, p: Ptr)
    requires CountsMatch(s, held) && Exclusive(s, held) && p in held && !p.kind.Alive? && Switch(s).Some?
    ensures var t := Switch(s).value; var h := held - multiset{p} + multiset{Ptr(Shared, p.unique)};
            CountsMatch(t, h) && Exclusive(t, h)
  {
    assert p == Ptr(p.kind, s.uid);
  }

  lemma DeliverKeeps(s: Stub, held: multiset<Ptr>)
    requires CountsMatch(s, held) && Exclusive(s, held) && Waitable(s.waiters)
    requires s.waiters != [] && Deliverable(s, s.waiters[0].kind)
    ensures var h := held + multiset{Ptr(s.waiters[0].kind, s.uid)};
            CountsMatch(Deliver(s), h) && Exclusive(Deliver(s), h)
  {
  }

  lemma {:induction false} DrainKeeps(s: Stub, held: multiset<Ptr>)
    requires CountsMatch(s, held) && Exclusive(s, held) && Waitable(s.waiters)
    ensures var d := Drain(s); var h := held + Pointers(d.granted, s.uid);
            CountsMatch(d.stub, h) && Exclusive(d.stub, h) && Waitable(d.stub.waiters)
    decreases |s.waiters|
  {
    if s.waiters != [] && Deliverable(s, s.waiters[0].kind) {
      var p := multiset{Ptr(s.waiters[0].kind, s.uid)};
      DeliverKeeps(s, held);
      DrainKeeps(Deliver(s), held + p);
      var g := Drain(Deliver(s)).granted;
      assert ([s.waiters[0]] + g)[1..] == g;
      assert held + Pointers(Drain(s).granted, s.uid) == held + p + Pointers(g, s.uid);
    } else {
      assert held + Pointers([], s.uid) == held;
    }
  }

  lemma GetStep(it: Item, check: Option<nat>, k: Kind)
    requires Inv(it)
    ensures Inv(DoGet(it, check, k))
  {
    if TryGet(it.stub, k).Some? { GetKeeps(it.stub, it.held, k); }
  }

  lemma RequestStep(it: Item, check: Option<nat>, w: Waiter)
    requires Inv(it) && !w.kind.Alive?
    ensures Inv(DoRequest(it, check, w))
  {
    if TryGet(it.stub, w.kind).Some? { GetKeeps(it.stub, it.held, w.kind); }
    Regroup(it.granted, it.stub.waiters, [w]);
  }

  lemma ServedKeeps(it: Item, unique: nat)
    requires Inv(it)
    ensures Inv(Served(it, unique))
  {
    DrainKeeps(it.stub, it.held);
    DrainTakesPrefix(it.stub);
    var d := Drain(it.stub);
    Regroup(it.granted, d.granted, d.stub.waiters);
  }

  lemma ExecuteStep(it: Item, unique: nat)
    requires Inv(it)
    ensures Inv(DoExecute(it, unique))
  {
    ServedKeeps(it.(pending := it.pending - multiset{unique}), unique);
  }

  lemma DropStep(it: Item, p: Ptr)
    requires Inv(it) && p in it.held
    ensures Inv(DoDrop(it, p))
  {
    DropKeeps(it.stub, it.held, p);
  }

  lemma SwitchStep(it: Item, p: Ptr)
    requires Inv(it) && p in it.held && !p.kind.Alive?
    ensures Inv(DoToShared(it, p))
  {
    if Switch(it.stub).Some? { SwitchKeeps(it.stub, it.held, p); }
  }

  lemma RecycleStep(it: Item)
    requires Inv(it) && CanClear(it.stub)
    ensures Inv(it.(stub := Clear(it.stub)))
  {
    assert |it.held| == 0;
    EmptyMatches(Clear(it.stub), it.held);
  }

  lemma StepKeeps(it: Item, a: Act)
    requires Inv(it) && Allowed(it, a)
    ensures Inv(Apply(it, a))
  {
    match a
    case Get(c, k) => GetStep(it, c, k);
    case Request(c, w) => RequestStep(it, c, w);
    case Drop(p) => DropStep(it, p);
    case ToShared(p) => SwitchStep(it, p);
    case Execute(u) => ExecuteStep(it, u);
    case Recycle => if CanClear(it.stub) { RecycleStep(it); }
  }

  lemma {:induction false} RunKeeps(st: Store, run: seq<Step>)
    requires Legal(st, run) && (forall i :: 0 <= i < |st| ==> Inv(st[i]))
    ensures |After(st, run)| == |st| && forall i :: 0 <= i < |st| ==> Inv(After(st, run)[i])
    decreases |run|
  {
    if run != [] {
      StepKeeps(st[run[0].index], run[0].act);
      RunKeeps(Next(st, run[0]), run[1..]);
    }
  }

  // ---- The theorems

  lemma FreshInv(it: Item)
    requires it == FRESH_ITEM
    ensures Inv(it)
  {
    EmptyMatches(it.stub, it.held);
    Unqueued(it);
  }

  lemma Unqueued(it: Item)
    requires it.granted == [] && it.arrived == [] && it.stub.waiters == []
    ensures it.granted + it.stub.waiters == it.arrived && Waitable(it.stub.waiters)
  {
  }

  lemma EmptyMatches(s: Stub, held: multiset<Ptr>)
    requires held == multiset{} && s.alivecnt == 0 && s.usecnt == 0
    ensures CountsMatch(s, held) && Exclusive(s, held)
  {
  }

  lemma Reachable(st: Store, run: seq<Step>, i: nat)
    requires AllFresh(st) && Legal(st, run) && i < |st|
    ensures |After(st, run)| == |st| && Inv(After(st, run)[i])
  {
    forall j | 0 <= j < |st| ensures Inv(st[j]) { FreshInv(st[j]); }
    RunKeeps(st, run);
  }

  lemma AloneIn(it: Item, p: Ptr)
    requires Inv(it) && p in it.held && (p.kind.Unique? || p.kind.Reinit?)
    ensures it.held[p] == 1 && forall q :: q in it.held && q != p ==> q.kind.Alive?
  {
    assert p == Ptr(p.kind, it.stub.uid);
    forall q | q in it.held && q != p ensures q.kind.Alive? { assert q == Ptr(q.kind, it.stub.uid); }
  }

  /** In every run the two counts of every item are those of pointers held to it, alive ones and in all, and
      every pointer held carries the item's current generation, so dropping it is never ignored. */
  lemma CountsAreHeldPointers(st: Store, run: seq<Step>, i: nat, it: Item)
    requires AllFresh(st) && Legal(st, run) && i < |st| && i < |After(st, run)| && it == After(st, run)[i]
    ensures it.stub.alivecnt == it.held[Ptr(Alive, it.stub.uid)]
    ensures |it.held| == it.stub.alivecnt + it.stub.usecnt
    ensures forall p :: p in it.held ==> p.unique == it.stub.uid
  {
    Reachable(st, run, i);
    CountsOf(it);
  }

  lemma CountsOf(it: Item)
    requires Inv(it)
    ensures it.stub.alivecnt == it.held[Ptr(Alive, it.stub.uid)]
    ensures |it.held| == it.stub.alivecnt + it.stub.usecnt
    ensures forall p :: p in it.held ==> p.unique == it.stub.uid
  {
  }

  /** In every run, whoever holds a unique or reinit pointer to an item holds the only use pointer to it. */
  lemma ExclusivePointerIsAlone(st: Store, run: seq<Step>, i: nat, it: Item, p: Ptr)
    requires AllFresh(st) && Legal(st, run) && i < |st| && i < |After(st, run)| && it == After(st, run)[i]
    requires p in it.held && (p.kind.Unique? || p.kind.Reinit?)
    ensures it.held[p] == 1 && forall q :: q in it.held && q != p ==> q.kind.Alive?
  {
    Reachable(st, run, i);
    AloneIn(it, p);
  }

  /** In every run the waiters of an item are granted in the order in which they were queued, none twice,
      none dropped: those granted followed by those still queued are those that arrived. */
  lemma WaitersServedInOrder(st: Store, run: seq<Step>, i: nat, it: Item)
    requires AllFresh(st) && Legal(st, run) && i < |st| && i < |After(st, run)| && it == After(st, run)[i]
    ensures it.granted + it.stub.waiters == it.arrived
  {
    Reachable(st, run, i);
  }

  lemma {:induction false} Split(st: Store, pre: seq<Step>, post: seq<Step>)
    requires Legal(st, pre + post)
    ensures Legal(st, pre) && Legal(After(st, pre), post) && After(st, pre + post) == After(After(st, pre), post)
    decreases |pre|
  {
    if pre == [] {
      assert pre + post == post;
    } else {
      assert (pre + post)[0] == pre[0] && (pre + post)[1..] == pre[1..] + post;
      Split(Next(st, pre[0]), pre[1..], post);
    }
  }

  lemma GrantGrows(it: Item, a: Act)
    ensures it.granted <= Apply(it, a).granted && it.arrived <= Apply(it, a).arrived
  {
  }

  /** What arrived and what was granted from the queue only grows. */
  lemma {:induction false} RunGrows(st: Store, run: seq<Step>, i: nat)
    requires Legal(st, run) && i < |st|
    ensures |After(st, run)| == |st|
    ensures st[i].granted <= After(st, run)[i].granted && st[i].arrived <= After(st, run)[i].arrived
    decreases |run|
  {
    if run != [] {
      GrantGrows(st[run[0].index], run[0].act);
      RunGrows(Next(st, run[0]), run[1..], i);
    }
  }

  /** Serving the queue adds the pointers of the waiters served, and those are the next that arrived. */
  lemma ExecuteGrants(it: Item, unique: nat)
    requires Inv(it)
    ensures var e := Apply(it, Execute(unique));
            it.granted <= e.granted <= e.arrived && e.arrived == it.arrived
            && e.held == it.held + Pointers(e.granted[|it.granted|..], it.stub.uid)
  {
    if unique != it.stub.uid || CanClear(it.stub) {
      assert it.granted[|it.granted|..] == [];
      assert it.held + Pointers([], it.stub.uid) == it.held;
    } else {
      DrainTakesPrefix(it.stub);
      NextGranted(it.granted, Drain(it.stub).granted, Drain(it.stub).stub.waiters, it.arrived);
    }
  }

  lemma NextGranted(before: seq<Waiter>, now: seq<Waiter>, left: seq<Waiter>, arrived: seq<Waiter>)
    requires before + (now + left) == arrived
    ensures before <= before + now <= arrived && (before + now)[|before|..] == now
  {
    Regroup(before, now, left);
  }

  /** The step `a` overtakes nobody on an item with waiters: a shared or reinit call gets nothing, and pointers granted
      from the queue go to the next that arrived. */
  predicate NobodyPassed(b: Item, a: Act) {
    var e := Apply(b, a);
    && b.stub.waiters != []
    && (a.Get? && (a.kind.Shared? || a.kind.Reinit?) ==> e.held == b.held)
    && (a.Request? && (a.waiter.kind.Shared? || a.waiter.kind.Reinit?) ==> e.held == b.held)
    && (a.Execute? ==>
          && b.granted <= e.granted <= b.arrived
          && e.held == b.held + Pointers(e.granted[|b.granted|..], b.stub.uid))
    && (!a.Execute? ==> e.granted == b.granted)
  }

  lemma WaiterNotPassed(b: Item, a: Act)
    requires Inv(b) && b.stub.waiters != []
    ensures NobodyPassed(b, a)
  {
    if a.Execute? { ExecuteGrants(b, a.unique); }
  }

  lemma StillQueued(b: Item, n: nat)
    requires Inv(b) && |b.granted| <= n < |b.arrived|
    ensures b.stub.waiters != []
  {
    assert |b.arrived| == |b.granted| + |b.stub.waiters|;
  }

  /** Take any run and any step of it, and a waiter of item `i`, the n-th that ever arrived, who was queued before the
      step and still is at the end of the run. Then nobody overtakes that waiter: shared and reinit calls get nothing,
      and pointers granted from the queue go to waiters that arrived before, in the order of arrival. */
  lemma SharedAndReinitNeverPass(st: Store, pre: seq<Step>, s: Step, post: seq<Step>, i: nat, n: nat)
    requires AllFresh(st) && Legal(st, pre + ([s] + post)) && i < |st| && s.index == i
    requires Legal(st, pre) && |After(st, pre)| == |After(st, pre + ([s] + post))| == |st|
    requires |After(st, pre + ([s] + post))[i].granted| <= n < |After(st, pre)[i].arrived|
    ensures NobodyPassed(After(st, pre)[i], s.act) && |Apply(After(st, pre)[i], s.act).granted| <= n
  {
    Split(st, pre, [s] + post);
    Reachable(st, pre, i);
    QueuedThroughout(After(st, pre), s, post, n);
    StillQueued(After(st, pre)[i], n);
    WaiterNotPassed(After(st, pre)[i], s.act);
  }

  lemma QueuedThroughout(st: Store, s: Step, post: seq<Step>, n: nat)
    requires Legal(st, [s] + post) && s.index < |st| == |After(st, [s] + post)|
    requires |After(st, [s] + post)[s.index].granted| <= n
    ensures |st[s.index].granted| <= |Apply(st[s.index], s.act).granted| <= n
  {
    assert ([s] + post)[1..] == post;
    GrantGrows(st[s.index], s.act);
    RunGrows(Next(st, s), post, s.index);
  }

  /** In every run a reinit pointer is granted, at once or from the queue, only when no pointer to the item is held. */
  lemma ReinitFindsNoPointer(st: Store, run: seq<Step>, i: nat, it: Item, a: Act)
    requires AllFresh(st) && Legal(st, run) && i < |st| && i < |After(st, run)| && it == After(st, run)[i]
    requires Allowed(it, a) && !a.Recycle?
    requires Apply(it, a).held[Ptr(Reinit, it.stub.uid)] > it.held[Ptr(Reinit, it.stub.uid)]
    ensures it.held == multiset{}
  {
    Reachable(st, run, i);
    CountsOf(it);
    ReinitAlone(it, a);
  }

  /** Only a grant to a reinit call and serving the queue add a reinit pointer. */
  lemma ReinitAlone(it: Item, a: Act)
    requires |it.held| == it.stub.alivecnt + it.stub.usecnt && Allowed(it, a) && !a.Recycle?
    requires Apply(it, a).held[Ptr(Reinit, it.stub.uid)] > it.held[Ptr(Reinit, it.stub.uid)]
    ensures it.held == multiset{}
  {
    match a
    case Get(c, k) => GetReinit(it, c, k);
    case Request(c, w) => RequestReinit(it, c, w);
    case Drop(p) =>
    case ToShared(p) =>
    case Execute(u) => if it.stub.usecnt + it.stub.alivecnt > 0 { NoReinitGranted(it.stub); }
  }

  lemma GetReinit(it: Item, check: Option<nat>, k: Kind)
    requires |it.held| == it.stub.alivecnt + it.stub.usecnt
    requires DoGet(it, check, k).held[Ptr(Reinit, it.stub.uid)] > it.held[Ptr(Reinit, it.stub.uid)]
    ensures it.held == multiset{}
  {
  }

  lemma RequestReinit(it: Item, check: Option<nat>, w: Waiter)
    requires |it.held| == it.stub.alivecnt + it.stub.usecnt
    requires DoRequest(it, check, w).held[Ptr(Reinit, it.stub.uid)] > it.held[Ptr(Reinit, it.stub.uid)]
    ensures it.held == multiset{}
  {
  }

  lemma {:induction false} NoReinitGranted(s: Stub)
    requires s.usecnt + s.alivecnt > 0
    ensures Pointers(Drain(s).granted, s.uid)[Ptr(Reinit, s.uid)] == 0
    decreases |s.waiters|
  {
    if s.waiters != [] && Deliverable(s, s.waiters[0].kind) {
      NoReinitGranted(Deliver(s));
      var g := Drain(Deliver(s)).granted;
      assert ([s.waiters[0]] + g)[1..] == g;
    }
  }

  // ---- Runs on a store of one item

  function Steps(acts: seq<Act>): seq<Step> {
    if acts == [] then [] else [Step(0, acts[0])] + Steps(acts[1..])
  }

  predicate AllowedAll(it: Item, acts: seq<Act>)
    decreases |acts|
  {
    acts == [] || (Allowed(it, acts[0]) && AllowedAll(Apply(it, acts[0]), acts[1..]))
  }

  function Acted(it: Item, acts: seq<Act>): Item
    decreases |acts|
  {
    if acts == [] then it else Acted(Apply(it, acts[0]), acts[1..])
  }

  lemma {:induction false} OneItem(it: Item, acts: seq<Act>)
    requires AllowedAll(it, acts)
    ensures Legal([it], Steps(acts)) && After([it], Steps(acts)) == [Acted(it, acts)]
    decreases |acts|
  {
    if acts != [] {
      OneItem(Apply(it, acts[0]), acts[1..]);
      assert Steps(acts)[1..] == Steps(acts[1..]);
      assert [it][0 := Apply(it, acts[0])] == [Apply(it, acts[0])];
    }
  }

  /** Each act takes one item to the next. */
  predicate Leads(items: seq<Item>, acts: seq<Act>) {
    |items| == |acts| + 1 && forall k :: 0 <= k < |acts| ==> LeadsAt(items[k], acts[k], items[k + 1])
  }

  predicate LeadsAt(it: Item, a: Act, n: Item) {
    Allowed(it, a) && Apply(it, a) == n
  }

  lemma {:induction false} Chain(items: seq<Item>, acts: seq<Act>)
    requires Leads(items, acts)
    ensures AllowedAll(items[0], acts) && Acted(items[0], acts) == items[|acts|]
    decreases |acts|
  {
    if acts != [] {
      assert LeadsAt(items[0], acts[0], items[1]);
      assert items[1..][0] == items[1];
      Chain(items[1..], acts[1..]);
    }
  }

  lemma {:induction false} RunOf(items: seq<Item>, acts: seq<Act>)
    requires Leads(items, acts)
    ensures Legal([items[0]], Steps(acts)) && After([items[0]], Steps(acts)) == [items[|acts|]]
  {
    Chain(items, acts);
    OneItem(items[0], acts);
  }

  // ---- Where the source's own expectations fail

  /** Switching through an alive pointer keeps the invariant exactly when no unique or reinit pointer is held. */
  lemma SwitchThroughAlive(it: Item, p: Ptr)
    requires Inv(it) && p in it.held && p.kind.Alive?
    ensures it.stub.state.UniqueLock? ==>
            (Inv(Apply(it, ToShared(p))) <==> (forall q :: q in it.held ==> q.kind.Alive? || q.kind.Shared?))
  {
    NoneExclusive(it.stub, it.held);
    if it.stub.state.UniqueLock? {
      var n := Apply(it, ToShared(p));
      assert n.held == it.held && n.stub == it.stub.(state := SharedLock);
      assert CountsMatch(n.stub, n.held);
    }
  }

  lemma NoneExclusive(s: Stub, held: multiset<Ptr>)
    requires CountsMatch(s, held)
    ensures Count(held, Unique, s.uid) + Count(held, Reinit, s.uid) == 0
            <==> forall q :: q in held ==> q.kind.Alive? || q.kind.Shared?
  {
    if Count(held, Unique, s.uid) + Count(held, Reinit, s.uid) > 0 {
      assert Ptr(Unique, s.uid) in held || Ptr(Reinit, s.uid) in held;
    } else {
      forall q | q in held ensures q.kind.Alive? || q.kind.Shared? { assert q == Ptr(q.kind, s.uid); }
    }
  }

  /** What is lost otherwise: with no waiter the next shared call is granted beside the unique or reinit pointer. */
  lemma AliveSwitchAdmitsSharer(it: Item, p: Ptr, q: Ptr, check: Option<nat>)
    requires Inv(it) && p in it.held && p.kind.Alive? && q in it.held && (q.kind.Unique? || q.kind.Reinit?)
    requires it.stub.waiters == [] && Passes(check, it.stub)
    ensures Apply(Apply(it, ToShared(p)), Get(check, Shared)).held == it.held + multiset{Ptr(Shared, it.stub.uid)}
  {
    assert p == Ptr(Alive, it.stub.uid) && q == Ptr(q.kind, it.stub.uid);
  }

  const UNIQUE_AND_ALIVE: Item :=
    Item(Stub(0, 1, 1, UniqueLock, []), multiset{Ptr(Unique, 0), Ptr(Alive, 0)}, [], [], multiset{})

  /** ... which a run reaches: one caller has the item uniquely, another keeps it alive and switches. */
  lemma AliveSwitchBreaksExclusion()
    ensures AllFresh([FRESH_ITEM]) && Legal([FRESH_ITEM], Steps([Get(None, Unique), Get(Some(0), Alive)]))
    ensures After([FRESH_ITEM], Steps([Get(None, Unique), Get(Some(0), Alive)])) == [UNIQUE_AND_ALIVE]
    ensures Apply(Apply(UNIQUE_AND_ALIVE, ToShared(Ptr(Alive, 0))), Get(Some(0), Shared)).held
            == multiset{Ptr(Unique, 0), Ptr(Alive, 0), Ptr(Shared, 0)}
  {
    FirstUnique();
    UniqueKeptAlive();
    RunOf([FRESH_ITEM, ONE_UNIQUE, UNIQUE_AND_ALIVE], [Get(None, Unique), Get(Some(0), Alive)]);
    SwitchesBeside();
  }

  lemma UniqueKeptAlive()
    ensures LeadsAt(ONE_UNIQUE, Get(Some(0), Alive), UNIQUE_AND_ALIVE)
  {
  }

  lemma SwitchesBeside()
    ensures Apply(Apply(UNIQUE_AND_ALIVE, ToShared(Ptr(Alive, 0))), Get(Some(0), Shared)).held
            == multiset{Ptr(Unique, 0), Ptr(Alive, 0), Ptr(Shared, 0)}
  {
    var now := UNIQUE_AND_ALIVE.(stub := Stub(0, 1, 1, SharedLock, []));
    assert Apply(UNIQUE_AND_ALIVE, ToShared(Ptr(Alive, 0))) == now;
    assert Apply(now, Get(Some(0), Shared)).held == now.held + multiset{Ptr(Shared, 0)};
  }

  /** A unique request is granted past queued waiters exactly when no use pointer is held; the assertion
      that nobody waits then fails exactly when somebody does. */
  lemma UniquePassesWaiters(it: Item, check: Option<nat>)
    requires Passes(check, it.stub) && it.stub.waiters != []
    ensures Apply(it, Get(check, Unique)).held != it.held <==> it.stub.usecnt == 0
    ensures Apply(it, Get(check, Unique)).stub.waiters == it.stub.waiters
  {
    assert it.held + multiset{Ptr(Unique, it.stub.uid)} != it.held by {
      assert (it.held + multiset{Ptr(Unique, it.stub.uid)})[Ptr(Unique, it.stub.uid)]
          == it.held[Ptr(Unique, it.stub.uid)] + 1;
    }
  }

  /** ... which a run reaches: a shared request waits for an item with only an alive pointer. */
  lemma UniquePassesWaitersRun()
    ensures var acts := [Get(None, Alive), Request(Some(0), Waiter(Shared, 7))];
            && AllFresh([FRESH_ITEM]) && Legal([FRESH_ITEM], Steps(acts))
            && After([FRESH_ITEM], Steps(acts)) == [ALIVE_AND_WAITING]
    ensures ALIVE_AND_WAITING.stub.waiters == [Waiter(Shared, 7)] && ALIVE_AND_WAITING.stub.usecnt == 0
  {
    var a0, a1 := Get(None, Alive), Request(Some(0), Waiter(Shared, 7));
    var one := Item(Stub(0, 1, 0, UniqueLock, []), multiset{Ptr(Alive, 0)}, [], [], multiset{});
    assert Apply(FRESH_ITEM, a0) == one;
    assert Apply(one, a1) == ALIVE_AND_WAITING;
    RunOf([FRESH_ITEM, one, ALIVE_AND_WAITING], [a0, a1]);
  }

  /** An alive pointer is held and a shared request waits. */
  const ALIVE_AND_WAITING: Item :=
    Item(Stub(0, 1, 0, UniqueLock, [Waiter(Shared, 7)]), multiset{Ptr(Alive, 0)}, [Waiter(Shared, 7)], [], multiset{})

  // ---- The assertion of doSwitchUniqueToShared: one use pointer

  /** The only use pointer: no second copy of it, and all others are alive pointers. */
  predicate Sole(held: multiset<Ptr>, p: Ptr) {
    !p.kind.Alive? && held[p] == 1 && forall q :: q in held && q != p ==> q.kind.Alive?
  }

  lemma OneUserIsSole(it: Item, p: Ptr)
    requires Inv(it) && p in it.held && !p.kind.Alive?
    ensures it.stub.usecnt == 1 <==> Sole(it.held, p)
  {
    var u := it.stub.uid;
    assert p == Ptr(p.kind, u);
    if it.stub.usecnt == 1 {
      forall q | q in it.held && q != p ensures q.kind.Alive? { assert q == Ptr(q.kind, u); }
    }
  }

  lemma SomeUser(it: Item) returns (p: Ptr)
    requires Inv(it) && it.stub.usecnt > 0
    ensures p in it.held && !p.kind.Alive?
  {
    var u := it.stub.uid;
    p := if Count(it.held, Shared, u) > 0 then Ptr(Shared, u)
         else if Count(it.held, Unique, u) > 0 then Ptr(Unique, u) else Ptr(Reinit, u);
  }

  /** When the asserted count holds, for an item of a run and a pointer held to it: switched through a use pointer,
      exactly when that is the only one; always, and with success, for a unique or reinit pointer; switched through
      an alive pointer, exactly when there is just one use pointer. */
  lemma SwitchAssertion(st: Store, run: seq<Step>, i: nat, it: Item, p: Ptr)
    requires AllFresh(st) && Legal(st, run) && i < |st| && i < |After(st, run)| && it == After(st, run)[i]
    requires p in it.held
    ensures !p.kind.Alive? ==> (it.stub.usecnt == 1 <==> Sole(it.held, p))
    ensures p.kind.Unique? || p.kind.Reinit? ==> it.stub.usecnt == 1 && Switch(it.stub).Some?
    ensures p.kind.Alive? ==> (it.stub.usecnt == 1 <==> exists q :: q in it.held && Sole(it.held, q))
  {
    Reachable(st, run, i);
    if p.kind.Alive? {
      if it.stub.usecnt == 1 {
        var q := SomeUser(it);
        OneUserIsSole(it, q);
      }
      forall q | q in it.held && Sole(it.held, q) ensures it.stub.usecnt == 1 { OneUserIsSole(it, q); }
    } else {
      OneUserIsSole(it, p);
      assert p == Ptr(p.kind, it.stub.uid);
    }
  }

  /** Two callers share an item, then an alive pointer is taken. */
  const SHARING: seq<Act> :=
    [Get(None, Unique), ToShared(Ptr(Unique, 0)), Get(Some(0), Shared), Get(Some(0), Alive)]

  const SHARED_AND_ALIVE: Item :=
    Item(Stub(0, 1, 2, UniqueLock, []), multiset{Ptr(Shared, 0), Ptr(Shared, 0), Ptr(Alive, 0)}, [], [], multiset{})

  const ONE_UNIQUE: Item := Item(Stub(0, 0, 1, UniqueLock, []), multiset{Ptr(Unique, 0)}, [], [], multiset{})

  const ONE_SHARED: Item := Item(Stub(0, 0, 1, SharedLock, []), multiset{Ptr(Shared, 0)}, [], [], multiset{})

  const TWO_SHARED: Item :=
    Item(Stub(0, 0, 2, SharedLock, []), multiset{Ptr(Shared, 0), Ptr(Shared, 0)}, [], [], multiset{})

  lemma FirstUnique()
    ensures LeadsAt(FRESH_ITEM, Get(None, Unique), ONE_UNIQUE)
  {
    assert multiset{} + multiset{Ptr(Unique, 0)} == multiset{Ptr(Unique, 0)};
  }

  lemma UniqueShares()
    ensures LeadsAt(ONE_UNIQUE, ToShared(Ptr(Unique, 0)), ONE_SHARED)
  {
    var u, p := multiset{Ptr(Unique, 0)}, multiset{Ptr(Shared, 0)};
    assert u - u + p == p;
  }

  lemma SecondShares()
    ensures LeadsAt(ONE_SHARED, Get(Some(0), Shared), TWO_SHARED)
  {
  }

  lemma SharersKeptAlive()
    ensures LeadsAt(TWO_SHARED, Get(Some(0), Alive), SHARED_AND_ALIVE)
  {
  }

  lemma SharingLeads() returns (items: seq<Item>)
    ensures Leads(items, SHARING) && items[0] == FRESH_ITEM && items[4] == SHARED_AND_ALIVE
  {
    FirstUnique();
    UniqueShares();
    SecondShares();
    SharersKeptAlive();
    items := [FRESH_ITEM, ONE_UNIQUE, ONE_SHARED, TWO_SHARED, SHARED_AND_ALIVE];
  }

  /** The asserted count fails in a run: then one of the sharers switches. */
  lemma SwitchFindsTwoUsers()
    ensures AllFresh([FRESH_ITEM]) && Legal([FRESH_ITEM], Steps(SHARING))
    ensures After([FRESH_ITEM], Steps(SHARING)) == [SHARED_AND_ALIVE]
    ensures Allowed(SHARED_AND_ALIVE, ToShared(Ptr(Shared, 0)))
    ensures Switch(SHARED_AND_ALIVE.stub).Some? && SHARED_AND_ALIVE.stub.usecnt == 2
  {
    var items := SharingLeads();
    RunOf(items, SHARING);
  }
}
