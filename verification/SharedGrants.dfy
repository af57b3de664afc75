/**
 Who gets a pointer, when, told from the pointers held, the lock and the queue, and from the steps of the run.
 */
module SharedGrants {
  import opened Common
  import opened SharedSpec
  import opened SharedRuns

  // ---- What one drain serves

  /** How many waiters at the head of the queue wait for shared pointers */
  function Sharers(ws: seq<Waiter>): (n: nat)
    ensures n <= |ws|
  {
    if ws == [] || !ws[0].kind.Shared? then 0 else 1 + Sharers(ws[1..])
  }

  /** How many waiters can have the item together, given the pointers there are */
  function Together(ws: seq<Waiter>, users: nat, alive: nat, lock: Lock): (n: nat)
    ensures n <= |ws|
  {
    if ws == [] then 0
    else match ws[0].kind
      case Shared => if users == 0 || lock.SharedLock? then Sharers(ws) else 0
      case Unique => if users == 0 then 1 else 0
      case Reinit => if users == 0 && alive == 0 then 1 else 0
      case Alive => 0
  }

  lemma {:induction false} DrainsSharers(s: Stub)
    requires s.waiters != [] && s.waiters[0].kind.Shared? && (s.usecnt == 0 || s.state.SharedLock?)
    ensures Drain(s).granted == s.waiters[..Sharers(s.waiters)] && Drain(s).stub.state.SharedLock?
    decreases |s.waiters|
  {
    var n := Deliver(s);
    var k := Sharers(n.waiters);
    assert s.waiters[..1 + k] == [s.waiters[0]] + n.waiters[..k];
    if n.waiters != [] && n.waiters[0].kind.Shared? { DrainsSharers(n); }
  }

  /** A drain serves all the waiters at the head that can have the item together, and no other: the shared ones if
      nobody uses it or the lock is shared, else one unique one if nobody uses it, or one reinit one if nobody has a
      pointer of any kind. */
  lemma DrainServes(s: Stub)
    ensures var k := Together(s.waiters, s.usecnt, s.alivecnt, s.state);
            && Drain(s).granted == s.waiters[..k]
            && Drain(s).stub == Stub(s.uid, s.alivecnt, s.usecnt + k, LockFor(s, k), s.waiters[k..])
  {
    var k := Together(s.waiters, s.usecnt, s.alivecnt, s.state);
    DrainTakesPrefix(s);
    DrainsTogether(s, k);
    Cut(Drain(s).granted, Drain(s).stub.waiters, s.waiters, k);
  }

  lemma DrainsTogether(s: Stub, k: nat)
    requires k == Together(s.waiters, s.usecnt, s.alivecnt, s.state)
    ensures |Drain(s).granted| == k && Drain(s).stub.state == LockFor(s, k)
  {
    if s.waiters != [] && s.waiters[0].kind.Shared? && k > 0 {
      DrainsSharers(s);
    } else if k == 1 {
      DrainAfterExclusive(Deliver(s));
    }
  }

  /** The lock after serving the first `k` waiters */
  function LockFor(s: Stub, k: nat): Lock {
    if k == 0 || s.waiters == [] then s.state else if s.waiters[0].kind.Shared? then SharedLock else UniqueLock
  }

  lemma Cut(a: seq<Waiter>, b: seq<Waiter>, c: seq<Waiter>, k: nat)
    requires a + b == c && k <= |c| && |a| == k
    ensures a == c[..k] && b == c[k..]
  {
  }

  // ---- Who may have a pointer

  /** Nobody has a use pointer: all pointers held only keep the item alive. */
  predicate Unused(held: multiset<Ptr>) {
    forall p :: p in held ==> p.kind.Alive?
  }

  lemma UnusedIs(it: Item)
    requires CountsMatch(it.stub, it.held)
    ensures Unused(it.held) <==> it.stub.usecnt == 0
    ensures it.held == multiset{} <==> it.stub.usecnt == 0 && it.stub.alivecnt == 0
  {
    var u := it.stub.uid;
    if it.stub.usecnt == 0 {
      forall p | p in it.held ensures p.kind.Alive? { assert p == Ptr(p.kind, u); }
    } else {
      assert Ptr(Shared, u) in it.held || Ptr(Unique, u) in it.held || Ptr(Reinit, u) in it.held;
    }
    if |it.held| == 0 { assert it.held == multiset{}; }
  }

  /** A call that names an older generation, or a later one */
  predicate Stale(it: Item, check: Option<nat>) {
    check.Some? && check.value != it.stub.uid
  }

  /** What a caller of each kind gets at once */
  predicate AtOnce(it: Item, k: Kind) {
    match k
    case Alive => true
    case Shared => it.stub.state.SharedLock? && it.stub.waiters == []
    case Unique => Unused(it.held)
    case Reinit => it.held == multiset{} && it.stub.waiters == []
  }

  function LockOf(k: Kind): Lock {
    if k.Shared? then SharedLock else UniqueLock
  }

  /** The item after a grant at once: one more pointer, its lock, and nothing else but the count. */
  predicate GrantsOnly(it: Item, n: Item, k: Kind) {
    && n.held == it.held + multiset{Ptr(k, it.stub.uid)}
    && n.stub.uid == it.stub.uid && n.stub.waiters == it.stub.waiters && n.stub.state == LockOf(k)
    && n.arrived == it.arrived && n.granted == it.granted && n.pending == it.pending
  }

  lemma TryGetIs(it: Item, k: Kind)
    requires Inv(it)
    ensures TryGet(it.stub, k).Some? <==> AtOnce(it, k)
    ensures AtOnce(it, k) ==> GrantsOnly(it, Granted(it, k, TryGet(it.stub, k).value), k)
  {
    UnusedIs(it);
  }

  /** What a call that does not wait does: it gets its pointer, or changes nothing. */
  predicate GetsAsMeant(it: Item, check: Option<nat>, k: Kind) {
    var n := Apply(it, Get(check, k));
    if Stale(it, check) || !AtOnce(it, k) then n == it else GrantsOnly(it, n, k)
  }

  /** What a request does: it gets its pointer, or becomes the last of the queue. */
  predicate RequestsAsMeant(it: Item, check: Option<nat>, w: Waiter) {
    var n := Apply(it, Request(check, w));
    if Stale(it, check) then n == it
    else if AtOnce(it, w.kind) then GrantsOnly(it, n, w.kind)
    else n == it.(stub := it.stub.(waiters := it.stub.waiters + [w]), arrived := it.arrived + [w])
  }

  lemma GetIs(it: Item, check: Option<nat>, k: Kind)
    requires Inv(it)
    ensures GetsAsMeant(it, check, k)
  {
    TryGetIs(it, k);
  }

  lemma RequestIs(it: Item, check: Option<nat>, w: Waiter)
    requires Inv(it)
    ensures RequestsAsMeant(it, check, w)
  {
    TryGetIs(it, w.kind);
  }

  /** In every run a call gets its pointer at once exactly in these cases, and changes nothing else: always an alive
      one; a unique one if no use pointer is held; a shared one if the lock is shared and nobody waits; a reinit one if
      no pointer is held and nobody waits. A call that names another generation changes nothing. */
  lemma CallOutcome(st: Store, run: seq<Step>, i: nat, it: Item, check: Option<nat>, w: Waiter)
    requires AllFresh(st) && Legal(st, run) && i < |st| && i < |After(st, run)| && it == After(st, run)[i]
    ensures GetsAsMeant(it, check, w.kind) && RequestsAsMeant(it, check, w)
  {
    Reachable(st, run, i);
    GetIs(it, check, w.kind);
    RequestIs(it, check, w);
  }

  // ---- Serving the queue

  /** What a waiter of each kind needs to be served first */
  predicate Ready(it: Item, k: Kind) {
    match k
    case Alive => false
    case Shared => Unused(it.held) || it.stub.state.SharedLock?
    case Unique => Unused(it.held)
    case Reinit => it.held == multiset{}
  }

  /** The waiters that working off an entry serves */
  function ServedBy(it: Item): seq<Waiter> {
    if it.stub.waiters == [] || !Ready(it, it.stub.waiters[0].kind) then []
    else if it.stub.waiters[0].kind.Shared? then it.stub.waiters[..Sharers(it.stub.waiters)]
    else [it.stub.waiters[0]]
  }

  lemma ServedIs(it: Item)
    requires CountsMatch(it.stub, it.held)
    ensures Drain(it.stub).granted == ServedBy(it)
    ensures ServedBy(it) != [] ==> Drain(it.stub).stub.state == LockOf(it.stub.waiters[0].kind)
    ensures ServedBy(it) == [] ==> Drain(it.stub).stub == it.stub
  {
    UnusedIs(it);
    DrainServes(it.stub);
  }

  /** In every run an entry of the item's generation serves the waiters at the head of the queue that can have the item
      together with the pointers held, and leaves the others; an entry of another generation serves nobody. */
  lemma ExecuteOutcome(st: Store, run: seq<Step>, i: nat, it: Item, unique: nat)
    requires AllFresh(st) && Legal(st, run) && i < |st| && i < |After(st, run)| && it == After(st, run)[i]
    ensures var n := Apply(it, Execute(unique)); var g := if unique == it.stub.uid then ServedBy(it) else [];
            && n.granted == it.granted + g && g + n.stub.waiters == it.stub.waiters
            && n.held == it.held + Pointers(g, it.stub.uid) && n.stub.uid == it.stub.uid && n.arrived == it.arrived
            && n.pending == it.pending - multiset{unique}
            && n.stub.state == (if g == [] then it.stub.state else LockOf(it.stub.waiters[0].kind))
  {
    Reachable(st, run, i);
    ExecuteIs(it, unique);
  }

  lemma ExecuteIs(it: Item, unique: nat)
    requires Inv(it)
    ensures var n := Apply(it, Execute(unique)); var g := if unique == it.stub.uid then ServedBy(it) else [];
            && n.granted == it.granted + g && g + n.stub.waiters == it.stub.waiters
            && n.held == it.held + Pointers(g, it.stub.uid) && n.stub.uid == it.stub.uid && n.arrived == it.arrived
            && n.pending == it.pending - multiset{unique}
            && n.stub.state == (if g == [] then it.stub.state else LockOf(it.stub.waiters[0].kind))
  {
    if unique == it.stub.uid && !CanClear(it.stub) {
      ServedIs(it);
      DrainTakesPrefix(it.stub);
    } else {
      NothingServed(it);
    }
  }

  lemma NothingServed(it: Item)
    ensures CanClear(it.stub) ==> ServedBy(it) == []
    ensures it.granted + [] == it.granted && [] + it.stub.waiters == it.stub.waiters
    ensures it.held + Pointers([], it.stub.uid) == it.held
  {
  }

  // ---- The queue, from the steps

  /** Who a step of item `it` adds to its queue, and who it serves from it */
  function Queues(it: Item, a: Act): seq<Waiter> {
    if a.Request? && !Stale(it, a.check) && !AtOnce(it, a.waiter.kind) then [a.waiter] else []
  }

  function Serves(it: Item, a: Act): seq<Waiter> {
    if a.Execute? && a.unique == it.stub.uid then ServedBy(it) else []
  }

  /** Whether a step clears the item: nobody has a pointer and nobody waits */
  predicate Clears(it: Item, a: Act) {
    a.Recycle? && it.held == multiset{} && it.stub.waiters == []
  }

  /** The waiters queued on item `i` in a run, those served, and how often the item was cleared */
  function QueuedIn(st: Store, run: seq<Step>, i: nat): seq<Waiter>
    requires Legal(st, run)
    decreases |run|
  {
    if run == [] then []
    else (if run[0].index == i then Queues(st[i], run[0].act) else []) + QueuedIn(Next(st, run[0]), run[1..], i)
  }

  function ServedIn(st: Store, run: seq<Step>, i: nat): seq<Waiter>
    requires Legal(st, run)
    decreases |run|
  {
    if run == [] then []
    else (if run[0].index == i then Serves(st[i], run[0].act) else []) + ServedIn(Next(st, run[0]), run[1..], i)
  }

  function ClearedIn(st: Store, run: seq<Step>, i: nat): nat
    requires Legal(st, run)
    decreases |run|
  {
    if run == [] then 0
    else (if run[0].index == i && Clears(st[i], run[0].act) then 1 else 0) + ClearedIn(Next(st, run[0]), run[1..], i)
  }

  lemma StepQueues(it: Item, a: Act)
    requires Inv(it) && Allowed(it, a)
    ensures Apply(it, a).arrived == it.arrived + Queues(it, a)
  {
    if a.Request? { TryGetIs(it, a.waiter.kind); }
    if a.Execute? { ExecuteIs(it, a.unique); }
  }

  lemma StepServes(it: Item, a: Act)
    requires Inv(it) && Allowed(it, a)
    ensures Apply(it, a).granted == it.granted + Serves(it, a)
  {
    if a.Execute? { ExecuteIs(it, a.unique); }
  }

  lemma ClearIs(it: Item)
    requires CountsMatch(it.stub, it.held)
    ensures CanClear(it.stub) <==> Clears(it, Recycle)
  {
    UnusedIs(it);
  }

  lemma StepClears(it: Item, a: Act)
    requires Inv(it) && Allowed(it, a)
    ensures Apply(it, a).stub.uid == if Clears(it, a) then Clear(it.stub).uid else it.stub.uid
  {
    if a.Recycle? { ClearIs(it); } else { KeepsUid(it, a); }
  }

  lemma KeepsUid(it: Item, a: Act)
    requires !a.Recycle?
    ensures Apply(it, a).stub.uid == it.stub.uid
  {
    if a.Execute? { DrainTakesPrefix(it.stub); }
  }

  ghost predicate AllInv(st: Store) {
    forall j :: 0 <= j < |st| ==> Inv(st[j])
  }

  lemma FreshStore(st: Store)
    requires AllFresh(st)
    ensures AllInv(st)
  {
    forall j | 0 <= j < |st| ensures Inv(st[j]) { FreshInv(st[j]); }
  }

  lemma NextInv(st: Store, s: Step)
    requires AllInv(st) && s.index < |st| && Allowed(st[s.index], s.act)
    ensures AllInv(Next(st, s))
  {
    StepKeeps(st[s.index], s.act);
  }

  lemma NextQueues(st: Store, s: Step, i: nat)
    requires AllInv(st) && s.index < |st| && Allowed(st[s.index], s.act) && i < |st|
    ensures Next(st, s)[i].arrived == st[i].arrived + if s.index == i then Queues(st[i], s.act) else []
  {
    if s.index == i { StepQueues(st[i], s.act); }
  }

  lemma NextServes(st: Store, s: Step, i: nat)
    requires AllInv(st) && s.index < |st| && Allowed(st[s.index], s.act) && i < |st|
    ensures Next(st, s)[i].granted == st[i].granted + if s.index == i then Serves(st[i], s.act) else []
  {
    if s.index == i { StepServes(st[i], s.act); }
  }

  lemma NextClears(st: Store, s: Step, i: nat)
    requires AllInv(st) && s.index < |st| && Allowed(st[s.index], s.act) && i < |st|
    ensures Next(st, s)[i].stub.uid ==
            if s.index == i && Clears(st[i], s.act) then Clear(st[i].stub).uid else st[i].stub.uid
  {
    if s.index == i { StepClears(st[i], s.act); }
  }

  lemma {:induction false} RunQueues(st: Store, run: seq<Step>, i: nat)
    requires Legal(st, run) && i < |st| && AllInv(st)
    ensures |After(st, run)| == |st| && After(st, run)[i].arrived == st[i].arrived + QueuedIn(st, run, i)
    decreases |run|
  {
    if run != [] {
      NextInv(st, run[0]);
      NextQueues(st, run[0], i);
      RunQueues(Next(st, run[0]), run[1..], i);
      Regroup(st[i].arrived, if run[0].index == i then Queues(st[i], run[0].act) else [],
              QueuedIn(Next(st, run[0]), run[1..], i));
    }
  }

  lemma {:induction false} RunServes(st: Store, run: seq<Step>, i: nat)
    requires Legal(st, run) && i < |st| && AllInv(st)
    ensures |After(st, run)| == |st| && After(st, run)[i].granted == st[i].granted + ServedIn(st, run, i)
    decreases |run|
  {
    if run != [] {
      NextInv(st, run[0]);
      NextServes(st, run[0], i);
      RunServes(Next(st, run[0]), run[1..], i);
      Regroup(st[i].granted, if run[0].index == i then Serves(st[i], run[0].act) else [],
              ServedIn(Next(st, run[0]), run[1..], i));
    }
  }

  /** In every run the waiters served from an item's queue, as its steps serve them, followed by those still there, are
      those its steps queued, in order: none twice, none dropped, none overtaken. */
  lemma QueueIsFair(st: Store, run: seq<Step>, i: nat)
    requires AllFresh(st) && Legal(st, run) && i < |st|
    ensures |After(st, run)| == |st|
    ensures ServedIn(st, run, i) + After(st, run)[i].stub.waiters == QueuedIn(st, run, i)
  {
    FreshStore(st);
    FairFrom(st, run, i);
  }

  lemma FairFrom(st: Store, run: seq<Step>, i: nat)
    requires AllInv(st) && Legal(st, run) && i < |st| && st[i].arrived == [] && st[i].granted == []
    ensures |After(st, run)| == |st|
    ensures ServedIn(st, run, i) + After(st, run)[i].stub.waiters == QueuedIn(st, run, i)
  {
    RunQueues(st, run, i);
    RunServes(st, run, i);
    RunKeeps(st, run);
    Arrives(After(st, run)[i], ServedIn(st, run, i), QueuedIn(st, run, i));
  }

  lemma Arrives(it: Item, served: seq<Waiter>, queued: seq<Waiter>)
    requires Inv(it) && it.granted == [] + served && it.arrived == [] + queued
    ensures served + it.stub.waiters == queued
  {
    assert [] + served == served && [] + queued == queued;
  }

  lemma {:induction false} RunClears(st: Store, run: seq<Step>, i: nat)
    requires Legal(st, run) && i < |st| && st[i].stub.uid < UID_COUNT && AllInv(st)
    ensures |After(st, run)| == |st| && Counted(st[i].stub.uid, ClearedIn(st, run, i), After(st, run)[i].stub.uid)
    decreases |run|
  {
    if run == [] {
      NoMore(st[i].stub.uid);
    } else {
      var n := Next(st, run[0]);
      NextInv(st, run[0]);
      NextClears(st, run[0], i);
      OneMore(st[i].stub, ClearedIn(n, run[1..], i));
      RunClears(n, run[1..], i);
    }
  }

  /** Generation `v` comes `n` clears after generation `u`. */
  predicate Counted(u: nat, n: nat, v: nat) {
    v == (u + n) % UID_COUNT
  }

  lemma NoMore(u: nat)
    requires u < UID_COUNT
    ensures Counted(u, 0, u)
  {
  }

  lemma OneMore(s: Stub, n: nat)
    ensures Clear(s).uid < UID_COUNT
    ensures forall v :: Counted(Clear(s).uid, n, v) ==> Counted(s.uid, 1 + n, v)
  {
  }

  /** In every run an item's generation is the number of times it was cleared, in 32 bits. */
  lemma GenerationCountsClears(st: Store, run: seq<Step>, i: nat)
    requires AllFresh(st) && Legal(st, run) && i < |st|
    ensures |After(st, run)| == |st| && After(st, run)[i].stub.uid == ClearedIn(st, run, i) % UID_COUNT
  {
    FreshStore(st);
    ClearsFrom(st, run, i);
  }

  lemma ClearsFrom(st: Store, run: seq<Step>, i: nat)
    requires AllInv(st) && Legal(st, run) && i < |st| && st[i].stub.uid == 0
    ensures |After(st, run)| == |st| && After(st, run)[i].stub.uid == ClearedIn(st, run, i) % UID_COUNT
  {
    RunClears(st, run, i);
  }

  // ---- Switching to shared

  /** What a switch through a use pointer does: the pointer becomes a shared one, under a shared lock, and an entry is
      added exactly if a shared request heads the queue; unless the lock is a unique one, nothing. */
  predicate SwitchesAsMeant(it: Item, p: Ptr) {
    var n := Apply(it, ToShared(p));
    if !it.stub.state.UniqueLock? then n == it
    else
      && n.held == it.held - multiset{p} + multiset{Ptr(Shared, it.stub.uid)}
      && n.stub == it.stub.(state := SharedLock) && n.arrived == it.arrived && n.granted == it.granted
      && n.pending == if Sharers(it.stub.waiters) > 0 then it.pending + multiset{it.stub.uid} else it.pending
  }

  /** Working off an entry after a switch serves all the shared requests at the head of the queue. */
  predicate SharersServedAfter(it: Item, p: Ptr) {
    Sharers(it.stub.waiters) > 0 ==>
      var n := Apply(it, ToShared(p));
      && Allowed(n, Execute(it.stub.uid))
      && Apply(n, Execute(it.stub.uid)).granted == it.granted + it.stub.waiters[..Sharers(it.stub.waiters)]
  }

  /** In every run, a switch does what it is meant to do; it takes effect for every unique or reinit pointer, and then
      an entry is pending that serves all the shared requests at the head of the queue. */
  lemma SwitchOutcome(st: Store, run: seq<Step>, i: nat, it: Item, p: Ptr)
    requires AllFresh(st) && Legal(st, run) && i < |st| && i < |After(st, run)| && it == After(st, run)[i]
    requires p in it.held && !p.kind.Alive?
    ensures SwitchesAsMeant(it, p)
    ensures p.kind.Unique? || p.kind.Reinit? ==> it.stub.state.UniqueLock?
    ensures it.stub.state.UniqueLock? ==> SharersServedAfter(it, p)
  {
    Reachable(st, run, i);
    Switches(it, p);
    if it.stub.state.UniqueLock? { SwitchServes(it, p); }
  }

  lemma Switches(it: Item, p: Ptr)
    requires Inv(it) && p in it.held && !p.kind.Alive?
    ensures SwitchesAsMeant(it, p)
    ensures p.kind.Unique? || p.kind.Reinit? ==> it.stub.state.UniqueLock?
  {
    assert p == Ptr(p.kind, it.stub.uid);
  }

  lemma SwitchServes(it: Item, p: Ptr)
    requires Inv(it) && p in it.held && !p.kind.Alive? && it.stub.state.UniqueLock?
    ensures SharersServedAfter(it, p)
  {
    Switches(it, p);
    SwitchStep(it, p);
    SharersServed(Apply(it, ToShared(p)));
  }

  lemma SharersServed(it: Item)
    requires Inv(it) && it.stub.state.SharedLock?
    ensures Sharers(it.stub.waiters) > 0 ==>
            Apply(it, Execute(it.stub.uid)).granted == it.granted + it.stub.waiters[..Sharers(it.stub.waiters)]
  {
    ExecuteIs(it, it.stub.uid);
  }

  // ---- Recycling

  /** In every run, recycling an item that nobody has a pointer to and nobody waits for makes it as new, in its next
      generation; otherwise it does nothing. */
  lemma RecycleOutcome(st: Store, run: seq<Step>, i: nat, it: Item)
    requires AllFresh(st) && Legal(st, run) && i < |st| && i < |After(st, run)| && it == After(st, run)[i]
    ensures var n := Apply(it, Recycle);
            n == if Clears(it, Recycle) then it.(stub := FRESH_STUB.(uid := n.stub.uid)) else it
  {
    Reachable(st, run, i);
    RecycleIs(it);
  }

  lemma RecycleIs(it: Item)
    requires Inv(it)
    ensures var n := Apply(it, Recycle);
            n == if Clears(it, Recycle) then it.(stub := FRESH_STUB.(uid := n.stub.uid)) else it
  {
    ClearIs(it);
  }

  // ---- Nobody who could be served is overlooked

  /** If the first waiter could be served, an entry is pending for it. */
  predicate NotOverlooked(it: Item) {
    it.stub.waiters != [] && Ready(it, it.stub.waiters[0].kind) ==> it.stub.uid in it.pending
  }

  /** A shared request that queues up on an item nobody uses, with nothing pending */
  predicate Overlooks(it: Item, a: Act) {
    && a.Request? && a.waiter.kind.Shared? && !Stale(it, a.check) && !it.stub.state.SharedLock?
    && it.stub.waiters == [] && Unused(it.held) && it.stub.uid !in it.pending
  }

  lemma RequestOverlooks(it: Item, check: Option<nat>, w: Waiter)
    requires Inv(it) && NotOverlooked(it) && !w.kind.Alive?
    ensures NotOverlooked(DoRequest(it, check, w)) <==> !Overlooks(it, Request(check, w))
  {
    UnusedIs(it);
    RequestStep(it, check, w);
    UnusedIs(DoRequest(it, check, w));
  }

  lemma GetOverlooks(it: Item, check: Option<nat>, k: Kind)
    requires Inv(it) && NotOverlooked(it)
    ensures NotOverlooked(DoGet(it, check, k))
  {
    UnusedIs(it);
    GetStep(it, check, k);
    UnusedIs(DoGet(it, check, k));
  }

  lemma DropOverlooks(it: Item, p: Ptr)
    requires Inv(it) && p in it.held
    ensures NotOverlooked(DoDrop(it, p))
  {
    DropKeeps(it.stub, it.held, p);
    assert p.unique == it.stub.uid;
  }

  lemma SwitchOverlooks(it: Item, p: Ptr)
    requires Inv(it) && NotOverlooked(it) && p in it.held && !p.kind.Alive?
    ensures NotOverlooked(DoToShared(it, p))
  {
    UnusedIs(it);
    SwitchStep(it, p);
    UnusedIs(DoToShared(it, p));
  }

  lemma ExecuteOverlooks(it: Item, unique: nat)
    requires Inv(it) && NotOverlooked(it)
    ensures NotOverlooked(DoExecute(it, unique))
  {
    var n := DoExecute(it, unique);
    ExecuteStep(it, unique);
    UnusedIs(n);
    if unique == it.stub.uid && !CanClear(it.stub) { DrainStops(it.stub); }
  }

  /** Exactly the overlooking requests leave a waiter that could be served and nobody will look at. */
  lemma StepOverlooks(it: Item, a: Act)
    requires Inv(it) && Allowed(it, a) && NotOverlooked(it)
    ensures NotOverlooked(Apply(it, a)) <==> !Overlooks(it, a)
  {
    match a
    case Get(c, k) => GetOverlooks(it, c, k);
    case Request(c, w) => RequestOverlooks(it, c, w);
    case Drop(p) => DropOverlooks(it, p);
    case ToShared(p) => SwitchOverlooks(it, p);
    case Execute(u) => ExecuteOverlooks(it, u);
    case Recycle =>
  }

  /** No waiter who could be served is overlooked, now and after each step of the run. */
  predicate NeverOverlooked(st: Store, run: seq<Step>)
    requires Legal(st, run)
    decreases |run|
  {
    && (forall i :: 0 <= i < |st| ==> NotOverlooked(st[i]))
    && (run == [] || NeverOverlooked(Next(st, run[0]), run[1..]))
  }

  /** No step of the run is an overlooking request. */
  predicate NoneOverlooks(st: Store, run: seq<Step>)
    requires Legal(st, run)
    decreases |run|
  {
    run == [] || (!Overlooks(st[run[0].index], run[0].act) && NoneOverlooks(Next(st, run[0]), run[1..]))
  }

  lemma {:induction false} RunOverlooks(st: Store, run: seq<Step>)
    requires Legal(st, run) && AllInv(st) && forall i :: 0 <= i < |st| ==> NotOverlooked(st[i])
    ensures NeverOverlooked(st, run) <==> NoneOverlooks(st, run)
    decreases |run|
  {
    if run != [] {
      var j := run[0].index;
      var n := Next(st, run[0]);
      StepOverlooks(st[j], run[0].act);
      NextInv(st, run[0]);
      assert n[j] == Apply(st[j], run[0].act);
      if !Overlooks(st[j], run[0].act) { RunOverlooks(n, run[1..]); }
    }
  }

  /** In every run: whenever the first waiter of an item could be served an entry is pending that serves it, exactly
      when no shared request queued up on an item that nobody used. */
  lemma OverlookedExactly(st: Store, run: seq<Step>)
    requires AllFresh(st) && Legal(st, run)
    ensures NeverOverlooked(st, run) <==> NoneOverlooks(st, run)
  {
    FreshStore(st);
    RunOverlooks(st, run);
  }
}
