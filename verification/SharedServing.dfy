/**
 Whether the waiters of an item are ever served: the queue is looked at only when an entry of the erase vector for
 the item is worked off, and such entries come from pointers dropped and from switches to shared.
 */
module SharedServing {
  import opened Common
  import opened SharedSpec
  import opened SharedRuns

  /** Somebody waits only if a pointer is held, which will be dropped, or an entry is pending. */
  predicate Attended(it: Item) {
    it.stub.waiters != [] ==> it.held != multiset{} || it.stub.uid in it.pending
  }

  /** A shared request that queues up on an item nobody holds, with nothing pending: the lock is not a shared one. */
  predicate Strands(it: Item, a: Act) {
    && a.Request? && a.waiter.kind.Shared? && Passes(a.check, it.stub) && !it.stub.state.SharedLock?
    && it.stub.waiters == [] && it.held == multiset{} && it.stub.uid !in it.pending
  }

  lemma NothingHeld(s: Stub, held: multiset<Ptr>)
    requires CountsMatch(s, held)
    ensures held == multiset{} <==> s.usecnt == 0 && s.alivecnt == 0
  {
    if |held| == 0 { assert held == multiset{}; }
  }

  lemma RequestAttended(it: Item, check: Option<nat>, w: Waiter)
    requires Inv(it) && Attended(it) && !w.kind.Alive?
    ensures Attended(DoRequest(it, check, w)) <==> !Strands(it, Request(check, w))
  {
    NothingHeld(it.stub, it.held);
    if Passes(check, it.stub) && TryGet(it.stub, w.kind).Some? {
      assert Ptr(w.kind, it.stub.uid) in DoRequest(it, check, w).held;
    }
  }

  lemma GetAttended(it: Item, check: Option<nat>, k: Kind)
    requires Attended(it)
    ensures Attended(DoGet(it, check, k))
  {
    if Passes(check, it.stub) && TryGet(it.stub, k).Some? {
      assert Ptr(k, it.stub.uid) in DoGet(it, check, k).held;
    }
  }

  /** An entry that is worked off leaves a waiter only behind a pointer that is held. */
  lemma ExecuteAttended(it: Item, unique: nat)
    requires Inv(it) && Attended(it)
    ensures Attended(DoExecute(it, unique))
  {
    var n := DoExecute(it, unique);
    ExecuteStep(it, unique);
    NothingHeld(n.stub, n.held);
    if unique == it.stub.uid && !CanClear(it.stub) {
      DrainStops(it.stub);
      if n.stub.waiters != [] { assert !n.stub.waiters[0].kind.Alive?; }
    }
  }

  lemma SwitchAttended(it: Item, p: Ptr)
    requires Attended(it) && p in it.held
    ensures Attended(DoToShared(it, p))
  {
    if p.unique == it.stub.uid && Switch(it.stub).Some? && !p.kind.Alive? {
      assert Ptr(Shared, p.unique) in DoToShared(it, p).held;
    }
  }

  /** Exactly the stranding requests leave a waiter that nobody will look at. */
  lemma StepAttended(it: Item, a: Act)
    requires Inv(it) && Allowed(it, a) && Attended(it)
    ensures Attended(Apply(it, a)) <==> !Strands(it, a)
  {
    match a
    case Get(c, k) => GetAttended(it, c, k);
    case Request(c, w) => RequestAttended(it, c, w);
    case Drop(p) => CountsOf(it);
    case ToShared(p) => SwitchAttended(it, p);
    case Execute(u) => ExecuteAttended(it, u);
    case Recycle =>
  }

  // ---- Runs

  predicate AllAttended(st: Store) {
    forall i :: 0 <= i < |st| ==> Attended(st[i])
  }

  /** Every item is attended, now and after each step of the run. */
  predicate AlwaysAttended(st: Store, run: seq<Step>)
    requires Legal(st, run)
    decreases |run|
  {
    AllAttended(st) && (run == [] || AlwaysAttended(Next(st, run[0]), run[1..]))
  }

  /** No step of the run is a stranding request. */
  predicate NoneStranded(st: Store, run: seq<Step>)
    requires Legal(st, run)
    decreases |run|
  {
    run == [] || (!Strands(st[run[0].index], run[0].act) && NoneStranded(Next(st, run[0]), run[1..]))
  }

  lemma {:induction false} RunAttended(st: Store, run: seq<Step>)
    requires Legal(st, run) && AllAttended(st) && forall i :: 0 <= i < |st| ==> Inv(st[i])
    ensures AlwaysAttended(st, run) <==> NoneStranded(st, run)
    decreases |run|
  {
    if run != [] {
      var j := run[0].index;
      var n := Next(st, run[0]);
      StepAttended(st[j], run[0].act);
      StepKeeps(st[j], run[0].act);
      assert n[j] == Apply(st[j], run[0].act);
      if !Strands(st[j], run[0].act) { RunAttended(n, run[1..]); }
    }
  }

  /** In every run: a waiter is always behind a held pointer or a pending entry exactly when no request strands. */
  lemma AttendedExactly(st: Store, run: seq<Step>)
    requires AllFresh(st) && Legal(st, run)
    ensures AlwaysAttended(st, run) <==> NoneStranded(st, run)
  {
    forall i | 0 <= i < |st| ensures Inv(st[i]) { FreshInv(st[i]); }
    RunAttended(st, run);
  }

  /** In every run: once no pointer to an attended item is held, the pending entry serves its first waiter; on an item
      that is not attended there is no entry to work off, and recycling it does nothing. */
  lemma FirstWaiterServed(st: Store, run: seq<Step>, i: nat, it: Item)
    requires AllFresh(st) && Legal(st, run) && i < |st| && i < |After(st, run)| && it == After(st, run)[i]
    requires it.stub.waiters != [] && it.held == multiset{}
    ensures Attended(it) <==> Allowed(it, Execute(it.stub.uid))
    ensures it.granted + [it.stub.waiters[0]] <= Apply(it, Execute(it.stub.uid)).granted
    ensures Apply(it, Recycle) == it
  {
    Reachable(st, run, i);
    ServedFirst(it);
  }

  lemma ServedFirst(it: Item)
    requires Inv(it) && it.stub.waiters != [] && it.held == multiset{}
    ensures it.granted + [it.stub.waiters[0]] <= Apply(it, Execute(it.stub.uid)).granted
    ensures Apply(it, Recycle) == it
  {
    NothingHeld(it.stub, it.held);
    HeadGranted(it.granted, it.stub);
    assert !CanClear(it.stub);
  }

  lemma HeadGranted(granted: seq<Waiter>, s: Stub)
    requires s.waiters != [] && s.usecnt == 0 && s.alivecnt == 0 && Waitable(s.waiters)
    ensures granted + [s.waiters[0]] <= granted + Drain(s).granted
  {
    assert Deliverable(s, s.waiters[0].kind);
    assert Drain(s).granted[0] == s.waiters[0];
  }

  // ---- A stranded waiter

  const ONE_REINIT: Item := Item(Stub(0, 0, 1, UniqueLock, []), multiset{Ptr(Reinit, 0)}, [], [], multiset{})

  const DROPPED: Item := Item(Stub(0, 0, 0, UniqueLock, []), multiset{}, [], [], multiset{0})

  const WORKED_OFF: Item := DROPPED.(pending := multiset{})

  const STRANDED: Item :=
    Item(Stub(0, 0, 0, UniqueLock, [Waiter(Shared, 7)]), multiset{}, [Waiter(Shared, 7)], [], multiset{})

  const STRANDING: seq<Act> :=
    [Get(None, Reinit), Drop(Ptr(Reinit, 0)), Execute(0), Request(Some(0), Waiter(Shared, 7))]

  lemma FirstReinit()
    ensures LeadsAt(FRESH_ITEM, STRANDING[0], ONE_REINIT)
  {
    assert multiset{} + multiset{Ptr(Reinit, 0)} == multiset{Ptr(Reinit, 0)};
  }

  lemma ReinitDropped()
    ensures LeadsAt(ONE_REINIT, STRANDING[1], DROPPED)
  {
    assert multiset{Ptr(Reinit, 0)} - multiset{Ptr(Reinit, 0)} == multiset{};
  }

  lemma EntryWorkedOff()
    ensures LeadsAt(DROPPED, STRANDING[2], WORKED_OFF)
  {
    assert multiset{0} - multiset{0} == multiset{};
  }

  lemma RequestQueued()
    ensures LeadsAt(WORKED_OFF, STRANDING[3], STRANDED)
  {
  }

  /** A run that strands a waiter: the last pointer is dropped, its entry finds the item free to be cleared, and before
      it is cleared a shared request queues up. */
  lemma StrandedRun()
    ensures AllFresh([FRESH_ITEM]) && Legal([FRESH_ITEM], Steps(STRANDING))
    ensures After([FRESH_ITEM], Steps(STRANDING)) == [STRANDED]
    ensures !Attended(STRANDED) && Apply(STRANDED, Recycle) == STRANDED
  {
    FirstReinit();
    ReinitDropped();
    EntryWorkedOff();
    RequestQueued();
    RunOf([FRESH_ITEM, ONE_REINIT, DROPPED, WORKED_OFF, STRANDED], STRANDING);
  }
}
