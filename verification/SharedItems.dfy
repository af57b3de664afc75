/** One item of the shared store as mutable state: the waiters are a linked list of nodes. */
module SharedItems {
  import opened Common
  import opened SharedSpec
  import opened SharedGrants

  /** A queued request; `id` stands for the function it carries. */
  class WaitNode {
    var kind: Kind
    var id: nat
    var next: WaitNode?

    constructor (w: Waiter)
      ensures kind == w.kind && id == w.id && next == null
    {
      kind, id, next := w.kind, w.id, null;
    }
  }

  class SharedItem {
    var uid: nat
    var alivecnt: nat
    var usecnt: nat
    var state: Lock
    var first: WaitNode?
    var last: WaitNode?
    ghost var chain: seq<WaitNode>
    ghost var waiters: seq<Waiter>

    ghost predicate Valid()
      reads this, chain
    {
      && |waiters| == |chain|
      && (chain == [] ==> first == null && last == null)
      && (chain != [] ==> first == chain[0] && last == chain[|chain| - 1] && chain[|chain| - 1].next == null)
      && (forall i :: 0 <= i < |chain| - 1 ==> chain[i].next == chain[i + 1])
      && (forall i, j :: 0 <= i < j < |chain| ==> chain[i] != chain[j])
      && (forall i :: 0 <= i < |chain| ==> waiters[i] == Waiter(chain[i].kind, chain[i].id))
    }

    ghost function View(): Stub
      reads this
    {
      Stub(uid, alivecnt, usecnt, state, waiters)
    }

    constructor ()
      ensures Valid() && View() == FRESH_STUB && fresh(chain)
    {
      uid, alivecnt, usecnt, state, first, last, chain, waiters := 0, 0, 0, Unlocked, null, null, [], [];
    }

    method TryGetAlive()
      requires Valid()
      modifies this
      ensures Valid() && Some(View()) == TryGet(old(View()), Alive) && chain == old(chain)
    {
      alivecnt := alivecnt + 1;
      state := UniqueLock;
    }

    method TryGetShared() returns (got: bool)
      requires Valid()
      modifies this
      ensures Valid() && chain == old(chain) && got == TryGet(old(View()), Shared).Some?
      ensures View() == if got then TryGet(old(View()), Shared).value else old(View())
    {
      got := state.SharedLock? && first == null;
      if got { usecnt := usecnt + 1; }
    }

    method TryGetUnique() returns (got: bool)
      requires Valid()
      modifies this
      ensures Valid() && chain == old(chain) && got == TryGet(old(View()), Unique).Some?
      ensures View() == if got then TryGet(old(View()), Unique).value else old(View())
    {
      got := usecnt == 0;
      if got { usecnt, state := usecnt + 1, UniqueLock; }
    }

    method TryGetReinit() returns (got: bool)
      requires Valid()
      modifies this
      ensures Valid() && chain == old(chain) && got == TryGet(old(View()), Reinit).Some?
      ensures View() == if got then TryGet(old(View()), Reinit).value else old(View())
    {
      got := usecnt == 0 && alivecnt == 0 && first == null;
      if got { usecnt, state := usecnt + 1, UniqueLock; }
    }

    method SwitchUniqueToShared() returns (done: bool)
      requires Valid()
      modifies this
      ensures Valid() && chain == old(chain) && done == Switch(old(View())).Some?
      ensures View() == if done then Switch(old(View())).value else old(View())
    {
      done := state.UniqueLock?;
      if done { state := SharedLock; }
    }

    method PushWaiter(w: Waiter)
      requires Valid()
      modifies this, last
      ensures Valid() && View() == PushWait(old(View()), w)
      ensures old(chain) <= chain && fresh(chain[|old(chain)|..])
    {
      var node := new WaitNode(w);
      if last == null {
        first, last := node, node;
      } else {
        last.next := node;
        last := node;
      }
      chain, waiters := chain + [node], waiters + [w];
    }

    /** doDecrementObjectUseCount: whether the erase processing must hear of it */
    method DecrementUse(unique: nat, alive: bool) returns (notify: bool)
      requires Valid() && (unique == uid ==> if alive then alivecnt > 0 else usecnt > 0)
      modifies this
      ensures Valid() && chain == old(chain)
      ensures View() == if unique == old(uid) then Decrement(old(View()), alive) else old(View())
      ensures notify <==> unique == old(uid) && usecnt == 0 && (alive ==> alivecnt == 0)
    {
      if unique == uid {
        if alive {
          alivecnt := alivecnt - 1;
          return usecnt == 0 && alivecnt == 0;
        }
        usecnt := usecnt - 1;
        return usecnt == 0;
      }
      return false;
    }

    /** The tail of doExecuteErase's loop: the first waiter leaves the list. */
    method UnlinkFirst()
      requires Valid() && first != null
      modifies this`first, this`last, this`chain, this`waiters
      ensures Valid() && chain == old(chain)[1..] && waiters == old(waiters)[1..]
      ensures first == old(first).next
    {
      if first != last { first := first.next; } else { first, last := null, null; }
      chain, waiters := chain[1..], waiters[1..];
    }

    /** The switch of doExecuteErase: take the lock a waiter of this kind needs, if it can be had. */
    method Admit(kind: Kind) returns (ok: bool)
      requires Valid() && !kind.Alive?
      modifies this`state, this`usecnt
      ensures Valid() && ok == Deliverable(old(View()), kind)
      ensures ok ==> usecnt == old(usecnt) + 1 && state == (if kind.Shared? then SharedLock else UniqueLock)
      ensures !ok ==> usecnt == old(usecnt) && state == old(state)
    {
      match kind {
        case Unique => if usecnt == 0 { state := UniqueLock; } else { return false; }
        case Shared => if usecnt == 0 || state.SharedLock? { state := SharedLock; } else { return false; }
        case Reinit => if usecnt == 0 && alivecnt == 0 { state := UniqueLock; } else { return false; }
      }
      usecnt := usecnt + 1;
      return true;
    }

    /** doExecuteErase: the waiters to call, in order */
    method ExecuteErase() returns (granted: seq<Waiter>)
      requires Valid() && (forall i :: 0 <= i < |waiters| ==> !waiters[i].kind.Alive?)
      modifies this
      ensures Valid() && Drained(View(), granted) == Drain(old(View()))
      ensures var k := Together(old(waiters), old(usecnt), old(alivecnt), old(state));
              granted == old(waiters)[..k] && waiters == old(waiters)[k..]
    {
      granted := [];
      ghost var was := View();
      DrainServes(was);
      Starts(was);
      var wait := first;
      while wait != null
        invariant Valid() && wait == first && (forall i :: 0 <= i < |waiters| ==> !waiters[i].kind.Alive?)
        invariant Continues(was, granted, View())
        decreases |chain|
      {
        assert waiters[0] == Waiter(wait.kind, wait.id);
        ghost var here := View();
        var ok := Admit(wait.kind);
        if !ok {
          Stops(was, granted, here);
          return;
        }
        DrainsOn(was, granted, here);
        granted := granted + [Waiter(wait.kind, wait.id)];
        UnlinkFirst();
        wait := wait.next;
        assert View() == Deliver(here);
      }
      Stops(was, granted, View());
    }
  }

  /** Draining `was` grants `granted` and then what draining `here` grants. */
  ghost predicate Continues(was: Stub, granted: seq<Waiter>, here: Stub) {
    Drain(was) == Drained(Drain(here).stub, granted + Drain(here).granted)
  }

  lemma DrainsOn(was: Stub, granted: seq<Waiter>, here: Stub)
    requires Continues(was, granted, here) && here.waiters != [] && Deliverable(here, here.waiters[0].kind)
    ensures Continues(was, granted + [here.waiters[0]], Deliver(here))
  {
    var g := Drain(Deliver(here)).granted;
    assert granted + ([here.waiters[0]] + g) == (granted + [here.waiters[0]]) + g;
  }

  lemma Starts(was: Stub)
    ensures Continues(was, [], was)
  {
    assert [] + Drain(was).granted == Drain(was).granted;
  }

  lemma Stops(was: Stub, granted: seq<Waiter>, here: Stub)
    requires Continues(was, granted, here) && (here.waiters == [] || !Deliverable(here, here.waiters[0].kind))
    ensures Drained(here, granted) == Drain(was)
  {
    assert granted + [] == granted;
  }
}
