/** The time store and the timers of a reactor as mutable state, operation by operation. */
module Timers {
  import opened Common
  import opened TimerSpec
  import opened TimerFacts
  import opened TimerAlarms

  class TimerReactor {
    var tv: seq<Entry>
    var mint: Bound
    var timers: map<Handler, Timer>

    function View(): Wheel
      reads this
    {
      Wheel(tv, mint, timers)
    }

    ghost predicate Valid()
      reads this
    {
      Bijection(View())
    }

    constructor ()
      ensures View() == EMPTY && Valid()
    {
      tv, mint, timers := [], Maximum, map[];
    }

    /** TimeStore::push */
    method PushEntry(t: Time, h: Handler) returns (i: nat)
      modifies this
      ensures View() == Pushed(old(View()), t, h) && i == |old(tv)|
    {
      i := |tv|;
      tv := tv + [Entry(t, h)];
      if Less(At(t), mint) { mint := At(t); }
    }

    /** TimeStore::change */
    method ChangeEntry(i: nat, t: Time) returns (h: Handler)
      requires Valid() && i < |tv|
      modifies this
      ensures Valid() && View() == Changed(old(View()), i, t) && h == old(tv)[i].handler
      ensures AlarmsOf(View()) == AlarmsOf(old(View()))[h := Some(t)]
    {
      ChangeMeans(View(), i, t);
      tv := tv[i := tv[i].(time := t)];
      if Less(At(t), mint) { mint := At(t); }
      h := tv[i].handler;
    }

    /** Reactor::doUpdateTimerIndex; the asserted old index is the precondition. */
    method UpdateIndex(h: Handler, newIdx: nat, oldIdx: nat)
      requires h in timers && timers[h].storeIdx == Some(oldIdx)
      modifies this`timers
      ensures timers == old(timers)[h := old(timers)[h].(storeIdx := Some(newIdx))]
    {
      timers := timers[h := timers[h].(storeIdx := Some(newIdx))];
    }

    /** TimeStore::pop at an index */
    method PopEntry(i: nat)
      requires Valid() && i < |tv|
      modifies this
      ensures View() == Popped(old(View()), i)
    {
      MovedIndexMatches(View(), i);
      ghost var was := View();
      var oldIdx := |tv| - 1;
      tv := tv[i := tv[|tv| - 1]];
      tv := tv[..|tv| - 1];
      assert tv == SwapRemove(was.tv, i);
      if i < |tv| { UpdateIndex(tv[i].handler, i, oldIdx); }
    }

    /** Registration of a timer with the reactor */
    method Registered(h: Handler)
      requires Valid()
      modifies this
      ensures Valid() && View() == Apply(old(View()), Register(h))
    {
      ApplyKeeps(View(), Register(h));
      if h !in timers { timers := timers[h := Timer(None, false)]; }
    }

    /** Timer::waitUntil, which returns the negation; false while a wait is pending, and for a handler not
        registered. A timer that is not pending has no entry (Valid), so addTimer always takes its push
        branch. */
    method WaitUntil(h: Handler, t: Time) returns (ok: bool)
      requires Valid()
      modifies this
      ensures Valid() && View() == Apply(old(View()), Op.WaitUntil(h, t))
      ensures ok <==> h in old(timers) && !old(timers)[h].pending
      ensures ok ==> exists i :: 0 <= i < |tv| && tv[i] == Entry(t, h) && timers[h] == Timer(Some(i), true)
      ensures AlarmsOf(View()) == Meant(AlarmsOf(old(View())), Op.WaitUntil(h, t))
      ensures multiset(tv) == multiset(old(tv)) + ArmedBy(AlarmsOf(old(View())), Op.WaitUntil(h, t))
    {
      OpMeans(View(), Op.WaitUntil(h, t));
      OpArms(View(), Op.WaitUntil(h, t));
      ApplyKeeps(View(), Op.WaitUntil(h, t));
      if h !in timers || timers[h].pending { return false; }
      assert TimerOne(h, timers[h], tv);
      var i := PushEntry(t, h);
      timers := timers[h := Timer(Some(i), true)];
      assert tv[i] == Entry(t, h);
      return true;
    }

    /** Timer::doClear: what Timer::cancel does, and a timer that fires or is destroyed */
    method Clear(h: Handler)
      requires Valid()
      modifies this
      ensures Valid() && View() == Apply(old(View()), Cancel(h))
      ensures forall i :: 0 <= i < |tv| ==> tv[i].handler != h
      ensures multiset(tv) == multiset(old(tv)) - Own(old(View()), h)
      ensures Own(old(View()), h) == multiset{} ==> tv == old(tv)
      ensures OthersKeep(old(View()), View(), h)
      ensures AlarmsOf(View()) == Meant(AlarmsOf(old(View())), Cancel(h))
    {
      ghost var was := View();
      Forget(h);
      ApplyKeeps(was, Cancel(h));
      ClearTakesOwn(was, h);
      OpMeans(was, Cancel(h));
      StoreIsAlarms(View(), h, 0);
    }

    /** The entry of the timer, if it has one, leaves the store. */
    method Forget(h: Handler)
      requires Valid()
      modifies this
      ensures View() == Cleared(old(View()), h)
    {
      if h in timers {
        assert TimerOne(h, timers[h], tv);
        if timers[h].storeIdx.Some? { PopEntry(timers[h].storeIdx.value); }
        timers := timers[h := Timer(None, false)];
      }
    }

    method Deactivated(h: Handler)
      requires Valid()
      modifies this
      ensures Valid() && View() == Apply(old(View()), Deactivate(h))
      ensures multiset(tv) == multiset(old(tv)) - Own(old(View()), h) && h !in timers
      ensures OthersKeep(old(View()), View(), h)
      ensures AlarmsOf(View()) == Meant(AlarmsOf(old(View())), Deactivate(h))
    {
      ghost var was := View();
      Forget(h);
      timers := timers - {h};
      assert View() == Apply(was, Deactivate(h));
      ApplyKeeps(was, Deactivate(h));
      DeactivateTakesOwn(was, h);
      OpMeans(was, Deactivate(h));
    }

    /** What a timer's completion callback does. */
    method RunCallback(ops: seq<Op>)
      requires Valid()
      modifies this
      ensures Valid() && View() == ApplyAll(old(View()), ops)
    {
      var k := 0;
      ghost var was := View();
      while k < |ops|
        invariant 0 <= k <= |ops| && Valid()
        invariant ApplyAll(was, ops) == ApplyAll(View(), ops[k..])
      {
        assert ops[k..][0] == ops[k] && ops[k..][1..] == ops[k + 1..];
        match ops[k] {
          case Register(h) => Registered(h);
          case WaitUntil(h, t) => var _ := this.WaitUntil(h, t);
          case Cancel(h) => Clear(h);
          case Deactivate(h) => Deactivated(h);
        }
        k := k + 1;
      }
    }

    /** TimeStore::pop at a time, together with Reactor::onTimer. The k-th callback does calls[k]. */
    method PopDue(now: Time, calls: seq<seq<Op>>) returns (fired: seq<Entry>)
      requires Valid()
      modifies this
      ensures Valid()
      ensures Swept(View(), fired) == SweepAll(old(View()), now, calls)
      ensures FiresFrom(AlarmsOf(old(View())), fired, now, calls)
      ensures AlarmsOf(View()) == LeftBy(AlarmsOf(old(View())), fired, calls)
    {
      SweepMeans(View(), 0, Maximum, now, calls);
      fired := SweepDue(now, calls);
    }

    method SweepDue(now: Time, calls: seq<seq<Op>>) returns (fired: seq<Entry>)
      requires Valid()
      modifies this
      ensures Valid()
      ensures Swept(View(), fired) == SweepAll(old(View()), now, calls)
    {
      fired := [];
      var crtMin, i, k := Maximum, 0, 0;
      ghost var whole := SweepAll(View(), now, calls);
      SweepingStart(View(), now, calls);
      while i < |tv|
        invariant Valid() && k <= |calls| && Sweeping(whole, fired, View(), i, crtMin, now, calls, k)
        decreases |calls| - k, |tv| - i
      {
        SweepingTurn(whole, fired, View(), i, crtMin, now, calls, k);
        if tv[i].time > now {
          if Less(At(tv[i].time), crtMin) { crtMin := At(tv[i].time); }
          i := i + 1;
        } else {
          fired := fired + [tv[i]];
          FireDue(i, calls, k);
          if k < |calls| { k := k + 1; }
        }
      }
      SweepingEnd(whole, fired, View(), i, crtMin, now, calls, k);
      mint := crtMin;
    }

    /** Taking a due entry out of the store, its timer forgetting it, and its callback */
    method FireDue(i: nat, calls: seq<seq<Op>>, k: nat)
      requires Valid() && i < |tv|
      modifies this
      ensures Valid() && View() == AfterFiring(old(View()), i, calls, k)
      ensures k >= |calls| ==> |tv| < |old(tv)|
    {
      var h := tv[i].handler;
      FireKeeps(View(), i);
      PopEntry(i);
      timers := timers[h := Timer(None, false)];
      if k < |calls| { RunCallback(calls[k]); }
    }
  }

  function AfterFiring(w: Wheel, i: nat, calls: seq<seq<Op>>, k: nat): Wheel
    requires i < |w.tv|
  {
    if k < |calls| then ApplyAll(Fired(w, i), calls[k]) else Fired(w, i)
  }

  /** A sweep that comes to `whole` has fired `fired`, made `k` calls, and goes on from `w` with its cursor at `i`. */
  ghost predicate Sweeping(whole: Swept, fired: seq<Entry>, w: Wheel, i: nat, min: Bound, now: Time,
                           calls: seq<seq<Op>>, k: nat)
  {
    && k <= |calls|
    && var rest := Sweep(w, i, min, now, calls[k..]);
       rest.wheel == whole.wheel && fired + rest.fired == whole.fired
  }

  lemma SweepingStart(w: Wheel, now: Time, calls: seq<seq<Op>>)
    ensures Sweeping(SweepAll(w, now, calls), [], w, 0, Maximum, now, calls, 0)
  {
    assert calls[0..] == calls;
    assert [] + SweepAll(w, now, calls).fired == SweepAll(w, now, calls).fired;
  }

  lemma SweepingTurn(whole: Swept, fired: seq<Entry>, w: Wheel, i: nat, min: Bound, now: Time, calls: seq<seq<Op>>,
                     k: nat)
    requires Sweeping(whole, fired, w, i, min, now, calls, k) && i < |w.tv|
    ensures w.tv[i].time > now ==> Sweeping(whole, fired, w, i + 1, Earlier(min, At(w.tv[i].time)), now, calls, k)
    ensures w.tv[i].time <= now ==>
              Sweeping(whole, fired + [w.tv[i]], AfterFiring(w, i, calls, k), i, min, now, calls,
                       if k < |calls| then k + 1 else k)
  {
    if w.tv[i].time <= now {
      var rest := if k == |calls| then [] else calls[k + 1..];
      if k < |calls| { assert calls[k..][0] == calls[k] && calls[k..][1..] == rest; }
      Regroup(fired, [w.tv[i]], Sweep(AfterFiring(w, i, calls, k), i, min, now, rest).fired);
    }
  }

  lemma SweepingEnd(whole: Swept, fired: seq<Entry>, w: Wheel, i: nat, min: Bound, now: Time, calls: seq<seq<Op>>,
                    k: nat)
    requires Sweeping(whole, fired, w, i, min, now, calls, k) && i >= |w.tv|
    ensures whole == Swept(w.(mint := min), fired)
  {
    assert fired + [] == fired;
  }
}
