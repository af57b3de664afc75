/**
 Timers as their user sees them: each registered timer waits for a time or for none.  The time store and the back
 indices carry exactly this, through every operation and every sweep.
 */
module TimerAlarms {
  import opened Common
  import opened TimerSpec
  import opened TimerFacts

  /** For every registered timer the time it waits for, if it waits */
  type Alarms = map<Handler, Option<Time>>

  function Waits(w: Wheel, h: Handler): Option<Time>
    requires h in w.timers
  {
    var i := w.timers[h].storeIdx;
    if i.Some? && i.value < |w.tv| then Some(w.tv[i.value].time) else None
  }

  function AlarmsOf(w: Wheel): Alarms {
    map h | h in w.timers :: Waits(w, h)
  }

  /** What an operation means */
  function Meant(m: Alarms, op: Op): Alarms {
    match op
    case Register(h) => if h in m then m else m[h := None]
    case WaitUntil(h, t) => if h in m && m[h].None? then m[h := Some(t)] else m
    case Cancel(h) => if h in m then m[h := None] else m
    case Deactivate(h) => m - {h}
  }

  function MeantAll(m: Alarms, ops: seq<Op>): Alarms
    decreases |ops|
  {
    if ops == [] then m else MeantAll(Meant(m, ops[0]), ops[1..])
  }

  // ---- The store holds exactly the alarms

  /** A timer is pending exactly while it waits, and the store has one entry, with its time, for each timer
      that waits. */
  lemma StoreIsAlarms(w: Wheel, h: Handler, t: Time)
    requires Bijection(w)
    ensures AlarmsOf(w).Keys == w.timers.Keys
    ensures h in w.timers ==> (w.timers[h].pending <==> AlarmsOf(w)[h].Some?)
    ensures Entry(t, h) in w.tv <==> h in w.timers && AlarmsOf(w)[h] == Some(t)
    ensures multiset(w.tv)[Entry(t, h)] <= 1
  {
    if h in w.timers { assert TimerOne(h, w.timers[h], w.tv); }
    if Entry(t, h) in w.tv {
      var i :| 0 <= i < |w.tv| && w.tv[i] == Entry(t, h);
      assert w.timers[h].storeIdx == Some(i);
    }
    OncePerTimer(w.tv, Entry(t, h));
  }

  lemma {:induction false} OncePerTimer(tv: seq<Entry>, e: Entry)
    requires forall i, j :: 0 <= i < j < |tv| ==> tv[i].handler != tv[j].handler
    ensures multiset(tv)[e] <= 1
  {
    if tv != [] {
      OncePerTimer(tv[1..], e);
      assert tv == [tv[0]] + tv[1..];
      if tv[0] == e { assert e !in tv[1..]; }
    }
  }

  // ---- Taking an entry out

  lemma SwapRemoves(tv: seq<Entry>, i: nat)
    requires i < |tv|
    ensures multiset(SwapRemove(tv, i)) == multiset(tv) - multiset{tv[i]}
  {
    var n := |tv| - 1;
    assert tv == tv[..n] + [tv[n]];
    if i < n {
      var r := SwapRemove(tv, i);
      assert tv[..n] == tv[..i] + [tv[i]] + tv[i + 1..n];
      assert r == tv[..i] + [tv[n]] + tv[i + 1..n];
    } else {
      assert SwapRemove(tv, i) == tv[..n];
    }
  }

  /** Every other timer keeps its registration, its pending flag and its time. */
  ghost predicate OthersKeep(w: Wheel, n: Wheel, h: Handler) {
    forall g :: g != h ==>
      && (g in n.timers <==> g in w.timers)
      && (g in w.timers ==> n.timers[g].pending == w.timers[g].pending && Waits(n, g) == Waits(w, g))
  }

  lemma PopKeepsOthers(w: Wheel, i: nat)
    requires Bijection(w) && i < |w.tv|
    ensures OthersKeep(w, Popped(w, i), w.tv[i].handler)
  {
    var n := Popped(w, i);
    forall g | g in w.timers && g != w.tv[i].handler
      ensures g in n.timers && n.timers[g].pending == w.timers[g].pending && Waits(n, g) == Waits(w, g)
    {
      assert TimerOne(g, w.timers[g], w.tv);
    }
  }

  lemma SetKeepsOthers(w: Wheel, n: Wheel, h: Handler)
    requires OthersKeep(w, n, h)
    ensures OthersKeep(w, n.(timers := n.timers[h := Timer(None, false)]), h)
  {
    var m := n.(timers := n.timers[h := Timer(None, false)]);
    forall g | g in w.timers && g != h
      ensures g in m.timers && m.timers[g].pending == w.timers[g].pending && Waits(m, g) == Waits(w, g)
    {
      assert g in n.timers && m.timers[g] == n.timers[g];
    }
  }

  /** The entry of a timer, if it has one */
  function Own(w: Wheel, h: Handler): multiset<Entry> {
    if h in w.timers && w.timers[h].storeIdx.Some? && w.timers[h].storeIdx.value < |w.tv|
    then multiset{w.tv[w.timers[h].storeIdx.value]} else multiset{}
  }

  /** Cancelling takes the timer's own entry out, or none if it has none, and leaves the other timers as they are. */
  lemma ClearTakesOwn(w: Wheel, h: Handler)
    requires Bijection(w)
    ensures multiset(Cleared(w, h).tv) == multiset(w.tv) - Own(w, h)
    ensures Own(w, h) == multiset{} ==> Cleared(w, h).tv == w.tv
    ensures OthersKeep(w, Cleared(w, h), h)
    ensures h in w.timers ==> h in Cleared(w, h).timers && Cleared(w, h).timers[h] == Timer(None, false)
  {
    if h in w.timers {
      assert TimerOne(h, w.timers[h], w.tv);
      if w.timers[h].storeIdx.Some? {
        SwapRemoves(w.tv, w.timers[h].storeIdx.value);
        PopKeepsOthers(w, w.timers[h].storeIdx.value);
        SetKeepsOthers(w, Popped(w, w.timers[h].storeIdx.value), h);
      } else {
        SetKeepsOthers(w, w, h);
      }
    }
  }

  lemma ForgetKeepsOthers(w: Wheel, n: Wheel, h: Handler)
    requires OthersKeep(w, n, h)
    ensures OthersKeep(w, n.(timers := n.timers - {h}), h)
  {
    var m := n.(timers := n.timers - {h});
    forall g | g in w.timers && g != h
      ensures g in m.timers && m.timers[g].pending == w.timers[g].pending && Waits(m, g) == Waits(w, g)
    {
      assert g in n.timers && m.timers[g] == n.timers[g];
    }
  }

  lemma DeactivateTakesOwn(w: Wheel, h: Handler)
    requires Bijection(w)
    ensures var n := Apply(w, Deactivate(h));
            multiset(n.tv) == multiset(w.tv) - Own(w, h) && OthersKeep(w, n, h) && h !in n.timers
            && (Own(w, h) == multiset{} ==> n.tv == w.tv)
  {
    ClearTakesOwn(w, h);
    ForgetKeepsOthers(w, Cleared(w, h), h);
  }

  // ---- Every operation does what it means

  lemma AlarmsSame(w: Wheel, n: Wheel, h: Handler)
    requires OthersKeep(w, n, h)
    ensures h in n.timers ==> AlarmsOf(n) == AlarmsOf(w)[h := Waits(n, h)]
    ensures h !in n.timers ==> AlarmsOf(n) == AlarmsOf(w) - {h}
  {
  }

  lemma WaitMeans(w: Wheel, h: Handler, t: Time)
    requires Bijection(w)
    ensures AlarmsOf(Waiting(w, h, t)) == Meant(AlarmsOf(w), WaitUntil(h, t))
  {
    var n := Waiting(w, h, t);
    if h in w.timers {
      assert TimerOne(h, w.timers[h], w.tv);
      if !w.timers[h].pending {
        forall g | g in w.timers && g != h ensures Waits(n, g) == Waits(w, g) {
          assert TimerOne(g, w.timers[g], w.tv);
        }
        AlarmsSame(w, n, h);
      }
    }
  }

  lemma RegisterMeans(w: Wheel, h: Handler)
    ensures AlarmsOf(Apply(w, Register(h))) == Meant(AlarmsOf(w), Register(h))
  {
    if h !in w.timers { AlarmsSame(w, Apply(w, Register(h)), h); }
  }

  lemma AlarmGone(w: Wheel, n: Wheel, h: Handler)
    requires OthersKeep(w, n, h) && h in n.timers && n.timers[h] == Timer(None, false)
    ensures AlarmsOf(n) == AlarmsOf(w)[h := None]
  {
    AlarmsSame(w, n, h);
  }

  lemma CancelMeans(w: Wheel, h: Handler)
    requires Bijection(w)
    ensures AlarmsOf(Cleared(w, h)) == Meant(AlarmsOf(w), Cancel(h))
  {
    if h in w.timers {
      ClearTakesOwn(w, h);
      AlarmGone(w, Cleared(w, h), h);
    }
  }

  lemma DeactivateMeans(w: Wheel, h: Handler)
    requires Bijection(w)
    ensures AlarmsOf(Apply(w, Deactivate(h))) == Meant(AlarmsOf(w), Deactivate(h))
  {
    DeactivateTakesOwn(w, h);
    AlarmsSame(w, Apply(w, Deactivate(h)), h);
  }

  /** Every operation changes the alarms as it means, however entries and indices move. */
  lemma OpMeans(w: Wheel, op: Op)
    requires Bijection(w)
    ensures AlarmsOf(Apply(w, op)) == Meant(AlarmsOf(w), op)
  {
    match op
    case Register(h) => RegisterMeans(w, h);
    case WaitUntil(h, t) => WaitMeans(w, h, t);
    case Cancel(h) => CancelMeans(w, h);
    case Deactivate(h) => DeactivateMeans(w, h);
  }

  lemma {:induction false} OpsMean(w: Wheel, ops: seq<Op>)
    requires Bijection(w)
    ensures AlarmsOf(ApplyAll(w, ops)) == MeantAll(AlarmsOf(w), ops)
    decreases |ops|
  {
    if ops != [] {
      OpMeans(w, ops[0]);
      ApplyKeeps(w, ops[0]);
      OpsMean(Apply(w, ops[0]), ops[1..]);
    }
  }

  /** TimeStore::change gives the entry's timer another time, and changes no other. */
  lemma ChangeMeans(w: Wheel, i: nat, t: Time)
    requires Bijection(w) && i < |w.tv|
    ensures Bijection(Changed(w, i, t))
    ensures AlarmsOf(Changed(w, i, t)) == AlarmsOf(w)[w.tv[i].handler := Some(t)]
  {
    var n := Changed(w, i, t);
    forall g | g in w.timers ensures TimerOne(g, n.timers[g], n.tv) { assert TimerOne(g, w.timers[g], w.tv); }
    forall g | g in w.timers && g != w.tv[i].handler ensures Waits(n, g) == Waits(w, g) {
      assert TimerOne(g, w.timers[g], w.tv);
    }
    AlarmsSame(w, n, w.tv[i].handler);
  }

  // ---- Sweeps

  /** A sweep as its user sees it: each entry fired was an alarm that was due at that moment; its timer then waits no
      more, and the callback does its operations. */
  predicate FiresFrom(m: Alarms, fired: seq<Entry>, now: Time, calls: seq<seq<Op>>)
    decreases |fired|
  {
    fired == [] ||
    (&& fired[0].handler in m && m[fired[0].handler] == Some(fired[0].time) && fired[0].time <= now
     && FiresFrom(AfterFire(m, fired[0].handler, calls), fired[1..], now, Later(calls)))
  }

  function AfterFire(m: Alarms, h: Handler, calls: seq<seq<Op>>): Alarms {
    if calls == [] then m[h := None] else MeantAll(m[h := None], calls[0])
  }

  function Later(calls: seq<seq<Op>>): seq<seq<Op>> {
    if calls == [] then [] else calls[1..]
  }

  /** The alarms left after the entries fired and their callbacks */
  function LeftBy(m: Alarms, fired: seq<Entry>, calls: seq<seq<Op>>): Alarms
    decreases |fired|
  {
    if fired == [] then m else LeftBy(AfterFire(m, fired[0].handler, calls), fired[1..], Later(calls))
  }

  lemma FireMeans(w: Wheel, i: nat)
    requires Bijection(w) && i < |w.tv|
    ensures var h := w.tv[i].handler;
            && h in AlarmsOf(w) && AlarmsOf(w)[h] == Some(w.tv[i].time)
            && AlarmsOf(Fired(w, i)) == AlarmsOf(w)[h := None]
  {
    PopKeepsOthers(w, i);
    AlarmsSame(w, Fired(w, i), w.tv[i].handler);
  }

  lemma CallMeans(w: Wheel, i: nat, calls: seq<seq<Op>>)
    requires Bijection(w) && i < |w.tv|
    ensures var n := if calls == [] then Fired(w, i) else ApplyAll(Fired(w, i), calls[0]);
            Bijection(n) && AlarmsOf(n) == AfterFire(AlarmsOf(w), w.tv[i].handler, calls)
  {
    FireMeans(w, i);
    FireKeeps(w, i);
    if calls != [] {
      ApplyAllKeeps(Fired(w, i), calls[0]);
      OpsMean(Fired(w, i), calls[0]);
    }
  }

  /** Whatever its callbacks do, a sweep fires only alarms that are due when they fire, and leaves exactly the alarms
      that its firings and callbacks leave: none is lost, none comes back. */
  lemma {:induction false} SweepMeans(w: Wheel, i: nat, min: Bound, now: Time, calls: seq<seq<Op>>)
    requires Bijection(w)
    ensures var r := Sweep(w, i, min, now, calls);
            FiresFrom(AlarmsOf(w), r.fired, now, calls) && AlarmsOf(r.wheel) == LeftBy(AlarmsOf(w), r.fired, calls)
    decreases |calls|, |w.tv| - i
  {
    if i >= |w.tv| {
      assert AlarmsOf(w.(mint := min)) == AlarmsOf(w);
    } else if w.tv[i].time > now {
      SweepMeans(w, i + 1, Earlier(min, At(w.tv[i].time)), now, calls);
    } else {
      FireMeans(w, i);
      CallMeans(w, i, calls);
      var n := if calls == [] then Fired(w, i) else ApplyAll(Fired(w, i), calls[0]);
      SweepMeans(n, i, min, now, Later(calls));
      var r := Sweep(w, i, min, now, calls);
      assert r.fired[0] == w.tv[i] && r.fired[1..] == Sweep(n, i, min, now, Later(calls)).fired;
    }
  }

  // ---- Conservation of entries

  /** The entries a callback adds: those of the waits that are accepted */
  function Armed(m: Alarms, ops: seq<Op>): multiset<Entry>
    decreases |ops|
  {
    if ops == [] then multiset{} else ArmedBy(m, ops[0]) + Armed(Meant(m, ops[0]), ops[1..])
  }

  function ArmedBy(m: Alarms, op: Op): multiset<Entry> {
    if op.WaitUntil? && op.h in m && m[op.h].None? then multiset{Entry(op.time, op.h)} else multiset{}
  }

  /** The entries that the callbacks of a sweep add */
  function ArmedIn(m: Alarms, fired: seq<Entry>, calls: seq<seq<Op>>): multiset<Entry>
    decreases |fired|
  {
    if fired == [] then multiset{}
    else (if calls == [] then multiset{} else Armed(m[fired[0].handler := None], calls[0]))
         + ArmedIn(AfterFire(m, fired[0].handler, calls), fired[1..], Later(calls))
  }

  predicate OnlyArms(ops: seq<Op>) {
    forall k :: 0 <= k < |ops| ==> ops[k].Register? || ops[k].WaitUntil?
  }

  lemma OpArms(w: Wheel, op: Op)
    requires Bijection(w) && (op.Register? || op.WaitUntil?)
    ensures multiset(Apply(w, op).tv) == multiset(w.tv) + ArmedBy(AlarmsOf(w), op)
  {
    if op.h in w.timers { assert TimerOne(op.h, w.timers[op.h], w.tv); }
  }

  lemma {:induction false} OpsArm(w: Wheel, ops: seq<Op>)
    requires Bijection(w) && OnlyArms(ops)
    ensures multiset(ApplyAll(w, ops).tv) == multiset(w.tv) + Armed(AlarmsOf(w), ops)
    decreases |ops|
  {
    if ops != [] {
      OpArms(w, ops[0]);
      OpMeans(w, ops[0]);
      ApplyKeeps(w, ops[0]);
      OpsArm(Apply(w, ops[0]), ops[1..]);
    }
  }

  lemma FireTakes(w: Wheel, i: nat, calls: seq<seq<Op>>)
    requires Bijection(w) && i < |w.tv| && (calls != [] ==> OnlyArms(calls[0]))
    ensures var n := if calls == [] then Fired(w, i) else ApplyAll(Fired(w, i), calls[0]);
            multiset(n.tv) + multiset{w.tv[i]} == multiset(w.tv)
              + if calls == [] then multiset{} else Armed(AlarmsOf(w)[w.tv[i].handler := None], calls[0])
  {
    SwapRemoves(w.tv, i);
    assert w.tv[i] in multiset(w.tv);
    FireMeans(w, i);
    FireKeeps(w, i);
    if calls != [] { OpsArm(Fired(w, i), calls[0]); }
  }

  /** If callbacks only register and wait, the entries a sweep leaves and those it fired are those there were and those
      its callbacks added. */
  lemma {:induction false} SweepConserves(w: Wheel, i: nat, min: Bound, now: Time, calls: seq<seq<Op>>)
    requires Bijection(w) && forall k :: 0 <= k < |calls| ==> OnlyArms(calls[k])
    ensures var r := Sweep(w, i, min, now, calls);
            multiset(r.wheel.tv) + multiset(r.fired) == multiset(w.tv) + ArmedIn(AlarmsOf(w), r.fired, calls)
    decreases |calls|, |w.tv| - i
  {
    if i >= |w.tv| {
    } else if w.tv[i].time > now {
      SweepConserves(w, i + 1, Earlier(min, At(w.tv[i].time)), now, calls);
    } else {
      FireTakes(w, i, calls);
      CallMeans(w, i, calls);
      var n := if calls == [] then Fired(w, i) else ApplyAll(Fired(w, i), calls[0]);
      var rest := Sweep(n, i, min, now, Later(calls));
      SweepConserves(n, i, min, now, Later(calls));
      FiredFirst(AlarmsOf(w), w.tv[i], rest.fired, calls);
      Balance(multiset(w.tv), multiset(n.tv), multiset(rest.wheel.tv), multiset{w.tv[i]}, multiset(rest.fired),
              if calls == [] then multiset{} else Armed(AlarmsOf(w)[w.tv[i].handler := None], calls[0]),
              ArmedIn(AlarmsOf(n), rest.fired, Later(calls)));
    }
  }

  lemma Balance(was: multiset<Entry>, mid: multiset<Entry>, left: multiset<Entry>, e: multiset<Entry>,
                fired: multiset<Entry>, a: multiset<Entry>, b: multiset<Entry>)
    requires mid + e == was + a && left + fired == mid + b
    ensures left + (e + fired) == was + (a + b)
  {
    forall x: Entry ensures (left + (e + fired))[x] == (was + (a + b))[x] {
      assert (mid + e)[x] == (was + a)[x] && (left + fired)[x] == (mid + b)[x];
    }
  }

  lemma FiredFirst(m: Alarms, e: Entry, fired: seq<Entry>, calls: seq<seq<Op>>)
    ensures multiset([e] + fired) == multiset{e} + multiset(fired)
    ensures ArmedIn(m, [e] + fired, calls) ==
            (if calls == [] then multiset{} else Armed(m[e.handler := None], calls[0]))
            + ArmedIn(AfterFire(m, e.handler, calls), fired, Later(calls))
  {
    assert ([e] + fired)[1..] == fired;
  }

  // ---- Runs

  /** The alarms after a run, from what its operations mean and its sweeps fired */
  function AlarmsAfter(w: Wheel, m: Alarms, run: seq<Act>): Alarms
    decreases |run|
  {
    if run == [] then m
    else if run[0].Do? then AlarmsAfter(Step(w, run[0]), Meant(m, run[0].op), run[1..])
    else AlarmsAfter(Step(w, run[0]), LeftBy(m, SweepAll(w, run[0].now, run[0].calls).fired, run[0].calls), run[1..])
  }

  /** In every run, with any callbacks, the timers wait for exactly the times that were asked for and have neither been
      fired nor been cancelled. */
  lemma {:induction false} RunMeans(w: Wheel, run: seq<Act>)
    requires Bijection(w)
    ensures AlarmsOf(After(w, run)) == AlarmsAfter(w, AlarmsOf(w), run)
    decreases |run|
  {
    if run != [] {
      if run[0].Do? {
        OpMeans(w, run[0].op);
        ApplyKeeps(w, run[0].op);
      } else {
        SweepMeans(w, 0, Maximum, run[0].now, run[0].calls);
        SweepKeeps(w, 0, Maximum, run[0].now, run[0].calls);
      }
      RunMeans(Step(w, run[0]), run[1..]);
    }
  }

  // ---- The cached time

  /** The earliest of `least` and the times of the waits that are accepted */
  function EarliestAsked(m: Alarms, ops: seq<Op>, least: Bound): Bound
    decreases |ops|
  {
    if ops == [] then least
    else EarliestAsked(Meant(m, ops[0]), ops[1..],
                       if ArmedBy(m, ops[0]) == multiset{} then least else Earlier(least, At(ops[0].time)))
  }

  /** Between two sweeps the cached time is the earliest of what it was and the times asked for since. */
  lemma {:induction false} CachedIsEarliestAsked(w: Wheel, ops: seq<Op>)
    requires Bijection(w)
    ensures ApplyAll(w, ops).mint == EarliestAsked(AlarmsOf(w), ops, w.mint)
    decreases |ops|
  {
    if ops != [] {
      OpCaches(w, ops[0]);
      OpMeans(w, ops[0]);
      ApplyKeeps(w, ops[0]);
      CachedIsEarliestAsked(Apply(w, ops[0]), ops[1..]);
    }
  }

  lemma OpCaches(w: Wheel, op: Op)
    requires Bijection(w)
    ensures Apply(w, op).mint ==
            if ArmedBy(AlarmsOf(w), op) == multiset{} then w.mint else Earlier(w.mint, At(op.time))
  {
    if op.h in w.timers { assert TimerOne(op.h, w.timers[op.h], w.tv); }
    if op.WaitUntil? && op.h in w.timers && !w.timers[op.h].pending {
      assert Entry(op.time, op.h) in ArmedBy(AlarmsOf(w), op);
    }
  }

  lemma OpKeepsMinimum(w: Wheel, op: Op)
    requires Bijection(w) && (op.Register? || op.WaitUntil?) && w.mint == MinOf(w.tv)
    ensures Apply(w, op).mint == MinOf(Apply(w, op).tv)
  {
    if op.WaitUntil? && op.h in w.timers && !w.timers[op.h].pending {
      assert TimerOne(op.h, w.timers[op.h], w.tv);
      assert Apply(w, op).tv[..|w.tv|] == w.tv;
    }
  }

  /** While nothing is cancelled the cached time is exactly that of the earliest entry. */
  lemma {:induction false} ArmingKeepsMinimum(w: Wheel, ops: seq<Op>)
    requires Bijection(w) && OnlyArms(ops) && w.mint == MinOf(w.tv)
    ensures ApplyAll(w, ops).mint == MinOf(ApplyAll(w, ops).tv)
    decreases |ops|
  {
    if ops != [] {
      ApplyKeeps(w, ops[0]);
      OpKeepsMinimum(w, ops[0]);
      ArmingKeepsMinimum(Apply(w, ops[0]), ops[1..]);
    }
  }
}
