/** What every timer operation and every sweep keeps. */
module TimerFacts {
  import opened Common
  import opened TimerSpec

  // ---- Entries and back-pointers

  /** Entries and the timers' store indices are inverse to each other, a wait is pending exactly while
      its entry exists, and no entry names an unregistered timer. */
  predicate Bijection(w: Wheel) {
    && (forall i :: 0 <= i < |w.tv| ==> w.tv[i].handler in w.timers && w.timers[w.tv[i].handler].storeIdx == Some(i))
    && (forall h :: h in w.timers ==> TimerOne(h, w.timers[h], w.tv))
  }

  predicate TimerOne(h: Handler, t: Timer, tv: seq<Entry>) {
    && (t.pending <==> t.storeIdx.Some?)
    && (t.storeIdx.Some? ==> t.storeIdx.value < |tv| && tv[t.storeIdx.value].handler == h)
  }

  /** The bijection except for one timer, whose entry has just been taken out. */
  predicate BijectionBut(w: Wheel, g: Handler) {
    && (forall i :: 0 <= i < |w.tv| ==>
          w.tv[i].handler in w.timers && w.timers[w.tv[i].handler].storeIdx == Some(i) && w.tv[i].handler != g)
    && (forall h :: h in w.timers && h != g ==> TimerOne(h, w.timers[h], w.tv))
  }

  /** The assertion of doUpdateTimerIndex: the moved entry's timer still has the last index. */
  lemma MovedIndexMatches(w: Wheel, i: nat)
    requires Bijection(w) && i < |w.tv|
    ensures var tv := SwapRemove(w.tv, i);
            i < |tv| ==> tv[i].handler in w.timers && w.timers[tv[i].handler].storeIdx == Some(|w.tv| - 1)
  {
  }

  lemma PopLeaves(w: Wheel, i: nat)
    requires Bijection(w) && i < |w.tv|
    ensures BijectionBut(Popped(w, i), w.tv[i].handler)
    ensures Popped(w, i).timers.Keys == w.timers.Keys
  {
    var p := Popped(w, i);
    forall j | 0 <= j < |p.tv|
      ensures p.tv[j].handler in p.timers && p.timers[p.tv[j].handler].storeIdx == Some(j)
              && p.tv[j].handler != w.tv[i].handler
    {
      if j != i { assert p.tv[j] == w.tv[j]; }
    }
    forall h | h in p.timers && h != w.tv[i].handler ensures TimerOne(h, p.timers[h], p.tv) {
      assert TimerOne(h, w.timers[h], w.tv);
    }
  }

  lemma ForgetCompletes(w: Wheel, g: Handler)
    requires BijectionBut(w, g)
    ensures Bijection(w.(timers := w.timers[g := Timer(None, false)]))
    ensures Bijection(w.(timers := w.timers - {g}))
  {
    var n := w.(timers := w.timers[g := Timer(None, false)]);
    forall h | h in n.timers ensures TimerOne(h, n.timers[h], n.tv) {
      if h != g { assert TimerOne(h, w.timers[h], w.tv); }
    }
    var m := w.(timers := w.timers - {g});
    forall h | h in m.timers ensures TimerOne(h, m.timers[h], m.tv) { assert TimerOne(h, w.timers[h], w.tv); }
  }

  lemma ClearLeaves(w: Wheel, h: Handler)
    requires Bijection(w) && h in w.timers
    ensures Bijection(Cleared(w, h)) && BijectionBut(Cleared(w, h), h)
  {
    assert TimerOne(h, w.timers[h], w.tv);
    if w.timers[h].storeIdx.Some? {
      var i := w.timers[h].storeIdx.value;
      PopLeaves(w, i);
      ForgetCompletes(Popped(w, i), h);
    } else {
      ForgetNone(w, h);
    }
    Weaken(Cleared(w, h), h);
  }

  lemma ForgetNone(w: Wheel, h: Handler)
    requires Bijection(w) && h in w.timers && w.timers[h].storeIdx.None?
    ensures Bijection(w.(timers := w.timers[h := Timer(None, false)]))
  {
    var n := w.(timers := w.timers[h := Timer(None, false)]);
    forall g | g in n.timers ensures TimerOne(g, n.timers[g], n.tv) { assert TimerOne(g, w.timers[g], w.tv); }
  }

  lemma Weaken(w: Wheel, h: Handler)
    requires Bijection(w) && h in w.timers && w.timers[h].storeIdx.None?
    ensures BijectionBut(w, h)
  {
  }

  lemma WaitKeeps(w: Wheel, h: Handler, t: Time)
    requires Bijection(w)
    ensures Bijection(Waiting(w, h, t))
  {
    var n := Waiting(w, h, t);
    if h in w.timers && !w.timers[h].pending {
      assert TimerOne(h, w.timers[h], w.tv);
      forall g | g in n.timers ensures TimerOne(g, n.timers[g], n.tv) {
        if g != h { assert TimerOne(g, w.timers[g], w.tv); }
      }
    }
  }

  /** Every operation keeps entries and back-pointers inverse to each other. */
  lemma ApplyKeeps(w: Wheel, op: Op)
    requires Bijection(w)
    ensures Bijection(Apply(w, op))
  {
    match op
    case Register(h) =>
      var n := Apply(w, op);
      forall g | g in n.timers ensures TimerOne(g, n.timers[g], n.tv) {
        if g in w.timers { assert TimerOne(g, w.timers[g], w.tv); }
      }
    case WaitUntil(h, t) => WaitKeeps(w, h, t);
    case Cancel(h) => if h in w.timers { ClearLeaves(w, h); }
    case Deactivate(h) =>
      if h in w.timers { ClearLeaves(w, h); ForgetCompletes(Cleared(w, h), h); }
      else { assert w.timers - {h} == w.timers; }
  }

  lemma {:induction false} ApplyAllKeeps(w: Wheel, ops: seq<Op>)
    requires Bijection(w)
    ensures Bijection(ApplyAll(w, ops))
    decreases |ops|
  {
    if ops != [] {
      ApplyKeeps(w, ops[0]);
      ApplyAllKeeps(Apply(w, ops[0]), ops[1..]);
    }
  }

  lemma FireKeeps(w: Wheel, i: nat)
    requires Bijection(w) && i < |w.tv|
    ensures Bijection(Fired(w, i))
  {
    PopLeaves(w, i);
    ForgetCompletes(Popped(w, i), w.tv[i].handler);
  }

  /** A sweep keeps the bijection whatever its callbacks arm, cancel or deactivate, and fires only
      entries that are due. */
  lemma {:induction false} SweepKeeps(w: Wheel, i: nat, min: Bound, now: Time, calls: seq<seq<Op>>)
    requires Bijection(w)
    ensures var r := Sweep(w, i, min, now, calls); Bijection(r.wheel) && forall e :: e in r.fired ==> e.time <= now
    decreases |calls|, |w.tv| - i
  {
    if i >= |w.tv| {
    } else if w.tv[i].time > now {
      SweepKeeps(w, i + 1, Earlier(min, At(w.tv[i].time)), now, calls);
    } else {
      FireKeeps(w, i);
      if calls == [] {
        SweepKeeps(Fired(w, i), i, min, now, []);
      } else {
        ApplyAllKeeps(Fired(w, i), calls[0]);
        SweepKeeps(ApplyAll(Fired(w, i), calls[0]), i, min, now, calls[1..]);
      }
    }
  }

  // ---- The earliest time

  /** The cached time is no later than any entry. */
  predicate LowerBound(w: Wheel) {
    forall i :: 0 <= i < |w.tv| ==> !Less(At(w.tv[i].time), w.mint)
  }

  function MinOf(tv: seq<Entry>): Bound {
    if tv == [] then Maximum else Earlier(MinOf(tv[..|tv| - 1]), At(tv[|tv| - 1].time))
  }

  lemma {:induction false} MinBounds(tv: seq<Entry>)
    ensures forall i :: 0 <= i < |tv| ==> !Less(At(tv[i].time), MinOf(tv))
    ensures tv != [] ==> exists i :: 0 <= i < |tv| && MinOf(tv) == At(tv[i].time)
  {
    if tv != [] {
      var n := |tv| - 1;
      MinBounds(tv[..n]);
      forall i | 0 <= i < |tv| ensures !Less(At(tv[i].time), MinOf(tv)) {
        if i < n { assert tv[..n][i] == tv[i]; }
      }
      assert tv[..n] == [] ==> MinOf(tv[..n]) == Maximum;
      if MinOf(tv) != At(tv[n].time) {
        var i :| 0 <= i < n && MinOf(tv[..n]) == At(tv[..n][i].time);
        assert MinOf(tv) == At(tv[i].time);
      }
    }
  }

  lemma ApplyKeepsBound(w: Wheel, op: Op)
    requires LowerBound(w)
    ensures LowerBound(Apply(w, op))
  {
  }

  // ---- Sweeps whose callbacks leave the swept part alone

  /** An operation that does not disturb a sweep whose cursor is at `i`: it does not take out an entry the
      cursor has passed. */
  predicate Undisturbing(w: Wheel, i: nat, op: Op) {
    match op
    case Register(_) => true
    case WaitUntil(_, _) => true
    case Cancel(h) => h in w.timers && w.timers[h].storeIdx.Some? ==> w.timers[h].storeIdx.value >= i
    case Deactivate(h) => h in w.timers && w.timers[h].storeIdx.Some? ==> w.timers[h].storeIdx.value >= i
  }

  predicate UndisturbingAll(w: Wheel, i: nat, ops: seq<Op>)
    decreases |ops|
  {
    ops == [] || (Undisturbing(w, i, ops[0]) && UndisturbingAll(Apply(w, ops[0]), i, ops[1..]))
  }

  /** Every callback of the sweep is undisturbing at the point where it runs. */
  predicate Undisturbed(w: Wheel, i: nat, now: Time, calls: seq<seq<Op>>)
    decreases |calls|, |w.tv| - i
  {
    if i >= |w.tv| then true
    else if w.tv[i].time > now then Undisturbed(w, i + 1, now, calls)
    else if calls == [] then true
    else
      && UndisturbingAll(Fired(w, i), i, calls[0])
      && Undisturbed(ApplyAll(Fired(w, i), calls[0]), i, now, calls[1..])
  }

  /** The entries before the cursor stay as they are. */
  predicate SamePrefix(w: Wheel, n: Wheel, i: nat) {
    i <= |w.tv| && i <= |n.tv| && w.tv[..i] == n.tv[..i]
  }

  /** Exactly the undisturbing operations leave the entries before the cursor as they are. */
  lemma OpKeepsPrefix(w: Wheel, i: nat, op: Op)
    requires Bijection(w) && i <= |w.tv|
    ensures Undisturbing(w, i, op) <==> SamePrefix(w, Apply(w, op), i)
  {
    match op
    case Register(_) =>
    case WaitUntil(h, t) => if h in w.timers { assert TimerOne(h, w.timers[h], w.tv); }
    case Cancel(h) => ClearKeepsPrefix(w, i, h);
    case Deactivate(h) => ClearKeepsPrefix(w, i, h);
  }

  lemma ClearKeepsPrefix(w: Wheel, i: nat, h: Handler)
    requires Bijection(w) && i <= |w.tv|
    ensures Undisturbing(w, i, Cancel(h)) <==> SamePrefix(w, Cleared(w, h), i)
  {
    if h in w.timers && w.timers[h].storeIdx.Some? {
      assert TimerOne(h, w.timers[h], w.tv);
      var k, n := w.timers[h].storeIdx.value, Cleared(w, h).tv;
      if k < i && i <= |n| {
        assert n[k] == w.tv[|w.tv| - 1] && w.tv[|w.tv| - 1].handler != h;
        assert n[..i][k] != w.tv[..i][k];
      }
    }
  }

  lemma {:induction false} OpsKeepPrefix(w: Wheel, i: nat, ops: seq<Op>)
    requires Bijection(w) && i <= |w.tv| && UndisturbingAll(w, i, ops)
    ensures SamePrefix(w, ApplyAll(w, ops), i) && Bijection(ApplyAll(w, ops))
    decreases |ops|
  {
    if ops != [] {
      OpKeepsPrefix(w, i, ops[0]);
      ApplyKeeps(w, ops[0]);
      OpsKeepPrefix(Apply(w, ops[0]), i, ops[1..]);
    }
  }

  lemma {:induction false} QuietIsUndisturbed(w: Wheel, i: nat, now: Time)
    ensures Undisturbed(w, i, now, [])
    decreases |w.tv| - i
  {
    if i < |w.tv| && w.tv[i].time > now { QuietIsUndisturbed(w, i + 1, now); }
  }

  /** Everything before the cursor is later than `now` and `min` is its earliest time. */
  predicate SweptTo(tv: seq<Entry>, i: nat, min: Bound, now: Time) {
    i <= |tv| && min == MinOf(tv[..i]) && forall j :: 0 <= j < i ==> tv[j].time > now
  }

  lemma SweptOneMore(tv: seq<Entry>, i: nat, min: Bound, now: Time)
    requires SweptTo(tv, i, min, now) && i < |tv| && tv[i].time > now
    ensures SweptTo(tv, i + 1, Earlier(min, At(tv[i].time)), now)
  {
    assert tv[..i + 1][..i] == tv[..i];
  }

  lemma SweptSame(tv: seq<Entry>, tv': seq<Entry>, i: nat, min: Bound, now: Time)
    requires SweptTo(tv, i, min, now) && i <= |tv'| && tv'[..i] == tv[..i]
    ensures SweptTo(tv', i, min, now)
  {
    forall j | 0 <= j < i ensures tv'[j].time > now { assert tv'[..i][j] == tv[..i][j]; }
  }

  lemma FiredCall(w: Wheel, i: nat, now: Time, ops: seq<Op>, min: Bound)
    requires Bijection(w) && i < |w.tv| && UndisturbingAll(Fired(w, i), i, ops) && SweptTo(w.tv, i, min, now)
    ensures var n := ApplyAll(Fired(w, i), ops); Bijection(n) && SweptTo(n.tv, i, min, now)
  {
    FireKeeps(w, i);
    assert Fired(w, i).tv[..i] == w.tv[..i];
    OpsKeepPrefix(Fired(w, i), i, ops);
    SweptSame(w.tv, ApplyAll(Fired(w, i), ops).tv, i, min, now);
  }

  /** An undisturbed sweep leaves nothing due and caches exactly the earliest remaining time: no entry is earlier, and
      one has it, if any is left. */
  lemma SweepFindsMinimum(w: Wheel, i: nat, min: Bound, now: Time, calls: seq<seq<Op>>)
    requires Bijection(w) && Undisturbed(w, i, now, calls) && SweptTo(w.tv, i, min, now)
    ensures var r := Sweep(w, i, min, now, calls).wheel;
            && LowerBound(r) && (forall j :: 0 <= j < |r.tv| ==> r.tv[j].time > now)
            && (if r.tv == [] then r.mint == Maximum else exists j :: 0 <= j < |r.tv| && r.mint == At(r.tv[j].time))
  {
    SweepCachesMinimum(w, i, min, now, calls);
    MinBounds(Sweep(w, i, min, now, calls).wheel.tv);
  }

  lemma {:induction false} SweepCachesMinimum(w: Wheel, i: nat, min: Bound, now: Time, calls: seq<seq<Op>>)
    requires Bijection(w) && Undisturbed(w, i, now, calls) && SweptTo(w.tv, i, min, now)
    ensures var r := Sweep(w, i, min, now, calls).wheel;
            r.mint == MinOf(r.tv) && forall j :: 0 <= j < |r.tv| ==> r.tv[j].time > now
    decreases |calls|, |w.tv| - i
  {
    if i >= |w.tv| {
      assert w.tv[..i] == w.tv;
    } else if w.tv[i].time > now {
      SweptOneMore(w.tv, i, min, now);
      SweepCachesMinimum(w, i + 1, Earlier(min, At(w.tv[i].time)), now, calls);
    } else if calls == [] {
      FiredCall(w, i, now, [], min);
      QuietIsUndisturbed(Fired(w, i), i, now);
      SweepCachesMinimum(Fired(w, i), i, min, now, []);
    } else {
      FiredCall(w, i, now, calls[0], min);
      SweepCachesMinimum(ApplyAll(Fired(w, i), calls[0]), i, min, now, calls[1..]);
    }
  }

  // ---- Sweeps that hide no timer

  /** No entry before the cursor is earlier than the earliest time found so far. */
  predicate Covered(tv: seq<Entry>, i: nat, min: Bound) {
    forall j :: 0 <= j < i && j < |tv| ==> !Less(At(tv[j].time), min)
  }

  /** Taking out the timer `h` brings an unseen entry, earlier than `min`, behind the cursor. */
  predicate ClearHides(w: Wheel, i: nat, min: Bound, h: Handler) {
    && h in w.timers && w.timers[h].storeIdx.Some? && w.timers[h].storeIdx.value < i < |w.tv|
    && Less(At(w.tv[|w.tv| - 1].time), min)
  }

  /** So does arming a timer once cancels have left fewer entries than the cursor has passed. */
  predicate Hides(w: Wheel, i: nat, min: Bound, op: Op) {
    match op
    case Register(_) => false
    case WaitUntil(h, t) => h in w.timers && !w.timers[h].pending && |w.tv| < i && Less(At(t), min)
    case Cancel(h) => ClearHides(w, i, min, h)
    case Deactivate(h) => ClearHides(w, i, min, h)
  }

  /** Exactly the hiding operations leave an entry behind the cursor that the sweep has not accounted for. */
  lemma OpHidesExactly(w: Wheel, i: nat, min: Bound, op: Op)
    requires Bijection(w) && Covered(w.tv, i, min)
    ensures Covered(Apply(w, op).tv, i, min) <==> !Hides(w, i, min, op)
  {
    match op
    case Register(_) =>
    case WaitUntil(h, t) =>
      if h in w.timers && !w.timers[h].pending {
        assert TimerOne(h, w.timers[h], w.tv);
        assert Apply(w, op).tv[|w.tv|] == Entry(t, h);
      }
    case Cancel(h) => ClearHidesExactly(w, i, min, h);
    case Deactivate(h) => ClearHidesExactly(w, i, min, h);
  }

  lemma ClearHidesExactly(w: Wheel, i: nat, min: Bound, h: Handler)
    requires Bijection(w) && Covered(w.tv, i, min)
    ensures Covered(Cleared(w, h).tv, i, min) <==> !ClearHides(w, i, min, h)
  {
    if h in w.timers && w.timers[h].storeIdx.Some? {
      assert TimerOne(h, w.timers[h], w.tv);
    }
  }

  predicate HidesNone(w: Wheel, i: nat, min: Bound, ops: seq<Op>)
    decreases |ops|
  {
    ops == [] || (!Hides(w, i, min, ops[0]) && HidesNone(Apply(w, ops[0]), i, min, ops[1..]))
  }

  /** No operation of a callback of the sweep hides a timer at the point where it runs. */
  predicate Unhidden(w: Wheel, i: nat, min: Bound, now: Time, calls: seq<seq<Op>>)
    decreases |calls|, |w.tv| - i
  {
    if i >= |w.tv| then true
    else if w.tv[i].time > now then Unhidden(w, i + 1, Earlier(min, At(w.tv[i].time)), now, calls)
    else if calls == [] then true
    else
      && HidesNone(Fired(w, i), i, min, calls[0])
      && Unhidden(ApplyAll(Fired(w, i), calls[0]), i, min, now, calls[1..])
  }

  lemma {:induction false} OpsKeepCover(w: Wheel, i: nat, min: Bound, ops: seq<Op>)
    requires Bijection(w) && Covered(w.tv, i, min) && HidesNone(w, i, min, ops)
    ensures Bijection(ApplyAll(w, ops)) && Covered(ApplyAll(w, ops).tv, i, min)
    decreases |ops|
  {
    if ops != [] {
      OpHidesExactly(w, i, min, ops[0]);
      ApplyKeeps(w, ops[0]);
      OpsKeepCover(Apply(w, ops[0]), i, min, ops[1..]);
    }
  }

  /** A sweep in which nothing is hidden caches a time no later than any remaining entry. */
  lemma {:induction false} SweepKeepsCover(w: Wheel, i: nat, min: Bound, now: Time, calls: seq<seq<Op>>)
    requires Bijection(w) && Covered(w.tv, i, min) && Unhidden(w, i, min, now, calls)
    ensures LowerBound(Sweep(w, i, min, now, calls).wheel)
    decreases |calls|, |w.tv| - i
  {
    if i >= |w.tv| {
    } else if w.tv[i].time > now {
      SweepKeepsCover(w, i + 1, Earlier(min, At(w.tv[i].time)), now, calls);
    } else {
      FireKeeps(w, i);
      if calls == [] {
        QuietIsUnhidden(Fired(w, i), i, min, now);
        SweepKeepsCover(Fired(w, i), i, min, now, []);
      } else {
        OpsKeepCover(Fired(w, i), i, min, calls[0]);
        SweepKeepsCover(ApplyAll(Fired(w, i), calls[0]), i, min, now, calls[1..]);
      }
    }
  }

  lemma {:induction false} QuietIsUnhidden(w: Wheel, i: nat, min: Bound, now: Time)
    ensures Unhidden(w, i, min, now, [])
    decreases |w.tv| - i
  {
    if i < |w.tv| && w.tv[i].time > now { QuietIsUnhidden(w, i + 1, Earlier(min, At(w.tv[i].time)), now); }
  }

  lemma {:induction false} UndisturbingHidesNone(w: Wheel, i: nat, min: Bound, ops: seq<Op>)
    requires Bijection(w) && i <= |w.tv| && UndisturbingAll(w, i, ops)
    ensures HidesNone(w, i, min, ops)
    decreases |ops|
  {
    if ops != [] {
      OpKeepsPrefix(w, i, ops[0]);
      ApplyKeeps(w, ops[0]);
      UndisturbingHidesNone(Apply(w, ops[0]), i, min, ops[1..]);
    }
  }

  /** A sweep whose callbacks leave the passed entries alone hides nothing. */
  lemma {:induction false} UndisturbedIsUnhidden(w: Wheel, i: nat, min: Bound, now: Time, calls: seq<seq<Op>>)
    requires Bijection(w) && i <= |w.tv| && Undisturbed(w, i, now, calls)
    ensures Unhidden(w, i, min, now, calls)
    decreases |calls|, |w.tv| - i
  {
    if i >= |w.tv| {
    } else if w.tv[i].time > now {
      UndisturbedIsUnhidden(w, i + 1, Earlier(min, At(w.tv[i].time)), now, calls);
    } else if calls != [] {
      FireKeeps(w, i);
      UndisturbingHidesNone(Fired(w, i), i, min, calls[0]);
      OpsKeepPrefix(Fired(w, i), i, calls[0]);
      UndisturbedIsUnhidden(ApplyAll(Fired(w, i), calls[0]), i, min, now, calls[1..]);
    }
  }

  // ---- Exactly when the cached time is no later than any entry

  /** An entry with time `t` behind the cursor is accounted for: it is not earlier than the earliest time found so far,
      or a later entry, not due, that the sweep has still to see is as early. */
  predicate Met(tv: seq<Entry>, i: nat, min: Bound, now: Time, t: Time) {
    !Less(At(t), min) || exists k :: i <= k < |tv| && now < tv[k].time <= t
  }

  predicate AllMet(tv: seq<Entry>, i: nat, min: Bound, now: Time) {
    forall j :: 0 <= j < i && j < |tv| ==> Met(tv, i, min, now, tv[j].time)
  }

  lemma MetOneMore(tv: seq<Entry>, i: nat, min: Bound, now: Time, t: Time)
    requires i < |tv| && tv[i].time > now
    ensures Met(tv, i, min, now, t) <==> Met(tv, i + 1, Earlier(min, At(tv[i].time)), now, t)
  {
  }

  lemma MetRemoved(tv: seq<Entry>, i: nat, min: Bound, now: Time, t: Time)
    requires i < |tv| && tv[i].time <= now
    ensures Met(tv, i, min, now, t) <==> Met(SwapRemove(tv, i), i, min, now, t)
  {
    var n := SwapRemove(tv, i);
    if k :| i <= k < |tv| && now < tv[k].time <= t {
      assert n[if k == |tv| - 1 then i else k] == tv[k];
    }
    if k :| i <= k < |n| && now < n[k].time <= t {
      assert n[k] == tv[if k == i then |tv| - 1 else k];
    }
  }

  /** With no callback left to run, the cached time ends up no later than any entry exactly when every entry behind
      the cursor is accounted for. */
  lemma {:induction false} QuietSweepBound(w: Wheel, i: nat, min: Bound, now: Time)
    ensures LowerBound(Sweep(w, i, min, now, []).wheel) <==> AllMet(w.tv, i, min, now)
    decreases |w.tv| - i
  {
    if i >= |w.tv| {
    } else if w.tv[i].time > now {
      var next := Earlier(min, At(w.tv[i].time));
      QuietSweepBound(w, i + 1, next, now);
      forall j | 0 <= j < i
        ensures Met(w.tv, i, min, now, w.tv[j].time) <==> Met(w.tv, i + 1, next, now, w.tv[j].time)
      {
        MetOneMore(w.tv, i, min, now, w.tv[j].time);
      }
    } else {
      var n := SwapRemove(w.tv, i);
      QuietSweepBound(Fired(w, i), i, min, now);
      forall j | 0 <= j < i ensures Met(w.tv, i, min, now, w.tv[j].time) <==> Met(n, i, min, now, n[j].time) {
        MetRemoved(w.tv, i, min, now, w.tv[j].time);
      }
    }
  }

  datatype Point = Point(wheel: Wheel, cursor: nat, min: Bound)

  /** Where the sweep stands when its last callback has run */
  function LastCall(w: Wheel, i: nat, min: Bound, now: Time, calls: seq<seq<Op>>): Point
    decreases |calls|, |w.tv| - i
  {
    if calls == [] || i >= |w.tv| then Point(w, i, min)
    else if w.tv[i].time > now then LastCall(w, i + 1, Earlier(min, At(w.tv[i].time)), now, calls)
    else LastCall(ApplyAll(Fired(w, i), calls[0]), i, min, now, calls[1..])
  }

  lemma {:induction false} QuietAfter(w: Wheel, i: nat, min: Bound, now: Time, calls: seq<seq<Op>>)
    ensures var p := LastCall(w, i, min, now, calls);
            Sweep(w, i, min, now, calls).wheel == Sweep(p.wheel, p.cursor, p.min, now, []).wheel
    decreases |calls|, |w.tv| - i
  {
    if calls == [] || i >= |w.tv| {
    } else if w.tv[i].time > now {
      QuietAfter(w, i + 1, Earlier(min, At(w.tv[i].time)), now, calls);
    } else {
      QuietAfter(ApplyAll(Fired(w, i), calls[0]), i, min, now, calls[1..]);
    }
  }

  /** Every entry the sweep has passed when its last callback returns is accounted for. */
  predicate Accounted(w: Wheel, now: Time, calls: seq<seq<Op>>) {
    var p := LastCall(w, 0, Maximum, now, calls);
    AllMet(p.wheel.tv, p.cursor, p.min, now)
  }

  /** Exactly then a sweep, with any callbacks, caches a time no later than any remaining entry. */
  lemma SweepBoundExactly(w: Wheel, now: Time, calls: seq<seq<Op>>)
    ensures LowerBound(SweepAll(w, now, calls).wheel) <==> Accounted(w, now, calls)
  {
    var p := LastCall(w, 0, Maximum, now, calls);
    QuietAfter(w, 0, Maximum, now, calls);
    QuietSweepBound(p.wheel, p.cursor, p.min, now);
  }

  // ---- Exactly the due timers fire

  /** The due entries from position `i` on. */
  function DueFrom(tv: seq<Entry>, i: nat, now: Time): multiset<Entry>
    requires i <= |tv|
    decreases |tv| - i
  {
    if i == |tv| then multiset{}
    else (if tv[i].time <= now then multiset{tv[i]} else multiset{}) + DueFrom(tv, i + 1, now)
  }

  predicate OnlyLater(now: Time, ops: seq<Op>) {
    forall k :: 0 <= k < |ops| ==> ops[k].Register? || (ops[k].WaitUntil? && ops[k].time > now)
  }

  lemma {:induction false} DueAppend(tv: seq<Entry>, e: Entry, k: nat, now: Time)
    requires k <= |tv|
    ensures DueFrom(tv + [e], k, now) == DueFrom(tv, k, now) + (if e.time <= now then multiset{e} else multiset{})
    decreases |tv| - k
  {
    if k < |tv| { DueAppend(tv, e, k + 1, now); }
  }

  /** Callbacks that only wait for later times add nothing due. */
  lemma {:induction false} LaterKeepsDue(w: Wheel, i: nat, now: Time, ops: seq<Op>)
    requires Bijection(w) && i <= |w.tv| && OnlyLater(now, ops)
    ensures var n := ApplyAll(w, ops); Bijection(n) && i <= |n.tv| && DueFrom(n.tv, i, now) == DueFrom(w.tv, i, now)
    decreases |ops|
  {
    if ops != [] {
      var n := Apply(w, ops[0]);
      ApplyKeeps(w, ops[0]);
      if ops[0].WaitUntil? && n != w {
        assert TimerOne(ops[0].h, w.timers[ops[0].h], w.tv);
        DueAppend(w.tv, Entry(ops[0].time, ops[0].h), i, now);
      }
      LaterKeepsDue(n, i, now, ops[1..]);
    }
  }

  lemma {:induction false} DueSame(a: seq<Entry>, b: seq<Entry>, k: nat, now: Time)
    requires k <= |a| == |b| && forall j :: k <= j < |a| ==> a[j] == b[j]
    ensures DueFrom(a, k, now) == DueFrom(b, k, now)
    decreases |a| - k
  {
    if k < |a| { DueSame(a, b, k + 1, now); }
  }

  lemma DueSwap(tv: seq<Entry>, i: nat, k: nat, now: Time)
    requires i < k <= |tv| - 1
    ensures DueFrom(tv, k, now) == DueFrom(tv[..|tv| - 1], k, now)
            + (if tv[|tv| - 1].time <= now then multiset{tv[|tv| - 1]} else multiset{})
    ensures DueFrom(SwapRemove(tv, i), k, now) == DueFrom(tv[..|tv| - 1], k, now)
  {
    var n := |tv| - 1;
    assert tv == tv[..n] + [tv[n]];
    DueAppend(tv[..n], tv[n], k, now);
    DueSame(SwapRemove(tv, i), tv[..n], k, now);
  }

  /** Removing a due entry at the cursor removes exactly it from what is due. */
  lemma DueRemove(tv: seq<Entry>, i: nat, now: Time)
    requires i < |tv| && tv[i].time <= now
    ensures DueFrom(tv, i, now) == multiset{tv[i]} + DueFrom(SwapRemove(tv, i), i, now)
  {
    if i < |tv| - 1 {
      DueSwap(tv, i, i + 1, now);
    }
  }

  /** If callbacks only wait for later times, the sweep fires each due timer exactly once. */
  lemma {:induction false} SweepFiresDue(w: Wheel, i: nat, min: Bound, now: Time, calls: seq<seq<Op>>)
    requires Bijection(w) && i <= |w.tv| && forall k :: 0 <= k < |calls| ==> OnlyLater(now, calls[k])
    ensures multiset(Sweep(w, i, min, now, calls).fired) == DueFrom(w.tv, i, now)
    decreases |calls|, |w.tv| - i
  {
    if i >= |w.tv| {
    } else if w.tv[i].time > now {
      SweepFiresDue(w, i + 1, Earlier(min, At(w.tv[i].time)), now, calls);
    } else {
      DueRemove(w.tv, i, now);
      FireKeeps(w, i);
      var n := if calls == [] then Fired(w, i) else ApplyAll(Fired(w, i), calls[0]);
      var rest := if calls == [] then [] else calls[1..];
      if calls != [] { LaterKeepsDue(Fired(w, i), i, now, calls[0]); }
      SweepFiresDue(n, i, min, now, rest);
      assert Sweep(w, i, min, now, calls).fired == [w.tv[i]] + Sweep(n, i, min, now, rest).fired;
    }
  }

  lemma {:induction false} LaterIsUndisturbing(w: Wheel, i: nat, now: Time, ops: seq<Op>)
    requires OnlyLater(now, ops)
    ensures UndisturbingAll(w, i, ops)
    decreases |ops|
  {
    if ops != [] { LaterIsUndisturbing(Apply(w, ops[0]), i, now, ops[1..]); }
  }

  lemma {:induction false} LaterIsUndisturbed(w: Wheel, i: nat, now: Time, calls: seq<seq<Op>>)
    requires forall k :: 0 <= k < |calls| ==> OnlyLater(now, calls[k])
    ensures Undisturbed(w, i, now, calls)
    decreases |calls|, |w.tv| - i
  {
    if i < |w.tv| {
      if w.tv[i].time > now { LaterIsUndisturbed(w, i + 1, now, calls); }
      else if calls != [] {
        LaterIsUndisturbing(Fired(w, i), i, now, calls[0]);
        LaterIsUndisturbed(ApplyAll(Fired(w, i), calls[0]), i, now, calls[1..]);
      }
    }
  }

  // ---- Runs of operations and sweeps

  datatype Act = Do(op: Op) | Pop(now: Time, calls: seq<seq<Op>>)

  function Step(w: Wheel, a: Act): Wheel {
    match a
    case Do(op) => Apply(w, op)
    case Pop(now, calls) => SweepAll(w, now, calls).wheel
  }

  function After(w: Wheel, run: seq<Act>): Wheel
    decreases |run|
  {
    if run == [] then w else After(Step(w, run[0]), run[1..])
  }

  /** No sweep of the run hides a timer. */
  predicate Gentle(w: Wheel, run: seq<Act>)
    decreases |run|
  {
    run == [] ||
    ((run[0].Pop? ==> Unhidden(w, 0, Maximum, run[0].now, run[0].calls)) && Gentle(Step(w, run[0]), run[1..]))
  }

  /** In every run, with any callbacks: entries and store indices stay inverse to each other. */
  lemma {:induction false} RunKeepsBijection(w: Wheel, run: seq<Act>)
    requires Bijection(w)
    ensures Bijection(After(w, run))
    decreases |run|
  {
    if run != [] {
      if run[0].Do? { ApplyKeeps(w, run[0].op); } else { SweepKeeps(w, 0, Maximum, run[0].now, run[0].calls); }
      RunKeepsBijection(Step(w, run[0]), run[1..]);
    }
  }

  /** In every run whose sweeps hide no timer the cached time stays no later than any entry. */
  lemma {:induction false} RunKeepsBound(w: Wheel, run: seq<Act>)
    requires Bijection(w) && LowerBound(w) && Gentle(w, run)
    ensures LowerBound(After(w, run)) && Bijection(After(w, run))
    decreases |run|
  {
    if run != [] {
      if run[0].Do? {
        ApplyKeeps(w, run[0].op);
        ApplyKeepsBound(w, run[0].op);
      } else {
        SweepKeeps(w, 0, Maximum, run[0].now, run[0].calls);
        SweepKeepsCover(w, 0, Maximum, run[0].now, run[0].calls);
      }
      RunKeepsBound(Step(w, run[0]), run[1..]);
    }
  }

  /** The cached time is no later than any entry, now and after each act of the run. */
  predicate AlwaysBound(w: Wheel, run: seq<Act>)
    decreases |run|
  {
    LowerBound(w) && (run == [] || AlwaysBound(Step(w, run[0]), run[1..]))
  }

  /** Every sweep of the run accounts for what it has passed. */
  predicate AllAccounted(w: Wheel, run: seq<Act>)
    decreases |run|
  {
    run == [] ||
    ((run[0].Pop? ==> Accounted(w, run[0].now, run[0].calls)) && AllAccounted(Step(w, run[0]), run[1..]))
  }

  /** In any run the cached time is never later than an entry exactly when every sweep accounts for what it passed. */
  lemma {:induction false} RunBoundExactly(w: Wheel, run: seq<Act>)
    requires LowerBound(w)
    ensures AlwaysBound(w, run) <==> AllAccounted(w, run)
    decreases |run|
  {
    if run != [] {
      var n := Step(w, run[0]);
      if run[0].Do? { ApplyKeepsBound(w, run[0].op); } else { SweepBoundExactly(w, run[0].now, run[0].calls); }
      if LowerBound(n) { RunBoundExactly(n, run[1..]); }
    }
  }

  /** A callback that cancels a timer the sweep has already passed: the last entry moves behind the
      cursor unseen, and the cached time ends up later than it. */
  lemma CancelHidesTimer()
    ensures var w := Wheel([Entry(10, 0), Entry(5, 1), Entry(7, 2)], At(5),
                           map[0 := Timer(Some(0), true), 1 := Timer(Some(1), true), 2 := Timer(Some(2), true)]);
            var r := SweepAll(w, 5, [[Cancel(0)]]).wheel;
            && Bijection(w) && LowerBound(w) && !Unhidden(w, 0, Maximum, 5, [[Cancel(0)]])
            && r.tv == [Entry(7, 2)] && r.mint == At(10) && !LowerBound(r)
  {
    var w := Wheel([Entry(10, 0), Entry(5, 1), Entry(7, 2)], At(5),
                   map[0 := Timer(Some(0), true), 1 := Timer(Some(1), true), 2 := Timer(Some(2), true)]);
    var f := Fired(w, 1);
    assert f.tv == [Entry(10, 0), Entry(7, 2)];
    assert f.timers == map[0 := Timer(Some(0), true), 1 := Timer(None, false), 2 := Timer(Some(1), true)];
    var c := Cleared(f, 0);
    assert c.tv == [Entry(7, 2)];
    assert ApplyAll(f, [Cancel(0)]) == c by { assert [Cancel(0)][1..] == []; }
    assert [[Cancel(0)]][1..] == [];
    assert Sweep(c, 1, At(10), 5, []) == Swept(c.(mint := At(10)), []);
    assert Sweep(w, 1, At(10), 5, [[Cancel(0)]]).wheel == c.(mint := At(10));
    assert !HidesNone(f, 1, At(10), [Cancel(0)]);
    assert !Unhidden(w, 1, At(10), 5, [[Cancel(0)]]);
    assert c.tv[0].time == 7;
  }

  /** A callback that cancels the only other timer, already passed, and waits again: the new entry lands
      behind the cursor, and the cached time is that of the cancelled timer. */
  lemma WaitHidesTimer()
    ensures var w := Wheel([Entry(10, 0), Entry(5, 1)], At(5),
                           map[0 := Timer(Some(0), true), 1 := Timer(Some(1), true)]);
            var r := SweepAll(w, 5, [[Cancel(0), WaitUntil(1, 7)]]).wheel;
            Bijection(w) && LowerBound(w) && r.tv == [Entry(7, 1)] && r.mint == At(10) && !LowerBound(r)
  {
    var w := Wheel([Entry(10, 0), Entry(5, 1)], At(5), map[0 := Timer(Some(0), true), 1 := Timer(Some(1), true)]);
    var ops: seq<Op> := [Cancel(0), WaitUntil(1, 7)];
    var f := Fired(w, 1);
    assert f.tv == [Entry(10, 0)];
    var c := Cleared(f, 0);
    assert c.tv == [];
    var n := Waiting(c, 1, 7);
    assert n.tv == [Entry(7, 1)];
    assert ops[1..] == [WaitUntil(1, 7)] && ops[1..][1..] == [];
    assert ApplyAll(c, ops[1..]) == n;
    assert ApplyAll(f, ops) == n;
    var calls: seq<seq<Op>> := [ops];
    assert calls[1..] == [];
    assert Sweep(w, 1, At(10), 5, calls).wheel == n.(mint := At(10));
    assert n.tv[0].time == 7;
  }

  // ---- The sleep time

  /** seconds and nanoseconds below a second */
  datatype NanoTime = NanoTime(sec: nat, nsec: nat)

  const NANOS := 1_000_000_000

  function Nanos(t: NanoTime): nat {
    t.sec * NANOS + t.nsec
  }

  /** operator -=: borrow a second, then carry what is too much. */
  function Minus(a: NanoTime, b: NanoTime): NanoTime
    requires a.nsec < NANOS && b.nsec < NANOS && Nanos(b) < Nanos(a)
  {
    var n := a.nsec + NANOS - b.nsec;
    NanoTime(a.sec - b.sec - 1 + n / NANOS, n % NANOS)
  }

  lemma MinusIsExact(a: NanoTime, b: NanoTime)
    requires a.nsec < NANOS && b.nsec < NANOS && Nanos(b) < Nanos(a)
    ensures Nanos(Minus(a, b)) == Nanos(a) - Nanos(b) && Minus(a, b).nsec < NANOS
  {
  }

  const MAX_WAIT := 60_000

  /** computeWaitTimeMilliseconds: 0 with work queued or a timer due, -1 (no limit) with nothing to wait
      for, otherwise the whole milliseconds until the cached time, at most a minute. */
  function WaitMillis(queued: nat, timers: nat, now: NanoTime, next: NanoTime): int
    requires now.nsec < NANOS && next.nsec < NANOS
  {
    if queued > 0 then 0
    else if timers == 0 then -1
    else if Nanos(now) < Nanos(next) then
      var d := Minus(next, now);
      var ms := d.sec * 1000 + d.nsec / 1_000_000;
      if ms > MAX_WAIT then MAX_WAIT else ms
    else 0
  }

  /** The sleep never reaches past any timer, there is none with a timer due, and with nothing queued it ends less than
      a millisecond before the cached time, unless that is more than a minute away. */
  lemma WaitStopsBeforeTimers(w: Wheel, queued: nat, now: NanoTime, next: NanoTime, i: nat)
    requires LowerBound(w) && i < |w.tv| && w.mint == At(Nanos(next)) && now.nsec < NANOS && next.nsec < NANOS
    ensures var wait := WaitMillis(queued, |w.tv|, now, next);
            && 0 <= wait <= MAX_WAIT
            && (if w.tv[i].time <= Nanos(now) then wait == 0 else Nanos(now) + wait * 1_000_000 <= w.tv[i].time)
            && (queued == 0 && wait < MAX_WAIT ==> Nanos(next) < Nanos(now) + (wait + 1) * 1_000_000)
  {
    if queued == 0 && Nanos(now) < Nanos(next) {
      MinusIsExact(next, now);
      var d := Minus(next, now);
      assert (d.sec * 1000 + d.nsec / 1_000_000) * 1_000_000 <= Nanos(d);
    }
  }
}
