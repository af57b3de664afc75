/**
 Timers of a reactor on values: the time store's vector of (time, handler) pairs with its cached
 earliest time, and for every registered timer the index it believes it has in that vector.
 Each function gives the state after one operation.
 */
module TimerSpec {
  import opened Common

  type Handler = nat
  type Time = nat

  /** A cached earliest time; NanoTime::maximum is later than every time. */
  datatype Bound = At(time: Time) | Maximum

  predicate Less(a: Bound, b: Bound) {
    a.At? && (b.Maximum? || a.time < b.time)
  }

  function Earlier(a: Bound, b: Bound): Bound {
    if Less(b, a) then b else a
  }

  datatype Entry = Entry(time: Time, handler: Handler)

  /** A registered timer: its store index and whether a callback is pending. */
  datatype Timer = Timer(storeIdx: Option<nat>, pending: bool)

  datatype Wheel = Wheel(tv: seq<Entry>, mint: Bound, timers: map<Handler, Timer>)

  const EMPTY: Wheel := Wheel([], Maximum, map[])

  /** What user code can do to timers, from anywhere on the reactor's thread. */
  datatype Op = Register(h: Handler) | WaitUntil(h: Handler, time: Time) | Cancel(h: Handler) | Deactivate(h: Handler)

  // ---- The time store

  /** TimeStore::push */
  function Pushed(w: Wheel, t: Time, h: Handler): Wheel {
    w.(tv := w.tv + [Entry(t, h)], mint := Earlier(w.mint, At(t)))
  }

  /** TimeStore::change */
  function Changed(w: Wheel, i: nat, t: Time): Wheel
    requires i < |w.tv|
  {
    w.(tv := w.tv[i := w.tv[i].(time := t)], mint := Earlier(w.mint, At(t)))
  }

  function SwapRemove(tv: seq<Entry>, i: nat): (r: seq<Entry>)
    requires i < |tv|
    ensures |r| == |tv| - 1
    ensures forall j :: 0 <= j < |r| ==> r[j] == if j == i then tv[|tv| - 1] else tv[j]
  {
    tv[i := tv[|tv| - 1]][..|tv| - 1]
  }

  /** The index callback: the timer of the entry that was moved learns its new index. */
  function Reindexed(timers: map<Handler, Timer>, tv: seq<Entry>, i: nat): map<Handler, Timer> {
    if i < |tv| && tv[i].handler in timers
    then timers[tv[i].handler := timers[tv[i].handler].(storeIdx := Some(i))] else timers
  }

  /** TimeStore::pop at an index: the last entry takes the removed one's place. */
  function Popped(w: Wheel, i: nat): Wheel
    requires i < |w.tv|
  {
    var tv := SwapRemove(w.tv, i);
    w.(tv := tv, timers := Reindexed(w.timers, tv, i))
  }

  // ---- Timers

  /** Timer::waitUntil: refused (with an error) while another wait is pending. */
  function Waiting(w: Wheel, h: Handler, t: Time): Wheel {
    if h !in w.timers || w.timers[h].pending then w
    else
      match w.timers[h].storeIdx
      case Some(i) => if i < |w.tv| then Changed(w, i, t).(timers := w.timers[h := Timer(Some(i), true)]) else w
      case None => Pushed(w, t, h).(timers := w.timers[h := Timer(Some(|w.tv|), true)])
  }

  /** Timer::doClear */
  function Cleared(w: Wheel, h: Handler): Wheel {
    if h !in w.timers then w
    else
      var w1 := if w.timers[h].storeIdx.Some? && w.timers[h].storeIdx.value < |w.tv|
                then Popped(w, w.timers[h].storeIdx.value) else w;
      w1.(timers := w1.timers[h := Timer(None, false)])
  }

  function Apply(w: Wheel, op: Op): Wheel {
    match op
    case Register(h) => if h in w.timers then w else w.(timers := w.timers[h := Timer(None, false)])
    case WaitUntil(h, t) => Waiting(w, h, t)
    case Cancel(h) => Cleared(w, h)
    case Deactivate(h) => var c := Cleared(w, h); c.(timers := c.timers - {h})
  }

  function ApplyAll(w: Wheel, ops: seq<Op>): Wheel
    decreases |ops|
  {
    if ops == [] then w else ApplyAll(Apply(w, ops[0]), ops[1..])
  }

  // ---- Firing

  /** Taking the entry at `i` out of the store and letting its timer forget it, before the callback. */
  function Fired(w: Wheel, i: nat): Wheel
    requires i < |w.tv|
  {
    var p := Popped(w, i);
    p.(timers := if w.tv[i].handler in p.timers then p.timers[w.tv[i].handler := Timer(None, false)] else p.timers)
  }

  datatype Swept = Swept(wheel: Wheel, fired: seq<Entry>)

  /** TimeStore::pop at a time, from cursor `i` on: due entries are removed and their callbacks run,
      the k-th callback doing what `calls[k]` says; later entries lower the new earliest time.
      A sweep that ends makes finitely many calls, so `calls` ranges over every callback behaviour. */
  function Sweep(w: Wheel, i: nat, min: Bound, now: Time, calls: seq<seq<Op>>): Swept
    decreases |calls|, |w.tv| - i
  {
    if i >= |w.tv| then Swept(w.(mint := min), [])
    else if w.tv[i].time > now then Sweep(w, i + 1, Earlier(min, At(w.tv[i].time)), now, calls)
    else
      var e := w.tv[i];
      var rest :=
        if calls == [] then Sweep(Fired(w, i), i, min, now, [])
        else Sweep(ApplyAll(Fired(w, i), calls[0]), i, min, now, calls[1..]);
      Swept(rest.wheel, [e] + rest.fired)
  }

  function SweepAll(w: Wheel, now: Time, calls: seq<seq<Op>>): Swept {
    Sweep(w, 0, Maximum, now, calls)
  }
}
